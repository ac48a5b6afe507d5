/** One customer's rows and the transactions that change them in place: the entitlement, the
    quota periods and the accesses. */
module CustomerStore {
  import opened Types
  import opened Targets
  import opened Tables
  import opened PlannerLoops
  import PB = PlanBuilder
  import CL = ChangeLoops
  import C = Customers

  /** How a transaction ended: rolled back, committed without a change, or committed with
      the write it hands to the delivery tables. */
  datatype Outcome = RolledBack(error: C.Error) | Unchanged | Done(write: Option<Write>)

  function OutcomeOf(x: C.Txn): Outcome {
    match x
    case Rejected(e) => RolledBack(e)
    case Ignored => Unchanged
    case Committed(_, _, write) => Done(write)
  }

  /** The lists a transaction reads: the customer's accesses and a fleet's topology. */
  datatype Reads = Reads(accesses: seq<Row>, nodes: seq<NodeId>, bridges: seq<BridgeRoute>)

  ghost predicate ReadsOf(s: C.Customer, t: Topology, r: Reads, ids: C.Ids) {
    && DistinctKeys(r.accesses) && MapOf(r.accesses) == s.rows && Shape(s.rows)
    && DistinctNodes(r.nodes) && DistinctKeys(r.bridges) && TopologyFrom(r.nodes, r.bridges) == t
    && PB.Equipped(s.rows, t, ids)
  }

  class Store {
    var ent: C.Entitlement
    var periods: seq<C.Period>
    var rows: map<AccessId, Access>

    function Customer(): C.Customer
      reads this
    {
      C.Customer(ent, periods, rows)
    }

    constructor ()
      ensures Customer() == C.Root
    {
      ent, periods, rows := C.Root.ent, C.Root.periods, C.Root.rows;
    }

    // --------------------------------------------------------------------- periods

    /** CloseOpenQuotaPeriod. */
    method ClosePeriods(now: int)
      modifies this`periods
      ensures periods == C.Closed(old(periods), now)
    {
      for i := 0 to |periods|
        invariant |periods| == |old(periods)|
        invariant forall j | 0 <= j < |periods| :: periods[j] ==
                    if j < i && old(periods)[j].closed.None? then old(periods)[j].(closed := Some(now)) else old(periods)[j]
      {
        if periods[i].closed.None? { periods := periods[i := periods[i].(closed := Some(now))]; }
      }
    }

    /** A new period with a zero counter per node of the fleet. */
    method OpenNewPeriod(now: int, quota: nat, nodes: seq<NodeId>)
      modifies this`periods
      ensures periods == C.Renewed(old(periods), now, quota, SetOf(nodes))
    {
      ClosePeriods(now);
      var usage: map<NodeId, C.NodeUsage> := map[];
      for i := 0 to |nodes|
        invariant usage == C.ZeroCounters(SetOf(nodes[..i]))
      {
        assert nodes[..i + 1] == nodes[..i] + [nodes[i]];
        usage := usage[nodes[i] := C.NodeUsage(0, None)];
      }
      assert nodes[..|nodes|] == nodes;
      periods := periods + [C.Period(now, None, quota, usage)];
    }

    /** UpdateQuotaPeriodQuota and SetNodeQuotaExhausted on the open period; reports whether
        anything was different. */
    method RequotaOpen(quota: nat, now: int) returns (same: bool)
      requires C.OpenPeriod(periods).Some?
      modifies this`periods
      ensures periods == C.WithOpen(old(periods), C.Requotaed(C.OpenPeriod(old(periods)).value, quota, now))
      ensures same <==> Unmoved(C.OpenPeriod(old(periods)).value, quota, now)
    {
      var open := periods[|periods| - 1];
      same := open.quota == quota;
      var usage: map<NodeId, C.NodeUsage> := map[];
      var todo := open.usage.Keys;
      while todo != {}
        invariant todo <= open.usage.Keys && periods == old(periods)
        invariant forall n :: n in usage <==> n in open.usage && n !in todo
        invariant forall n | n in usage :: usage[n] == C.Recomputed(open.usage[n], quota, now)
        invariant same <==> (open.quota == quota && forall n | n in usage :: C.Recomputed(open.usage[n], quota, now) == open.usage[n])
        decreases todo
      {
        var n :| n in todo;
        var u := C.Recomputed(open.usage[n], quota, now);
        if u != open.usage[n] { same := false; }
        usage := usage[n := u];
        todo := todo - {n};
      }
      NewQuota(open, quota, now, usage);
      periods := periods[..|periods| - 1] + [C.Period(open.started, open.closed, quota, usage)];
    }

    // -------------------------------------------------------------------- commands

    /** Writes the rows of a committed transaction. */
    method Enact(ent': C.Entitlement, periods': seq<C.Period>, write: Write, ghost x: C.Txn) returns (o: Outcome)
      requires x == C.Committed(ent', periods', Some(write))
      modifies this
      ensures o == OutcomeOf(x)
      ensures Customer() == C.Next(C.Customer(old(ent), old(periods), old(rows)), x)
      ensures Customer() == C.Customer(ent', periods', WrittenAccesses(old(rows), write))
    {
      ent, periods, rows := ent', periods', WrittenAccesses(rows, write);
      o := Done(Some(write));
    }

    /** ApplyCustomerAccess.Execute for a valid command. */
    method Apply(c: CustomerId, cmd: C.Command, env: C.Env, r: Reads) returns (o: Outcome)
      requires cmd.Apply? && ReadsOf(Customer(), C.TopologyOf(env, cmd.fleet), r, env.ids)
      modifies this
      ensures var x := C.ExecuteApply(c, old(Customer()), cmd, env);
              o == OutcomeOf(x) && Customer() == C.Next(old(Customer()), x)
    {
      var order := C.Classify(cmd, ent);
      if order.Conflict? { return RolledBack(C.CommandConflict); }
      if !order.New? { return Unchanged; }
      if ent.lifecycle.Deleting? { return RolledBack(C.CustomerDeleting); }
      if cmd.fleet !in env.fleets { return RolledBack(C.FleetNotFound); }
      var d := C.ClassifyApply(env.now, cmd, ent);
      if d.Refused? { return RolledBack(d.error); }
      if d.QuotaChange? && C.OpenPeriod(periods).None? { return RolledBack(C.OpenPeriodMissing); }
      o := Grant(c, cmd, d, env, r);
    }

    /** PlanApply and WritePlan. */
    method Grant(c: CustomerId, cmd: C.Command, d: C.Decision, env: C.Env, r: Reads) returns (o: Outcome)
      requires cmd.Apply? && !d.Refused? && (d.QuotaChange? ==> C.OpenPeriod(periods).Some?)
      requires ReadsOf(Customer(), C.TopologyOf(env, cmd.fleet), r, env.ids)
      modifies this
      ensures var x := C.ApplyPlanned(c, old(Customer()), cmd, d, env);
              o == OutcomeOf(x) && Customer() == C.Next(old(Customer()), x)
    {
      ghost var before := Customer();
      FleetNodes(before, C.TopologyOf(env, cmd.fleet), r, env.ids);
      var unmoved, open := WritePeriods(cmd, d, env, r.nodes);
      o := GrantAccesses(c, cmd, d, env, r, open, unmoved, before);
    }

    /** The accesses of an Apply whose quota period is already written. */
    method GrantAccesses(c: CustomerId, cmd: C.Command, d: C.Decision, env: C.Env, r: Reads, open: C.Period, unmoved: bool, ghost before: C.Customer)
      returns (o: Outcome)
      requires cmd.Apply? && !d.Refused? && (d.QuotaChange? ==> C.OpenPeriod(before.periods).Some?)
      requires ent == before.ent && rows == before.rows && periods == C.AppliedPeriods(before, cmd, d, env)
      requires |periods| > 0 && open == periods[|periods| - 1]
      requires !d.QuotaChange? ==> !unmoved
      requires d.QuotaChange? ==> (unmoved <==> Unmoved(C.OpenPeriod(before.periods).value, cmd.quota, env.now))
      requires ReadsOf(before, C.TopologyOf(env, cmd.fleet), r, env.ids)
      modifies this
      ensures var x := C.ApplyPlanned(c, before, cmd, d, env); o == OutcomeOf(x) && Customer() == C.Next(before, x)
    {
      var write, quiet := PlanGrant(c, cmd, open, env, r, before);
      NoOpMeans(before, cmd, d, env, open, unmoved, quiet);
      o := EnactGrant(c, cmd, d, env, write, unmoved && quiet, before);
    }

    /** writeQuotaPeriod and writeNodeQuotaUsage; reports a quota change that changes nothing. */
    method WritePeriods(cmd: C.Command, d: C.Decision, env: C.Env, nodes: seq<NodeId>) returns (unmoved: bool, open: C.Period)
      requires cmd.Apply? && !d.Refused? && (d.QuotaChange? ==> C.OpenPeriod(periods).Some?)
      requires SetOf(nodes) == C.TopologyOf(env, cmd.fleet).nodes
      modifies this`periods
      ensures periods == C.AppliedPeriods(old(Customer()), cmd, d, env)
      ensures |periods| > 0 && open == periods[|periods| - 1]
      ensures !d.QuotaChange? ==> !unmoved
      ensures d.QuotaChange? ==> (unmoved <==> Unmoved(C.OpenPeriod(old(periods)).value, cmd.quota, env.now))
    {
      unmoved := false;
      if d.QuotaChange? {
        unmoved := RequotaOpen(cmd.quota, env.now);
      } else {
        OpenNewPeriod(env.now, cmd.quota, nodes);
      }
      open := periods[|periods| - 1];
    }

    method PlanGrant(c: CustomerId, cmd: C.Command, open: C.Period, env: C.Env, r: Reads, ghost before: C.Customer)
      returns (write: Write, quiet: bool)
      requires cmd.Apply? && before.ent == ent && before.rows == rows
      requires ReadsOf(before, C.TopologyOf(env, cmd.fleet), r, env.ids)
      ensures write == C.PlannedWrite(c, before, cmd, open, env)
      ensures quiet <==> Settled(C.TopologyOf(env, cmd.fleet), rows, C.Granted(before, cmd), env.now, open)
    {
      write, quiet := PB.Apply(c, Customer(), cmd, open, r.accesses, r.nodes, r.bridges, env);
    }

    method EnactGrant(c: CustomerId, cmd: C.Command, d: C.Decision, env: C.Env, write: Write, noOp: bool, ghost before: C.Customer)
      returns (o: Outcome)
      requires cmd.Apply? && !d.Refused? && (d.QuotaChange? ==> C.OpenPeriod(before.periods).Some?)
      requires ent == before.ent && rows == before.rows && periods == C.AppliedPeriods(before, cmd, d, env)
      requires |periods| > 0 && write == C.PlannedWrite(c, before, cmd, periods[|periods| - 1], env)
      requires noOp <==> C.ApplyNoOp(before, cmd, d, env)
      modifies this
      ensures var x := C.ApplyPlanned(c, before, cmd, d, env); o == OutcomeOf(x) && Customer() == C.Next(before, x)
    {
      ghost var x := C.ApplyPlanned(c, before, cmd, d, env);
      var granted := C.Entitlement(C.AppliedLifecycle(ent), cmd.fleet, cmd.expiresAt,
                                   if noOp then ent.version else ent.version + 1, cmd.number, Some(cmd),
                                   if d.Create? then None else ent.deleteNotBefore);
      assert x == C.Committed(granted, periods, Some(write)) by {
        GrantParts(c, before, cmd, d, env, write);
      }
      o := Enact(granted, periods, write, x);
    }

    /** SetCustomerAccessState.Execute for a valid command. */
    method SetState(c: CustomerId, cmd: C.Command, env: C.Env, r: Reads) returns (o: Outcome)
      requires cmd.SetState? && ReadsOf(Customer(), C.TopologyOf(env, ent.fleet), r, env.ids)
      modifies this
      ensures var x := C.ExecuteSetState(c, old(Customer()), cmd, env);
              o == OutcomeOf(x) && Customer() == C.Next(old(Customer()), x)
    {
      if ent.lifecycle.Deleted? { return RolledBack(C.CustomerNotFound); }
      var order := C.Classify(cmd, ent);
      if order.Conflict? { return RolledBack(C.CommandConflict); }
      if !order.New? { return Unchanged; }
      if ent.lifecycle.Deleting? { return RolledBack(C.CustomerDeleting); }
      if cmd.target.Active? && ent.lifecycle.Blocked? && C.OpenPeriod(periods).None? { return RolledBack(C.OpenPeriodMissing); }
      var changes := StateChanges(cmd.target, env, r);
      var write := PB.Restricted(c, cmd.target, rows, changes, env.live, cmd.target.Blocked?, env.ids);
      o := EnactState(c, cmd, env, changes, write);
    }

    method EnactState(c: CustomerId, cmd: C.Command, env: C.Env, changes: map<AccessId, Update>, write: Write) returns (o: Outcome)
      requires cmd.SetState? && C.Classify(cmd, ent).New? && !ent.lifecycle.Deleted? && !ent.lifecycle.Deleting?
      requires cmd.target.Active? && ent.lifecycle.Blocked? ==> C.OpenPeriod(periods).Some?
      requires changes == C.StateChanges(Customer(), cmd.target, env) && changes.Keys <= rows.Keys
      requires write == C.LifecycleWrite(c, cmd.target, rows, changes, env.live, cmd.target.Blocked?, env.ids)
      modifies this
      ensures var x := C.ExecuteSetState(c, old(Customer()), cmd, env);
              o == OutcomeOf(x) && Customer() == C.Next(old(Customer()), x)
    {
      StateParts(c, Customer(), cmd, env, changes, write);
      o := Enact(ent.(lifecycle := cmd.target, version := if IsEmpty(changes) then ent.version else ent.version + 1,
                      lastCommand := cmd.number, fingerprint := Some(cmd), deleteNotBefore := None),
                 periods, write, C.ExecuteSetState(c, Customer(), cmd, env));
    }

    /** The changes of a new lifecycle: forced absence when blocking, the rule over the
        accesses in sync when unblocking. */
    method StateChanges(target: Lifecycle, env: C.Env, r: Reads) returns (changes: map<AccessId, Update>)
      requires ReadsOf(Customer(), C.TopologyOf(env, ent.fleet), r, env.ids)
      requires target.Active? && ent.lifecycle.Blocked? ==> C.OpenPeriod(periods).Some?
      ensures changes == C.StateChanges(Customer(), target, env)
      ensures changes.Keys <= rows.Keys
    {
      changes := map[];
      if target != ent.lifecycle {
        if target.Blocked? {
          changes := CL.PlanForceAbsent(r.accesses);
        } else if target.Active? && ent.lifecycle.Blocked? {
          var plan := PB.Split(r.nodes, r.bridges, r.accesses);
          changes := PB.ChangesInSync(TopologyFrom(r.nodes, r.bridges), rows, plan, ent.(lifecycle := Active), env.now, C.OpenPeriod(periods).value);
        }
      }
    }

    /** DeleteCustomerAccess.Execute for a valid command. */
    method Delete(c: CustomerId, cmd: C.Command, env: C.Env, r: Reads) returns (o: Outcome)
      requires cmd.Delete? && ReadsOf(Customer(), C.TopologyOf(env, ent.fleet), r, env.ids)
      modifies this
      ensures var x := C.ExecuteDelete(c, old(Customer()), cmd, env);
              o == OutcomeOf(x) && Customer() == C.Next(old(Customer()), x)
    {
      var order := C.Classify(cmd, ent);
      if order.Conflict? { return RolledBack(C.CommandConflict); }
      if !order.New? { return Unchanged; }
      if ent.lifecycle.Deleted? {
        o := RaiseTombstone(c, cmd, env);
      } else {
        var changes := CL.PlanForceAbsent(r.accesses);
        o := EnactDelete(c, cmd, env, changes);
      }
    }

    method RaiseTombstone(c: CustomerId, cmd: C.Command, env: C.Env) returns (o: Outcome)
      requires cmd.Delete? && C.Classify(cmd, ent).New? && ent.lifecycle.Deleted? && PB.OneOwnerEach(env.ids)
      modifies this
      ensures var x := C.ExecuteDelete(c, old(Customer()), cmd, env);
              o == OutcomeOf(x) && Customer() == C.Next(old(Customer()), x)
    {
      var write := PB.Restricted(c, Deleted, rows, map[], {}, false, env.ids);
      TombstoneParts(c, Customer(), cmd, env, write);
      o := Enact(ent.(lastCommand := cmd.number, fingerprint := Some(cmd), deleteNotBefore := None), periods, write,
                 C.ExecuteDelete(c, Customer(), cmd, env));
    }

    method EnactDelete(c: CustomerId, cmd: C.Command, env: C.Env, changes: map<AccessId, Update>) returns (o: Outcome)
      requires cmd.Delete? && C.Classify(cmd, ent).New? && !ent.lifecycle.Deleted? && changes == C.ForcedAbsent(rows)
      requires PB.OneOwnerEach(env.ids) && forall a | a in rows :: PB.HasOp(env.ids, a)
      modifies this
      ensures var x := C.ExecuteDelete(c, old(Customer()), cmd, env);
              o == OutcomeOf(x) && Customer() == C.Next(old(Customer()), x)
    {
      var write := PB.Restricted(c, Deleting, rows, changes, env.live, true, env.ids);
      DeleteParts(c, Customer(), cmd, env, changes, write);
      o := Enact(ent.(lifecycle := Deleting, version := if IsEmpty(changes) then ent.version else ent.version + 1,
                      lastCommand := cmd.number, fingerprint := Some(cmd), deleteNotBefore := Some(env.now + env.grace)),
                 periods, write, C.ExecuteDelete(c, Customer(), cmd, env));
    }

    // ------------------------------------------------------------------ background

    /** PlanDesiredChanges where every outcome is ABSENT, over the given rows. */
    method Revoke(accesses: map<AccessId, Access>) returns (changes: map<AccessId, Update>)
      ensures changes == C.Revoked(accesses)
    {
      changes := map[];
      var todo := accesses.Keys;
      while todo != {}
        invariant todo <= accesses.Keys
        invariant forall a :: a in changes <==> a in accesses && a !in todo && accesses[a].desired.Present?
        invariant forall a | a in changes :: changes[a] == SetDesired(Absent, accesses[a].version + 1)
        decreases todo
      {
        var a :| a in todo;
        if accesses[a].desired.Present? { changes := changes[a := SetDesired(Absent, accesses[a].version + 1)]; }
        todo := todo - {a};
      }
    }

    /** ExpireCustomers.ProcessNext for one customer. */
    method Expire(c: CustomerId, env: C.Env) returns (o: Outcome)
      requires PB.OneOwnerEach(env.ids) && forall a | a in rows :: PB.HasOp(env.ids, a)
      modifies this
      ensures var x := C.Expire(c, old(Customer()), env);
              o == OutcomeOf(x) && Customer() == C.Next(old(Customer()), x)
    {
      if !C.Due(Customer(), env.now) { return Unchanged; }
      var changes := Revoke(rows);
      var write := PB.BuildWrite(c, ent.lifecycle, rows, map[], changes, env.ids);
      ghost var x := C.Expire(c, Customer(), env);
      assert x == C.Committed(ent.(version := ent.version + 1), periods, Some(write)) by {
        ExpireParts(c, Customer(), env, changes, write);
      }
      o := Enact(ent.(version := ent.version + 1), periods, write, x);
    }

    /** The transaction of one usage group: `counted` is what its new items add up to. */
    method Account(c: CustomerId, n: NodeId, collectedAt: int, counted: Option<nat>, env: C.Env) returns (o: Outcome)
      requires PB.OneOwnerEach(env.ids) && forall a | a in rows :: PB.HasOp(env.ids, a)
      modifies this
      ensures var x := C.Account(c, old(Customer()), n, collectedAt, counted, env);
              o == OutcomeOf(x) && Customer() == C.Next(old(Customer()), x)
    {
      var at := C.PeriodAt(periods, collectedAt);
      if at.None? { return Unchanged; }
      var p := C.WithCounters(periods[at.value], {n});
      if p.closed.Some? || counted.None? {
        periods := periods[at.value := p];
        return Done(None);
      }
      var total := p.usage[n].total + counted.value;
      var crossed := p.usage[n].exhaustedAt.None? && C.Exceeds(total, p.quota);
      var usage := C.NodeUsage(total, if crossed then Some(env.now) else p.usage[n].exhaustedAt);
      periods := periods[at.value := p.(usage := p.usage[n := usage])];
      if !crossed { return Done(None); }
      o := RevokeNode(c, n, env);
    }

    /** Revokes the live accesses of a node that has reached its quota. */
    method RevokeNode(c: CustomerId, n: NodeId, env: C.Env) returns (o: Outcome)
      requires PB.OneOwnerEach(env.ids) && forall a | a in rows :: PB.HasOp(env.ids, a)
      modifies this`rows
      ensures var changes := C.Revoked(C.AtNode(old(rows), n));
              var write := if IsEmpty(changes) then None else Some(C.WriteOf(c, ent.lifecycle, old(rows), map[], changes, env.ids));
              o == Done(write) && rows == C.RowsAfter(old(rows), write)
    {
      var changes := Revoke(C.AtNode(rows, n));
      if IsEmpty(changes) { return Done(None); }
      var write := PB.BuildWrite(c, ent.lifecycle, rows, map[], changes, env.ids);
      rows := WrittenAccesses(rows, write);
      o := Done(Some(write));
    }

    /** materializeCustomer. */
    method Materialize(c: CustomerId, env: C.Env, r: Reads) returns (o: Outcome)
      requires ReadsOf(Customer(), C.TopologyOf(env, ent.fleet), r, env.ids)
      modifies this
      ensures var x := C.Materialize(c, old(Customer()), env);
              o == OutcomeOf(x) && Customer() == C.Next(old(Customer()), x)
    {
      if ent.lifecycle.Deleting? || ent.lifecycle.Deleted? { return Unchanged; }
      if C.OpenPeriod(periods).None? { return RolledBack(C.OpenPeriodMissing); }
      var write, quiet := PB.Materialize(c, Customer(), r.accesses, r.nodes, r.bridges, env);
      var open := C.OpenPeriod(periods).value;
      var inits := MissingCounters(open, r.nodes, ent.expiresAt <= env.now);
      o := EnactMaterialize(c, env, quiet, inits, write);
    }

    method EnactMaterialize(c: CustomerId, env: C.Env, quiet: bool, inits: set<NodeId>, write: Write) returns (o: Outcome)
      requires Realigns(c, Customer(), env, quiet, inits, write)
      modifies this
      ensures var x := C.Materialize(c, old(Customer()), env);
              o == OutcomeOf(x) && Customer() == C.Next(old(Customer()), x)
    {
      MaterializeParts(c, Customer(), env, quiet, inits, write);
      if quiet && inits == {} { return Unchanged; }
      var open := C.OpenPeriod(periods).value;
      o := Enact(ent.(version := ent.version + 1), periods[..|periods| - 1] + [C.WithCounters(open, inits)], write,
                 C.Materialize(c, Customer(), env));
    }

    /** missingUsageNodes. */
    method MissingCounters(open: C.Period, nodes: seq<NodeId>, expired: bool) returns (missing: set<NodeId>)
      ensures missing == if expired then {} else SetOf(nodes) - open.usage.Keys
    {
      missing := {};
      if expired { return; }
      for i := 0 to |nodes|
        invariant missing == SetOf(nodes[..i]) - open.usage.Keys
      {
        assert nodes[..i + 1] == nodes[..i] + [nodes[i]];
        if nodes[i] !in open.usage { missing := missing + {nodes[i]}; }
      }
      assert nodes[..|nodes|] == nodes;
    }
  }

  lemma FleetNodes(s: C.Customer, t: Topology, r: Reads, ids: C.Ids)
    requires ReadsOf(s, t, r, ids)
    ensures SetOf(r.nodes) == t.nodes
  {
  }

  lemma GrantParts(c: CustomerId, s: C.Customer, cmd: C.Command, d: C.Decision, env: C.Env, write: Write)
    requires cmd.Apply? && !d.Refused? && (d.QuotaChange? ==> C.OpenPeriod(s.periods).Some?)
    requires var periods := C.AppliedPeriods(s, cmd, d, env); write == C.PlannedWrite(c, s, cmd, periods[|periods| - 1], env)
    ensures C.ApplyPlanned(c, s, cmd, d, env) == C.Committed(
              C.Entitlement(C.AppliedLifecycle(s.ent), cmd.fleet, cmd.expiresAt,
                            if C.ApplyNoOp(s, cmd, d, env) then s.ent.version else s.ent.version + 1, cmd.number, Some(cmd),
                            if d.Create? then None else s.ent.deleteNotBefore),
              C.AppliedPeriods(s, cmd, d, env), Some(write))
  {
  }

  lemma StateParts(c: CustomerId, s: C.Customer, cmd: C.Command, env: C.Env, changes: map<AccessId, Update>, write: Write)
    requires cmd.SetState? && C.Classify(cmd, s.ent).New? && !s.ent.lifecycle.Deleted? && !s.ent.lifecycle.Deleting?
    requires cmd.target.Active? && s.ent.lifecycle.Blocked? ==> C.OpenPeriod(s.periods).Some?
    requires changes == C.StateChanges(s, cmd.target, env) && changes.Keys <= s.rows.Keys
    requires write == C.LifecycleWrite(c, cmd.target, s.rows, changes, env.live, cmd.target.Blocked?, env.ids)
    ensures C.ExecuteSetState(c, s, cmd, env) == C.Committed(
              s.ent.(lifecycle := cmd.target, version := if IsEmpty(changes) then s.ent.version else s.ent.version + 1,
                     lastCommand := cmd.number, fingerprint := Some(cmd), deleteNotBefore := None),
              s.periods, Some(write))
  {
  }

  lemma TombstoneParts(c: CustomerId, s: C.Customer, cmd: C.Command, env: C.Env, write: Write)
    requires cmd.Delete? && C.Classify(cmd, s.ent).New? && s.ent.lifecycle.Deleted?
    requires write == C.LifecycleWrite(c, Deleted, s.rows, map[], {}, false, env.ids)
    ensures C.ExecuteDelete(c, s, cmd, env) == C.Committed(
              s.ent.(lastCommand := cmd.number, fingerprint := Some(cmd), deleteNotBefore := None), s.periods, Some(write))
  {
  }

  lemma DeleteParts(c: CustomerId, s: C.Customer, cmd: C.Command, env: C.Env, changes: map<AccessId, Update>, write: Write)
    requires cmd.Delete? && C.Classify(cmd, s.ent).New? && !s.ent.lifecycle.Deleted? && changes == C.ForcedAbsent(s.rows)
    requires write == C.LifecycleWrite(c, Deleting, s.rows, changes, env.live, true, env.ids)
    ensures C.ExecuteDelete(c, s, cmd, env) == C.Committed(
              s.ent.(lifecycle := Deleting, version := if IsEmpty(changes) then s.ent.version else s.ent.version + 1,
                     lastCommand := cmd.number, fingerprint := Some(cmd), deleteNotBefore := Some(env.now + env.grace)),
              s.periods, Some(write))
  {
  }

  lemma ExpireParts(c: CustomerId, s: C.Customer, env: C.Env, changes: map<AccessId, Update>, write: Write)
    requires C.Due(s, env.now) && changes == C.Revoked(s.rows)
    requires write == C.WriteOf(c, s.ent.lifecycle, s.rows, map[], changes, env.ids)
    ensures C.Expire(c, s, env) == C.Committed(s.ent.(version := s.ent.version + 1), s.periods, Some(write))
  {
  }

  /** What the planner loops found about a customer that is neither deleting nor deleted. */
  ghost predicate Realigns(c: CustomerId, s: C.Customer, env: C.Env, quiet: bool, inits: set<NodeId>, write: Write) {
    && !s.ent.lifecycle.Deleting? && !s.ent.lifecycle.Deleted? && C.OpenPeriod(s.periods).Some?
    && var t, open := C.TopologyOf(env, s.ent.fleet), C.OpenPeriod(s.periods).value;
       && (quiet <==> (PB.Aligned(t, s.rows, s.ent, env.now, open) && (env.now < s.ent.expiresAt ==> Complete(t, s.rows))))
       && inits == (if s.ent.expiresAt <= env.now then {} else t.nodes - open.usage.Keys)
       && write == C.MaterializedWrite(c, s, C.PlanMaterialize(c, s, env), env)
  }

  lemma MaterializeParts(c: CustomerId, s: C.Customer, env: C.Env, quiet: bool, inits: set<NodeId>, write: Write)
    requires Realigns(c, s, env, quiet, inits, write)
    ensures C.Materialize(c, s, env) ==
              if quiet && inits == {} then C.Ignored
              else C.Committed(s.ent.(version := s.ent.version + 1),
                               C.WithOpen(s.periods, C.WithCounters(C.OpenPeriod(s.periods).value, inits)), Some(write))
  {
    RealignQuiet(c, s, env, quiet, inits, write);
    assert C.PlanMaterialize(c, s, env).inits == inits;
  }

  lemma RealignQuiet(c: CustomerId, s: C.Customer, env: C.Env, quiet: bool, inits: set<NodeId>, write: Write)
    requires Realigns(c, s, env, quiet, inits, write)
    ensures quiet && inits == {} <==> C.MaterializeNoOp(s, env)
  {
    var t, open := C.TopologyOf(env, s.ent.fleet), C.OpenPeriod(s.periods).value;
    assert t.nodes - open.usage.Keys == {} <==> t.nodes <= open.usage.Keys by {
      if t.nodes - open.usage.Keys == {} {
        assert forall n | n in t.nodes :: n in open.usage.Keys || n in t.nodes - open.usage.Keys;
      }
    }
    assert PB.Aligned(t, s.rows, s.ent, env.now, open) <== C.MaterializeNoOp(s, env);
  }

  /** The quota and every exhausted_at of the period stand. */
  ghost predicate Unmoved(p: C.Period, quota: nat, now: int) {
    p.quota == quota && forall n | n in p.usage :: C.Recomputed(p.usage[n], quota, now) == p.usage[n]
  }

  /** Nothing is missing and nothing in sync needs a change. */
  ghost predicate Settled(t: Topology, rows: map<AccessId, Access>, ent: C.Entitlement, now: int, p: C.Period) {
    Complete(t, rows) && PB.AsWanted(t, rows, ent, now, p)
  }

  lemma NewQuota(p: C.Period, quota: nat, now: int, usage: map<NodeId, C.NodeUsage>)
    requires usage.Keys == p.usage.Keys && forall n | n in usage :: usage[n] == C.Recomputed(p.usage[n], quota, now)
    ensures C.Requotaed(p, quota, now) == C.Period(p.started, p.closed, quota, usage)
  {
    assert usage == C.Requotaed(p, quota, now).usage;
  }

  /** The two halves of the no-op test of an Apply. */
  lemma NoOpMeans(s: C.Customer, cmd: C.Command, d: C.Decision, env: C.Env, open: C.Period, unmoved: bool, quiet: bool)
    requires cmd.Apply? && !d.Refused? && (d.QuotaChange? ==> C.OpenPeriod(s.periods).Some?)
    requires open == C.AppliedPeriods(s, cmd, d, env)[|C.AppliedPeriods(s, cmd, d, env)| - 1]
    requires !d.QuotaChange? ==> !unmoved
    requires d.QuotaChange? ==> (unmoved <==> Unmoved(C.OpenPeriod(s.periods).value, cmd.quota, env.now))
    requires quiet <==> Settled(C.TopologyOf(env, cmd.fleet), s.rows, C.Granted(s, cmd), env.now, open)
    ensures unmoved && quiet <==> C.ApplyNoOp(s, cmd, d, env)
  {
    if d.QuotaChange? && C.OpenPeriod(s.periods).value.quota == cmd.quota {
      forall n ensures C.Exhausted(open, n) == C.Exhausted(C.OpenPeriod(s.periods).value, n) {
      }
    }
  }
}
