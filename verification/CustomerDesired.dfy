/** The desired state of every access follows one rule, materialization makes the accesses
    match the topology exactly, and repeating a command or a materialization changes nothing. */
module CustomerDesired {
  import opened Types
  import opened Targets
  import opened Customers
  import opened CustomerRules

  // ------------------------------------------------------------------------- rule

  /** The rule for one access: PRESENT only for an ACTIVE customer on an unexhausted node,
      and before expiry exactly then. */
  ghost predicate Ruled(ent: Entitlement, p: Period, now: int, row: Access) {
    && (row.desired.Present? ==> ent.lifecycle.Active? && !Exhausted(p, row.node))
    && (now < ent.expiresAt && ent.lifecycle.Active? && !Exhausted(p, row.node) ==> row.desired.Present?)
  }

  /** Every live access is in sync with the topology and follows the rule. */
  ghost predicate Obeys(s: Customer, t: Topology, now: int) {
    s.ent.lifecycle.Deleted?
    || (OpenPeriod(s.periods).Some?
        && forall a | a in s.rows && !s.rows[a].retired ::
             InSync(t, s.rows[a]) && Ruled(s.ent, OpenPeriod(s.periods).value, now, s.rows[a]))
  }

  // ------------------------------------------------------------- changes and creates

  lemma ChangedRow(rows: map<AccessId, Access>, t: Topology, ent: Entitlement, now: int, p: Period, w: Write, a: AccessId)
    requires a in rows && w.updates == Changes(t, rows, ent, now, p) && w.unsent == {}
    ensures var row, row' := rows[a], WrittenAccesses(rows, w)[a];
            && row'.retired == row.retired && row'.target == row.target && row'.egress == row.egress && row'.node == row.node
            && (InSync(t, row) ==> row'.desired == Want(ent, now, p, row.node))
            && (!InSync(t, row) ==> row' == row)
  {
    assert WrittenAccesses(rows, w)[a] == WrittenRow(rows[a], a, w);
  }

  lemma CreatedRow(c: CustomerId, rows: map<AccessId, Access>, t: Topology, ent: Entitlement, now: int, p: Period, ids: Ids, w: Write, a: AccessId)
    requires w.creates == Creates(c, t, rows, ent, now, p, ids)
    requires a in WrittenAccesses(rows, w) && a !in rows
    ensures var row := WrittenAccesses(rows, w)[a];
            && a in ids.targets && row.target == ids.targets[a] && Missing(t, rows, row.target) && InSync(t, row)
            && row.node == TargetAt(t, row.target).node && row.desired == Want(ent, now, p, row.node)
  {
  }

  /** All targets are covered once the missing ones are created. */
  lemma CreatesComplete(c: CustomerId, s: Customer, t: Topology, ent: Entitlement, now: int, p: Period, env: Env, w: Write)
    requires Supplied(s, env) && w.creates == Creates(c, t, s.rows, ent, now, p, env.ids)
    requires t == NoTopology || exists f :: f in env.fleets && env.fleets[f] == t
    requires forall a | a in s.rows && !s.rows[a].retired && IsTarget(t, s.rows[a].target) ::
               var row := WrittenAccesses(s.rows, w)[a]; !row.retired && row.target == s.rows[a].target
    ensures Complete(t, WrittenAccesses(s.rows, w))
  {
    var rows' := WrittenAccesses(s.rows, w);
    forall k | IsTarget(t, k) ensures Covered(rows', k) {
      if Covered(s.rows, k) {
        var a :| a in s.rows && !s.rows[a].retired && s.rows[a].target == k;
        assert a in rows' && !rows'[a].retired && rows'[a].target == k;
      } else {
        var f :| f in env.fleets && env.fleets[f] == t;
        var a :| a in env.ids.targets && env.ids.targets[a] == k;
        CreatedAt(c, s, t, ent, now, p, env, w, a);
      }
    }
  }

  lemma CreatedAt(c: CustomerId, s: Customer, t: Topology, ent: Entitlement, now: int, p: Period, env: Env, w: Write, a: AccessId)
    requires Supplied(s, env) && w.creates == Creates(c, t, s.rows, ent, now, p, env.ids)
    requires a in env.ids.targets && Missing(t, s.rows, env.ids.targets[a])
    ensures a in WrittenAccesses(s.rows, w)
    ensures var row := WrittenAccesses(s.rows, w)[a]; !row.retired && row.target == env.ids.targets[a]
  {
    assert a in w.creates && a !in s.rows;
  }

  // ---------------------------------------------------------------------- accesses

  /** The live accesses match the targets; before expiry every target has one. */
  ghost predicate Synced(s: Customer, t: Topology, now: int) {
    && Matches(t, s.rows)
    && (now < s.ent.expiresAt ==> Complete(t, s.rows))
  }

  /** Nothing but desired states, versions and apply states differs. */
  ghost predicate SameTargets(rows: map<AccessId, Access>, rows': map<AccessId, Access>) {
    && rows'.Keys == rows.Keys
    && forall a | a in rows :: rows'[a].target == rows[a].target && rows'[a].egress == rows[a].egress
         && rows'[a].retired == rows[a].retired && rows'[a].node == rows[a].node
         && rows'[a].generation == rows[a].generation && rows'[a].customer == rows[a].customer
  }

  lemma SameSynced(s: Customer, s': Customer, t: Topology, now: int)
    requires Synced(s, t, now) && SameTargets(s.rows, s'.rows) && s'.ent.expiresAt == s.ent.expiresAt
    ensures Synced(s', t, now)
  {
    forall k | Covered(s.rows, k) ensures Covered(s'.rows, k) {
      var a :| a in s.rows && !s.rows[a].retired && s.rows[a].target == k;
      assert !s'.rows[a].retired && s'.rows[a].target == k;
    }
  }

  lemma DesiredOnly(rows: map<AccessId, Access>, w: Write)
    requires IsEmpty(w.creates) && forall a | a in w.updates :: w.updates[a].SetDesired?
    ensures SameTargets(rows, WrittenAccesses(rows, w))
  {
    assert WrittenAccesses(rows, w).Keys == rows.Keys;
  }

  // ------------------------------------------------------------------------- apply

  lemma AppliedSynced(c: CustomerId, s: Customer, cmd: Command, d: Decision, env: Env)
    requires Sound(s, env.now) && Supplied(s, env) && cmd.Apply? && !d.Refused? && cmd.fleet in env.fleets
    requires d == ClassifyApply(env.now, cmd, s.ent) && (d.QuotaChange? ==> OpenPeriod(s.periods).Some?)
    ensures var s', t := Next(s, ApplyPlanned(c, s, cmd, d, env)), TopologyOf(env, cmd.fleet);
            && Complete(t, s'.rows)
            && (Matches(t, s.rows) ==> Matches(t, s'.rows))
  {
    var periods := AppliedPeriods(s, cmd, d, env);
    PlannedNext(c, s, cmd, d, env);
    PlannedMatches(c, s, cmd, periods[|periods| - 1], env);
  }

  lemma PlannedMatches(c: CustomerId, s: Customer, cmd: Command, open: Period, env: Env)
    requires Supplied(s, env) && cmd.Apply? && cmd.fleet in env.fleets
    ensures var rows', t := WrittenAccesses(s.rows, PlannedWrite(c, s, cmd, open, env)), TopologyOf(env, cmd.fleet);
            Complete(t, rows') && (Matches(t, s.rows) ==> Matches(t, rows'))
  {
    var w, t, ent := PlannedWrite(c, s, cmd, open, env), TopologyOf(env, cmd.fleet), Granted(s, cmd);
    var rows' := WrittenAccesses(s.rows, w);
    forall a | a in s.rows ensures rows'[a].retired == s.rows[a].retired && rows'[a].target == s.rows[a].target
      && rows'[a].egress == s.rows[a].egress
    {
      ChangedRow(s.rows, t, ent, env.now, open, w, a);
    }
    CreatesComplete(c, s, t, ent, env.now, open, env, w);
    forall a | a in rows' && a !in s.rows ensures InSync(t, rows'[a]) {
      CreatedRow(c, s.rows, t, ent, env.now, open, env.ids, w, a);
    }
  }

  /** After an accepted Apply every live access follows the rule. */
  lemma PlannedObeys(c: CustomerId, s: Customer, cmd: Command, open: Period, env: Env, a: AccessId)
    requires cmd.Apply? && Matches(TopologyOf(env, cmd.fleet), s.rows)
    requires a in WrittenAccesses(s.rows, PlannedWrite(c, s, cmd, open, env))
    requires !WrittenAccesses(s.rows, PlannedWrite(c, s, cmd, open, env))[a].retired
    ensures var row := WrittenAccesses(s.rows, PlannedWrite(c, s, cmd, open, env))[a];
            InSync(TopologyOf(env, cmd.fleet), row) && row.desired == Want(Granted(s, cmd), env.now, open, row.node)
  {
    var w, t, ent := PlannedWrite(c, s, cmd, open, env), TopologyOf(env, cmd.fleet), Granted(s, cmd);
    if a in s.rows {
      ChangedRow(s.rows, t, ent, env.now, open, w, a);
    } else {
      CreatedRow(c, s.rows, t, ent, env.now, open, env.ids, w, a);
    }
  }

  lemma ApplyObeys(c: CustomerId, s: Customer, cmd: Command, env: Env)
    requires Sound(s, env.now) && Supplied(s, env) && cmd.Apply? && Valid(cmd)
    requires Obeys(s, TopologyOf(env, s.ent.fleet), env.now)
    ensures var s' := Next(s, ExecuteApply(c, s, cmd, env)); Obeys(s', TopologyOf(env, s'.ent.fleet), env.now)
  {
    if ExecuteApply(c, s, cmd, env).Committed? {
      AppliedObeys(c, s, cmd, ClassifyApply(env.now, cmd, s.ent), env);
    }
  }

  lemma AppliedObeys(c: CustomerId, s: Customer, cmd: Command, d: Decision, env: Env)
    requires Sound(s, env.now) && cmd.Apply? && Valid(cmd) && !d.Refused? && cmd.fleet in env.fleets
    requires d == ClassifyApply(env.now, cmd, s.ent) && (d.QuotaChange? ==> OpenPeriod(s.periods).Some?)
    requires Obeys(s, TopologyOf(env, s.ent.fleet), env.now)
    ensures var s' := Next(s, ApplyPlanned(c, s, cmd, d, env)); Obeys(s', TopologyOf(env, cmd.fleet), env.now) && s'.ent.fleet == cmd.fleet
  {
    var s' := Next(s, ApplyPlanned(c, s, cmd, d, env));
    var periods := AppliedPeriods(s, cmd, d, env);
    PlannedNext(c, s, cmd, d, env);
    ApplyAccounts(c, s, cmd, d, env);
    BeforeApply(s, cmd, d, env);
    forall a | a in s'.rows && !s'.rows[a].retired
      ensures InSync(TopologyOf(env, cmd.fleet), s'.rows[a])
        && s'.rows[a].desired == Want(Granted(s, cmd), env.now, periods[|periods| - 1], s'.rows[a].node)
    {
      PlannedObeys(c, s, cmd, periods[|periods| - 1], env, a);
    }
    WantedObeys(s', Granted(s, cmd), periods[|periods| - 1], TopologyOf(env, cmd.fleet), env.now);
  }

  lemma BeforeApply(s: Customer, cmd: Command, d: Decision, env: Env)
    requires Presences(s) && cmd.Apply? && !d.Refused? && d == ClassifyApply(env.now, cmd, s.ent)
    requires Obeys(s, TopologyOf(env, s.ent.fleet), env.now)
    ensures Matches(TopologyOf(env, cmd.fleet), s.rows)
  {
  }

  lemma WantedObeys(s: Customer, ent: Entitlement, open: Period, t: Topology, now: int)
    requires OpenPeriod(s.periods) == Some(open) && s.ent.lifecycle == ent.lifecycle && s.ent.expiresAt == ent.expiresAt
    requires forall a | a in s.rows && !s.rows[a].retired ::
               InSync(t, s.rows[a]) && s.rows[a].desired == Want(ent, now, open, s.rows[a].node)
    ensures Obeys(s, t, now)
  {
  }

  // --------------------------------------------------------------- lifecycle, expiry

  lemma StateNext(c: CustomerId, s: Customer, cmd: Command, env: Env)
    requires cmd.SetState? && Valid(cmd) && ExecuteSetState(c, s, cmd, env).Committed?
    ensures var x, s' := ExecuteSetState(c, s, cmd, env), Next(s, ExecuteSetState(c, s, cmd, env));
            && x.write.Some? && s'.rows == WrittenAccesses(s.rows, x.write.value) && s'.periods == s.periods
            && s'.ent.lifecycle == cmd.target && s'.ent.fleet == s.ent.fleet && s'.ent.expiresAt == s.ent.expiresAt
            && IsEmpty(x.write.value.creates) && !s.ent.lifecycle.Deleted? && !s.ent.lifecycle.Deleting?
            && x.write.value.unsent <= x.write.value.updates.Keys
            && x.write.value.updates ==
                 if cmd.target == s.ent.lifecycle then map[]
                 else if cmd.target.Blocked? then ForcedAbsent(s.rows)
                 else Changes(TopologyOf(env, s.ent.fleet), s.rows, s.ent.(lifecycle := Active), env.now, OpenPeriod(s.periods).value)
  {
  }

  lemma SetStateObeys(c: CustomerId, s: Customer, cmd: Command, env: Env)
    requires Sound(s, env.now) && cmd.SetState? && Valid(cmd)
    requires Obeys(s, TopologyOf(env, s.ent.fleet), env.now)
    ensures var s' := Next(s, ExecuteSetState(c, s, cmd, env)); Obeys(s', TopologyOf(env, s'.ent.fleet), env.now)
  {
    var x := ExecuteSetState(c, s, cmd, env);
    if x.Committed? {
      StateNext(c, s, cmd, env);
      StateRows(s, Next(s, x), cmd.target, TopologyOf(env, s.ent.fleet), env.now, x.write.value);
    }
  }

  lemma StateRows(s: Customer, s': Customer, target: Lifecycle, t: Topology, now: int, w: Write)
    requires Obeys(s, t, now) && OpenPeriod(s.periods).Some? && !s.ent.lifecycle.Deleted?
    requires target.Active? || target.Blocked?
    requires s'.rows == WrittenAccesses(s.rows, w) && s'.periods == s.periods && s'.ent.lifecycle == target && s'.ent.expiresAt == s.ent.expiresAt
    requires IsEmpty(w.creates) && w.unsent <= w.updates.Keys
    requires w.updates == if target == s.ent.lifecycle then map[] else if target.Blocked? then ForcedAbsent(s.rows)
                          else Changes(t, s.rows, s.ent.(lifecycle := Active), now, OpenPeriod(s.periods).value)
    ensures Obeys(s', t, now)
  {
    forall a | a in s'.rows && !s'.rows[a].retired
      ensures InSync(t, s'.rows[a]) && Ruled(s'.ent, OpenPeriod(s.periods).value, now, s'.rows[a])
    {
      assert s'.rows[a] == WrittenRow(s.rows[a], a, w);
    }
  }

  /** Forced absence: nothing is PRESENT and nothing is expected to be. */
  lemma DeleteObeys(c: CustomerId, s: Customer, cmd: Command, env: Env)
    requires Sound(s, env.now) && cmd.Delete? && Obeys(s, TopologyOf(env, s.ent.fleet), env.now)
    ensures var s' := Next(s, ExecuteDelete(c, s, cmd, env)); Obeys(s', TopologyOf(env, s'.ent.fleet), env.now)
  {
    var x := ExecuteDelete(c, s, cmd, env);
    if x.Committed? && !s.ent.lifecycle.Deleted? {
      DeleteNext(c, s, cmd, env);
      AbsentRows(s, Next(s, x), TopologyOf(env, s.ent.fleet), env.now, x.write.value);
    }
  }

  lemma DeleteNext(c: CustomerId, s: Customer, cmd: Command, env: Env)
    requires cmd.Delete? && ExecuteDelete(c, s, cmd, env).Committed?
    ensures var x, s' := ExecuteDelete(c, s, cmd, env), Next(s, ExecuteDelete(c, s, cmd, env));
            && x.write.Some? && s'.rows == WrittenAccesses(s.rows, x.write.value) && s'.periods == s.periods
            && s'.ent.fleet == s.ent.fleet && s'.ent.expiresAt == s.ent.expiresAt
            && s'.ent.lifecycle == (if s.ent.lifecycle.Deleted? then Deleted else Deleting)
            && IsEmpty(x.write.value.creates)
            && x.write.value.updates == if s.ent.lifecycle.Deleted? then map[] else ForcedAbsent(s.rows)
  {
  }

  lemma AbsentRows(s: Customer, s': Customer, t: Topology, now: int, w: Write)
    requires Obeys(s, t, now) && OpenPeriod(s.periods).Some? && !s.ent.lifecycle.Deleted?
    requires s'.rows == WrittenAccesses(s.rows, w) && s'.periods == s.periods
    requires s'.ent.lifecycle.Deleting? || (s'.ent == s.ent.(version := s'.ent.version) && s.ent.expiresAt <= now)
    requires IsEmpty(w.creates) && forall a | a in w.updates :: w.updates[a].SetDesired? && w.updates[a].desired.Absent?
    requires forall a | a in s.rows && s.rows[a].desired.Present? :: a in w.updates
    ensures Obeys(s', t, now)
  {
    forall a | a in s'.rows && !s'.rows[a].retired
      ensures InSync(t, s'.rows[a]) && Ruled(s'.ent, OpenPeriod(s.periods).value, now, s'.rows[a])
    {
      assert s'.rows[a] == WrittenRow(s.rows[a], a, w);
    }
  }

  lemma ExpireNext(c: CustomerId, s: Customer, env: Env)
    requires Due(s, env.now)
    ensures var x, s' := Expire(c, s, env), Next(s, Expire(c, s, env));
            && x.Committed? && x.write.Some? && s'.rows == WrittenAccesses(s.rows, x.write.value) && s'.periods == s.periods
            && s'.ent == s.ent.(version := s.ent.version + 1)
            && IsEmpty(x.write.value.creates) && x.write.value.updates == Revoked(s.rows)
  {
  }

  lemma ExpireObeys(c: CustomerId, s: Customer, env: Env)
    requires Sound(s, env.now) && Obeys(s, TopologyOf(env, s.ent.fleet), env.now)
    ensures var s' := Next(s, Expire(c, s, env)); Obeys(s', TopologyOf(env, s'.ent.fleet), env.now)
  {
    if Due(s, env.now) {
      ExpireNext(c, s, env);
      AbsentRows(s, Next(s, Expire(c, s, env)), TopologyOf(env, s.ent.fleet), env.now, Expire(c, s, env).write.value);
    }
  }

  lemma CommandObeys(c: CustomerId, s: Customer, cmd: Command, env: Env)
    requires Sound(s, env.now) && Supplied(s, env) && Obeys(s, TopologyOf(env, s.ent.fleet), env.now)
    ensures var s' := Next(s, Execute(c, s, cmd, env)); Obeys(s', TopologyOf(env, s'.ent.fleet), env.now)
  {
    if Valid(cmd) {
      match cmd
      case Apply(_, _, _, _) => ApplyObeys(c, s, cmd, env);
      case SetState(_, _) => SetStateObeys(c, s, cmd, env);
      case Delete(_) => DeleteObeys(c, s, cmd, env);
    }
  }

  // ------------------------------------------------------------------------- usage

  /** How one usage group moves the open period and the rows. */
  ghost predicate Charged(s: Customer, s': Customer, n: NodeId) {
    && s'.ent == s.ent && OpenPeriod(s.periods).Some? && OpenPeriod(s'.periods).Some?
    && SameTargets(s.rows, s'.rows)
    && (forall m | m != n :: Exhausted(OpenPeriod(s'.periods).value, m) == Exhausted(OpenPeriod(s.periods).value, m))
    && (Exhausted(OpenPeriod(s.periods).value, n) ==> Exhausted(OpenPeriod(s'.periods).value, n))
    && (forall a | a in s.rows && !s.rows[a].retired ::
          s'.rows[a].desired == if s.rows[a].node == n && Exhausted(OpenPeriod(s'.periods).value, n)
                                   && !Exhausted(OpenPeriod(s.periods).value, n)
                                then Absent else s.rows[a].desired)
  }

  lemma ChargedObeys(s: Customer, s': Customer, n: NodeId, t: Topology, now: int)
    requires Obeys(s, t, now) && OpenPeriod(s.periods).Some? && Charged(s, s', n)
    ensures Obeys(s', t, now)
  {
  }

  lemma AccountCharges(c: CustomerId, s: Customer, n: NodeId, at: int, counted: Option<nat>, env: Env)
    requires OpenPeriod(s.periods).Some? && Thresholds(OpenPeriod(s.periods).value)
    requires PeriodAt(s.periods, at).Some? && PeriodAt(s.periods, at).value == |s.periods| - 1 && counted.Some?
    ensures Charged(s, Next(s, Account(c, s, n, at, counted, env)), n)
  {
    var x := Account(c, s, n, at, counted, env);
    var s' := Next(s, x);
    var p, p' := OpenPeriod(s.periods).value, s'.periods[|s.periods| - 1];
    assert p'.closed.None? && p'.quota == p.quota;
    assert forall m | m != n :: Exhausted(p', m) == Exhausted(p, m);
    if Exhausted(p', n) && !Exhausted(p, n) {
      CrossedRows(c, s, n, at, counted, env);
    } else {
      assert x.write.None?;
    }
  }

  /** Crossing the quota leaves no live access of the node PRESENT. */
  lemma CrossedRows(c: CustomerId, s: Customer, n: NodeId, at: int, counted: Option<nat>, env: Env)
    requires OpenPeriod(s.periods).Some? && Thresholds(OpenPeriod(s.periods).value)
    requires PeriodAt(s.periods, at).Some? && PeriodAt(s.periods, at).value == |s.periods| - 1 && counted.Some?
    requires var s' := Next(s, Account(c, s, n, at, counted, env));
             |s'.periods| == |s.periods| && Exhausted(s'.periods[|s.periods| - 1], n) && !Exhausted(OpenPeriod(s.periods).value, n)
    ensures var s' := Next(s, Account(c, s, n, at, counted, env));
            && SameTargets(s.rows, s'.rows)
            && forall a | a in s.rows && !s.rows[a].retired ::
                 s'.rows[a].desired == if s.rows[a].node == n then Absent else s.rows[a].desired
  {
    hide SameTargets, Revoked, AtNode;
    var x := Account(c, s, n, at, counted, env);
    if x.write.Some? {
      RevokedAt(s.rows, n, x.write.value);
    } else {
      NothingRevoked(s.rows, n);
    }
  }

  lemma NothingRevoked(rows: map<AccessId, Access>, n: NodeId)
    requires IsEmpty(Revoked(AtNode(rows, n)))
    ensures SameTargets(rows, rows)
    ensures forall a | a in rows && !rows[a].retired && rows[a].node == n :: rows[a].desired.Absent?
  {
    forall a | a in rows && !rows[a].retired && rows[a].node == n ensures rows[a].desired.Absent? {
      assert a in AtNode(rows, n) && a !in Revoked(AtNode(rows, n));
    }
  }

  lemma RevokedAt(rows: map<AccessId, Access>, n: NodeId, w: Write)
    requires IsEmpty(w.creates) && w.unsent == {} && w.updates == Revoked(AtNode(rows, n))
    ensures SameTargets(rows, WrittenAccesses(rows, w))
    ensures forall a | a in rows && !rows[a].retired ::
              WrittenAccesses(rows, w)[a].desired == if rows[a].node == n then Absent else rows[a].desired
  {
    DesiredOnly(rows, w);
    forall a | a in rows && !rows[a].retired
      ensures WrittenAccesses(rows, w)[a].desired == if rows[a].node == n then Absent else rows[a].desired
    {
      assert WrittenAccesses(rows, w)[a] == WrittenRow(rows[a], a, w);
      assert a in AtNode(rows, n) <==> rows[a].node == n;
    }
  }

  /** A group charged to a closed period, or with nothing new in it, changes no row and no
      threshold of the open period. */
  lemma AccountElsewhere(c: CustomerId, s: Customer, n: NodeId, at: int, counted: Option<nat>, env: Env)
    requires Accounts(s, env.now) && OpenPeriod(s.periods).Some?
    requires PeriodAt(s.periods, at).Some? && (PeriodAt(s.periods, at).value < |s.periods| - 1 || counted.None?)
    ensures var s' := Next(s, Account(c, s, n, at, counted, env));
            && s'.rows == s.rows && s'.ent == s.ent && OpenPeriod(s'.periods).Some?
            && forall m :: Exhausted(OpenPeriod(s'.periods).value, m) == Exhausted(OpenPeriod(s.periods).value, m)
  {
    var i := PeriodAt(s.periods, at).value;
    if i < |s.periods| - 1 {
      assert s.periods[i].closed == Some(s.periods[i + 1].started);
    }
  }

  lemma AccountObeys(c: CustomerId, s: Customer, n: NodeId, at: int, counted: Option<nat>, env: Env)
    requires Sound(s, env.now) && Obeys(s, TopologyOf(env, s.ent.fleet), env.now)
    ensures var s' := Next(s, Account(c, s, n, at, counted, env)); Obeys(s', TopologyOf(env, s'.ent.fleet), env.now)
  {
    if PeriodAt(s.periods, at).Some? {
      var s' := Next(s, Account(c, s, n, at, counted, env));
      if PeriodAt(s.periods, at).value == |s.periods| - 1 && counted.Some? {
        AccountCharges(c, s, n, at, counted, env);
        ChargedObeys(s, s', n, TopologyOf(env, s.ent.fleet), env.now);
      } else {
        AccountElsewhere(c, s, n, at, counted, env);
        SameObeys(s, s', TopologyOf(env, s.ent.fleet), env.now);
      }
    }
  }

  lemma AccountSameTargets(c: CustomerId, s: Customer, n: NodeId, at: int, counted: Option<nat>, env: Env)
    ensures SameTargets(s.rows, Next(s, Account(c, s, n, at, counted, env)).rows)
    ensures Next(s, Account(c, s, n, at, counted, env)).ent == s.ent
  {
    var x := Account(c, s, n, at, counted, env);
    if x.Committed? && x.write.Some? { RevokedAt(s.rows, n, x.write.value); }
  }

  lemma SameObeys(s: Customer, s': Customer, t: Topology, now: int)
    requires Obeys(s, t, now) && OpenPeriod(s.periods).Some? && OpenPeriod(s'.periods).Some?
    requires s'.rows == s.rows && s'.ent == s.ent
    requires forall m :: Exhausted(OpenPeriod(s'.periods).value, m) == Exhausted(OpenPeriod(s.periods).value, m)
    ensures Obeys(s', t, now)
  {
  }

  // --------------------------------------------------------------- materialization

  /** Whatever the topology was before, one materialization establishes the rule, matches
      every live access to a target and, before expiry, covers every target. */
  lemma MaterializeSettles(c: CustomerId, s: Customer, env: Env)
    requires Sound(s, env.now) && Supplied(s, env) && (s.ent.lifecycle.Active? || s.ent.lifecycle.Blocked?)
    ensures var s', t := Next(s, Materialize(c, s, env)), TopologyOf(env, s.ent.fleet);
            Obeys(s', t, env.now) && Synced(s', t, env.now)
  {
    if Materialize(c, s, env).Committed? {
      MaterializeNext(c, s, env);
      SettledRows(c, s, Next(s, Materialize(c, s, env)), env);
    } else {
      NoOpSettled(s, env);
    }
  }

  lemma SettledRow(c: CustomerId, s: Customer, env: Env, a: AccessId)
    requires Presences(s) && Supplied(s, env) && OpenPeriod(s.periods).Some?
    requires a in WrittenAccesses(s.rows, MaterializedWrite(c, s, PlanMaterialize(c, s, env), env))
    requires !WrittenAccesses(s.rows, MaterializedWrite(c, s, PlanMaterialize(c, s, env), env))[a].retired
    ensures var row, t := WrittenAccesses(s.rows, MaterializedWrite(c, s, PlanMaterialize(c, s, env), env))[a], TopologyOf(env, s.ent.fleet);
            InSync(t, row) && row.desired == Want(s.ent, env.now, OpenPeriod(s.periods).value, row.node)
  {
    var w := MaterializedWrite(c, s, PlanMaterialize(c, s, env), env);
    if a in s.rows {
      MaterializedOld(c, s, env, a);
    } else {
      CreatedRow(c, s.rows, TopologyOf(env, s.ent.fleet), s.ent, env.now, OpenPeriod(s.periods).value, env.ids, w, a);
    }
  }

  lemma CountersExhaust(p: Period, nodes: set<NodeId>, n: NodeId)
    requires p.quota > 0
    ensures Exhausted(WithCounters(p, nodes), n) == Exhausted(p, n)
  {
  }

  lemma SettledRows(c: CustomerId, s: Customer, s': Customer, env: Env)
    requires Sound(s, env.now) && Supplied(s, env) && OpenPeriod(s.periods).Some?
    requires var m := PlanMaterialize(c, s, env);
             && s'.ent == s.ent.(version := s'.ent.version)
             && s'.periods == WithOpen(s.periods, WithCounters(OpenPeriod(s.periods).value, m.inits))
             && s'.rows == WrittenAccesses(s.rows, MaterializedWrite(c, s, m, env))
    requires !s.ent.lifecycle.Deleted?
    ensures Obeys(s', TopologyOf(env, s.ent.fleet), env.now) && Synced(s', TopologyOf(env, s.ent.fleet), env.now)
  {
    var t, p := TopologyOf(env, s.ent.fleet), OpenPeriod(s.periods).value;
    var p' := WithCounters(p, PlanMaterialize(c, s, env).inits);
    assert OpenPeriod(s'.periods) == Some(p');
    forall a | a in s'.rows && !s'.rows[a].retired
      ensures InSync(t, s'.rows[a]) && Ruled(s'.ent, p', env.now, s'.rows[a])
    {
      SettledRow(c, s, env, a);
      CountersExhaust(p, PlanMaterialize(c, s, env).inits, s'.rows[a].node);
    }
    if env.now < s.ent.expiresAt { SettledComplete(c, s, env); }
  }

  lemma SettledComplete(c: CustomerId, s: Customer, env: Env)
    requires Supplied(s, env) && OpenPeriod(s.periods).Some? && env.now < s.ent.expiresAt
    ensures Complete(TopologyOf(env, s.ent.fleet), WrittenAccesses(s.rows, MaterializedWrite(c, s, PlanMaterialize(c, s, env), env)))
  {
    var w, t := MaterializedWrite(c, s, PlanMaterialize(c, s, env), env), TopologyOf(env, s.ent.fleet);
    forall a | a in s.rows && !s.rows[a].retired && IsTarget(t, s.rows[a].target)
      ensures var row := WrittenAccesses(s.rows, w)[a]; !row.retired && row.target == s.rows[a].target
    {
      MaterializedOld(c, s, env, a);
    }
    CreatesComplete(c, s, t, s.ent, env.now, OpenPeriod(s.periods).value, env, w);
  }

  /** A materialization that plans nothing is of a customer already settled. */
  lemma NoOpSettled(s: Customer, env: Env)
    requires Accounts(s, env.now) && OpenPeriod(s.periods).Some? && MaterializeNoOp(s, env)
    ensures Obeys(s, TopologyOf(env, s.ent.fleet), env.now) && Synced(s, TopologyOf(env, s.ent.fleet), env.now)
  {
  }
}
