/** What the transactions keep about one customer: generations, quota periods, quota
    thresholds and the rule for the desired state. */
module CustomerRules {
  import opened Types
  import opened Targets
  import opened Customers

  // --------------------------------------------------------------------- invariant

  /** Adjacent half-open periods: each one starts where the previous one was closed. */
  ghost predicate Tiled(ps: seq<Period>) {
    && (forall i, j | 0 <= i < j < |ps| && j == i + 1 :: ps[i].closed == Some(ps[j].started))
    && (forall i | 0 <= i < |ps| && ps[i].closed.Some? :: ps[i].started <= ps[i].closed.value)
  }

  /** exhausted_at is set exactly when the counter has reached the quota. */
  ghost predicate Thresholds(p: Period) {
    && p.quota > 0
    && forall n | n in p.usage :: p.usage[n].exhaustedAt.Some? <==> p.usage[n].total >= p.quota
  }

  ghost predicate Accounts(s: Customer, now: int) {
    && Tiled(s.periods)
    && (|s.periods| > 0 ==> s.periods[|s.periods| - 1].started <= now)
    && (if s.ent.lifecycle.Deleted? then s.periods == []
        else OpenPeriod(s.periods).Some? && Thresholds(OpenPeriod(s.periods).value))
  }

  /** Nobody is PRESENT unless the customer is ACTIVE, and a retired access never is. */
  ghost predicate Presences(s: Customer) {
    && (forall a | a in s.rows && s.rows[a].desired.Present? :: s.ent.lifecycle.Active? && !s.rows[a].retired)
    && (s.ent.lifecycle.Deleted? ==> IsEmpty(s.rows))
  }

  ghost predicate Sound(s: Customer, now: int) {
    Shape(s.rows) && Accounts(s, now) && Presences(s)
  }

  /** Identifiers supplied to a transaction: new, one per target and enough of them. */
  ghost predicate Supplied(s: Customer, env: Env) {
    && env.ids.targets.Keys !! s.rows.Keys
    && (forall a, b | a in env.ids.targets && b in env.ids.targets && env.ids.targets[a] == env.ids.targets[b] :: a == b)
    && (forall f, k | f in env.fleets && IsTarget(env.fleets[f], k) ::
          exists a :: a in env.ids.targets && env.ids.targets[a] == k)
  }

  // ------------------------------------------------------------------- generations

  /** The rows a writer may leave: old rows keep target and generation and never come back
      from retirement, new rows are the next generation of an uncovered target. */
  ghost predicate Grows(rows: map<AccessId, Access>, rows': map<AccessId, Access>) {
    && (forall a | a in rows :: a in rows' && rows'[a].target == rows[a].target
          && rows'[a].generation == rows[a].generation && (rows[a].retired ==> rows'[a].retired))
    && (forall a | a in rows' && a !in rows ::
          !Covered(rows, rows'[a].target) && rows'[a].generation == NextGeneration(rows, rows'[a].target))
    && (forall a, b | a in rows' && b in rows' && a !in rows && b !in rows && rows'[a].target == rows'[b].target :: a == b)
  }

  lemma NextIsHigher(rows: map<AccessId, Access>, a: AccessId)
    requires a in rows
    ensures rows[a].generation < NextGeneration(rows, rows[a].target)
  {
    assert rows[a].generation in Generations(rows, rows[a].target);
  }

  lemma ShapeKept(rows: map<AccessId, Access>, rows': map<AccessId, Access>)
    requires Shape(rows) && Grows(rows, rows')
    ensures Shape(rows')
  {
    forall a, b | a in rows' && b in rows' && rows'[a].target == rows'[b].target
      ensures rows'[a].generation == rows'[b].generation ==> a == b
      ensures !rows'[a].retired ==> rows'[b].generation <= rows'[a].generation
    {
      if a in rows { NextIsHigher(rows, a); }
      if b in rows { NextIsHigher(rows, b); }
    }
  }

  lemma CreatesGrow(c: CustomerId, s: Customer, t: Topology, ent: Entitlement, now: int, open: Period, env: Env, p: Write)
    requires Supplied(s, env) && p.creates == Creates(c, t, s.rows, ent, now, open, env.ids)
    ensures Grows(s.rows, WrittenAccesses(s.rows, p))
  {
    assert p.creates.Keys !! s.rows.Keys;
    forall a | a in p.creates
      ensures p.creates[a].target == env.ids.targets[a] && !Covered(s.rows, p.creates[a].target)
        && p.creates[a].generation == NextGeneration(s.rows, p.creates[a].target)
    {
    }
  }

  lemma CreatesShape(c: CustomerId, s: Customer, t: Topology, ent: Entitlement, now: int, open: Period, env: Env, p: Write)
    requires Shape(s.rows) && Supplied(s, env) && p.creates == Creates(c, t, s.rows, ent, now, open, env.ids)
    ensures Shape(WrittenAccesses(s.rows, p))
  {
    CreatesGrow(c, s, t, ent, now, open, env, p);
    ShapeKept(s.rows, WrittenAccesses(s.rows, p));
  }

  lemma UpdatesShape(rows: map<AccessId, Access>, p: Write)
    requires Shape(rows) && IsEmpty(p.creates)
    ensures Shape(WrittenAccesses(rows, p))
  {
    UpdatesGrow(rows, p);
    ShapeKept(rows, WrittenAccesses(rows, p));
  }

  lemma UpdatesGrow(rows: map<AccessId, Access>, p: Write)
    requires IsEmpty(p.creates)
    ensures Grows(rows, WrittenAccesses(rows, p))
  {
    assert WrittenAccesses(rows, p).Keys == rows.Keys;
  }

  // ----------------------------------------------------------------- quota periods

  lemma RenewedTiles(ps: seq<Period>, now: int, quota: nat, nodes: set<NodeId>)
    requires Tiled(ps) && (|ps| > 0 ==> OpenPeriod(ps).Some? && ps[|ps| - 1].started <= now) && quota > 0
    ensures Tiled(Renewed(ps, now, quota, nodes))
    ensures var r := Renewed(ps, now, quota, nodes);
            |r| == |ps| + 1 && OpenPeriod(r) == Some(r[|ps|]) && Thresholds(r[|ps|]) && r[|ps|].started == now
  {
    var r := Renewed(ps, now, quota, nodes);
    forall i | 0 <= i < |ps|
      ensures r[i].started == ps[i].started
      ensures r[i].closed == if i < |ps| - 1 then ps[i].closed else Some(now)
    {
      assert r[i] == Closed(ps, now)[i];
      assert i < |ps| - 1 ==> ps[i].closed == Some(ps[i + 1].started);
    }
  }

  lemma WithOpenTiles(ps: seq<Period>, p: Period)
    requires Tiled(ps) && OpenPeriod(ps).Some? && p.started == ps[|ps| - 1].started && p.closed.None?
    ensures Tiled(WithOpen(ps, p)) && OpenPeriod(WithOpen(ps, p)) == Some(p)
  {
  }

  /** Time from the first period on is divided: every instant is in exactly one period. */
  lemma {:induction false} PeriodsTileTime(ps: seq<Period>, at: int)
    requires Tiled(ps) && OpenPeriod(ps).Some? && ps[0].started <= at
    ensures PeriodAt(ps, at).Some?
    ensures forall i | 0 <= i < |ps| && Covers(ps[i], at) :: i == PeriodAt(ps, at).value
  {
    var k := Latest(ps, at);
    assert Covers(ps[k], at);
    forall i, j | 0 <= i < j < |ps| && Covers(ps[i], at) ensures !Covers(ps[j], at) {
      Ordered(ps, i, j);
    }
  }

  lemma {:induction false} Ordered(ps: seq<Period>, i: nat, j: nat)
    requires Tiled(ps) && i < j < |ps|
    ensures ps[i].closed.Some? && ps[i].closed.value <= ps[j].started
  {
    assert ps[j - 1].closed == Some(ps[j].started);
    if i + 1 < j {
      Ordered(ps, i, j - 1);
    }
  }

  lemma {:induction false} Latest(ps: seq<Period>, at: int) returns (k: nat)
    requires Tiled(ps) && OpenPeriod(ps).Some? && ps[0].started <= at
    ensures k < |ps| && Covers(ps[k], at)
  {
    k := |ps| - 1;
    while at < ps[k].started
      invariant 0 <= k < |ps|
      invariant ps[k].closed.Some? ==> at < ps[k].closed.value
      decreases k
    {
      k := k - 1;
    }
  }

  // ------------------------------------------------------------ every transaction

  lemma ApplyAccounts(c: CustomerId, s: Customer, cmd: Command, d: Decision, env: Env)
    requires Accounts(s, env.now) && cmd.Apply? && Valid(cmd) && !d.Refused?
    requires d == ClassifyApply(env.now, cmd, s.ent) && (d.QuotaChange? ==> OpenPeriod(s.periods).Some?)
    ensures var ps := AppliedPeriods(s, cmd, d, env);
            Tiled(ps) && OpenPeriod(ps).Some? && Thresholds(OpenPeriod(ps).value) && ps[|ps| - 1].started <= env.now
  {
    if d.QuotaChange? {
      WithOpenTiles(s.periods, Requotaed(OpenPeriod(s.periods).value, cmd.quota, env.now));
    } else {
      RenewedTiles(s.periods, env.now, cmd.quota, TopologyOf(env, cmd.fleet).nodes);
    }
  }

  /** The customer after an accepted Apply, without its version. */
  lemma PlannedNext(c: CustomerId, s: Customer, cmd: Command, d: Decision, env: Env)
    requires cmd.Apply? && !d.Refused? && (d.QuotaChange? ==> OpenPeriod(s.periods).Some?)
    ensures var s', periods := Next(s, ApplyPlanned(c, s, cmd, d, env)), AppliedPeriods(s, cmd, d, env);
            && s'.periods == periods && s'.ent.lifecycle == AppliedLifecycle(s.ent)
            && s'.ent.fleet == cmd.fleet && s'.ent.expiresAt == cmd.expiresAt
            && s'.rows == WrittenAccesses(s.rows, PlannedWrite(c, s, cmd, periods[|periods| - 1], env))
  {
  }

  lemma PlannedShape(c: CustomerId, s: Customer, cmd: Command, open: Period, env: Env)
    requires Shape(s.rows) && Supplied(s, env) && cmd.Apply?
    ensures Shape(WrittenAccesses(s.rows, PlannedWrite(c, s, cmd, open, env)))
  {
    CreatesShape(c, s, TopologyOf(env, cmd.fleet), Granted(s, cmd), env.now, open, env, PlannedWrite(c, s, cmd, open, env));
  }

  lemma PlannedPresences(c: CustomerId, s: Customer, cmd: Command, open: Period, env: Env, a: AccessId)
    requires Presences(s) && cmd.Apply?
    requires a in WrittenAccesses(s.rows, PlannedWrite(c, s, cmd, open, env))
    requires WrittenAccesses(s.rows, PlannedWrite(c, s, cmd, open, env))[a].desired.Present?
    ensures AppliedLifecycle(s.ent).Active? && !WrittenAccesses(s.rows, PlannedWrite(c, s, cmd, open, env))[a].retired
  {
    PlannedPresence(c, s, TopologyOf(env, cmd.fleet), Granted(s, cmd), env.now, open, env.ids,
                    PlannedWrite(c, s, cmd, open, env), a);
  }

  /** A row that is PRESENT after creates and changes belongs to an ACTIVE customer. */
  lemma PlannedPresence(c: CustomerId, s: Customer, t: Topology, ent: Entitlement, now: int, open: Period, ids: Ids, p: Write, a: AccessId)
    requires Presences(s) && (s.ent.lifecycle.Active? ==> ent.lifecycle.Active?) && p.unsent == {}
    requires p.creates == Creates(c, t, s.rows, ent, now, open, ids) && p.updates == Changes(t, s.rows, ent, now, open)
    requires a in WrittenAccesses(s.rows, p) && WrittenAccesses(s.rows, p)[a].desired.Present?
    ensures ent.lifecycle.Active? && !WrittenAccesses(s.rows, p)[a].retired
  {
    if a in s.rows { assert WrittenAccesses(s.rows, p)[a] == WrittenRow(s.rows[a], a, p); }
  }

  lemma PlannedSound(c: CustomerId, s: Customer, cmd: Command, d: Decision, env: Env)
    requires Sound(s, env.now) && Supplied(s, env) && cmd.Apply? && Valid(cmd) && !d.Refused?
    requires d == ClassifyApply(env.now, cmd, s.ent) && (d.QuotaChange? ==> OpenPeriod(s.periods).Some?)
    ensures Sound(Next(s, ApplyPlanned(c, s, cmd, d, env)), env.now)
  {
    var s' := Next(s, ApplyPlanned(c, s, cmd, d, env));
    var periods := AppliedPeriods(s, cmd, d, env);
    var open := periods[|periods| - 1];
    PlannedNext(c, s, cmd, d, env);
    ApplyAccounts(c, s, cmd, d, env);
    PlannedShape(c, s, cmd, open, env);
    forall a | a in s'.rows && s'.rows[a].desired.Present? ensures s'.ent.lifecycle.Active? && !s'.rows[a].retired {
      PlannedPresences(c, s, cmd, open, env, a);
    }
  }

  lemma ApplySound(c: CustomerId, s: Customer, cmd: Command, env: Env)
    requires Sound(s, env.now) && Supplied(s, env) && cmd.Apply? && Valid(cmd)
    ensures Sound(Next(s, ExecuteApply(c, s, cmd, env)), env.now)
  {
    if ExecuteApply(c, s, cmd, env).Committed? {
      PlannedSound(c, s, cmd, ClassifyApply(env.now, cmd, s.ent), env);
    }
  }

  lemma StateWrite(c: CustomerId, s: Customer, cmd: Command, env: Env)
    requires cmd.SetState? && ExecuteSetState(c, s, cmd, env).Committed?
    ensures var x := ExecuteSetState(c, s, cmd, env);
            x.write.Some? && IsEmpty(x.write.value.creates) && Next(s, x).rows == WrittenAccesses(s.rows, x.write.value)
  {
  }

  lemma SetStateSound(c: CustomerId, s: Customer, cmd: Command, env: Env)
    requires Sound(s, env.now) && cmd.SetState? && Valid(cmd)
    ensures Sound(Next(s, ExecuteSetState(c, s, cmd, env)), env.now)
  {
    if ExecuteSetState(c, s, cmd, env).Committed? {
      SetStateShape(c, s, cmd, env);
      SetStatePresences(c, s, cmd, env);
      SetStateAccounts(c, s, cmd, env);
    }
  }

  lemma SetStateShape(c: CustomerId, s: Customer, cmd: Command, env: Env)
    requires Shape(s.rows) && cmd.SetState?
    ensures Shape(Next(s, ExecuteSetState(c, s, cmd, env)).rows)
  {
    if ExecuteSetState(c, s, cmd, env).Committed? {
      StateWrite(c, s, cmd, env);
      UpdatesShape(s.rows, ExecuteSetState(c, s, cmd, env).write.value);
    }
  }

  lemma SetStatePresences(c: CustomerId, s: Customer, cmd: Command, env: Env)
    requires Presences(s) && cmd.SetState? && Valid(cmd)
    ensures Presences(Next(s, ExecuteSetState(c, s, cmd, env)))
  {
  }

  lemma SetStateAccounts(c: CustomerId, s: Customer, cmd: Command, env: Env)
    requires Accounts(s, env.now) && cmd.SetState? && Valid(cmd)
    ensures Accounts(Next(s, ExecuteSetState(c, s, cmd, env)), env.now)
  {
  }

  lemma DeleteSound(c: CustomerId, s: Customer, cmd: Command, env: Env)
    requires Sound(s, env.now) && cmd.Delete?
    ensures Sound(Next(s, ExecuteDelete(c, s, cmd, env)), env.now)
  {
    DeleteShape(c, s, cmd, env);
    DeletePresences(c, s, cmd, env);
    DeleteAccounts(c, s, cmd, env);
  }

  lemma DeleteWrite(c: CustomerId, s: Customer, cmd: Command, env: Env)
    requires cmd.Delete? && ExecuteDelete(c, s, cmd, env).Committed?
    ensures var x := ExecuteDelete(c, s, cmd, env);
            x.write.Some? && IsEmpty(x.write.value.creates) && Next(s, x).rows == WrittenAccesses(s.rows, x.write.value)
  {
  }

  lemma DeleteShape(c: CustomerId, s: Customer, cmd: Command, env: Env)
    requires Shape(s.rows) && cmd.Delete?
    ensures Shape(Next(s, ExecuteDelete(c, s, cmd, env)).rows)
  {
    if ExecuteDelete(c, s, cmd, env).Committed? {
      DeleteWrite(c, s, cmd, env);
      UpdatesShape(s.rows, ExecuteDelete(c, s, cmd, env).write.value);
    }
  }

  lemma DeletePresences(c: CustomerId, s: Customer, cmd: Command, env: Env)
    requires Presences(s) && cmd.Delete?
    ensures Presences(Next(s, ExecuteDelete(c, s, cmd, env)))
  {
  }

  lemma DeleteAccounts(c: CustomerId, s: Customer, cmd: Command, env: Env)
    requires Accounts(s, env.now) && cmd.Delete?
    ensures Accounts(Next(s, ExecuteDelete(c, s, cmd, env)), env.now)
  {
  }

  lemma CommandSound(c: CustomerId, s: Customer, cmd: Command, env: Env)
    requires Sound(s, env.now) && Supplied(s, env)
    ensures Sound(Next(s, Execute(c, s, cmd, env)), env.now)
  {
    if Valid(cmd) {
      match cmd
      case Apply(_, _, _, _) => ApplySound(c, s, cmd, env);
      case SetState(_, _) => SetStateSound(c, s, cmd, env);
      case Delete(_) => DeleteSound(c, s, cmd, env);
    }
  }

  lemma ExpireSound(c: CustomerId, s: Customer, env: Env)
    requires Sound(s, env.now)
    ensures Sound(Next(s, Expire(c, s, env)), env.now)
  {
    ExpireShape(c, s, env);
    ExpireAccounts(c, s, env);
  }

  lemma ExpireShape(c: CustomerId, s: Customer, env: Env)
    requires Shape(s.rows)
    ensures Shape(Next(s, Expire(c, s, env)).rows)
  {
    if Due(s, env.now) {
      ExpireWrite(c, s, env);
      UpdatesShape(s.rows, Expire(c, s, env).write.value);
    }
  }

  lemma ExpireWrite(c: CustomerId, s: Customer, env: Env)
    requires Due(s, env.now)
    ensures var x := Expire(c, s, env);
            x.Committed? && x.write.Some? && IsEmpty(x.write.value.creates)
              && Next(s, x).rows == WrittenAccesses(s.rows, x.write.value)
  {
  }

  lemma ExpireAccounts(c: CustomerId, s: Customer, env: Env)
    requires Accounts(s, env.now) && Presences(s)
    ensures Accounts(Next(s, Expire(c, s, env)), env.now) && Presences(Next(s, Expire(c, s, env)))
  {
  }

  /** Charging a counter changes neither the bounds of its period nor its quota, and sets
      exhausted_at when the quota is reached. */
  lemma AccountAccounts(c: CustomerId, s: Customer, n: NodeId, at: int, counted: Option<nat>, env: Env)
    requires Accounts(s, env.now)
    ensures Accounts(Next(s, Account(c, s, n, at, counted, env)), env.now)
  {
    var i := PeriodAt(s.periods, at);
    if i.Some? {
      AccountPeriod(c, s, n, at, counted, env);
      PeriodReplaced(s.periods, i.value, Next(s, Account(c, s, n, at, counted, env)).periods[i.value]);
    }
  }

  lemma AccountPeriod(c: CustomerId, s: Customer, n: NodeId, at: int, counted: Option<nat>, env: Env)
    requires PeriodAt(s.periods, at).Some?
    ensures var i, s' := PeriodAt(s.periods, at).value, Next(s, Account(c, s, n, at, counted, env));
            && |s'.periods| == |s.periods| && s'.periods == s.periods[i := s'.periods[i]] && s'.ent == s.ent
            && s'.periods[i].started == s.periods[i].started && s'.periods[i].closed == s.periods[i].closed
            && (s'.periods[i].closed.None? && Thresholds(s.periods[i]) ==> Thresholds(s'.periods[i]))
  {
  }

  lemma PeriodReplaced(ps: seq<Period>, i: nat, p: Period)
    requires Tiled(ps) && i < |ps| && p.started == ps[i].started && p.closed == ps[i].closed
    requires OpenPeriod(ps).Some? && Thresholds(OpenPeriod(ps).value)
    requires p.closed.None? && Thresholds(ps[i]) ==> Thresholds(p)
    ensures Tiled(ps[i := p]) && OpenPeriod(ps[i := p]).Some? && Thresholds(OpenPeriod(ps[i := p]).value)
  {
  }

  lemma AccountShape(c: CustomerId, s: Customer, n: NodeId, at: int, counted: Option<nat>, env: Env)
    requires Shape(s.rows)
    ensures Shape(Next(s, Account(c, s, n, at, counted, env)).rows)
  {
    var x := Account(c, s, n, at, counted, env);
    if x.Committed? && x.write.Some? { UpdatesShape(s.rows, x.write.value); }
  }

  lemma AccountPresences(c: CustomerId, s: Customer, n: NodeId, at: int, counted: Option<nat>, env: Env)
    requires Presences(s)
    ensures Presences(Next(s, Account(c, s, n, at, counted, env)))
  {
  }

  lemma AccountSound(c: CustomerId, s: Customer, n: NodeId, at: int, counted: Option<nat>, env: Env)
    requires Sound(s, env.now)
    ensures Sound(Next(s, Account(c, s, n, at, counted, env)), env.now)
  {
    AccountAccounts(c, s, n, at, counted, env);
    AccountShape(c, s, n, at, counted, env);
    AccountPresences(c, s, n, at, counted, env);
  }

  /** The customer after a materialization that changes something. */
  lemma MaterializeNext(c: CustomerId, s: Customer, env: Env)
    requires Materialize(c, s, env).Committed?
    ensures OpenPeriod(s.periods).Some?
    ensures var s', m := Next(s, Materialize(c, s, env)), PlanMaterialize(c, s, env);
            && s'.ent == s.ent.(version := s.ent.version + 1)
            && s'.periods == WithOpen(s.periods, WithCounters(OpenPeriod(s.periods).value, m.inits))
            && s'.rows == WrittenAccesses(s.rows, MaterializedWrite(c, s, m, env))
  {
  }

  lemma CountersKeep(s: Customer, s': Customer, now: int, nodes: set<NodeId>)
    requires Accounts(s, now) && OpenPeriod(s.periods).Some? && s'.ent.lifecycle == s.ent.lifecycle
    requires s'.periods == WithOpen(s.periods, WithCounters(OpenPeriod(s.periods).value, nodes))
    ensures Accounts(s', now)
  {
    WithOpenTiles(s.periods, WithCounters(OpenPeriod(s.periods).value, nodes));
  }

  lemma MaterializeAccounts(c: CustomerId, s: Customer, env: Env)
    requires Accounts(s, env.now)
    ensures Accounts(Next(s, Materialize(c, s, env)), env.now)
  {
    if Materialize(c, s, env).Committed? {
      MaterializeNext(c, s, env);
      CountersKeep(s, Next(s, Materialize(c, s, env)), env.now, PlanMaterialize(c, s, env).inits);
    }
  }

  lemma MaterializeShape(c: CustomerId, s: Customer, env: Env)
    requires Shape(s.rows) && Supplied(s, env)
    ensures Shape(Next(s, Materialize(c, s, env)).rows)
  {
    if Materialize(c, s, env).Committed? {
      MaterializeNext(c, s, env);
      var p := MaterializedWrite(c, s, PlanMaterialize(c, s, env), env);
      if s.ent.expiresAt <= env.now {
        UpdatesShape(s.rows, p);
      } else {
        CreatesShape(c, s, TopologyOf(env, s.ent.fleet), s.ent, env.now, OpenPeriod(s.periods).value, env, p);
      }
    }
  }

  /** What the materialization worker writes for one live access. */
  ghost predicate Rematched(t: Topology, ent: Entitlement, now: int, p: Period, row: Access, row': Access) {
    if !IsTarget(t, row.target) then row'.retired && row'.desired.Absent?
    else row' == row.(egress := TargetAt(t, row.target).egress, desired := Want(ent, now, p, row.node),
                      version := row'.version, apply := row'.apply)
  }

  lemma RealignedRow(t: Topology, rows: map<AccessId, Access>, ent: Entitlement, now: int, p: Period, live: set<NodeId>, a: AccessId)
    requires a in rows
    ensures var updates, row := Realigned(t, rows, ent, now, p, live), rows[a];
            var row' := if a in updates then Updated(row, updates[a]) else row;
            && (row.retired ==> row' == row)
            && (!row.retired ==> Rematched(t, ent, now, p, row, row'))
  {
    var row := rows[a];
    assert a in Changes(t, rows, ent, now, p) ==> InSync(t, row);
    assert a in Repoints(t, rows, ent, now, p) <==> Moved(t, row);
    assert a in Retires(t, rows, live) <==> Gone(t, row);
  }

  lemma MaterializedOld(c: CustomerId, s: Customer, env: Env, a: AccessId)
    requires a in s.rows && OpenPeriod(s.periods).Some?
    ensures var row, row' := s.rows[a], WrittenAccesses(s.rows, MaterializedWrite(c, s, PlanMaterialize(c, s, env), env))[a];
            && (row.retired ==> row' == row)
            && (!row.retired ==> Rematched(TopologyOf(env, s.ent.fleet), s.ent, env.now, OpenPeriod(s.periods).value, row, row'))
  {
    var p := MaterializedWrite(c, s, PlanMaterialize(c, s, env), env);
    assert WrittenAccesses(s.rows, p)[a] == WrittenRow(s.rows[a], a, p);
    RealignedRow(TopologyOf(env, s.ent.fleet), s.rows, s.ent, env.now, OpenPeriod(s.periods).value, env.live, a);
  }

  lemma MaterializedRow(c: CustomerId, s: Customer, env: Env, a: AccessId)
    requires Supplied(s, env) && Materialize(c, s, env).Committed? && a in s.rows
    ensures var row, s' := s.rows[a], Next(s, Materialize(c, s, env));
            && a in s'.rows
            && (row.retired ==> s'.rows[a] == row)
            && (!row.retired ==> Rematched(TopologyOf(env, s.ent.fleet), s.ent, env.now, OpenPeriod(s.periods).value, row, s'.rows[a]))
  {
    MaterializeNext(c, s, env);
    MaterializedOld(c, s, env, a);
  }

  lemma MaterializedNew(c: CustomerId, s: Customer, env: Env, a: AccessId)
    requires Materialize(c, s, env).Committed? && a in Next(s, Materialize(c, s, env)).rows && a !in s.rows
    ensures var t, row := TopologyOf(env, s.ent.fleet), Next(s, Materialize(c, s, env)).rows[a];
            && s.ent.expiresAt > env.now && a in env.ids.targets && Missing(t, s.rows, env.ids.targets[a])
            && row == NewRow(c, t, s.rows, env.ids.targets[a], Want(s.ent, env.now, OpenPeriod(s.periods).value, row.node))
  {
    MaterializeNext(c, s, env);
  }

  lemma MaterializePresences(c: CustomerId, s: Customer, env: Env)
    requires Presences(s) && Supplied(s, env)
    ensures Presences(Next(s, Materialize(c, s, env)))
  {
    var x := Materialize(c, s, env);
    if x.Committed? {
      forall a | a in Next(s, x).rows && Next(s, x).rows[a].desired.Present?
        ensures s.ent.lifecycle.Active? && !Next(s, x).rows[a].retired
      {
        if a in s.rows { MaterializedRow(c, s, env, a); } else { MaterializedNew(c, s, env, a); }
      }
    }
  }

  lemma MaterializeSound(c: CustomerId, s: Customer, env: Env)
    requires Sound(s, env.now) && Supplied(s, env)
    ensures Sound(Next(s, Materialize(c, s, env)), env.now)
  {
    MaterializeAccounts(c, s, env);
    MaterializePresences(c, s, env);
    MaterializeShape(c, s, env);
  }

  // ------------------------------------------------------------------------ totals

  /** Bytes counted for a node in a period; a node without a counter has none. */
  function TotalAt(p: Period, n: NodeId): nat {
    if n in p.usage then p.usage[n].total else 0
  }

  /** A usage group adds its bytes to the one open counter it belongs to and moves nothing
      else; bytes of a closed period are not added, and the first exhaustion time stands. */
  lemma AccountChargesExactly(c: CustomerId, s: Customer, n: NodeId, at: int, counted: Option<nat>, env: Env)
    requires PeriodAt(s.periods, at).Some?
    ensures var i, s' := PeriodAt(s.periods, at).value, Next(s, Account(c, s, n, at, counted, env));
            var p, p' := s.periods[i], s'.periods[i];
            && |s'.periods| == |s.periods| && (forall j | 0 <= j < |s.periods| && j != i :: s'.periods[j] == s.periods[j])
            && (forall m | m != n :: TotalAt(p', m) == TotalAt(p, m))
            && TotalAt(p', n) == TotalAt(p, n) + (if p.closed.None? && counted.Some? then counted.value else 0)
            && (n in p.usage && p.usage[n].exhaustedAt.Some? ==> p'.usage[n].exhaustedAt == p.usage[n].exhaustedAt)
            && p'.quota == p.quota
  {
  }

  /** No Apply changes what was counted: earlier periods keep every total, a quota change
      keeps those of the open period, and a new period starts at zero on the fleet's nodes. */
  lemma ApplyKeepsTotals(s: Customer, cmd: Command, d: Decision, env: Env)
    requires cmd.Apply? && !d.Refused? && (d.QuotaChange? ==> OpenPeriod(s.periods).Some?)
    ensures var ps := AppliedPeriods(s, cmd, d, env);
            var open := ps[|ps| - 1];
            && |ps| == |s.periods| + (if d.QuotaChange? then 0 else 1) && open.quota == cmd.quota
            && (forall i, n | 0 <= i < |s.periods| :: TotalAt(ps[i], n) == TotalAt(s.periods[i], n))
            && (!d.QuotaChange? ==> open.usage.Keys == TopologyOf(env, cmd.fleet).nodes && forall n :: TotalAt(open, n) == 0)
  {
    if !d.QuotaChange? {
      var ps := AppliedPeriods(s, cmd, d, env);
      forall i, n | 0 <= i < |s.periods| ensures TotalAt(ps[i], n) == TotalAt(s.periods[i], n) {
        assert ps[i] == Closed(s.periods, env.now)[i];
      }
    }
  }
}
