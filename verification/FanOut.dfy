/** Fan-out of a manifest: every customer the latest job has passed, and at its completion
    every customer, matches the current topology and follows the desired-state rule. */
module FanOut {
  import opened Types
  import opened Targets
  import opened Plane
  import opened PlaneKeeps
  import C = Customers
  import R = CustomerRules
  import G = CustomerDesired
  import D = Delivery
  import I = DeliveryInvariant
  import M = Manifest
  import F = CustomerFits

  predicate IsServed(s: C.Customer) {
    s.ent.lifecycle.Active? || s.ent.lifecycle.Blocked?
  }

  /** The customer matches the topology of its fleet and follows the rule. */
  ghost predicate Settled(s: C.Customer, env: C.Env) {
    IsServed(s) ==>
      G.Obeys(s, C.TopologyOf(env, s.ent.fleet), env.now) && G.Synced(s, C.TopologyOf(env, s.ent.fleet), env.now)
  }

  // --------------------------------------------------------- one customer's transactions

  lemma ApplySettled(c: CustomerId, s: C.Customer, cmd: C.Command, env: C.Env)
    requires R.Sound(s, env.now) && R.Supplied(s, env) && Settled(s, env) && cmd.Apply? && C.Valid(cmd)
    ensures Settled(C.Next(s, C.ExecuteApply(c, s, cmd, env)), env)
  {
    var x := C.ExecuteApply(c, s, cmd, env);
    if x.Committed? {
      var d := C.ClassifyApply(env.now, cmd, s.ent);
      R.PlannedNext(c, s, cmd, d, env);
      G.AppliedSynced(c, s, cmd, d, env);
      G.ApplyObeys(c, s, cmd, env);
    }
  }

  lemma StateSettled(c: CustomerId, s: C.Customer, cmd: C.Command, env: C.Env)
    requires R.Sound(s, env.now) && Settled(s, env) && cmd.SetState? && C.Valid(cmd)
    ensures Settled(C.Next(s, C.ExecuteSetState(c, s, cmd, env)), env)
  {
    var x := C.ExecuteSetState(c, s, cmd, env);
    if x.Committed? {
      G.StateNext(c, s, cmd, env);
      G.DesiredOnly(s.rows, x.write.value);
      G.SameSynced(s, C.Next(s, x), C.TopologyOf(env, s.ent.fleet), env.now);
      G.SetStateObeys(c, s, cmd, env);
    }
  }

  lemma DeleteSettled(c: CustomerId, s: C.Customer, cmd: C.Command, env: C.Env)
    requires Settled(s, env) && cmd.Delete?
    ensures Settled(C.Next(s, C.ExecuteDelete(c, s, cmd, env)), env)
  {
    if C.ExecuteDelete(c, s, cmd, env).Committed? { G.DeleteNext(c, s, cmd, env); }
  }

  lemma CommandSettled(c: CustomerId, s: C.Customer, cmd: C.Command, env: C.Env)
    requires R.Sound(s, env.now) && R.Supplied(s, env) && Settled(s, env)
    ensures Settled(C.Next(s, C.Execute(c, s, cmd, env)), env)
  {
    if C.Valid(cmd) {
      match cmd
      case Apply(_, _, _, _) => ApplySettled(c, s, cmd, env);
      case SetState(_, _) => StateSettled(c, s, cmd, env);
      case Delete(_) => DeleteSettled(c, s, cmd, env);
    }
  }

  lemma ExpireSettled(c: CustomerId, s: C.Customer, env: C.Env)
    requires R.Sound(s, env.now) && Settled(s, env)
    ensures Settled(C.Next(s, C.Expire(c, s, env)), env)
  {
    if C.Due(s, env.now) {
      G.ExpireNext(c, s, env);
      G.DesiredOnly(s.rows, C.Expire(c, s, env).write.value);
      G.SameSynced(s, C.Next(s, C.Expire(c, s, env)), C.TopologyOf(env, s.ent.fleet), env.now);
      G.ExpireObeys(c, s, env);
    }
  }

  lemma UsageSettled(c: CustomerId, s: C.Customer, n: NodeId, at: int, counted: Option<nat>, env: C.Env)
    requires R.Sound(s, env.now) && Settled(s, env)
    ensures Settled(C.Next(s, C.Account(c, s, n, at, counted, env)), env)
  {
    if IsServed(s) {
      G.AccountObeys(c, s, n, at, counted, env);
      G.AccountSameTargets(c, s, n, at, counted, env);
      G.SameSynced(s, C.Next(s, C.Account(c, s, n, at, counted, env)), C.TopologyOf(env, s.ent.fleet), env.now);
    }
  }

  // ---------------------------------------------------------------------- invariant

  ghost predicate Passed(p: Plane, c: CustomerId) {
    var r := p.projection.revision;
    r in p.jobs && (p.jobs[r].done || c < p.jobs[r].cursor)
  }

  ghost predicate SettledAt(p: Plane, c: CustomerId) {
    Settled(CustomerOf(p, c), EnvOf(p, 0, C.Ids(map[], map[])))
  }

  ghost predicate FannedOut(p: Plane) {
    forall c :: Passed(p, c) ==> SettledAt(p, c)
  }

  lemma SettledNow(p: Plane, c: CustomerId, grace: nat, ids: C.Ids)
    ensures SettledAt(p, c) <==> Settled(CustomerOf(p, c), EnvOf(p, grace, ids))
  {
  }

  lemma OthersSettled(p: Plane, q: Plane, c: CustomerId)
    requires FannedOut(p) && q.jobs == p.jobs && q.projection == p.projection && q.world.db.now == p.world.db.now
    requires forall b | b != c :: CustomerOf(q, b) == CustomerOf(p, b)
    requires Passed(p, c) ==> SettledAt(q, c)
    ensures FannedOut(q)
  {
    forall b ensures Passed(q, b) ==> SettledAt(q, b) {
      assert Passed(p, b) ==> SettledAt(p, b);
    }
  }

  /** A transaction of one customer leaves the others settled. */
  lemma CommitFannedOut(p: Plane, c: CustomerId, x: C.Txn, grace: nat, ids: C.Ids)
    requires I.AccessRows(p.world) && I.Actors(p.world) && FannedOut(p)
    requires Fitting(p.world, c, x)
    requires SettledAt(p, c) ==> Settled(C.Next(CustomerOf(p, c), x), EnvOf(p, grace, ids))
    ensures FannedOut(Commit(p, c, x))
    ensures Settled(C.Next(CustomerOf(p, c), x), EnvOf(p, grace, ids)) ==> SettledAt(Commit(p, c, x), c)
  {
    if x.Committed? {
      CommitFrames(p, c, x);
      SettledNow(Commit(p, c, x), c, grace, ids);
      assert Passed(p, c) ==> SettledAt(p, c);
      OthersSettled(p, Commit(p, c, x), c);
    } else {
      SettledNow(p, c, grace, ids);
    }
  }

  ghost predicate Fitting(w: D.World, c: CustomerId, x: C.Txn) {
    x.Committed? && x.write.Some? ==> D.Fits(w, x.write.value) && x.write.value.customer == c
  }

  lemma FittingCommand(w: D.World, c: CustomerId, s: C.Customer, cmd: C.Command, env: C.Env)
    requires F.View(w, c, s, env) && I.AccessRows(w)
    ensures Fitting(w, c, C.Execute(c, s, cmd, env))
  {
    if C.Execute(c, s, cmd, env).Committed? { F.CommandFits(w, c, s, cmd, env); }
  }

  lemma FittingExpiry(w: D.World, c: CustomerId, s: C.Customer, env: C.Env)
    requires F.View(w, c, s, env) && I.AccessRows(w)
    ensures Fitting(w, c, C.Expire(c, s, env))
  {
    if C.Expire(c, s, env).Committed? { F.ExpireFits(w, c, s, env); }
  }

  lemma CommandFansOut(p: Plane, c: CustomerId, cmd: C.Command, grace: nat, ids: C.Ids)
    requires Kept(p) && FannedOut(p) && F.FreshIds(p.world, CustomerOf(p, c), EnvOf(p, grace, ids))
    ensures FannedOut(Commit(p, c, C.Execute(c, CustomerOf(p, c), cmd, EnvOf(p, grace, ids))))
  {
    var s, env := CustomerOf(p, c), EnvOf(p, grace, ids);
    var x := C.Execute(c, s, cmd, env);
    Reads(p, c, grace, ids);
    assert CustomerKept(p, c);
    SettledNow(p, c, grace, ids);
    FittingCommand(p.world, c, s, cmd, env);
    if SettledAt(p, c) { CommandSettled(c, s, cmd, env); }
    CommitFannedOut(p, c, x, grace, ids);
  }

  lemma ExpireFansOut(p: Plane, c: CustomerId, ids: C.Ids)
    requires Kept(p) && FannedOut(p) && F.FreshIds(p.world, CustomerOf(p, c), EnvOf(p, 0, ids))
    ensures FannedOut(Commit(p, c, C.Expire(c, CustomerOf(p, c), EnvOf(p, 0, ids))))
  {
    var s, env := CustomerOf(p, c), EnvOf(p, 0, ids);
    var x := C.Expire(c, s, env);
    Reads(p, c, 0, ids);
    assert CustomerKept(p, c);
    SettledNow(p, c, 0, ids);
    FittingExpiry(p.world, c, s, env);
    if SettledAt(p, c) { ExpireSettled(c, s, env); }
    CommitFannedOut(p, c, x, 0, ids);
  }

  lemma UsageFansOut(p: Plane, c: CustomerId, n: NodeId, at: int, counted: Option<nat>, ids: C.Ids)
    requires Kept(p) && FannedOut(p) && F.FreshIds(p.world, CustomerOf(p, c), EnvOf(p, 0, ids))
    ensures FannedOut(Commit(p, c, C.Account(c, CustomerOf(p, c), n, at, counted, EnvOf(p, 0, ids))))
  {
    var s, env := CustomerOf(p, c), EnvOf(p, 0, ids);
    var x := C.Account(c, s, n, at, counted, env);
    Reads(p, c, 0, ids);
    assert CustomerKept(p, c);
    if x.Committed? { UsageFits(p.world, c, s, n, at, counted, env); }
    SettledNow(p, c, 0, ids);
    if SettledAt(p, c) { UsageSettled(c, s, n, at, counted, env); }
    CommitFannedOut(p, c, x, 0, ids);
  }

  lemma MaterializeFansOut(p: Plane, c: CustomerId, ids: C.Ids)
    requires Kept(p) && FannedOut(p) && F.FreshIds(p.world, CustomerOf(p, c), EnvOf(p, 0, ids)) && Served(p, c)
    ensures var p' := Commit(p, c, C.Materialize(c, CustomerOf(p, c), EnvOf(p, 0, ids)));
            FannedOut(p') && SettledAt(p', c)
  {
    var s, env := CustomerOf(p, c), EnvOf(p, 0, ids);
    var x := C.Materialize(c, s, env);
    Reads(p, c, 0, ids);
    assert CustomerKept(p, c);
    if x.Committed? { F.MaterializeFits(p.world, c, s, env); }
    G.MaterializeSettles(c, s, env);
    MaterializedSettled(c, s, env);
    CommitFannedOut(p, c, x, 0, ids);
  }

  lemma MaterializedSettled(c: CustomerId, s: C.Customer, env: C.Env)
    requires G.Obeys(C.Next(s, C.Materialize(c, s, env)), C.TopologyOf(env, s.ent.fleet), env.now)
    requires G.Synced(C.Next(s, C.Materialize(c, s, env)), C.TopologyOf(env, s.ent.fleet), env.now)
    ensures Settled(C.Next(s, C.Materialize(c, s, env)), env)
  {
    if C.Materialize(c, s, env).Committed? { R.MaterializeNext(c, s, env); }
  }

  /** Moving one job's cursor past the customer it has just settled. */
  lemma CursorFansOut(p: Plane, q: Plane, r: nat, next: CustomerId)
    requires FannedOut(q) && r in p.jobs && IsNext(p, p.jobs[r].cursor, Some(next)) && !p.jobs[r].done
    requires q.jobs == p.jobs && q.projection == p.projection && SettledAt(q, next)
    requires forall b | b != next :: AccountOf(q, b) == AccountOf(p, b)
    ensures FannedOut(q.(jobs := q.jobs[r := Job(next + 1, false)]))
  {
    var q' := q.(jobs := q.jobs[r := Job(next + 1, false)]);
    forall b ensures Passed(q', b) ==> SettledAt(q', b) {
      assert Passed(q, b) ==> SettledAt(q, b);
      assert SettledAt(q', b) == SettledAt(q, b);
      if Passed(q', b) && !Passed(q, b) && b != next {
        assert b !in p.accounts || !Served(p, b);
        assert !IsServed(CustomerOf(q, b));
      }
    }
  }

  lemma DoneFansOut(p: Plane, r: nat)
    requires FannedOut(p) && r in p.jobs && IsNext(p, p.jobs[r].cursor, None)
    ensures FannedOut(p.(jobs := p.jobs[r := p.jobs[r].(done := true)]))
  {
    var q := p.(jobs := p.jobs[r := p.jobs[r].(done := true)]);
    forall b ensures Passed(q, b) ==> SettledAt(q, b) {
      assert Passed(p, b) ==> SettledAt(p, b);
      assert SettledAt(q, b) == SettledAt(p, b);
      if Passed(q, b) && !Passed(p, b) {
        assert b !in p.accounts || !Served(p, b);
        assert !IsServed(CustomerOf(p, b));
      }
    }
  }

  lemma ProcessFansOut(p: Plane, r: nat, next: Option<CustomerId>, ids: C.Ids)
    requires Kept(p) && FannedOut(p) && Enabled(p, Process(r, next, ids))
    ensures FannedOut(Processed(p, r, next, ids))
  {
    hide Kept, F.FreshIds, C.Materialize, SettledAt, FannedOut;
    match next
    case None => DoneFansOut(p, r);
    case Some(c) =>
      var x := C.Materialize(c, CustomerOf(p, c), EnvOf(p, 0, ids));
      MaterializeFansOut(p, c, ids);
      if !x.Rejected? { CursorFansOut(p, Commit(p, c, x), r, c); }
  }

  lemma ManifestFansOut(p: Plane, m: M.Submission)
    requires Accepts(p, m)
    ensures FannedOut(ManifestAccepted(p, m))
  {
    forall b ensures !Passed(ManifestAccepted(p, m), b) {
    }
  }

  lemma FinalizeFansOut(p: Plane, c: CustomerId)
    requires FannedOut(p) && DeletionDue(p, c)
    ensures FannedOut(DeletionFinalized(p, c))
  {
    var q := DeletionFinalized(p, c);
    FinalizeFrames(p, c);
    forall b ensures Passed(q, b) ==> SettledAt(q, b) {
      assert Passed(p, b) ==> SettledAt(p, b);
    }
  }

  lemma OnlyApplySettled(s: C.Customer, s': C.Customer, env: C.Env, later: C.Env)
    requires Settled(s, env) && OnlyApply(s.rows, s'.rows) && s'.ent == s.ent && s'.periods == s.periods
    requires env.now <= later.now && later.fleets == env.fleets
    ensures Settled(s', later)
  {
    if IsServed(s) && later.now < s.ent.expiresAt { OnlyApplyComplete(s.rows, s'.rows, C.TopologyOf(env, s.ent.fleet)); }
  }

  lemma OnlyApplyComplete(rows: map<AccessId, Access>, rows': map<AccessId, Access>, t: Topology)
    requires Complete(t, rows) && OnlyApply(rows, rows')
    ensures Complete(t, rows')
  {
    forall k | IsTarget(t, k) ensures Covered(rows', k) {
      var a :| a in rows && !rows[a].retired && rows[a].target == k;
      assert !rows'[a].retired && rows'[a].target == k;
    }
  }

  lemma ProtocolFansOut(p: Plane, d: D.Step)
    requires FannedOut(p) && Background(d) && D.Enabled(p.world, d)
    ensures FannedOut(p.(world := D.After(p.world, d)))
  {
    var q := p.(world := D.After(p.world, d));
    var ids := C.Ids(map[], map[]);
    ProtocolRows(p.world, d);
    forall b ensures Passed(q, b) ==> SettledAt(q, b) {
      assert Passed(p, b) ==> SettledAt(p, b);
      if Passed(p, b) {
        OnlyApplyRows(p.world.db, q.world.db, b);
        OnlyApplySettled(CustomerOf(p, b), CustomerOf(q, b), EnvOf(p, 0, ids), EnvOf(q, 0, ids));
      }
    }
  }

  lemma StepFansOut(p: Plane, s: Step)
    requires Kept(p) && FannedOut(p) && Enabled(p, s)
    ensures FannedOut(After(p, s))
  {
    hide Kept, FannedOut, F.FreshIds, Accepts, D.Enabled;
    match s
    case Command(c, cmd, grace, ids) => CommandFansOut(p, c, cmd, grace, ids);
    case Expire(c, ids) => ExpireFansOut(p, c, ids);
    case Usage(c, n, at, counted, ids) => UsageFansOut(p, c, n, at, counted, ids);
    case Process(r, next, ids) => ProcessFansOut(p, r, next, ids);
    case Manifest(m) => ManifestFansOut(p, m);
    case Finalize(c) => FinalizeFansOut(p, c);
    case Protocol(d) => ProtocolFansOut(p, d);
  }

  lemma StartsFannedOut(p: Plane)
    requires Initial(p)
    ensures FannedOut(p)
  {
  }

  lemma {:induction false} RunFansOut(ps: seq<Plane>, steps: seq<Step>, i: nat)
    requires Run(ps, steps) && i < |ps|
    ensures FannedOut(ps[i])
  {
    hide Kept, FannedOut, Enabled, After;
    if i == 0 {
      StartsFannedOut(ps[0]);
    } else {
      RunFansOut(ps, steps, i - 1);
      RunKept(ps, steps, i - 1);
      StepFansOut(ps[i - 1], steps[i - 1]);
    }
  }
}
