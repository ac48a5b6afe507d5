/** Every run of the control plane is a run of the delivery protocol with idle steps, so what
    was proved about delivery holds under the real planners, step by step. */
module PlaneDelivery {
  import opened Types
  import opened Targets
  import opened Plane
  import opened PlaneKeeps
  import C = Customers
  import R = CustomerRules
  import D = Delivery
  import I = DeliveryInvariant
  import S = DeliverySafety
  import L = DeliveryLimits
  import W = DeliveryWrites
  import DP = DeliveryProgress
  import M = Manifest
  import F = CustomerFits
  import PS = PlaneSafety
  import FanOut

  // -------------------------------------------------- refinement of the delivery protocol

  /** The delivery step a step of the plane takes, None when it takes none. */
  ghost function StepOf(p: Plane, s: Step): Option<D.Step>
    requires Enabled(p, s)
  {
    match s
    case Command(c, cmd, grace, ids) => WriteStep(C.Execute(c, CustomerOf(p, c), cmd, EnvOf(p, grace, ids)))
    case Expire(c, ids) => WriteStep(C.Expire(c, CustomerOf(p, c), EnvOf(p, 0, ids)))
    case Usage(c, n, at, counted, ids) => WriteStep(C.Account(c, CustomerOf(p, c), n, at, counted, EnvOf(p, 0, ids)))
    case Process(r, next, ids) =>
      if next.Some? then WriteStep(C.Materialize(next.value, CustomerOf(p, next.value), EnvOf(p, 0, ids))) else None
    case Manifest(m) => Some(D.Step.Manifest(m.snapshot.nodes.Keys))
    case Finalize(c) => Some(D.Step.Finalize(c))
    case Protocol(d) => Some(d)
  }

  function WriteStep(x: C.Txn): Option<D.Step> {
    if x.Committed? && x.write.Some? then Some(D.Step.Commit(x.write.value)) else None
  }

  /** Every step of the plane is a step of the delivery protocol or leaves it alone: the
      planners really keep the contract the protocol was proved under. */
  lemma StepRefines(p: Plane, s: Step)
    requires Kept(p) && Enabled(p, s)
    ensures match StepOf(p, s)
            case None => After(p, s).world == p.world
            case Some(d) => D.Enabled(p.world, d) && After(p, s).world == D.After(p.world, d)
  {
    hide Kept, F.FreshIds, C.Execute, C.Expire, C.Account, C.Materialize, D.CommitStep, D.Fits, FanOut.Fitting;
    match s
    case Command(c, cmd, grace, ids) =>
      CommandFits(p, c, cmd, grace, ids);
      Written(p, c, C.Execute(c, CustomerOf(p, c), cmd, EnvOf(p, grace, ids)));
    case Expire(c, ids) =>
      ExpiryFits(p, c, ids);
      Written(p, c, C.Expire(c, CustomerOf(p, c), EnvOf(p, 0, ids)));
    case Usage(c, n, at, counted, ids) =>
      GroupFits(p, c, n, at, counted, ids);
      Written(p, c, C.Account(c, CustomerOf(p, c), n, at, counted, EnvOf(p, 0, ids)));
    case Process(r, next, ids) => ProcessRefines(p, r, next, ids);
    case Manifest(m) =>
    case Finalize(c) =>
    case Protocol(d) =>
  }

  /** A fitting transaction is a delivery commit. */
  lemma Written(p: Plane, c: CustomerId, x: C.Txn)
    requires FanOut.Fitting(p.world, c, x)
    ensures match WriteStep(x)
            case None => Commit(p, c, x).world == p.world
            case Some(d) => D.Enabled(p.world, d) && Commit(p, c, x).world == D.After(p.world, d)
  {
    hide D.Fits, D.CommitStep;
  }

  lemma CommandFits(p: Plane, c: CustomerId, cmd: C.Command, grace: nat, ids: C.Ids)
    requires Kept(p) && F.FreshIds(p.world, CustomerOf(p, c), EnvOf(p, grace, ids))
    ensures FanOut.Fitting(p.world, c, C.Execute(c, CustomerOf(p, c), cmd, EnvOf(p, grace, ids)))
  {
    hide F.FreshIds, F.View, FanOut.Fitting, C.Execute;
    Reads(p, c, grace, ids);
    FanOut.FittingCommand(p.world, c, CustomerOf(p, c), cmd, EnvOf(p, grace, ids));
  }

  lemma ExpiryFits(p: Plane, c: CustomerId, ids: C.Ids)
    requires Kept(p) && F.FreshIds(p.world, CustomerOf(p, c), EnvOf(p, 0, ids))
    ensures FanOut.Fitting(p.world, c, C.Expire(c, CustomerOf(p, c), EnvOf(p, 0, ids)))
  {
    hide F.FreshIds, F.View, FanOut.Fitting, C.Expire;
    Reads(p, c, 0, ids);
    FanOut.FittingExpiry(p.world, c, CustomerOf(p, c), EnvOf(p, 0, ids));
  }

  lemma GroupFits(p: Plane, c: CustomerId, n: NodeId, at: int, counted: Option<nat>, ids: C.Ids)
    requires Kept(p) && F.FreshIds(p.world, CustomerOf(p, c), EnvOf(p, 0, ids))
    ensures FanOut.Fitting(p.world, c, C.Account(c, CustomerOf(p, c), n, at, counted, EnvOf(p, 0, ids)))
  {
    hide F.FreshIds, F.View, C.Account, D.Fits;
    Reads(p, c, 0, ids);
    assert CustomerKept(p, c);
    if C.Account(c, CustomerOf(p, c), n, at, counted, EnvOf(p, 0, ids)).Committed? {
      UsageFits(p.world, c, CustomerOf(p, c), n, at, counted, EnvOf(p, 0, ids));
    }
  }

  lemma ProcessRefines(p: Plane, r: nat, next: Option<CustomerId>, ids: C.Ids)
    requires Kept(p) && Enabled(p, Process(r, next, ids))
    ensures match StepOf(p, Process(r, next, ids))
            case None => After(p, Process(r, next, ids)).world == p.world
            case Some(d) => D.Enabled(p.world, d) && After(p, Process(r, next, ids)).world == D.After(p.world, d)
  {
    hide M.Consistent, CustomerKept, F.FreshIds, F.View, D.Fits, D.CommitStep;
    if next.Some? {
      Reads(p, next.value, 0, ids);
      if C.Materialize(next.value, CustomerOf(p, next.value), EnvOf(p, 0, ids)).Committed? {
        F.MaterializeFits(p.world, next.value, CustomerOf(p, next.value), EnvOf(p, 0, ids));
      }
    }
  }

  /** A delivery step, or none. */
  ghost predicate Linked(w: D.World, d: Option<D.Step>, w': D.World) {
    match d
    case None => w' == w
    case Some(x) => D.Enabled(w, x) && w' == D.After(w, x)
  }

  lemma StepLinks(ps: seq<Plane>, steps: seq<Step>, k: nat)
    requires Run(ps, steps) && k < |steps|
    ensures Linked(ps[k].world, StepOf(ps[k], steps[k]), ps[k + 1].world)
  {
    RunKept(ps, steps, k);
    StepRefines(ps[k], steps[k]);
  }

  /** `at` gives, for every position of a plane run, its position in the delivery run: equal
      worlds, one position further exactly when the step is a delivery step - that step. */
  ghost predicate Refines(ps: seq<Plane>, steps: seq<Step>, ws: seq<D.World>, ds: seq<D.Step>, at: seq<nat>)
    requires Run(ps, steps)
  {
    && D.Run(ws, ds) && |at| == |ps| && at[0] == 0 && at[|ps| - 1] == |ds|
    && (forall k | 0 <= k < |ps| :: at[k] < |ws| && ws[at[k]] == ps[k].world)
    && (forall k | 0 <= k < |steps| :: Advances(StepOf(ps[k], steps[k]), ds, at[k], at[k + 1]))
  }

  predicate Advances(d: Option<D.Step>, ds: seq<D.Step>, here: nat, there: nat) {
    match d
    case None => there == here
    case Some(x) => there == here + 1 && here < |ds| && ds[here] == x
  }

  /** Leaving out the steps that do nothing leaves a run. */
  lemma {:induction false} Compressed(all: seq<D.World>, taken: seq<Option<D.Step>>)
    returns (ws: seq<D.World>, ds: seq<D.Step>, at: seq<nat>)
    requires |all| == |taken| + 1 && D.Initial(all[0])
    requires forall k, l | 0 <= k < l < |all| && l == k + 1 :: Linked(all[k], taken[k], all[l])
    ensures D.Run(ws, ds) && |at| == |all| && at[0] == 0 && at[|all| - 1] == |ds|
    ensures forall k | 0 <= k < |all| :: at[k] < |ws| && ws[at[k]] == all[k]
    ensures forall k, l | 0 <= k < l < |all| && l == k + 1 :: Advances(taken[k], ds, at[k], at[l])
  {
    var n := |taken|;
    if n == 0 {
      ws, ds, at := [all[0]], [], [0];
    } else {
      var before, start := all[..n], taken[..n - 1];
      forall k, l | 0 <= k < l < |before| && l == k + 1 ensures Linked(before[k], start[k], before[l]) {
        assert Linked(all[k], taken[k], all[l]);
      }
      ws, ds, at := Compressed(before, start);
      assert Linked(all[n - 1], taken[n - 1], all[n]);
      ws, ds, at := Longer(all, taken, ws, ds, at);
    }
  }

  /** One more step. */
  lemma Longer(all: seq<D.World>, taken: seq<Option<D.Step>>, ws: seq<D.World>, ds: seq<D.Step>, at: seq<nat>)
    returns (ws': seq<D.World>, ds': seq<D.Step>, at': seq<nat>)
    requires |all| == |taken| + 1 && |taken| > 0 && |at| == |taken| && D.Run(ws, ds) && at[0] == 0 && at[|at| - 1] == |ds|
    requires Linked(all[|all| - 2], taken[|taken| - 1], all[|all| - 1])
    requires forall k | 0 <= k < |at| :: at[k] < |ws| && ws[at[k]] == all[k]
    requires forall k, l | 0 <= k < l < |at| && l == k + 1 :: Advances(taken[k], ds, at[k], at[l])
    ensures D.Run(ws', ds') && |at'| == |all| && at'[0] == 0 && at'[|all| - 1] == |ds'|
    ensures forall k | 0 <= k < |all| :: at'[k] < |ws'| && ws'[at'[k]] == all[k]
    ensures forall k, l | 0 <= k < l < |all| && l == k + 1 :: Advances(taken[k], ds', at'[k], at'[l])
  {
    match taken[|taken| - 1]
    case None =>
      ws', ds', at' := ws, ds, at + [|ds|];
    case Some(d) =>
      Extended(ws, ds, d);
      ws', ds', at' := ws + [D.After(ws[|ws| - 1], d)], ds + [d], at + [|ds| + 1];
      forall k, l | 0 <= k < l < |all| && l == k + 1 ensures Advances(taken[k], ds', at'[k], at'[l]) {
        if l < |at| { assert Advances(taken[k], ds, at[k], at[l]); }
      }
  }

  lemma Extended(ws: seq<D.World>, ds: seq<D.Step>, d: D.Step)
    requires D.Run(ws, ds) && D.Enabled(ws[|ws| - 1], d)
    ensures D.Run(ws + [D.After(ws[|ws| - 1], d)], ds + [d])
  {
  }

  /** Every run of the plane is a run of the delivery protocol, position by position. */
  lemma RunRefines(ps: seq<Plane>, steps: seq<Step>) returns (ws: seq<D.World>, ds: seq<D.Step>, at: seq<nat>)
    requires Run(ps, steps)
    ensures Refines(ps, steps, ws, ds, at)
  {
    var all := seq(|ps|, k requires 0 <= k < |ps| => ps[k].world);
    var taken := seq(|steps|, k requires 0 <= k < |steps| => StepOf(ps[k], steps[k]));
    forall k, l | 0 <= k < l < |all| && l == k + 1 ensures Linked(all[k], taken[k], all[l]) {
      StepLinks(ps, steps, k);
    }
    ws, ds, at := Compressed(all, taken);
    forall k | 0 <= k < |steps| ensures Advances(StepOf(ps[k], steps[k]), ds, at[k], at[k + 1]) {
      assert Advances(taken[k], ds, at[k], at[k + 1]);
    }
  }

  lemma {:induction false} Forward(ps: seq<Plane>, steps: seq<Step>, ws: seq<D.World>, ds: seq<D.Step>, at: seq<nat>, k: nat, l: nat)
    requires Run(ps, steps) && Refines(ps, steps, ws, ds, at) && k <= l < |ps|
    ensures at[k] <= at[l]
  {
    if k < l {
      Forward(ps, steps, ws, ds, at, k, l - 1);
      assert Advances(StepOf(ps[l - 1], steps[l - 1]), ds, at[l - 1], at[l]);
    }
  }

  /** The plane step that takes a given delivery step. */
  lemma {:induction false} Origin(ps: seq<Plane>, steps: seq<Step>, ws: seq<D.World>, ds: seq<D.Step>, at: seq<nat>, j: nat, end: nat)
    returns (k: nat)
    requires Run(ps, steps) && Refines(ps, steps, ws, ds, at) && end < |ps| && j < at[end]
    ensures k < end && at[k] == j && j < |ds| && StepOf(ps[k], steps[k]) == Some(ds[j])
  {
    assert Advances(StepOf(ps[end - 1], steps[end - 1]), ds, at[end - 1], at[end]);
    if at[end - 1] == j {
      k := end - 1;
    } else {
      k := Origin(ps, steps, ws, ds, at, j, end - 1);
    }
  }

  /** A step of the protocol's own workers is taken as it is. */
  lemma Same(ps: seq<Plane>, steps: seq<Step>, ws: seq<D.World>, ds: seq<D.Step>, at: seq<nat>, k: nat)
    requires Run(ps, steps) && Refines(ps, steps, ws, ds, at) && k < |steps| && steps[k].Protocol?
    ensures at[k] < |ds| && ds[at[k]] == steps[k].step
  {
    assert Advances(StepOf(ps[k], steps[k]), ds, at[k], at[k + 1]);
  }

  // ------------------------------------------------------------- lifted: revocation

  /** A confirmed revocation is real under the real planners as well. */
  lemma RevocationIsReal(ps: seq<Plane>, steps: seq<Step>, i: nat, a: AccessId)
    requires Run(ps, steps) && i < |ps|
    requires var w := ps[i].world;
             (a in w.db.accesses && !w.db.accesses[a].retired && w.db.accesses[a].node !in w.departed
              && w.db.accesses[a].desired.Absent? && w.db.accesses[a].apply.Applied?)
    ensures var w := ps[i].world; w.db.accesses[a].node in w.agents && a !in w.agents[w.db.accesses[a].node]
  {
    var ws, ds, at := RunRefines(ps, steps);
    S.RevocationIsReal(ws, ds, at[i], a);
  }

  /** A deleted customer has no user on any node that stayed in the manifest. */
  lemma DeletedHasNoUsers(ps: seq<Plane>, steps: seq<Step>, i: nat, c: CustomerId, n: NodeId, a: AccessId)
    requires Run(ps, steps) && i < |ps| && AccountOf(ps[i], c).ent.lifecycle.Deleted?
    requires n in ps[i].world.agents && n !in ps[i].world.departed && a in ps[i].world.agents[n]
    ensures a in ps[i].world.db.accesses && ps[i].world.db.accesses[a].customer != c
  {
    RunKept(ps, steps, i);
    NoUsers(ps[i], c, n, a);
  }

  lemma NoUsers(p: Plane, c: CustomerId, n: NodeId, a: AccessId)
    requires I.NoOrphans(p.world) && CustomerKept(p, c) && AccountOf(p, c).ent.lifecycle.Deleted?
    requires n in p.world.agents && n !in p.world.departed && a in p.world.agents[n]
    ensures a in p.world.db.accesses && p.world.db.accesses[a].customer != c
  {
    assert a in p.world.db.accesses && p.world.db.accesses[a].customer == c ==> a in CustomerOf(p, c).rows;
  }

  // --------------------------------------------------------------- lifted: histories

  /** Over every run an access keeps its identity, its version only grows, and equal versions
      mean equal contents; a deleted id never returns. */
  lemma RowHistory(ps: seq<Plane>, steps: seq<Step>, i: nat, j: nat, a: AccessId)
    requires Run(ps, steps) && i <= j < |ps| && a in ps[i].world.usedAccesses
    ensures a in ps[j].world.db.accesses ==>
              a in ps[i].world.db.accesses && S.Continues(ps[i].world.db.accesses[a], ps[j].world.db.accesses[a])
  {
    var ws, ds, at := RunRefines(ps, steps);
    Forward(ps, steps, ws, ds, at, i, j);
    S.RowHistory(ws, ds, at[i], at[j], a);
  }

  lemma TerminalIsFinal(ps: seq<Plane>, steps: seq<Step>, i: nat, j: nat, o: OperationId)
    requires Run(ps, steps) && i <= j < |ps|
    requires o in ps[i].world.db.ops && D.Terminal(ps[i].world.db.ops[o].status)
    ensures o in ps[j].world.db.ops ==> ps[j].world.db.ops[o] == ps[i].world.db.ops[o]
  {
    var ws, ds, at := RunRefines(ps, steps);
    Forward(ps, steps, ws, ds, at, i, j);
    S.TerminalIsFinal(ws, ds, at[i], at[j], o);
  }

  /** Every attempt of one operation carries the same payload. */
  lemma PayloadIsStable(ps: seq<Plane>, steps: seq<Step>, i: nat, j: nat, first: D.Step, again: D.Step)
    requires Run(ps, steps) && i < j < |steps| && steps[i] == Protocol(first) && steps[j] == Protocol(again)
    requires first.TakeLease? && again.TakeLease? && first.op == again.op
    ensures var one, two := D.CallFor(ps[i].world.db, first.op, first.ttl), D.CallFor(ps[j].world.db, again.op, again.ttl);
            && one.node == two.node && one.access == two.access && one.kind == two.kind
            && one.version == two.version && one.egress == two.egress
  {
    var ws, ds, at := RunRefines(ps, steps);
    Same(ps, steps, ws, ds, at, i);
    Same(ps, steps, ws, ds, at, j);
    assert Advances(StepOf(ps[i], steps[i]), ds, at[i], at[i + 1]);
    Forward(ps, steps, ws, ds, at, i + 1, j);
    S.PayloadIsStable(ws, ds, at[i], at[j], first.op);
  }

  // --------------------------------------------------------- lifted: reconcile guard

  /** The claim a reconciler holds at position i was taken at position j. */
  ghost predicate ClaimedAt(ps: seq<Plane>, steps: seq<Step>, n: NodeId, i: nat, j: int)
    requires |ps| == |steps| + 1 && i < |ps|
  {
    && 0 <= j < i && steps[j].Protocol? && steps[j].step.TakeNode? && steps[j].step.node == n
    && n in ps[i].world.claims && n in ps[j].world.db.nodes
    && ps[i].world.claims[n].before == D.RowsAt(ps[j].world.db, n)
    && ps[i].world.claims[n].revision == ps[j].world.db.nodes[n].revision
  }

  /** Under the real planners: an accept that goes through on a node that stayed in the
      manifest proves that no command, expiry, usage group or materialization has changed a
      desired state or an egress on the node since the claim, nor made an access listable. */
  lemma ReconcileGuard(ps: seq<Plane>, steps: seq<Step>, i: nat, n: NodeId)
    requires Run(ps, steps) && i < |steps| && steps[i] == Protocol(D.Accept(n))
    requires D.Acceptable(ps[i].world.db, n, ps[i].world.claims[n].revision) && n !in ps[i].world.departed
    ensures exists j :: ClaimedAt(ps, steps, n, i, j)
    ensures forall j, a | ClaimedAt(ps, steps, n, i, j) && a in ps[j].world.db.accesses && a in ps[i].world.db.accesses
              && ps[j].world.db.accesses[a].node == n ::
              && ps[i].world.db.accesses[a].desired == ps[j].world.db.accesses[a].desired
              && ps[i].world.db.accesses[a].egress == ps[j].world.db.accesses[a].egress
    ensures forall j, a | ClaimedAt(ps, steps, n, i, j) && D.Listable(ps[i].world.db, n, a) :: D.Listable(ps[j].world.db, n, a)
  {
    hide StepOf, Advances, Enabled, After, D.Enabled, D.After;
    var ws, ds, at := RunRefines(ps, steps);
    Same(ps, steps, ws, ds, at, i);
    S.ReconcileGuard(ws, ds, at[i], n);
    ClaimSource(ps, steps, ws, ds, at, i, n);
    forall j | ClaimedAt(ps, steps, n, i, j) ensures S.TakenAt(ws, ds, n, at[i], at[j]) {
      ClaimTarget(ps, steps, ws, ds, at, i, j, n);
    }
  }

  lemma ClaimSource(ps: seq<Plane>, steps: seq<Step>, ws: seq<D.World>, ds: seq<D.Step>, at: seq<nat>, i: nat, n: NodeId)
    requires Run(ps, steps) && Refines(ps, steps, ws, ds, at) && i < |ps|
    requires exists j :: S.TakenAt(ws, ds, n, at[i], j)
    ensures exists k :: ClaimedAt(ps, steps, n, i, k)
  {
    hide Enabled, After, D.Enabled, D.After, Advances;
    var j :| S.TakenAt(ws, ds, n, at[i], j);
    var k := Origin(ps, steps, ws, ds, at, j, i);
    assert ClaimedAt(ps, steps, n, i, k);
  }

  lemma ClaimTarget(ps: seq<Plane>, steps: seq<Step>, ws: seq<D.World>, ds: seq<D.Step>, at: seq<nat>, i: nat, j: nat, n: NodeId)
    requires Run(ps, steps) && Refines(ps, steps, ws, ds, at) && i < |ps| && ClaimedAt(ps, steps, n, i, j)
    ensures S.TakenAt(ws, ds, n, at[i], at[j])
  {
    Same(ps, steps, ws, ds, at, j);
    assert Advances(StepOf(ps[j], steps[j]), ds, at[j], at[j + 1]);
    Forward(ps, steps, ws, ds, at, j + 1, i);
  }

  // ----------------------------------------------------------- lifted: no work is lost

  /** A reconcile claim whose filters leave no PRESENT access of the node out. */
  ghost predicate Lists(p: Plane, s: Step) {
    s.Protocol? && s.step.TakeNode? ==>
      forall a | D.Listable(p.world.db, s.step.node, a) :: Admits(p, p.world.db.accesses[a])
  }

  /** The lifecycle filter never bites: a PRESENT access belongs to an ACTIVE customer.  So a
      claim lists every PRESENT access exactly when each is unexpired and unexhausted. */
  lemma ClaimsAreFull(p: Plane, s: D.Step)
    requires Kept(p) && Enabled(p, Protocol(s))
    ensures DP.AdmitsAll(p.world, s) <==> Lists(p, Protocol(s))
  {
    if s.TakeNode? {
      forall a | D.Listable(p.world.db, s.node, a)
        ensures a in D.DesiredUsers(p.world.db, s.node, s.admitted) <==> Admits(p, p.world.db.accesses[a])
      {
        PresentIsActive(p, a);
      }
    }
  }

  lemma PresentIsActive(p: Plane, a: AccessId)
    requires Kept(p) && a in p.world.db.accesses && p.world.db.accesses[a].desired.Present?
    ensures D.LifecycleOf(p.world.db, p.world.db.accesses[a].customer).Active?
  {
    var c := p.world.db.accesses[a].customer;
    assert CustomerKept(p, c) && SameLifecycle(p, c) && CustomerOf(p, c).rows[a] == p.world.db.accesses[a];
  }

  /** The filters leave a PRESENT access out only while work is pending: its customer has
      expired and the expiry worker has not come round, or the latest job has not passed it. */
  lemma FilteredIsPending(ps: seq<Plane>, steps: seq<Step>, i: nat, n: NodeId, a: AccessId)
    requires Run(ps, steps) && i < |ps| && D.Listable(ps[i].world.db, n, a)
    requires !Admits(ps[i], ps[i].world.db.accesses[a])
    ensures var c := ps[i].world.db.accesses[a].customer;
            C.Due(CustomerOf(ps[i], c), ps[i].world.db.now) || !FanOut.Passed(ps[i], c)
  {
    hide M.TopologyAt, I.Inv, M.Consistent;
    hide Run, FanOut.Passed;
    var p := ps[i];
    var c := p.world.db.accesses[a].customer;
    RunKept(ps, steps, i);
    PresentIsActive(p, a);
    assert SameLifecycle(p, c) && CustomerKept(p, c) && CustomerOf(p, c).rows[a] == p.world.db.accesses[a];
    if FanOut.Passed(p, c) && p.world.db.now < AccountOf(p, c).ent.expiresAt {
      PS.DesiredIsTheRule(ps, steps, i, c, a);
      PS.PeriodsAndThresholds(ps, steps, i, c, 0);
    }
  }

  /** While every claim lists all PRESENT accesses of its node, the protocol is full. */
  lemma {:induction false} StaysFull(ps: seq<Plane>, steps: seq<Step>, i: nat)
    requires Run(ps, steps) && i < |ps|
    requires forall k | 0 <= k < i :: Lists(ps[k], steps[k])
    ensures DP.Full(ps[i].world)
  {
    if i > 0 {
      StaysFull(ps, steps, i - 1);
      NextFull(ps, steps, i - 1);
    }
  }

  lemma NextFull(ps: seq<Plane>, steps: seq<Step>, k: nat)
    requires Run(ps, steps) && k < |steps| && Lists(ps[k], steps[k]) && DP.Full(ps[k].world)
    ensures DP.Full(ps[k + 1].world)
  {
    hide DP.Full, Lists, I.Inv;
    RunKept(ps, steps, k);
    StepLinks(ps, steps, k);
    ListsAdmit(ps[k], steps[k]);
    LinkedFull(ps[k].world, StepOf(ps[k], steps[k]), ps[k + 1].world);
  }

  lemma ListsAdmit(p: Plane, s: Step)
    requires Kept(p) && Enabled(p, s) && Lists(p, s)
    ensures StepOf(p, s).Some? ==> DP.AdmitsAll(p.world, StepOf(p, s).value)
  {
    if s.Protocol? { ClaimsAreFull(p, s.step); }
  }

  lemma LinkedFull(w: D.World, d: Option<D.Step>, w': D.World)
    requires I.Inv(w) && DP.Full(w) && Linked(w, d, w') && (d.Some? ==> DP.AdmitsAll(w, d.value))
    ensures DP.Full(w')
  {
    if d.Some? { DP.StepFull(w, d.value); }
  }

  /** Under the real planners: while every claim lists all PRESENT accesses of its node, an
      unconfirmed access has exactly one live operation of its current version. */
  lemma NoWorkLost(ps: seq<Plane>, steps: seq<Step>, i: nat, a: AccessId)
    requires Run(ps, steps) && i < |ps|
    requires forall k | 0 <= k < i :: Lists(ps[k], steps[k])
    requires a in ps[i].world.db.accesses && DP.Unconfirmed(ps[i].world.db.accesses[a])
    ensures var w := ps[i].world;
            exists o :: DP.Carries(w, o, a) && w.db.ops[o].kind == w.db.accesses[a].desired
              && w.db.ops[o].node == w.db.accesses[a].node
              && forall o' | o' in w.db.ops && w.db.ops[o'].access == a && D.Live(w.db.ops[o'].status) ::
                   o' == o || (w.db.ops[o'].status.InFlight? && w.db.ops[o'].version < w.db.accesses[a].version)
  {
    hide Run, Lists, DP.OnNode, DP.FullClaims, DP.NothingLost;
    StaysFull(ps, steps, i);
    RunKept(ps, steps, i);
    S.OneCarrier(ps[i].world, a);
  }

  /** And a confirmed PRESENT is on its node with its current egress. */
  lemma PresentIsOnNode(ps: seq<Plane>, steps: seq<Step>, i: nat, a: AccessId)
    requires Run(ps, steps) && i < |ps|
    requires forall k | 0 <= k < i :: Lists(ps[k], steps[k])
    requires a in ps[i].world.db.accesses && DP.ConfirmedPresent(ps[i].world.db.accesses[a])
    ensures var w := ps[i].world; var row := w.db.accesses[a];
            row.node in w.agents && a in w.agents[row.node] && w.agents[row.node][a] == row.egress
  {
    StaysFull(ps, steps, i);
  }

  // ------------------------------------------------------ deletions that never finish

  lemma CommandWrites(c: CustomerId, s: C.Customer, cmd: C.Command, env: C.Env)
    ensures var x := C.Execute(c, s, cmd, env);
            x.Committed? && x.write.Some? ==> x.write.value.customer == c && (s.ent.lifecycle.Deleting? ==> cmd.Delete?)
  {
  }

  lemma ExpiryWrites(c: CustomerId, s: C.Customer, env: C.Env)
    ensures var x := C.Expire(c, s, env);
            x.Committed? && x.write.Some? ==> x.write.value.customer == c && !s.ent.lifecycle.Deleting?
  {
  }

  lemma UsageWrites(c: CustomerId, s: C.Customer, n: NodeId, at: int, counted: Option<nat>, env: C.Env)
    requires R.Presences(s)
    ensures var x := C.Account(c, s, n, at, counted, env);
            x.Committed? && x.write.Some? ==> x.write.value.customer == c && !s.ent.lifecycle.Deleting?
  {
    if s.ent.lifecycle.Deleting? {
      assert forall a | a in C.AtNode(s.rows, n) :: !s.rows[a].desired.Present?;
    }
  }

  lemma MaterializeWrites(c: CustomerId, s: C.Customer, env: C.Env)
    ensures var x := C.Materialize(c, s, env);
            x.Committed? && x.write.Some? ==> x.write.value.customer == c && !s.ent.lifecycle.Deleting?
  {
  }

  predicate Writes(d: Option<D.Step>, c: CustomerId) {
    d.Some? && d.value.Commit? && d.value.write.customer == c
  }

  /** While a customer is DELETING only a newer accepted deletion writes its accesses. */
  lemma DeletingWrites(p: Plane, s: Step, c: CustomerId)
    requires Kept(p) && Enabled(p, s) && AccountOf(p, c).ent.lifecycle.Deleting? && Writes(StepOf(p, s), c)
    ensures PS.IsAccepted(p, s, c) && s.command.Delete?
  {
    match s
    case Command(b, cmd, grace, ids) => CommandWrites(b, CustomerOf(p, b), cmd, EnvOf(p, grace, ids));
    case Expire(b, ids) => ExpiryWrites(b, CustomerOf(p, b), EnvOf(p, 0, ids));
    case Usage(b, n, at, counted, ids) =>
      assert CustomerKept(p, b);
      UsageWrites(b, CustomerOf(p, b), n, at, counted, EnvOf(p, 0, ids));
    case Process(r, next, ids) =>
      if next.Some? { MaterializeWrites(next.value, CustomerOf(p, next.value), EnvOf(p, 0, ids)); }
    case _ =>
  }

  lemma LinkedStuck(w: D.World, d: Option<D.Step>, w': D.World, a: AccessId, c: CustomerId)
    requires I.Inv(w) && L.Stuck(w, a, c) && Linked(w, d, w') && !Writes(d, c)
    ensures L.Stuck(w', a, c)
  {
    if d.Some? { L.StepStuck(w, d.value, a, c); }
  }

  lemma NextStuck(ps: seq<Plane>, steps: seq<Step>, k: nat, a: AccessId, c: CustomerId)
    requires Run(ps, steps) && k < |steps| && L.Stuck(ps[k].world, a, c) && !PS.IsAccepted(ps[k], steps[k], c)
    ensures L.Stuck(ps[k + 1].world, a, c)
  {
    RunKept(ps, steps, k);
    StepLinks(ps, steps, k);
    assert SameLifecycle(ps[k], c);
    if Writes(StepOf(ps[k], steps[k]), c) { DeletingWrites(ps[k], steps[k], c); }
    LinkedStuck(ps[k].world, StepOf(ps[k], steps[k]), ps[k + 1].world, a, c);
  }

  lemma {:induction false} StaysStuck(ps: seq<Plane>, steps: seq<Step>, i: nat, j: nat, a: AccessId, c: CustomerId)
    requires Run(ps, steps) && i <= j < |ps| && L.Stuck(ps[i].world, a, c)
    requires forall k | i <= k < j :: !PS.IsAccepted(ps[k], steps[k], c)
    ensures L.Stuck(ps[j].world, a, c)
  {
    hide L.Stuck, PS.IsAccepted, Enabled, After;
    if i < j {
      StaysStuck(ps, steps, i, j - 1, a, c);
      NextStuck(ps, steps, j - 1, a, c);
    }
  }

  lemma StuckIsNotDue(p: Plane, a: AccessId, c: CustomerId)
    requires L.Stuck(p.world, a, c)
    ensures !Enabled(p, Finalize(c))
  {
    hide D.DeletionReady, L.Stuck;
    L.StuckIsNotReady(p.world, a, c);
  }

  /** Once a reconcile has stranded a retired row of a DELETING customer, its deletion is never
      finalized before a newer command - it can only be a deletion - is accepted. */
  lemma StrandedBlocksDeletion(ps: seq<Plane>, steps: seq<Step>, i: nat, j: nat, a: AccessId, c: CustomerId)
    requires Run(ps, steps) && i <= j < |ps| && L.Stuck(ps[i].world, a, c)
    requires forall k | i <= k < j :: !PS.IsAccepted(ps[k], steps[k], c)
    ensures !Enabled(ps[j], Finalize(c))
  {
    hide L.Stuck, PS.IsAccepted, Enabled, After;
    StaysStuck(ps, steps, i, j, a, c);
    StuckIsNotDue(ps[j], a, c);
  }

  /** And a newer accepted deletion frees every row of the customer. */
  lemma DeletionUnstrands(p: Plane, s: Step, a: AccessId, c: CustomerId)
    requires Kept(p) && Enabled(p, s) && PS.IsAccepted(p, s, c) && s.command.Delete?
    requires AccountOf(p, c).ent.lifecycle.Deleting? && a in p.world.db.accesses && p.world.db.accesses[a].customer == c
    ensures !L.Stranded(After(p, s).world, a)
  {
    hide L.Stranded, I.Inv, D.Fits;
    StepRefines(p, s);
    L.DeletionUnstrands(p.world, StepOf(p, s).value.write, a);
  }
}
