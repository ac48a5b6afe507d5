/** Usage accounting and the control plane as one machine: the pullers of every node charge the
    customers' quota periods, and what they charge is what was registered. */
module Metering {
  import opened Types
  import P = Plane
  import K = PlaneKeeps
  import PS = PlaneSafety
  import C = Customers
  import R = CustomerRules
  import U = Usage
  import opened US = UsageSafety
  import UR = UsageRuns
  import UP = UsagePruning
  import M = Manifest
  import D = Delivery

  datatype State = State(plane: P.Plane, usage: map<NodeId, U.State>)

  // -------------------------------------------------------------------- one group

  function PeriodsOf(p: P.Plane, c: CustomerId): seq<C.Period> { P.AccountOf(p, c).periods }

  /** LockPeriodAt and the result its period decides: an item without a period is quarantined,
      one of a closed period is only registered. */
  function ResultOf(periods: seq<C.Period>, at: Option<nat>): U.Result
    requires at.Some? ==> at.value < |periods|
  {
    if at.None? then U.Quarantined
    else if periods[at.value].closed.Some? then U.IgnoredClosedPeriod
    else U.Result.Applied
  }

  function PeriodOf(c: CustomerId, at: Option<nat>): U.PeriodId {
    U.PeriodId(c, if at.Some? then at.value else 0)
  }

  // -------------------------------------------------------------------- the machine

  /** `Charge` is consumeGroup; `Quarantine` concerns items without a known owner. */
  datatype Step =
    | Control(step: P.Step)
    | Meter(node: NodeId, work: U.Step)
    | Charge(node: NodeId, puller: nat, customer: CustomerId, ids: C.Ids)
    | Quarantine(node: NodeId, puller: nat)

  /** The plane's part of a group transaction. */
  function GroupStep(s: State, n: NodeId, puller: nat, c: CustomerId, ids: C.Ids): P.Step
    requires n in s.usage && Ready(s.usage[n], puller)
  {
    var u := s.usage[n];
    P.Usage(c, n, Head(u, puller).collected, Counted(u, Head(u, puller), NextChunk(u, puller)), ids)
  }

  /** The accounting part of a group transaction. */
  function GroupWork(s: State, n: NodeId, puller: nat, c: CustomerId): U.Step
    requires n in s.usage && Ready(s.usage[n], puller)
  {
    var periods := PeriodsOf(s.plane, c);
    var at := C.PeriodAt(periods, Head(s.usage[n], puller).collected);
    U.Charge(puller, ResultOf(periods, at), PeriodOf(c, at))
  }

  ghost predicate Enabled(s: State, x: Step) {
    match x
    case Control(step) => !step.Usage? && P.Enabled(s.plane, step)
    case Meter(n, work) => n in s.usage && !work.Charge? && U.Enabled(s.usage[n], work)
    case Charge(n, puller, c, ids) =>
      n in s.usage && Ready(s.usage[n], puller) && P.Enabled(s.plane, GroupStep(s, n, puller, c, ids))
    case Quarantine(n, puller) => n in s.usage && Ready(s.usage[n], puller)
  }

  ghost function After(s: State, x: Step): State
    requires Enabled(s, x)
  {
    match x
    case Control(step) => s.(plane := P.After(s.plane, step))
    case Meter(n, work) => s.(usage := s.usage[n := U.After(s.usage[n], work)])
    case Charge(n, puller, c, ids) =>
      State(P.After(s.plane, GroupStep(s, n, puller, c, ids)),
            s.usage[n := U.After(s.usage[n], GroupWork(s, n, puller, c))])
    case Quarantine(n, puller) =>
      s.(usage := s.usage[n := U.After(s.usage[n], U.Charge(puller, U.Quarantined, U.PeriodId(0, 0)))])
  }

  ghost predicate Initial(s: State) {
    P.Initial(s.plane) && forall n | n in s.usage :: U.Initial(s.usage[n])
  }

  ghost predicate Run(ss: seq<State>, steps: seq<Step>) {
    && |ss| == |steps| + 1 && Initial(ss[0])
    && forall i | 0 <= i < |steps| :: Enabled(ss[i], steps[i]) && ss[i + 1] == After(ss[i], steps[i])
  }

  // --------------------------------------------------------------- counters and totals

  function TotalAt(periods: seq<C.Period>, j: nat, n: NodeId): nat {
    if j < |periods| then R.TotalAt(periods[j], n) else 0
  }

  /** Every counter of the customer's periods holds the bytes the node's accounting put there. */
  ghost predicate Agrees(s: State, c: CustomerId) {
    forall n, j: nat | n in s.usage :: Even(s, c, n, j)
  }

  ghost predicate Even(s: State, c: CustomerId, n: NodeId, j: nat)
    requires n in s.usage
  {
    Bytes(U.CounterAt(s.usage[n].counters, U.PeriodId(c, j))) == TotalAt(PeriodsOf(s.plane, c), j, n)
  }

  ghost predicate SameTotals(before: seq<C.Period>, after: seq<C.Period>) {
    forall j: nat, n :: TotalAt(after, j, n) == TotalAt(before, j, n)
  }

  lemma ApplyTotals(c: CustomerId, s: C.Customer, cmd: C.Command, env: C.Env)
    requires cmd.Apply?
    ensures SameTotals(s.periods, C.Next(s, C.ExecuteApply(c, s, cmd, env)).periods)
  {
    var x := C.ExecuteApply(c, s, cmd, env);
    if x.Committed? {
      var d := C.ClassifyApply(env.now, cmd, s.ent);
      assert x.periods == C.AppliedPeriods(s, cmd, d, env);
      R.ApplyKeepsTotals(s, cmd, d, env);
    }
  }

  lemma CommandTotals(c: CustomerId, s: C.Customer, cmd: C.Command, env: C.Env)
    ensures SameTotals(s.periods, C.Next(s, C.Execute(c, s, cmd, env)).periods)
  {
    if C.Valid(cmd) && cmd.Apply? { ApplyTotals(c, s, cmd, env); }
  }

  lemma MaterializeTotals(c: CustomerId, s: C.Customer, env: C.Env)
    ensures SameTotals(s.periods, C.Next(s, C.Materialize(c, s, env)).periods)
  {
  }

  lemma CommitTotals(p: P.Plane, b: CustomerId, x: C.Txn, c: CustomerId)
    requires b == c ==> SameTotals(PeriodsOf(p, c), C.Next(P.CustomerOf(p, c), x).periods)
    ensures SameTotals(PeriodsOf(p, c), PeriodsOf(P.Commit(p, b, x), c))
  {
    hide SameTotals, D.CommitStep, WrittenAccesses;
    SameSame(PeriodsOf(p, c));
  }

  lemma SameSame(periods: seq<C.Period>)
    ensures SameTotals(periods, periods)
  {
  }

  /** No step of the plane but a usage group and the end of a deletion moves a total. */
  lemma ControlTotals(p: P.Plane, x: P.Step, c: CustomerId)
    requires P.Enabled(p, x) && !x.Usage? && x != P.Finalize(c)
    ensures SameTotals(PeriodsOf(p, c), PeriodsOf(P.After(p, x), c))
  {
    hide SameTotals, P.Commit, C.Execute, C.Expire, C.Materialize;
    SameSame(PeriodsOf(p, c));
    match x
    case Command(b, cmd, grace, ids) =>
      if b == c { CommandTotals(c, P.CustomerOf(p, c), cmd, P.EnvOf(p, grace, ids)); }
      CommitTotals(p, b, C.Execute(b, P.CustomerOf(p, b), cmd, P.EnvOf(p, grace, ids)), c);
    case Expire(b, ids) =>
      if b == c { ExpireTotals(c, P.CustomerOf(p, c), P.EnvOf(p, 0, ids)); }
      CommitTotals(p, b, C.Expire(b, P.CustomerOf(p, b), P.EnvOf(p, 0, ids)), c);
    case Process(r, next, ids) =>
      if next.Some? { ProcessTotals(p, next.value, ids, c); }
    case _ =>
  }

  lemma ExpireTotals(c: CustomerId, s: C.Customer, env: C.Env)
    ensures SameTotals(s.periods, C.Next(s, C.Expire(c, s, env)).periods)
  {
  }

  lemma ProcessTotals(p: P.Plane, b: CustomerId, ids: C.Ids, c: CustomerId)
    ensures SameTotals(PeriodsOf(p, c), PeriodsOf(P.Commit(p, b, C.Materialize(b, P.CustomerOf(p, b), P.EnvOf(p, 0, ids))), c))
  {
    hide SameTotals, P.Commit, C.Materialize;
    if b == c { MaterializeTotals(c, P.CustomerOf(p, c), P.EnvOf(p, 0, ids)); }
    CommitTotals(p, b, C.Materialize(b, P.CustomerOf(p, b), P.EnvOf(p, 0, ids)), c);
  }

  /** What a usage group adds to the customer's totals. */
  lemma GroupTotals(p: P.Plane, c: CustomerId, n: NodeId, collected: int, counted: Option<nat>, ids: C.Ids, j: nat, m: NodeId)
    requires P.Enabled(p, P.Usage(c, n, collected, counted, ids))
    ensures var at := C.PeriodAt(PeriodsOf(p, c), collected);
            TotalAt(PeriodsOf(P.After(p, P.Usage(c, n, collected, counted, ids)), c), j, m)
            == TotalAt(PeriodsOf(p, c), j, m)
               + (if at == Some(j) && m == n && ResultOf(PeriodsOf(p, c), at).Applied? && counted.Some? then counted.value else 0)
  {
    hide C.Account, D.CommitStep, TotalAt, ResultOf, C.PeriodAt;
    GroupAdds(c, P.CustomerOf(p, c), n, collected, counted, P.EnvOf(p, 0, ids), j, m);
  }

  lemma GroupAdds(c: CustomerId, s: C.Customer, n: NodeId, collected: int, counted: Option<nat>, env: C.Env, j: nat, m: NodeId)
    ensures var at := C.PeriodAt(s.periods, collected);
            TotalAt(C.Next(s, C.Account(c, s, n, collected, counted, env)).periods, j, m)
            == TotalAt(s.periods, j, m)
               + (if at == Some(j) && m == n && ResultOf(s.periods, at).Applied? && counted.Some? then counted.value else 0)
  {
    if C.PeriodAt(s.periods, collected).Some? { R.AccountChargesExactly(c, s, n, collected, counted, env); }
  }

  lemma OthersTotals(p: P.Plane, b: CustomerId, n: NodeId, collected: int, counted: Option<nat>, ids: C.Ids, c: CustomerId)
    requires P.Enabled(p, P.Usage(b, n, collected, counted, ids)) && b != c
    ensures PeriodsOf(P.After(p, P.Usage(b, n, collected, counted, ids)), c) == PeriodsOf(p, c)
  {
  }

  // --------------------------------------------------------------------- every step

  lemma ControlAgrees(s: State, x: P.Step, c: CustomerId)
    requires Agrees(s, c) && Enabled(s, Control(x)) && x != P.Finalize(c)
    ensures Agrees(After(s, Control(x)), c)
  {
    hide Bytes, U.CounterAt;
    ControlTotals(s.plane, x, c);
    forall n, j: nat | n in s.usage ensures Even(After(s, Control(x)), c, n, j) {
      assert Even(s, c, n, j);
    }
  }

  lemma MeterAgrees(s: State, n: NodeId, work: U.Step, c: CustomerId)
    requires Agrees(s, c) && Enabled(s, Meter(n, work))
    ensures Agrees(After(s, Meter(n, work)), c)
  {
    hide Bytes, U.CounterAt, U.After, U.Enabled;
    WorkCounters(s.usage[n], work);
    forall m, j: nat | m in s.usage ensures Even(After(s, Meter(n, work)), c, m, j) {
      assert Even(s, c, m, j);
    }
  }

  lemma QuarantineAgrees(s: State, n: NodeId, puller: nat, c: CustomerId)
    requires Agrees(s, c) && Enabled(s, Quarantine(n, puller))
    ensures Agrees(After(s, Quarantine(n, puller)), c)
  {
    hide Bytes, U.CounterAt, U.After;
    forall m, j: nat | m in s.usage ensures Even(After(s, Quarantine(n, puller)), c, m, j) {
      assert Even(s, c, m, j);
      ChargeBytes(s.usage[n], puller, U.Quarantined, U.PeriodId(0, 0), U.PeriodId(c, j));
    }
  }

  lemma ChargeAgrees(s: State, n: NodeId, puller: nat, b: CustomerId, ids: C.Ids, c: CustomerId)
    requires Agrees(s, c) && Enabled(s, Charge(n, puller, b, ids))
    ensures Agrees(After(s, Charge(n, puller, b, ids)), c)
  {
    hide Bytes, U.CounterAt, U.After, U.Enabled, P.After, P.Enabled, PeriodsOf, TotalAt, GroupStep, GroupWork;
    forall m, j: nat | m in s.usage ensures Even(After(s, Charge(n, puller, b, ids)), c, m, j) {
      assert Even(s, c, m, j);
      var added := ChargeAdds(s, n, puller, b, ids, c, m, j);
    }
  }

  /** What the group adds to the counter it also adds to the customer's total. */
  lemma ChargeAdds(s: State, n: NodeId, puller: nat, b: CustomerId, ids: C.Ids, c: CustomerId, m: NodeId, j: nat) returns (added: nat)
    requires Enabled(s, Charge(n, puller, b, ids))
    ensures TotalAt(PeriodsOf(P.After(s.plane, GroupStep(s, n, puller, b, ids)), c), j, m)
         == TotalAt(PeriodsOf(s.plane, c), j, m) + (if m == n then added else 0)
    ensures Bytes(U.CounterAt(U.After(s.usage[n], GroupWork(s, n, puller, b)).counters, U.PeriodId(c, j)))
         == Bytes(U.CounterAt(s.usage[n].counters, U.PeriodId(c, j))) + added
  {
    hide Bytes, U.CounterAt, U.After, Counted;
    var u := s.usage[n];
    var periods := PeriodsOf(s.plane, b);
    var at := C.PeriodAt(periods, Head(u, puller).collected);
    added := if ResultOf(periods, at).Applied? && PeriodOf(b, at) == U.PeriodId(c, j) then CountedBytes(u, puller) else 0;
    ChargeBytes(u, puller, ResultOf(periods, at), PeriodOf(b, at), U.PeriodId(c, j));
    if b == c {
      GroupTotals(s.plane, c, n, Head(u, puller).collected, Counted(u, Head(u, puller), NextChunk(u, puller)), ids, j, m);
    } else {
      OthersTotals(s.plane, b, n, Head(u, puller).collected, Counted(u, Head(u, puller), NextChunk(u, puller)), ids, c);
    }
  }

  lemma StepAgrees(s: State, x: Step, c: CustomerId)
    requires Agrees(s, c) && Enabled(s, x) && x != Control(P.Finalize(c))
    ensures Agrees(After(s, x), c)
  {
    match x
    case Control(step) => ControlAgrees(s, step, c);
    case Meter(n, work) => MeterAgrees(s, n, work, c);
    case Charge(n, puller, b, ids) => ChargeAgrees(s, n, puller, b, ids, c);
    case Quarantine(n, puller) => QuarantineAgrees(s, n, puller, c);
  }

  // ------------------------------------------------------------------------- every run

  /** One puller per node, and only rows of no newer spool than the stored cursor are pruned. */
  predicate Tidy(s: State, x: Step) {
    x.Meter? && x.node in s.usage ==> UP.Disciplined(s.usage[x.node], x.work)
  }

  ghost predicate NodeKept(u: U.State) {
    UR.Inv(u) && Books(u) && UP.Orderly(u)
  }

  /** The accounting step of a node, if the step has one. */
  lemma WorkKept(u: U.State, work: U.Step)
    requires NodeKept(u) && U.Enabled(u, work) && UP.Careful(u, work)
    ensures NodeKept(U.After(u, work))
  {
    UP.CarefulBooks(u, work);
  }

  lemma StepNodes(s: State, x: Step)
    requires (forall n | n in s.usage :: NodeKept(s.usage[n])) && Enabled(s, x) && Tidy(s, x)
    ensures forall n | n in After(s, x).usage :: NodeKept(After(s, x).usage[n])
  {
    hide NodeKept, U.After;
    match x
    case Control(_) =>
    case Meter(n, work) =>
      UP.DisciplinedIsCareful(s.usage[n], work);
      WorkKept(s.usage[n], work);
    case Charge(n, puller, c, ids) => WorkKept(s.usage[n], GroupWork(s, n, puller, c));
    case Quarantine(n, puller) => WorkKept(s.usage[n], U.Charge(puller, U.Quarantined, U.PeriodId(0, 0)));
  }

  lemma StepPlane(s: State, x: Step)
    requires K.Kept(s.plane) && Enabled(s, x)
    ensures K.Kept(After(s, x).plane)
  {
    hide K.Kept, P.After, P.Enabled;
    match x
    case Control(step) => K.StepKept(s.plane, step);
    case Charge(n, puller, c, ids) => K.StepKept(s.plane, GroupStep(s, n, puller, c, ids));
    case _ =>
  }

  lemma InitialAgrees(s: State, c: CustomerId)
    requires Initial(s)
    ensures Agrees(s, c) && forall n | n in s.usage :: NodeKept(s.usage[n])
  {
    forall n | n in s.usage ensures NodeKept(s.usage[n]) {
      UP.StartsOrderly(s.usage[n]);
    }
    forall n, j: nat | n in s.usage ensures Even(s, c, n, j) {
    }
  }

  /** Everything every metered run keeps for a customer whose deletion is not finalized. */
  ghost predicate Metered(s: State, c: CustomerId) {
    K.Kept(s.plane) && Agrees(s, c) && forall n | n in s.usage :: NodeKept(s.usage[n])
  }

  lemma StepMetered(s: State, x: Step, c: CustomerId)
    requires Metered(s, c) && Enabled(s, x) && Tidy(s, x) && x != Control(P.Finalize(c))
    ensures Metered(After(s, x), c)
  {
    hide K.Kept, NodeKept, Agrees, Enabled, After;
    StepPlane(s, x);
    StepNodes(s, x);
    StepAgrees(s, x, c);
  }

  lemma {:induction false} RunMetered(ss: seq<State>, steps: seq<Step>, i: nat, c: CustomerId)
    requires Run(ss, steps) && i < |ss|
    requires forall k | 0 <= k < i :: Tidy(ss[k], steps[k]) && steps[k] != Control(P.Finalize(c))
    ensures Metered(ss[i], c)
  {
    hide Metered, Enabled, After, Tidy;
    if i == 0 {
      StartMetered(ss[0], c);
    } else {
      RunMetered(ss, steps, i - 1, c);
      StepMetered(ss[i - 1], steps[i - 1], c);
    }
  }

  lemma StartMetered(s: State, c: CustomerId)
    requires Initial(s)
    ensures Metered(s, c)
  {
    InitialAgrees(s, c);
    K.InitialKept(s.plane);
  }

  /** In every state, with every interleaving of pullers, crashes, commands, expiries and
      materializations: what a period holds for a node is the sum of the items the node's
      accounting registered as APPLIED for that period, each counted once. */
  lemma TotalsAreLedgers(ss: seq<State>, steps: seq<Step>, i: nat, c: CustomerId, n: NodeId, j: nat)
    requires Run(ss, steps) && i < |ss| && n in ss[i].usage
    requires forall k | 0 <= k < i :: Tidy(ss[k], steps[k]) && steps[k] != Control(P.Finalize(c))
    ensures TotalAt(PeriodsOf(ss[i].plane, c), j, n) == Bytes(Total(ss[i].usage[n].seen, U.PeriodId(c, j)))
  {
    hide Run, Tidy, Metered, Bytes, Total;
    RunMetered(ss, steps, i, c);
    LedgerAt(ss[i], c, n, j);
  }

  lemma LedgerAt(s: State, c: CustomerId, n: NodeId, j: nat)
    requires Metered(s, c) && n in s.usage
    ensures TotalAt(PeriodsOf(s.plane, c), j, n) == Bytes(Total(s.usage[n].seen, U.PeriodId(c, j)))
  {
    hide Bytes, Total, U.CounterAt, TotalAt, K.Kept, UR.Inv, UP.Orderly;
    assert Even(s, c, n, j) && Balanced(s.usage[n], U.PeriodId(c, j));
  }

  /** A node is marked exhausted in the open period exactly when the registered bytes of that
      period have reached the quota. */
  lemma ExhaustionIsLedger(ss: seq<State>, steps: seq<Step>, i: nat, c: CustomerId, n: NodeId)
    requires Run(ss, steps) && i < |ss| && n in ss[i].usage && !P.AccountOf(ss[i].plane, c).ent.lifecycle.Deleted?
    requires forall k | 0 <= k < i :: Tidy(ss[k], steps[k]) && steps[k] != Control(P.Finalize(c))
    ensures var periods := PeriodsOf(ss[i].plane, c);
            && C.OpenPeriod(periods).Some?
            && (n in C.OpenPeriod(periods).value.usage ==>
                  (C.OpenPeriod(periods).value.usage[n].exhaustedAt.Some?
                   <==> Bytes(Total(ss[i].usage[n].seen, U.PeriodId(c, |periods| - 1))) >= C.OpenPeriod(periods).value.quota))
  {
    hide Run, Tidy;
    hide Bytes, Total;
    RunMetered(ss, steps, i, c);
    var periods := PeriodsOf(ss[i].plane, c);
    OpenThreshold(ss[i].plane, c, n);
    TotalsAreLedgers(ss, steps, i, c, n, |periods| - 1);
  }

  lemma OpenThreshold(p: P.Plane, c: CustomerId, n: NodeId)
    requires K.Kept(p) && !P.AccountOf(p, c).ent.lifecycle.Deleted?
    ensures var periods := PeriodsOf(p, c);
            && C.OpenPeriod(periods).Some?
            && (n in C.OpenPeriod(periods).value.usage ==>
                  (C.OpenPeriod(periods).value.usage[n].exhaustedAt.Some? <==> TotalAt(periods, |periods| - 1, n) >= C.OpenPeriod(periods).value.quota))
  {
    assert K.CustomerKept(p, c);
  }
}
