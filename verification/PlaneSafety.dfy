/** What the control plane guarantees about every run, whatever the interleaving of
    manifests, jobs, commands, background workers and the delivery protocol. */
module PlaneSafety {
  import opened Types
  import opened Targets
  import opened Plane
  import opened PlaneKeeps
  import C = Customers
  import R = CustomerRules
  import G = CustomerDesired
  import D = Delivery
  import I = DeliveryInvariant
  import M = Manifest
  import F = CustomerFits
  import CommandStream
  import FanOut

  // -------------------------------------------------------------------- fan-out

  /** While the job of the latest revision runs, every ACTIVE or BLOCKED customer before its
      cursor - and once the job is done every such customer - has only live accesses that
      match a current target, egress included; before expiry it has exactly one for every
      target. */
  lemma FanOutIsComplete(ps: seq<Plane>, steps: seq<Step>, i: nat, c: CustomerId)
    requires Run(ps, steps) && i < |ps| && Served(ps[i], c)
    requires var r := ps[i].projection.revision;
             r in ps[i].jobs && (ps[i].jobs[r].done || c < ps[i].jobs[r].cursor)
    ensures var rows := CustomerOf(ps[i], c).rows;
            var t := M.TopologyAt(ps[i].projection, AccountOf(ps[i], c).ent.fleet);
            && (forall a | a in rows && !rows[a].retired :: IsTarget(t, rows[a].target) && rows[a].egress == TargetAt(t, rows[a].target).egress)
            && (forall a, b | Live(rows, a) && Live(rows, b) && rows[a].target == rows[b].target :: a == b)
            && (ps[i].world.db.now < AccountOf(ps[i], c).ent.expiresAt ==> forall k | IsTarget(t, k) :: Covered(rows, k))
  {
    PassedIsSettled(ps, steps, i, c);
    MatchedRows(CustomerOf(ps[i], c), M.TopologyAt(ps[i].projection, AccountOf(ps[i], c).ent.fleet), ps[i].world.db.now);
  }

  lemma MatchedRows(s: C.Customer, t: Topology, now: int)
    requires Shape(s.rows) && G.Synced(s, t, now)
    ensures forall a | a in s.rows && !s.rows[a].retired :: IsTarget(t, s.rows[a].target) && s.rows[a].egress == TargetAt(t, s.rows[a].target).egress
    ensures forall a, b | Live(s.rows, a) && Live(s.rows, b) && s.rows[a].target == s.rows[b].target :: a == b
    ensures now < s.ent.expiresAt ==> forall k | IsTarget(t, k) :: Covered(s.rows, k)
  {
    forall a, b | Live(s.rows, a) && Live(s.rows, b) && s.rows[a].target == s.rows[b].target ensures a == b {
      OneLive(s.rows, a, b);
    }
  }

  lemma PassedIsSettled(ps: seq<Plane>, steps: seq<Step>, i: nat, c: CustomerId)
    requires Run(ps, steps) && i < |ps| && FanOut.Passed(ps[i], c)
    ensures Kept(ps[i]) && CustomerKept(ps[i], c) && FanOut.SettledAt(ps[i], c)
    ensures Served(ps[i], c) ==> FleetTopology(ps[i], c)
  {
    FanOut.RunFansOut(ps, steps, i);
    RunKept(ps, steps, i);
    assert CustomerKept(ps[i], c);
    NoFleet(ps[i].projection, AccountOf(ps[i], c).ent.fleet);
  }

  /** The topology a transaction of this customer reads is the projection's. */
  ghost predicate FleetTopology(p: Plane, c: CustomerId) {
    C.TopologyOf(EnvOf(p, 0, C.Ids(map[], map[])), AccountOf(p, c).ent.fleet) == M.TopologyAt(p.projection, AccountOf(p, c).ent.fleet)
  }

  /** And the desired state of its accesses is the rule: PRESENT exactly while the customer
      is ACTIVE, unexpired and the node unexhausted (an expired customer may keep PRESENT
      until its expiry is processed). */
  lemma DesiredIsTheRule(ps: seq<Plane>, steps: seq<Step>, i: nat, c: CustomerId, a: AccessId)
    requires Run(ps, steps) && i < |ps| && Served(ps[i], c) && FanOut.Passed(ps[i], c)
    requires a in ps[i].world.db.accesses && ps[i].world.db.accesses[a].customer == c && !ps[i].world.db.accesses[a].retired
    ensures var row, ent := ps[i].world.db.accesses[a], AccountOf(ps[i], c).ent;
            var open := C.OpenPeriod(AccountOf(ps[i], c).periods);
            && open.Some?
            && (row.desired.Present? ==> ent.lifecycle.Active? && !C.Exhausted(open.value, row.node))
            && (ps[i].world.db.now < ent.expiresAt && ent.lifecycle.Active? && !C.Exhausted(open.value, row.node)
                ==> row.desired.Present?)
  {
    hide Run, FanOut.Passed, Kept;
    PassedIsSettled(ps, steps, i, c);
    assert CustomerOf(ps[i], c).rows[a] == ps[i].world.db.accesses[a];
  }

  // ------------------------------------------------------- per-customer guarantees

  /** In every reachable state only accesses of ACTIVE customers are PRESENT, and a retired
      one never is. */
  lemma PresentNeedsActive(ps: seq<Plane>, steps: seq<Step>, i: nat, a: AccessId)
    requires Run(ps, steps) && i < |ps|
    requires a in ps[i].world.db.accesses && ps[i].world.db.accesses[a].desired.Present?
    ensures AccountOf(ps[i], ps[i].world.db.accesses[a].customer).ent.lifecycle.Active?
    ensures !ps[i].world.db.accesses[a].retired
  {
    RunKept(ps, steps, i);
    var c := ps[i].world.db.accesses[a].customer;
    assert CustomerKept(ps[i], c) && CustomerOf(ps[i], c).rows[a] == ps[i].world.db.accesses[a];
  }

  /** Every access sits on its target's entry node: its own key for FREEDOM, the entry stored
      for the fleet's routing key for BRIDGE, whatever manifests came in between. */
  lemma EntryNodesNeverDrift(ps: seq<Plane>, steps: seq<Step>, i: nat, a: AccessId)
    requires Run(ps, steps) && i < |ps| && a in ps[i].world.db.accesses
    ensures var row, q := ps[i].world.db.accesses[a], ps[i].projection;
            match row.target
            case Freedom(n) => row.node == n
            case Bridge(r) => var k := (AccountOf(ps[i], row.customer).ent.fleet, r); k in q.bridges && q.bridges[k].entry == row.node
  {
    hide Run, R.Sound;
    RunKept(ps, steps, i);
    var c := ps[i].world.db.accesses[a].customer;
    assert CustomerKept(ps[i], c) && CustomerOf(ps[i], c).rows[a] == ps[i].world.db.accesses[a];
  }

  /** A customer that is not deleted has exactly one open period; from the first period on
      every instant falls in exactly one period; in the open one exhausted_at is set exactly
      when the counter has reached the quota. */
  lemma PeriodsAndThresholds(ps: seq<Plane>, steps: seq<Step>, i: nat, c: CustomerId, at: int)
    requires Run(ps, steps) && i < |ps| && !AccountOf(ps[i], c).ent.lifecycle.Deleted?
    ensures var periods := AccountOf(ps[i], c).periods;
            && C.OpenPeriod(periods).Some?
            && (forall k | 0 <= k < |periods| - 1 :: periods[k].closed.Some?)
            && (periods[0].started <= at ==>
                  (C.PeriodAt(periods, at).Some?
                   && forall k | 0 <= k < |periods| && C.Covers(periods[k], at) :: k == C.PeriodAt(periods, at).value))
            && (forall n | n in C.OpenPeriod(periods).value.usage ::
                  C.OpenPeriod(periods).value.usage[n].exhaustedAt.Some?
                  <==> C.OpenPeriod(periods).value.usage[n].total >= C.OpenPeriod(periods).value.quota)
  {
    RunKept(ps, steps, i);
    assert CustomerKept(ps[i], c);
    var periods := AccountOf(ps[i], c).periods;
    forall k | 0 <= k < |periods| - 1 ensures periods[k].closed.Some? {
      R.Ordered(periods, k, k + 1);
    }
    if periods[0].started <= at { R.PeriodsTileTime(periods, at); }
  }

  // ------------------------------------------------------------------ command stream

  function LastCommand(p: Plane, c: CustomerId): nat { AccountOf(p, c).ent.lastCommand }

  ghost predicate IsAccepted(p: Plane, s: Step, c: CustomerId) {
    && s.Command? && s.customer == c
    && C.Execute(c, CustomerOf(p, c), s.command, EnvOf(p, s.grace, s.ids)).Committed?
  }

  lemma OthersKeepCommand(p: Plane, s: Step, c: CustomerId)
    requires Enabled(p, s) && !IsAccepted(p, s, c)
    ensures LastCommand(After(p, s), c) == LastCommand(p, c)
  {
    if s.Process? && s.next == Some(c) { MaterializedCommand(p, c, s.ids); }
  }

  lemma OthersKeepDeleted(p: Plane, s: Step, c: CustomerId)
    requires Enabled(p, s) && !IsAccepted(p, s, c) && AccountOf(p, c).ent.lifecycle.Deleted?
    ensures AccountOf(After(p, s), c).ent.lifecycle.Deleted?
  {
    if s.Process? && s.next == Some(c) { MaterializedCommand(p, c, s.ids); }
  }

  lemma MaterializedCommand(p: Plane, c: CustomerId, ids: C.Ids)
    ensures var q := Commit(p, c, C.Materialize(c, CustomerOf(p, c), EnvOf(p, 0, ids)));
            LastCommand(q, c) == LastCommand(p, c) && AccountOf(q, c).ent.lifecycle == AccountOf(p, c).ent.lifecycle
  {
    if C.Materialize(c, CustomerOf(p, c), EnvOf(p, 0, ids)).Committed? {
      R.MaterializeNext(c, CustomerOf(p, c), EnvOf(p, 0, ids));
    }
  }

  lemma AcceptedCommand(p: Plane, s: Step, c: CustomerId)
    requires Enabled(p, s)
    ensures IsAccepted(p, s, c) ==> s.command.number > LastCommand(p, c) && LastCommand(After(p, s), c) == s.command.number
    ensures LastCommand(p, c) <= LastCommand(After(p, s), c)
  {
    if IsAccepted(p, s, c) {
      CommandStream.CommittedIsNew(c, CustomerOf(p, c), s.command, EnvOf(p, s.grace, s.ids));
    } else {
      OthersKeepCommand(p, s, c);
    }
  }

  lemma NextCommand(ps: seq<Plane>, steps: seq<Step>, k: nat, c: CustomerId)
    requires Run(ps, steps) && k < |steps|
    ensures LastCommand(ps[k], c) <= LastCommand(ps[k + 1], c)
    ensures IsAccepted(ps[k], steps[k], c) ==>
              steps[k].command.number > LastCommand(ps[k], c) && LastCommand(ps[k + 1], c) == steps[k].command.number
  {
    AcceptedCommand(ps[k], steps[k], c);
  }

  lemma {:induction false} Ascending(ns: seq<nat>, i: nat, j: nat)
    requires i <= j < |ns| && forall k, l | 0 <= k < l < |ns| && l == k + 1 :: ns[k] <= ns[l]
    ensures ns[i] <= ns[j]
  {
    if i < j { Ascending(ns, i, j - 1); }
  }

  /** The last command number of a customer never decreases. */
  lemma CommandsGrow(ps: seq<Plane>, steps: seq<Step>, i: nat, j: nat, c: CustomerId)
    requires Run(ps, steps) && i <= j < |ps|
    ensures LastCommand(ps[i], c) <= LastCommand(ps[j], c)
  {
    var ns := seq(|ps|, k requires 0 <= k < |ps| => LastCommand(ps[k], c));
    forall k, l | 0 <= k < l < |ns| && l == k + 1 ensures ns[k] <= ns[l] {
      NextCommand(ps, steps, k, c);
    }
    Ascending(ns, i, j);
  }

  /** Once a command is accepted, no command numbered at or below it ever changes anything
      again, whatever happened to the customer in between - deletion included. */
  lemma LateCommandsChangeNothing(ps: seq<Plane>, steps: seq<Step>, i: nat, j: nat, c: CustomerId)
    requires Run(ps, steps) && i < j < |steps| && IsAccepted(ps[i], steps[i], c)
    requires steps[j].Command? && steps[j].customer == c && steps[j].command.number <= steps[i].command.number
    ensures ps[j + 1] == ps[j]
  {
    NextCommand(ps, steps, i, c);
    CommandsGrow(ps, steps, i + 1, j, c);
    NextCommand(ps, steps, j, c);
  }

  lemma StaysDeleted(ps: seq<Plane>, steps: seq<Step>, k: nat, c: CustomerId)
    requires Run(ps, steps) && k < |steps| && AccountOf(ps[k], c).ent.lifecycle.Deleted?
    requires !IsAccepted(ps[k], steps[k], c)
    ensures AccountOf(ps[k + 1], c).ent.lifecycle.Deleted?
  {
    OthersKeepDeleted(ps[k], steps[k], c);
  }

  lemma {:induction false} Chained(bs: seq<bool>, i: nat, j: nat)
    requires i <= j < |bs| && bs[i] && forall k, l | i <= k < l <= j && l == k + 1 && bs[k] :: bs[l]
    ensures bs[j]
  {
    if i < j { Chained(bs, i, j - 1); }
  }

  /** A deleted customer stays deleted for as long as no command above its tombstone's
      number is accepted. */
  lemma TombstoneHolds(ps: seq<Plane>, steps: seq<Step>, i: nat, j: nat, c: CustomerId)
    requires Run(ps, steps) && i <= j < |ps| && AccountOf(ps[i], c).ent.lifecycle.Deleted?
    requires forall k | i <= k < j && IsAccepted(ps[k], steps[k], c) :: steps[k].command.number <= LastCommand(ps[i], c)
    ensures AccountOf(ps[j], c).ent.lifecycle.Deleted?
  {
    var bs := seq(|ps|, k requires 0 <= k < |ps| => AccountOf(ps[k], c).ent.lifecycle.Deleted?);
    forall k, l | i <= k < l <= j && l == k + 1 && bs[k] ensures bs[l] {
      CommandsGrow(ps, steps, i, k, c);
      NextCommand(ps, steps, k, c);
      StaysDeleted(ps, steps, k, c);
    }
    Chained(bs, i, j);
  }

  // ---------------------------------------------------------------------- deletion

  /** When the grace of the deletion accepted at a step ends, if one is accepted there. */
  ghost function GraceOf(p: Plane, s: Step, c: CustomerId): Option<int> {
    if IsAccepted(p, s, c) && s.command.Delete? then Some(p.world.db.now + s.grace) else None
  }

  lemma OthersKeepDue(p: Plane, s: Step, c: CustomerId)
    requires Enabled(p, s) && !IsAccepted(p, s, c)
    ensures var due := AccountOf(After(p, s), c).ent.deleteNotBefore;
            due.Some? ==> due == AccountOf(p, c).ent.deleteNotBefore
  {
    if s.Process? && s.next == Some(c) { MaterializedDue(p, c, s.ids); }
  }

  lemma MaterializedDue(p: Plane, c: CustomerId, ids: C.Ids)
    ensures var q := Commit(p, c, C.Materialize(c, CustomerOf(p, c), EnvOf(p, 0, ids)));
            AccountOf(q, c).ent.deleteNotBefore == AccountOf(p, c).ent.deleteNotBefore
  {
    if C.Materialize(c, CustomerOf(p, c), EnvOf(p, 0, ids)).Committed? {
      R.MaterializeNext(c, CustomerOf(p, c), EnvOf(p, 0, ids));
    }
  }

  predicate Follows(after: Option<int>, before: Option<int>, granted: Option<int>) {
    after.None? || after == before || after == granted
  }

  function DueOf(p: Plane, c: CustomerId): Option<int> { AccountOf(p, c).ent.deleteNotBefore }

  lemma ExecutedDue(c: CustomerId, s: C.Customer, cmd: C.Command, env: C.Env)
    ensures var x := C.Execute(c, s, cmd, env);
            x.Committed? ==> Follows(x.ent.deleteNotBefore, s.ent.deleteNotBefore,
                                     if cmd.Delete? then Some(env.now + env.grace) else None)
  {
  }

  lemma CommittedDue(p: Plane, s: Step, c: CustomerId)
    requires Enabled(p, s) && IsAccepted(p, s, c)
    ensures DueOf(After(p, s), c) == C.Execute(c, CustomerOf(p, c), s.command, EnvOf(p, s.grace, s.ids)).ent.deleteNotBefore
  {
  }

  lemma GrantedDue(p: Plane, s: Step, c: CustomerId)
    requires s.Command? && IsAccepted(p, s, c)
    ensures Follows(C.Execute(c, CustomerOf(p, c), s.command, EnvOf(p, s.grace, s.ids)).ent.deleteNotBefore, DueOf(p, c), GraceOf(p, s, c))
  {
    hide C.Execute;
    ExecutedDue(c, CustomerOf(p, c), s.command, EnvOf(p, s.grace, s.ids));
  }

  lemma AcceptedDue(p: Plane, s: Step, c: CustomerId)
    requires Enabled(p, s) && IsAccepted(p, s, c)
    ensures Follows(DueOf(After(p, s), c), DueOf(p, c), GraceOf(p, s, c))
  {
    CommittedDue(p, s, c);
    GrantedDue(p, s, c);
  }

  lemma StepDue(p: Plane, s: Step, c: CustomerId)
    requires Enabled(p, s)
    ensures Follows(DueOf(After(p, s), c), DueOf(p, c), GraceOf(p, s, c))
  {
    if IsAccepted(p, s, c) { AcceptedDue(p, s, c); } else { OthersKeepDue(p, s, c); }
  }

  lemma NextDue(ps: seq<Plane>, steps: seq<Step>, k: nat, c: CustomerId)
    requires Run(ps, steps) && k < |steps|
    ensures Follows(DueOf(ps[k + 1], c), DueOf(ps[k], c), GraceOf(ps[k], steps[k], c))
  {
    StepDue(ps[k], steps[k], c);
  }

  /** A value that appears only by being granted was granted earlier. */
  lemma {:induction false} Granted(values: seq<Option<int>>, grants: seq<Option<int>>, i: nat) returns (k: nat)
    requires |values| == |grants| + 1 && i < |values| && values[0].None? && values[i].Some?
    requires forall x, y | 0 <= x < y < |values| && y == x + 1 :: Follows(values[y], values[x], grants[x])
    ensures k < i && grants[k] == values[i]
  {
    assert Follows(values[i], values[i - 1], grants[i - 1]);
    if values[i] == grants[i - 1] {
      k := i - 1;
    } else {
      k := Granted(values, grants, i - 1);
    }
  }

  /** No deletion is finalized before the grace of an accepted deletion command has passed. */
  lemma GraceIsRespected(ps: seq<Plane>, steps: seq<Step>, i: nat, c: CustomerId) returns (k: nat)
    requires Run(ps, steps) && i < |steps| && steps[i] == Finalize(c)
    ensures k < i && IsAccepted(ps[k], steps[k], c) && steps[k].command.Delete?
    ensures ps[k].world.db.now + steps[k].grace <= ps[i].world.db.now
  {
    var values := seq(|ps|, x requires 0 <= x < |ps| => DueOf(ps[x], c));
    var grants := seq(|steps|, x requires 0 <= x < |steps| => GraceOf(ps[x], steps[x], c));
    forall x, y | 0 <= x < y < |values| && y == x + 1 ensures Follows(values[y], values[x], grants[x]) {
      NextDue(ps, steps, x, c);
    }
    k := Granted(values, grants, i);
  }
}
