/** Pruning of the dedup registry: when it is safe, and exactly which rows make it unsafe. */
module UsagePruning {
  import opened Types
  import opened Usage
  import opened UsageSafety
  import opened UsageRuns

  // ------------------------------------------------------------------ spent rows

  /** The stored cursor has passed the row's batch. */
  predicate Below(c: Cursor, k: Key) {
    k.spool < c.spool || (k.spool == c.spool && k.sequence <= c.sequence)
  }

  predicate IsOf(b: Batch, k: Key) { b.spool == k.spool && b.sequence == k.sequence }

  predicate Pends(q: Puller, k: Key) {
    q.pending.Some? ==> exists c | 0 <= c < |q.pending.value| :: k.account in Accounts(q.pending.value[c])
  }

  /** The puller is still going to charge the row's item. */
  predicate Holds(q: Puller, k: Key) {
    exists j | 0 <= j < |q.batches| :: IsOf(q.batches[j], k) && (j == 0 ==> Pends(q, k))
  }

  /** Nothing can bring the item again: its batch is below the stored cursor, or its spool has
      been replaced and no puller still holds it. */
  predicate Spent(s: State, k: Key) {
    Below(s.stored, k) || (k.spool < s.agent.spool && forall n | n in s.pullers :: !Holds(s.pullers[n], k))
  }

  /** One puller at a time, and only spent rows are pruned. */
  predicate Careful(s: State, x: Step) {
    && (x.Claim? ==> s.pullers == map[])
    && (x.Prune? ==> forall k | k in x.picked :: Spent(s, k))
  }

  /** One puller at a time, and no pruned row belongs to a newer spool than the stored cursor. */
  predicate Disciplined(s: State, x: Step) {
    && (x.Claim? ==> s.pullers == map[])
    && (x.Prune? ==> forall k | k in x.picked :: k.spool <= s.stored.spool)
  }

  /** What the query then prunes is spent. */
  lemma DisciplinedIsCareful(s: State, x: Step)
    requires Enabled(s, x) && Disciplined(s, x)
    ensures Careful(s, x)
  {
    if x.Prune? {
      forall k | k in x.picked ensures Spent(s, k) {
        assert Prunable(s, k);
      }
    }
  }

  // ------------------------------------------------------------------- invariant

  /** Whatever was pruned is spent. */
  ghost predicate Orderly(s: State) {
    OnePuller(s) && forall k | k in s.seen && k !in s.registry :: Spent(s, k)
  }

  /** One puller works at a time, from the stored cursor on; the agent has acknowledged no
      more than is stored. */
  ghost predicate OnePuller(s: State) {
    && Behind(s.agent.acked, s.stored)
    && (forall n, m | n in s.pullers && m in s.pullers :: n == m)
    && (forall n | n in s.pullers :: s.pullers[n].local == s.stored
          && forall b | b in s.pullers[n].batches :: b.spool >= s.stored.spool)
  }

  predicate Behind(c: Cursor, d: Cursor) {
    c.spool < d.spool || (c.spool == d.spool && c.sequence <= d.sequence)
  }

  /** A puller lets go of rows only. */
  lemma LetsGo(q: Puller, q': Puller, k: Key)
    requires Holds(q', k)
    requires (q'.batches == q.batches && (Pends(q', k) ==> Pends(q, k)))
          || (|q.batches| > 0 && q'.batches == q.batches[1..])
    ensures Holds(q, k)
  {
    var j :| 0 <= j < |q'.batches| && IsOf(q'.batches[j], k) && (j == 0 ==> Pends(q', k));
    if q'.batches == q.batches {
      assert IsOf(q.batches[j], k);
    } else {
      assert q.batches[j + 1] == q'.batches[j] && IsOf(q.batches[j + 1], k);
    }
  }

  /** Spent rows stay spent while the stored cursor and the spool only move on and pullers only
      let go of batches. */
  lemma StaysSpent(s: State, s': State, k: Key)
    requires Spent(s, k) && Behind(s.stored, s'.stored) && s.agent.spool <= s'.agent.spool
    requires forall n | n in s'.pullers && Holds(s'.pullers[n], k) :: k.spool >= s.agent.spool || (n in s.pullers && Holds(s.pullers[n], k))
    ensures Spent(s', k)
  {
  }

  lemma OrderlyAgain(s: State, s': State)
    requires Orderly(s) && OnePuller(s')
    requires Behind(s.stored, s'.stored) && s.agent.spool <= s'.agent.spool
    requires forall n, k | n in s'.pullers && Holds(s'.pullers[n], k) :: k.spool >= s.agent.spool || (n in s.pullers && Holds(s.pullers[n], k))
    requires forall k | k in s'.seen && k !in s'.registry :: (k in s.seen && k !in s.registry) || Spent(s, k)
    ensures Orderly(s')
  {
    forall k | k in s'.seen && k !in s'.registry ensures Spent(s', k) {
      StaysSpent(s, s', k);
    }
  }

  lemma RespondOrderly(s: State, n: nat, batches: seq<Batch>)
    requires Inv(s) && Orderly(s) && Enabled(s, Respond(n, batches))
    ensures Orderly(After(s, Respond(n, batches)))
  {
    var s' := After(s, Respond(n, batches));
    forall m, k | m in s'.pullers && Holds(s'.pullers[m], k) ensures k.spool >= s.agent.spool || (m in s.pullers && Holds(s.pullers[m], k)) {
      if m == n {
        var j :| 0 <= j < |batches| && IsOf(batches[j], k);
        assert batches[j] in batches;
      }
    }
    OrderlyAgain(s, s');
  }

  /** A step of a puller through its queue. */
  lemma WorkOrderly(s: State, s': State, n: nat)
    requires Orderly(s) && OnePuller(s') && n in s.pullers && s'.agent == s.agent && Behind(s.stored, s'.stored)
    requires s'.pullers.Keys == s.pullers.Keys && forall m | m in s.pullers && m != n :: s'.pullers[m] == s.pullers[m]
    requires forall k | Holds(s'.pullers[n], k) :: Holds(s.pullers[n], k)
    requires forall k | k in s'.seen && k !in s'.registry :: k in s.seen && k !in s.registry
    ensures Orderly(s')
  {
    OrderlyAgain(s, s');
  }

  lemma BeginOrderly(s: State, n: nat, chunks: seq<seq<Item>>)
    requires Orderly(s) && Enabled(s, Begin(n, chunks))
    ensures Orderly(After(s, Begin(n, chunks)))
  {
    var s' := After(s, Begin(n, chunks));
    forall k | Holds(s'.pullers[n], k) ensures Holds(s.pullers[n], k) { LetsGo(s.pullers[n], s'.pullers[n], k); }
    WorkOrderly(s, s', n);
  }

  lemma SkipOrderly(s: State, n: nat)
    requires Orderly(s) && Enabled(s, Skip(n))
    ensures Orderly(After(s, Skip(n)))
  {
    var s' := After(s, Skip(n));
    forall k | Holds(s'.pullers[n], k) ensures Holds(s.pullers[n], k) { LetsGo(s.pullers[n], s'.pullers[n], k); }
    assert forall b | b in s.pullers[n].batches[1..] :: b in s.pullers[n].batches;
    WorkOrderly(s, s', n);
  }

  /** What a chunk adds to the history it also adds to the registry. */
  lemma NewAreRows(seen: map<Key, Mark>, registry: set<Key>, b: Batch, items: seq<Item>, r: Result, p: PeriodId)
    ensures forall k | k in Marks(seen, registry, b, items, r, p) && k !in registry + Rows(b, items) :: k in seen && k !in registry
  {
    MarksKeys(seen, registry, b, items, r, p);
  }

  lemma PendsLess(q: Puller, q': Puller, k: Key)
    requires q.pending.Some? && |q.pending.value| > 0 && q'.pending == Some(q.pending.value[1..]) && Pends(q', k)
    ensures Pends(q, k)
  {
    var c :| 0 <= c < |q'.pending.value| && k.account in Accounts(q'.pending.value[c]);
    assert q.pending.value[c + 1] == q'.pending.value[c];
  }

  lemma ChargeOrderly(s: State, n: nat, r: Result, p: PeriodId)
    requires Orderly(s) && Enabled(s, Charge(n, r, p))
    ensures Orderly(After(s, Charge(n, r, p)))
  {
    hide Marks, Registered, Sum, Plus, Spent;
    var s', q := After(s, Charge(n, r, p)), s.pullers[n];
    NewAreRows(s.seen, s.registry, q.batches[0], q.pending.value[0], r, p);
    forall k | Holds(s'.pullers[n], k) ensures Holds(q, k) {
      if Pends(s'.pullers[n], k) { PendsLess(q, s'.pullers[n], k); }
      LetsGo(q, s'.pullers[n], k);
    }
    WorkOrderly(s, s', n);
  }

  lemma AdvanceOrderly(s: State, n: nat)
    requires Inv(s) && Orderly(s) && Enabled(s, Advance(n))
    ensures Orderly(After(s, Advance(n)))
  {
    var s', q := After(s, Advance(n)), s.pullers[n];
    assert PullerOk(s, q) && q.batches[0] in q.batches;
    forall k | Holds(s'.pullers[n], k) ensures Holds(q, k) { LetsGo(q, s'.pullers[n], k); }
    forall b | b in q.batches[1..] ensures b.spool == q.batches[0].spool {
      var k :| 0 <= k < |q.batches[1..]| && q.batches[1..][k] == b;
      assert q.batches[k + 1] == b;
    }
    WorkOrderly(s, s', n);
  }

  lemma StepOrderly(s: State, x: Step)
    requires Inv(s) && Orderly(s) && Enabled(s, x) && Careful(s, x)
    ensures Orderly(After(s, x))
  {
    match x
    case Respond(n, batches) => RespondOrderly(s, n, batches);
    case Skip(n) => SkipOrderly(s, n);
    case Begin(n, chunks) => BeginOrderly(s, n, chunks);
    case Charge(n, r, p) => ChargeOrderly(s, n, r, p);
    case Advance(n) => AdvanceOrderly(s, n);
    case _ => OrderlyAgain(s, After(s, x));
  }

  // ------------------------------------------------------------------ safe pruning

  /** No item of the chunk about to be charged was pruned. */
  lemma ChargeIsKnown(s: State, n: nat)
    requires Inv(s) && Orderly(s) && Working(s, n) && s.pullers[n].pending.Some? && |s.pullers[n].pending.value| > 0
    ensures AllKnown(s.seen, s.registry, s.pullers[n].batches[0], s.pullers[n].pending.value[0])
  {
    var q := s.pullers[n];
    var b, items := q.batches[0], q.pending.value[0];
    assert PullerOk(s, q) && b in q.batches;
    forall i | i in items && KeyOf(b, i) in s.seen ensures KeyOf(b, i) in s.registry {
      AccountOf(items, i);
      assert IsOf(q.batches[0], KeyOf(b, i)) && Holds(q, KeyOf(b, i));
    }
  }

  lemma AccountOf(items: seq<Item>, i: Item)
    requires i in items
    ensures i.account in Accounts(items)
  {
    var j :| 0 <= j < |items| && items[j] == i;
    assert items[j].account == i.account;
  }

  lemma CarefulBooks(s: State, x: Step)
    requires Inv(s) && Books(s) && Orderly(s) && Enabled(s, x) && Careful(s, x)
    ensures Inv(After(s, x)) && Books(After(s, x)) && Orderly(After(s, x))
  {
    if x.Charge? { ChargeIsKnown(s, x.puller); }
    StepBooks(s, x);
    StepKeeps(s, x);
    StepOrderly(s, x);
  }

  /** A careful continuation of a state. */
  ghost predicate Continues(s: State, ss: seq<State>, steps: seq<Step>) {
    Path(ss, steps) && ss[0] == s && forall k | 0 <= k < |steps| :: Careful(ss[k], steps[k])
  }

  lemma {:induction false} StaysBalanced(s: State, ss: seq<State>, steps: seq<Step>, i: nat)
    requires Inv(s) && Books(s) && Orderly(s) && Continues(s, ss, steps) && i < |ss|
    ensures Inv(ss[i]) && Books(ss[i]) && Orderly(ss[i])
  {
    if i > 0 {
      StaysBalanced(s, ss, steps, i - 1);
      CarefulBooks(ss[i - 1], steps[i - 1]);
    }
  }

  lemma StartsOrderly(s: State)
    requires Initial(s)
    ensures Inv(s) && Books(s) && Orderly(s)
  {
    InitialBooks(s);
  }

  /** With one puller per node, and no pruned row of a newer spool than the stored cursor,
      pruning never allows a second accrual: every counter stays the sum of the items ever
      marked APPLIED for its period, each counted once. */
  lemma PruningIsSafe(ss: seq<State>, steps: seq<Step>, i: nat, p: PeriodId)
    requires Run(ss, steps) && i < |ss|
    requires forall k | 0 <= k < |steps| :: Disciplined(ss[k], steps[k])
    ensures Books(ss[i])
    ensures CounterAt(ss[i].counters, p) == Total(ss[i].seen, p)
  {
    StartsOrderly(ss[0]);
    forall k | 0 <= k < |steps| ensures Careful(ss[k], steps[k]) {
      DisciplinedIsCareful(ss[k], steps[k]);
    }
    StaysBalanced(ss[0], ss, steps, i);
    assert Balanced(ss[i], p);
  }

  // ----------------------------------------------------------------- harmful pruning

  /** No careful continuation ever unbalances a counter. */
  ghost predicate Harmless(s: State) {
    forall ss, steps | Continues(s, ss, steps) :: Books(ss[|ss| - 1])
  }

  lemma HarmsNow(s: State)
    requires !Books(s)
    ensures !Harmless(s)
  {
    assert Continues(s, [s], []);
  }

  lemma HarmsBefore(s: State, x: Step)
    requires Enabled(s, x) && Careful(s, x) && !Harmless(After(s, x))
    ensures !Harmless(s)
  {
    var ss, steps :| Continues(After(s, x), ss, steps) && !Books(ss[|ss| - 1]);
    Prepended(s, x, ss, steps);
    assert ([s] + ss)[|[s] + ss| - 1] == ss[|ss| - 1];
  }

  lemma Prepended(s: State, x: Step, ss: seq<State>, steps: seq<Step>)
    requires Enabled(s, x) && Careful(s, x) && Continues(After(s, x), ss, steps)
    ensures Continues(s, [s] + ss, [x] + steps)
  {
    var ss', steps' := [s] + ss, [x] + steps;
    forall i | 0 <= i < |steps'|
      ensures Enabled(ss'[i], steps'[i]) && ss'[i + 1] == After(ss'[i], steps'[i]) && Careful(ss'[i], steps'[i])
    {
      if i > 0 { assert ss'[i] == ss[i - 1] && steps'[i] == steps[i - 1] && ss'[i + 1] == ss[i]; }
    }
  }

  /** The row was pruned after its item had added to a period. */
  ghost predicate Forgotten(s: State, k: Key) {
    k in s.seen && k !in s.registry && Share(s.seen[k], s.seen[k].period) != Counter(0, 0)
  }

  /** The first chunk of the head batch holds the item: charging it counts it again. */
  lemma ChargeHarms(s: State, n: nat, k: Key)
    requires Inv(s) && Forgotten(s, k) && Working(s, n) && s.pullers[n].pending.Some? && |s.pullers[n].pending.value| > 0
    requires IsOf(s.pullers[n].batches[0], k) && k.account in Accounts(s.pullers[n].pending.value[0])
    ensures !Harmless(s)
  {
    var p := s.seen[k].period;
    var b, items := s.pullers[n].batches[0], s.pullers[n].pending.value[0];
    assert PullerOk(s, s.pullers[n]);
    if Balanced(s, p) {
      SecondAccrualIsExact(s, b, items, Result.Applied, p, p);
      var j :| 0 <= j < |items| && items[j].account == k.account;
      assert items[j] in items && KeyOf(b, items[j]) == k;
      assert !Balanced(After(s, Charge(n, Result.Applied, p)), p);
      HarmsNow(After(s, Charge(n, Result.Applied, p)));
      HarmsBefore(s, Charge(n, Result.Applied, p));
    } else {
      HarmsNow(s);
    }
  }

  lemma StillForgotten(s: State, b: Batch, items: seq<Item>, r: Result, p: PeriodId, k: Key)
    requires Forgotten(s, k) && !(IsOf(b, k) && k.account in Accounts(items))
    ensures Forgotten(Charged(s, b, items, r, p), k)
  {
    forall i | i in items ensures KeyOf(b, i) != k { AccountOf(items, i); }
    MarksElsewhere(s.seen, s.registry, b, items, r, p, k);
  }

  lemma {:induction false} MarksElsewhere(seen: map<Key, Mark>, registry: set<Key>, b: Batch, items: seq<Item>, r: Result, p: PeriodId, k: Key)
    requires k in seen && forall i | i in items :: KeyOf(b, i) != k
    ensures k in Marks(seen, registry, b, items, r, p) && Marks(seen, registry, b, items, r, p)[k] == seen[k]
    decreases |items|
  {
    if |items| > 0 {
      assert items[0] in items && forall i | i in items[1..] :: i in items;
      MarksElsewhere(First(seen, registry, b, items[0], r, p), registry, b, items[1..], r, p, k);
    }
  }

  /** Batch j of the puller's queue is going to bring the item. */
  predicate Brings(s: State, n: nat, j: nat, k: Key) {
    && n in s.pullers && j < |s.pullers[n].batches| && IsOf(s.pullers[n].batches[j], k)
    && !Covers(s.pullers[n].local, s.pullers[n].batches[j]) && k.account in Accounts(s.pullers[n].batches[j].items)
    && (j == 0 ==> Pends(s.pullers[n], k))
  }

  lemma BeginBrings(s: State, n: nat, j: nat, k: Key)
    requires Inv(s) && Brings(s, n, j, k) && s.pullers[n].pending.None? && !Covers(s.pullers[n].local, s.pullers[n].batches[0])
    ensures Enabled(s, Begin(n, [s.pullers[n].batches[0].items]))
    ensures Brings(After(s, Begin(n, [s.pullers[n].batches[0].items])), n, j, k)
  {
    var b := s.pullers[n].batches[0];
    assert PullerOk(s, s.pullers[n]) && b in s.pullers[n].batches;
    assert [b.items][0] == b.items;
  }

  lemma ChargeBrings(s: State, n: nat, j: nat, k: Key, r: Result, p: PeriodId)
    requires Inv(s) && Brings(s, n, j, k) && s.pullers[n].pending.Some? && |s.pullers[n].pending.value| > 0
    requires j == 0 ==> k.account !in Accounts(s.pullers[n].pending.value[0])
    ensures Brings(After(s, Charge(n, r, p)), n, j, k)
  {
    var q := s.pullers[n];
    if j == 0 {
      var c :| 0 <= c < |q.pending.value| && k.account in Accounts(q.pending.value[c]);
      assert q.pending.value[1..][c - 1] == q.pending.value[c];
    }
  }

  /** The next batch of a queue is above the head. */
  lemma TailBrings(s: State, n: nat, j: nat, k: Key)
    requires Inv(s) && Brings(s, n, j, k) && j > 0
    ensures var rest := s.pullers[n].batches[1..];
            && rest[j - 1] == s.pullers[n].batches[j] && !Covers(CursorOf(s.pullers[n].batches[0]), rest[j - 1])
  {
    assert PullerOk(s, s.pullers[n]);
  }

  /** Charging another chunk. */
  lemma OtherChunk(s: State, n: nat, j: nat, k: Key, x: Step)
    requires Inv(s) && Forgotten(s, k) && Brings(s, n, j, k) && x == Charge(n, Quarantined, PeriodId(0, 0))
    requires s.pullers[n].pending.Some? && |s.pullers[n].pending.value| > 0
    requires j == 0 ==> k.account !in Accounts(s.pullers[n].pending.value[0])
    ensures Forgotten(After(s, x), k) && Brings(After(s, x), n, j, k)
  {
    var q := s.pullers[n];
    assert PullerOk(s, q);
    ChargeBrings(s, n, j, k, Quarantined, PeriodId(0, 0));
    if j > 0 { assert q.batches[0].sequence < q.batches[j].sequence; }
    StillForgotten(s, q.batches[0], q.pending.value[0], Quarantined, PeriodId(0, 0), k);
  }

  /** The head batch is opened as one chunk. */
  lemma OpenHead(s: State, n: nat, j: nat, k: Key) returns (x: Step)
    requires Inv(s) && Forgotten(s, k) && Brings(s, n, j, k)
    requires s.pullers[n].pending.None? && !Covers(s.pullers[n].local, s.pullers[n].batches[0])
    ensures Enabled(s, x) && Careful(s, x) && Forgotten(After(s, x), k) && Brings(After(s, x), n, j, k)
    ensures Left(After(s, x).pullers[n]) < Left(s.pullers[n])
  {
    hide Inv;
    x := Begin(n, [s.pullers[n].batches[0].items]);
    BeginBrings(s, n, j, k);
  }

  /** A chunk without the item is charged. */
  lemma ChargeOther(s: State, n: nat, j: nat, k: Key) returns (x: Step)
    requires Inv(s) && Forgotten(s, k) && Brings(s, n, j, k) && s.pullers[n].pending.Some? && |s.pullers[n].pending.value| > 0
    requires j > 0 || k.account !in Accounts(s.pullers[n].pending.value[0])
    ensures Enabled(s, x) && Careful(s, x) && Forgotten(After(s, x), k) && Brings(After(s, x), n, j, k)
    ensures Left(After(s, x).pullers[n]) < Left(s.pullers[n])
  {
    hide Inv, Marks, Registered, Sum, Plus, Forgotten;
    x := Charge(n, Quarantined, PeriodId(0, 0));
    OtherChunk(s, n, j, k, x);
  }

  /** The next step of a puller that is going to bring the item, and where in its queue the
      item's batch then is. */
  lemma NextWork(s: State, n: nat, j: nat, k: Key) returns (x: Step, j': nat)
    requires Inv(s) && Forgotten(s, k) && Brings(s, n, j, k)
    requires s.pullers[n].pending.Some? && |s.pullers[n].pending.value| > 0 ==> j > 0 || k.account !in Accounts(s.pullers[n].pending.value[0])
    ensures Enabled(s, x) && Careful(s, x) && Forgotten(After(s, x), k) && Brings(After(s, x), n, j', k)
    ensures j' < j || (j' == j && Left(After(s, x).pullers[n]) < Left(s.pullers[n]))
  {
    hide Inv, Forgotten, Enabled, After, Careful, Left;
    var q := s.pullers[n];
    if q.pending.None? && !Covers(q.local, q.batches[0]) {
      x := OpenHead(s, n, j, k);
      j' := j;
    } else if q.pending.None? || |q.pending.value| == 0 {
      x := NextBatch(s, n, j, k);
      j' := j - 1;
    } else {
      x := ChargeOther(s, n, j, k);
      j' := j;
    }
  }

  /** The head batch is done with. */
  lemma NextBatch(s: State, n: nat, j: nat, k: Key) returns (x: Step)
    requires Inv(s) && Forgotten(s, k) && Brings(s, n, j, k)
    requires var q := s.pullers[n]; if q.pending.None? then Covers(q.local, q.batches[0]) else |q.pending.value| == 0
    ensures Enabled(s, x) && Careful(s, x) && j > 0 && Forgotten(After(s, x), k) && Brings(After(s, x), n, j - 1, k)
  {
    hide Inv;
    TailBrings(s, n, j, k);
    x := if s.pullers[n].pending.None? then Skip(n) else Advance(n);
  }

  function Left(q: Puller): nat { if q.pending.None? then 2 else |q.pending.value| }

  /** A puller that is going to charge a forgotten item counts it again. */
  lemma {:induction false} HeldHarms(s: State, n: nat, j: nat, k: Key)
    requires Inv(s) && Forgotten(s, k) && Brings(s, n, j, k)
    ensures !Harmless(s)
    decreases j, Left(s.pullers[n])
  {
    var q := s.pullers[n];
    if q.pending.Some? && |q.pending.value| > 0 && j == 0 && k.account in Accounts(q.pending.value[0]) {
      ChargeHarms(s, n, k);
    } else {
      var x, j' := NextWork(s, n, j, k);
      StepKeeps(s, x);
      HeldHarms(After(s, x), n, j', k);
      HarmsBefore(s, x);
    }
  }

  // ----------------------------------------------------------- the agent sends it again

  /** The batches of a set in ascending order. */
  lemma {:induction false} Listed(bs: set<Batch>) returns (r: seq<Batch>)
    requires forall b, c | b in bs && c in bs && b.sequence == c.sequence :: b == c
    ensures forall b :: b in r <==> b in bs
    ensures forall i, j | 0 <= i < j < |r| :: r[i].sequence < r[j].sequence
    decreases |bs|
  {
    if bs == {} {
      r := [];
    } else {
      var last := Latest(bs);
      var rest := Listed(bs - {last});
      r := rest + [last];
      forall i | 0 <= i < |rest| ensures r[i].sequence < last.sequence { assert rest[i] in bs && rest[i] != last; }
    }
  }

  lemma {:induction false} Latest(bs: set<Batch>) returns (last: Batch)
    requires bs != {}
    ensures last in bs && forall b | b in bs :: b.sequence <= last.sequence
    decreases |bs|
  {
    last :| last in bs;
    if bs != {last} {
      var other := Latest(bs - {last});
      if last.sequence < other.sequence { last := other; }
    }
  }

  /** A response that ends with a given unacknowledged batch. */
  lemma UpTo(s: State, acked: Cursor, b: Batch) returns (batches: seq<Batch>)
    requires Inv(s) && b in s.agent.produced && b.spool == s.agent.spool && !Covers(acked, b)
    ensures Response(s.agent, acked, batches) && |batches| > 0 && batches[|batches| - 1] == b
  {
    var bs := set c | c in s.agent.produced && c.spool == s.agent.spool && !Covers(acked, c) && c.sequence <= b.sequence;
    forall c, d | c in bs && d in bs && c.sequence == d.sequence ensures c == d {
      assert CursorOf(c) == CursorOf(d);
    }
    batches := Listed(bs);
    assert b in batches;
    var j :| 0 <= j < |batches| && batches[j] == b;
    assert batches[|batches| - 1] in bs;
  }

  /** While the agent still keeps the batch, it sends it again. */
  lemma KeptHarms(s: State, b: Batch, i: Item)
    requires Inv(s) && OnePuller(s) && Forgotten(s, KeyOf(b, i)) && s.pullers == map[]
    requires b in s.agent.produced && i in b.items && b.spool == s.agent.spool && !Below(s.stored, KeyOf(b, i))
    ensures !Harmless(s)
  {
    hide Inv, Forgotten, Harmless, Brings, Response;
    var batches := SentAgain(s, b, i);
    var t := After(s, Claim(0));
    var u := After(t, Respond(0, batches));
    StepKeeps(s, Claim(0));
    StepKeeps(t, Respond(0, batches));
    HeldHarms(u, 0, |batches| - 1, KeyOf(b, i));
    HarmsBefore(t, Respond(0, batches));
    HarmsBefore(s, Claim(0));
  }

  /** A new puller gets a response that ends with the batch. */
  lemma SentAgain(s: State, b: Batch, i: Item) returns (batches: seq<Batch>)
    requires Inv(s) && OnePuller(s) && Forgotten(s, KeyOf(b, i)) && s.pullers == map[]
    requires b in s.agent.produced && i in b.items && b.spool == s.agent.spool && !Below(s.stored, KeyOf(b, i))
    ensures |batches| > 0 && Enabled(After(s, Claim(0)), Respond(0, batches))
    ensures var u := After(After(s, Claim(0)), Respond(0, batches));
            Forgotten(u, KeyOf(b, i)) && Brings(u, 0, |batches| - 1, KeyOf(b, i))
  {
    hide Inv, Response;
    StepKeeps(s, Claim(0));
    batches := UpTo(After(s, Claim(0)), Acknowledged(s.agent, s.stored), b);
    AccountOf(b.items, i);
  }

  /** The puller at work, if any, vanishes. */
  lemma AlsoKeptHarms(s: State, b: Batch, i: Item)
    requires Inv(s) && OnePuller(s) && Forgotten(s, KeyOf(b, i))
    requires b in s.agent.produced && i in b.items && b.spool == s.agent.spool && !Below(s.stored, KeyOf(b, i))
    ensures !Harmless(s)
  {
    if s.pullers == map[] {
      KeptHarms(s, b, i);
    } else {
      var n :| n in s.pullers;
      assert After(s, Stop(n)).pullers == map[];
      StepKeeps(s, Stop(n));
      KeptHarms(After(s, Stop(n)), b, i);
      HarmsBefore(s, Stop(n));
    }
  }

  lemma HoldingHarms(s: State, n: nat, b: Batch, i: Item)
    requires Inv(s) && OnePuller(s) && Forgotten(s, KeyOf(b, i))
    requires b in s.agent.produced && i in b.items && !Below(s.stored, KeyOf(b, i))
    requires n in s.pullers && Holds(s.pullers[n], KeyOf(b, i))
    ensures !Harmless(s)
  {
    var q, k := s.pullers[n], KeyOf(b, i);
    assert PullerOk(s, q);
    var j :| 0 <= j < |q.batches| && IsOf(q.batches[j], k) && (j == 0 ==> Pends(q, k));
    assert q.batches[j] in q.batches && CursorOf(q.batches[j]) == CursorOf(b);
    AccountOf(b.items, i);
    HeldHarms(s, n, j, k);
  }

  lemma UnspentHarms(s: State, t: State, b: Batch, i: Item)
    requires Inv(s) && OnePuller(s) && Enabled(s, Prune({KeyOf(b, i)})) && t == After(s, Prune({KeyOf(b, i)}))
    requires Forgotten(t, KeyOf(b, i)) && b in s.agent.produced && i in b.items && !Spent(s, KeyOf(b, i))
    ensures !Harmless(t)
  {
    var k := KeyOf(b, i);
    StepKeeps(s, Prune({k}));
    if n :| n in t.pullers && Holds(t.pullers[n], k) {
      HoldingHarms(t, n, b, i);
    } else {
      assert CursorOf(b).spool <= s.agent.spool;
      AlsoKeptHarms(t, b, i);
    }
  }

  /** Exactly which rows may be pruned.  Take any state reached with one puller and spent rows
      pruned, and any prunable row whose item has added to a period: pruning it is harmless
      under every continuation if and only if the row is spent. */
  lemma PruningIsExact(ss: seq<State>, steps: seq<Step>, b: Batch, i: Item)
    requires Run(ss, steps) && forall k | 0 <= k < |steps| :: Careful(ss[k], steps[k])
    requires var s, k := ss[|ss| - 1], KeyOf(b, i);
             b in s.agent.produced && i in b.items && k in s.registry && k in s.seen && Prunable(s, k)
             && Share(s.seen[k], s.seen[k].period) != Counter(0, 0)
    ensures var s, k := ss[|ss| - 1], KeyOf(b, i);
            Harmless(After(s, Prune({k}))) <==> Spent(s, k)
  {
    var s, k := ss[|ss| - 1], KeyOf(b, i);
    StartsOrderly(ss[0]);
    StaysBalanced(ss[0], ss, steps, |ss| - 1);
    var t := After(s, Prune({k}));
    if Spent(s, k) {
      CarefulBooks(s, Prune({k}));
      forall ts, xs | Continues(t, ts, xs) ensures Books(ts[|ts| - 1]) {
        StaysBalanced(t, ts, xs, |ts| - 1);
      }
    } else {
      UnspentHarms(s, t, b, i);
    }
  }

  /** While the agent has not replaced its spool again, the pruner can tell from the stored
      cursor: exactly the rows of a newer spool are dangerous. */
  lemma NewerSpoolIsDangerous(ss: seq<State>, steps: seq<Step>, b: Batch, i: Item)
    requires Run(ss, steps) && forall k | 0 <= k < |steps| :: Careful(ss[k], steps[k])
    requires var s, k := ss[|ss| - 1], KeyOf(b, i);
             b in s.agent.produced && i in b.items && k in s.registry && k in s.seen && Prunable(s, k)
             && Share(s.seen[k], s.seen[k].period) != Counter(0, 0) && (k.spool == s.agent.spool || k.spool <= s.stored.spool)
    ensures var s, k := ss[|ss| - 1], KeyOf(b, i);
            Harmless(After(s, Prune({k}))) <==> k.spool <= s.stored.spool
  {
    PruningIsExact(ss, steps, b, i);
  }
}
