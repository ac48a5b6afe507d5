/** Usage accounting over whole runs: any number of pullers, crashes between transactions,
    repeated and cut-off responses, and new spools. */
module UsageRuns {
  import opened Types
  import opened Usage
  import opened UsageSafety

  // ------------------------------------------------------------------------ invariant

  /** Every item of the batch has been registered. */
  ghost predicate Done(s: State, b: Batch) {
    forall i | i in b.items :: KeyOf(b, i) in s.seen
  }

  /** Nothing at or below the cursor is unregistered. */
  ghost predicate Safe(s: State, c: Cursor) {
    forall b | b in s.agent.produced && Covers(c, b) :: Done(s, b)
  }

  predicate Reached(a: Agent, c: Cursor) {
    c.spool < a.spool || (c.spool == a.spool && c.sequence <= a.last)
  }

  ghost predicate Spool(a: Agent) {
    && a.spool > 0
    && (forall b | b in a.produced :: b.sequence > 0 && Distinct(b.items) && Reached(a, CursorOf(b)))
    && (forall b, c | b in a.produced && c in a.produced && CursorOf(b) == CursorOf(c) :: b == c)
  }

  /** The batches a puller still holds: ascending, of one spool, and with every batch below
      its last one either registered or still held. */
  ghost predicate Queue(s: State, batches: seq<Batch>) {
    && (forall i, j | 0 <= i < j < |batches| :: batches[i].sequence < batches[j].sequence && batches[i].spool == batches[j].spool)
    && (forall b | b in batches :: b in s.agent.produced)
    && (|batches| > 0 ==>
          forall b | b in s.agent.produced && Covers(CursorOf(batches[|batches| - 1]), b) :: Done(s, b) || b in batches)
  }

  /** Every item of the head batch is registered or in a chunk still to come. */
  ghost predicate Pending(s: State, b: Batch, chunks: seq<seq<Item>>) {
    && (forall i | i in b.items :: KeyOf(b, i) in s.seen || exists c | 0 <= c < |chunks| :: i in chunks[c])
    && (forall c | 0 <= c < |chunks| :: Distinct(chunks[c]))
  }

  ghost predicate PullerOk(s: State, q: Puller) {
    && Reached(s.agent, q.local) && Safe(s, q.local) && Queue(s, q.batches)
    && (!q.answered ==> q.batches == [])
    && (q.pending.Some? ==> |q.batches| > 0 && !Covers(q.local, q.batches[0]) && Pending(s, q.batches[0], q.pending.value))
  }

  ghost predicate Inv(s: State) {
    && Spool(s.agent) && s.registry <= s.seen.Keys
    && Reached(s.agent, s.stored) && Safe(s, s.stored)
    && Reached(s.agent, s.agent.acked) && Safe(s, s.agent.acked)
    && forall n | n in s.pullers :: PullerOk(s, s.pullers[n])
  }

  // ------------------------------------------------------------------------ the agent

  lemma ProduceKeeps(s: State, at: int, items: seq<Item>)
    requires Inv(s) && Distinct(items)
    ensures Inv(After(s, Produce(at, items)))
  {
    var s' := After(s, Produce(at, items));
    var added := Batch(s.agent.spool, s.agent.last + 1, at, items);
    forall n | n in s.pullers ensures PullerOk(s', s.pullers[n]) {
      var q := s.pullers[n];
      assert PullerOk(s, q);
      if |q.batches| > 0 {
        assert q.batches[|q.batches| - 1] in q.batches;
        assert !Covers(CursorOf(q.batches[|q.batches| - 1]), added);
      }
      forall b | b in s.agent.produced ensures Done(s, b) ==> Done(s', b) {
      }
    }
  }

  lemma SpoolKeeps(s: State, spool: nat)
    requires Inv(s) && spool > s.agent.spool
    ensures Inv(After(s, NewSpool(spool)))
  {
    var s' := After(s, NewSpool(spool));
    forall n | n in s.pullers ensures PullerOk(s', s.pullers[n]) {
      assert PullerOk(s, s.pullers[n]);
    }
  }

  // ---------------------------------------------------------------------- the pullers

  /** A response is a complete queue above what the agent has acknowledged. */
  lemma ResponseQueue(s: State, acked: Cursor, batches: seq<Batch>)
    requires Response(s.agent, acked, batches) && Safe(s, acked)
    ensures Queue(s, batches)
  {
    forall i, j | 0 <= i < j < |batches|
      ensures batches[i].sequence < batches[j].sequence && batches[i].spool == batches[j].spool
    {
      assert batches[i] in batches && batches[j] in batches;
    }
    if |batches| > 0 {
      assert batches[|batches| - 1] in batches;
      forall b | b in s.agent.produced && Covers(CursorOf(batches[|batches| - 1]), b) ensures Done(s, b) || b in batches {
        if Covers(acked, b) { assert Done(s, b); }
      }
    }
  }

  lemma ClaimKeeps(s: State, n: nat)
    requires Inv(s) && Enabled(s, Claim(n))
    ensures Inv(After(s, Claim(n)))
  {
    PullerKeeps(s, n, Puller(s.stored, false, [], None));
  }

  lemma RespondKeeps(s: State, n: nat, batches: seq<Batch>)
    requires Inv(s) && Enabled(s, Respond(n, batches))
    ensures Inv(After(s, Respond(n, batches)))
  {
    var s' := After(s, Respond(n, batches));
    var q := s.pullers[n];
    var acked := Acknowledged(s.agent, q.local);
    assert PullerOk(s, q);
    ResponseQueue(s, acked, batches);
    SameBooks(s, s', batches, q.local);
    SameBooks(s, s', [], acked);
    SameBooks(s, s', [], s.stored);
    forall m | m in s'.pullers ensures PullerOk(s', s'.pullers[m]) {
      if m != n { PulledOther(s, s', s.pullers[m]); }
    }
  }

  lemma PulledOther(s: State, s': State, q: Puller)
    requires PullerOk(s, q) && s'.seen == s.seen
    requires s'.agent.produced == s.agent.produced && s'.agent.spool == s.agent.spool && s'.agent.last == s.agent.last
    ensures PullerOk(s', q)
  {
    SameBooks(s, s', q.batches, q.local);
    if q.pending.Some? { SamePending(s, s', q.batches[0], q.pending.value); }
  }

  /** Without its head, a queue stays complete once the head is registered. */
  lemma QueueTail(s: State, batches: seq<Batch>)
    requires Queue(s, batches) && |batches| > 0 && Done(s, batches[0])
    ensures Queue(s, batches[1..])
    ensures Safe(s, CursorOf(batches[0]))
  {
    hide Distinct;
    var rest := batches[1..];
    assert forall b | b in batches :: b == batches[0] || b in rest;
    assert forall b | b in rest :: b in batches;
    if |rest| > 0 { assert rest[|rest| - 1] == batches[|batches| - 1]; }
    forall b | b in batches ensures b == batches[0] || batches[0].sequence < b.sequence {
      var k :| 0 <= k < |batches| && batches[k] == b;
    }
    forall b | b in s.agent.produced && Covers(CursorOf(batches[0]), b) ensures Done(s, b) {
      if |batches| > 1 { assert batches[0].sequence < batches[|batches| - 1].sequence; }
    }
  }

  lemma SkipKeeps(s: State, n: nat)
    requires Inv(s) && Enabled(s, Skip(n))
    ensures Inv(After(s, Skip(n)))
  {
    var s' := After(s, Skip(n));
    var q := s.pullers[n];
    assert PullerOk(s, q);
    assert q.batches[0] in q.batches && Done(s, q.batches[0]);
    QueueTail(s, q.batches);
    forall m | m in s'.pullers ensures PullerOk(s', s'.pullers[m]) {
      assert PullerOk(s, s.pullers[m]);
      SameBooks(s, s', s'.pullers[m].batches, s'.pullers[m].local);
    }
  }

  /** Only `seen` and the produced batches matter to a queue and a cursor. */
  lemma SameBooks(s: State, s': State, batches: seq<Batch>, c: Cursor)
    requires s'.agent.produced == s.agent.produced && s.seen.Keys <= s'.seen.Keys
    ensures Queue(s, batches) ==> Queue(s', batches)
    ensures Safe(s, c) ==> Safe(s', c)
  {
    forall b | Done(s, b) ensures Done(s', b) {
    }
  }

  lemma BeginKeeps(s: State, n: nat, chunks: seq<seq<Item>>)
    requires Inv(s) && Enabled(s, Begin(n, chunks))
    ensures Inv(After(s, Begin(n, chunks)))
  {
    var s' := After(s, Begin(n, chunks));
    forall m | m in s'.pullers ensures PullerOk(s', s'.pullers[m]) {
      assert PullerOk(s, s.pullers[m]);
      SameBooks(s, s', s.pullers[m].batches, s.pullers[m].local);
    }
  }

  lemma ChargeSeen(s: State, b: Batch, items: seq<Item>, r: Result, p: PeriodId)
    requires s.registry <= s.seen.Keys
    ensures var s' := Charged(s, b, items, r, p);
            && s.seen.Keys <= s'.seen.Keys && s'.registry <= s'.seen.Keys
            && forall i | i in items :: KeyOf(b, i) in s'.seen
  {
    MarksKeys(s.seen, s.registry, b, items, r, p);
  }

  lemma PendingTail(s: State, s': State, b: Batch, chunks: seq<seq<Item>>)
    requires Pending(s, b, chunks) && |chunks| > 0 && s.seen.Keys <= s'.seen.Keys
    requires forall i | i in chunks[0] :: KeyOf(b, i) in s'.seen
    ensures Pending(s', b, chunks[1..])
  {
    forall i | i in b.items && KeyOf(b, i) !in s'.seen ensures exists c :: 0 <= c < |chunks[1..]| && i in chunks[1..][c] {
      var c :| 0 <= c < |chunks| && i in chunks[c];
      assert c > 0 && i in chunks[1..][c - 1];
    }
  }

  lemma SamePending(s: State, s': State, b: Batch, chunks: seq<seq<Item>>)
    requires Pending(s, b, chunks) && s.seen.Keys <= s'.seen.Keys
    ensures Pending(s', b, chunks)
  {
  }

  lemma StillOk(s: State, s': State, q: Puller)
    requires PullerOk(s, q) && s'.agent == s.agent && s.seen.Keys <= s'.seen.Keys
    ensures PullerOk(s', q)
  {
    SameBooks(s, s', q.batches, q.local);
    if q.pending.Some? { SamePending(s, s', q.batches[0], q.pending.value); }
  }

  /** More registered items break nothing. */
  lemma GrownKeeps(s: State, s': State)
    requires Inv(s) && s'.agent == s.agent && s'.stored == s.stored && s'.pullers == s.pullers
    requires s.seen.Keys <= s'.seen.Keys && s'.registry <= s'.seen.Keys
    ensures Inv(s')
  {
    SameBooks(s, s', [], s.stored);
    SameBooks(s, s', [], s.agent.acked);
    forall m | m in s'.pullers ensures PullerOk(s', s'.pullers[m]) {
      StillOk(s, s', s.pullers[m]);
    }
  }

  lemma PullerKeeps(s: State, n: nat, q: Puller)
    requires Inv(s) && PullerOk(s, q)
    ensures Inv(WithPuller(s, n, q))
  {
    var s' := WithPuller(s, n, q);
    SameBooks(s, s', [], s.stored);
    SameBooks(s, s', [], s.agent.acked);
    forall m | m in s'.pullers ensures PullerOk(s', s'.pullers[m]) {
      StillOk(s, s', s'.pullers[m]);
    }
  }

  lemma ChargedKeeps(s: State, b: Batch, items: seq<Item>, r: Result, p: PeriodId)
    requires Inv(s)
    ensures Inv(Charged(s, b, items, r, p))
  {
    ChargeSeen(s, b, items, r, p);
    GrownKeeps(s, Charged(s, b, items, r, p));
  }

  lemma PendingOk(s: State, s': State, q: Puller)
    requires PullerOk(s, q) && s'.agent == s.agent && s.seen.Keys <= s'.seen.Keys
    requires q.pending.Some? && |q.pending.value| > 0
    requires forall i | i in q.pending.value[0] :: KeyOf(q.batches[0], i) in s'.seen
    ensures PullerOk(s', q.(pending := Some(q.pending.value[1..])))
  {
    SameBooks(s, s', q.batches, q.local);
    PendingTail(s, s', q.batches[0], q.pending.value);
  }

  lemma ChargeKeeps(s: State, n: nat, r: Result, p: PeriodId)
    requires Inv(s) && Enabled(s, Charge(n, r, p))
    ensures Inv(After(s, Charge(n, r, p)))
  {
    var q := s.pullers[n];
    var b, items := q.batches[0], q.pending.value[0];
    ChargedKeeps(s, b, items, r, p);
    ChargeSeen(s, b, items, r, p);
    PendingOk(s, Charged(s, b, items, r, p), q);
    PullerKeeps(Charged(s, b, items, r, p), n, q.(pending := Some(q.pending.value[1..])));
  }

  lemma AdvanceKeeps(s: State, n: nat)
    requires Inv(s) && Enabled(s, Advance(n))
    ensures Inv(After(s, Advance(n)))
  {
    var s' := After(s, Advance(n));
    var q := s.pullers[n];
    assert PullerOk(s, q);
    assert Done(s, q.batches[0]) && q.batches[0] in q.batches;
    QueueTail(s, q.batches);
    SameBooks(s, s', q.batches[1..], CursorOf(q.batches[0]));
    SameBooks(s, s', [], s.agent.acked);
    forall m | m in s'.pullers ensures PullerOk(s', s'.pullers[m]) {
      assert PullerOk(s, s.pullers[m]);
      if m != n { SameBooks(s, s', s.pullers[m].batches, s.pullers[m].local); }
    }
  }

  lemma QuietKeeps(s: State, s': State)
    requires Inv(s) && s' == s.(pullers := s'.pullers, registry := s'.registry) && s'.registry <= s.registry
    requires s'.pullers.Keys <= s.pullers.Keys && forall n | n in s'.pullers :: s'.pullers[n] == s.pullers[n]
    ensures Inv(s')
  {
    SameBooks(s, s', [], s.stored);
    SameBooks(s, s', [], s.agent.acked);
    forall m | m in s'.pullers ensures PullerOk(s', s'.pullers[m]) {
      assert PullerOk(s, s.pullers[m]);
      SameBooks(s, s', s.pullers[m].batches, s.pullers[m].local);
    }
  }

  lemma StepKeeps(s: State, x: Step)
    requires Inv(s) && Enabled(s, x)
    ensures Inv(After(s, x))
  {
    match x
    case Produce(at, items) => ProduceKeeps(s, at, items);
    case NewSpool(spool) => SpoolKeeps(s, spool);
    case Claim(n) => ClaimKeeps(s, n);
    case Respond(n, batches) => RespondKeeps(s, n, batches);
    case Skip(n) => SkipKeeps(s, n);
    case Begin(n, chunks) => BeginKeeps(s, n, chunks);
    case Charge(n, r, p) => ChargeKeeps(s, n, r, p);
    case Advance(n) => AdvanceKeeps(s, n);
    case Stop(n) => QuietKeeps(s, After(s, Stop(n)));
    case Prune(picked) => QuietKeeps(s, After(s, Prune(picked)));
  }

  lemma {:induction false} RunKeeps(ss: seq<State>, steps: seq<Step>, i: nat)
    requires Run(ss, steps) && i < |ss|
    ensures Inv(ss[i])
  {
    if i > 0 {
      RunKeeps(ss, steps, i - 1);
      StepKeeps(ss[i - 1], steps[i - 1]);
    }
  }

  /** Neither the stored cursor nor the agent ever passes a batch with an unregistered item:
      the agent never deletes usage that was not accounted or quarantined.  This needs no
      assumption about pullers, crashes or pruning. */
  lemma NothingAcknowledgedEarly(ss: seq<State>, steps: seq<Step>, i: nat, b: Batch, item: Item)
    requires Run(ss, steps) && i < |ss| && b in ss[i].agent.produced && item in b.items
    requires Covers(ss[i].stored, b) || Covers(ss[i].agent.acked, b)
    ensures KeyOf(b, item) in ss[i].seen
  {
    RunKeeps(ss, steps, i);
    assert Done(ss[i], b);
  }

  // --------------------------------------------------------------- counted at most once

  lemma ChargeBooks(s: State, n: nat, r: Result, p: PeriodId)
    requires Inv(s) && Books(s) && Enabled(s, Charge(n, r, p))
    requires var q := s.pullers[n]; AllKnown(s.seen, s.registry, q.batches[0], q.pending.value[0])
    ensures Books(After(s, Charge(n, r, p)))
  {
    var q := s.pullers[n];
    assert PullerOk(s, q);
    ChargeKeepsBooks(s, q.batches[0], q.pending.value[0], r, p);
    SameLedger(Charged(s, q.batches[0], q.pending.value[0], r, p), After(s, Charge(n, r, p)));
  }

  lemma StepBooks(s: State, x: Step)
    requires Inv(s) && Books(s) && Enabled(s, x)
    requires x.Charge? ==> AllKnown(s.seen, s.registry, s.pullers[x.puller].batches[0], s.pullers[x.puller].pending.value[0])
    ensures Books(After(s, x))
  {
    if x.Charge? {
      ChargeBooks(s, x.puller, x.result, x.period);
    } else {
      SameLedger(s, After(s, x));
    }
  }

  /** Without pruning, for any pullers, crashes, repeated batches and new spools: every item
      is in the registry once, and every counter is the sum over the registered items
      marked APPLIED for its period. */
  lemma {:induction false} CountedAtMostOnce(ss: seq<State>, steps: seq<Step>, i: nat, p: PeriodId)
    requires Run(ss, steps) && i < |ss|
    requires forall k | 0 <= k < |steps| :: !steps[k].Prune?
    ensures ss[i].registry == ss[i].seen.Keys && Books(ss[i])
    ensures CounterAt(ss[i].counters, p) == Total(ss[i].seen, p)
  {
    if i > 0 {
      CountedAtMostOnce(ss, steps, i - 1, p);
      RunKeeps(ss, steps, i - 1);
      StepBooks(ss[i - 1], steps[i - 1]);
      StepRegistry(ss[i - 1], steps[i - 1]);
    } else {
      InitialBooks(ss[0]);
    }
    assert Balanced(ss[i], p);
  }

  lemma InitialBooks(s: State)
    requires Initial(s)
    ensures Books(s)
  {
    forall p ensures Balanced(s, p) {
      assert Total(s.seen, p) == Counter(0, 0);
    }
  }

  lemma StepRegistry(s: State, x: Step)
    requires Enabled(s, x) && !x.Prune? && s.registry == s.seen.Keys
    ensures After(s, x).registry == After(s, x).seen.Keys
  {
    if x.Charge? {
      var q := s.pullers[x.puller];
      var b, items := q.batches[0], q.pending.value[0];
      MarksKeys(s.seen, s.registry, b, items, x.result, x.period);
      forall k | k in After(s, x).seen && k !in s.seen ensures k in Rows(b, items) {
      }
    }
  }

  lemma {:induction false} MarksStay(seen: map<Key, Mark>, registry: set<Key>, b: Batch, items: seq<Item>, r: Result, p: PeriodId, k: Key)
    requires k in seen && k in registry
    ensures k in Marks(seen, registry, b, items, r, p) && Marks(seen, registry, b, items, r, p)[k] == seen[k]
    decreases |items|
  {
    if |items| > 0 {
      MarksStay(First(seen, registry, b, items[0], r, p), registry, b, items[1..], r, p, k);
    }
  }

  /** Without pruning the first mark of an item stands: whatever repeats, its result, period
      and bytes never change. */
  lemma {:induction false} FirstMarkStands(ss: seq<State>, steps: seq<Step>, i: nat, j: nat, k: Key)
    requires Run(ss, steps) && i <= j < |ss| && k in ss[i].seen
    requires forall n | 0 <= n < |steps| :: !steps[n].Prune?
    ensures k in ss[j].seen && ss[j].seen[k] == ss[i].seen[k]
  {
    if i < j {
      FirstMarkStands(ss, steps, i, j - 1, k);
      CountedAtMostOnce(ss, steps, j - 1, PeriodId(0, 0));
      StepMark(ss[j - 1], steps[j - 1], k);
    }
  }

  lemma StepMark(s: State, x: Step, k: Key)
    requires Enabled(s, x) && k in s.seen && k in s.registry
    ensures k in After(s, x).seen && After(s, x).seen[k] == s.seen[k]
  {
    if x.Charge? {
      var q := s.pullers[x.puller];
      MarksStay(s.seen, s.registry, q.batches[0], q.pending.value[0], x.result, x.period, k);
    }
  }
}
