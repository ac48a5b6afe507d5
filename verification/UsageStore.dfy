/** The usage tables of one node and the loop that consumes a response, batch by batch. */
module UsageStore {
  import opened Types
  import opened Usage
  import opened UsageSafety

  /** The items of a batch that are charged together, with what their period lookup said. */
  datatype Chunk = Chunk(items: seq<Item>, result: Result, period: PeriodId)

  predicate Covering(b: Batch, chunks: seq<Chunk>) {
    && (forall c | 0 <= c < |chunks| :: Distinct(chunks[c].items))
    && (forall i | i in b.items :: exists c | 0 <= c < |chunks| :: i in chunks[c].items)
  }

  datatype Work = Work(batch: Batch, chunks: seq<Chunk>)

  /** What a well-behaved agent answers: one spool, ascending sequences from 1 on. */
  predicate Ascending(work: seq<Work>) {
    && (forall n | 0 <= n < |work| :: work[n].batch.sequence > 0)
    && (forall n, m | 0 <= n < m < |work| ::
          work[n].batch.spool == work[m].batch.spool && work[n].batch.sequence < work[m].batch.sequence)
  }

  predicate Consumed(registry: set<Key>, b: Batch) {
    forall i | i in b.items :: KeyOf(b, i) in registry
  }

  /** A batch may be passed over: its sequence is 0, the claimed cursor covers it, or one before
      it in the response does and is registered. */
  predicate PassedOver(claimed: Cursor, work: seq<Work>, registry: set<Key>, n: nat)
    requires n < |work|
  {
    || work[n].batch.sequence == 0
    || Covers(claimed, work[n].batch)
    || exists m | 0 <= m < n :: Covers(CursorOf(work[m].batch), work[n].batch) && Consumed(registry, work[m].batch)
  }

  class Store {
    var stored: Cursor
    var registry: set<Key>
    var counters: map<PeriodId, Counter>
    ghost var seen: map<Key, Mark>

    /** The tables as the accounting machine sees them. */
    ghost function Ledger(): State
      reads this
    {
      State(Agent(0, 0, {}, Cursor(0, 0)), stored, map[], registry, counters, seen)
    }

    /** Every registered item counted once: nothing has been pruned. */
    ghost predicate Valid()
      reads this
    {
      registry == seen.Keys && Books(Ledger())
    }

    constructor ()
      ensures Valid() && stored == Cursor(0, 0)
    {
      stored, registry, counters, seen := Cursor(0, 0), {}, map[], map[];
      new;
      forall p ensures Balanced(Ledger(), p) {
        assert Total(map[], p) == Counter(0, 0);
      }
    }

    /** The insert of RegisterProcessedUsageItems: the ids that were not there. */
    method InsertRows(b: Batch, items: seq<Item>) returns (inserted: set<Account>)
      modifies this`registry
      ensures inserted == Inserted(old(registry), b, items)
      ensures registry == old(registry) + Rows(b, items)
    {
      inserted := {};
      for n := 0 to |items|
        invariant inserted == Inserted(old(registry), b, items[..n])
        invariant registry == old(registry) + Rows(b, items[..n])
      {
        var k := KeyOf(b, items[n]);
        RowsNext(b, items, n);
        InsertedNext(old(registry), b, items, n);
        if k !in registry {
          registry := registry + {k};
          inserted := inserted + {items[n].account};
        }
      }
      assert items[..|items|] == items;
    }

    /** RegisterProcessed: all items when every insert succeeded, otherwise the ones whose id
        came back. */
    method RegisterProcessed(b: Batch, items: seq<Item>) returns (accrued: seq<Item>)
      modifies this`registry
      ensures accrued == Registered(old(registry), b, items)
      ensures registry == old(registry) + Rows(b, items)
    {
      var inserted := InsertRows(b, items);
      if |inserted| == |items| { return items; }
      accrued := KeepOnly(items, inserted);
    }

    /** The items whose id came back, in their order. */
    method KeepOnly(items: seq<Item>, ids: set<Account>) returns (kept: seq<Item>)
      ensures kept == Kept(items, ids)
    {
      kept := [];
      for n := 0 to |items|
        invariant kept + Kept(items[n..], ids) == Kept(items, ids)
      {
        assert items[n..][1..] == items[n + 1..];
        if items[n].account in ids { kept := kept + [items[n]]; }
      }
    }

    /** PlanUsageGroup's sum over the accrued items. */
    method AddUp(items: seq<Item>) returns (c: Counter)
      ensures c == Sum(items)
    {
      c := Counter(0, 0);
      PlusFromZero(Sum(items));
      for n := 0 to |items|
        invariant Plus(c, Sum(items[n..])) == Sum(items)
      {
        assert items[n..][1..] == items[n + 1..];
        SumStep(c, items[n..]);
        c := Plus(c, Counter(items[n].up, items[n].down));
      }
      PlusZero(c);
    }

    /** One group transaction or quarantine. */
    method Charge(b: Batch, chunk: Chunk)
      requires Valid() && Distinct(chunk.items)
      modifies this`registry, this`counters, this`seen
      ensures Valid()
      ensures Ledger() == Charged(old(Ledger()), b, chunk.items, chunk.result, chunk.period)
    {
      ghost var before := Ledger();
      var accrued := RegisterProcessed(b, chunk.items);
      if chunk.result.Applied? {
        var sum := AddUp(accrued);
        var at := if chunk.period in counters then counters[chunk.period] else Counter(0, 0);
        counters := counters[chunk.period := Plus(at, sum)];
      }
      seen := Marks(before.seen, before.registry, b, chunk.items, chunk.result, chunk.period);
      assert Ledger() == Charged(before, b, chunk.items, chunk.result, chunk.period);
      ChargeKeepsBooks(before, b, chunk.items, chunk.result, chunk.period);
      NothingPruned(before, b, chunk.items, chunk.result, chunk.period);
    }

    /** consumeBatch: every item of the batch ends up registered. */
    method ConsumeBatch(b: Batch, chunks: seq<Chunk>)
      requires Valid() && Covering(b, chunks)
      modifies this`registry, this`counters, this`seen
      ensures Valid() && old(registry) <= registry
      ensures forall i | i in b.items :: KeyOf(b, i) in registry
    {
      hide Registered, Sum, Marks, Plus, Books;
      for c := 0 to |chunks|
        invariant Valid() && old(registry) <= registry
        invariant forall x | 0 <= x < c :: Rows(b, chunks[x].items) <= registry
      {
        Charge(b, chunks[c]);
      }
      forall i | i in b.items ensures KeyOf(b, i) in registry {
        var c :| 0 <= c < |chunks| && i in chunks[c].items;
        assert KeyOf(b, i) in Rows(b, chunks[c].items);
      }
    }

    /** consume: batches at or below the cursor are skipped, every other one is consumed
        before the stored cursor moves to it.  Whatever the agent answers, every batch is
        registered or rightly passed over, and the stored cursor only ever names a registered
        one; a well-behaved answer leaves it at its last batch. */
    method Consume(claimed: Cursor, work: seq<Work>)
      requires Valid() && forall n | 0 <= n < |work| :: Covering(work[n].batch, work[n].chunks)
      modifies this
      ensures Valid() && old(registry) <= registry
      ensures forall n | 0 <= n < |work| :: Consumed(registry, work[n].batch) || PassedOver(claimed, work, registry, n)
      ensures stored == old(stored) || exists n | 0 <= n < |work| :: stored == CursorOf(work[n].batch) && Consumed(registry, work[n].batch)
      ensures Ascending(work) ==>
                && stored == (if |work| > 0 && !Covers(claimed, work[|work| - 1].batch) then CursorOf(work[|work| - 1].batch) else old(stored))
                && forall n | 0 <= n < |work| :: Covers(claimed, work[n].batch) || Consumed(registry, work[n].batch)
    {
      var cursor := claimed;
      for n := 0 to |work|
        invariant Valid() && old(registry) <= registry
        invariant forall m | 0 <= m < n :: Consumed(registry, work[m].batch) || PassedOver(claimed, work, registry, m)
        invariant stored == old(stored) || exists m | 0 <= m < n :: stored == CursorOf(work[m].batch) && Consumed(registry, work[m].batch)
        invariant cursor == claimed || cursor.sequence == 0 || exists m | 0 <= m < n :: cursor == CursorOf(work[m].batch) && Consumed(registry, work[m].batch)
        invariant Ascending(work) ==> Followed(claimed, old(stored), work, n, cursor)
      {
        var b := work[n].batch;
        if b.spool != cursor.spool { cursor := Cursor(b.spool, 0); }
        ghost var reached := registry;
        if b.sequence > cursor.sequence {
          ConsumeBatch(b, work[n].chunks);
          cursor := CursorOf(b);
          ghost var before := Ledger();
          stored := cursor;
          SameLedger(before, Ledger());
        }
        StillConsumed(claimed, work, reached, registry, n);
      }
    }

    /** In a well-behaved answer the cursor has reached the last batch looked at. */
    ghost predicate Followed(claimed: Cursor, was: Cursor, work: seq<Work>, n: nat, cursor: Cursor)
      requires n <= |work|
      reads this
    {
      && (forall m | 0 <= m < n :: Covers(claimed, work[m].batch) || Consumed(registry, work[m].batch))
      && (cursor == claimed || (0 < n && cursor.spool == work[n - 1].batch.spool && cursor.sequence <= work[n - 1].batch.sequence))
      && (n > 0 && !Covers(claimed, work[n - 1].batch) ==> stored == CursorOf(work[n - 1].batch) && cursor == stored)
      && (n > 0 && Covers(claimed, work[n - 1].batch) ==> stored == was && cursor == claimed)
      && (n == 0 ==> stored == was && cursor == claimed)
    }
  }

  /** Registering more keeps batches consumed or passed over. */
  lemma StillConsumed(claimed: Cursor, work: seq<Work>, before: set<Key>, after: set<Key>, n: nat)
    requires n <= |work| && before <= after
    ensures forall m | 0 <= m < |work| && Consumed(before, work[m].batch) :: Consumed(after, work[m].batch)
    ensures forall m | 0 <= m < n && PassedOver(claimed, work, before, m) :: PassedOver(claimed, work, after, m)
  {
  }

  // ------------------------------------------------------------------ loop arithmetic

  lemma RowsNext(b: Batch, items: seq<Item>, n: nat)
    requires n < |items|
    ensures Rows(b, items[..n + 1]) == Rows(b, items[..n]) + {KeyOf(b, items[n])}
  {
    assert items[..n + 1] == items[..n] + [items[n]];
  }

  lemma AccountsNext(items: seq<Item>, n: nat)
    requires n < |items|
    ensures Accounts(items[..n + 1]) == Accounts(items[..n]) + {items[n].account}
  {
    forall a ensures a in Accounts(items[..n + 1]) <==> a in Accounts(items[..n]) || a == items[n].account {
      if a in Accounts(items[..n]) {
        var j :| 0 <= j < n && items[..n][j].account == a;
        assert items[..n + 1][j].account == a;
      }
      if a == items[n].account { assert items[..n + 1][n].account == a; }
      if a in Accounts(items[..n + 1]) {
        var j :| 0 <= j < n + 1 && items[..n + 1][j].account == a;
        if j < n { assert items[..n][j].account == a; }
      }
    }
  }

  lemma InsertedNext(registry: set<Key>, b: Batch, items: seq<Item>, n: nat)
    requires n < |items|
    ensures Inserted(registry, b, items[..n + 1])
         == if KeyOf(b, items[n]) in registry + Rows(b, items[..n]) then Inserted(registry, b, items[..n])
            else Inserted(registry, b, items[..n]) + {items[n].account}
  {
    AccountsNext(items, n);
    RowsAreAccounts(b, items[..n], items[n].account);
  }

  lemma RowsAreAccounts(b: Batch, items: seq<Item>, a: Account)
    ensures Key(b.spool, b.sequence, a) in Rows(b, items) <==> a in Accounts(items)
  {
    if Key(b.spool, b.sequence, a) in Rows(b, items) {
      var i :| i in items && KeyOf(b, i) == Key(b.spool, b.sequence, a);
      var j :| 0 <= j < |items| && items[j] == i;
      assert items[j].account == a;
    }
    if a in Accounts(items) {
      var j :| 0 <= j < |items| && items[j].account == a;
      assert items[j] in items;
    }
  }

  lemma SumStep(c: Counter, items: seq<Item>)
    requires |items| > 0
    ensures Plus(Plus(c, Counter(items[0].up, items[0].down)), Sum(items[1..])) == Plus(c, Sum(items))
  {
  }

  lemma NothingPruned(s: State, b: Batch, items: seq<Item>, r: Result, p: PeriodId)
    requires s.registry == s.seen.Keys
    ensures Charged(s, b, items, r, p).registry == Charged(s, b, items, r, p).seen.Keys
  {
    MarksKeys(s.seen, s.registry, b, items, r, p);
    assert forall i | i in items :: KeyOf(b, i) in Rows(b, items);
  }
}
