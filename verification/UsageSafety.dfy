/** Usage is counted at most once, nothing is acknowledged early, and pruning is safe. */
module UsageSafety {
  import opened Types
  import opened Usage

  // ------------------------------------------------------- what one chunk accrues

  /** The items of a chunk that are not in the registry. */
  function NewOnes(registry: set<Key>, b: Batch, items: seq<Item>): seq<Item> {
    if |items| == 0 then []
    else (if KeyOf(b, items[0]) in registry then [] else [items[0]]) + NewOnes(registry, b, items[1..])
  }

  lemma {:induction false} AccountsSplit(items: seq<Item>)
    requires |items| > 0
    ensures Accounts(items) == {items[0].account} + Accounts(items[1..])
  {
    forall a | a in Accounts(items) ensures a in {items[0].account} + Accounts(items[1..]) {
      var i :| 0 <= i < |items| && items[i].account == a;
      if i > 0 { assert items[1..][i - 1] == items[i]; }
    }
    forall a | a in Accounts(items[1..]) ensures a in Accounts(items) {
      var i :| 0 <= i < |items[1..]| && items[1..][i].account == a;
      assert items[i + 1] == items[1..][i];
    }
  }

  lemma {:induction false} AccountsBound(items: seq<Item>)
    ensures |Accounts(items)| <= |items|
    ensures |Accounts(items)| == |items| ==> Distinct(items)
  {
    if |items| > 0 {
      AccountsSplit(items);
      AccountsBound(items[1..]);
      var head, tail := items[0].account, Accounts(items[1..]);
      if head in tail {
        assert {head} + tail == tail;
      } else if |Accounts(items)| == |items| {
        assert Distinct(items[1..]);
        forall i, j | 0 <= i < j < |items| ensures items[i].account != items[j].account {
          assert items[j] == items[1..][j - 1];
          assert items[j].account in tail;
          if i > 0 { assert items[i] == items[1..][i - 1]; }
        }
      }
    }
  }

  lemma {:induction false} KeptIsNew(registry: set<Key>, b: Batch, items: seq<Item>, ids: set<Account>)
    requires forall i | i in items :: i.account in ids <==> KeyOf(b, i) !in registry
    ensures Kept(items, ids) == NewOnes(registry, b, items)
  {
    if |items| > 0 {
      assert forall i | i in items[1..] :: i in items;
      KeptIsNew(registry, b, items[1..], ids);
    }
  }

  lemma {:induction false} AllNew(registry: set<Key>, b: Batch, items: seq<Item>)
    requires forall i | i in items :: KeyOf(b, i) !in registry
    ensures NewOnes(registry, b, items) == items
  {
    if |items| > 0 {
      assert forall i | i in items[1..] :: i in items;
      AllNew(registry, b, items[1..]);
      assert items == [items[0]] + items[1..];
    }
  }

  lemma SubsetFull(small: set<Account>, big: set<Account>)
    requires small <= big && |small| >= |big|
    ensures small == big
  {
    if small != big {
      var x :| x in big && x !in small;
      SubsetSmaller(small, big - {x});
    }
  }

  lemma {:induction false} SubsetSmaller(small: set<Account>, big: set<Account>)
    requires small <= big
    ensures |small| <= |big|
    decreases small
  {
    if small != {} {
      var x :| x in small;
      SubsetSmaller(small - {x}, big - {x});
    }
  }

  /** RegisterProcessed returns exactly the items that were not in the registry, in order;
      its shortcut for a full insert changes nothing. */
  lemma RegisteredIsNew(registry: set<Key>, b: Batch, items: seq<Item>)
    ensures Registered(registry, b, items) == NewOnes(registry, b, items)
  {
    var ids := Inserted(registry, b, items);
    if |ids| == |items| {
      AccountsBound(items);
      SubsetFull(ids, Accounts(items));
      forall i | i in items ensures KeyOf(b, i) !in registry {
        assert i.account in ids;
      }
      AllNew(registry, b, items);
    } else {
      KeptIsNew(registry, b, items, ids);
    }
  }

  /** Why accounting ids must be distinct: of two new items with one id both are accrued,
      though only one row is registered. */
  lemma DuplicateIsCountedTwice(registry: set<Key>, b: Batch, i: Item, j: Item)
    requires i.account == j.account && KeyOf(b, i) !in registry
    ensures Registered(registry, b, [i, j]) == [i, j] && Sum(Registered(registry, b, [i, j])) == Counter(i.up + j.up, i.down + j.down)
    ensures Accounts([i, j]) == {i.account}
  {
    RegisteredIsNew(registry, b, [i, j]);
    assert [i, j][1..] == [j] && [j][1..] == [];
    assert Accounts([i, j]) == {i.account} by {
      assert [i, j][0].account == i.account && [i, j][1].account == i.account;
    }
    calc {
      NewOnes(registry, b, [i, j]);
      [i] + NewOnes(registry, b, [j]);
      [i] + [j];
    }
    assert Sum([i, j]) == Counter(i.up + Sum([j]).up, i.down + Sum([j]).down);
    assert Sum([j]) == Counter(j.up + Sum([]).up, j.down + Sum([]).down);
  }

  // ------------------------------------------------------------------ sums of marks

  function Share(m: Mark, p: PeriodId): Counter {
    if m.result.Applied? && m.period == p then Counter(m.up, m.down) else Counter(0, 0)
  }

  ghost function SumOf(m: map<Key, Mark>, ks: set<Key>, p: PeriodId): Counter
    requires ks <= m.Keys
  {
    if ks == {} then Counter(0, 0)
    else var k :| k in ks; Plus(Share(m[k], p), SumOf(m, ks - {k}, p))
  }

  /** The sum over the registered items marked APPLIED for a period. */
  ghost function Total(m: map<Key, Mark>, p: PeriodId): Counter { SumOf(m, m.Keys, p) }

  lemma PlusSwaps(a: Counter, b: Counter, c: Counter)
    ensures Plus(a, Plus(b, c)) == Plus(b, Plus(a, c))
  {
  }

  lemma PlusMoves(a: Counter, b: Counter, c: Counter)
    ensures Plus(Plus(a, b), c) == Plus(b, Plus(a, c))
  {
  }

  lemma PlusZero(a: Counter)
    ensures Plus(a, Counter(0, 0)) == a
  {
  }

  lemma {:induction false} SumSplit(m: map<Key, Mark>, ks: set<Key>, p: PeriodId, k: Key)
    requires ks <= m.Keys && k in ks
    ensures SumOf(m, ks, p) == Plus(Share(m[k], p), SumOf(m, ks - {k}, p))
    decreases |ks|
  {
    hide Plus, Share;
    var first :| first in ks && SumOf(m, ks, p) == Plus(Share(m[first], p), SumOf(m, ks - {first}, p));
    if first != k {
      SumSplit(m, ks - {first}, p, k);
      SumSplit(m, ks - {k}, p, first);
      assert ks - {first} - {k} == ks - {k} - {first};
      var rest := SumOf(m, ks - {first} - {k}, p);
      assert SumOf(m, ks - {first}, p) == Plus(Share(m[k], p), rest);
      assert SumOf(m, ks - {k}, p) == Plus(Share(m[first], p), rest);
      PlusSwaps(Share(m[first], p), Share(m[k], p), rest);
    }
  }

  lemma {:induction false} SumSame(m: map<Key, Mark>, n: map<Key, Mark>, ks: set<Key>, p: PeriodId)
    requires ks <= m.Keys && ks <= n.Keys && forall k | k in ks :: m[k] == n[k]
    ensures SumOf(m, ks, p) == SumOf(n, ks, p)
    decreases |ks|
  {
    hide Plus, Share;
    if ks != {} {
      var k :| k in ks;
      SumSplit(m, ks, p, k);
      SumSplit(n, ks, p, k);
      SumSame(m, n, ks - {k}, p);
    }
  }

  lemma TotalAdds(m: map<Key, Mark>, k: Key, v: Mark, p: PeriodId)
    requires k !in m
    ensures Total(m[k := v], p) == Plus(Share(v, p), Total(m, p))
  {
    hide Plus, Share;
    var n := m[k := v];
    SumSplit(n, n.Keys, p, k);
    assert n.Keys - {k} == m.Keys;
    SumSame(n, m, m.Keys, p);
  }

  /** Replacing a mark. */
  lemma TotalReplaces(m: map<Key, Mark>, k: Key, v: Mark, p: PeriodId)
    requires k in m
    ensures Plus(Total(m[k := v], p), Share(m[k], p)) == Plus(Share(v, p), Total(m, p))
  {
    hide Plus, Share;
    var n := m[k := v];
    SumSplit(n, n.Keys, p, k);
    SumSplit(m, m.Keys, p, k);
    assert n.Keys - {k} == m.Keys - {k};
    SumSame(n, m, m.Keys - {k}, p);
    PlusTrades(Share(v, p), SumOf(m, m.Keys - {k}, p), Share(m[k], p));
  }

  lemma PlusTrades(a: Counter, b: Counter, c: Counter)
    ensures Plus(Plus(a, b), c) == Plus(a, Plus(c, b))
  {
  }

  /** None of the items was registered and then pruned. */
  ghost predicate AllKnown(seen: map<Key, Mark>, registry: set<Key>, b: Batch, items: seq<Item>) {
    forall i | i in items && KeyOf(b, i) in seen :: KeyOf(b, i) in registry
  }

  /** What a pruned row had added to a period. */
  function Dropped(seen: map<Key, Mark>, registry: set<Key>, k: Key, q: PeriodId): Counter {
    if k !in registry && k in seen then Share(seen[k], q) else Counter(0, 0)
  }

  /** What the pruned rows of a chunk's items had added. */
  function Lost(seen: map<Key, Mark>, registry: set<Key>, b: Batch, items: seq<Item>, q: PeriodId): Counter {
    if |items| == 0 then Counter(0, 0)
    else Plus(Dropped(seen, registry, KeyOf(b, items[0]), q), Lost(seen, registry, b, items[1..], q))
  }

  /** What an item adds when it is not in the registry. */
  function Added(registry: set<Key>, b: Batch, i: Item, r: Result, p: PeriodId, q: PeriodId): Counter {
    if KeyOf(b, i) in registry then Counter(0, 0) else Share(Mark(r, p, i.up, i.down), q)
  }

  /** Registering the first item does not touch the others. */
  lemma {:induction false} LostAfter(seen: map<Key, Mark>, seen': map<Key, Mark>, registry: set<Key>, b: Batch, items: seq<Item>, q: PeriodId)
    requires forall i | i in items :: (KeyOf(b, i) in seen' <==> KeyOf(b, i) in seen) && (KeyOf(b, i) in seen ==> seen'[KeyOf(b, i)] == seen[KeyOf(b, i)])
    ensures Lost(seen', registry, b, items, q) == Lost(seen, registry, b, items, q)
  {
    hide Plus, Share;
    if |items| > 0 {
      assert items[0] in items && forall i | i in items[1..] :: i in items;
      LostAfter(seen, seen', registry, b, items[1..], q);
    }
  }

  lemma {:induction false} NothingLost(seen: map<Key, Mark>, registry: set<Key>, b: Batch, items: seq<Item>, q: PeriodId)
    requires forall i | i in items && KeyOf(b, i) in seen && KeyOf(b, i) !in registry :: Share(seen[KeyOf(b, i)], q) == Counter(0, 0)
    ensures Lost(seen, registry, b, items, q) == Counter(0, 0)
  {
    hide Plus, Share;
    if |items| > 0 {
      assert items[0] in items && forall i | i in items[1..] :: i in items;
      NothingLost(seen, registry, b, items[1..], q);
      PlusFromZero(Counter(0, 0));
    }
  }

  lemma {:induction false} SomethingLost(seen: map<Key, Mark>, registry: set<Key>, b: Batch, items: seq<Item>, q: PeriodId, i: Item)
    requires i in items && KeyOf(b, i) in seen && KeyOf(b, i) !in registry && Share(seen[KeyOf(b, i)], q) != Counter(0, 0)
    ensures Lost(seen, registry, b, items, q) != Counter(0, 0)
  {
    hide Plus, Share;
    PlusPositive(Dropped(seen, registry, KeyOf(b, items[0]), q), Lost(seen, registry, b, items[1..], q));
    if i != items[0] {
      assert i in items[1..];
      SomethingLost(seen, registry, b, items[1..], q, i);
    }
  }

  lemma PlusPositive(a: Counter, b: Counter)
    ensures a != Counter(0, 0) || b != Counter(0, 0) ==> Plus(a, b) != Counter(0, 0)
  {
  }

  /** The first item of a chunk: what its mark does to a period's total. */
  lemma FirstTotal(seen: map<Key, Mark>, registry: set<Key>, b: Batch, i: Item, r: Result, p: PeriodId, q: PeriodId)
    ensures Plus(Total(First(seen, registry, b, i, r, p), q), Dropped(seen, registry, KeyOf(b, i), q))
         == Plus(Added(registry, b, i, r, p, q), Total(seen, q))
  {
    hide Plus, Share;
    var k, v := KeyOf(b, i), Mark(r, p, i.up, i.down);
    PlusZero(Total(First(seen, registry, b, i, r, p), q));
    PlusFromZero(Total(seen, q));
    if k !in registry {
      if k in seen { TotalReplaces(seen, k, v, q); } else { TotalAdds(seen, k, v, q); }
    }
  }

  lemma PlusFromZero(c: Counter)
    ensures Plus(Counter(0, 0), c) == c
  {
  }

  /** What a chunk adds to a period: the bytes of its new items. */
  function Gain(registry: set<Key>, b: Batch, items: seq<Item>, r: Result, p: PeriodId, q: PeriodId): Counter {
    if r.Applied? && p == q then Sum(NewOnes(registry, b, items)) else Counter(0, 0)
  }

  lemma GainSplit(registry: set<Key>, b: Batch, items: seq<Item>, r: Result, p: PeriodId, q: PeriodId)
    requires |items| > 0
    ensures Gain(registry, b, items, r, p, q) == Plus(Added(registry, b, items[0], r, p, q), Gain(registry, b, items[1..], r, p, q))
  {
    hide Plus;
    if r.Applied? && p == q {
      NewSplit(registry, b, items);
      PlusFromZero(Sum(NewOnes(registry, b, items[1..])));
    } else {
      PlusFromZero(Counter(0, 0));
    }
  }

  lemma NewSplit(registry: set<Key>, b: Batch, items: seq<Item>)
    requires |items| > 0
    ensures Sum(NewOnes(registry, b, items))
         == if KeyOf(b, items[0]) in registry then Sum(NewOnes(registry, b, items[1..]))
            else Plus(Counter(items[0].up, items[0].down), Sum(NewOnes(registry, b, items[1..])))
  {
    var rest := NewOnes(registry, b, items[1..]);
    if KeyOf(b, items[0]) in registry {
      assert NewOnes(registry, b, items) == rest;
    } else {
      SumHead(items[0], rest);
    }
  }

  /** A chunk adds to each period the bytes of its new items, less what the pruned rows of
      those items had added before. */
  lemma {:induction false} MarksTotal(seen: map<Key, Mark>, registry: set<Key>, b: Batch, items: seq<Item>, r: Result, p: PeriodId, q: PeriodId)
    requires Distinct(items)
    ensures Plus(Total(Marks(seen, registry, b, items, r, p), q), Lost(seen, registry, b, items, q))
         == Plus(Total(seen, q), Gain(registry, b, items, r, p, q))
    decreases |items|
  {
    hide Plus, Share;
    if |items| > 0 {
      var seen' := First(seen, registry, b, items[0], r, p);
      TailDistinct(items);
      FirstTotal(seen, registry, b, items[0], r, p, q);
      GainSplit(registry, b, items, r, p, q);
      MarksTotal(seen', registry, b, items[1..], r, p, q);
      forall j | j in items[1..] ensures KeyOf(b, j) != KeyOf(b, items[0]) { OtherKey(b, items, j); }
      LostAfter(seen, seen', registry, b, items[1..], q);
      ChunkAdds(Total(Marks(seen, registry, b, items, r, p), q), Lost(seen, registry, b, items[1..], q), Total(seen', q),
                Gain(registry, b, items[1..], r, p, q), Dropped(seen, registry, KeyOf(b, items[0]), q),
                Added(registry, b, items[0], r, p, q), Total(seen, q));
    } else {
      PlusZero(Total(seen, q));
    }
  }

  lemma TailDistinct(items: seq<Item>)
    requires Distinct(items) && |items| > 0
    ensures Distinct(items[1..])
  {
  }

  lemma ChunkAdds(after: Counter, lostRest: Counter, first: Counter, gainRest: Counter, lost: Counter, gain: Counter, before: Counter)
    requires Plus(after, lostRest) == Plus(first, gainRest) && Plus(first, lost) == Plus(gain, before)
    ensures Plus(after, Plus(lost, lostRest)) == Plus(before, Plus(gain, gainRest))
  {
  }

  function First(seen: map<Key, Mark>, registry: set<Key>, b: Batch, i: Item, r: Result, p: PeriodId): map<Key, Mark> {
    if KeyOf(b, i) in registry then seen else seen[KeyOf(b, i) := Mark(r, p, i.up, i.down)]
  }

  lemma OtherKey(b: Batch, items: seq<Item>, j: Item)
    requires Distinct(items) && |items| > 0 && j in items[1..]
    ensures j in items && KeyOf(b, j) != KeyOf(b, items[0])
  {
    var n :| 0 <= n < |items[1..]| && items[1..][n] == j;
    assert items[n + 1] == j;
  }

  lemma SumHead(i: Item, rest: seq<Item>)
    ensures Sum([i] + rest) == Plus(Counter(i.up, i.down), Sum(rest))
  {
    assert ([i] + rest)[1..] == rest;
  }

  lemma {:induction false} MarksKeys(seen: map<Key, Mark>, registry: set<Key>, b: Batch, items: seq<Item>, r: Result, p: PeriodId)
    ensures seen.Keys <= Marks(seen, registry, b, items, r, p).Keys
    ensures forall i | i in items :: KeyOf(b, i) in registry || KeyOf(b, i) in Marks(seen, registry, b, items, r, p)
    ensures forall k | k in Marks(seen, registry, b, items, r, p) && k !in seen :: exists i :: i in items && k == KeyOf(b, i)
    decreases |items|
  {
    if |items| > 0 {
      var k := KeyOf(b, items[0]);
      var seen' := if k in registry then seen else seen[k := Mark(r, p, items[0].up, items[0].down)];
      MarksKeys(seen', registry, b, items[1..], r, p);
      forall i | i in items ensures KeyOf(b, i) in registry || KeyOf(b, i) in Marks(seen, registry, b, items, r, p) {
        if i != items[0] { assert i in items[1..]; }
      }
      forall x | x in Marks(seen, registry, b, items, r, p) && x !in seen ensures exists i :: i in items && x == KeyOf(b, i) {
        if x != k {
          var i :| i in items[1..] && x == KeyOf(b, i);
          assert i in items;
        } else {
          assert items[0] in items;
        }
      }
    }
  }

  // ---------------------------------------------------------------- counted at most once

  /** Every counter is the sum of the items marked APPLIED for its period, each once. */
  ghost predicate Books(s: State) {
    && s.registry <= s.seen.Keys
    && forall p :: Balanced(s, p)
  }

  ghost predicate Balanced(s: State, p: PeriodId) {
    CounterAt(s.counters, p) == Total(s.seen, p)
  }

  lemma SameLedger(s: State, s': State)
    requires Books(s) && s'.seen == s.seen && s'.counters == s.counters && s'.registry <= s.registry
    ensures Books(s')
  {
    forall p ensures Balanced(s', p) {
      assert Balanced(s, p);
    }
  }

  /** The chunk about to be charged holds no item whose row was pruned. */
  ghost predicate Known(s: State, b: Batch, items: seq<Item>) {
    Distinct(items) && AllKnown(s.seen, s.registry, b, items)
  }

  lemma ChargeKeepsBooks(s: State, b: Batch, items: seq<Item>, r: Result, p: PeriodId)
    requires Books(s) && Known(s, b, items)
    ensures Books(Charged(s, b, items, r, p))
  {
    MarksKeys(s.seen, s.registry, b, items, r, p);
    forall q ensures Balanced(Charged(s, b, items, r, p), q) {
      assert Balanced(s, q);
      SecondAccrualIsExact(s, b, items, r, p, q);
    }
  }

  lemma ChargedCounter(s: State, b: Batch, items: seq<Item>, r: Result, p: PeriodId, q: PeriodId)
    ensures CounterAt(Charged(s, b, items, r, p).counters, q)
         == Plus(CounterAt(s.counters, q), Gain(s.registry, b, items, r, p, q))
  {
    RegisteredIsNew(s.registry, b, items);
    if r.Applied? && p == q {
      assert CounterAt(Charged(s, b, items, r, p).counters, q) == Plus(CounterAt(s.counters, q), Sum(Registered(s.registry, b, items)));
    }
  }

  /** The exact damage of pruning: a chunk leaves a counter right exactly when no item of it
      had its row pruned after adding to that period. */
  lemma SecondAccrualIsExact(s: State, b: Batch, items: seq<Item>, r: Result, p: PeriodId, q: PeriodId)
    requires Balanced(s, q) && Distinct(items)
    ensures Balanced(Charged(s, b, items, r, p), q) <==>
              forall i | i in items && KeyOf(b, i) in s.seen && KeyOf(b, i) !in s.registry :: Share(s.seen[KeyOf(b, i)], q) == Counter(0, 0)
  {
    ChargedCounter(s, b, items, r, p, q);
    MarksTotal(s.seen, s.registry, b, items, r, p, q);
    LostCancels(Total(Charged(s, b, items, r, p).seen, q), Lost(s.seen, s.registry, b, items, q),
                Plus(Total(s.seen, q), Gain(s.registry, b, items, r, p, q)));
    if i :| i in items && KeyOf(b, i) in s.seen && KeyOf(b, i) !in s.registry && Share(s.seen[KeyOf(b, i)], q) != Counter(0, 0) {
      SomethingLost(s.seen, s.registry, b, items, q, i);
    } else {
      NothingLost(s.seen, s.registry, b, items, q);
    }
  }

  lemma LostCancels(after: Counter, lost: Counter, total: Counter)
    requires Plus(after, lost) == total
    ensures total == after <==> lost == Counter(0, 0)
  {
  }

  /** Charging the same chunk again - after a crash, or by another puller - changes no
      counter and no mark. */
  lemma RepeatIsFree(s: State, b: Batch, items: seq<Item>, r: Result, p: PeriodId, again: Result, q: PeriodId, period: PeriodId)
    requires Distinct(items)
    ensures var once := Charged(s, b, items, r, p);
            var twice := Charged(once, b, items, again, q);
            && twice.seen == once.seen && twice.registry == once.registry
            && CounterAt(twice.counters, period) == CounterAt(once.counters, period)
  {
    SecondCharge(Charged(s, b, items, r, p), b, items, again, q, period);
  }

  lemma SecondCharge(once: State, b: Batch, items: seq<Item>, again: Result, q: PeriodId, period: PeriodId)
    requires Rows(b, items) <= once.registry
    ensures var twice := Charged(once, b, items, again, q);
            && twice.seen == once.seen && twice.registry == once.registry
            && CounterAt(twice.counters, period) == CounterAt(once.counters, period)
  {
    forall i | i in items ensures KeyOf(b, i) in once.registry {
      assert KeyOf(b, i) in Rows(b, items);
    }
    NothingNew(once.seen, once.registry, b, items, again, q);
    assert once.registry + Rows(b, items) == once.registry;
    NoGain(once, b, items, again, q, period);
  }

  lemma NoGain(s: State, b: Batch, items: seq<Item>, r: Result, p: PeriodId, q: PeriodId)
    requires NewOnes(s.registry, b, items) == []
    ensures CounterAt(Charged(s, b, items, r, p).counters, q) == CounterAt(s.counters, q)
  {
    hide Plus;
    ChargedCounter(s, b, items, r, p, q);
    PlusZero(CounterAt(s.counters, q));
  }

  lemma {:induction false} NothingNew(seen: map<Key, Mark>, registry: set<Key>, b: Batch, items: seq<Item>, r: Result, p: PeriodId)
    requires forall i | i in items :: KeyOf(b, i) in registry
    ensures NewOnes(registry, b, items) == [] && Marks(seen, registry, b, items, r, p) == seen
    decreases |items|
  {
    if |items| > 0 {
      assert items[0] in items && forall i | i in items[1..] :: i in items;
      NothingNew(seen, registry, b, items[1..], r, p);
    }
  }

  // ------------------------------------------------------------- bytes of one transaction

  predicate Ready(s: State, puller: nat) {
    Working(s, puller) && s.pullers[puller].pending.Some? && |s.pullers[puller].pending.value| > 0
  }

  function Head(s: State, puller: nat): Batch
    requires Ready(s, puller)
  {
    s.pullers[puller].batches[0]
  }

  function NextChunk(s: State, puller: nat): seq<Item>
    requires Ready(s, puller)
  {
    s.pullers[puller].pending.value[0]
  }

  function Bytes(n: Counter): nat { n.up + n.down }

  /** The bytes of the items a transaction registers, None when it registers none. */
  function Counted(s: State, b: Batch, items: seq<Item>): Option<nat> {
    var accrued := Registered(s.registry, b, items);
    if |accrued| == 0 then None else Some(Bytes(Sum(accrued)))
  }

  function CountedBytes(s: State, puller: nat): nat
    requires Ready(s, puller)
  {
    var counted := Counted(s, Head(s, puller), NextChunk(s, puller));
    if counted.Some? then counted.value else 0
  }

  lemma CountedIsSum(s: State, puller: nat)
    requires Ready(s, puller)
    ensures CountedBytes(s, puller) == Bytes(Sum(Registered(s.registry, Head(s, puller), NextChunk(s, puller))))
  {
    hide Registered;
  }

  lemma BytesAdd(a: Counter, b: Counter)
    ensures Bytes(Plus(a, b)) == Bytes(a) + Bytes(b)
  {
  }

  lemma CounterSet(counters: map<PeriodId, Counter>, p: PeriodId, v: Counter, q: PeriodId)
    ensures CounterAt(counters[p := v], q) == if p == q then v else CounterAt(counters, q)
  {
  }

  /** A charge adds the bytes it registers to the one period it names, if it is APPLIED. */
  lemma ChargeBytes(s: State, puller: nat, r: Result, p: PeriodId, q: PeriodId)
    requires Ready(s, puller)
    ensures Bytes(CounterAt(After(s, Charge(puller, r, p)).counters, q))
         == Bytes(CounterAt(s.counters, q)) + (if r.Applied? && p == q then CountedBytes(s, puller) else 0)
  {
    hide Registered, Sum, Marks, Plus, CounterAt, CountedBytes, Bytes;
    CountedIsSum(s, puller);
    var sum := Sum(Registered(s.registry, Head(s, puller), NextChunk(s, puller)));
    CounterSet(s.counters, p, Plus(CounterAt(s.counters, p), sum), q);
    BytesAdd(CounterAt(s.counters, p), sum);
  }

  /** No other work moves a counter. */
  lemma WorkCounters(s: State, x: Step)
    requires Enabled(s, x) && !x.Charge?
    ensures After(s, x).counters == s.counters
  {
  }
}
