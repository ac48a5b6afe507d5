/** The smaller planner loops: forced absence, quota thresholds and the grouping of usage
    items. */
module ChangeLoops {
  import opened Types
  import opened Tables
  import opened PlannerLoops
  import C = Customers
  import U = Usage

  /** PlanForceAbsent. */
  method PlanForceAbsent(accesses: seq<Row>) returns (changes: map<AccessId, Update>)
    requires DistinctKeys(accesses)
    ensures changes == C.ForcedAbsent(MapOf(accesses))
  {
    changes := map[];
    for i := 0 to |accesses|
      invariant changes == C.ForcedAbsent(MapOf(accesses[..i]))
    {
      assert accesses[..i + 1][..i] == accesses[..i];
      changes := changes[accesses[i].0 := SetDesired(Absent, accesses[i].1.version + 1)];
    }
    assert accesses[..|accesses|] == accesses;
  }

  // --------------------------------------------------------------------- thresholds

  datatype UsageRow = UsageRow(node: NodeId, usage: C.NodeUsage)

  predicate DistinctUsage(usages: seq<UsageRow>) {
    forall i, j | 0 <= i < j < |usages| :: usages[i].node != usages[j].node
  }

  /** RecomputeExhausted: only the counters whose exhausted_at has to change, with the value
      that makes it set exactly when the counter reaches the quota. */
  method RecomputeExhausted(usages: seq<UsageRow>, quota: nat, now: int) returns (changes: map<NodeId, Option<int>>)
    requires DistinctUsage(usages)
    ensures forall i | 0 <= i < |usages| ::
              var u := usages[i].usage;
              var exhaustedAt := if usages[i].node in changes then changes[usages[i].node] else u.exhaustedAt;
              && (exhaustedAt.Some? <==> u.total >= quota)
              && u.(exhaustedAt := exhaustedAt) == C.Recomputed(u, quota, now)
              && (usages[i].node in changes <==> exhaustedAt != u.exhaustedAt)
    ensures forall n | n in changes :: exists i :: 0 <= i < |usages| && usages[i].node == n
  {
    changes := map[];
    for i := 0 to |usages|
      invariant forall n | n in changes :: exists j :: 0 <= j < i && usages[j].node == n
      invariant forall j | 0 <= j < i ::
                  var u := usages[j].usage;
                  var exhaustedAt := if usages[j].node in changes then changes[usages[j].node] else u.exhaustedAt;
                  && (exhaustedAt.Some? <==> u.total >= quota)
                  && u.(exhaustedAt := exhaustedAt) == C.Recomputed(u, quota, now)
                  && (usages[j].node in changes <==> exhaustedAt != u.exhaustedAt)
    {
      var u := usages[i].usage;
      var exhausted := u.total >= quota;
      assert usages[i].node !in changes;
      if exhausted && u.exhaustedAt.None? {
        changes := changes[usages[i].node := Some(now)];
      } else if !exhausted && u.exhaustedAt.Some? {
        changes := changes[usages[i].node := None];
      }
    }
  }

  // ------------------------------------------------------------------- usage groups

  datatype OwnedItem = OwnedItem(item: U.Item, customer: CustomerId, node: NodeId)

  datatype GroupKey = GroupKey(customer: CustomerId, node: NodeId)

  function KeyOf(i: OwnedItem): GroupKey { GroupKey(i.customer, i.node) }

  function ForKey(items: seq<OwnedItem>, k: GroupKey): seq<OwnedItem> {
    if |items| == 0 then []
    else ForKey(items[..|items| - 1], k) + (if KeyOf(items[|items| - 1]) == k then [items[|items| - 1]] else [])
  }

  ghost predicate Grouped(items: seq<OwnedItem>, groups: map<GroupKey, seq<OwnedItem>>) {
    && (forall k | k in groups :: groups[k] == ForKey(items, k) && |groups[k]| > 0)
    && (forall k | k !in groups :: ForKey(items, k) == [])
  }

  lemma GroupedNext(items: seq<OwnedItem>, i: OwnedItem, groups: map<GroupKey, seq<OwnedItem>>)
    requires Grouped(items, groups)
    ensures Grouped(items + [i], groups[KeyOf(i) := (if KeyOf(i) in groups then groups[KeyOf(i)] else []) + [i]])
  {
    assert (items + [i])[..|items|] == items;
  }

  /** GroupUsageItems: one group per customer and node, holding exactly that owner's items. */
  method GroupUsageItems(items: seq<OwnedItem>) returns (groups: map<GroupKey, seq<OwnedItem>>)
    ensures forall k | k in groups :: groups[k] == ForKey(items, k) && |groups[k]| > 0
    ensures forall i | i in items :: KeyOf(i) in groups
  {
    groups := map[];
    for n := 0 to |items|
      invariant Grouped(items[..n], groups)
    {
      var k := KeyOf(items[n]);
      GroupedNext(items[..n], items[n], groups);
      assert items[..n + 1] == items[..n] + [items[n]];
      groups := groups[k := (if k in groups then groups[k] else []) + [items[n]]];
    }
    assert items[..|items|] == items;
    forall i | i in items ensures KeyOf(i) in groups {
      ForKeyHolds(items, KeyOf(i), i);
    }
  }

  lemma {:induction false} ForKeyHolds(items: seq<OwnedItem>, k: GroupKey, i: OwnedItem)
    ensures i in ForKey(items, k) <==> i in items && KeyOf(i) == k
  {
    if |items| > 0 {
      ForKeyHolds(items[..|items| - 1], k, i);
      assert items == items[..|items| - 1] + [items[|items| - 1]];
    }
  }

  /** Grouping loses and repeats nothing: a group and the rest make up the items. */
  lemma {:induction false} ForKeySplits(items: seq<OwnedItem>, k: GroupKey)
    ensures multiset(ForKey(items, k)) + multiset(Others(items, k)) == multiset(items)
  {
    if |items| > 0 {
      var rest, last := items[..|items| - 1], items[|items| - 1];
      ForKeySplits(rest, k);
      assert items == rest + [last];
      OneMore(rest, last);
      LastSplits(ForKey(rest, k), Others(rest, k), rest, last);
    }
  }

  lemma LastSplits(mine: seq<OwnedItem>, others: seq<OwnedItem>, rest: seq<OwnedItem>, i: OwnedItem)
    requires multiset(mine) + multiset(others) == multiset(rest)
    ensures multiset(mine + [i]) + multiset(others + []) == multiset(rest) + multiset{i}
    ensures multiset(mine + []) + multiset(others + [i]) == multiset(rest) + multiset{i}
  {
    OneMore(mine, i);
    OneMore(others, i);
    assert mine + [] == mine && others + [] == others;
  }

  lemma OneMore(items: seq<OwnedItem>, i: OwnedItem)
    ensures multiset(items + [i]) == multiset(items) + multiset{i}
  {
  }

  function Others(items: seq<OwnedItem>, k: GroupKey): seq<OwnedItem> {
    if |items| == 0 then []
    else Others(items[..|items| - 1], k) + (if KeyOf(items[|items| - 1]) == k then [] else [items[|items| - 1]])
  }

  predicate DistinctItems(items: seq<OwnedItem>) {
    forall i, j | 0 <= i < j < |items| :: items[i].item.account != items[j].item.account
  }

  /** Distinct accounting ids stay distinct in every group. */
  lemma {:induction false} ForKeyDistinct(items: seq<OwnedItem>, k: GroupKey)
    requires DistinctItems(items)
    ensures DistinctItems(ForKey(items, k))
  {
    if |items| > 0 {
      var rest, last := items[..|items| - 1], items[|items| - 1];
      ForKeyDistinct(rest, k);
      forall i | 0 <= i < |ForKey(rest, k)| ensures ForKey(rest, k)[i].item.account != last.item.account {
        ForKeyHolds(rest, k, ForKey(rest, k)[i]);
        var j :| 0 <= j < |rest| && rest[j] == ForKey(rest, k)[i];
        assert items[j] == rest[j];
      }
    }
  }
}
