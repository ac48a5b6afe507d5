/** Sorting by a numeric key, and why a sorted list with distinct keys is determined by its
    elements. */
module Sorting {

  predicate Sorted<T>(key: T -> nat, s: seq<T>) {
    forall i, j | 0 <= i < j < |s| :: key(s[i]) <= key(s[j])
  }

  predicate KeysDiffer<T>(key: T -> nat, s: seq<T>) {
    forall i, j | 0 <= i < |s| && 0 <= j < |s| && i != j :: key(s[i]) != key(s[j])
  }

  function Insert<T>(key: T -> nat, x: T, s: seq<T>): seq<T> {
    if |s| == 0 || key(x) <= key(s[0]) then [x] + s else [s[0]] + Insert(key, x, s[1..])
  }

  function Sort<T>(key: T -> nat, s: seq<T>): seq<T> {
    if |s| == 0 then [] else Insert(key, s[0], Sort(key, s[1..]))
  }

  lemma {:induction false} InsertAdds<T>(key: T -> nat, x: T, s: seq<T>)
    ensures multiset(Insert(key, x, s)) == multiset(s) + multiset{x}
  {
    if |s| == 0 || key(x) <= key(s[0]) {
      assert multiset([x] + s) == multiset([x]) + multiset(s);
    } else {
      InsertAdds(key, x, s[1..]);
      assert s == [s[0]] + s[1..];
      assert multiset([s[0]] + Insert(key, x, s[1..])) == multiset([s[0]]) + multiset(Insert(key, x, s[1..]));
    }
  }

  lemma {:induction false} InsertHolds<T>(key: T -> nat, x: T, s: seq<T>, y: T)
    ensures y in Insert(key, x, s) ==> y == x || y in s
  {
    if !(|s| == 0 || key(x) <= key(s[0])) { InsertHolds(key, x, s[1..], y); }
  }

  lemma {:induction false} InsertSorted<T>(key: T -> nat, x: T, s: seq<T>)
    requires Sorted(key, s)
    ensures Sorted(key, Insert(key, x, s))
  {
    if !(|s| == 0 || key(x) <= key(s[0])) {
      var rest := Insert(key, x, s[1..]);
      InsertSorted(key, x, s[1..]);
      forall j | 0 <= j < |rest| ensures key(s[0]) <= key(rest[j]) {
        InsertHolds(key, x, s[1..], rest[j]);
        if rest[j] in s[1..] {
          var i :| 0 <= i < |s[1..]| && s[1..][i] == rest[j];
          assert s[i + 1] == rest[j];
        }
      }
    }
  }

  lemma {:induction false} SortSorts<T>(key: T -> nat, s: seq<T>)
    ensures Sorted(key, Sort(key, s))
    ensures multiset(Sort(key, s)) == multiset(s)
  {
    if |s| > 0 {
      SortSorts(key, s[1..]);
      InsertSorted(key, s[0], Sort(key, s[1..]));
      InsertAdds(key, s[0], Sort(key, s[1..]));
      assert s == [s[0]] + s[1..];
    }
  }

  lemma {:induction false} SameElements<T>(s: seq<T>, t: seq<T>)
    requires multiset(s) == multiset(t)
    ensures |s| == |t|
    ensures forall x :: x in s <==> x in t
  {
    assert |multiset(s)| == |s| && |multiset(t)| == |t|;
    forall x ensures x in s <==> x in t {
      assert x in s <==> x in multiset(s);
      assert x in t <==> x in multiset(t);
    }
  }

  /** Distinct keys stay distinct under sorting. */
  lemma {:induction false} InsertDistinct<T>(key: T -> nat, x: T, s: seq<T>)
    requires KeysDiffer(key, s) && forall i | 0 <= i < |s| :: key(s[i]) != key(x)
    ensures KeysDiffer(key, Insert(key, x, s))
    ensures forall y | y in Insert(key, x, s) :: y == x || y in s
  {
    if !(|s| == 0 || key(x) <= key(s[0])) {
      var rest := Insert(key, x, s[1..]);
      InsertDistinct(key, x, s[1..]);
      forall j | 0 <= j < |rest| ensures key(rest[j]) != key(s[0]) {
        assert rest[j] in rest;
        if rest[j] != x {
          var i :| 0 <= i < |s[1..]| && s[1..][i] == rest[j];
          assert s[i + 1] == rest[j];
        }
      }
    }
  }

  lemma {:induction false} SortDistinct<T>(key: T -> nat, s: seq<T>)
    requires KeysDiffer(key, s)
    ensures KeysDiffer(key, Sort(key, s))
    ensures forall y | y in Sort(key, s) :: y in s
  {
    if |s| > 0 {
      SortDistinct(key, s[1..]);
      forall i | 0 <= i < |Sort(key, s[1..])| ensures key(Sort(key, s[1..])[i]) != key(s[0]) {
        var y := Sort(key, s[1..])[i];
        assert y in s[1..];
        var k :| 0 <= k < |s[1..]| && s[1..][k] == y;
        assert s[k + 1] == y;
      }
      InsertDistinct(key, s[0], Sort(key, s[1..]));
    }
  }

  /** Two sorted lists with distinct keys and the same elements are the same list. */
  lemma {:induction false} SortedIsUnique<T>(key: T -> nat, s: seq<T>, t: seq<T>)
    requires Sorted(key, s) && Sorted(key, t) && KeysDiffer(key, s) && KeysDiffer(key, t)
    requires forall x :: x in s <==> x in t
    ensures s == t
  {
    assert |t| > 0 ==> t[0] in t;
    if |s| > 0 {
      assert s[0] in t;
      var i :| 0 <= i < |t| && t[i] == s[0];
      assert t[0] in s;
      var j :| 0 <= j < |s| && s[j] == t[0];
      assert key(s[0]) <= key(s[j]) && key(t[0]) <= key(t[i]);
      assert i == 0;
      forall x ensures x in s[1..] <==> x in t[1..] {
        Tail(key, s, x);
        Tail(key, t, x);
      }
      SortedIsUnique(key, s[1..], t[1..]);
      assert s == [s[0]] + s[1..] && t == [t[0]] + t[1..];
    }
  }

  lemma Tail<T>(key: T -> nat, s: seq<T>, x: T)
    requires |s| > 0 && KeysDiffer(key, s)
    ensures x in s[1..] <==> x in s && x != s[0]
  {
    if x in s[1..] {
      var i :| 0 <= i < |s[1..]| && s[1..][i] == x;
      assert s[i + 1] == x;
    }
    if x in s && x != s[0] {
      var i :| 0 <= i < |s| && s[i] == x;
      assert s[1..][i - 1] == x;
    }
  }

  lemma DifferInOrder<T(!new)>(key: T -> nat, s: seq<T>, t: seq<T>)
    requires multiset(s) == multiset(t) && KeysDiffer(key, s)
    ensures KeysDiffer(key, t)
  {
    SortDistinctBy(key, s);
    SortDistinctBy(key, t);
    SameElements(s, t);
    assert Single(key, t);
  }

  /** Distinct keys, said without positions. */
  ghost predicate Single<T(!new)>(key: T -> nat, s: seq<T>) {
    forall x, y | x in s && y in s && key(x) == key(y) :: x == y && multiset(s)[x] == 1
  }

  lemma SortDistinctBy<T(!new)>(key: T -> nat, s: seq<T>)
    ensures KeysDiffer(key, s) <==> Single(key, s)
  {
    forall x | x in s && KeysDiffer(key, s) ensures multiset(s)[x] == 1 { Once(key, s, x); }
    forall i, j | Single(key, s) && 0 <= i < |s| && 0 <= j < |s| && i != j ensures key(s[i]) != key(s[j]) {
      if key(s[i]) == key(s[j]) {
        assert s[i] in s && s[j] in s;
        Twice(s, if i < j then i else j, if i < j then j else i);
        assert false;
      }
    }
  }

  lemma {:induction false} Once<T>(key: T -> nat, s: seq<T>, x: T)
    requires KeysDiffer(key, s) && x in s
    ensures multiset(s)[x] == 1
  {
    var i :| 0 <= i < |s| && s[i] == x;
    assert s == s[..i] + [x] + s[i + 1..];
    assert x !in s[..i] && x !in s[i + 1..];
    assert multiset(s) == multiset(s[..i]) + multiset{x} + multiset(s[i + 1..]);
  }

  lemma Twice<T>(s: seq<T>, i: nat, j: nat)
    requires i < j < |s| && s[i] == s[j]
    ensures multiset(s)[s[i]] > 1
  {
    assert s == s[..i] + [s[i]] + s[i + 1..];
    assert s[i + 1..][j - i - 1] == s[i];
    assert s[i] in multiset(s[i + 1..]);
    assert multiset(s) == multiset(s[..i]) + multiset{s[i]} + multiset(s[i + 1..]);
  }

  method InsertBy<T>(key: T -> nat, x: T, s: seq<T>) returns (r: seq<T>)
    requires Sorted(key, s)
    ensures Sorted(key, r) && multiset(r) == multiset(s) + multiset{x}
  {
    var j := |s|;
    while j > 0 && key(s[j - 1]) > key(x)
      invariant 0 <= j <= |s| && forall k | j <= k < |s| :: key(x) < key(s[k])
    {
      j := j - 1;
    }
    r := s[..j] + [x] + s[j..];
    InsertedAt(key, x, s, j);
  }

  lemma InsertedAt<T>(key: T -> nat, x: T, s: seq<T>, j: nat)
    requires Sorted(key, s) && j <= |s| && (j > 0 ==> key(s[j - 1]) <= key(x)) && forall k | j <= k < |s| :: key(x) < key(s[k])
    ensures Sorted(key, s[..j] + [x] + s[j..]) && multiset(s[..j] + [x] + s[j..]) == multiset(s) + multiset{x}
  {
    StaysSorted(key, x, s, j);
    PutBetween(s[..j], x, s[j..]);
    assert s == s[..j] + s[j..];
  }

  lemma PutBetween<T>(a: seq<T>, x: T, b: seq<T>)
    ensures multiset(a + [x] + b) == multiset(a + b) + multiset{x}
  {
    calc {
      multiset(a + [x] + b);
      multiset(a) + multiset{x} + multiset(b);
      multiset(a) + multiset(b) + multiset{x};
      multiset(a + b) + multiset{x};
    }
  }

  lemma StaysSorted<T>(key: T -> nat, x: T, s: seq<T>, j: nat)
    requires Sorted(key, s) && j <= |s| && (j > 0 ==> key(s[j - 1]) <= key(x)) && forall k | j <= k < |s| :: key(x) < key(s[k])
    ensures Sorted(key, s[..j] + [x] + s[j..])
  {
    var r := s[..j] + [x] + s[j..];
    forall i | 0 <= i < |r| ensures r[i] == (if i < j then s[i] else if i == j then x else s[i - 1]) {
    }
    forall i | 0 <= i < j ensures key(s[i]) <= key(x) {
      assert key(s[i]) <= key(s[j - 1]);
    }
  }

  /** Insertion sort; with distinct keys its result is the only sorted list there is. */
  method SortBy<T(!new)>(key: T -> nat, s: seq<T>) returns (r: seq<T>)
    ensures Sorted(key, r) && multiset(r) == multiset(s)
    ensures KeysDiffer(key, s) ==> r == Sort(key, s)
  {
    r := [];
    for i := 0 to |s|
      invariant Sorted(key, r) && multiset(r) == multiset(s[..i])
    {
      r := InsertBy(key, s[i], r);
      assert s[..i + 1] == s[..i] + [s[i]];
    }
    assert s[..|s|] == s;
    if KeysDiffer(key, s) { OnlySorted(key, s, r); }
  }

  lemma OnlySorted<T(!new)>(key: T -> nat, s: seq<T>, r: seq<T>)
    requires Sorted(key, r) && multiset(r) == multiset(s) && KeysDiffer(key, s)
    ensures r == Sort(key, s)
  {
    SortSorts(key, s);
    DifferInOrder(key, s, r);
    DifferInOrder(key, s, Sort(key, s));
    SameElements(r, s);
    SameElements(Sort(key, s), s);
    SortedIsUnique(key, r, Sort(key, s));
  }
}
