/** Row lists keyed by a number, and the table they stand for. */
module Tables {

  function SetOf<T>(s: seq<T>): set<T> {
    set x | x in s
  }

  predicate DistinctKeys<T>(rows: seq<(nat, T)>) {
    forall i, j | 0 <= i < j < |rows| :: rows[i].0 != rows[j].0
  }

  /** The rows by key; a repeated key keeps its last row. */
  function MapOf<T>(rows: seq<(nat, T)>): map<nat, T> {
    if |rows| == 0 then map[] else MapOf(rows[..|rows| - 1])[rows[|rows| - 1].0 := rows[|rows| - 1].1]
  }

  lemma {:induction false} MapKeys<T>(rows: seq<(nat, T)>)
    ensures forall k :: k in MapOf(rows) <==> exists i :: 0 <= i < |rows| && rows[i].0 == k
  {
    if |rows| > 0 {
      var n := |rows| - 1;
      MapKeys(rows[..n]);
      forall k ensures k in MapOf(rows) <==> exists i :: 0 <= i < |rows| && rows[i].0 == k {
        if k in MapOf(rows[..n]) {
          var i :| 0 <= i < n && rows[..n][i].0 == k;
          assert rows[i].0 == k;
        }
        if i :| 0 <= i < |rows| && rows[i].0 == k {
          if i < n { assert rows[..n][i].0 == k; }
        }
      }
    }
  }

  lemma {:induction false} MapRows<T>(rows: seq<(nat, T)>)
    requires DistinctKeys(rows)
    ensures forall i | 0 <= i < |rows| :: rows[i].0 in MapOf(rows) && MapOf(rows)[rows[i].0] == rows[i].1
    ensures forall k | k in MapOf(rows) :: exists i :: 0 <= i < |rows| && rows[i].0 == k
  {
    MapKeys(rows);
    if |rows| > 0 {
      var n := |rows| - 1;
      MapRows(rows[..n]);
      forall i | 0 <= i < |rows| ensures rows[i].0 in MapOf(rows) && MapOf(rows)[rows[i].0] == rows[i].1 {
        if i < n { assert rows[..n][i] == rows[i]; }
      }
    }
  }
}
