/** The manifest as it is received: lists in any order.  Validation, and the canonical form
    that decides whether two submissions are the same. */
module ManifestDocument {
  import opened Types
  import opened Tables
  import opened Sorting
  import M = Manifest

  type NodeSpec = (NodeId, string)

  type BridgeSpec = (RoutingKey, M.Bridge)

  datatype FleetSpec = FleetSpec(nodes: seq<NodeId>, bridges: seq<BridgeSpec>)

  datatype Document = Document(schema: nat, nodes: seq<NodeSpec>, fleets: seq<(FleetId, FleetSpec)>)

  // -------------------------------------------------------------- the snapshot it states

  function FleetView(f: FleetSpec): M.Fleet {
    M.Fleet(SetOf(f.nodes), MapOf(f.bridges))
  }

  function FleetViews(fleets: seq<(FleetId, FleetSpec)>): seq<(FleetId, M.Fleet)> {
    seq(|fleets|, i requires 0 <= i < |fleets| => (fleets[i].0, FleetView(fleets[i].1)))
  }

  function ViewOf(d: Document): M.Snapshot {
    M.Snapshot(d.schema, MapOf(d.nodes), MapOf(FleetViews(d.fleets)))
  }

  // ------------------------------------------------------------------------ validation

  predicate DistinctNodes(nodes: seq<NodeId>) {
    forall i, j | 0 <= i < j < |nodes| :: nodes[i] != nodes[j]
  }

  predicate DistinctPairs(bridges: seq<BridgeSpec>) {
    forall i, j | 0 <= i < j < |bridges| ::
      !(bridges[i].1.entry == bridges[j].1.entry && bridges[i].1.exit == bridges[j].1.exit)
  }

  predicate BridgeSound(b: M.Bridge, members: set<NodeId>) {
    b.entry != b.exit && b.entry in members && b.exit in members
  }

  predicate FleetSound(f: FleetSpec, known: set<NodeId>) {
    && (forall n | n in f.nodes :: n in known) && DistinctNodes(f.nodes)
    && DistinctKeys(f.bridges) && DistinctPairs(f.bridges)
    && (forall i | 0 <= i < |f.bridges| :: BridgeSound(f.bridges[i].1, SetOf(f.nodes)))
  }

  predicate Sound(d: Document) {
    && DistinctKeys(d.nodes) && DistinctKeys(d.fleets)
    && (forall i | 0 <= i < |d.fleets| :: d.fleets[i].0 > 0 && FleetSound(d.fleets[i].1, MapOf(d.nodes).Keys))
  }

  datatype Error = Duplicate | UnknownNode | BridgeInvalid

  datatype Checked<T> = Fine(value: T) | Faulty(error: Error)

  /** validateManifestNodes: the known ids, or the first repetition. */
  method ValidateNodes(nodes: seq<NodeSpec>) returns (r: Checked<set<NodeId>>)
    ensures r.Fine? <==> DistinctKeys(nodes)
    ensures r.Fine? ==> r.value == MapOf(nodes).Keys
    ensures r.Faulty? ==> r.error.Duplicate?
  {
    var known: set<NodeId> := {};
    for i := 0 to |nodes|
      invariant DistinctKeys(nodes[..i]) && known == MapOf(nodes[..i]).Keys
    {
      MapKeys(nodes[..i]);
      assert nodes[..i + 1][..i] == nodes[..i];
      if nodes[i].0 in known {
        ghost var j :| 0 <= j < i && nodes[..i][j].0 == nodes[i].0;
        assert nodes[j].0 == nodes[i].0;
        return Faulty(Duplicate);
      }
      known := known + {nodes[i].0};
    }
    assert nodes[..|nodes|] == nodes;
    return Fine(known);
  }

  /** validateFleetMembers. */
  method ValidateMembers(nodes: seq<NodeId>, known: set<NodeId>) returns (r: Checked<set<NodeId>>)
    ensures r.Fine? <==> DistinctNodes(nodes) && forall n | n in nodes :: n in known
    ensures r.Fine? ==> r.value == SetOf(nodes)
    ensures r.Faulty? ==> r.error.Duplicate? || r.error.UnknownNode?
  {
    var members: set<NodeId> := {};
    for i := 0 to |nodes|
      invariant DistinctNodes(nodes[..i]) && members == SetOf(nodes[..i])
      invariant forall n | n in nodes[..i] :: n in known
    {
      assert nodes[..i + 1] == nodes[..i] + [nodes[i]];
      assert nodes[i] in nodes;
      if nodes[i] !in known { return Faulty(UnknownNode); }
      if nodes[i] in members {
        ghost var j :| 0 <= j < i && nodes[..i][j] == nodes[i];
        assert nodes[j] == nodes[i];
        return Faulty(Duplicate);
      }
      members := members + {nodes[i]};
    }
    assert nodes[..|nodes|] == nodes;
    return Fine(members);
  }

  predicate BridgesSound(bridges: seq<BridgeSpec>, members: set<NodeId>) {
    DistinctKeys(bridges) && DistinctPairs(bridges) && forall i | 0 <= i < |bridges| :: BridgeSound(bridges[i].1, members)
  }

  /** validateFleetBridges: None when every rule holds. */
  method ValidateBridges(bridges: seq<BridgeSpec>, known: set<NodeId>, members: set<NodeId>) returns (fault: Option<Error>)
    requires members <= known
    ensures fault.None? <==> BridgesSound(bridges, members)
  {
    var keys: set<RoutingKey> := {};
    var pairs: set<(NodeId, NodeId)> := {};
    for i := 0 to |bridges|
      invariant BridgesSound(bridges[..i], members)
      invariant forall r :: r in keys <==> exists j :: 0 <= j < i && bridges[j].0 == r
      invariant forall p :: p in pairs <==> exists j :: 0 <= j < i && p == (bridges[j].1.entry, bridges[j].1.exit)
    {
      var b := bridges[i].1;
      if bridges[i].0 in keys { return Some(Duplicate); }
      keys := keys + {bridges[i].0};
      if b.entry == b.exit { return Some(BridgeInvalid); }
      if b.entry !in known { return Some(UnknownNode); }
      if b.entry !in members { return Some(BridgeInvalid); }
      if b.exit !in known { return Some(UnknownNode); }
      if b.exit !in members { return Some(BridgeInvalid); }
      if (b.entry, b.exit) in pairs { return Some(Duplicate); }
      pairs := pairs + {(b.entry, b.exit)};
    }
    assert bridges[..|bridges|] == bridges;
    return None;
  }

  /** ValidateManifest, without the string formats and size limits: nothing is reported
      exactly for the documents that state a valid snapshot. */
  method Validate(d: Document) returns (fault: Option<Error>)
    ensures fault.None? <==> Sound(d)
  {
    var known := ValidateNodes(d.nodes);
    if known.Faulty? { return Some(known.error); }
    var seen: set<FleetId> := {};
    for i := 0 to |d.fleets|
      invariant DistinctKeys(d.fleets[..i])
      invariant forall f :: f in seen <==> exists j :: 0 <= j < i && d.fleets[j].0 == f
      invariant forall j | 0 <= j < i :: d.fleets[j].0 > 0 && FleetSound(d.fleets[j].1, known.value)
    {
      var f := d.fleets[i].1;
      if d.fleets[i].0 == 0 { return Some(Duplicate); }
      if d.fleets[i].0 in seen { return Some(Duplicate); }
      seen := seen + {d.fleets[i].0};
      var members := ValidateMembers(f.nodes, known.value);
      if members.Faulty? { return Some(members.error); }
      var bad := ValidateBridges(f.bridges, known.value, members.value);
      if bad.Some? { return bad; }
    }
    assert d.fleets[..|d.fleets|] == d.fleets;
    return None;
  }

  /** A sound document states a valid snapshot. */
  lemma SoundIsValid(d: Document)
    requires Sound(d)
    ensures M.Valid(ViewOf(d))
  {
    var views := FleetViews(d.fleets);
    MapRows(views);
    forall f | f in ViewOf(d).fleets ensures f > 0 && M.FleetValid(ViewOf(d), ViewOf(d).fleets[f]) {
      var i :| 0 <= i < |views| && views[i].0 == f;
      assert views[i] == (d.fleets[i].0, FleetView(d.fleets[i].1));
      FleetIsValid(d.fleets[i].1, ViewOf(d));
    }
  }

  lemma FleetIsValid(f: FleetSpec, s: M.Snapshot)
    requires FleetSound(f, s.nodes.Keys)
    ensures M.FleetValid(s, FleetView(f))
  {
    MapRows(f.bridges);
    var bridges := MapOf(f.bridges);
    forall r, q | r in bridges && q in bridges && bridges[r].entry == bridges[q].entry && bridges[r].exit == bridges[q].exit
      ensures r == q
    {
      var i :| 0 <= i < |f.bridges| && f.bridges[i].0 == r;
      var j :| 0 <= j < |f.bridges| && f.bridges[j].0 == q;
      assert f.bridges[i].1 == bridges[r] && f.bridges[j].1 == bridges[q];
    }
    forall r | r in bridges ensures BridgeSound(bridges[r], FleetView(f).nodes) {
      var i :| 0 <= i < |f.bridges| && f.bridges[i].0 == r;
      assert f.bridges[i].1 == bridges[r];
    }
  }

  // --------------------------------------------------------------------- canonical form

  function RowKey<T>(row: (nat, T)): nat { row.0 }

  function Itself(n: nat): nat { n }

  function CanonicalFleet(f: FleetSpec): FleetSpec {
    FleetSpec(Sort(Itself, f.nodes), Sort(RowKey, f.bridges))
  }

  function CanonicalFleets(fleets: seq<(FleetId, FleetSpec)>): seq<(FleetId, FleetSpec)> {
    seq(|fleets|, i requires 0 <= i < |fleets| => (fleets[i].0, CanonicalFleet(fleets[i].1)))
  }

  /** canonicalize: every list sorted by its key. */
  function Canonical(d: Document): Document {
    Document(d.schema, Sort(RowKey, d.nodes), Sort(RowKey, CanonicalFleets(d.fleets)))
  }

  /** canonicalNodeIDs and canonicalBridges. */
  method CanonicalizeFleet(f: FleetSpec) returns (c: FleetSpec)
    ensures DistinctNodes(f.nodes) && DistinctKeys(f.bridges) ==> c == CanonicalFleet(f)
  {
    var nodes := SortBy(Itself, f.nodes);
    var bridges := SortBy(RowKey, f.bridges);
    c := FleetSpec(nodes, bridges);
  }

  /** The loops and in-place sorts give the canonical form of a sound document. */
  method Canonicalize(d: Document) returns (c: Document)
    ensures Sound(d) ==> c == Canonical(d)
  {
    var fleets: seq<(FleetId, FleetSpec)> := [];
    for i := 0 to |d.fleets|
      invariant |fleets| == i
      invariant Sound(d) ==> forall j | 0 <= j < i :: fleets[j] == (d.fleets[j].0, CanonicalFleet(d.fleets[j].1))
    {
      var fleet := CanonicalizeFleet(d.fleets[i].1);
      fleets := fleets + [(d.fleets[i].0, fleet)];
    }
    if Sound(d) { assert fleets == CanonicalFleets(d.fleets); }
    var nodes := SortBy(RowKey, d.nodes);
    fleets := SortBy(RowKey, fleets);
    c := Document(d.schema, nodes, fleets);
  }

  lemma RowsDiffer<T>(rows: seq<(nat, T)>)
    ensures DistinctKeys(rows) <==> KeysDiffer(RowKey, rows)
  {
  }

  /** Sorting forgets the order and nothing else. */
  lemma SortDecides<T>(key: T -> nat, a: seq<T>, b: seq<T>)
    requires KeysDiffer(key, a) && KeysDiffer(key, b)
    ensures Sort(key, a) == Sort(key, b) <==> forall x :: x in a <==> x in b
  {
    SortSorts(key, a);
    SortSorts(key, b);
    SortDistinct(key, a);
    SortDistinct(key, b);
    SameElements(Sort(key, a), a);
    SameElements(Sort(key, b), b);
    if forall x :: x in a <==> x in b {
      SortedIsUnique(key, Sort(key, a), Sort(key, b));
    }
  }

  /** A table is decided by its rows. */
  lemma MapDecides<T>(a: seq<(nat, T)>, b: seq<(nat, T)>)
    requires DistinctKeys(a) && DistinctKeys(b)
    ensures MapOf(a) == MapOf(b) <==> forall x :: x in a <==> x in b
  {
    MapRows(a);
    MapRows(b);
    if MapOf(a) == MapOf(b) {
      forall x ensures x in a <==> x in b {
        InTable(a, x);
        InTable(b, x);
      }
    }
    if forall x :: x in a <==> x in b {
      forall k ensures k in MapOf(a) <==> k in MapOf(b)
               ensures k in MapOf(a) ==> k in MapOf(b) && MapOf(a)[k] == MapOf(b)[k] {
        if k in MapOf(a) { InTable(a, (k, MapOf(a)[k])); InTable(b, (k, MapOf(a)[k])); }
        if k in MapOf(b) { InTable(b, (k, MapOf(b)[k])); InTable(a, (k, MapOf(b)[k])); }
      }
    }
  }

  lemma InTable<T>(rows: seq<(nat, T)>, x: (nat, T))
    requires DistinctKeys(rows)
    ensures x in rows <==> x.0 in MapOf(rows) && MapOf(rows)[x.0] == x.1
  {
    MapRows(rows);
    if x in rows {
      var i :| 0 <= i < |rows| && rows[i] == x;
    }
    if x.0 in MapOf(rows) && MapOf(rows)[x.0] == x.1 {
      var i :| 0 <= i < |rows| && rows[i].0 == x.0;
      assert rows[i] == x;
    }
  }

  lemma FleetDecides(f: FleetSpec, g: FleetSpec)
    requires DistinctNodes(f.nodes) && DistinctNodes(g.nodes) && DistinctKeys(f.bridges) && DistinctKeys(g.bridges)
    ensures CanonicalFleet(f) == CanonicalFleet(g) <==> FleetView(f) == FleetView(g)
  {
    SortDecides(Itself, f.nodes, g.nodes);
    RowsDiffer(f.bridges);
    RowsDiffer(g.bridges);
    SortDecides(RowKey, f.bridges, g.bridges);
    MapDecides(f.bridges, g.bridges);
    NodesDecide(f.nodes, g.nodes);
    assert FleetView(f) == FleetView(g) <==> SetOf(f.nodes) == SetOf(g.nodes) && MapOf(f.bridges) == MapOf(g.bridges);
  }

  lemma NodesDecide(a: seq<NodeId>, b: seq<NodeId>)
    ensures SetOf(a) == SetOf(b) <==> forall x :: x in a <==> x in b
  {
    assert forall x :: x in a <==> x in SetOf(a);
    assert forall x :: x in b <==> x in SetOf(b);
    if forall x :: x in a <==> x in b {
      assert SetOf(a) == SetOf(b);
    }
    if SetOf(a) == SetOf(b) {
      forall x ensures x in a <==> x in b {
        assert x in a <==> x in SetOf(a);
        assert x in b <==> x in SetOf(b);
      }
    }
  }

  /** Mapping both lists by functions that identify the same rows keeps the comparison. */
  lemma FleetsDecide(a: seq<(FleetId, FleetSpec)>, b: seq<(FleetId, FleetSpec)>)
    requires FleetsSound(a) && FleetsSound(b)
    ensures (forall x :: x in CanonicalFleets(a) <==> x in CanonicalFleets(b))
       <==> (forall x :: x in FleetViews(a) <==> x in FleetViews(b))
  {
    if forall x :: x in CanonicalFleets(a) <==> x in CanonicalFleets(b) {
      forall x ensures x in FleetViews(a) <==> x in FleetViews(b) {
        if x in FleetViews(a) { ViewFollows(a, b, x); }
        if x in FleetViews(b) { ViewFollows(b, a, x); }
      }
    }
    if forall x :: x in FleetViews(a) <==> x in FleetViews(b) {
      forall x ensures x in CanonicalFleets(a) <==> x in CanonicalFleets(b) {
        if x in CanonicalFleets(a) { CanonicalFollows(a, b, x); }
        if x in CanonicalFleets(b) { CanonicalFollows(b, a, x); }
      }
    }
  }

  predicate FleetsSound(fleets: seq<(FleetId, FleetSpec)>) {
    && DistinctKeys(fleets)
    && forall i | 0 <= i < |fleets| :: DistinctNodes(fleets[i].1.nodes) && DistinctKeys(fleets[i].1.bridges)
  }

  lemma ViewFollows(a: seq<(FleetId, FleetSpec)>, b: seq<(FleetId, FleetSpec)>, x: (FleetId, M.Fleet))
    requires FleetsSound(a) && FleetsSound(b) && x in FleetViews(a)
    requires forall y :: y in CanonicalFleets(a) ==> y in CanonicalFleets(b)
    ensures x in FleetViews(b)
  {
    var i :| 0 <= i < |a| && FleetViews(a)[i] == x;
    assert CanonicalFleets(a)[i] in CanonicalFleets(b);
    var j :| 0 <= j < |b| && CanonicalFleets(b)[j] == CanonicalFleets(a)[i];
    FleetDecides(a[i].1, b[j].1);
    assert FleetViews(b)[j] == x;
  }

  lemma CanonicalFollows(a: seq<(FleetId, FleetSpec)>, b: seq<(FleetId, FleetSpec)>, x: (FleetId, FleetSpec))
    requires FleetsSound(a) && FleetsSound(b) && x in CanonicalFleets(a)
    requires forall y :: y in FleetViews(a) ==> y in FleetViews(b)
    ensures x in CanonicalFleets(b)
  {
    var i :| 0 <= i < |a| && CanonicalFleets(a)[i] == x;
    assert FleetViews(a)[i] in FleetViews(b);
    var j :| 0 <= j < |b| && FleetViews(b)[j] == FleetViews(a)[i];
    FleetDecides(a[i].1, b[j].1);
    assert CanonicalFleets(b)[j] == x;
  }

  lemma RowsDecide<T>(a: seq<(nat, T)>, b: seq<(nat, T)>)
    requires DistinctKeys(a) && DistinctKeys(b)
    ensures Sort(RowKey, a) == Sort(RowKey, b) <==> MapOf(a) == MapOf(b)
  {
    RowsDiffer(a);
    RowsDiffer(b);
    SortDecides(RowKey, a, b);
    MapDecides(a, b);
  }

  lemma FleetListsDecide(a: seq<(FleetId, FleetSpec)>, b: seq<(FleetId, FleetSpec)>)
    requires FleetsSound(a) && FleetsSound(b)
    ensures Sort(RowKey, CanonicalFleets(a)) == Sort(RowKey, CanonicalFleets(b)) <==> MapOf(FleetViews(a)) == MapOf(FleetViews(b))
  {
    RowsDiffer(CanonicalFleets(a));
    RowsDiffer(CanonicalFleets(b));
    SortDecides(RowKey, CanonicalFleets(a), CanonicalFleets(b));
    MapDecides(FleetViews(a), FleetViews(b));
    FleetsDecide(a, b);
  }

  /** For sound documents the canonical forms agree exactly when the snapshots do: the same
      schema version, nodes, fleets, members and bridges, whatever the list order. */
  lemma CanonicalDecidesEquality(a: Document, b: Document)
    requires Sound(a) && Sound(b)
    ensures Canonical(a) == Canonical(b) <==> ViewOf(a) == ViewOf(b)
  {
    RowsDecide(a.nodes, b.nodes);
    FleetListsDecide(a.fleets, b.fleets);
  }

  // --------------------------------------------------------------- reading the snapshot

  /** What the snapshot of a sound document contains, row by row. */
  lemma ViewRows(d: Document)
    requires Sound(d)
    ensures forall i | 0 <= i < |d.fleets| ::
              d.fleets[i].0 in ViewOf(d).fleets && ViewOf(d).fleets[d.fleets[i].0] == FleetView(d.fleets[i].1)
    ensures forall f | f in ViewOf(d).fleets :: exists i :: 0 <= i < |d.fleets| && d.fleets[i].0 == f
  {
    var views := FleetViews(d.fleets);
    MapRows(views);
    forall i | 0 <= i < |d.fleets|
      ensures d.fleets[i].0 in ViewOf(d).fleets && ViewOf(d).fleets[d.fleets[i].0] == FleetView(d.fleets[i].1)
    {
      assert views[i] == (d.fleets[i].0, FleetView(d.fleets[i].1));
    }
    forall f | f in ViewOf(d).fleets ensures exists i :: 0 <= i < |d.fleets| && d.fleets[i].0 == f {
      var i :| 0 <= i < |views| && views[i].0 == f;
      assert d.fleets[i].0 == f;
    }
  }

  lemma ViewMember(d: Document, i: nat, n: NodeId)
    requires Sound(d) && i < |d.fleets|
    ensures M.HasMember(ViewOf(d), (d.fleets[i].0, n)) <==> n in d.fleets[i].1.nodes
  {
    ViewRows(d);
  }

  lemma ViewBridge(d: Document, i: nat, j: nat)
    requires Sound(d) && i < |d.fleets| && j < |d.fleets[i].1.bridges|
    ensures var k := (d.fleets[i].0, d.fleets[i].1.bridges[j].0);
            M.HasBridge(ViewOf(d), k) && M.BridgeAt(ViewOf(d), k) == d.fleets[i].1.bridges[j].1
  {
    ViewRows(d);
    MapRows(d.fleets[i].1.bridges);
  }

  lemma ViewBridgeRow(d: Document, k: M.BridgeKey) returns (i: nat, j: nat)
    requires Sound(d) && M.HasBridge(ViewOf(d), k)
    ensures i < |d.fleets| && j < |d.fleets[i].1.bridges| && k == (d.fleets[i].0, d.fleets[i].1.bridges[j].0)
  {
    ViewRows(d);
    i :| 0 <= i < |d.fleets| && d.fleets[i].0 == k.0;
    MapRows(d.fleets[i].1.bridges);
    j :| 0 <= j < |d.fleets[i].1.bridges| && d.fleets[i].1.bridges[j].0 == k.1;
  }

  lemma ViewMemberRow(d: Document, k: M.MemberKey) returns (i: nat, j: nat)
    requires Sound(d) && M.HasMember(ViewOf(d), k)
    ensures i < |d.fleets| && j < |d.fleets[i].1.nodes| && k == (d.fleets[i].0, d.fleets[i].1.nodes[j])
  {
    ViewRows(d);
    i :| 0 <= i < |d.fleets| && d.fleets[i].0 == k.0;
    j :| 0 <= j < |d.fleets[i].1.nodes| && d.fleets[i].1.nodes[j] == k.1;
  }
}
