/** The topology tables: planning a manifest against them and writing the plan row by row. */
module TopologyStore {
  import opened Types
  import opened Tables
  import M = Manifest
  import Doc = ManifestDocument

  /** ManifestPlan: what to upsert and what to retire. */
  datatype Plan = Plan(
    nodes: seq<NodeId>, fleets: seq<FleetId>,
    members: seq<M.MemberKey>, bridges: seq<(M.BridgeKey, M.Bridge)>,
    removedNodes: seq<NodeId>, removedMembers: seq<M.MemberKey>, removedBridges: seq<M.BridgeKey>)

  /** The plan lists exactly the rows of the snapshot and the current rows it leaves out. */
  ghost predicate Represents(plan: Plan, p: M.Projection, s: M.Snapshot) {
    && (forall n :: n in plan.nodes <==> n in s.nodes)
    && (forall f :: f in plan.fleets <==> f in s.fleets)
    && (forall k :: k in plan.members <==> M.HasMember(s, k))
    && (forall k, b :: (k, b) in plan.bridges <==> M.HasBridge(s, k) && M.BridgeAt(s, k) == b)
    && (forall n :: n in plan.removedNodes <==> n in M.RemovedNodes(p, s))
    && (forall k :: k in plan.removedMembers <==> k in M.RemovedMembers(p, s))
    && (forall k :: k in plan.removedBridges <==> k in M.RemovedBridges(p, s))
  }

  // -------------------------------------------------------------- partial upserts

  /** The bridge rows after retiring and after upserting the keys of `done`. */
  function Partly(p: M.Projection, s: M.Snapshot, done: set<M.BridgeKey>): map<M.BridgeKey, M.BridgeRow>
    requires forall k | k in done :: M.HasBridge(s, k)
  {
    var retired := M.RetiredBridges(p.bridges, M.RemovedBridges(p, s));
    map k | k in retired.Keys + done ::
      if k in done then M.UpsertedBridge(retired, k, M.BridgeAt(s, k)) else retired[k]
  }

  /** Retiring first keeps the pair index intact at every point of the write: no two current
      bridges of a fleet ever share an (entry, exit) pair. */
  lemma PartialWriteKeepsPairs(p: M.Projection, s: M.Snapshot, done: set<M.BridgeKey>)
    requires M.Valid(s) && M.KeepsPairs(p, s) && forall k | k in done :: M.HasBridge(s, k)
    ensures M.NoSharedPair(Partly(p, s, done))
  {
    var rows := Partly(p, s, done);
    forall k, l | k in rows && l in rows && k.0 == l.0 && rows[k].current && rows[l].current
      && rows[k].entry == rows[l].entry && rows[k].exit == rows[l].exit
      ensures k == l
    {
      CurrentIsPrescribed(p, s, done, k);
      CurrentIsPrescribed(p, s, done, l);
      assert M.FleetValid(s, s.fleets[k.0]);
    }
  }

  lemma CurrentIsPrescribed(p: M.Projection, s: M.Snapshot, done: set<M.BridgeKey>, k: M.BridgeKey)
    requires M.KeepsPairs(p, s) && (forall x | x in done :: M.HasBridge(s, x))
    requires k in Partly(p, s, done) && Partly(p, s, done)[k].current
    ensures M.HasBridge(s, k)
    ensures Partly(p, s, done)[k].entry == M.BridgeAt(s, k).entry && Partly(p, s, done)[k].exit == M.BridgeAt(s, k).exit
  {
  }

  /** Upserting a new key before its twin is retired would break the index: the order of
      the write matters. */
  lemma UpsertFirstBreaksPairs(p: M.Projection, twin: M.BridgeKey, k: M.BridgeKey, b: M.Bridge)
    requires twin in p.bridges && p.bridges[twin].current && k !in p.bridges && k.0 == twin.0 && k != twin
    requires p.bridges[twin].entry == b.entry && p.bridges[twin].exit == b.exit
    ensures !M.NoSharedPair(p.bridges[k := M.UpsertedBridge(p.bridges, k, b)])
  {
    var rows := p.bridges[k := M.UpsertedBridge(p.bridges, k, b)];
    assert rows[k].current && rows[twin].current;
  }

  lemma PartlyNext(p: M.Projection, s: M.Snapshot, done: set<M.BridgeKey>, k: M.BridgeKey)
    requires (forall x | x in done :: M.HasBridge(s, x)) && M.HasBridge(s, k)
    ensures Partly(p, s, done + {k}) == Partly(p, s, done)[k := M.UpsertedBridge(Partly(p, s, done), k, M.BridgeAt(s, k))]
  {
  }

  lemma DoneKeys(present: seq<(M.BridgeKey, M.Bridge)>, s: M.Snapshot, done: set<M.BridgeKey>)
    requires forall k, b :: (k, b) in present <==> M.HasBridge(s, k) && M.BridgeAt(s, k) == b
    requires forall k :: k in done <==> exists j :: 0 <= j < |present| && present[j].0 == k
    ensures done == M.BridgesOf(s)
  {
    forall k ensures k in done <==> k in M.BridgesOf(s) {
      if M.HasBridge(s, k) {
        assert (k.0, k.1) in M.BridgesOf(s) && (k, M.BridgeAt(s, k)) in present;
        var j :| 0 <= j < |present| && present[j] == (k, M.BridgeAt(s, k));
        assert present[j].0 == k;
      }
      if k in done {
        var j :| 0 <= j < |present| && present[j].0 == k;
        assert (present[j].0, present[j].1) in present;
        assert (k.0, k.1) in M.BridgesOf(s);
      }
    }
  }

  /** flattenFleets, the memberships. */
  method FlattenMembers(d: Doc.Document) returns (members: seq<M.MemberKey>)
    requires Doc.Sound(d)
    ensures forall k :: k in members <==> M.HasMember(Doc.ViewOf(d), k)
  {
    members := [];
    for i := 0 to |d.fleets|
      invariant forall k | k in members :: M.HasMember(Doc.ViewOf(d), k)
      invariant forall x, j | 0 <= x < i && 0 <= j < |d.fleets[x].1.nodes| :: (d.fleets[x].0, d.fleets[x].1.nodes[j]) in members
    {
      var ids := d.fleets[i].1.nodes;
      for j := 0 to |ids|
        invariant forall k | k in members :: M.HasMember(Doc.ViewOf(d), k)
        invariant forall x, y | 0 <= x < i && 0 <= y < |d.fleets[x].1.nodes| :: (d.fleets[x].0, d.fleets[x].1.nodes[y]) in members
        invariant forall y | 0 <= y < j :: (d.fleets[i].0, ids[y]) in members
      {
        Doc.ViewMember(d, i, ids[j]);
        members := members + [(d.fleets[i].0, ids[j])];
      }
    }
    forall k | M.HasMember(Doc.ViewOf(d), k) ensures k in members {
      var i, j := Doc.ViewMemberRow(d, k);
    }
  }

  /** flattenFleets, the bridge routes. */
  method FlattenBridges(d: Doc.Document) returns (bridges: seq<(M.BridgeKey, M.Bridge)>)
    requires Doc.Sound(d)
    ensures forall k, b :: (k, b) in bridges <==> M.HasBridge(Doc.ViewOf(d), k) && M.BridgeAt(Doc.ViewOf(d), k) == b
  {
    bridges := [];
    for i := 0 to |d.fleets|
      invariant forall r | r in bridges :: M.HasBridge(Doc.ViewOf(d), r.0) && M.BridgeAt(Doc.ViewOf(d), r.0) == r.1
      invariant forall x, j | 0 <= x < i && 0 <= j < |d.fleets[x].1.bridges| :: RowAt(d, x, j) in bridges
    {
      var rows := d.fleets[i].1.bridges;
      for j := 0 to |rows|
        invariant forall r | r in bridges :: M.HasBridge(Doc.ViewOf(d), r.0) && M.BridgeAt(Doc.ViewOf(d), r.0) == r.1
        invariant forall x, y | 0 <= x < i && 0 <= y < |d.fleets[x].1.bridges| :: RowAt(d, x, y) in bridges
        invariant forall y | 0 <= y < j :: RowAt(d, i, y) in bridges
      {
        Doc.ViewBridge(d, i, j);
        bridges := bridges + [((d.fleets[i].0, rows[j].0), rows[j].1)];
      }
    }
    forall k | M.HasBridge(Doc.ViewOf(d), k) ensures (k, M.BridgeAt(Doc.ViewOf(d), k)) in bridges {
      var i, j := Doc.ViewBridgeRow(d, k);
      Doc.ViewBridge(d, i, j);
      assert RowAt(d, i, j) in bridges;
    }
  }

  function RowAt(d: Doc.Document, i: nat, j: nat): (M.BridgeKey, M.Bridge)
    requires i < |d.fleets| && j < |d.fleets[i].1.bridges|
  {
    ((d.fleets[i].0, d.fleets[i].1.bridges[j].0), d.fleets[i].1.bridges[j].1)
  }

  /** The keys of a flag table that are current and absent from the snapshot. */
  method CurrentWithout<K(==)>(rows: map<K, bool>, present: set<K>) returns (removed: seq<K>)
    ensures forall k :: k in removed <==> k in rows && rows[k] && k !in present
  {
    removed := [];
    var todo := rows.Keys;
    while todo != {}
      invariant todo <= rows.Keys
      invariant forall k :: k in removed <==> k in rows && k !in todo && rows[k] && k !in present
      decreases todo
    {
      var k :| k in todo;
      if rows[k] && k !in present { removed := removed + [k]; }
      todo := todo - {k};
    }
  }

  /** removedBridges. */
  method CurrentBridgesWithout(rows: map<M.BridgeKey, M.BridgeRow>, present: set<M.BridgeKey>) returns (removed: seq<M.BridgeKey>)
    ensures forall k :: k in removed <==> k in rows && rows[k].current && k !in present
  {
    removed := [];
    var todo := rows.Keys;
    while todo != {}
      invariant todo <= rows.Keys
      invariant forall k :: k in removed <==> k in rows && k !in todo && rows[k].current && k !in present
      decreases todo
    {
      var k :| k in todo;
      if rows[k].current && k !in present { removed := removed + [k]; }
      todo := todo - {k};
    }
  }

  class Store {
    var revision: nat
    var digest: Option<Doc.Document>
    ghost var accepted: Option<Doc.Document>
    var nodes: map<NodeId, bool>
    var fleets: set<FleetId>
    var members: map<M.MemberKey, bool>
    var bridges: map<M.BridgeKey, M.BridgeRow>
    var jobs: set<nat>

    ghost function Projection(): M.Projection
      reads this
    {
      M.Projection(revision, if accepted.Some? then Some(Doc.ViewOf(accepted.value)) else None, nodes, fleets, members, bridges)
    }

    /** The stored digest is that of the last accepted document. */
    ghost predicate Valid()
      reads this
    {
      && M.Consistent(Projection())
      && (accepted.Some? ==> Doc.Sound(accepted.value) && digest == Some(Doc.Canonical(accepted.value)))
      && (accepted.None? ==> digest.None?)
    }

    constructor ()
      ensures Valid() && Projection() == M.Empty && jobs == {}
    {
      revision, digest, accepted := 0, None, None;
      nodes, fleets, members, bridges, jobs := map[], {}, map[], map[], {};
    }

    // --------------------------------------------------------------------- retiring

    method RetireNodes(removed: seq<NodeId>)
      requires forall n | n in removed :: n in nodes
      modifies this`nodes
      ensures nodes == M.RetiredFlags(old(nodes), set n | n in removed)
    {
      for i := 0 to |removed|
        invariant nodes == M.RetiredFlags(old(nodes), set n | n in removed[..i])
      {
        assert removed[i] in removed && removed[..i + 1] == removed[..i] + [removed[i]];
        nodes := nodes[removed[i] := false];
      }
      assert removed[..|removed|] == removed;
    }

    method RetireMembers(removed: seq<M.MemberKey>)
      requires forall k | k in removed :: k in members
      modifies this`members
      ensures members == M.RetiredFlags(old(members), set k | k in removed)
    {
      for i := 0 to |removed|
        invariant members == M.RetiredFlags(old(members), set k | k in removed[..i])
      {
        assert removed[i] in removed && removed[..i + 1] == removed[..i] + [removed[i]];
        members := members[removed[i] := false];
      }
      assert removed[..|removed|] == removed;
    }

    method RetireBridges(removed: seq<M.BridgeKey>)
      requires forall k | k in removed :: k in bridges
      modifies this`bridges
      ensures bridges == M.RetiredBridges(old(bridges), set k | k in removed)
    {
      for i := 0 to |removed|
        invariant bridges == M.RetiredBridges(old(bridges), set k | k in removed[..i])
      {
        assert removed[i] in removed && removed[..i + 1] == removed[..i] + [removed[i]];
        bridges := bridges[removed[i] := bridges[removed[i]].(current := false)];
      }
      assert removed[..|removed|] == removed;
    }

    // -------------------------------------------------------------------- upserting

    method UpsertNodes(present: seq<NodeId>)
      modifies this`nodes
      ensures nodes == map n | n in old(nodes).Keys + (set x | x in present) :: if n in present then true else old(nodes)[n]
    {
      for i := 0 to |present|
        invariant nodes == map n | n in old(nodes).Keys + (set x | x in present[..i]) ::
                    if n in present[..i] then true else old(nodes)[n]
      {
        assert present[..i + 1] == present[..i] + [present[i]];
        nodes := nodes[present[i] := true];
      }
      assert present[..|present|] == present;
    }

    method UpsertMembers(present: seq<M.MemberKey>)
      modifies this`members
      ensures members == map k | k in old(members).Keys + (set x | x in present) :: if k in present then true else old(members)[k]
    {
      for i := 0 to |present|
        invariant members == map k | k in old(members).Keys + (set x | x in present[..i]) ::
                    if k in present[..i] then true else old(members)[k]
      {
        assert present[..i + 1] == present[..i] + [present[i]];
        members := members[present[i] := true];
      }
      assert present[..|present|] == present;
    }

    /** writeBridges after its retirement: whatever the order of the rows, every intermediate
        table satisfies the pair index. */
    method UpsertBridges(present: seq<(M.BridgeKey, M.Bridge)>, ghost p: M.Projection, ghost s: M.Snapshot)
      requires M.Valid(s) && M.KeepsPairs(p, s)
      requires forall k, b :: (k, b) in present <==> M.HasBridge(s, k) && M.BridgeAt(s, k) == b
      requires bridges == Partly(p, s, {})
      modifies this`bridges
      ensures bridges == Partly(p, s, M.BridgesOf(s))
      ensures M.NoSharedPair(bridges)
    {
      ghost var done: set<M.BridgeKey> := {};
      PartialWriteKeepsPairs(p, s, done);
      for i := 0 to |present|
        invariant forall k :: k in done <==> exists j :: 0 <= j < i && present[j].0 == k
        invariant forall k | k in done :: M.HasBridge(s, k)
        invariant bridges == Partly(p, s, done)
        invariant M.NoSharedPair(bridges)
      {
        var k, b := present[i].0, present[i].1;
        assert (k, b) in present;
        PartlyNext(p, s, done, k);
        bridges := bridges[k := M.UpsertedBridge(bridges, k, b)];
        done := done + {k};
        PartialWriteKeepsPairs(p, s, done);
      }
      DoneKeys(present, s, done);
    }
  
    // ----------------------------------------------------------------------- planning

    /** checkBridgePairs. */
    method PairsKept(flat: seq<(M.BridgeKey, M.Bridge)>) returns (kept: bool)
      ensures kept <==> forall r | r in flat && r.0 in bridges :: bridges[r.0].entry == r.1.entry && bridges[r.0].exit == r.1.exit
    {
      for i := 0 to |flat|
        invariant forall r | r in flat[..i] && r.0 in bridges :: bridges[r.0].entry == r.1.entry && bridges[r.0].exit == r.1.exit
      {
        var k, b := flat[i].0, flat[i].1;
        assert flat[..i + 1] == flat[..i] + [flat[i]];
        assert flat[i] in flat;
        if k in bridges && (bridges[k].entry != b.entry || bridges[k].exit != b.exit) { return false; }
      }
      assert flat[..|flat|] == flat;
      return true;
    }

    /** checkAcceptedFleets. */
    method FleetsPresent(d: Doc.Document) returns (present: bool)
      ensures present <==> fleets <= (set i | 0 <= i < |d.fleets| :: d.fleets[i].0)
    {
      var ids: set<FleetId> := {};
      for i := 0 to |d.fleets|
        invariant ids == set x | 0 <= x < i :: d.fleets[x].0
      {
        ids := ids + {d.fleets[i].0};
      }
      present := fleets <= ids;
    }

    /** PlanManifest: the verdict is the specified one, and an accepted plan lists exactly
        what to write. */
    method PlanManifest(d: Doc.Document, revision: nat, allowDestructive: bool) returns (verdict: M.Verdict, plan: Plan)
      requires Valid() && Doc.Sound(d)
      ensures verdict == M.Judge(Projection(), revision, Doc.ViewOf(d), allowDestructive)
      ensures verdict.Accepted? ==> Represents(plan, Projection(), Doc.ViewOf(d))
    {
      ghost var s, p := Doc.ViewOf(d), Projection();
      plan := Plan([], [], [], [], [], [], []);
      if revision == this.revision {
        var same := SameDigest(d);
        return if same then M.Idempotent else M.Refused(M.DigestConflict), plan;
      }
      if revision < this.revision { return M.Refused(M.RevisionRegression), plan; }
      var present := FleetsPresent(d);
      FleetIds(d);
      if !present { return M.Refused(M.FleetMissing), plan; }
      var flatBridges := FlattenBridges(d);
      var kept := PairsKept(flatBridges);
      PairsMean(p, s, flatBridges);
      if !kept { return M.Refused(M.BridgePairImmutable), plan; }
      plan := FlatPlan(d, flatBridges);
      var destructive := |plan.removedNodes| > 0 || |plan.removedMembers| > 0 || |plan.removedBridges| > 0;
      DestructiveMeans(plan, p, s);
      if destructive && !allowDestructive { return M.Refused(M.Destructive), plan; }
      return M.Accepted(destructive), plan;
    }

    /** The digest comparison of checkRevision. */
    method SameDigest(d: Doc.Document) returns (same: bool)
      requires Valid() && Doc.Sound(d)
      ensures same <==> Projection().digest == Some(Doc.ViewOf(d))
    {
      var canonical := Doc.Canonicalize(d);
      same := digest == Some(canonical);
      if accepted.Some? { Doc.CanonicalDecidesEquality(accepted.value, d); }
    }

    /** The rows to upsert and to retire. */
    method FlatPlan(d: Doc.Document, flatBridges: seq<(M.BridgeKey, M.Bridge)>) returns (plan: Plan)
      requires Doc.Sound(d)
      requires forall k, b :: (k, b) in flatBridges <==> M.HasBridge(Doc.ViewOf(d), k) && M.BridgeAt(Doc.ViewOf(d), k) == b
      ensures Represents(plan, Projection(), Doc.ViewOf(d))
    {
      hide M.Judge;
      ghost var s := Doc.ViewOf(d);
      var flatMembers := FlattenMembers(d);
      var nodeIds := seq(|d.nodes|, i requires 0 <= i < |d.nodes| => d.nodes[i].0);
      var fleetIds := seq(|d.fleets|, i requires 0 <= i < |d.fleets| => d.fleets[i].0);
      NodeList(d, nodeIds);
      FleetList(d, fleetIds);
      var removedNodes := CurrentWithout(nodes, set n | n in nodeIds);
      var removedMembers := CurrentWithout(members, set k | k in flatMembers);
      var keys := set r | r in flatBridges :: r.0;
      forall k ensures k in keys <==> M.HasBridge(s, k) {
        if M.HasBridge(s, k) { assert (k, M.BridgeAt(s, k)) in flatBridges; }
        if k in keys {
          var r :| r in flatBridges && r.0 == k;
          assert (r.0, r.1) in flatBridges;
        }
      }
      var removedBridges := CurrentBridgesWithout(bridges, keys);
      plan := Plan(nodeIds, fleetIds, flatMembers, flatBridges, removedNodes, removedMembers, removedBridges);
    }

    // ------------------------------------------------------------------------ writing

    method WriteNodes(plan: Plan, ghost p: M.Projection, ghost s: M.Snapshot, ghost revision: nat)
      requires Represents(plan, p, s) && nodes == p.nodes
      modifies this`nodes
      ensures nodes == M.Projected(p, revision, s).nodes
    {
      RetireNodes(plan.removedNodes);
      UpsertNodes(plan.nodes);
      NodesWritten(plan, p, s, revision, nodes);
    }

    method WriteFleets(plan: Plan, ghost p: M.Projection, ghost s: M.Snapshot, ghost revision: nat)
      requires Represents(plan, p, s) && fleets == p.fleets && members == p.members
      modifies this`fleets, this`members
      ensures fleets == M.Projected(p, revision, s).fleets && members == M.Projected(p, revision, s).members
    {
      fleets := fleets + set f | f in plan.fleets;
      assert (set f | f in plan.fleets) == s.fleets.Keys;
      RetireMembers(plan.removedMembers);
      UpsertMembers(plan.members);
      MembersWritten(plan, p, s, revision, members);
    }

    method WriteBridges(plan: Plan, ghost p: M.Projection, ghost s: M.Snapshot, ghost revision: nat)
      requires M.Valid(s) && M.KeepsPairs(p, s) && Represents(plan, p, s) && bridges == p.bridges
      modifies this`bridges
      ensures bridges == M.Projected(p, revision, s).bridges
    {
      RetireBridges(plan.removedBridges);
      RetiredFirst(plan, p, s, bridges);
      UpsertBridges(plan.bridges, p, s);
      BridgesWritten(p, s, revision);
    }

    /** WritePlan: nodes, fleets and memberships, then bridges; each table retires first. */
    method WritePlan(plan: Plan, d: Doc.Document, revision: nat, ghost q: M.Projection)
      requires Doc.Sound(d) && M.Valid(Doc.ViewOf(d)) && M.KeepsPairs(Projection(), Doc.ViewOf(d))
      requires Represents(plan, Projection(), Doc.ViewOf(d))
      requires q == M.Projected(Projection(), revision, Doc.ViewOf(d)) && M.Consistent(q)
      modifies this
      ensures Valid() && Projection() == q
      ensures jobs == old(jobs) + {revision}
    {
      ghost var p, s := Projection(), Doc.ViewOf(d);
      WriteNodes(plan, p, s, revision);
      WriteFleets(plan, p, s, revision);
      WriteBridges(plan, p, s, revision);
      var canonical := Doc.Canonicalize(d);
      this.revision, digest, accepted := revision, Some(canonical), Some(d);
      jobs := jobs + {revision};
      SameProjection(Projection(), p, s, revision);
    }

    method Accept(plan: Plan, d: Doc.Document, revision: nat, ghost allow: bool)
      requires Valid() && Doc.Sound(d) && M.Valid(Doc.ViewOf(d)) && Represents(plan, Projection(), Doc.ViewOf(d))
      requires M.Judge(Projection(), revision, Doc.ViewOf(d), allow).Accepted?
      modifies this
      ensures Valid() && jobs == old(jobs) + {revision}
      ensures Projection() == Outcome(old(Projection()), d, revision, allow)
    {
      M.AcceptedKeeps(Projection(), revision, Doc.ViewOf(d), allow);
      ghost var q := M.Projected(Projection(), revision, Doc.ViewOf(d));
      AcceptedOutcome(Projection(), d, revision, allow);
      WritePlan(plan, d, revision, q);
    }

    /** ApplyFleetManifest.Execute: a fault, a refusal or a repetition writes nothing. */
    method Apply(d: Doc.Document, revision: nat, allowDestructive: bool) returns (verdict: Option<M.Verdict>)
      requires Valid()
      modifies this
      ensures Valid()
      ensures verdict.None? <==> !Doc.Sound(d)
      ensures verdict.Some? ==> verdict.value == M.Judge(old(Projection()), revision, Doc.ViewOf(d), allowDestructive)
      ensures Projection() == Outcome(old(Projection()), d, revision, allowDestructive)
      ensures jobs == if verdict.Some? && verdict.value.Accepted? then old(jobs) + {revision} else old(jobs)
    {
      var fault := Doc.Validate(d);
      if fault.Some? { return None; }
      Doc.SoundIsValid(d);
      var judged, plan := PlanManifest(d, revision, allowDestructive);
      if judged.Accepted? {
        Accept(plan, d, revision, allowDestructive);
      } else {
        RefusedOutcome(Projection(), d, revision, allowDestructive);
      }
      return Some(judged);
    }
  }

  /** What a submitted document leaves behind: a sound one what its snapshot does. */
  function Outcome(p: M.Projection, d: Doc.Document, revision: nat, allow: bool): M.Projection {
    if Doc.Sound(d) then M.Submitted(p, M.Submission(revision, Doc.ViewOf(d), allow)) else p
  }

  lemma AcceptedOutcome(p: M.Projection, d: Doc.Document, revision: nat, allow: bool)
    requires Doc.Sound(d) && M.Valid(Doc.ViewOf(d)) && M.Judge(p, revision, Doc.ViewOf(d), allow).Accepted?
    ensures Outcome(p, d, revision, allow) == M.Projected(p, revision, Doc.ViewOf(d))
    ensures M.KeepsPairs(p, Doc.ViewOf(d))
  {
  }

  lemma RefusedOutcome(p: M.Projection, d: Doc.Document, revision: nat, allow: bool)
    requires !M.Judge(p, revision, Doc.ViewOf(d), allow).Accepted?
    ensures Outcome(p, d, revision, allow) == p
  {
  }

  // ------------------------------------------------------------------ what the lists mean

  lemma NodeList(d: Doc.Document, ids: seq<NodeId>)
    requires |ids| == |d.nodes| && forall i | 0 <= i < |ids| :: ids[i] == d.nodes[i].0
    ensures forall n :: n in ids <==> n in Doc.ViewOf(d).nodes
  {
    MapKeys(d.nodes);
    forall n ensures n in ids <==> n in Doc.ViewOf(d).nodes {
      if n in Doc.ViewOf(d).nodes {
        var i :| 0 <= i < |d.nodes| && d.nodes[i].0 == n;
        assert ids[i] == n;
      }
    }
  }

  lemma FleetList(d: Doc.Document, ids: seq<FleetId>)
    requires Doc.Sound(d) && |ids| == |d.fleets| && forall i | 0 <= i < |ids| :: ids[i] == d.fleets[i].0
    ensures forall f :: f in ids <==> f in Doc.ViewOf(d).fleets
  {
    Doc.ViewRows(d);
    forall f ensures f in ids <==> f in Doc.ViewOf(d).fleets {
      if f in Doc.ViewOf(d).fleets {
        var i :| 0 <= i < |d.fleets| && d.fleets[i].0 == f;
        assert ids[i] == f;
      }
    }
  }

  lemma FleetIds(d: Doc.Document)
    requires Doc.Sound(d)
    ensures (set i | 0 <= i < |d.fleets| :: d.fleets[i].0) == Doc.ViewOf(d).fleets.Keys
  {
    Doc.ViewRows(d);
  }

  lemma PairsMean(p: M.Projection, s: M.Snapshot, flat: seq<(M.BridgeKey, M.Bridge)>)
    requires forall k, b :: (k, b) in flat <==> M.HasBridge(s, k) && M.BridgeAt(s, k) == b
    ensures M.KeepsPairs(p, s) <==>
              forall r | r in flat && r.0 in p.bridges :: p.bridges[r.0].entry == r.1.entry && p.bridges[r.0].exit == r.1.exit
  {
    if forall r | r in flat && r.0 in p.bridges :: p.bridges[r.0].entry == r.1.entry && p.bridges[r.0].exit == r.1.exit {
      forall k | k in p.bridges && M.HasBridge(s, k)
        ensures p.bridges[k].entry == M.BridgeAt(s, k).entry && p.bridges[k].exit == M.BridgeAt(s, k).exit
      {
        assert (k, M.BridgeAt(s, k)) in flat;
      }
    }
    if M.KeepsPairs(p, s) {
      forall r | r in flat && r.0 in p.bridges ensures p.bridges[r.0].entry == r.1.entry && p.bridges[r.0].exit == r.1.exit {
        assert (r.0, r.1) in flat;
      }
    }
  }

  lemma DestructiveMeans(plan: Plan, p: M.Projection, s: M.Snapshot)
    requires Represents(plan, p, s)
    ensures M.IsDestructive(p, s) <==> |plan.removedNodes| > 0 || |plan.removedMembers| > 0 || |plan.removedBridges| > 0
  {
    assert |plan.removedNodes| > 0 ==> plan.removedNodes[0] in plan.removedNodes;
    assert |plan.removedMembers| > 0 ==> plan.removedMembers[0] in plan.removedMembers;
    assert |plan.removedBridges| > 0 ==> plan.removedBridges[0] in plan.removedBridges;
  }

  lemma RetiredFirst(plan: Plan, p: M.Projection, s: M.Snapshot, rows: map<M.BridgeKey, M.BridgeRow>)
    requires Represents(plan, p, s) && rows == M.RetiredBridges(p.bridges, set k | k in plan.removedBridges)
    ensures rows == Partly(p, s, {})
  {
    assert (set k | k in plan.removedBridges) == M.RemovedBridges(p, s);
  }

  lemma NodesWritten(plan: Plan, p: M.Projection, s: M.Snapshot, revision: nat, nodes: map<NodeId, bool>)
    requires Represents(plan, p, s)
    requires var retired := M.RetiredFlags(p.nodes, set n | n in plan.removedNodes);
             nodes == map n | n in retired.Keys + (set x | x in plan.nodes) :: if n in plan.nodes then true else retired[n]
    ensures nodes == M.Projected(p, revision, s).nodes
  {
    assert (set n | n in plan.removedNodes) == M.RemovedNodes(p, s) && (set x | x in plan.nodes) == s.nodes.Keys;
  }

  lemma MembersWritten(plan: Plan, p: M.Projection, s: M.Snapshot, revision: nat, members: map<M.MemberKey, bool>)
    requires Represents(plan, p, s)
    requires var retired := M.RetiredFlags(p.members, set k | k in plan.removedMembers);
             members == map k | k in retired.Keys + (set x | x in plan.members) :: if k in plan.members then true else retired[k]
    ensures members == M.Projected(p, revision, s).members
  {
    assert (set k | k in plan.removedMembers) == M.RemovedMembers(p, s);
    forall k ensures k in plan.members <==> k in M.MembersOf(s) {
      if M.HasMember(s, k) { assert (k.0, k.1) in M.MembersOf(s); }
    }
    assert (set x | x in plan.members) == M.MembersOf(s);
  }

  lemma BridgesWritten(p: M.Projection, s: M.Snapshot, revision: nat)
    ensures forall k | k in M.BridgesOf(s) :: M.HasBridge(s, k)
    ensures Partly(p, s, M.BridgesOf(s)) == M.Projected(p, revision, s).bridges
  {
  }

  lemma SameProjection(q: M.Projection, p: M.Projection, s: M.Snapshot, revision: nat)
    requires q.revision == revision && q.digest == Some(s)
    requires var r := M.Projected(p, revision, s); q.nodes == r.nodes && q.fleets == r.fleets && q.members == r.members && q.bridges == r.bridges
    ensures q == M.Projected(p, revision, s)
  {
  }
}
