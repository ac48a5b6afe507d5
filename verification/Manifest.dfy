/** The fleet manifest: which snapshots are accepted and what the stored projection then is. */
module Manifest {
  import opened Types
  import opened Targets

  /** A bridge route as the manifest states it. */
  datatype Bridge = Bridge(entry: NodeId, exit: NodeId, egress: Egress, name: string)

  datatype Fleet = Fleet(nodes: set<NodeId>, bridges: map<RoutingKey, Bridge>)

  /** A snapshot without list order and without its revision: what the digest covers. */
  datatype Snapshot = Snapshot(schema: nat, nodes: map<NodeId, string>, fleets: map<FleetId, Fleet>)

  /** A row of vpn_bridge_routes; rows that left the manifest stay with current = false. */
  datatype BridgeRow = BridgeRow(entry: NodeId, exit: NodeId, egress: Egress, current: bool)

  type MemberKey = (FleetId, NodeId)
  type BridgeKey = (FleetId, RoutingKey)

  /** The stored projection and the last accepted revision with its digest; SHA-256 is taken
      to be injective, so the digest is the snapshot itself. */
  datatype Projection = Projection(
    revision: nat, digest: Option<Snapshot>,
    nodes: map<NodeId, bool>, fleets: set<FleetId>,
    members: map<MemberKey, bool>, bridges: map<BridgeKey, BridgeRow>)

  const Empty := Projection(0, None, map[], {}, map[], map[])

  datatype Error = DigestConflict | RevisionRegression | FleetMissing | BridgePairImmutable | Destructive

  datatype Verdict = Refused(error: Error) | Idempotent | Accepted(destructive: bool)

  // ------------------------------------------------------------------ validation

  predicate FleetValid(s: Snapshot, f: Fleet) {
    && f.nodes <= s.nodes.Keys
    && (forall r | r in f.bridges ::
          f.bridges[r].entry != f.bridges[r].exit && f.bridges[r].entry in f.nodes && f.bridges[r].exit in f.nodes)
    && (forall r, q | r in f.bridges && q in f.bridges
          && f.bridges[r].entry == f.bridges[q].entry && f.bridges[r].exit == f.bridges[q].exit :: r == q)
  }

  /** The uniqueness and reference rules of ValidateManifest. */
  predicate Valid(s: Snapshot) {
    forall f | f in s.fleets :: f > 0 && FleetValid(s, s.fleets[f])
  }

  // -------------------------------------------------------------------- planning

  predicate HasMember(s: Snapshot, k: MemberKey) {
    k.0 in s.fleets && k.1 in s.fleets[k.0].nodes
  }

  predicate HasBridge(s: Snapshot, k: BridgeKey) {
    k.0 in s.fleets && k.1 in s.fleets[k.0].bridges
  }

  function BridgeAt(s: Snapshot, k: BridgeKey): Bridge
    requires HasBridge(s, k)
  {
    s.fleets[k.0].bridges[k.1]
  }

  function RemovedNodes(p: Projection, s: Snapshot): set<NodeId> {
    set n | n in p.nodes && p.nodes[n] && n !in s.nodes
  }

  function RemovedMembers(p: Projection, s: Snapshot): set<MemberKey> {
    set k | k in p.members && p.members[k] && !HasMember(s, k)
  }

  function RemovedBridges(p: Projection, s: Snapshot): set<BridgeKey> {
    set k | k in p.bridges && p.bridges[k].current && !HasBridge(s, k)
  }

  /** checkBridgePairs: a routing key keeps its pair for good, removed rows included. */
  predicate KeepsPairs(p: Projection, s: Snapshot) {
    forall k | k in p.bridges && HasBridge(s, k) ::
      p.bridges[k].entry == BridgeAt(s, k).entry && p.bridges[k].exit == BridgeAt(s, k).exit
  }

  predicate IsDestructive(p: Projection, s: Snapshot) {
    RemovedNodes(p, s) != {} || RemovedMembers(p, s) != {} || RemovedBridges(p, s) != {}
  }

  /** PlanManifest. */
  function Judge(p: Projection, revision: nat, s: Snapshot, allowDestructive: bool): Verdict {
    if revision == p.revision then (if p.digest == Some(s) then Idempotent else Refused(DigestConflict))
    else if revision < p.revision then Refused(RevisionRegression)
    else if !(p.fleets <= s.fleets.Keys) then Refused(FleetMissing)
    else if !KeepsPairs(p, s) then Refused(BridgePairImmutable)
    else if IsDestructive(p, s) && !allowDestructive then Refused(Destructive)
    else Accepted(IsDestructive(p, s))
  }

  // --------------------------------------------------------------------- writing

  /** RetireNodes, RetireFleetNodes, RetireBridgeRoutes on one table each. */
  function RetiredFlags<K>(rows: map<K, bool>, removed: set<K>): map<K, bool> {
    map k | k in rows :: if k in removed then false else rows[k]
  }

  function RetiredBridges(rows: map<BridgeKey, BridgeRow>, removed: set<BridgeKey>): map<BridgeKey, BridgeRow> {
    map k | k in rows :: if k in removed then rows[k].(current := false) else rows[k]
  }

  /** UpsertBridgeRoute on one row: a conflict leaves the stored pair alone. */
  function UpsertedBridge(rows: map<BridgeKey, BridgeRow>, k: BridgeKey, b: Bridge): BridgeRow {
    if k in rows then rows[k].(egress := b.egress, current := true)
    else BridgeRow(b.entry, b.exit, b.egress, true)
  }

  function MembersOf(s: Snapshot): set<MemberKey> {
    set f, n | f in s.fleets && n in s.fleets[f].nodes :: (f, n)
  }

  function BridgesOf(s: Snapshot): set<BridgeKey> {
    set f, r | f in s.fleets && r in s.fleets[f].bridges :: (f, r)
  }

  /** WritePlan: every table is first retired, then upserted. */
  function Projected(p: Projection, revision: nat, s: Snapshot): Projection {
    var nodes := RetiredFlags(p.nodes, RemovedNodes(p, s));
    var members := RetiredFlags(p.members, RemovedMembers(p, s));
    var bridges := RetiredBridges(p.bridges, RemovedBridges(p, s));
    Projection(
      revision, Some(s),
      map n | n in nodes.Keys + s.nodes.Keys :: if n in s.nodes then true else nodes[n],
      p.fleets + s.fleets.Keys,
      map k | k in members.Keys + MembersOf(s) :: if k in MembersOf(s) then true else members[k],
      map k | k in bridges.Keys + BridgesOf(s) ::
        if k in BridgesOf(s) then UpsertedBridge(bridges, k, BridgeAt(s, k)) else bridges[k])
  }

  // --------------------------------------------------------------------- reading

  function CurrentNodes(p: Projection): set<NodeId> {
    set n | n in p.nodes && p.nodes[n]
  }

  predicate CurrentBridge(p: Projection, k: BridgeKey) {
    k in p.bridges && p.bridges[k].current
  }

  /** LoadTopology: the current nodes and bridge routes of one fleet. */
  function TopologyAt(p: Projection, f: FleetId): Topology {
    Topology(
      set k | k in p.members && k.0 == f && p.members[k] :: k.1,
      map k | k in p.bridges && k.0 == f && p.bridges[k].current ::
        k.1 := Route(p.bridges[k].entry, p.bridges[k].exit, p.bridges[k].egress))
  }

  /** The topology a snapshot prescribes for a fleet. */
  function Prescribed(s: Snapshot, f: FleetId): Topology
    requires f in s.fleets
  {
    Topology(s.fleets[f].nodes,
             map r | r in s.fleets[f].bridges ::
               Route(s.fleets[f].bridges[r].entry, s.fleets[f].bridges[r].exit, s.fleets[f].bridges[r].egress))
  }

  // ------------------------------------------------------------------ properties

  /** What every reachable projection satisfies. */
  ghost predicate Consistent(p: Projection) {
    && (forall k | k in p.members :: k.0 in p.fleets && k.1 in p.nodes && (p.members[k] ==> p.nodes[k.1]))
    && (forall k | k in p.bridges :: k.0 in p.fleets && p.bridges[k].entry in p.nodes && p.bridges[k].entry != p.bridges[k].exit)
    && (forall k | CurrentBridge(p, k) ::
          && (k.0, p.bridges[k].entry) in p.members && p.members[(k.0, p.bridges[k].entry)]
          && (k.0, p.bridges[k].exit) in p.members && p.members[(k.0, p.bridges[k].exit)])
    && NoSharedPair(p.bridges)
  }

  /** The partial unique index vpn_bridge_routes_current_pair. */
  ghost predicate NoSharedPair(rows: map<BridgeKey, BridgeRow>) {
    forall k, l | k in rows && l in rows && k.0 == l.0 && rows[k].current && rows[l].current
      && rows[k].entry == rows[l].entry && rows[k].exit == rows[l].exit :: k == l
  }

  lemma ProjectedBridges(p: Projection, revision: nat, s: Snapshot, k: BridgeKey)
    requires KeepsPairs(p, s) && p.fleets <= s.fleets.Keys
    ensures var q := Projected(p, revision, s);
            && (CurrentBridge(q, k) <==> HasBridge(s, k))
            && (k in p.bridges ==> k in q.bridges && q.bridges[k].entry == p.bridges[k].entry && q.bridges[k].exit == p.bridges[k].exit)
            && (HasBridge(s, k) ==> q.bridges[k] == BridgeRow(BridgeAt(s, k).entry, BridgeAt(s, k).exit, BridgeAt(s, k).egress, true))
  {
    assert k in BridgesOf(s) <==> HasBridge(s, k) by {
      if HasBridge(s, k) { assert (k.0, k.1) in BridgesOf(s); }
    }
  }

  lemma ProjectedMembers(p: Projection, revision: nat, s: Snapshot, k: MemberKey)
    ensures var q := Projected(p, revision, s);
            k in q.members && q.members[k] <==> HasMember(s, k)
  {
    assert k in MembersOf(s) <==> HasMember(s, k) by {
      if HasMember(s, k) { assert (k.0, k.1) in MembersOf(s); }
    }
  }

  /** After an accepted plan the current rows are exactly the snapshot. */
  lemma ProjectionIsExact(p: Projection, revision: nat, s: Snapshot, allow: bool)
    requires Judge(p, revision, s, allow).Accepted?
    ensures var q := Projected(p, revision, s);
            && CurrentNodes(q) == s.nodes.Keys && q.fleets == s.fleets.Keys
            && (forall f | f in s.fleets :: TopologyAt(q, f) == Prescribed(s, f))
            && (forall f | f !in s.fleets :: TopologyAt(q, f) == NoTopology)
  {
    var q := Projected(p, revision, s);
    forall f ensures f in s.fleets ==> TopologyAt(q, f) == Prescribed(s, f)
             ensures f !in s.fleets ==> TopologyAt(q, f) == NoTopology {
      TopologyNodes(p, revision, s, f);
      TopologyBridges(p, revision, s, f);
    }
  }

  lemma TopologyNodes(p: Projection, revision: nat, s: Snapshot, f: FleetId)
    ensures TopologyAt(Projected(p, revision, s), f).nodes == if f in s.fleets then s.fleets[f].nodes else {}
  {
    var q := Projected(p, revision, s);
    forall n: NodeId ensures n in TopologyAt(q, f).nodes <==> HasMember(s, (f, n)) {
      ProjectedMembers(p, revision, s, (f, n));
      if HasMember(s, (f, n)) { assert (f, n) in q.members; }
    }
  }

  lemma TopologyBridges(p: Projection, revision: nat, s: Snapshot, f: FleetId)
    requires KeepsPairs(p, s) && p.fleets <= s.fleets.Keys
    ensures TopologyAt(Projected(p, revision, s), f).bridges
         == if f in s.fleets then Prescribed(s, f).bridges else map[]
  {
    var q := Projected(p, revision, s);
    forall r: RoutingKey
      ensures r in TopologyAt(q, f).bridges <==> HasBridge(s, (f, r))
      ensures HasBridge(s, (f, r)) ==> TopologyAt(q, f).bridges[r] == Prescribed(s, f).bridges[r]
    {
      ProjectedBridges(p, revision, s, (f, r));
      if HasBridge(s, (f, r)) { assert (f, r) in q.bridges; }
    }
  }

  /** An accepted manifest keeps the projection consistent. */
  lemma AcceptedKeeps(p: Projection, revision: nat, s: Snapshot, allow: bool)
    requires Consistent(p) && Valid(s) && Judge(p, revision, s, allow).Accepted?
    ensures Consistent(Projected(p, revision, s))
  {
    var q := Projected(p, revision, s);
    forall k | k in q.members
      ensures k.0 in q.fleets && k.1 in q.nodes && (q.members[k] ==> q.nodes[k.1])
    {
      ProjectedMembers(p, revision, s, k);
    }
    forall k | k in q.bridges
      ensures k.0 in q.fleets && q.bridges[k].entry in q.nodes && q.bridges[k].entry != q.bridges[k].exit
    {
      ProjectedBridges(p, revision, s, k);
    }
    forall k | CurrentBridge(q, k)
      ensures (k.0, q.bridges[k].entry) in q.members && q.members[(k.0, q.bridges[k].entry)]
      ensures (k.0, q.bridges[k].exit) in q.members && q.members[(k.0, q.bridges[k].exit)]
    {
      ProjectedBridges(p, revision, s, k);
      ProjectedMembers(p, revision, s, (k.0, q.bridges[k].entry));
      ProjectedMembers(p, revision, s, (k.0, q.bridges[k].exit));
    }
    AcceptedPairs(p, revision, s);
  }

  lemma AcceptedPairs(p: Projection, revision: nat, s: Snapshot)
    requires Valid(s) && KeepsPairs(p, s) && p.fleets <= s.fleets.Keys
    ensures NoSharedPair(Projected(p, revision, s).bridges)
  {
    var q := Projected(p, revision, s);
    forall k, l | k in q.bridges && l in q.bridges && k.0 == l.0 && q.bridges[k].current && q.bridges[l].current
      && q.bridges[k].entry == q.bridges[l].entry && q.bridges[k].exit == q.bridges[l].exit
      ensures k == l
    {
      ProjectedBridges(p, revision, s, k);
      ProjectedBridges(p, revision, s, l);
      assert FleetValid(s, s.fleets[k.0]);
    }
  }

  /** A sequence of submissions; a refused or repeated one changes nothing. */
  datatype Submission = Submission(revision: nat, snapshot: Snapshot, allowDestructive: bool)

  function Submitted(p: Projection, m: Submission): Projection {
    if Valid(m.snapshot) && Judge(p, m.revision, m.snapshot, m.allowDestructive).Accepted?
    then Projected(p, m.revision, m.snapshot) else p
  }

  function After(p: Projection, ms: seq<Submission>): Projection {
    if |ms| == 0 then p else Submitted(After(p, ms[..|ms| - 1]), ms[|ms| - 1])
  }

  /** What one change may do. */
  ghost predicate Moves(p: Projection, q: Projection) {
    && (q == p || q.revision > p.revision) && p.fleets <= q.fleets
    && forall k | k in p.bridges :: k in q.bridges && q.bridges[k].entry == p.bridges[k].entry && q.bridges[k].exit == p.bridges[k].exit
  }

  lemma SubmittedMoves(p: Projection, m: Submission)
    requires Consistent(p)
    ensures Consistent(Submitted(p, m)) && Moves(p, Submitted(p, m))
  {
    hide Consistent, Valid;
    if Valid(m.snapshot) && Judge(p, m.revision, m.snapshot, m.allowDestructive).Accepted? {
      AcceptedKeeps(p, m.revision, m.snapshot, m.allowDestructive);
      PairsStay(p, m.revision, m.snapshot);
      FleetsStay(p, m.revision, m.snapshot);
    }
  }

  lemma PairsStay(p: Projection, revision: nat, s: Snapshot)
    requires KeepsPairs(p, s) && p.fleets <= s.fleets.Keys
    ensures var q := Projected(p, revision, s);
            forall k | k in p.bridges :: k in q.bridges && q.bridges[k].entry == p.bridges[k].entry && q.bridges[k].exit == p.bridges[k].exit
  {
    hide KeepsPairs, Projected;
    forall k | k in p.bridges ensures var q := Projected(p, revision, s);
      k in q.bridges && q.bridges[k].entry == p.bridges[k].entry && q.bridges[k].exit == p.bridges[k].exit
    {
      ProjectedBridges(p, revision, s, k);
    }
  }

  lemma FleetsStay(p: Projection, revision: nat, s: Snapshot)
    ensures p.fleets <= Projected(p, revision, s).fleets && Projected(p, revision, s).revision == revision
  {
  }

  lemma MovesOn(p: Projection, q: Projection, r: Projection)
    requires Moves(p, q) && Moves(q, r)
    ensures Moves(p, r)
  {
  }

  /** Over every sequence of submissions the projection stays consistent, revisions strictly
      grow with every change, fleets never vanish and a routing key never changes its pair. */
  lemma {:induction false} HistoryIsMonotone(p: Projection, ms: seq<Submission>)
    requires Consistent(p)
    ensures Consistent(After(p, ms)) && Moves(p, After(p, ms))
  {
    if |ms| > 0 {
      hide Consistent, Submitted, Moves;
      HistoryIsMonotone(p, ms[..|ms| - 1]);
      SubmittedMoves(After(p, ms[..|ms| - 1]), ms[|ms| - 1]);
      MovesOn(p, After(p, ms[..|ms| - 1]), After(p, ms));
    }
  }

  /** Submitting the accepted snapshot again is recognised, and any other snapshot under the
      same revision is a conflict. */
  lemma ResubmissionIsDecided(p: Projection, revision: nat, s: Snapshot, allow: bool, other: Snapshot, again: bool)
    requires Judge(p, revision, s, allow).Accepted?
    ensures Judge(Projected(p, revision, s), revision, other, again)
         == if other == s then Idempotent else Refused(DigestConflict)
  {
  }
}
