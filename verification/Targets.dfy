/** A fleet's topology, the targets it prescribes and how a customer's accesses compare. */
module Targets {
  import opened Types

  const FreedomEgress: Egress := ""

  /** A row of vpn_bridge_routes. */
  datatype Route = Route(entry: NodeId, exit: NodeId, egress: Egress)

  /** The current nodes and bridge routes of one fleet. */
  datatype Topology = Topology(nodes: set<NodeId>, bridges: map<RoutingKey, Route>)

  datatype Target = Target(node: NodeId, egress: Egress)

  const NoTopology := Topology({}, map[])

  /** TargetsOf: every node is a FREEDOM target and every bridge route a BRIDGE target. */
  predicate IsTarget(t: Topology, k: TargetKey) {
    match k
    case Freedom(n) => n in t.nodes
    case Bridge(r) => r in t.bridges
  }

  function TargetAt(t: Topology, k: TargetKey): Target
    requires IsTarget(t, k)
  {
    match k
    case Freedom(n) => Target(n, FreedomEgress)
    case Bridge(r) => Target(t.bridges[r].entry, t.bridges[r].egress)
  }

  predicate Live(rows: map<AccessId, Access>, a: AccessId) {
    a in rows && !rows[a].retired
  }

  predicate Covered(rows: map<AccessId, Access>, k: TargetKey) {
    exists a | a in rows :: !rows[a].retired && rows[a].target == k
  }

  /** The four parts of PlanAccessSet.  A target without a live access is missing; a live
      access is in sync, on the wrong egress, or without a target. */
  predicate Missing(t: Topology, rows: map<AccessId, Access>, k: TargetKey) {
    IsTarget(t, k) && !Covered(rows, k)
  }

  predicate InSync(t: Topology, row: Access) {
    && !row.retired && IsTarget(t, row.target)
    && row.egress == TargetAt(t, row.target).egress
  }

  predicate Moved(t: Topology, row: Access) {
    && !row.retired && IsTarget(t, row.target)
    && row.egress != TargetAt(t, row.target).egress
  }

  predicate Gone(t: Topology, row: Access) {
    !row.retired && !IsTarget(t, row.target)
  }

  function Generations(rows: map<AccessId, Access>, k: TargetKey): set<nat> {
    set a | a in rows && rows[a].target == k :: rows[a].generation
  }

  /** The greatest member, 0 for the empty set. */
  ghost predicate IsMax(s: set<nat>, m: nat) {
    (forall x | x in s :: x <= m) && (m in s || (s == {} && m == 0))
  }

  lemma {:induction false} MaxExists(s: set<nat>)
    ensures exists m: nat :: IsMax(s, m)
  {
    if s == {} {
      assert IsMax(s, 0);
    } else {
      var x :| x in s;
      MaxExists(s - {x});
      var m: nat :| IsMax(s - {x}, m);
      assert s == (s - {x}) + {x};
      if m in s - {x} && x < m {
        assert IsMax(s, m);
      } else {
        assert IsMax(s, x);
      }
    }
  }

  /** The generation of a new access: one above every earlier one of its target, 1 for the first. */
  ghost function NextGeneration(rows: map<AccessId, Access>, k: TargetKey): nat {
    MaxExists(Generations(rows, k));
    var m: nat :| IsMax(Generations(rows, k), m);
    m + 1
  }

  ghost function NewRow(c: CustomerId, t: Topology, rows: map<AccessId, Access>, k: TargetKey, desired: Desired): Access
    requires IsTarget(t, k)
  {
    var target := TargetAt(t, k);
    Access(c, k, NextGeneration(rows, k), target.node, target.egress,
           desired, 1, if desired.Present? then Pending else Applied, false)
  }

  /** Generations are unique per target and the live one is the latest. */
  ghost predicate Shape(rows: map<AccessId, Access>) {
    && (forall a, b | a in rows && b in rows && rows[a].target == rows[b].target
          && rows[a].generation == rows[b].generation :: a == b)
    && (forall a, b | a in rows && b in rows && rows[a].target == rows[b].target && !rows[a].retired ::
          rows[b].generation <= rows[a].generation)
  }

  lemma OneLive(rows: map<AccessId, Access>, a: AccessId, b: AccessId)
    requires Shape(rows) && a in rows && b in rows && rows[a].target == rows[b].target
    requires !rows[a].retired && !rows[b].retired
    ensures a == b
  {
  }

  /** Every live access is on a target with the right egress. */
  ghost predicate Matches(t: Topology, rows: map<AccessId, Access>) {
    forall a | a in rows && !rows[a].retired :: InSync(t, rows[a])
  }

  /** Every target has a live access. */
  ghost predicate Complete(t: Topology, rows: map<AccessId, Access>) {
    forall k | IsTarget(t, k) :: Covered(rows, k)
  }
}
