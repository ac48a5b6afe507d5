/** The planners as the source runs them: loops over the rows a transaction has read,
    each proved against the plan it is meant to compute. */
module PlannerLoops {
  import opened Types
  import opened Targets
  import opened Tables

  /** An access as it is read from the table. */
  type Row = (AccessId, Access)

  datatype TargetRow = TargetRow(key: TargetKey, target: Target)

  datatype NewSpec = NewSpec(key: TargetKey, generation: nat, target: Target)

  type BridgeRoute = (RoutingKey, Route)

  // ---------------------------------------------------------------------- targets

  predicate DistinctNodes(nodes: seq<NodeId>) {
    forall i, j | 0 <= i < j < |nodes| :: nodes[i] != nodes[j]
  }

  function TopologyFrom(nodes: seq<NodeId>, bridges: seq<BridgeRoute>): Topology {
    Topology(SetOf(nodes), MapOf(bridges))
  }

  /** The rows list every target of the topology exactly once. */
  ghost predicate Lists(t: Topology, targets: seq<TargetRow>) {
    && (forall i | 0 <= i < |targets| :: IsTarget(t, targets[i].key) && targets[i].target == TargetAt(t, targets[i].key))
    && (forall k | IsTarget(t, k) :: Listed(targets, k))
    && (forall i, j | 0 <= i < j < |targets| :: targets[i].key != targets[j].key)
  }

  ghost predicate Listed(targets: seq<TargetRow>, k: TargetKey) {
    exists i :: 0 <= i < |targets| && targets[i].key == k
  }

  function FreedomRow(n: NodeId): TargetRow { TargetRow(Freedom(n), Target(n, FreedomEgress)) }

  function BridgeRow(b: BridgeRoute): TargetRow { TargetRow(Bridge(b.0), Target(b.1.entry, b.1.egress)) }

  /** TargetsOf: one FREEDOM row per node, then one BRIDGE row per route. */
  method TargetsOf(nodes: seq<NodeId>, bridges: seq<BridgeRoute>) returns (targets: seq<TargetRow>)
    requires DistinctNodes(nodes) && DistinctKeys(bridges)
    ensures Lists(TopologyFrom(nodes, bridges), targets)
  {
    var freedom: seq<TargetRow> := [];
    for i := 0 to |nodes|
      invariant |freedom| == i
      invariant forall j | 0 <= j < i :: freedom[j] == FreedomRow(nodes[j])
    {
      freedom := freedom + [FreedomRow(nodes[i])];
    }
    var bridged: seq<TargetRow> := [];
    for i := 0 to |bridges|
      invariant |bridged| == i
      invariant forall j | 0 <= j < i :: bridged[j] == BridgeRow(bridges[j])
    {
      bridged := bridged + [BridgeRow(bridges[i])];
    }
    targets := freedom + bridged;
    BothList(nodes, bridges, freedom, bridged);
  }

  lemma BothList(nodes: seq<NodeId>, bridges: seq<BridgeRoute>, freedom: seq<TargetRow>, bridged: seq<TargetRow>)
    requires DistinctNodes(nodes) && DistinctKeys(bridges) && |freedom| == |nodes| && |bridged| == |bridges|
    requires forall j | 0 <= j < |nodes| :: freedom[j] == FreedomRow(nodes[j])
    requires forall j | 0 <= j < |bridges| :: bridged[j] == BridgeRow(bridges[j])
    ensures Lists(TopologyFrom(nodes, bridges), freedom + bridged)
  {
    var t, targets := TopologyFrom(nodes, bridges), freedom + bridged;
    MapRows(bridges);
    forall i | 0 <= i < |targets| ensures IsTarget(t, targets[i].key) && targets[i].target == TargetAt(t, targets[i].key) {
      if i < |nodes| {
        assert targets[i] == FreedomRow(nodes[i]) && nodes[i] in nodes;
      } else {
        assert targets[i] == BridgeRow(bridges[i - |nodes|]);
      }
    }
    forall k | IsTarget(t, k) ensures Listed(targets, k) {
      match k
      case Freedom(n) =>
        var j :| 0 <= j < |nodes| && nodes[j] == n;
        assert targets[j] == freedom[j];
      case Bridge(r) =>
        var j :| 0 <= j < |bridges| && bridges[j].0 == r;
        assert targets[|nodes| + j] == bridged[j];
    }
    forall i, j | 0 <= i < j < |targets| ensures targets[i].key != targets[j].key {
      if j < |nodes| {
        assert targets[i] == FreedomRow(nodes[i]) && targets[j] == FreedomRow(nodes[j]);
      } else {
        assert targets[j] == BridgeRow(bridges[j - |nodes|]);
        if i < |nodes| {
          assert targets[i] == FreedomRow(nodes[i]);
        } else {
          assert targets[i] == BridgeRow(bridges[i - |nodes|]);
        }
      }
    }
  }

  // ------------------------------------------------------------------- PlanAccessSet

  /** The two indexes of the first loop: the live access and the highest generation per target. */
  ghost predicate Indexed(rows: map<AccessId, Access>, current: map<TargetKey, Row>, highest: map<TargetKey, nat>) {
    && (forall k | k in current :: current[k].0 in rows && rows[current[k].0] == current[k].1
          && !current[k].1.retired && current[k].1.target == k)
    && (forall a | a in rows && !rows[a].retired :: rows[a].target in current)
    && (forall k :: IsMax(Generations(rows, k), if k in highest then highest[k] else 0))
  }

  lemma IndexedNext(rows: map<AccessId, Access>, current: map<TargetKey, Row>, highest: map<TargetKey, nat>, r: Row)
    requires Indexed(rows, current, highest) && r.0 !in rows
    ensures var k, row := r.1.target, r.1;
            Indexed(rows[r.0 := row],
                    if row.retired then current else current[k := r],
                    if row.generation > (if k in highest then highest[k] else 0) then highest[k := row.generation] else highest)
  {
    var highest' := if r.1.generation > (if r.1.target in highest then highest[r.1.target] else 0)
                    then highest[r.1.target := r.1.generation] else highest;
    forall k ensures IsMax(Generations(rows[r.0 := r.1], k), if k in highest' then highest'[k] else 0) {
      MaxNext(rows, r, k, if k in highest then highest[k] else 0);
    }
    hide Generations, IsMax;
  }

  lemma MaxNext(rows: map<AccessId, Access>, r: Row, k: TargetKey, m: nat)
    requires r.0 !in rows && IsMax(Generations(rows, k), m)
    ensures IsMax(Generations(rows[r.0 := r.1], k), if k == r.1.target && r.1.generation > m then r.1.generation else m)
  {
    GenerationsNext(rows, r, k);
    hide Generations;
  }

  lemma GenerationsNext(rows: map<AccessId, Access>, r: Row, k: TargetKey)
    requires r.0 !in rows
    ensures Generations(rows[r.0 := r.1], k)
         == if k == r.1.target then Generations(rows, k) + {r.1.generation} else Generations(rows, k)
  {
    var rows' := rows[r.0 := r.1];
    forall g | g in Generations(rows', k)
      ensures g in (if k == r.1.target then Generations(rows, k) + {r.1.generation} else Generations(rows, k))
    {
      var a :| a in rows' && rows'[a].target == k && rows'[a].generation == g;
      if a != r.0 { assert a in rows && rows[a].target == k && rows[a].generation == g; }
    }
    forall g | g in Generations(rows, k) ensures g in Generations(rows', k) {
      var a :| a in rows && rows[a].target == k && rows[a].generation == g;
      assert a in rows' && rows'[a].target == k && rows'[a].generation == g;
    }
    if k == r.1.target { assert r.0 in rows' && rows'[r.0].target == k; }
  }

  lemma OneMax(s: set<nat>, m: nat, n: nat)
    requires IsMax(s, m) && IsMax(s, n)
    ensures m == n
  {
  }

  lemma NextIsHighest(rows: map<AccessId, Access>, k: TargetKey, m: nat)
    requires IsMax(Generations(rows, k), m)
    ensures NextGeneration(rows, k) == m + 1
  {
    MaxExists(Generations(rows, k));
    var n: nat :| IsMax(Generations(rows, k), n) && NextGeneration(rows, k) == n + 1;
    OneMax(Generations(rows, k), m, n);
  }

  method IndexRows(accesses: seq<Row>) returns (current: map<TargetKey, Row>, highest: map<TargetKey, nat>)
    requires DistinctKeys(accesses)
    ensures Indexed(MapOf(accesses), current, highest)
  {
    current, highest := map[], map[];
    assert forall k :: Generations(map[], k) == {};
    for i := 0 to |accesses|
      invariant Indexed(MapOf(accesses[..i]), current, highest)
    {
      var access := accesses[i];
      assert accesses[..i + 1][..i] == accesses[..i];
      MapRows(accesses[..i]);
      IndexedNext(MapOf(accesses[..i]), current, highest, access);
      var best: nat := if access.1.target in highest then highest[access.1.target] else 0;
      if access.1.generation > best { highest := highest[access.1.target := access.1.generation]; }
      if !access.1.retired { current := current[access.1.target := access]; }
    }
    assert accesses[..|accesses|] == accesses;
  }

  /** AccessSetPlan. */
  datatype Plan = Plan(create: seq<NewSpec>, retire: seq<AccessId>, repoint: map<AccessId, Egress>, inSync: seq<AccessId>)

  /** The plan splits the live accesses into in sync, on the wrong egress and gone, and
      creates exactly the missing targets, each with the next generation. */
  ghost predicate Splits(t: Topology, rows: map<AccessId, Access>, p: Plan) {
    && (forall a :: a in p.inSync <==> a in rows && InSync(t, rows[a]))
    && (forall a :: a in p.repoint <==> a in rows && Moved(t, rows[a]))
    && (forall a | a in p.repoint :: p.repoint[a] == TargetAt(t, rows[a].target).egress)
    && (forall a :: a in p.retire <==> a in rows && Gone(t, rows[a]))
    && (forall k :: Missing(t, rows, k) <==> Created(p.create, k))
    && (forall i | 0 <= i < |p.create| :: IsTarget(t, p.create[i].key) && p.create[i].target == TargetAt(t, p.create[i].key)
          && p.create[i].generation == NextGeneration(rows, p.create[i].key))
    && (forall i, j | 0 <= i < j < |p.create| :: p.create[i].key != p.create[j].key)
  }

  ghost predicate Created(create: seq<NewSpec>, k: TargetKey) {
    exists i :: 0 <= i < |create| && create[i].key == k
  }

  /** The plan after the targets of `handled`. */
  ghost predicate SplitSoFar(t: Topology, rows: map<AccessId, Access>, handled: set<TargetKey>, p: Plan) {
    && (forall a :: a in p.inSync <==> a in rows && InSync(t, rows[a]) && rows[a].target in handled)
    && (forall a :: a in p.repoint <==> a in rows && Moved(t, rows[a]) && rows[a].target in handled)
    && (forall a | a in p.repoint :: p.repoint[a] == TargetAt(t, rows[a].target).egress)
    && (forall k :: Created(p.create, k) <==> k in handled && !Covered(rows, k))
    && (forall i | 0 <= i < |p.create| :: IsTarget(t, p.create[i].key) && p.create[i].target == TargetAt(t, p.create[i].key)
          && p.create[i].generation == NextGeneration(rows, p.create[i].key))
    && (forall i, j | 0 <= i < j < |p.create| :: p.create[i].key != p.create[j].key)
  }

  lemma CreateOne(t: Topology, rows: map<AccessId, Access>, handled: set<TargetKey>, p: Plan, spec: NewSpec)
    requires SplitSoFar(t, rows, handled, p) && handled !! {spec.key} && IsTarget(t, spec.key) && !Covered(rows, spec.key)
    requires spec.target == TargetAt(t, spec.key) && spec.generation == NextGeneration(rows, spec.key)
    ensures SplitSoFar(t, rows, handled + {spec.key}, p.(create := p.create + [spec]))
  {
    var create := p.create + [spec];
    forall k ensures Created(create, k) <==> Created(p.create, k) || k == spec.key {
      if Created(p.create, k) {
        var i :| 0 <= i < |p.create| && p.create[i].key == k;
        assert create[i].key == k;
      }
      if k == spec.key { assert create[|p.create|].key == k; }
    }
    forall i | 0 <= i < |p.create| ensures p.create[i].key != spec.key {
      assert Created(p.create, p.create[i].key);
    }
    forall a | a in rows && !rows[a].retired ensures rows[a].target != spec.key {
    }
  }

  lemma MatchOne(t: Topology, rows: map<AccessId, Access>, handled: set<TargetKey>, p: Plan, a: AccessId)
    requires SplitSoFar(t, rows, handled, p) && a in rows && !rows[a].retired && IsTarget(t, rows[a].target)
    requires rows[a].target !in handled
    requires forall b | b in rows && !rows[b].retired && rows[b].target == rows[a].target :: b == a
    ensures SplitSoFar(t, rows, handled + {rows[a].target},
                       if rows[a].egress != TargetAt(t, rows[a].target).egress
                       then p.(repoint := p.repoint[a := TargetAt(t, rows[a].target).egress])
                       else p.(inSync := p.inSync + [a]))
  {
    assert Covered(rows, rows[a].target);
  }

  lemma NextListed(targets: seq<TargetRow>, i: nat, handled: set<TargetKey>)
    requires i < |targets| && forall k :: k in handled <==> Listed(targets[..i], k)
    requires forall x, y | 0 <= x < y < |targets| :: targets[x].key != targets[y].key
    ensures targets[i].key !in handled
    ensures forall k :: k in handled + {targets[i].key} <==> Listed(targets[..i + 1], k)
  {
    forall k ensures k in handled + {targets[i].key} <==> Listed(targets[..i + 1], k) {
      if Listed(targets[..i], k) {
        var j :| 0 <= j < i && targets[..i][j].key == k;
        assert targets[..i + 1][j].key == k;
      }
      if k == targets[i].key { assert targets[..i + 1][i].key == k; }
      if Listed(targets[..i + 1], k) {
        var j :| 0 <= j < i + 1 && targets[..i + 1][j].key == k;
        if j < i { assert targets[..i][j].key == k; }
      }
    }
  }

  /** The indexed live access of a target is its only one. */
  lemma CurrentIsOnly(rows: map<AccessId, Access>, current: map<TargetKey, Row>, highest: map<TargetKey, nat>, k: TargetKey)
    requires Shape(rows) && Indexed(rows, current, highest)
    ensures k in current <==> Covered(rows, k)
    ensures k in current ==> forall b | b in rows && !rows[b].retired && rows[b].target == k :: b == current[k].0
  {
  }

  lemma AllSplit(t: Topology, rows: map<AccessId, Access>, targets: seq<TargetRow>, current: map<TargetKey, Row>,
                 highest: map<TargetKey, nat>, handled: set<TargetKey>, p: Plan)
    requires Shape(rows) && Indexed(rows, current, highest) && Lists(t, targets) && SplitSoFar(t, rows, handled, p)
    requires forall k :: k in handled <==> Listed(targets, k)
    requires forall a :: a in p.retire <==> exists k :: k in current && k !in handled && current[k].0 == a
    ensures Splits(t, rows, p)
  {
    hide Generations, IsMax, Shape;
    forall k ensures k in handled <==> IsTarget(t, k) {
    }
    forall a ensures a in p.retire <==> a in rows && Gone(t, rows[a]) {
      if a in rows && Gone(t, rows[a]) {
        CurrentIsOnly(rows, current, highest, rows[a].target);
        assert rows[a].target in current && current[rows[a].target].0 == a;
      }
    }
  }

  /** One target of the main loop: it is missing, on the wrong egress, or in sync. */
  method SplitTarget(t: Topology, ghost rows: map<AccessId, Access>, target: TargetRow, current: map<TargetKey, Row>,
                     highest: map<TargetKey, nat>, p: Plan, ghost handled: set<TargetKey>) returns (q: Plan)
    requires Shape(rows) && Indexed(rows, current, highest) && SplitSoFar(t, rows, handled, p) && target.key !in handled
    requires IsTarget(t, target.key) && target.target == TargetAt(t, target.key)
    ensures SplitSoFar(t, rows, handled + {target.key}, q) && q.retire == p.retire
  {
    var k := target.key;
    CurrentIsOnly(rows, current, highest, k);
    if k !in current {
      var best: nat := if k in highest then highest[k] else 0;
      NextIsHighest(rows, k, best);
      CreateOne(t, rows, handled, p, NewSpec(k, best + 1, target.target));
      return p.(create := p.create + [NewSpec(k, best + 1, target.target)]);
    }
    var access := current[k];
    MatchOne(t, rows, handled, p, access.0);
    if access.1.egress != target.target.egress {
      return p.(repoint := p.repoint[access.0 := target.target.egress]);
    }
    return p.(inSync := p.inSync + [access.0]);
  }

  /** PlanAccessSet. */
  method PlanAccessSet(t: Topology, targets: seq<TargetRow>, accesses: seq<Row>) returns (p: Plan)
    requires Lists(t, targets) && DistinctKeys(accesses) && Shape(MapOf(accesses))
    ensures Splits(t, MapOf(accesses), p)
  {
    hide Indexed, SplitSoFar, Splits, Shape;
    ghost var rows := MapOf(accesses);
    var current, highest := IndexRows(accesses);
    NothingSplit(t, rows);
    var matched: set<TargetKey> := {};
    p := Plan([], [], map[], []);
    ghost var handled: set<TargetKey> := {};
    for i := 0 to |targets|
      invariant SplitSoFar(t, rows, handled, p) && p.retire == []
      invariant forall k :: k in handled <==> Listed(targets[..i], k)
      invariant forall k :: k in matched <==> k in handled && k in current
    {
      NextListed(targets, i, handled);
      p := SplitTarget(t, rows, targets[i], current, highest, p, handled);
      if targets[i].key in current { matched := matched + {targets[i].key}; }
      handled := handled + {targets[i].key};
    }
    assert targets[..|targets|] == targets;
    var retire := Unmatched(current, matched);
    RetireOnly(t, rows, handled, p, retire);
    p := p.(retire := retire);
    AllSplit(t, rows, targets, current, highest, handled, p);
  }

  lemma NothingSplit(t: Topology, rows: map<AccessId, Access>)
    ensures SplitSoFar(t, rows, {}, Plan([], [], map[], []))
  {
  }

  /** The plan of the loop and the retired rest. */
  lemma RetireOnly(t: Topology, rows: map<AccessId, Access>, handled: set<TargetKey>, p: Plan, retire: seq<AccessId>)
    requires SplitSoFar(t, rows, handled, p)
    ensures SplitSoFar(t, rows, handled, p.(retire := retire))
  {
  }

  /** The last loop: every live access whose target was not met. */
  method Unmatched(current: map<TargetKey, Row>, matched: set<TargetKey>) returns (retire: seq<AccessId>)
    ensures forall a :: a in retire <==> exists k :: k in current && k !in matched && current[k].0 == a
  {
    retire := [];
    var todo := current.Keys;
    while todo != {}
      invariant todo <= current.Keys
      invariant forall a :: a in retire <==> exists k :: k in current && k !in todo && k !in matched && current[k].0 == a
      decreases todo
    {
      var k :| k in todo;
      if k !in matched { retire := retire + [current[k].0]; }
      todo := todo - {k};
    }
  }
}
