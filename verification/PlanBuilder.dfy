/** From a plan to a transaction: new accesses, row updates, operations and touched nodes are
    collected in loops, and the result is exactly the specified write. */
module PlanBuilder {
  import opened Types
  import opened Targets
  import opened Tables
  import opened PlannerLoops
  import C = Customers
  import R = CustomerRules

  ghost predicate HasAccess(ids: C.Ids, k: TargetKey) {
    exists a :: a in ids.targets && ids.targets[a] == k
  }

  ghost predicate HasOp(ids: C.Ids, a: AccessId) {
    exists o :: o in ids.owners && ids.owners[o] == a
  }

  /** An identifier generated for a target; the generator supplies one for each. */
  method NewAccessId(ids: C.Ids, k: TargetKey) returns (a: AccessId)
    requires HasAccess(ids, k)
    ensures a in ids.targets && ids.targets[a] == k
  {
    a :| a in ids.targets && ids.targets[a] == k;
  }

  method NewOperationId(ids: C.Ids, a: AccessId) returns (o: OperationId)
    requires HasOp(ids, a)
    ensures o in ids.owners && ids.owners[o] == a
  {
    o :| o in ids.owners && ids.owners[o] == a;
  }

  ghost predicate OneTargetEach(ids: C.Ids) {
    forall a, b | a in ids.targets && b in ids.targets && ids.targets[a] == ids.targets[b] :: a == b
  }

  ghost predicate OneOwnerEach(ids: C.Ids) {
    forall o, q | o in ids.owners && q in ids.owners && ids.owners[o] == ids.owners[q] :: o == q
  }

  // ----------------------------------------------------------------------- new accesses

  function RowFor(c: CustomerId, spec: NewSpec, desired: Desired): Access {
    Access(c, spec.key, spec.generation, spec.target.node, spec.target.egress, desired, 1,
           if desired.Present? then Pending else Applied, false)
  }

  ghost function Prescribed(c: CustomerId, t: Topology, rows: map<AccessId, Access>, ent: C.Entitlement, now: int, p: C.Period, k: TargetKey): Access
    requires IsTarget(t, k)
  {
    NewRow(c, t, rows, k, C.Want(ent, now, p, TargetAt(t, k).node))
  }

  lemma SpecRow(c: CustomerId, t: Topology, rows: map<AccessId, Access>, plan: Plan, ent: C.Entitlement, now: int, p: C.Period, i: nat)
    requires Splits(t, rows, plan) && i < |plan.create|
    ensures IsTarget(t, plan.create[i].key) && Missing(t, rows, plan.create[i].key)
    ensures RowFor(c, plan.create[i], C.Want(ent, now, p, plan.create[i].target.node))
         == Prescribed(c, t, rows, ent, now, p, plan.create[i].key)
  {
    assert Created(plan.create, plan.create[i].key);
  }

  /** The new rows collected for the first specs. */
  ghost predicate Collected(c: CustomerId, t: Topology, rows: map<AccessId, Access>, ent: C.Entitlement, now: int, p: C.Period, ids: C.Ids,
                            create: seq<NewSpec>, creates: map<AccessId, Access>) {
    && (forall a | a in creates :: a in ids.targets && Missing(t, rows, ids.targets[a])
          && creates[a] == Prescribed(c, t, rows, ent, now, p, ids.targets[a]))
    && (forall j | 0 <= j < |create| :: exists a :: a in creates && ids.targets[a] == create[j].key)
  }

  lemma CollectOne(c: CustomerId, t: Topology, rows: map<AccessId, Access>, ent: C.Entitlement, now: int, p: C.Period, ids: C.Ids,
                   create: seq<NewSpec>, creates: map<AccessId, Access>, a: AccessId, spec: NewSpec)
    requires Collected(c, t, rows, ent, now, p, ids, create, creates)
    requires a in ids.targets && ids.targets[a] == spec.key && Missing(t, rows, spec.key)
    ensures Collected(c, t, rows, ent, now, p, ids, create + [spec], creates[a := Prescribed(c, t, rows, ent, now, p, spec.key)])
  {
    var creates' := creates[a := Prescribed(c, t, rows, ent, now, p, spec.key)];
    forall j | 0 <= j < |create + [spec]| ensures exists b :: b in creates' && ids.targets[b] == (create + [spec])[j].key {
      if j < |create| {
        assert (create + [spec])[j] == create[j];
        var b :| b in creates && ids.targets[b] == create[j].key;
        assert b in creates';
      } else {
        assert a in creates';
      }
    }
  }

  lemma AllCollected(c: CustomerId, t: Topology, rows: map<AccessId, Access>, plan: Plan, ent: C.Entitlement, now: int, p: C.Period, ids: C.Ids,
                     creates: map<AccessId, Access>)
    requires Splits(t, rows, plan) && OneTargetEach(ids) && Collected(c, t, rows, ent, now, p, ids, plan.create, creates)
    ensures creates == C.Creates(c, t, rows, ent, now, p, ids)
  {
    forall a ensures a in creates <==> a in ids.targets && Missing(t, rows, ids.targets[a]) {
      if a in ids.targets && Missing(t, rows, ids.targets[a]) {
        var j :| 0 <= j < |plan.create| && plan.create[j].key == ids.targets[a];
        var b :| b in creates && ids.targets[b] == plan.create[j].key;
        assert a == b;
      }
    }
  }

  /** The loop over AccessSetPlan.Create. */
  method NewAccesses(c: CustomerId, t: Topology, rows: map<AccessId, Access>, plan: Plan, ent: C.Entitlement, now: int, p: C.Period, ids: C.Ids)
    returns (creates: map<AccessId, Access>)
    requires Splits(t, rows, plan) && OneTargetEach(ids)
    requires forall k | IsTarget(t, k) :: HasAccess(ids, k)
    ensures creates == C.Creates(c, t, rows, ent, now, p, ids)
  {
    hide MapOf;
    creates := map[];
    for i := 0 to |plan.create|
      invariant Collected(c, t, rows, ent, now, p, ids, plan.create[..i], creates)
    {
      var spec := plan.create[i];
      SpecRow(c, t, rows, plan, ent, now, p, i);
      var a := NewAccessId(ids, spec.key);
      CollectOne(c, t, rows, ent, now, p, ids, plan.create[..i], creates, a, spec);
      assert plan.create[..i + 1] == plan.create[..i] + [spec];
      creates := creates[a := RowFor(c, spec, C.Want(ent, now, p, spec.target.node))];
    }
    assert plan.create[..|plan.create|] == plan.create;
    AllCollected(c, t, rows, plan, ent, now, p, ids, creates);
  }

  // ------------------------------------------------------------------------ row updates

  /** The desired changes of the accesses in sync. */
  method ChangesInSync(t: Topology, rows: map<AccessId, Access>, plan: Plan, ent: C.Entitlement, now: int, p: C.Period)
    returns (updates: map<AccessId, Update>)
    requires Splits(t, rows, plan)
    ensures updates == C.Changes(t, rows, ent, now, p)
  {
    updates := map[];
    for i := 0 to |plan.inSync|
      invariant forall a :: a in updates <==> a in plan.inSync[..i] && C.Want(ent, now, p, rows[a].node) != rows[a].desired
      invariant forall a | a in updates :: updates[a] == SetDesired(C.Want(ent, now, p, rows[a].node), rows[a].version + 1)
    {
      var a := plan.inSync[i];
      assert a in plan.inSync && plan.inSync[..i + 1] == plan.inSync[..i] + [a];
      var want := C.Want(ent, now, p, rows[a].node);
      if want != rows[a].desired { updates := updates[a := SetDesired(want, rows[a].version + 1)]; }
    }
    assert plan.inSync[..|plan.inSync|] == plan.inSync;
  }

  /** planRepoints. */
  method PlanRepoints(t: Topology, rows: map<AccessId, Access>, plan: Plan, ent: C.Entitlement, now: int, p: C.Period)
    returns (updates: map<AccessId, Update>)
    requires Splits(t, rows, plan)
    ensures updates == C.Repoints(t, rows, ent, now, p)
  {
    updates := map[];
    var todo := plan.repoint.Keys;
    while todo != {}
      invariant todo <= plan.repoint.Keys
      invariant forall a :: a in updates <==> a in plan.repoint && a !in todo
      invariant forall a | a in updates :: updates[a] == Repoint(plan.repoint[a], C.Want(ent, now, p, rows[a].node), rows[a].version + 1)
      decreases todo
    {
      var a :| a in todo;
      updates := updates[a := Repoint(plan.repoint[a], C.Want(ent, now, p, rows[a].node), rows[a].version + 1)];
      todo := todo - {a};
    }
  }

  /** planRetire. */
  method PlanRetire(t: Topology, rows: map<AccessId, Access>, plan: Plan, live: set<NodeId>) returns (updates: map<AccessId, Update>)
    requires Splits(t, rows, plan)
    ensures updates == C.Retires(t, rows, live)
  {
    updates := map[];
    for i := 0 to |plan.retire|
      invariant forall a :: a in updates <==> a in plan.retire[..i]
      invariant forall a | a in updates :: updates[a] == Retire(rows[a].version + 1, rows[a].node in live && rows[a].desired.Present?)
    {
      var a := plan.retire[i];
      assert a in plan.retire && plan.retire[..i + 1] == plan.retire[..i] + [a];
      updates := updates[a := Retire(rows[a].version + 1, rows[a].node in live && rows[a].desired.Present?)];
    }
    assert plan.retire[..|plan.retire|] == plan.retire;
  }

  // -------------------------------------------------------------- operations and nodes

  /** The operations of the accesses already visited. */
  ghost predicate Pieced(full: map<OperationId, NewOperation>, ops: map<OperationId, NewOperation>, ids: C.Ids, todo: set<AccessId>) {
    && full.Keys <= ids.owners.Keys
    && (forall o :: o in ops <==> o in full && ids.owners[o] !in todo)
    && (forall o | o in ops :: ops[o] == full[o])
  }

  lemma PieceOne(full: map<OperationId, NewOperation>, ops: map<OperationId, NewOperation>, ids: C.Ids, todo: set<AccessId>, a: AccessId, o: OperationId)
    requires OneOwnerEach(ids) && Pieced(full, ops, ids, todo) && o in ids.owners && ids.owners[o] == a
    ensures o in full ==> Pieced(full, ops[o := full[o]], ids, todo - {a})
    ensures o !in full ==> Pieced(full, ops, ids, todo - {a})
  {
  }

  /** Operations of the PRESENT accesses created. */
  method CreateOperations(creates: map<AccessId, Access>, ids: C.Ids) returns (ops: map<OperationId, NewOperation>)
    requires OneOwnerEach(ids) && forall a | a in creates :: HasOp(ids, a)
    ensures ops == C.CreateOps(creates, ids)
  {
    ops := map[];
    var todo := creates.Keys;
    while todo != {}
      invariant todo <= creates.Keys && Pieced(C.CreateOps(creates, ids), ops, ids, todo)
      decreases todo
    {
      var a :| a in todo;
      ghost var owned :| owned in ids.owners && ids.owners[owned] == a;
      PieceOne(C.CreateOps(creates, ids), ops, ids, todo, a, owned);
      if creates[a].desired.Present? {
        var o := NewOperationId(ids, a);
        ops := ops[o := NewOperation(creates[a].node, a, creates[a].desired, creates[a].version)];
      }
      todo := todo - {a};
    }
  }

  /** Operations of the delivered updates. */
  method UpdateOperations(rows: map<AccessId, Access>, updates: map<AccessId, Update>, ids: C.Ids) returns (ops: map<OperationId, NewOperation>)
    requires updates.Keys <= rows.Keys && OneOwnerEach(ids) && forall a | a in updates :: HasOp(ids, a)
    ensures ops == C.UpdateOps(rows, updates, ids)
  {
    ops := map[];
    var todo := updates.Keys;
    while todo != {}
      invariant todo <= updates.Keys && Pieced(C.UpdateOps(rows, updates, ids), ops, ids, todo)
      decreases todo
    {
      var a :| a in todo;
      ghost var owned :| owned in ids.owners && ids.owners[owned] == a;
      PieceOne(C.UpdateOps(rows, updates, ids), ops, ids, todo, a, owned);
      if C.Delivered(updates[a]) {
        var o := NewOperationId(ids, a);
        ops := ops[o := NewOperation(rows[a].node, a, C.KindOf(updates[a]), updates[a].version)];
      }
      todo := todo - {a};
    }
  }

  /** touchedNodes and materializedTouchedNodes: nodes of PRESENT creates and of delivered updates. */
  method TouchedNodes(rows: map<AccessId, Access>, creates: map<AccessId, Access>, updates: map<AccessId, Update>)
    returns (nodes: set<NodeId>)
    requires updates.Keys <= rows.Keys
    ensures nodes == C.TouchedNodes(rows, creates, updates)
  {
    nodes := {};
    var todo := creates.Keys;
    while todo != {}
      invariant todo <= creates.Keys
      invariant nodes == set a | a in creates && a !in todo && creates[a].desired.Present? :: creates[a].node
      decreases todo
    {
      var a :| a in todo;
      if creates[a].desired.Present? { nodes := nodes + {creates[a].node}; }
      todo := todo - {a};
    }
    ghost var created := nodes;
    todo := updates.Keys;
    while todo != {}
      invariant todo <= updates.Keys
      invariant nodes == created + set a | a in updates && a !in todo && C.Delivered(updates[a]) :: rows[a].node
      decreases todo
    {
      var a :| a in todo;
      if C.Delivered(updates[a]) { nodes := nodes + {rows[a].node}; }
      todo := todo - {a};
    }
  }

  /** The write of one transaction, its operations and touched nodes collected separately. */
  method BuildWrite(c: CustomerId, l: Lifecycle, rows: map<AccessId, Access>, creates: map<AccessId, Access>, updates: map<AccessId, Update>, ids: C.Ids)
    returns (w: Write)
    requires updates.Keys <= rows.Keys && OneOwnerEach(ids)
    requires forall a | a in creates :: HasOp(ids, a)
    requires forall a | a in updates :: HasOp(ids, a)
    ensures w == C.WriteOf(c, l, rows, creates, updates, ids)
  {
    var created := CreateOperations(creates, ids);
    var updated := UpdateOperations(rows, updates, ids);
    var touched := TouchedNodes(rows, creates, updates);
    w := Write(c, l, creates, updates, {}, created + updated, touched);
  }

  // ---------------------------------------------------------------- whole transactions

  /** The identifiers a transaction needs for the accesses it may create and operate on. */
  ghost predicate Equipped(rows: map<AccessId, Access>, t: Topology, ids: C.Ids) {
    && OneTargetEach(ids) && OneOwnerEach(ids)
    && (forall k | IsTarget(t, k) :: HasAccess(ids, k))
    && (forall a | a in rows :: HasOp(ids, a))
    && (forall a | a in ids.targets :: HasOp(ids, a))
  }

  lemma CreatesOwned(c: CustomerId, rows: map<AccessId, Access>, t: Topology, ent: C.Entitlement, now: int, p: C.Period, ids: C.Ids)
    requires Equipped(rows, t, ids)
    ensures forall a | a in C.Creates(c, t, rows, ent, now, p, ids) :: HasOp(ids, a)
  {
  }

  /** The parts of the plan, and that its updates concern the customer's own rows. */
  lemma PlanParts(c: CustomerId, s: C.Customer, env: C.Env)
    requires C.OpenPeriod(s.periods).Some?
    ensures var m, t, p := C.PlanMaterialize(c, s, env), C.TopologyOf(env, s.ent.fleet), C.OpenPeriod(s.periods).value;
            && m.creates == (if s.ent.expiresAt <= env.now then map[] else C.Creates(c, t, s.rows, s.ent, env.now, p, env.ids))
            && m.updates == C.Changes(t, s.rows, s.ent, env.now, p) + C.Repoints(t, s.rows, s.ent, env.now, p) + C.Retires(t, s.rows, env.live)
            && m.updates.Keys <= s.rows.Keys
  {
  }

  /** PlanMaterialize and materializeManifestPlan over the lists the transaction has read:
      the specified write. */
  method Materialize(c: CustomerId, s: C.Customer, accesses: seq<Row>, nodes: seq<NodeId>, bridges: seq<BridgeRoute>, env: C.Env)
    returns (w: Write, quiet: bool)
    requires DistinctKeys(accesses) && MapOf(accesses) == s.rows && Shape(s.rows)
    requires DistinctNodes(nodes) && DistinctKeys(bridges) && TopologyFrom(nodes, bridges) == C.TopologyOf(env, s.ent.fleet)
    requires C.OpenPeriod(s.periods).Some? && Equipped(s.rows, TopologyFrom(nodes, bridges), env.ids)
    ensures w == C.MaterializedWrite(c, s, C.PlanMaterialize(c, s, env), env)
    ensures quiet <==> (Aligned(TopologyFrom(nodes, bridges), s.rows, s.ent, env.now, C.OpenPeriod(s.periods).value)
                        && (env.now < s.ent.expiresAt ==> Complete(TopologyFrom(nodes, bridges), s.rows)))
  {
    var t, p := TopologyFrom(nodes, bridges), C.OpenPeriod(s.periods).value;
    PlanParts(c, s, env);
    var plan := Split(nodes, bridges, accesses);
    var creates: map<AccessId, Access> := map[];
    if env.now < s.ent.expiresAt {
      creates := NewAccesses(c, t, s.rows, plan, s.ent, env.now, p, env.ids);
      CreatesOwned(c, s.rows, t, s.ent, env.now, p, env.ids);
    }
    var updates := AllUpdates(t, s.rows, plan, s.ent, env.now, p, env.live);
    w := BuildWrite(c, s.ent.lifecycle, s.rows, creates, updates, env.ids);
    var settled := AllAsWanted(t, s.rows, plan, s.ent, env.now, p);
    PlanIsEmpty(t, s.rows, plan);
    quiet := settled && plan.repoint.Keys == {} && plan.retire == [] && (s.ent.expiresAt <= env.now || plan.create == []);
  }

  /** Every live access is in sync and in its prescribed state. */
  ghost predicate Aligned(t: Topology, rows: map<AccessId, Access>, ent: C.Entitlement, now: int, p: C.Period) {
    forall a | a in rows && !rows[a].retired :: InSync(t, rows[a]) && rows[a].desired == C.Want(ent, now, p, rows[a].node)
  }

  ghost predicate AsWanted(t: Topology, rows: map<AccessId, Access>, ent: C.Entitlement, now: int, p: C.Period) {
    forall a | a in rows && InSync(t, rows[a]) :: rows[a].desired == C.Want(ent, now, p, rows[a].node)
  }

  /** Whether the accesses in sync need no change. */
  method AllAsWanted(t: Topology, rows: map<AccessId, Access>, plan: Plan, ent: C.Entitlement, now: int, p: C.Period) returns (settled: bool)
    requires Splits(t, rows, plan)
    ensures settled <==> AsWanted(t, rows, ent, now, p)
  {
    for i := 0 to |plan.inSync|
      invariant forall j | 0 <= j < i :: rows[plan.inSync[j]].desired == C.Want(ent, now, p, rows[plan.inSync[j]].node)
    {
      var a := plan.inSync[i];
      assert a in plan.inSync;
      if rows[a].desired != C.Want(ent, now, p, rows[a].node) { return false; }
    }
    return true;
  }

  /** What empty parts of a plan mean. */
  lemma PlanIsEmpty(t: Topology, rows: map<AccessId, Access>, plan: Plan)
    requires Splits(t, rows, plan)
    ensures plan.create == [] <==> Complete(t, rows)
    ensures plan.repoint.Keys == {} && plan.retire == [] <==> forall a | a in rows && !rows[a].retired :: InSync(t, rows[a])
  {
    if plan.create == [] {
      forall k | IsTarget(t, k) ensures Covered(rows, k) {
        assert !Created(plan.create, k);
      }
    } else {
      assert Created(plan.create, plan.create[0].key);
    }
    assert plan.retire != [] ==> plan.retire[0] in plan.retire;
    forall a | a in rows && !rows[a].retired ensures InSync(t, rows[a]) || a in plan.repoint || a in plan.retire {
    }
  }

  method Split(nodes: seq<NodeId>, bridges: seq<BridgeRoute>, accesses: seq<Row>) returns (plan: Plan)
    requires DistinctKeys(accesses) && Shape(MapOf(accesses)) && DistinctNodes(nodes) && DistinctKeys(bridges)
    ensures Splits(TopologyFrom(nodes, bridges), MapOf(accesses), plan)
  {
    var targets := TargetsOf(nodes, bridges);
    plan := PlanAccessSet(TopologyFrom(nodes, bridges), targets, accesses);
  }

  method AllUpdates(t: Topology, rows: map<AccessId, Access>, plan: Plan, ent: C.Entitlement, now: int, p: C.Period, live: set<NodeId>)
    returns (updates: map<AccessId, Update>)
    requires Splits(t, rows, plan)
    ensures updates == C.Changes(t, rows, ent, now, p) + C.Repoints(t, rows, ent, now, p) + C.Retires(t, rows, live)
  {
    var changes := ChangesInSync(t, rows, plan, ent, now, p);
    var repoints := PlanRepoints(t, rows, plan, ent, now, p);
    var retires := PlanRetire(t, rows, plan, live);
    updates := changes + repoints + retires;
  }

  /** PlanApply and materialize over the lists the transaction has read. */
  method Apply(c: CustomerId, s: C.Customer, cmd: C.Command, open: C.Period, accesses: seq<Row>, nodes: seq<NodeId>, bridges: seq<BridgeRoute>, env: C.Env)
    returns (w: Write, quiet: bool)
    requires cmd.Apply? && DistinctKeys(accesses) && MapOf(accesses) == s.rows && Shape(s.rows)
    requires DistinctNodes(nodes) && DistinctKeys(bridges) && TopologyFrom(nodes, bridges) == C.TopologyOf(env, cmd.fleet)
    requires Equipped(s.rows, TopologyFrom(nodes, bridges), env.ids)
    ensures w == C.PlannedWrite(c, s, cmd, open, env)
    ensures quiet <==> (Complete(TopologyFrom(nodes, bridges), s.rows)
                        && AsWanted(TopologyFrom(nodes, bridges), s.rows, C.Granted(s, cmd), env.now, open))
  {
    var t, ent := TopologyFrom(nodes, bridges), C.Granted(s, cmd);
    var plan := Split(nodes, bridges, accesses);
    var creates := NewAccesses(c, t, s.rows, plan, ent, env.now, open, env.ids);
    CreatesOwned(c, s.rows, t, ent, env.now, open, env.ids);
    var changes := ChangesInSync(t, s.rows, plan, ent, env.now, open);
    w := BuildWrite(c, ent.lifecycle, s.rows, creates, changes, env.ids);
    var settled := AllAsWanted(t, s.rows, plan, ent, env.now, open);
    PlanIsEmpty(t, s.rows, plan);
    quiet := settled && plan.create == [];
  }

  /** The split of SetCustomerAccessState.materialize: changes on nodes outside the manifest
      are marked instead of sent. */
  method Partition(rows: map<AccessId, Access>, updates: map<AccessId, Update>, live: set<NodeId>, restrict: bool)
    returns (unsent: set<AccessId>, issued: map<AccessId, Update>)
    requires updates.Keys <= rows.Keys
    ensures unsent == (if restrict then C.Undeliverable(rows, updates, live) else {})
    ensures issued == C.Without(updates, unsent)
  {
    unsent, issued := {}, map[];
    var todo := updates.Keys;
    while todo != {}
      invariant todo <= updates.Keys
      invariant forall a :: a in unsent <==> a in updates && a !in todo && restrict && rows[a].node !in live
      invariant forall a :: a in issued <==> a in updates && a !in todo && !(restrict && rows[a].node !in live)
      invariant forall a | a in issued :: issued[a] == updates[a]
      decreases todo
    {
      var a :| a in todo;
      if restrict && rows[a].node !in live {
        unsent := unsent + {a};
      } else {
        issued := issued[a := updates[a]];
      }
      todo := todo - {a};
    }
  }

  method Restricted(c: CustomerId, l: Lifecycle, rows: map<AccessId, Access>, updates: map<AccessId, Update>, live: set<NodeId>, restrict: bool, ids: C.Ids)
    returns (w: Write)
    requires updates.Keys <= rows.Keys && OneOwnerEach(ids)
    requires forall a | a in updates :: HasOp(ids, a)
    ensures w == C.LifecycleWrite(c, l, rows, updates, live, restrict, ids)
  {
    var unsent, issued := Partition(rows, updates, live, restrict);
    assert forall a | a in issued :: a in updates;
    var created := CreateOperations(map[], ids);
    var updated := UpdateOperations(rows, issued, ids);
    var touched := TouchedNodes(rows, map[], issued);
    w := Write(c, l, map[], updates, unsent, created + updated, touched);
  }
}
