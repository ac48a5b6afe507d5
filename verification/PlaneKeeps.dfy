/** What every step of the control plane keeps. */
module PlaneKeeps {
  import opened Types
  import opened Targets
  import opened Plane
  import C = Customers
  import R = CustomerRules
  import D = Delivery
  import I = DeliveryInvariant
  import W = DeliveryWrites
  import M = Manifest
  import F = CustomerFits

  // --------------------------------------------------------------------- invariant

  /** The node rows and the customers' lifecycles have one value each. */
  ghost predicate Agrees(p: Plane) {
    && p.world.db.nodes.Keys == p.projection.nodes.Keys
    && (forall n | n in p.world.db.nodes :: p.world.db.nodes[n].current == p.projection.nodes[n])
    && (forall c :: SameLifecycle(p, c))
  }

  ghost predicate SameLifecycle(p: Plane, c: CustomerId) {
    D.LifecycleOf(p.world.db, c) == AccountOf(p, c).ent.lifecycle
  }

  /** The node of an access, as its target fixes it: a routing key keeps its entry for good. */
  ghost predicate Placed(q: M.Projection, f: FleetId, row: Access) {
    match row.target
    case Freedom(n) => row.node == n
    case Bridge(r) => (f, r) in q.bridges && q.bridges[(f, r)].entry == row.node
  }

  ghost predicate AllPlaced(q: M.Projection, s: C.Customer) {
    forall a | a in s.rows :: Placed(q, s.ent.fleet, s.rows[a])
  }

  ghost predicate CustomerKept(p: Plane, c: CustomerId) {
    R.Sound(CustomerOf(p, c), p.world.db.now) && AllPlaced(p.projection, CustomerOf(p, c))
  }

  ghost predicate Kept(p: Plane) {
    && I.Inv(p.world) && M.Consistent(p.projection) && Agrees(p)
    && forall c :: CustomerKept(p, c)
  }

  // ------------------------------------------------------------ rows of one customer

  lemma OwnRows(w: D.World, p: Write, c: CustomerId)
    requires I.AccessRows(w) && I.Actors(w) && D.Fits(w, p) && p.customer == c
    ensures F.RowsOf(D.CommitStep(w, p).db, c) == WrittenAccesses(F.RowsOf(w.db, c), p)
  {
    hide D.OpsFit, D.TouchedFits, D.LifecycleFits;
    var rows, rows' := F.RowsOf(w.db, c), F.RowsOf(D.CommitStep(w, p).db, c);
    forall a ensures a in rows' <==> a in WrittenAccesses(rows, p) {
      if a in p.creates { assert D.CreateFits(w, p, a); }
      if a in w.db.accesses { W.MovedRow(w, p, a); }
    }
    forall a | a in rows' ensures rows'[a] == WrittenAccesses(rows, p)[a] {
    }
  }

  lemma OtherRow(w: D.World, p: Write, c: CustomerId, a: AccessId)
    requires I.AccessRows(w) && I.Actors(w) && D.Fits(w, p) && p.customer != c
    ensures a in F.RowsOf(D.CommitStep(w, p).db, c) <==> a in F.RowsOf(w.db, c)
    ensures a in F.RowsOf(w.db, c) ==> F.RowsOf(D.CommitStep(w, p).db, c)[a] == F.RowsOf(w.db, c)[a]
  {
    assert a in p.creates ==> D.CreateFits(w, p, a);
    assert a in p.updates ==> D.UpdateFits(w, p, a);
    assert a in p.unsent ==> D.UnsentFits(w, p, a);
  }

  lemma OtherRows(w: D.World, p: Write, c: CustomerId)
    requires I.AccessRows(w) && I.Actors(w) && D.Fits(w, p) && p.customer != c
    ensures F.RowsOf(D.CommitStep(w, p).db, c) == F.RowsOf(w.db, c)
  {
    forall a ensures a in F.RowsOf(D.CommitStep(w, p).db, c) <==> a in F.RowsOf(w.db, c)
             ensures a in F.RowsOf(w.db, c) ==> F.RowsOf(D.CommitStep(w, p).db, c)[a] == F.RowsOf(w.db, c)[a] {
      OtherRow(w, p, c, a);
    }
    SameTable(F.RowsOf(D.CommitStep(w, p).db, c), F.RowsOf(w.db, c));
  }

  lemma SameTable(m: map<AccessId, Access>, n: map<AccessId, Access>)
    requires forall a :: a in m <==> a in n
    requires forall a | a in n :: m[a] == n[a]
    ensures m == n
  {
  }

  /** What a fitting transaction does to the plane. */
  lemma CommitFrames(p: Plane, c: CustomerId, x: C.Txn)
    requires I.AccessRows(p.world) && I.Actors(p.world) && x.Committed?
    requires x.write.Some? ==> D.Fits(p.world, x.write.value) && x.write.value.customer == c
    ensures CustomerOf(Commit(p, c, x), c) == C.Next(CustomerOf(p, c), x)
    ensures forall b | b != c :: CustomerOf(Commit(p, c, x), b) == CustomerOf(p, b)
  {
    if x.write.Some? {
      OwnRows(p.world, x.write.value, c);
      forall b | b != c ensures CustomerOf(Commit(p, c, x), b) == CustomerOf(p, b) {
        OtherRows(p.world, x.write.value, b);
      }
    }
  }

  // ------------------------------------------------------- what a transaction reads

  lemma TargetsKnown(q: M.Projection, f: FleetId, k: TargetKey)
    requires M.Consistent(q) && IsTarget(M.TopologyAt(q, f), k)
    ensures TargetAt(M.TopologyAt(q, f), k).node in q.nodes
    ensures Placed(q, f, Access(0, k, 0, TargetAt(M.TopologyAt(q, f), k).node, "", Absent, 0, Applied, false))
  {
    match k
    case Freedom(n) => assert (f, n) in q.members;
    case Bridge(r) => assert (f, r) in q.bridges;
  }

  lemma Reads(p: Plane, c: CustomerId, grace: nat, ids: C.Ids)
    requires I.AccessRows(p.world) && M.Consistent(p.projection) && Agrees(p)
    requires F.FreshIds(p.world, CustomerOf(p, c), EnvOf(p, grace, ids))
    ensures F.View(p.world, c, CustomerOf(p, c), EnvOf(p, grace, ids))
    ensures R.Supplied(CustomerOf(p, c), EnvOf(p, grace, ids))
  {
    var env := EnvOf(p, grace, ids);
    assert SameLifecycle(p, c);
    forall f, k | f in env.fleets && IsTarget(env.fleets[f], k)
      ensures TargetAt(env.fleets[f], k).node in p.world.db.nodes
    {
      TargetsKnown(p.projection, f, k);
    }
  }

  // ---------------------------------------------------------------------- placement

  /** New accesses are put on the node of their target. */
  ghost predicate CreatesAt(t: Topology, w: Write) {
    forall a | a in w.creates :: IsTarget(t, w.creates[a].target) && w.creates[a].node == TargetAt(t, w.creates[a].target).node
  }

  lemma WrittenPlaced(q: M.Projection, f: FleetId, rows: map<AccessId, Access>, w: Write)
    requires M.Consistent(q) && CreatesAt(M.TopologyAt(q, f), w)
    requires forall a | a in rows :: Placed(q, f, rows[a])
    ensures forall a | a in WrittenAccesses(rows, w) :: Placed(q, f, WrittenAccesses(rows, w)[a])
  {
    hide M.Consistent, Placed, M.TopologyAt, WrittenRow;
    forall a | a in WrittenAccesses(rows, w) ensures Placed(q, f, WrittenAccesses(rows, w)[a]) {
      if a in rows {
        RowPlaced(q, f, rows[a], a, w);
      } else {
        CreatePlaced(q, f, w.creates[a]);
      }
    }
  }

  lemma RowPlaced(q: M.Projection, f: FleetId, row: Access, a: AccessId, w: Write)
    requires Placed(q, f, row)
    ensures Placed(q, f, WrittenRow(row, a, w))
  {
  }

  lemma CreatePlaced(q: M.Projection, f: FleetId, row: Access)
    requires M.Consistent(q) && IsTarget(M.TopologyAt(q, f), row.target) && row.node == TargetAt(M.TopologyAt(q, f), row.target).node
    ensures Placed(q, f, row)
  {
    TargetsKnown(q, f, row.target);
  }

  /** What the placement needs to know about a transaction. */
  ghost predicate Places(s: C.Customer, x: C.Txn, env: C.Env) {
    x.Committed? ==>
      && (x.ent.fleet == s.ent.fleet || IsEmpty(s.rows))
      && (x.write.Some? ==> CreatesAt(C.TopologyOf(env, x.ent.fleet), x.write.value))
  }

  lemma CommandPlaces(c: CustomerId, s: C.Customer, cmd: C.Command, env: C.Env)
    requires R.Presences(s)
    ensures Places(s, C.Execute(c, s, cmd, env), env)
  {
    if cmd.Apply? { ApplyPlaces(c, s, cmd, env); }
  }

  lemma ApplyPlaces(c: CustomerId, s: C.Customer, cmd: C.Command, env: C.Env)
    requires R.Presences(s) && cmd.Apply?
    ensures Places(s, C.ExecuteApply(c, s, cmd, env), env)
  {
  }

  lemma MaterializePlaces(c: CustomerId, s: C.Customer, env: C.Env)
    ensures Places(s, C.Materialize(c, s, env), env)
  {
  }

  lemma NextPlaced(p: Plane, c: CustomerId, x: C.Txn, grace: nat, ids: C.Ids)
    requires M.Consistent(p.projection) && AllPlaced(p.projection, CustomerOf(p, c)) && x.Committed?
    requires Places(CustomerOf(p, c), x, EnvOf(p, grace, ids))
    ensures AllPlaced(p.projection, C.Next(CustomerOf(p, c), x))
  {
    if x.write.Some? {
      NoFleet(p.projection, x.ent.fleet);
      WrittenPlaced(p.projection, x.ent.fleet, CustomerOf(p, c).rows, x.write.value);
    }
  }

  /** A fleet that was never accepted has no topology. */
  lemma NoFleet(q: M.Projection, f: FleetId)
    requires M.Consistent(q)
    ensures f !in q.fleets ==> M.TopologyAt(q, f) == NoTopology
  {
  }

  // ------------------------------------------------------------ a customer's commit

  lemma CommitAgrees(p: Plane, c: CustomerId, x: C.Txn)
    requires Agrees(p) && x.Committed?
    requires x.write.Some? ==> x.write.value.customer == c && x.write.value.lifecycle == x.ent.lifecycle
    requires x.write.None? ==> x.ent.lifecycle == AccountOf(p, c).ent.lifecycle
    ensures Agrees(Commit(p, c, x))
  {
    forall b ensures SameLifecycle(Commit(p, c, x), b) {
      assert SameLifecycle(p, b);
    }
  }

  /** Only one customer changed. */
  lemma OthersKept(p: Plane, p': Plane, c: CustomerId)
    requires (forall b :: CustomerKept(p, b)) && CustomerKept(p', c)
    requires p'.projection == p.projection && p'.world.db.now == p.world.db.now
    requires forall b | b != c :: CustomerOf(p', b) == CustomerOf(p, b)
    ensures forall b :: CustomerKept(p', b)
  {
    forall b ensures CustomerKept(p', b) {
      assert CustomerKept(p, b);
    }
  }

  lemma CommitWorld(p: Plane, c: CustomerId, x: C.Txn)
    requires I.Inv(p.world) && x.Committed? && (x.write.Some? ==> D.Fits(p.world, x.write.value))
    ensures I.Inv(Commit(p, c, x).world) && Commit(p, c, x).world.db.now == p.world.db.now
  {
    if x.write.Some? { W.StepKeeps(p.world, D.Step.Commit(x.write.value)); }
  }

  /** A committed transaction that fits keeps everything. */
  lemma CommitKeeps(p: Plane, c: CustomerId, x: C.Txn, grace: nat, ids: C.Ids)
    requires Kept(p) && x.Committed?
    requires x.write.Some? ==> D.Fits(p.world, x.write.value) && x.write.value.customer == c && x.write.value.lifecycle == x.ent.lifecycle
    requires x.write.None? ==> x.ent.lifecycle == AccountOf(p, c).ent.lifecycle
    requires R.Sound(C.Next(CustomerOf(p, c), x), p.world.db.now)
    requires Places(CustomerOf(p, c), x, EnvOf(p, grace, ids))
    ensures Kept(Commit(p, c, x))
  {
    CommitFrames(p, c, x);
    CommitWorld(p, c, x);
    CommitAgrees(p, c, x);
    assert CustomerKept(p, c);
    NextPlaced(p, c, x, grace, ids);
    OthersKept(p, Commit(p, c, x), c);
  }

  lemma CommandKeeps(p: Plane, c: CustomerId, cmd: C.Command, grace: nat, ids: C.Ids)
    requires Kept(p) && F.FreshIds(p.world, CustomerOf(p, c), EnvOf(p, grace, ids))
    ensures Kept(Commit(p, c, C.Execute(c, CustomerOf(p, c), cmd, EnvOf(p, grace, ids))))
  {
    var s, env := CustomerOf(p, c), EnvOf(p, grace, ids);
    var x := C.Execute(c, s, cmd, env);
    if x.Committed? {
      Reads(p, c, grace, ids);
      assert CustomerKept(p, c);
      F.CommandFits(p.world, c, s, cmd, env);
      R.CommandSound(c, s, cmd, env);
      CommandPlaces(c, s, cmd, env);
      CommitKeeps(p, c, x, grace, ids);
    }
  }

  lemma ExpireKeeps(p: Plane, c: CustomerId, ids: C.Ids)
    requires Kept(p) && F.FreshIds(p.world, CustomerOf(p, c), EnvOf(p, 0, ids))
    ensures Kept(Commit(p, c, C.Expire(c, CustomerOf(p, c), EnvOf(p, 0, ids))))
  {
    var s, env := CustomerOf(p, c), EnvOf(p, 0, ids);
    var x := C.Expire(c, s, env);
    if x.Committed? {
      Reads(p, c, 0, ids);
      assert CustomerKept(p, c);
      F.ExpireFits(p.world, c, s, env);
      R.ExpireSound(c, s, env);
      CommitKeeps(p, c, x, 0, ids);
    }
  }

  lemma UsageKeeps(p: Plane, c: CustomerId, n: NodeId, at: int, counted: Option<nat>, ids: C.Ids)
    requires Kept(p) && F.FreshIds(p.world, CustomerOf(p, c), EnvOf(p, 0, ids))
    ensures Kept(Commit(p, c, C.Account(c, CustomerOf(p, c), n, at, counted, EnvOf(p, 0, ids))))
  {
    var s, env := CustomerOf(p, c), EnvOf(p, 0, ids);
    var x := C.Account(c, s, n, at, counted, env);
    if x.Committed? {
      Reads(p, c, 0, ids);
      assert CustomerKept(p, c);
      UsageFits(p.world, c, s, n, at, counted, env);
      R.AccountSound(c, s, n, at, counted, env);
      CommitKeeps(p, c, x, 0, ids);
    }
  }

  lemma UsageFits(w: D.World, c: CustomerId, s: C.Customer, n: NodeId, at: int, counted: Option<nat>, env: C.Env)
    requires F.View(w, c, s, env) && I.AccessRows(w) && R.Presences(s) && C.Account(c, s, n, at, counted, env).Committed?
    ensures var x := C.Account(c, s, n, at, counted, env);
            && x.ent == s.ent && Places(s, x, env)
            && (x.write.Some? ==> D.Fits(w, x.write.value) && x.write.value.customer == c && x.write.value.lifecycle == x.ent.lifecycle)
  {
    if C.Account(c, s, n, at, counted, env).write.Some? { F.AccountFits(w, c, s, n, at, counted, env); }
  }

  lemma MaterializeKeeps(p: Plane, c: CustomerId, ids: C.Ids)
    requires Kept(p) && F.FreshIds(p.world, CustomerOf(p, c), EnvOf(p, 0, ids))
    ensures Kept(Commit(p, c, C.Materialize(c, CustomerOf(p, c), EnvOf(p, 0, ids))))
  {
    var s, env := CustomerOf(p, c), EnvOf(p, 0, ids);
    var x := C.Materialize(c, s, env);
    if x.Committed? {
      Reads(p, c, 0, ids);
      assert CustomerKept(p, c);
      F.MaterializeFits(p.world, c, s, env);
      R.MaterializeSound(c, s, env);
      MaterializePlaces(c, s, env);
      CommitKeeps(p, c, x, 0, ids);
    }
  }

  // ------------------------------------------------------------------ the other steps

  lemma JobsKeep(p: Plane, p': Plane)
    requires Kept(p) && p' == p.(jobs := p'.jobs)
    ensures Kept(p')
  {
    forall c ensures SameLifecycle(p', c) {
      assert SameLifecycle(p, c);
    }
    forall c ensures CustomerKept(p', c) {
      assert CustomerKept(p, c);
    }
  }

  lemma ProcessKeeps(p: Plane, r: nat, next: Option<CustomerId>, ids: C.Ids)
    requires Kept(p) && r in p.jobs
    requires next.Some? ==> F.FreshIds(p.world, CustomerOf(p, next.value), EnvOf(p, 0, ids))
    ensures Kept(Processed(p, r, next, ids))
  {
    if next.Some? {
      MaterializeKeeps(p, next.value, ids);
      var x := C.Materialize(next.value, CustomerOf(p, next.value), EnvOf(p, 0, ids));
      if !x.Rejected? { JobsKeep(Commit(p, next.value, x), Processed(p, r, next, ids)); }
    } else {
      JobsKeep(p, Processed(p, r, next, ids));
    }
  }

  lemma ManifestKeeps(p: Plane, m: M.Submission)
    requires Kept(p) && Accepts(p, m)
    ensures Kept(ManifestAccepted(p, m))
  {
    var p' := ManifestAccepted(p, m);
    W.StepKeeps(p.world, D.Step.Manifest(m.snapshot.nodes.Keys));
    M.AcceptedKeeps(p.projection, m.revision, m.snapshot, m.allowDestructive);
    ManifestAgrees(p, m);
    ManifestCustomers(p, m);
  }

  lemma ManifestCustomers(p: Plane, m: M.Submission)
    requires (forall c :: CustomerKept(p, c)) && Accepts(p, m)
    ensures forall c :: CustomerKept(ManifestAccepted(p, m), c)
  {
    forall c ensures CustomerKept(ManifestAccepted(p, m), c) {
      assert CustomerKept(p, c);
      AllStayPlaced(p.projection, m, CustomerOf(p, c));
    }
  }

  lemma ManifestAgrees(p: Plane, m: M.Submission)
    requires Agrees(p)
    ensures Agrees(ManifestAccepted(p, m))
  {
    forall b ensures SameLifecycle(ManifestAccepted(p, m), b) {
      assert SameLifecycle(p, b);
    }
  }

  lemma AllStayPlaced(q: M.Projection, m: M.Submission, s: C.Customer)
    requires M.KeepsPairs(q, m.snapshot) && q.fleets <= m.snapshot.fleets.Keys && AllPlaced(q, s)
    ensures AllPlaced(M.Projected(q, m.revision, m.snapshot), s)
  {
    forall a | a in s.rows ensures Placed(M.Projected(q, m.revision, m.snapshot), s.ent.fleet, s.rows[a]) {
      StaysPlaced(q, m, s.ent.fleet, s.rows[a]);
    }
  }

  lemma StaysPlaced(q: M.Projection, m: M.Submission, f: FleetId, row: Access)
    requires M.KeepsPairs(q, m.snapshot) && q.fleets <= m.snapshot.fleets.Keys && Placed(q, f, row)
    ensures Placed(M.Projected(q, m.revision, m.snapshot), f, row)
  {
    if row.target.Bridge? { M.ProjectedBridges(q, m.revision, m.snapshot, (f, row.target.routingKey)); }
  }

  lemma FinalizeFrames(p: Plane, c: CustomerId)
    requires D.DeletionReady(p.world.db, c)
    ensures IsEmpty(CustomerOf(DeletionFinalized(p, c), c).rows)
    ensures forall b | b != c :: CustomerOf(DeletionFinalized(p, c), b) == CustomerOf(p, b)
    ensures Agrees(p) ==> Agrees(DeletionFinalized(p, c))
  {
    hide D.DeletionReady, Agrees;
    forall b | b != c ensures CustomerOf(DeletionFinalized(p, c), b) == CustomerOf(p, b) {
      FinalizedOther(p.world.db, c, b);
    }
    if Agrees(p) { FinalizeAgrees(p, c); }
  }

  lemma FinalizedOther(db: D.Db, c: CustomerId, b: CustomerId)
    requires b != c
    ensures F.RowsOf(D.Finalized(db, c), b) == F.RowsOf(db, b)
  {
  }

  lemma FinalizeAgrees(p: Plane, c: CustomerId)
    requires Agrees(p)
    ensures Agrees(DeletionFinalized(p, c))
  {
    forall b ensures SameLifecycle(DeletionFinalized(p, c), b) {
      assert SameLifecycle(p, b);
    }
  }

  lemma FinalizeKeeps(p: Plane, c: CustomerId)
    requires Kept(p) && DeletionDue(p, c)
    ensures Kept(DeletionFinalized(p, c))
  {
    var p' := DeletionFinalized(p, c);
    W.StepKeeps(p.world, D.Step.Finalize(c));
    FinalizeFrames(p, c);
    EmptyKept(p', c);
    OthersKept(p, p', c);
  }

  lemma EmptyKept(p: Plane, c: CustomerId)
    requires IsEmpty(CustomerOf(p, c).rows) && CustomerOf(p, c).periods == [] && CustomerOf(p, c).ent.lifecycle.Deleted?
    ensures CustomerKept(p, c)
  {
  }

  // -------------------------------------------------------------- protocol background

  /** Rows that differ at most in how far they are delivered. */
  ghost predicate OnlyApply(rows: map<AccessId, Access>, rows': map<AccessId, Access>) {
    && rows'.Keys == rows.Keys
    && forall a | a in rows :: rows'[a] == rows[a].(apply := rows'[a].apply)
  }

  lemma ProtocolRows(w: D.World, d: D.Step)
    requires Background(d) && D.Enabled(w, d)
    ensures var w' := D.After(w, d);
            && OnlyApply(w.db.accesses, w'.db.accesses) && w'.db.customers == w.db.customers
            && w.db.now <= w'.db.now && w'.db.nodes.Keys == w.db.nodes.Keys
            && w'.usedAccesses == w.usedAccesses
            && (forall n | n in w.db.nodes :: w'.db.nodes[n].current == w.db.nodes[n].current)
  {
    if d.Record? {
      RecordedRows(w, d.op, d.outcome, d.delay);
    } else if d.Accept? {
      AcceptedRows(w, d.node);
    }
    hide OnlyApply, D.Recorded, D.Accepted, D.Fits;
    if !d.Record? && !d.Accept? { SameOnlyApply(w.db.accesses); }
  }

  lemma SameOnlyApply(rows: map<AccessId, Access>)
    ensures OnlyApply(rows, rows)
  {
  }

  lemma RecordedRows(w: D.World, o: OperationId, outcome: D.Outcome, delay: nat)
    requires D.CanRecord(w, o, outcome)
    ensures var db' := D.RecordStep(w, o, outcome, delay).db;
            OnlyApply(w.db.accesses, db'.accesses) && db'.customers == w.db.customers && db'.nodes == w.db.nodes && db'.now == w.db.now
  {
  }

  lemma AcceptedRows(w: D.World, n: NodeId)
    requires n in w.claims
    ensures var db' := D.AcceptStep(w, n).db;
            && OnlyApply(w.db.accesses, db'.accesses) && db'.customers == w.db.customers && db'.now == w.db.now
            && db'.nodes.Keys == w.db.nodes.Keys && forall m | m in w.db.nodes :: db'.nodes[m].current == w.db.nodes[m].current
  {
  }

  lemma OnlyApplySound(s: C.Customer, s': C.Customer, now: int, later: int)
    requires R.Sound(s, now) && now <= later && OnlyApply(s.rows, s'.rows) && s'.ent == s.ent && s'.periods == s.periods
    ensures R.Sound(s', later)
  {
  }

  lemma OnlyApplyRows(db: D.Db, db': D.Db, c: CustomerId)
    requires OnlyApply(db.accesses, db'.accesses)
    ensures OnlyApply(F.RowsOf(db, c), F.RowsOf(db', c))
  {
  }

  lemma ProtocolKeeps(p: Plane, d: D.Step)
    requires Kept(p) && Background(d) && D.Enabled(p.world, d)
    ensures Kept(p.(world := D.After(p.world, d)))
  {
    hide D.After, D.Enabled, I.Inv, M.Consistent, R.Sound, AllPlaced;
    var p' := p.(world := D.After(p.world, d));
    W.StepKeeps(p.world, d);
    ProtocolRows(p.world, d);
    forall c ensures SameLifecycle(p', c) {
      assert SameLifecycle(p, c);
    }
    forall c ensures CustomerKept(p', c) {
      assert CustomerKept(p, c);
      OnlyApplyRows(p.world.db, p'.world.db, c);
      OnlyApplySound(CustomerOf(p, c), CustomerOf(p', c), p.world.db.now, p'.world.db.now);
      OnlyApplyPlaced(p.projection, CustomerOf(p, c), CustomerOf(p', c));
    }
  }

  lemma OnlyApplyPlaced(q: M.Projection, s: C.Customer, s': C.Customer)
    requires AllPlaced(q, s) && OnlyApply(s.rows, s'.rows) && s'.ent == s.ent
    ensures AllPlaced(q, s')
  {
    forall a | a in s'.rows ensures Placed(q, s.ent.fleet, s'.rows[a]) {
      assert Placed(q, s.ent.fleet, s.rows[a]) && s'.rows[a] == s.rows[a].(apply := s'.rows[a].apply);
    }
  }

  // --------------------------------------------------------------------- every run

  lemma InitialKept(p: Plane)
    requires Initial(p)
    ensures Kept(p)
  {
    W.InitialKeeps(p.world);
  }

  lemma StepKept(p: Plane, s: Step)
    requires Kept(p) && Enabled(p, s)
    ensures Kept(After(p, s))
  {
    hide Kept, F.FreshIds, Accepts, D.Enabled;
    match s
    case Command(c, cmd, grace, ids) => CommandKeeps(p, c, cmd, grace, ids);
    case Expire(c, ids) => ExpireKeeps(p, c, ids);
    case Usage(c, n, at, counted, ids) => UsageKeeps(p, c, n, at, counted, ids);
    case Process(r, next, ids) => ProcessKeeps(p, r, next, ids);
    case Manifest(m) => ManifestKeeps(p, m);
    case Finalize(c) => FinalizeKeeps(p, c);
    case Protocol(d) => ProtocolKeeps(p, d);
  }

  lemma {:induction false} RunKept(ps: seq<Plane>, steps: seq<Step>, i: nat)
    requires Run(ps, steps) && i < |ps|
    ensures Kept(ps[i])
  {
    hide Kept, Enabled, After;
    if i == 0 {
      InitialKept(ps[0]);
    } else {
      RunKept(ps, steps, i - 1);
      StepKept(ps[i - 1], steps[i - 1]);
    }
  }
}
