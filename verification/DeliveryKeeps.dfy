/** Every step of the delivery protocol keeps the invariant. */
module DeliveryKeeps {
  import opened Types
  import opened Delivery
  import opened DeliveryInvariant

  // ---------------------------------------------------------------------- frames

  /** The access rows agree except for how far they are delivered. */
  ghost predicate SameRows(db: Db, db': Db) {
    && db'.customers == db.customers
    && db'.nodes.Keys == db.nodes.Keys
    && (forall n | n in db.nodes :: db'.nodes[n].revision == db.nodes[n].revision)
    && db'.accesses.Keys == db.accesses.Keys
    && (forall a | a in db.accesses :: db'.accesses[a] == db.accesses[a].(apply := db'.accesses[a].apply))
  }

  /** The operations agree on what they deliver. */
  ghost predicate SameOps(db: Db, db': Db) {
    && db'.ops.Keys == db.ops.Keys
    && forall o | o in db.ops ::
         && db'.ops[o].node == db.ops[o].node && db'.ops[o].access == db.ops[o].access
         && db'.ops[o].kind == db.ops[o].kind && db'.ops[o].version == db.ops[o].version
  }

  lemma KeepRows(w: World, w': World)
    requires AccessRows(w) && OpRows(w) && UniqueVersions(w)
    requires SameRows(w.db, w'.db) && SameOps(w.db, w'.db)
    requires w'.usedAccesses == w.usedAccesses && w'.usedOps == w.usedOps
    ensures AccessRows(w') && OpRows(w') && UniqueVersions(w')
  {
    forall o | o in w'.db.ops ensures OpRow(w', o) {
      assert OpRow(w, o);
    }
  }

  /** Operations only move among live statuses, or stop being live. */
  lemma KeepQueue(w: World, w': World)
    requires OpRows(w) && OpRows(w') && Queue(w) && SameOps(w.db, w'.db)
    requires w'.db.accesses == w.db.accesses
    requires forall o | o in w.db.ops :: w'.db.ops[o].status == w.db.ops[o].status
               || (w'.db.ops[o].status.InFlight? && Waiting(w.db.ops[o].status))
    ensures Queue(w')
  {
    forall o | o in w'.db.ops ensures QueueRow(w', o) {
      assert QueueRow(w, o);
    }
  }

  /** Claims survive as long as the revision and the desired columns do. */
  lemma KeepGuard(w: World, w': World)
    requires Guard(w) && SameRows(w.db, w'.db)
    requires w.departed <= w'.departed
    requires w'.claims.Keys <= w.claims.Keys
    requires forall n | n in w'.claims :: w'.claims[n] == w.claims[n].(landed := w'.claims[n].landed)
    ensures Guard(w')
  {
    forall n | n in w'.claims ensures GuardRow(w', n) {
      assert GuardRow(w, n);
      assert forall a :: Listable(w'.db, n, a) ==> Listable(w.db, n, a);
    }
  }

  /** No operation enters flight and no reconcile lease appears. */
  lemma KeepFlight(w: World, w': World)
    requires SingleFlight(w) && Exclusive(w)
    requires w'.db.ops.Keys <= w.db.ops.Keys
    requires forall o | o in w'.db.ops && w'.db.ops[o].status.InFlight? ::
               w'.db.ops[o] == w.db.ops[o] && (LeaseHeld(w'.db, w.db.ops[o].node) ==> LeaseHeld(w.db, w.db.ops[o].node))
    ensures SingleFlight(w') && Exclusive(w')
  {
  }

  /** A live claim keeps its node: same lease, and no confirmation reaches its node. */
  lemma KeepClaims(w: World, w': World)
    requires Claims(w) && SameRows(w.db, w'.db)
    requires w.departed <= w'.departed && w.db.now <= w'.db.now
    requires w'.claims.Keys <= w.claims.Keys
    requires forall n | n in w'.claims && ClaimAlive(w', n) ::
               && w'.claims[n] == w.claims[n].(landed := w'.claims[n].landed)
               && (n in w.db.nodes ==> w'.db.nodes[n].lease == w.db.nodes[n].lease)
               && (w'.claims[n].landed ==> n in w'.agents && w'.agents[n] == w.claims[n].users)
               && (forall a | a in w.db.accesses && w.db.accesses[a].node == n ::
                     w'.db.accesses[a].apply == w.db.accesses[a].apply)
    ensures Claims(w')
  {
    forall n | n in w'.claims && ClaimAlive(w', n) ensures ClaimRow(w', n) {
      assert ClaimAlive(w, n) && ClaimRow(w, n);
    }
  }

  /** Accesses and operations stand; a lease may be lost but none appears. */
  lemma QuietTables(w: World, w': World)
    requires Tables(w)
    requires w'.db.accesses == w.db.accesses && w'.db.ops == w.db.ops && SameRows(w.db, w'.db)
    requires w'.usedAccesses == w.usedAccesses && w'.usedOps == w.usedOps && w'.agents == w.agents
    requires w'.calls.Keys <= w.calls.Keys && w'.claims.Keys <= w.claims.Keys
    requires forall n | n in w'.claims :: w'.claims[n] == w.claims[n]
    requires w.departed <= w'.departed
    requires forall n | n in w.db.nodes :: w'.db.nodes[n].current == w.db.nodes[n].current
               && (LeaseHeld(w'.db, n) ==> LeaseHeld(w.db, n))
    ensures Tables(w')
  {
    KeepRows(w, w');
    KeepFlight(w, w');
    KeepQueue(w, w');
  }

  /** The workers see the same rows, agents and leases. */
  lemma QuietWorkers(w: World, w': World)
    requires AccessRows(w) && Workers(w)
    requires w'.db.accesses == w.db.accesses && w'.db.ops == w.db.ops && SameRows(w.db, w'.db)
    requires w'.agents == w.agents && w.departed <= w'.departed && w.db.now <= w'.db.now
    requires w'.calls.Keys <= w.calls.Keys && w'.claims.Keys <= w.claims.Keys
    requires forall o | o in w'.calls :: w'.calls[o] == w.calls[o]
    requires forall n | n in w'.claims :: w'.claims[n] == w.claims[n]
    requires forall n | n in w'.claims && n in w.db.nodes
               && w.db.nodes[n].lease == Some(Lease(w.claims[n].owner, w.claims[n].deadline)) ::
               w'.db.nodes[n].lease == w.db.nodes[n].lease
    ensures Workers(w')
  {
    forall o | o in w'.calls && CallAlive(w', o) ensures CallRow(w', o) {
      assert CallAlive(w, o) && CallRow(w, o);
    }
    QuietClaims(w, w');
    KeepGuard(w, w');
  }

  lemma QuietClaims(w: World, w': World)
    requires Claims(w)
    requires w'.db.accesses == w.db.accesses && SameRows(w.db, w'.db)
    requires w'.agents == w.agents && w.departed <= w'.departed && w.db.now <= w'.db.now
    requires w'.claims.Keys <= w.claims.Keys
    requires forall n | n in w'.claims :: w'.claims[n] == w.claims[n]
    requires forall n | n in w'.claims && n in w.db.nodes
               && w.db.nodes[n].lease == Some(Lease(w.claims[n].owner, w.claims[n].deadline)) ::
               w'.db.nodes[n].lease == w.db.nodes[n].lease
    ensures Claims(w')
  {
    forall n | n in w'.claims && ClaimAlive(w', n) ensures ClaimRow(w', n) {
      assert ClaimAlive(w, n) && ClaimRow(w, n);
    }
  }

  // --------------------------------------------------- steps that write few columns

  lemma TickTables(w: World, now: int)
    requires Tables(w) && w.db.now <= now
    ensures Tables(TickStep(w, now))
  {
    QuietTables(w, TickStep(w, now));
  }

  lemma TickWorkers(w: World, now: int)
    requires Tables(w) && Workers(w) && w.db.now <= now
    ensures Workers(TickStep(w, now))
  {
    QuietWorkers(w, TickStep(w, now));
  }

  lemma LoseDispatcherKeeps(w: World, o: OperationId)
    requires Tables(w) && Workers(w)
    ensures Tables(LoseDispatcherStep(w, o)) && Workers(LoseDispatcherStep(w, o))
  {
    QuietTables(w, LoseDispatcherStep(w, o));
    QuietWorkers(w, LoseDispatcherStep(w, o));
  }

  lemma LoseReconcilerKeeps(w: World, n: NodeId)
    requires Tables(w) && Workers(w)
    ensures Tables(LoseReconcilerStep(w, n)) && Workers(LoseReconcilerStep(w, n))
  {
    QuietTables(w, LoseReconcilerStep(w, n));
    QuietWorkers(w, LoseReconcilerStep(w, n));
  }

  lemma BootstrapTables(w: World, n: NodeId, needed: bool)
    requires Tables(w) && n in w.db.nodes
    ensures Tables(BootstrapStep(w, n, needed))
  {
    QuietTables(w, BootstrapStep(w, n, needed));
  }

  lemma BootstrapWorkers(w: World, n: NodeId, needed: bool)
    requires Tables(w) && Workers(w) && n in w.db.nodes
    ensures Workers(BootstrapStep(w, n, needed))
  {
    QuietWorkers(w, BootstrapStep(w, n, needed));
  }

  lemma ReleaseTables(w: World, n: NodeId, owner: nat)
    requires Tables(w)
    ensures Tables(ReleaseStep(w, n, owner))
  {
    QuietTables(w, ReleaseStep(w, n, owner));
  }

  lemma ReleaseWorkers(w: World, n: NodeId, owner: nat)
    requires Tables(w) && Workers(w)
    ensures Workers(ReleaseStep(w, n, owner))
  {
    QuietWorkers(w, ReleaseStep(w, n, owner));
  }

  lemma QuietAgents(w: World, w': World)
    requires Agents(w)
    requires w'.db.accesses == w.db.accesses && w'.db.customers == w.db.customers
    requires w'.agents == w.agents && w.departed <= w'.departed
    ensures Agents(w')
  {
  }

  // ------------------------------------------------------------------ a dispatcher

  lemma TakeLeaseTables(w: World, o: OperationId, owner: nat, ttl: nat)
    requires Tables(w) && CanTakeLease(w, o, ttl)
    ensures Tables(TakeLeaseStep(w, o, owner, ttl))
  {
    var w' := TakeLeaseStep(w, o, owner, ttl);
    TakeLeaseRows(w, o, owner, ttl);
    KeepRows(w, w');
    TakeLeaseExclusive(w, o, owner, ttl);
    KeepQueue(w, w');
    TakeLeaseActors(w, o, owner, ttl);
  }

  lemma TakeLeaseRows(w: World, o: OperationId, owner: nat, ttl: nat)
    requires CanTakeLease(w, o, ttl)
    ensures var w' := TakeLeaseStep(w, o, owner, ttl);
            && SameRows(w.db, w'.db) && SameOps(w.db, w'.db)
            && w'.usedAccesses == w.usedAccesses && w'.usedOps == w.usedOps && w'.db.accesses == w.db.accesses
            && forall p | p in w.db.ops :: w'.db.ops[p].status == w.db.ops[p].status
                 || (w'.db.ops[p].status.InFlight? && Waiting(w.db.ops[p].status))
  {
  }

  lemma TakeLeaseActors(w: World, o: OperationId, owner: nat, ttl: nat)
    requires Actors(w) && OpRows(w) && CanTakeLease(w, o, ttl)
    ensures Actors(TakeLeaseStep(w, o, owner, ttl))
  {
    assert OpRow(w, o);
  }

  lemma TakeLeaseExclusive(w: World, o: OperationId, owner: nat, ttl: nat)
    requires SingleFlight(w) && Exclusive(w) && CanTakeLease(w, o, ttl)
    ensures SingleFlight(TakeLeaseStep(w, o, owner, ttl)) && Exclusive(TakeLeaseStep(w, o, owner, ttl))
  {
  }

  lemma TakeLeaseWorkers(w: World, o: OperationId, owner: nat, ttl: nat)
    requires Tables(w) && Workers(w) && CanTakeLease(w, o, ttl)
    ensures Workers(TakeLeaseStep(w, o, owner, ttl))
  {
    hide AccessRows, UniqueVersions, SingleFlight, Guard;
    var w' := TakeLeaseStep(w, o, owner, ttl);
    forall p | p in w'.calls && CallAlive(w', p) ensures CallRow(w', p) {
      if p == o {
        assert OpRow(w, o) && QueueRow(w, o);
      } else {
        assert CallRow(w, p);
      }
    }
    KeepClaims(w, w');
    KeepGuard(w, w');
  }

  lemma LandTables(w: World, o: OperationId)
    requires Tables(w) && Calls(w) && CanLand(w, o)
    ensures Tables(LandStep(w, o))
  {
    var w' := LandStep(w, o);
    KeepRows(w, w');
    assert CallRow(w, o) && OpRow(w, o);
    KeepQueue(w, w');
  }

  lemma LandWorkers(w: World, o: OperationId)
    requires Tables(w) && Workers(w) && CanLand(w, o)
    ensures Workers(LandStep(w, o))
  {
    hide AccessRows, UniqueVersions, Queue, Guard;
    var w' := LandStep(w, o);
    assert CallRow(w, o);
    forall p | p in w'.calls && CallAlive(w', p) ensures CallRow(w', p) {
      assert CallRow(w, p);
    }
    forall n | n in w'.claims && ClaimAlive(w', n) ensures ClaimRow(w', n) {
      assert ClaimRow(w, n);
    }
    KeepGuard(w, w');
  }

  lemma LandAgents(w: World, o: OperationId)
    requires Tables(w) && Calls(w) && Agents(w) && CanLand(w, o)
    ensures Agents(LandStep(w, o))
  {
    assert CallRow(w, o) && OpRow(w, o);
  }

  lemma RecordTables(w: World, o: OperationId, outcome: Outcome, delay: nat)
    requires Tables(w) && Calls(w) && CanRecord(w, o, outcome)
    ensures Tables(RecordStep(w, o, outcome, delay))
  {
    hide AccessRows, OpRows, UniqueVersions, Queue, SingleFlight, Exclusive;
    var w' := RecordStep(w, o, outcome, delay);
    RecordRows(w, o, outcome, delay);
    KeepRows(w, w');
    KeepFlight(w, w');
    RecordQueue(w, o, outcome, delay);
  }

  lemma RecordRows(w: World, o: OperationId, outcome: Outcome, delay: nat)
    requires CanRecord(w, o, outcome)
    ensures SameRows(w.db, RecordStep(w, o, outcome, delay).db) && SameOps(w.db, RecordStep(w, o, outcome, delay).db)
  {
  }

  lemma RecordQueue(w: World, o: OperationId, outcome: Outcome, delay: nat)
    requires OpRows(w) && UniqueVersions(w) && Queue(w) && Calls(w) && CanRecord(w, o, outcome)
    requires OpRows(RecordStep(w, o, outcome, delay))
    ensures Queue(RecordStep(w, o, outcome, delay))
  {
    var w' := RecordStep(w, o, outcome, delay);
    assert CallRow(w, o);
    forall p | p in w'.db.ops ensures QueueRow(w', p) {
      assert QueueRow(w, p) && OpRow(w, p) && OpRow(w, o);
    }
  }

  lemma RecordCalls(w: World, o: OperationId, outcome: Outcome, delay: nat)
    requires OpRows(w) && SingleFlight(w) && Calls(w) && CanRecord(w, o, outcome)
    ensures Calls(RecordStep(w, o, outcome, delay))
  {
    var w' := RecordStep(w, o, outcome, delay);
    assert CallRow(w, o);
    forall p | p in w'.calls && CallAlive(w', p) ensures CallRow(w', p) {
      assert CallRow(w, p) && OpRow(w, p) && OpRow(w, o);
    }
  }

  lemma RecordWorkers(w: World, o: OperationId, outcome: Outcome, delay: nat)
    requires Tables(w) && Workers(w) && CanRecord(w, o, outcome)
    ensures Workers(RecordStep(w, o, outcome, delay))
  {
    hide AccessRows, UniqueVersions, Queue, SingleFlight, Guard;
    var w' := RecordStep(w, o, outcome, delay);
    RecordRows(w, o, outcome, delay);
    RecordCalls(w, o, outcome, delay);
    assert CallRow(w, o) && OpRow(w, o);
    forall n | n in w'.claims && ClaimAlive(w', n)
      ensures forall a | a in w.db.accesses && w.db.accesses[a].node == n :: w'.db.accesses[a].apply == w.db.accesses[a].apply
    {
      assert ClaimRow(w, n);
    }
    KeepClaims(w, w');
    KeepGuard(w, w');
  }

  lemma RecordAgents(w: World, o: OperationId, outcome: Outcome, delay: nat)
    requires Tables(w) && Calls(w) && Agents(w) && CanRecord(w, o, outcome)
    ensures Agents(RecordStep(w, o, outcome, delay))
  {
    hide AccessRows, UniqueVersions, Queue, SingleFlight, Exclusive;
    assert CallRow(w, o) && OpRow(w, o);
  }

  lemma ReapTables(w: World, picked: set<OperationId>)
    requires Tables(w) && CanReap(w, picked)
    ensures Tables(ReapStep(w, picked))
  {
    hide AccessRows, UniqueVersions, SingleFlight, Exclusive;
    var w' := ReapStep(w, picked);
    KeepRows(w, w');
    KeepFlight(w, w');
    forall p | p in w'.db.ops ensures QueueRow(w', p) {
      assert QueueRow(w, p) && OpRow(w, p);
    }
  }

  lemma ReapWorkers(w: World, picked: set<OperationId>)
    requires Tables(w) && Workers(w) && CanReap(w, picked)
    ensures Workers(ReapStep(w, picked))
  {
    var w' := ReapStep(w, picked);
    forall p | p in w'.calls && CallAlive(w', p) ensures CallRow(w', p) {
      assert CallRow(w, p);
    }
    KeepClaims(w, w');
    KeepGuard(w, w');
  }

  // ------------------------------------------------------------------ a reconciler

  lemma TakeNodeTables(w: World, n: NodeId, owner: nat, ttl: nat, interval: nat, admitted: set<AccessId>)
    requires Tables(w) && Claimable(w.db, n, interval)
    ensures Tables(TakeNodeStep(w, n, owner, ttl, admitted))
  {
    hide AccessRows, OpRows, UniqueVersions, Queue, Actors, ClaimFor, SingleFlight;
    var w' := TakeNodeStep(w, n, owner, ttl, admitted);
    KeepRows(w, w');
    TakeNodeFlight(w, n, owner, ttl, interval, admitted);
    KeepQueue(w, w');
    TakeNodeActors(w, n, owner, ttl, admitted);
  }

  lemma TakeNodeFlight(w: World, n: NodeId, owner: nat, ttl: nat, interval: nat, admitted: set<AccessId>)
    requires SingleFlight(w) && Exclusive(w) && Claimable(w.db, n, interval)
    ensures SingleFlight(TakeNodeStep(w, n, owner, ttl, admitted)) && Exclusive(TakeNodeStep(w, n, owner, ttl, admitted))
  {
    hide SingleFlight, Exclusive, ClaimFor;
    KeepFlight(w, TakeNodeStep(w, n, owner, ttl, admitted));
  }

  lemma TakeNodeActors(w: World, n: NodeId, owner: nat, ttl: nat, admitted: set<AccessId>)
    requires AccessRows(w) && Actors(w) && n in w.db.nodes
    ensures Actors(TakeNodeStep(w, n, owner, ttl, admitted))
  {
  }

  lemma TakeNodeClaims(w: World, n: NodeId, owner: nat, ttl: nat, interval: nat, admitted: set<AccessId>)
    requires Tables(w) && Claims(w) && Claimable(w.db, n, interval)
    ensures Claims(TakeNodeStep(w, n, owner, ttl, admitted))
  {
    var w' := TakeNodeStep(w, n, owner, ttl, admitted);
    forall m | m in w'.claims && ClaimAlive(w', m) ensures ClaimRow(w', m) {
      if m != n {
        assert ClaimRow(w, m);
      }
    }
  }

  lemma TakeNodeGuard(w: World, n: NodeId, owner: nat, ttl: nat, interval: nat, admitted: set<AccessId>)
    requires Tables(w) && Guard(w) && Claimable(w.db, n, interval)
    ensures Guard(TakeNodeStep(w, n, owner, ttl, admitted))
  {
    var w' := TakeNodeStep(w, n, owner, ttl, admitted);
    forall m | m in w'.claims ensures GuardRow(w', m) {
      assert forall a :: Listable(w'.db, m, a) <==> Listable(w.db, m, a);
      if m != n {
        assert GuardRow(w, m);
      }
    }
  }

  lemma TakeNodeCalls(w: World, n: NodeId, owner: nat, ttl: nat, admitted: set<AccessId>)
    requires Calls(w) && n in w.db.nodes
    ensures Calls(TakeNodeStep(w, n, owner, ttl, admitted))
  {
    var w' := TakeNodeStep(w, n, owner, ttl, admitted);
    forall p | p in w'.calls && CallAlive(w', p) ensures CallRow(w', p) {
      assert CallRow(w, p);
    }
  }

  lemma LandSetTables(w: World, n: NodeId, users: map<AccessId, Egress>)
    requires Tables(w) && CanLandSet(w, n, users)
    ensures Tables(LandSetStep(w, n, users))
  {
    var w' := LandSetStep(w, n, users);
    KeepRows(w, w');
    KeepQueue(w, w');
  }

  lemma LandSetWorkers(w: World, n: NodeId, users: map<AccessId, Egress>)
    requires Tables(w) && Workers(w) && CanLandSet(w, n, users)
    ensures Workers(LandSetStep(w, n, users))
  {
    var w' := LandSetStep(w, n, users);
    assert ClaimRow(w, n);
    forall p | p in w'.calls && CallAlive(w', p) ensures CallRow(w', p) {
      assert CallRow(w, p);
    }
    forall m | m in w'.claims && ClaimAlive(w', m) ensures ClaimRow(w', m) {
      assert ClaimRow(w, m);
    }
    KeepGuard(w, w');
  }

  lemma LandSetAgents(w: World, n: NodeId, users: map<AccessId, Egress>)
    requires Claims(w) && Agents(w) && CanLandSet(w, n, users)
    ensures Agents(LandSetStep(w, n, users))
  {
    assert ClaimRow(w, n);
  }

  lemma AcceptRows(w: World, n: NodeId)
    requires n in w.claims
    ensures SameRows(w.db, AcceptStep(w, n).db) && SameOps(w.db, AcceptStep(w, n).db)
    ensures forall m | m in w.db.nodes :: AcceptStep(w, n).db.nodes[m].lease == w.db.nodes[m].lease
  {
  }

  lemma AcceptTables(w: World, n: NodeId)
    requires Tables(w) && Claims(w) && ClaimAlive(w, n)
    ensures Tables(AcceptStep(w, n))
  {
    hide AccessRows, OpRows, UniqueVersions, Queue, SingleFlight, Exclusive;
    var w' := AcceptStep(w, n);
    AcceptRows(w, n);
    KeepRows(w, w');
    KeepFlight(w, w');
    AcceptQueue(w, n);
  }

  lemma AcceptQueue(w: World, n: NodeId)
    requires OpRows(w) && Exclusive(w) && Queue(w) && Claims(w) && ClaimAlive(w, n)
    requires OpRows(AcceptStep(w, n))
    ensures Queue(AcceptStep(w, n))
  {
    var w' := AcceptStep(w, n);
    assert ClaimRow(w, n);
    forall o | o in w'.db.ops ensures QueueRow(w', o) {
      assert QueueRow(w, o) && OpRow(w, o);
    }
  }

  lemma AcceptCalls(w: World, n: NodeId)
    requires OpRows(w) && Exclusive(w) && Calls(w) && Claims(w) && ClaimAlive(w, n)
    ensures Calls(AcceptStep(w, n))
  {
    var w' := AcceptStep(w, n);
    assert ClaimRow(w, n);
    forall o | o in w'.calls && CallAlive(w', o) ensures CallRow(w', o) {
      assert CallRow(w, o) && OpRow(w, o);
    }
  }

  lemma AcceptWorkers(w: World, n: NodeId)
    requires Tables(w) && Workers(w) && ClaimAlive(w, n)
    ensures Workers(AcceptStep(w, n))
  {
    AcceptCalls(w, n);
    AcceptClaims(w, n);
    AcceptGuard(w, n);
  }

  lemma AcceptClaims(w: World, n: NodeId)
    requires Claims(w) && ClaimAlive(w, n)
    ensures Claims(AcceptStep(w, n))
  {
    AcceptRows(w, n);
    KeepClaims(w, AcceptStep(w, n));
  }

  lemma AcceptGuard(w: World, n: NodeId)
    requires Guard(w) && n in w.claims
    ensures Guard(AcceptStep(w, n))
  {
    AcceptRows(w, n);
    KeepGuard(w, AcceptStep(w, n));
  }

  lemma AcceptAgents(w: World, n: NodeId)
    requires AccessRows(w) && Claims(w) && Guard(w) && Agents(w) && ClaimAlive(w, n) && w.claims[n].landed
    ensures Agents(AcceptStep(w, n))
  {
    assert ClaimRow(w, n) && GuardRow(w, n);
  }
}
