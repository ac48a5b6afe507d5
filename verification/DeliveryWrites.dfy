/** Manifests, deletions and the desired-state writers keep the invariant. */
module DeliveryWrites {
  import opened Types
  import opened Delivery
  import opened DeliveryInvariant
  import opened DeliveryKeeps

  // -------------------------------------------------------------------- manifest

  lemma ManifestTables(w: World, snapshot: set<NodeId>)
    requires Tables(w)
    ensures Tables(ManifestStep(w, snapshot))
  {
    var w' := ManifestStep(w, snapshot);
    forall o | o in w'.db.ops ensures OpRow(w', o) && QueueRow(w', o) {
      assert OpRow(w, o) && QueueRow(w, o);
    }
    KeepFlight(w, w');
  }

  lemma ManifestWorkers(w: World, snapshot: set<NodeId>)
    requires Tables(w) && Workers(w)
    ensures Workers(ManifestStep(w, snapshot))
  {
    var w' := ManifestStep(w, snapshot);
    forall o | o in w'.calls && CallAlive(w', o) ensures CallRow(w', o) {
      assert CallRow(w, o);
    }
    forall n | n in w'.claims ensures GuardRow(w', n) && (ClaimAlive(w', n) ==> ClaimRow(w', n)) {
      assert GuardRow(w, n) && (ClaimAlive(w, n) ==> ClaimRow(w, n));
      assert forall a :: Listable(w'.db, n, a) <==> Listable(w.db, n, a);
    }
  }

  lemma ManifestAgents(w: World, snapshot: set<NodeId>)
    requires AccessRows(w) && Actors(w) && Agents(w)
    ensures Agents(ManifestStep(w, snapshot))
  {
  }

  // -------------------------------------------------------------------- deletion

  lemma FinalizeTables(w: World, c: CustomerId)
    requires Tables(w) && DeletionReady(w.db, c)
    ensures Tables(FinalizeStep(w, c))
  {
    var w' := FinalizeStep(w, c);
    forall o | o in w'.db.ops ensures OpRow(w', o) && QueueRow(w', o) {
      assert OpRow(w, o) && QueueRow(w, o);
    }
    KeepFlight(w, w');
  }

  lemma FinalizeCalls(w: World, c: CustomerId)
    requires OpRows(w) && Calls(w) && DeletionReady(w.db, c)
    ensures Calls(FinalizeStep(w, c))
  {
    var w' := FinalizeStep(w, c);
    forall o | o in w'.calls && CallAlive(w', o) ensures CallRow(w', o) {
      assert CallRow(w, o) && OpRow(w, o);
    }
  }

  lemma FinalizeClaims(w: World, c: CustomerId)
    requires Claims(w) && DeletionReady(w.db, c)
    ensures Claims(FinalizeStep(w, c))
  {
    var w' := FinalizeStep(w, c);
    forall n | n in w'.claims && ClaimAlive(w', n) ensures ClaimRow(w', n) {
      assert ClaimRow(w, n);
    }
  }

  lemma FinalizeGuard(w: World, c: CustomerId)
    requires Guard(w)
    ensures Guard(FinalizeStep(w, c))
  {
    var w' := FinalizeStep(w, c);
    forall n | n in w'.claims ensures GuardRow(w', n) {
      assert GuardRow(w, n);
      assert forall a :: Listable(w'.db, n, a) ==> Listable(w.db, n, a);
    }
  }

  lemma FinalizeAgents(w: World, c: CustomerId)
    requires Actors(w) && AccessRows(w) && Agents(w) && DeletionReady(w.db, c)
    ensures Agents(FinalizeStep(w, c))
  {
  }

  // ------------------------------------------------------- desired-state writers

  /** What a committed transaction did to one existing access row. */
  ghost predicate RowMoved(w: World, p: Write, a: AccessId)
    requires a in w.db.accesses
  {
    var row, row' := w.db.accesses[a], WrittenRow(w.db.accesses[a], a, p);
    && row'.node == row.node && row'.customer == row.customer
    && (a !in p.updates ==> row' == row)
    && (a in p.updates ==> row'.version == row.version + 1)
    && (row'.retired ==> row'.desired.Absent?)
    && (row.retired ==> row'.retired)
    && (Issues(w.db, p, a) ==> row'.apply.Pending?)
    && (!Issues(w.db, p, a) && row.node !in w.departed ==> row'.desired == row.desired && row'.egress == row.egress)
    && (row'.retired && !row.retired ==> !LifecycleOf(AfterWrite(w.db, p), row.customer).Deleting?)
  }

  lemma MovedRow(w: World, p: Write, a: AccessId)
    requires AccessRows(w) && Actors(w) && Fits(w, p) && a in w.db.accesses
    ensures RowMoved(w, p, a)
  {
    if a in p.updates { assert UpdateFits(w, p, a); }
    if a in p.unsent { assert UnsentFits(w, p, a); }
    assert a !in p.creates;
  }

  /** A row that ends confirmed ABSENT on a staying node was so before, or is new. */
  lemma ConfirmedRow(w: World, p: Write, a: AccessId)
    requires AccessRows(w) && Actors(w) && Fits(w, p) && a in w.db.accesses
    requires WrittenRow(w.db.accesses[a], a, p).apply.Applied?
    ensures a in p.updates ==> Skipped(CommitStep(w, p), WrittenRow(w.db.accesses[a], a, p))
    ensures Tracked(AfterWrite(w.db, p), w.db.accesses[a]) && a !in p.updates ==> Tracked(w.db, w.db.accesses[a])
  {
    if a in p.updates { assert UpdateFits(w, p, a); }
    if a in p.unsent { assert UnsentFits(w, p, a); }
  }

  lemma CommitRefs(w: World, p: Write)
    requires AccessRows(w) && Actors(w) && OpRows(w) && UniqueVersions(w) && Fits(w, p)
    ensures AccessRows(CommitStep(w, p)) && OpRows(CommitStep(w, p)) && UniqueVersions(CommitStep(w, p))
  {
    CommitAccessRows(w, p);
    CommitOpRows(w, p);
    CommitUniqueVersions(w, p);
  }

  lemma CommitAccessRows(w: World, p: Write)
    requires AccessRows(w) && Actors(w) && Fits(w, p)
    ensures AccessRows(CommitStep(w, p))
  {
    var w' := CommitStep(w, p);
    forall a | a in w'.db.accesses
      ensures a in w'.usedAccesses && w'.db.accesses[a].node in w'.db.nodes
      ensures w'.db.accesses[a].retired ==> w'.db.accesses[a].desired.Absent?
      ensures !LifecycleOf(w'.db, w'.db.accesses[a].customer).Deleted?
    {
      if a in w.db.accesses {
        MovedRow(w, p, a);
      } else {
        assert CreateFits(w, p, a);
      }
    }
  }

  lemma CommitOpRows(w: World, p: Write)
    requires AccessRows(w) && Actors(w) && OpRows(w) && Fits(w, p)
    ensures OpRows(CommitStep(w, p))
  {
    var w' := CommitStep(w, p);
    forall o | o in w'.db.ops ensures OpRow(w', o) {
      if o in w.db.ops {
        assert OpRow(w, o);
        MovedRow(w, p, w.db.ops[o].access);
      }
    }
  }

  /** A new operation carries a version no operation of its access has had. */
  lemma NewVersion(w: World, p: Write, o: OperationId, o': OperationId)
    requires AccessRows(w) && Actors(w) && Fits(w, p)
    requires o in p.ops && o' in w.db.ops && OpRow(w, o') && p.ops[o].access == w.db.ops[o'].access
    ensures w.db.ops[o'].version < p.ops[o].version
  {
    assert p.ops[o].access !in p.creates;
    MovedRow(w, p, p.ops[o].access);
  }

  lemma CommitUniqueVersions(w: World, p: Write)
    requires AccessRows(w) && Actors(w) && OpRows(w) && UniqueVersions(w) && Fits(w, p)
    ensures UniqueVersions(CommitStep(w, p))
  {
    var w' := CommitStep(w, p);
    forall o, o' | o in p.ops && o' in w.db.ops && p.ops[o].access == w.db.ops[o'].access
      ensures w.db.ops[o'].version < p.ops[o].version
    {
      assert OpRow(w, o');
      NewVersion(w, p, o, o');
    }
    UniqueUnion(w, p);
  }

  lemma UniqueUnion(w: World, p: Write)
    requires UniqueVersions(w) && p.ops.Keys !! w.db.ops.Keys
    requires forall o, o' | o in p.ops && o' in p.ops && p.ops[o].access == p.ops[o'].access :: o == o'
    requires forall o, o' | o in p.ops && o' in w.db.ops && p.ops[o].access == w.db.ops[o'].access ::
               w.db.ops[o'].version < p.ops[o].version
    ensures UniqueVersions(CommitStep(w, p))
  {
  }

  lemma CommitQueueOld(w: World, p: Write, o: OperationId)
    requires AccessRows(w) && Actors(w) && Fits(w, p)
    requires o in w.db.ops && OpRow(w, o) && QueueRow(w, o) && o !in p.ops
    requires OpRow(CommitStep(w, p), o)
    ensures QueueRow(CommitStep(w, p), o)
  {
    hide AccessRows, Actors, OpsFit, TouchedFits, LifecycleFits;
    var a := w.db.ops[o].access;
    MovedRow(w, p, a);
    if a in p.updates { assert UpdateFits(w, p, a); }
  }

  lemma CommitQueueNew(w: World, p: Write, o: OperationId)
    requires AccessRows(w) && Actors(w) && Fits(w, p)
    requires o in p.ops && OpRow(CommitStep(w, p), o)
    ensures QueueRow(CommitStep(w, p), o)
  {
    var a := p.ops[o].access;
    if a in w.db.accesses {
      MovedRow(w, p, a);
    } else {
      assert CreateFits(w, p, a);
    }
  }

  lemma CommitQueue(w: World, p: Write)
    requires AccessRows(w) && Actors(w) && OpRows(w) && Queue(w) && Fits(w, p)
    requires OpRows(CommitStep(w, p))
    ensures Queue(CommitStep(w, p))
  {
    var w' := CommitStep(w, p);
    forall o | o in w'.db.ops ensures QueueRow(w', o) {
      assert OpRow(w', o);
      if o in p.ops {
        CommitQueueNew(w, p, o);
      } else {
        assert OpRow(w, o) && QueueRow(w, o);
        CommitQueueOld(w, p, o);
      }
    }
  }

  lemma CommitTables(w: World, p: Write)
    requires Tables(w) && Fits(w, p)
    ensures Tables(CommitStep(w, p))
  {
    var w' := CommitStep(w, p);
    CommitRefs(w, p);
    CommitQueue(w, p);
    CommitFlight(w, p);
    CommitActors(w, p);
  }

  lemma CommitFlight(w: World, p: Write)
    requires SingleFlight(w) && Exclusive(w)
    ensures SingleFlight(CommitStep(w, p)) && Exclusive(CommitStep(w, p))
  {
  }

  lemma CommitActors(w: World, p: Write)
    requires Actors(w)
    ensures Actors(CommitStep(w, p))
  {
  }

  lemma CommitCall(w: World, p: Write, o: OperationId)
    requires AccessRows(w) && Actors(w) && Fits(w, p)
    requires CallAlive(w, o) && CallRow(w, o) && OpRow(w, o)
    ensures CallRow(CommitStep(w, p), o)
  {
    var a := w.calls[o].access;
    CalledOp(w, p, o);
    MovedRow(w, p, a);
    if WrittenRow(w.db.accesses[a], a, p).apply.Applied? {
      ConfirmedRow(w, p, a);
    }
  }

  lemma CalledOp(w: World, p: Write, o: OperationId)
    requires OpsFit(w, p) && o in w.calls && CallRow(w, o) && OpRow(w, o)
    ensures o in CommitStep(w, p).db.ops && CommitStep(w, p).db.ops[o] == w.db.ops[o]
  {
  }

  lemma CommitCalls(w: World, p: Write)
    requires AccessRows(w) && Actors(w) && OpRows(w) && Calls(w) && Fits(w, p)
    ensures Calls(CommitStep(w, p))
  {
    forall o | o in w.calls && CallAlive(w, o) ensures CallRow(CommitStep(w, p), o) {
      assert CallRow(w, o) && OpRow(w, o);
      CommitCall(w, p, o);
    }
  }

  /** Whatever is confirmed ABSENT after the transaction on a staying node is a new row
      or was already confirmed ABSENT before. */
  lemma StillAbsent(w: World, p: Write, a: AccessId)
    requires AccessRows(w) && Actors(w) && Fits(w, p)
    requires a in AfterWrite(w.db, p).accesses
    requires ConfirmedAbsent(AfterWrite(w.db, p), AfterWrite(w.db, p).accesses[a])
    requires AfterWrite(w.db, p).accesses[a].node !in w.departed
    ensures a !in w.usedAccesses ||
            (a in w.db.accesses && ConfirmedAbsent(w.db, w.db.accesses[a])
             && w.db.accesses[a].node == AfterWrite(w.db, p).accesses[a].node)
  {
    if a in w.db.accesses {
      ConfirmedRow(w, p, a);
      MovedRow(w, p, a);
    } else {
      assert CreateFits(w, p, a);
    }
  }

  lemma CommitClaims(w: World, p: Write)
    requires AccessRows(w) && Actors(w) && Claims(w) && Fits(w, p)
    ensures Claims(CommitStep(w, p))
  {
    var w' := CommitStep(w, p);
    forall n | n in w'.claims && ClaimAlive(w', n) ensures ClaimRow(w', n) {
      assert ClaimAlive(w, n) && ClaimRow(w, n);
      CommitClaim(w, p, n);
    }
  }

  lemma CommitClaim(w: World, p: Write, n: NodeId)
    requires AccessRows(w) && Actors(w) && Fits(w, p) && n in w.claims && ClaimRow(w, n)
    ensures ClaimRow(CommitStep(w, p), n)
  {
    var w' := CommitStep(w, p);
    forall a | n !in w.departed && a in w'.db.accesses && w'.db.accesses[a].node == n
               && ConfirmedAbsent(w'.db, w'.db.accesses[a])
      ensures a !in w.claims[n].users
    {
      StillAbsent(w, p, a);
    }
    forall a | a in w.claims[n].users && n !in w.departed
      ensures a in w'.db.accesses && w'.db.accesses[a].node == n
    {
      MovedRow(w, p, a);
    }
  }

  /** If the revision did not move, the transaction issued nothing for this node. */
  lemma UntouchedNode(w: World, p: Write, n: NodeId, a: AccessId)
    requires Fits(w, p) && n in w.db.nodes && n !in p.touched
    requires a in WrittenAccesses(w.db.accesses, p) && WrittenAccesses(w.db.accesses, p)[a].node == n
    ensures !Issues(w.db, p, a)
  {
  }

  lemma CommitGuard(w: World, p: Write)
    requires AccessRows(w) && Actors(w) && Guard(w) && Fits(w, p)
    ensures Guard(CommitStep(w, p))
  {
    var w' := CommitStep(w, p);
    forall n | n in w'.claims ensures GuardRow(w', n) {
      assert GuardRow(w, n);
      forall a | a in w.claims[n].before && a in w'.db.accesses ensures w'.db.accesses[a].node == n {
        assert a !in p.creates;
        MovedRow(w, p, a);
      }
      if w'.db.nodes[n].revision == w.claims[n].revision {
        UnchangedNode(w, p, n);
      }
    }
  }

  /** On a node that is not touched no state or egress changes and nothing becomes listable. */
  lemma UnchangedRow(w: World, p: Write, n: NodeId, a: AccessId)
    requires AccessRows(w) && Actors(w) && Fits(w, p) && n in w.db.nodes && n !in p.touched
    requires a in WrittenAccesses(w.db.accesses, p) && WrittenAccesses(w.db.accesses, p)[a].node == n
    ensures var row' := WrittenAccesses(w.db.accesses, p)[a];
            && (n !in w.departed && a in w.db.accesses ==>
                  row'.desired == w.db.accesses[a].desired && row'.egress == w.db.accesses[a].egress)
            && (!row'.retired && row'.desired.Present? ==>
                  a in w.db.accesses && !w.db.accesses[a].retired && w.db.accesses[a].desired.Present?
                  && w.db.accesses[a].node == n && row'.egress == w.db.accesses[a].egress)
  {
    UntouchedNode(w, p, n, a);
    assert a in p.creates ==> CreateFits(w, p, a);
    if a in w.db.accesses {
      MovedRow(w, p, a);
      assert a in p.updates ==> UpdateFits(w, p, a);
      assert a in p.unsent ==> UnsentFits(w, p, a);
    }
  }

  lemma UnchangedNode(w: World, p: Write, n: NodeId)
    requires AccessRows(w) && Actors(w) && Fits(w, p)
    requires n in w.claims && GuardRow(w, n) && w.db.nodes[n].revision == w.claims[n].revision
    requires n !in p.touched
    ensures Unchanged(CommitStep(w, p), n, w.claims[n].before)
  {
    forall a | a in WrittenAccesses(w.db.accesses, p) && WrittenAccesses(w.db.accesses, p)[a].node == n
      ensures var row' := WrittenAccesses(w.db.accesses, p)[a];
            && (n !in w.departed && a in w.db.accesses ==>
                  row'.desired == w.db.accesses[a].desired && row'.egress == w.db.accesses[a].egress)
            && (!row'.retired && row'.desired.Present? ==>
                  Listable(w.db, n, a) && row'.egress == w.db.accesses[a].egress)
    {
      UnchangedRow(w, p, n, a);
    }
    forall a | a in w.claims[n].before && a in WrittenAccesses(w.db.accesses, p)
      ensures a in w.db.accesses && WrittenAccesses(w.db.accesses, p)[a].node == n
    {
      ReadRow(w, p, n, a);
    }
    StillUnchanged(w, CommitStep(w, p), n);
  }

  lemma ReadRow(w: World, p: Write, n: NodeId, a: AccessId)
    requires Actors(w) && Fits(w, p) && n in w.claims && GuardRow(w, n)
    requires a in w.claims[n].before && a in WrittenAccesses(w.db.accesses, p)
    ensures a in w.db.accesses && WrittenAccesses(w.db.accesses, p)[a].node == n
  {
    assert a in p.creates ==> CreateFits(w, p, a);
  }

  lemma StillUnchanged(w: World, w': World, n: NodeId)
    requires n in w.claims && GuardRow(w, n) && Unchanged(w, n, w.claims[n].before)
    requires w'.departed == w.departed
    requires forall a | a in w.claims[n].before && a in w'.db.accesses :: a in w.db.accesses && w'.db.accesses[a].node == n
    requires forall a | a in w'.db.accesses && w'.db.accesses[a].node == n ::
            && (n !in w.departed && a in w.db.accesses ==>
                  w'.db.accesses[a].desired == w.db.accesses[a].desired && w'.db.accesses[a].egress == w.db.accesses[a].egress)
            && (!w'.db.accesses[a].retired && w'.db.accesses[a].desired.Present? ==>
                  Listable(w.db, n, a) && w'.db.accesses[a].egress == w.db.accesses[a].egress)
    ensures Unchanged(w', n, w.claims[n].before)
  {
  }

  lemma CommitAgents(w: World, p: Write)
    requires AccessRows(w) && Actors(w) && Agents(w) && Fits(w, p)
    ensures Agents(CommitStep(w, p))
  {
    var w' := CommitStep(w, p);
    forall a | a in w'.db.accesses && ConfirmedAbsent(w'.db, w'.db.accesses[a])
      && w'.db.accesses[a].node !in w'.departed && w'.db.accesses[a].node in w'.agents
      ensures a !in w'.agents[w'.db.accesses[a].node]
    {
      StillAbsent(w, p, a);
    }
    forall n, a | n in w'.agents && n !in w'.departed && a in w'.agents[n]
      ensures a in w'.db.accesses && w'.db.accesses[a].node == n
    {
      MovedRow(w, p, a);
    }
  }

  // ----------------------------------------------------------------- every step

  lemma InitialKeeps(w: World)
    requires Initial(w)
    ensures Inv(w)
  {
  }

  lemma StepKeeps(w: World, s: Step)
    requires Inv(w) && Enabled(w, s)
    ensures Inv(After(w, s))
  {
    if s.TakeNode? || s.LandSet? || s.Accept? || s.Release? || s.LoseReconciler? {
      ReconcilerKeeps(w, s);
    } else if s.TakeLease? || s.Land? || s.Record? || s.LoseDispatcher? || s.Reap? {
      DispatcherKeeps(w, s);
    } else {
      WriterKeeps(w, s);
    }
  }

  lemma WriterKeeps(w: World, s: Step)
    requires Inv(w) && Enabled(w, s)
    requires s.Tick? || s.Commit? || s.Manifest? || s.Bootstrap? || s.Finalize?
    ensures Inv(After(w, s))
  {
    match s
    case Tick(now) =>
      TickTables(w, now);
      TickWorkers(w, now);
      QuietAgents(w, TickStep(w, now));
    case Commit(p) =>
      CommitTables(w, p);
      CommitCalls(w, p);
      CommitClaims(w, p);
      CommitGuard(w, p);
      CommitAgents(w, p);
    case Manifest(snapshot) =>
      ManifestTables(w, snapshot);
      ManifestWorkers(w, snapshot);
      ManifestAgents(w, snapshot);
    case Bootstrap(n, needed) =>
      BootstrapTables(w, n, needed);
      BootstrapWorkers(w, n, needed);
      QuietAgents(w, BootstrapStep(w, n, needed));
    case Finalize(c) =>
      FinalizeTables(w, c);
      FinalizeCalls(w, c);
      FinalizeClaims(w, c);
      FinalizeGuard(w, c);
      FinalizeAgents(w, c);
  }

  lemma DispatcherKeeps(w: World, s: Step)
    requires Inv(w) && Enabled(w, s)
    requires s.TakeLease? || s.Land? || s.Record? || s.LoseDispatcher? || s.Reap?
    ensures Inv(After(w, s))
  {
    match s
    case TakeLease(o, owner, ttl) =>
      TakeLeaseTables(w, o, owner, ttl);
      TakeLeaseWorkers(w, o, owner, ttl);
      QuietAgents(w, TakeLeaseStep(w, o, owner, ttl));
    case Land(o) =>
      LandTables(w, o);
      LandWorkers(w, o);
      LandAgents(w, o);
    case Record(o, outcome, delay) =>
      RecordTables(w, o, outcome, delay);
      RecordWorkers(w, o, outcome, delay);
      RecordAgents(w, o, outcome, delay);
    case LoseDispatcher(o) =>
      LoseDispatcherKeeps(w, o);
      QuietAgents(w, LoseDispatcherStep(w, o));
    case Reap(picked) =>
      ReapTables(w, picked);
      ReapWorkers(w, picked);
      QuietAgents(w, ReapStep(w, picked));
  }

  lemma TakeNodeKeeps(w: World, n: NodeId, owner: nat, ttl: nat, interval: nat, admitted: set<AccessId>)
    requires Inv(w) && ttl >= 1 && Claimable(w.db, n, interval)
    ensures Inv(TakeNodeStep(w, n, owner, ttl, admitted))
  {
    TakeNodeTables(w, n, owner, ttl, interval, admitted);
    TakeNodeClaims(w, n, owner, ttl, interval, admitted);
    TakeNodeGuard(w, n, owner, ttl, interval, admitted);
    TakeNodeCalls(w, n, owner, ttl, admitted);
    QuietAgents(w, TakeNodeStep(w, n, owner, ttl, admitted));
  }

  lemma LandSetKeeps(w: World, n: NodeId, users: map<AccessId, Egress>)
    requires Inv(w) && CanLandSet(w, n, users)
    ensures Inv(LandSetStep(w, n, users))
  {
    LandSetTables(w, n, users);
    LandSetWorkers(w, n, users);
    LandSetAgents(w, n, users);
  }

  lemma AcceptKeeps(w: World, n: NodeId)
    requires Inv(w) && ClaimAlive(w, n) && w.claims[n].landed
    ensures Inv(AcceptStep(w, n))
  {
    AcceptTables(w, n);
    AcceptWorkers(w, n);
    AcceptAgents(w, n);
  }

  lemma ReleaseKeeps(w: World, n: NodeId, owner: nat)
    requires Inv(w)
    ensures Inv(ReleaseStep(w, n, owner))
  {
    ReleaseTables(w, n, owner);
    ReleaseWorkers(w, n, owner);
    QuietAgents(w, ReleaseStep(w, n, owner));
  }

  lemma ReconcilerKeeps(w: World, s: Step)
    requires Inv(w) && Enabled(w, s)
    requires s.TakeNode? || s.LandSet? || s.Accept? || s.Release? || s.LoseReconciler?
    ensures Inv(After(w, s))
  {
    match s
    case TakeNode(n, owner, ttl, interval, admitted) => TakeNodeKeeps(w, n, owner, ttl, interval, admitted);
    case LandSet(n, users) => LandSetKeeps(w, n, users);
    case Accept(n) => AcceptKeeps(w, n);
    case Release(n, owner) => ReleaseKeeps(w, n, owner);
    case LoseReconciler(n) =>
      LoseReconcilerKeeps(w, n);
      QuietAgents(w, LoseReconcilerStep(w, n));
  }

  /** The invariant holds in every state of every run. */
  lemma {:induction false} RunKeeps(ws: seq<World>, steps: seq<Step>, i: nat)
    requires Run(ws, steps) && i < |ws|
    ensures Inv(ws[i])
  {
    hide Inv, Enabled, After;
    if i == 0 {
      InitialKeeps(ws[0]);
    } else {
      RunKeeps(ws, steps, i - 1);
      StepKeeps(ws[i - 1], steps[i - 1]);
    }
  }
}
