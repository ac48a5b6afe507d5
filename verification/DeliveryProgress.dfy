/** Runs in which every reconcile claim admits all present accesses of its node: no work
    is lost, and a confirmed PRESENT is on its node. */
module DeliveryProgress {
  import opened Types
  import opened Delivery
  import opened DeliveryInvariant
  import opened DeliveryKeeps
  import opened DeliveryWrites

  ghost predicate Carries(w: World, o: OperationId, a: AccessId) {
    && o in w.db.ops && a in w.db.accesses
    && w.db.ops[o].access == a && w.db.ops[o].version == w.db.accesses[a].version && Live(w.db.ops[o].status)
  }

  ghost predicate Unconfirmed(row: Access) {
    !row.retired && (row.apply.Pending? || row.apply.Retrying?)
  }

  ghost predicate ConfirmedPresent(row: Access) {
    !row.retired && row.desired.Present? && row.apply.Applied?
  }

  /** Every unconfirmed access has an operation that will still deliver it. */
  ghost predicate NothingLost(w: World) {
    forall a | a in w.db.accesses && Unconfirmed(w.db.accesses[a]) :: exists o :: Carries(w, o, a)
  }

  /** Every confirmed PRESENT is configured on its node with its current egress. */
  ghost predicate OnNode(w: World) {
    forall a | a in w.db.accesses && ConfirmedPresent(w.db.accesses[a]) ::
      && w.db.accesses[a].node in w.agents
      && a in w.agents[w.db.accesses[a].node]
      && w.agents[w.db.accesses[a].node][a] == w.db.accesses[a].egress
  }

  /** A claim lists every present row it read, and every PRESENT still confirmed. */
  ghost predicate FullClaim(w: World, n: NodeId)
    requires n in w.claims
  {
    var claim := w.claims[n];
    && (forall a | a in claim.before && claim.before[a].desired.Present? && !claim.before[a].retired :: a in claim.users)
    && (ClaimAlive(w, n) ==> forall a | a in w.db.accesses && w.db.accesses[a].node == n
          && ConfirmedPresent(w.db.accesses[a]) :: a in claim.users && claim.users[a] == w.db.accesses[a].egress)
  }

  ghost predicate FullClaims(w: World) {
    forall n | n in w.claims :: FullClaim(w, n)
  }

  ghost predicate Full(w: World) {
    NothingLost(w) && OnNode(w) && FullClaims(w)
  }

  /** The claim admits all present accesses: nothing is filtered by expiry or quota. */
  ghost predicate AdmitsAll(w: World, s: Step) {
    s.TakeNode? ==> forall a | Listable(w.db, s.node, a) :: a in DesiredUsers(w.db, s.node, s.admitted)
  }

  // ---------------------------------------------------------------- nothing is lost

  lemma KeepLost(w: World, w': World)
    requires NothingLost(w)
    requires forall a | a in w'.db.accesses && Unconfirmed(w'.db.accesses[a]) ::
               && a in w.db.accesses && Unconfirmed(w.db.accesses[a])
               && w'.db.accesses[a].version == w.db.accesses[a].version
    requires forall o, a | Carries(w, o, a) && a in w'.db.accesses && Unconfirmed(w'.db.accesses[a]) ::
               o in w'.db.ops && w'.db.ops[o].access == a && w'.db.ops[o].version == w.db.ops[o].version
               && Live(w'.db.ops[o].status)
    ensures NothingLost(w')
  {
    forall a | a in w'.db.accesses && Unconfirmed(w'.db.accesses[a]) ensures exists o :: Carries(w', o, a) {
      var o :| Carries(w, o, a);
      assert Carries(w', o, a);
    }
  }

  lemma CommitLost(w: World, p: Write)
    requires AccessRows(w) && Actors(w) && OpRows(w) && NothingLost(w) && Fits(w, p)
    ensures NothingLost(CommitStep(w, p))
  {
    var w' := CommitStep(w, p);
    forall a | a in w'.db.accesses && Unconfirmed(w'.db.accesses[a]) ensures exists o :: Carries(w', o, a) {
      if Issues(w.db, p, a) {
        IssuedCarries(w, p, a);
      } else {
        NotIssued(w, p, a);
        var o :| Carries(w, o, a);
        UnwrittenCarries(w, p, o, a);
      }
    }
  }

  lemma IssuedCarries(w: World, p: Write, a: AccessId)
    requires a in WrittenAccesses(w.db.accesses, p) && Issues(w.db, p, a) && OpsFit(w, p)
    ensures exists o :: Carries(CommitStep(w, p), o, a)
  {
    var o :| o in p.ops && p.ops[o].access == a;
    assert Carries(CommitStep(w, p), o, a);
  }

  lemma UnwrittenCarries(w: World, p: Write, o: OperationId, a: AccessId)
    requires OpRows(w) && OpsFit(w, p) && Carries(w, o, a) && a !in p.updates
    requires WrittenAccesses(w.db.accesses, p)[a] == w.db.accesses[a]
    ensures Carries(CommitStep(w, p), o, a)
  {
    assert OpRow(w, o);
  }

  /** A row left unconfirmed without an operation was not written at all. */
  lemma NotIssued(w: World, p: Write, a: AccessId)
    requires AccessRows(w) && Actors(w) && Fits(w, p)
    requires a in AfterWrite(w.db, p).accesses && Unconfirmed(AfterWrite(w.db, p).accesses[a])
    requires !Issues(w.db, p, a)
    ensures a in w.db.accesses && a !in p.updates && a !in p.creates
    ensures AfterWrite(w.db, p).accesses[a] == w.db.accesses[a]
  {
    assert a in p.creates ==> CreateFits(w, p, a);
    if a in w.db.accesses {
      MovedRow(w, p, a);
      assert a in p.unsent ==> UnsentFits(w, p, a);
    }
  }

  lemma RecordLost(w: World, o: OperationId, outcome: Outcome, delay: nat)
    requires OpRows(w) && Queue(w) && Calls(w) && NothingLost(w) && CanRecord(w, o, outcome)
    ensures NothingLost(RecordStep(w, o, outcome, delay))
  {
    var w' := RecordStep(w, o, outcome, delay);
    assert CallRow(w, o) && OpRow(w, o) && QueueRow(w, o);
    forall a | a in w'.db.accesses && Unconfirmed(w'.db.accesses[a]) ensures exists p :: Carries(w', p, a) {
      var p :| Carries(w, p, a);
      RecordCarries(w, o, outcome, delay, p, a);
    }
  }

  /** Only the operation recorded as done stops carrying its access. */
  lemma RecordCarries(w: World, o: OperationId, outcome: Outcome, delay: nat, p: OperationId, a: AccessId)
    requires CanRecord(w, o, outcome) && CallRow(w, o) && OpRow(w, o)
    requires Carries(w, p, a) && Unconfirmed(RecordStep(w, o, outcome, delay).db.accesses[a])
    ensures Carries(RecordStep(w, o, outcome, delay), p, a)
  {
  }

  lemma ReapLost(w: World, picked: set<OperationId>)
    requires OpRows(w) && NothingLost(w) && CanReap(w, picked)
    ensures NothingLost(ReapStep(w, picked))
  {
    var w' := ReapStep(w, picked);
    forall o, a | Carries(w, o, a) ensures Carries(w', o, a) {
      assert OpRow(w, o);
    }
    KeepLost(w, w');
  }

  lemma FinalizeLost(w: World, c: CustomerId)
    requires OpRows(w) && NothingLost(w) && DeletionReady(w.db, c)
    ensures NothingLost(FinalizeStep(w, c))
  {
    var w' := FinalizeStep(w, c);
    forall a | a in w'.db.accesses && Unconfirmed(w'.db.accesses[a]) ensures exists o :: Carries(w', o, a) {
      var o :| Carries(w, o, a);
      assert Carries(w', o, a);
    }
  }

  /** The accepted set confirms every non-retired row of the node. */
  lemma AcceptConfirms(w: World, n: NodeId, a: AccessId)
    requires Guard(w) && FullClaims(w) && ClaimAlive(w, n) && Acceptable(w.db, n, w.claims[n].revision)
    requires a in w.db.accesses && w.db.accesses[a].node == n && !w.db.accesses[a].retired
    ensures AcceptStep(w, n).db.accesses[a].apply.Applied?
    ensures w.db.accesses[a].desired.Present? ==>
              a in w.claims[n].users && w.claims[n].users[a] == w.db.accesses[a].egress
  {
    assert GuardRow(w, n) && FullClaim(w, n);
    assert w.db.accesses[a].desired.Present? ==> Listable(w.db, n, a);
  }

  lemma AcceptLost(w: World, n: NodeId)
    requires OpRows(w) && Guard(w) && FullClaims(w) && NothingLost(w) && ClaimAlive(w, n)
    ensures NothingLost(AcceptStep(w, n))
  {
    var w' := AcceptStep(w, n);
    AcceptRows(w, n);
    if Acceptable(w.db, n, w.claims[n].revision) {
      forall a | a in w'.db.accesses && Unconfirmed(w'.db.accesses[a]) ensures exists o :: Carries(w', o, a) {
        if w.db.accesses[a].node == n {
          AcceptConfirms(w, n, a);
        } else {
          var o :| Carries(w, o, a);
          assert OpRow(w, o);
          assert Carries(w', o, a);
        }
      }
    } else {
      KeepLost(w, w');
    }
  }

  // --------------------------------------------------------- confirmed and on its node

  lemma CommitOnNode(w: World, p: Write)
    requires AccessRows(w) && Actors(w) && OnNode(w) && Fits(w, p)
    ensures OnNode(CommitStep(w, p))
  {
    var w' := CommitStep(w, p);
    forall a | a in w'.db.accesses && ConfirmedPresent(w'.db.accesses[a])
      ensures a in w.db.accesses && w'.db.accesses[a] == w.db.accesses[a]
    {
      UntouchedPresent(w, p, a);
    }
  }

  /** No writer confirms a PRESENT. */
  lemma UntouchedPresent(w: World, p: Write, a: AccessId)
    requires AccessRows(w) && Actors(w) && Fits(w, p)
    requires a in AfterWrite(w.db, p).accesses && ConfirmedPresent(AfterWrite(w.db, p).accesses[a])
    ensures a in w.db.accesses && AfterWrite(w.db, p).accesses[a] == w.db.accesses[a]
  {
    assert a in p.creates ==> CreateFits(w, p, a);
    if a in w.db.accesses {
      MovedRow(w, p, a);
      assert a in p.unsent ==> UnsentFits(w, p, a);
    }
  }

  lemma LandOnNode(w: World, o: OperationId)
    requires Calls(w) && OnNode(w) && CanLand(w, o)
    ensures OnNode(LandStep(w, o))
  {
    assert CallRow(w, o);
  }

  lemma RecordOnNode(w: World, o: OperationId, outcome: Outcome, delay: nat)
    requires OpRows(w) && Calls(w) && OnNode(w) && CanRecord(w, o, outcome)
    ensures OnNode(RecordStep(w, o, outcome, delay))
  {
    assert CallRow(w, o) && OpRow(w, o);
    RecordRows(w, o, outcome, delay);
  }

  lemma LandSetOnNode(w: World, n: NodeId, users: map<AccessId, Egress>)
    requires OnNode(w) && FullClaims(w) && CanLandSet(w, n, users)
    ensures OnNode(LandSetStep(w, n, users))
  {
    assert FullClaim(w, n);
  }

  lemma AcceptOnNode(w: World, n: NodeId)
    requires Guard(w) && Claims(w) && FullClaims(w) && OnNode(w) && ClaimAlive(w, n) && w.claims[n].landed
    ensures OnNode(AcceptStep(w, n))
  {
    var w' := AcceptStep(w, n);
    AcceptRows(w, n);
    assert ClaimRow(w, n);
    forall a | a in w'.db.accesses && ConfirmedPresent(w'.db.accesses[a])
      ensures w'.db.accesses[a].node in w'.agents && a in w'.agents[w'.db.accesses[a].node]
        && w'.agents[w'.db.accesses[a].node][a] == w'.db.accesses[a].egress
    {
      if Acceptable(w.db, n, w.claims[n].revision) && w.db.accesses[a].node == n {
        AcceptConfirms(w, n, a);
      }
    }
  }

  // ------------------------------------------------------------------- full claims

  lemma KeepFull(w: World, w': World)
    requires FullClaims(w) && w.db.now <= w'.db.now
    requires w'.claims.Keys <= w.claims.Keys
    requires forall n | n in w'.claims :: w'.claims[n] == w.claims[n].(landed := w'.claims[n].landed)
    requires forall n, a | ClaimAlive(w', n) && a in w'.db.accesses && w'.db.accesses[a].node == n
               && ConfirmedPresent(w'.db.accesses[a]) ::
               && a in w.db.accesses && w.db.accesses[a].node == n && ConfirmedPresent(w.db.accesses[a])
               && w'.db.accesses[a].egress == w.db.accesses[a].egress
    ensures FullClaims(w')
  {
    forall n | n in w'.claims ensures FullClaim(w', n) {
      assert FullClaim(w, n);
    }
  }

  lemma CommitFull(w: World, p: Write)
    requires AccessRows(w) && Actors(w) && FullClaims(w) && Fits(w, p)
    ensures FullClaims(CommitStep(w, p))
  {
    var w' := CommitStep(w, p);
    forall a | a in w'.db.accesses && ConfirmedPresent(w'.db.accesses[a])
      ensures a in w.db.accesses && w'.db.accesses[a] == w.db.accesses[a]
    {
      UntouchedPresent(w, p, a);
    }
    KeepFull(w, w');
  }

  lemma RecordFull(w: World, o: OperationId, outcome: Outcome, delay: nat)
    requires OpRows(w) && Exclusive(w) && Calls(w) && Claims(w) && FullClaims(w) && CanRecord(w, o, outcome)
    ensures FullClaims(RecordStep(w, o, outcome, delay))
  {
    var w' := RecordStep(w, o, outcome, delay);
    assert CallRow(w, o) && OpRow(w, o);
    RecordRows(w, o, outcome, delay);
    forall n | n in w.claims && ClaimAlive(w, n) ensures n != w.db.ops[o].node {
      assert ClaimRow(w, n);
    }
    KeepFull(w, w');
  }

  lemma TakeNodeFull(w: World, n: NodeId, owner: nat, ttl: nat, interval: nat, admitted: set<AccessId>)
    requires Tables(w) && FullClaims(w) && Claimable(w.db, n, interval)
    requires forall a | Listable(w.db, n, a) :: a in DesiredUsers(w.db, n, admitted)
    ensures FullClaims(TakeNodeStep(w, n, owner, ttl, admitted))
  {
    var w' := TakeNodeStep(w, n, owner, ttl, admitted);
    forall m | m in w'.claims ensures FullClaim(w', m) {
      if m == n {
        forall a | a in w'.db.accesses && w'.db.accesses[a].node == n && !w'.db.accesses[a].retired
                   && w'.db.accesses[a].desired.Present?
          ensures a in w'.claims[n].users && w'.claims[n].users[a] == w'.db.accesses[a].egress
        {
          assert Listable(w.db, n, a);
        }
      } else {
        assert FullClaim(w, m);
      }
    }
  }

  lemma AcceptFull(w: World, n: NodeId)
    requires FullClaims(w) && ClaimAlive(w, n)
    ensures FullClaims(AcceptStep(w, n))
  {
    AcceptRows(w, n);
    KeepFull(w, AcceptStep(w, n));
  }

  // ----------------------------------------------------------------- every step

  lemma QuietFull(w: World, w': World)
    requires Full(w) && w'.db.accesses == w.db.accesses && w.db.now <= w'.db.now
    requires w'.agents.Keys >= w.agents.Keys && forall n | n in w.agents :: w'.agents[n] == w.agents[n]
    requires w'.claims.Keys <= w.claims.Keys && forall n | n in w'.claims :: w'.claims[n] == w.claims[n]
    requires w'.db.ops.Keys == w.db.ops.Keys
    requires forall o | o in w.db.ops :: w'.db.ops[o].access == w.db.ops[o].access
               && w'.db.ops[o].version == w.db.ops[o].version && (Live(w.db.ops[o].status) ==> Live(w'.db.ops[o].status))
    ensures Full(w')
  {
    KeepLost(w, w');
    KeepFull(w, w');
  }

  lemma CommitKeepsFull(w: World, p: Write)
    requires Tables(w) && Full(w) && Fits(w, p)
    ensures Full(CommitStep(w, p))
  {
    CommitLost(w, p);
    CommitOnNode(w, p);
    CommitFull(w, p);
  }

  lemma FinalizeKeepsFull(w: World, c: CustomerId)
    requires Tables(w) && Full(w) && DeletionReady(w.db, c)
    ensures Full(FinalizeStep(w, c))
  {
    FinalizeLost(w, c);
    KeepFull(w, FinalizeStep(w, c));
  }

  lemma LandKeepsFull(w: World, o: OperationId)
    requires Calls(w) && Full(w) && CanLand(w, o)
    ensures Full(LandStep(w, o))
  {
    var w' := LandStep(w, o);
    KeepLost(w, w');
    LandOnNode(w, o);
    KeepFull(w, w');
  }

  lemma RecordKeepsFull(w: World, o: OperationId, outcome: Outcome, delay: nat)
    requires Tables(w) && Workers(w) && Full(w) && CanRecord(w, o, outcome)
    ensures Full(RecordStep(w, o, outcome, delay))
  {
    RecordLost(w, o, outcome, delay);
    RecordOnNode(w, o, outcome, delay);
    RecordFull(w, o, outcome, delay);
  }

  lemma ReapKeepsFull(w: World, picked: set<OperationId>)
    requires OpRows(w) && Full(w) && CanReap(w, picked)
    ensures Full(ReapStep(w, picked))
  {
    ReapLost(w, picked);
    KeepFull(w, ReapStep(w, picked));
  }

  lemma TakeNodeKeepsFull(w: World, n: NodeId, owner: nat, ttl: nat, interval: nat, admitted: set<AccessId>)
    requires Tables(w) && Full(w) && Claimable(w.db, n, interval)
    requires forall a | Listable(w.db, n, a) :: a in DesiredUsers(w.db, n, admitted)
    ensures Full(TakeNodeStep(w, n, owner, ttl, admitted))
  {
    KeepLost(w, TakeNodeStep(w, n, owner, ttl, admitted));
    TakeNodeFull(w, n, owner, ttl, interval, admitted);
  }

  lemma LandSetKeepsFull(w: World, n: NodeId, users: map<AccessId, Egress>)
    requires Full(w) && CanLandSet(w, n, users)
    ensures Full(LandSetStep(w, n, users))
  {
    var w' := LandSetStep(w, n, users);
    KeepLost(w, w');
    LandSetOnNode(w, n, users);
    KeepFull(w, w');
  }

  lemma AcceptKeepsFull(w: World, n: NodeId)
    requires OpRows(w) && Guard(w) && Claims(w) && Full(w) && ClaimAlive(w, n) && w.claims[n].landed
    ensures Full(AcceptStep(w, n))
  {
    AcceptLost(w, n);
    AcceptOnNode(w, n);
    AcceptFull(w, n);
  }

  lemma StepFull(w: World, s: Step)
    requires Inv(w) && Full(w) && Enabled(w, s) && AdmitsAll(w, s)
    ensures Full(After(w, s))
  {
    if s.TakeNode? || s.LandSet? || s.Accept? || s.Release? || s.LoseReconciler? {
      ReconcilerFull(w, s);
    } else if s.TakeLease? || s.Land? || s.Record? || s.LoseDispatcher? || s.Reap? {
      DispatcherFull(w, s);
    } else {
      WriterFull(w, s);
    }
  }

  lemma WriterFull(w: World, s: Step)
    requires Tables(w) && Full(w) && Enabled(w, s)
    requires s.Tick? || s.Commit? || s.Manifest? || s.Bootstrap? || s.Finalize?
    ensures Full(After(w, s))
  {
    hide AccessRows, OpRows, Actors, Queue, UniqueVersions, SingleFlight, Exclusive, Fits, DeletionReady;
    match s
    case Tick(now) => QuietFull(w, TickStep(w, now));
    case Commit(p) => CommitKeepsFull(w, p);
    case Manifest(snapshot) => QuietFull(w, ManifestStep(w, snapshot));
    case Bootstrap(n, needed) => QuietFull(w, BootstrapStep(w, n, needed));
    case Finalize(c) => FinalizeKeepsFull(w, c);
  }

  lemma DispatcherFull(w: World, s: Step)
    requires Inv(w) && Full(w) && Enabled(w, s)
    requires s.TakeLease? || s.Land? || s.Record? || s.LoseDispatcher? || s.Reap?
    ensures Full(After(w, s))
  {
    hide Full, AccessRows, OpRows, Actors, Queue, UniqueVersions, SingleFlight, Exclusive, Calls, Claims, Guard, Revoked, NoOrphans;
    match s
    case TakeLease(o, owner, ttl) => QuietFull(w, TakeLeaseStep(w, o, owner, ttl));
    case Land(o) => LandKeepsFull(w, o);
    case Record(o, outcome, delay) => RecordKeepsFull(w, o, outcome, delay);
    case LoseDispatcher(o) => QuietFull(w, LoseDispatcherStep(w, o));
    case Reap(picked) => ReapKeepsFull(w, picked);
  }

  lemma ReconcilerFull(w: World, s: Step)
    requires Inv(w) && Full(w) && Enabled(w, s) && AdmitsAll(w, s)
    requires s.TakeNode? || s.LandSet? || s.Accept? || s.Release? || s.LoseReconciler?
    ensures Full(After(w, s))
  {
    hide Full, AccessRows, OpRows, Actors, Queue, UniqueVersions, SingleFlight, Exclusive, Calls, Claims, Guard, Revoked, NoOrphans;
    match s
    case TakeNode(n, owner, ttl, interval, admitted) => TakeNodeKeepsFull(w, n, owner, ttl, interval, admitted);
    case LandSet(n, users) => LandSetKeepsFull(w, n, users);
    case Accept(n) => AcceptKeepsFull(w, n);
    case Release(n, owner) => QuietFull(w, ReleaseStep(w, n, owner));
    case LoseReconciler(n) => QuietFull(w, LoseReconcilerStep(w, n));
  }

  lemma StartsFull(w: World)
    requires Initial(w)
    ensures Full(w)
  {
  }

  lemma {:induction false} RunFull(ws: seq<World>, steps: seq<Step>, i: nat)
    requires Run(ws, steps) && i < |ws|
    requires forall j | 0 <= j < |steps| :: AdmitsAll(ws[j], steps[j])
    ensures Full(ws[i])
  {
    hide Full, Enabled, After, AdmitsAll, Inv;
    if i == 0 {
      StartsFull(ws[0]);
    } else {
      RunFull(ws, steps, i - 1);
      RunKeeps(ws, steps, i - 1);
      StepFull(ws[i - 1], steps[i - 1]);
    }
  }
}
