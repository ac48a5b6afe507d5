/** Where the promises of the delivery protocol end, and exactly when. */
module DeliveryLimits {
  import opened Types
  import opened Delivery
  import opened DeliveryInvariant
  import opened DeliveryKeeps
  import opened DeliveryWrites
  import opened DeliveryProgress

  // ---------------------------------------------------------------- late results

  /** Why results must be recorded within the lease: while another dispatcher's attempt of the
      same operation runs, a late retry frees the node for a further call exactly when the
      access still has the version it was sent for. */
  lemma LateResultReopensNode(w: World, o: OperationId, late: Call)
    requires Inv(w) && CallAlive(w, o)
    ensures Eligible(Recorded(w.db, o, late, Retryable, 0), o) <==> IsFresh(w.db, late)
  {
    assert CallRow(w, o);
    var db := Recorded(w.db, o, late, Retryable, 0);
    forall p | p in db.ops && db.ops[p].node == db.ops[o].node ensures !db.ops[p].status.InFlight? {
      if p != o { assert OpRow(w, p); }
    }
  }

  // ------------------------------------------------------------- filtered claims

  /** Why claims must admit every PRESENT: an accept completes every waiting operation of the
      node, and a live access stays unconfirmed - now with nothing to deliver it - exactly
      when it was unconfirmed, is PRESENT and was left out of the set. */
  lemma FilteredAcceptLosesWork(w: World, n: NodeId, a: AccessId)
    requires Inv(w) && ClaimAlive(w, n) && Acceptable(w.db, n, w.claims[n].revision)
    requires a in w.db.accesses && w.db.accesses[a].node == n && !w.db.accesses[a].retired
    ensures Unconfirmed(AcceptStep(w, n).db.accesses[a]) <==>
              Unconfirmed(w.db.accesses[a]) && w.db.accesses[a].desired.Present? && a !in w.claims[n].users
    ensures forall o :: !Carries(AcceptStep(w, n), o, a)
  {
    assert GuardRow(w, n) && ClaimRow(w, n);
    forall o ensures !Carries(AcceptStep(w, n), o, a) {
      AcceptCompletes(w, n, o, a);
    }
  }

  lemma AcceptCompletes(w: World, n: NodeId, o: OperationId, a: AccessId)
    requires OpRows(w) && Exclusive(w) && Claims(w) && ClaimAlive(w, n) && Acceptable(w.db, n, w.claims[n].revision)
    requires a in w.db.accesses && w.db.accesses[a].node == n
    ensures !Carries(AcceptStep(w, n), o, a)
  {
    assert ClaimRow(w, n);
    AcceptRows(w, n);
    assert o in w.db.ops ==> OpRow(w, o);
  }

  // ------------------------------------------------------------------ retirement

  /** The same tables, whatever the workers are doing and the agents hold. */
  ghost predicate SameTables(w: World, v: World) {
    && v.db == w.db && v.departed == w.departed
    && v.usedAccesses == w.usedAccesses && v.usedOps == w.usedOps && Inv(v)
  }

  /** The transaction leaves the access APPLIED with its user still configured. */
  ghost predicate LeavesUser(w: World, p: Write, a: AccessId) {
    && a in w.db.accesses && w.db.accesses[a].node in w.agents
    && CommitStep(w, p).db.accesses[a].apply.Applied?
    && a in CommitStep(w, p).agents[w.db.accesses[a].node]
  }

  /** The user of an unconfirmed row may be configured whatever the tables say. */
  function Configured(w: World, a: AccessId): World
    requires a in w.db.accesses && w.db.accesses[a].node in w.agents
  {
    var n := w.db.accesses[a].node;
    w.(calls := map[], claims := map[], agents := w.agents[n := w.agents[n][a := w.db.accesses[a].egress]])
  }

  lemma ConfiguredKeeps(w: World, a: AccessId)
    requires Inv(w) && a in w.db.accesses && w.db.accesses[a].node in w.agents && !w.db.accesses[a].apply.Applied?
    ensures SameTables(w, Configured(w, a))
  {
    hide Tables, Agents;
    ConfiguredTables(w, a);
    ConfiguredAgents(w, a);
  }

  lemma ConfiguredTables(w: World, a: AccessId)
    requires Tables(w) && a in w.db.accesses && w.db.accesses[a].node in w.agents
    ensures Tables(Configured(w, a))
  {
    forall o | o in w.db.ops ensures OpRow(Configured(w, a), o) { assert OpRow(w, o); }
    forall o | o in w.db.ops ensures QueueRow(Configured(w, a), o) { assert QueueRow(w, o); }
    hide OpRow, QueueRow;
  }

  lemma ConfiguredAgents(w: World, a: AccessId)
    requires Agents(w) && a in w.db.accesses && w.db.accesses[a].node in w.agents && !w.db.accesses[a].apply.Applied?
    ensures Agents(Configured(w, a))
  {
  }

  /** A retirement skips delivery of a row that is already ABSENT.  What the planner reads
      rules out that this leaves a user behind on a node of the manifest, unless the row is
      ABSENT and not APPLIED: an earlier revocation is then still on its way, and nothing in
      the tables tells whether it has landed. */
  lemma RetireSkipsDelivery(w: World, p: Write, a: AccessId)
    requires Inv(w) && Fits(w, p) && a in p.updates && p.updates[a].Retire?
    requires w.db.accesses[a].node !in w.departed
    ensures (exists v :: SameTables(w, v) && LeavesUser(v, p, a))
            <==> w.db.accesses[a].desired.Absent? && !w.db.accesses[a].apply.Applied?
  {
    assert UpdateFits(w, p, a);
    assert a in p.unsent ==> UnsentFits(w, p, a);
    forall v | SameTables(w, v) && LeavesUser(v, p, a)
      ensures w.db.accesses[a].desired.Absent? && !w.db.accesses[a].apply.Applied?
    {
    }
    if w.db.accesses[a].desired.Absent? && !w.db.accesses[a].apply.Applied? {
      ConfiguredKeeps(w, a);
      assert LeavesUser(Configured(w, a), p, a);
    }
  }

  // ------------------------------------------------------- deletions that never finish

  /** A retired row whose revocation is unconfirmed and carried by no operation. */
  ghost predicate Stranded(w: World, a: AccessId) {
    && a in w.db.accesses && w.db.accesses[a].retired && !w.db.accesses[a].apply.Applied?
    && forall o :: !Carries(w, o, a)
  }

  /** An accept completes every waiting operation of the node but marks no retired row, so it
      strands exactly the retired rows that were not APPLIED. */
  lemma AcceptStrandsRetired(w: World, n: NodeId, a: AccessId)
    requires Inv(w) && ClaimAlive(w, n) && Acceptable(w.db, n, w.claims[n].revision)
    requires a in w.db.accesses && w.db.accesses[a].node == n
    ensures Stranded(AcceptStep(w, n), a) <==> w.db.accesses[a].retired && !w.db.accesses[a].apply.Applied?
  {
    forall o ensures !Carries(AcceptStep(w, n), o, a) {
      AcceptCompletes(w, n, o, a);
    }
  }

  /** The deletion of this customer waits for a row nothing delivers. */
  ghost predicate Stuck(w: World, a: AccessId, c: CustomerId) {
    Stranded(w, a) && w.db.accesses[a].customer == c && LifecycleOf(w.db, c).Deleting?
  }

  lemma StuckIsNotReady(w: World, a: AccessId, c: CustomerId)
    requires Stuck(w, a, c)
    ensures !DeletionReady(w.db, c)
  {
  }

  /** No operation starts to carry the row. */
  lemma KeepStuck(w: World, w': World, a: AccessId, c: CustomerId)
    requires Stuck(w, a, c) && LifecycleOf(w'.db, c).Deleting?
    requires a in w'.db.accesses && w'.db.accesses[a] == w.db.accesses[a]
    requires forall o | o in w'.db.ops && w'.db.ops[o].access == a && Live(w'.db.ops[o].status) ::
               o in w.db.ops && w.db.ops[o].access == a && Live(w.db.ops[o].status)
               && w.db.ops[o].version == w'.db.ops[o].version
    ensures Stuck(w', a, c)
  {
    forall o ensures !Carries(w', o, a) {
      assert !Carries(w, o, a);
    }
  }

  lemma CommitStuck(w: World, p: Write, a: AccessId, c: CustomerId)
    requires AccessRows(w) && Actors(w) && Fits(w, p) && Stuck(w, a, c) && p.customer != c
    ensures Stuck(CommitStep(w, p), a, c)
  {
    hide TouchedFits, LifecycleFits, Actors;
    assert a in p.creates ==> CreateFits(w, p, a);
    assert a in p.updates ==> UpdateFits(w, p, a);
    assert a in p.unsent ==> UnsentFits(w, p, a);
    KeepStuck(w, CommitStep(w, p), a, c);
  }

  lemma RecordStuck(w: World, o: OperationId, outcome: Outcome, delay: nat, a: AccessId, c: CustomerId)
    requires OpRows(w) && Calls(w) && CanRecord(w, o, outcome) && Stuck(w, a, c)
    ensures Stuck(RecordStep(w, o, outcome, delay), a, c)
  {
    assert CallRow(w, o) && !Carries(w, o, a);
    KeepStuck(w, RecordStep(w, o, outcome, delay), a, c);
  }

  lemma AcceptStuck(w: World, n: NodeId, a: AccessId, c: CustomerId)
    requires n in w.claims && Stuck(w, a, c)
    ensures Stuck(AcceptStep(w, n), a, c)
  {
    KeepStuck(w, AcceptStep(w, n), a, c);
  }

  lemma FinalizeStuck(w: World, d: CustomerId, a: AccessId, c: CustomerId)
    requires DeletionReady(w.db, d) && Stuck(w, a, c)
    ensures Stuck(FinalizeStep(w, d), a, c)
  {
    KeepStuck(w, FinalizeStep(w, d), a, c);
  }

  /** No step but a transaction of the customer itself frees the row. */
  lemma StepStuck(w: World, s: Step, a: AccessId, c: CustomerId)
    requires Inv(w) && Enabled(w, s) && Stuck(w, a, c) && !(s.Commit? && s.write.customer == c)
    ensures Stuck(After(w, s), a, c)
  {
    if s.Commit? || s.Finalize? || s.Accept? {
      RowsStuck(w, s, a, c);
    } else if s.Record? || s.TakeLease? || s.Reap? {
      QueueStuck(w, s, a, c);
    } else {
      QuietStuck(w, s, a, c);
    }
  }

  lemma RowsStuck(w: World, s: Step, a: AccessId, c: CustomerId)
    requires Inv(w) && Enabled(w, s) && Stuck(w, a, c) && !(s.Commit? && s.write.customer == c)
    requires s.Commit? || s.Finalize? || s.Accept?
    ensures Stuck(After(w, s), a, c)
  {
    match s
    case Commit(p) => CommitStuck(w, p, a, c);
    case Finalize(d) => FinalizeStuck(w, d, a, c);
    case Accept(n) => AcceptStuck(w, n, a, c);
  }

  lemma QueueStuck(w: World, s: Step, a: AccessId, c: CustomerId)
    requires Inv(w) && Enabled(w, s) && Stuck(w, a, c)
    requires s.Record? || s.TakeLease? || s.Reap?
    ensures Stuck(After(w, s), a, c)
  {
    hide AccessRows, OpRow, Actors, QueueRow, UniqueVersions, SingleFlight, Exclusive, CallRow, ClaimRow, GuardRow, Revoked, NoOrphans;
    match s
    case Record(o, outcome, delay) => RecordStuck(w, o, outcome, delay, a, c);
    case TakeLease(o, owner, ttl) => KeepStuck(w, TakeLeaseStep(w, o, owner, ttl), a, c);
    case Reap(picked) => KeepStuck(w, ReapStep(w, picked), a, c);
  }

  lemma QuietStuck(w: World, s: Step, a: AccessId, c: CustomerId)
    requires Enabled(w, s) && Stuck(w, a, c)
    requires s.Tick? || s.Manifest? || s.Bootstrap? || s.Land? || s.LoseDispatcher? || s.TakeNode? || s.LandSet? || s.Release? || s.LoseReconciler?
    ensures Stuck(After(w, s), a, c)
  {
    assert After(w, s).db.accesses == w.db.accesses && After(w, s).db.ops == w.db.ops && After(w, s).db.customers == w.db.customers;
    KeepStuck(w, After(w, s), a, c);
  }

  /** Once a row of a DELETING customer is stranded, the deletion can never be finalized
      before another transaction of the customer, whatever the workers do meanwhile. */
  lemma {:induction false} StrandedBlocksDeletion(ws: seq<World>, steps: seq<Step>, i: nat, j: nat, a: AccessId, c: CustomerId)
    requires Run(ws, steps) && i <= j < |ws| && Stuck(ws[i], a, c)
    requires forall k | i <= k < j :: !(steps[k].Commit? && steps[k].write.customer == c)
    ensures Stuck(ws[j], a, c) && !Enabled(ws[j], Finalize(c))
  {
    if i < j {
      StrandedBlocksDeletion(ws, steps, i, j - 1, a, c);
      RunKeeps(ws, steps, j - 1);
      StepStuck(ws[j - 1], steps[j - 1], a, c);
    }
    StuckIsNotReady(ws[j], a, c);
  }

  /** Another accepted deletion frees it: it issues the operation anew, or marks the row when
      its node has left the manifest. */
  lemma DeletionUnstrands(w: World, p: Write, a: AccessId)
    requires Inv(w) && Fits(w, p) && p.lifecycle.Deleting?
    requires a in w.db.accesses && w.db.accesses[a].customer == p.customer
    ensures !Stranded(CommitStep(w, p), a)
  {
    assert UpdateFits(w, p, a);
    if a !in p.unsent { IssuedCarries(w, p, a); }
  }
}
