/** What the delivery protocol guarantees about every run. */
module DeliverySafety {
  import opened Types
  import opened Delivery
  import opened DeliveryInvariant
  import opened DeliveryKeeps
  import opened DeliveryWrites
  import opened DeliveryProgress

  // ----------------------------------------------------------------- revocation

  /** A confirmed ABSENT of a live access is really gone from its node, whichever of the
      dispatcher and the reconciler confirmed it. */
  lemma RevocationIsReal(ws: seq<World>, steps: seq<Step>, i: nat, a: AccessId)
    requires Run(ws, steps) && i < |ws|
    requires a in ws[i].db.accesses && !ws[i].db.accesses[a].retired
    requires ws[i].db.accesses[a].desired.Absent? && ws[i].db.accesses[a].apply.Applied?
    requires ws[i].db.accesses[a].node !in ws[i].departed
    ensures var n := ws[i].db.accesses[a].node;
            n in ws[i].agents && a !in ws[i].agents[n]
  {
    RunKeeps(ws, steps, i);
  }

  // ------------------------------------------------------------- history of a row

  /** The second row is the first one, or a later version of it. */
  predicate Continues(before: Access, after: Access) {
    && after.customer == before.customer && after.target == before.target
    && after.generation == before.generation && after.node == before.node
    && before.version <= after.version
    && (before.retired ==> after.retired && after.desired.Absent?)
    && (before.version == after.version ==> after == before.(apply := after.apply))
  }

  lemma CommitContinues(w: World, p: Write, a: AccessId)
    requires AccessRows(w) && Fits(w, p) && a in AfterWrite(w.db, p).accesses
    ensures a in w.db.accesses ==> Continues(w.db.accesses[a], AfterWrite(w.db, p).accesses[a])
    ensures a !in w.db.accesses ==> a !in w.usedAccesses
  {
    if a in w.db.accesses {
      assert a in p.updates ==> UpdateFits(w, p, a);
      assert a in p.unsent ==> UnsentFits(w, p, a);
    } else {
      assert CreateFits(w, p, a);
    }
  }

  lemma StepContinues(w: World, s: Step, a: AccessId)
    requires AccessRows(w) && Enabled(w, s)
    ensures w.usedAccesses <= After(w, s).usedAccesses
    ensures a in After(w, s).db.accesses && a in w.db.accesses ==>
              Continues(w.db.accesses[a], After(w, s).db.accesses[a])
    ensures a in After(w, s).db.accesses && a !in w.db.accesses ==> a !in w.usedAccesses
  {
    hide Fits;
    if s.Commit? && a in After(w, s).db.accesses {
      CommitContinues(w, s.write, a);
    }
  }

  lemma NextRow(ws: seq<World>, steps: seq<Step>, k: nat, a: AccessId)
    requires Run(ws, steps) && k < |steps| && a in ws[k].usedAccesses
    ensures a in ws[k + 1].usedAccesses
    ensures a in ws[k + 1].db.accesses ==> a in ws[k].db.accesses && Continues(ws[k].db.accesses[a], ws[k + 1].db.accesses[a])
  {
    RunKeeps(ws, steps, k);
    StepContinues(ws[k], steps[k], a);
  }

  /** A row present at two moments was never gone in between and only moved forward; one
      that is gone never returns. */
  lemma {:induction false} RowHistory(ws: seq<World>, steps: seq<Step>, i: nat, j: nat, a: AccessId)
    requires Run(ws, steps) && i <= j < |ws| && a in ws[i].usedAccesses
    ensures a in ws[j].usedAccesses
    ensures a in ws[j].db.accesses ==> a in ws[i].db.accesses && Continues(ws[i].db.accesses[a], ws[j].db.accesses[a])
  {
    if i == j {
      SameRow(ws, steps, i, a);
    } else {
      RowHistory(ws, steps, i, j - 1, a);
      NextRow(ws, steps, j - 1, a);
      if a in ws[j].db.accesses { ContinuesOn(ws[i].db.accesses[a], ws[j - 1].db.accesses[a], ws[j].db.accesses[a]); }
    }
  }

  lemma SameRow(ws: seq<World>, steps: seq<Step>, i: nat, a: AccessId)
    requires Run(ws, steps) && i < |ws|
    ensures a in ws[i].db.accesses ==> Continues(ws[i].db.accesses[a], ws[i].db.accesses[a])
  {
    RunKeeps(ws, steps, i);
  }

  lemma ContinuesOn(a: Access, b: Access, c: Access)
    requires Continues(a, b) && Continues(b, c)
    ensures Continues(a, c)
  {
  }

  /** Once a customer's deletion is finalized, none of its users is configured on any node
      that stayed in the manifest, then or ever after. */
  lemma DeletedCustomerLeavesNoUser(ws: seq<World>, steps: seq<Step>, i: nat, j: nat, c: CustomerId, a: AccessId, n: NodeId)
    requires Run(ws, steps) && i < |steps| && i < j < |ws| && steps[i] == Finalize(c)
    requires a in ws[i].db.accesses && ws[i].db.accesses[a].customer == c
    requires n in ws[j].agents && n !in ws[j].departed
    ensures a !in ws[j].agents[n]
  {
    RunKeeps(ws, steps, i);
    RunKeeps(ws, steps, j);
    StepContinues(ws[i], steps[i], a);
    RowHistory(ws, steps, i + 1, j, a);
  }

  // ----------------------------------------------------------- mutual exclusion

  /** At most one operation per node is IN_FLIGHT, never beside an unexpired reconcile
      lease, so a dispatched call and a full set are never both able to reach a node. */
  lemma MutualExclusion(ws: seq<World>, steps: seq<Step>, i: nat, n: NodeId)
    requires Run(ws, steps) && i < |ws|
    ensures forall o, o' | o in ws[i].db.ops && o' in ws[i].db.ops
              && ws[i].db.ops[o].node == n && ws[i].db.ops[o'].node == n
              && ws[i].db.ops[o].status.InFlight? && ws[i].db.ops[o'].status.InFlight? :: o == o'
    ensures LeaseHeld(ws[i].db, n) ==> NoneInFlight(ws[i].db, n)
    ensures (exists users :: Enabled(ws[i], LandSet(n, users))) ==>
              forall o | o in ws[i].calls && ws[i].calls[o].node == n :: !Enabled(ws[i], Land(o))
  {
    RunKeeps(ws, steps, i);
    var w := ws[i];
    if ClaimAlive(w, n) {
      assert ClaimRow(w, n);
      forall o | o in w.calls && w.calls[o].node == n ensures !CallAlive(w, o) {
        assert CallAlive(w, o) ==> CallRow(w, o);
      }
    }
  }

  // -------------------------------------------------------------- queue freshness

  /** Waiting operations are current, versions are issued once, and no call goes out for a
      version other than the one read with the lease. */
  lemma QueueFreshness(ws: seq<World>, steps: seq<Step>, i: nat)
    requires Run(ws, steps) && i < |ws|
    ensures forall o | o in ws[i].db.ops && Waiting(ws[i].db.ops[o].status) ::
              && ws[i].db.ops[o].access in ws[i].db.accesses
              && ws[i].db.ops[o].version == ws[i].db.accesses[ws[i].db.ops[o].access].version
              && ws[i].db.ops[o].kind == ws[i].db.accesses[ws[i].db.ops[o].access].desired
    ensures forall o, o' | o in ws[i].db.ops && o' in ws[i].db.ops
              && ws[i].db.ops[o].access == ws[i].db.ops[o'].access
              && ws[i].db.ops[o].version == ws[i].db.ops[o'].version :: o == o'
    ensures forall o | CallAlive(ws[i], o) :: ws[i].calls[o].seenVersion == ws[i].calls[o].version
  {
    RunKeeps(ws, steps, i);
    var w := ws[i];
    forall o | o in w.db.ops && Waiting(w.db.ops[o].status)
      ensures w.db.ops[o].access in w.db.accesses
        && w.db.ops[o].version == w.db.accesses[w.db.ops[o].access].version
        && w.db.ops[o].kind == w.db.accesses[w.db.ops[o].access].desired
    {
      assert OpRow(w, o) && QueueRow(w, o);
    }
    forall o | CallAlive(w, o) ensures w.calls[o].seenVersion == w.calls[o].version {
      assert CallRow(w, o);
    }
  }

  lemma RecordFinal(w: World, o: OperationId, outcome: Outcome, delay: nat, p: OperationId)
    requires Calls(w) && CanRecord(w, o, outcome) && p in w.db.ops && Terminal(w.db.ops[p].status)
    ensures RecordStep(w, o, outcome, delay).db.ops[p] == w.db.ops[p]
  {
    assert CallRow(w, o);
  }

  lemma StepFinal(w: World, s: Step, o: OperationId)
    requires OpRows(w) && Calls(w) && Enabled(w, s) && o in w.db.ops && Terminal(w.db.ops[o].status)
    ensures o in After(w, s).db.ops ==> After(w, s).db.ops[o] == w.db.ops[o]
  {
    assert OpRow(w, o);
    if s.Record? { RecordFinal(w, s.op, s.outcome, s.delay, o); }
  }

  lemma NextFinal(ws: seq<World>, steps: seq<Step>, i: nat, o: OperationId)
    requires Run(ws, steps) && i < |steps| && o in ws[i].db.ops && Terminal(ws[i].db.ops[o].status)
    ensures o in ws[i + 1].db.ops ==> ws[i + 1].db.ops[o] == ws[i].db.ops[o]
    ensures o in ws[i].usedOps
  {
    RunKeeps(ws, steps, i);
    assert OpRow(ws[i], o);
    StepFinal(ws[i], steps[i], o);
  }

  /** A finished operation is never changed again; it can only be deleted. */
  lemma {:induction false} TerminalIsFinal(ws: seq<World>, steps: seq<Step>, i: nat, j: nat, o: OperationId)
    requires Run(ws, steps) && i <= j < |ws|
    requires o in ws[i].db.ops && Terminal(ws[i].db.ops[o].status)
    ensures o in ws[j].db.ops ==> ws[j].db.ops[o] == ws[i].db.ops[o]
  {
    if i < j {
      TerminalIsFinal(ws, steps, i, j - 1, o);
      NextFinal(ws, steps, i, o);
      OpHistory(ws, steps, i, j - 1, o);
      StepOps(ws[j - 1], steps[j - 1], o);
      if o in ws[j - 1].db.ops { NextFinal(ws, steps, j - 1, o); }
    }
  }

  predicate SamePayload(op: Operation, op': Operation) {
    op'.node == op.node && op'.access == op.access && op'.kind == op.kind && op'.version == op.version
  }

  lemma StepOps(w: World, s: Step, o: OperationId)
    requires Enabled(w, s) && o in w.usedOps
    ensures o in After(w, s).usedOps
    ensures o in After(w, s).db.ops ==> o in w.db.ops && SamePayload(w.db.ops[o], After(w, s).db.ops[o])
  {
  }

  lemma {:induction false} OpHistory(ws: seq<World>, steps: seq<Step>, i: nat, j: nat, o: OperationId)
    requires Run(ws, steps) && i <= j < |ws| && o in ws[i].usedOps
    ensures o in ws[j].usedOps
    ensures o in ws[j].db.ops ==> o in ws[i].db.ops && SamePayload(ws[i].db.ops[o], ws[j].db.ops[o])
  {
    if i < j {
      OpHistory(ws, steps, i, j - 1, o);
      StepOps(ws[j - 1], steps[j - 1], o);
    }
  }

  /** Every attempt of one operation carries the same payload, so a retried operation id
      never reaches an agent with different contents. */
  lemma PayloadIsStable(ws: seq<World>, steps: seq<Step>, i: nat, j: nat, o: OperationId)
    requires Run(ws, steps) && i < j < |steps|
    requires steps[i].TakeLease? && steps[i].op == o && steps[j].TakeLease? && steps[j].op == o
    ensures var first, again := CallFor(ws[i].db, o, steps[i].ttl), CallFor(ws[j].db, o, steps[j].ttl);
            && first.node == again.node && first.access == again.access && first.kind == again.kind
            && first.version == again.version && first.egress == again.egress
  {
    RunKeeps(ws, steps, i);
    RunKeeps(ws, steps, j);
    assert OpRow(ws[i], o) && QueueRow(ws[i], o) && OpRow(ws[j], o) && QueueRow(ws[j], o);
    OpHistory(ws, steps, i, j, o);
    RowHistory(ws, steps, i, j, ws[i].db.ops[o].access);
  }

  // -------------------------------------------------------------- reconcile guard

  ghost predicate TakenAt(ws: seq<World>, steps: seq<Step>, n: NodeId, i: nat, j: int)
    requires |ws| == |steps| + 1 && i < |ws|
  {
    && 0 <= j < i && steps[j].TakeNode? && steps[j].node == n
    && n in ws[i].claims && n in ws[j].db.nodes
    && ws[i].claims[n].before == RowsAt(ws[j].db, n)
    && ws[i].claims[n].revision == ws[j].db.nodes[n].revision
  }

  lemma StepClaim(w: World, s: Step, n: NodeId)
    requires Enabled(w, s) && n in After(w, s).claims
    ensures (s.TakeNode? && s.node == n && n in w.db.nodes
             && After(w, s).claims[n].before == RowsAt(w.db, n)
             && After(w, s).claims[n].revision == w.db.nodes[n].revision)
         || (n in w.claims && After(w, s).claims[n].before == w.claims[n].before
             && After(w, s).claims[n].revision == w.claims[n].revision)
  {
  }

  lemma {:induction false} ClaimOrigin(ws: seq<World>, steps: seq<Step>, i: nat, n: NodeId)
    requires Run(ws, steps) && i < |ws| && n in ws[i].claims
    ensures exists j :: TakenAt(ws, steps, n, i, j)
  {
    if i > 0 {
      StepClaim(ws[i - 1], steps[i - 1], n);
      if steps[i - 1].TakeNode? && steps[i - 1].node == n {
        assert TakenAt(ws, steps, n, i, i - 1);
      } else {
        ClaimOrigin(ws, steps, i - 1, n);
        var j :| TakenAt(ws, steps, n, i - 1, j);
        assert TakenAt(ws, steps, n, i, j);
      }
    }
  }

  /** If an accept goes through on a node that stayed in the manifest, no desired state and
      no egress of the accesses the claim read has changed since that claim, and every
      access it should list now was already listed then. */
  lemma ReconcileGuard(ws: seq<World>, steps: seq<Step>, i: nat, n: NodeId)
    requires Run(ws, steps) && i < |steps| && steps[i] == Accept(n)
    requires Acceptable(ws[i].db, n, ws[i].claims[n].revision) && n !in ws[i].departed
    ensures exists j :: TakenAt(ws, steps, n, i, j)
    ensures forall j, a | TakenAt(ws, steps, n, i, j) && a in ws[j].db.accesses && a in ws[i].db.accesses
              && ws[j].db.accesses[a].node == n ::
              && ws[i].db.accesses[a].desired == ws[j].db.accesses[a].desired
              && ws[i].db.accesses[a].egress == ws[j].db.accesses[a].egress
    ensures forall j, a | TakenAt(ws, steps, n, i, j) && Listable(ws[i].db, n, a) :: Listable(ws[j].db, n, a)
  {
    RunKeeps(ws, steps, i);
    ClaimOrigin(ws, steps, i, n);
    assert GuardRow(ws[i], n);
    forall j, a | TakenAt(ws, steps, n, i, j) && a in ws[j].db.accesses && a in ws[i].db.accesses
      && ws[j].db.accesses[a].node == n
      ensures ws[i].db.accesses[a].desired == ws[j].db.accesses[a].desired
        && ws[i].db.accesses[a].egress == ws[j].db.accesses[a].egress
    {
      assert a in ws[i].claims[n].before;
    }
  }

  // ---------------------------------------------------------------- no work is lost

  /** With full claims, an unconfirmed access has exactly one live operation of its current
      version, and it carries the desired state.  Any other live operation of the access is
      a superseded attempt still in flight. */
  lemma NoWorkLost(ws: seq<World>, steps: seq<Step>, i: nat, a: AccessId)
    requires Run(ws, steps) && i < |ws|
    requires forall k | 0 <= k < |steps| :: AdmitsAll(ws[k], steps[k])
    requires a in ws[i].db.accesses && Unconfirmed(ws[i].db.accesses[a])
    ensures exists o :: Carries(ws[i], o, a) && ws[i].db.ops[o].kind == ws[i].db.accesses[a].desired
              && ws[i].db.ops[o].node == ws[i].db.accesses[a].node
              && forall o' | o' in ws[i].db.ops && ws[i].db.ops[o'].access == a && Live(ws[i].db.ops[o'].status) ::
                   o' == o || (ws[i].db.ops[o'].status.InFlight? && ws[i].db.ops[o'].version < ws[i].db.accesses[a].version)
  {
    RunFull(ws, steps, i);
    RunKeeps(ws, steps, i);
    OneCarrier(ws[i], a);
  }

  lemma OneCarrier(w: World, a: AccessId)
    requires Inv(w) && NothingLost(w) && a in w.db.accesses && Unconfirmed(w.db.accesses[a])
    ensures exists o :: Carries(w, o, a) && w.db.ops[o].kind == w.db.accesses[a].desired
              && w.db.ops[o].node == w.db.accesses[a].node
              && forall o' | o' in w.db.ops && w.db.ops[o'].access == a && Live(w.db.ops[o'].status) ::
                   o' == o || (w.db.ops[o'].status.InFlight? && w.db.ops[o'].version < w.db.accesses[a].version)
  {
    var o :| Carries(w, o, a);
    assert OpRow(w, o);
    forall o' | o' in w.db.ops && w.db.ops[o'].access == a && Live(w.db.ops[o'].status)
      ensures o' == o || (w.db.ops[o'].status.InFlight? && w.db.ops[o'].version < w.db.accesses[a].version)
    {
      assert OpRow(w, o') && QueueRow(w, o');
    }
  }

  /** With full claims, a confirmed PRESENT is on its node with its current egress. */
  lemma PresentIsOnNode(ws: seq<World>, steps: seq<Step>, i: nat, a: AccessId)
    requires Run(ws, steps) && i < |ws|
    requires forall k | 0 <= k < |steps| :: AdmitsAll(ws[k], steps[k])
    requires a in ws[i].db.accesses && ConfirmedPresent(ws[i].db.accesses[a])
    ensures var row := ws[i].db.accesses[a];
            row.node in ws[i].agents && a in ws[i].agents[row.node] && ws[i].agents[row.node][a] == row.egress
  {
    RunFull(ws, steps, i);
  }
}
