/** The inductive invariant of the delivery protocol, one predicate per concern. */
module DeliveryInvariant {
  import opened Types
  import opened Delivery

  // ------------------------------------------------------------------ references

  ghost predicate AccessRows(w: World) {
    forall a | a in w.db.accesses ::
      && a in w.usedAccesses
      && w.db.accesses[a].node in w.db.nodes
      && (w.db.accesses[a].retired ==> w.db.accesses[a].desired.Absent?)
      && !LifecycleOf(w.db, w.db.accesses[a].customer).Deleted?
  }

  /** Foreign keys of agent_operations, and the version an operation may carry. */
  ghost predicate OpRow(w: World, o: OperationId)
    requires o in w.db.ops
  {
    var op := w.db.ops[o];
    && o in w.usedOps
    && op.access in w.db.accesses
    && op.node == w.db.accesses[op.access].node
    && op.version <= w.db.accesses[op.access].version
    && (op.version == w.db.accesses[op.access].version ==> op.kind == w.db.accesses[op.access].desired)
  }

  ghost predicate OpRows(w: World) {
    forall o | o in w.db.ops :: OpRow(w, o)
  }

  ghost predicate Actors(w: World) {
    && w.calls.Keys <= w.usedOps
    && w.claims.Keys <= w.db.nodes.Keys
    && (forall n | n in w.claims :: w.claims[n].users.Keys <= w.claims[n].before.Keys <= w.usedAccesses)
    && w.agents.Keys == w.db.nodes.Keys
    && (forall n | n in w.agents :: w.agents[n].Keys <= w.usedAccesses)
    && (forall n | n in w.db.nodes && !w.db.nodes[n].current :: n in w.departed)
  }

  // ----------------------------------------------------------------------- queue

  /** A waiting operation carries the version of its access, and while any operation of
      the current version is live the delivery of that version is unconfirmed. */
  ghost predicate QueueRow(w: World, o: OperationId)
    requires o in w.db.ops && w.db.ops[o].access in w.db.accesses
  {
    var op, row := w.db.ops[o], w.db.accesses[w.db.ops[o].access];
    && (Waiting(op.status) ==> op.version == row.version)
    && (Live(op.status) && op.version == row.version ==> row.apply.Pending? || row.apply.Retrying?)
  }

  ghost predicate Queue(w: World)
    requires OpRows(w)
  {
    forall o | o in w.db.ops :: QueueRow(w, o)
  }

  ghost predicate UniqueVersions(w: World) {
    forall o, o' | o in w.db.ops && o' in w.db.ops
      && w.db.ops[o].access == w.db.ops[o'].access && w.db.ops[o].version == w.db.ops[o'].version :: o == o'
  }

  // ------------------------------------------------------------- mutual exclusion

  ghost predicate SingleFlight(w: World) {
    forall o, o' | o in w.db.ops && o' in w.db.ops && w.db.ops[o].node == w.db.ops[o'].node
      && w.db.ops[o].status.InFlight? && w.db.ops[o'].status.InFlight? :: o == o'
  }

  ghost predicate Exclusive(w: World) {
    forall o | o in w.db.ops && w.db.ops[o].status.InFlight? ::
      w.db.ops[o].lease.Some? && !LeaseHeld(w.db, w.db.ops[o].node)
  }

  // ------------------------------------------------------------------ dispatchers

  /** An APPLIED that skipped delivery: the row is ABSENT and either its node left the
      manifest or the row is retired. */
  ghost predicate Skipped(w: World, row: Access) {
    row.desired.Absent? && (row.node in w.departed || !Tracked(w.db, row))
  }

  /** While its lease runs, a call belongs to the in-flight operation of its node, its
      payload is that of the version it carries, and once landed the agent shows it. */
  ghost predicate CallRow(w: World, o: OperationId)
    requires o in w.calls
  {
    var call := w.calls[o];
    && o in w.db.ops && w.db.ops[o].status.InFlight?
    && w.db.ops[o].lease.Some? && w.db.ops[o].lease.value.expires == call.deadline
    && w.db.ops[o].node == call.node && w.db.ops[o].access == call.access
    && w.db.ops[o].kind == call.kind && w.db.ops[o].version == call.version
    && call.seenVersion == call.version
    && call.access in w.db.accesses
    && (w.db.accesses[call.access].version == call.version ==> w.db.accesses[call.access].egress == call.egress)
    && (w.db.accesses[call.access].apply.Applied? ==> Skipped(w, w.db.accesses[call.access]))
    && (call.landed ==> call.node in w.agents && AgentShows(w.agents[call.node], call))
  }

  ghost predicate AgentShows(users: map<AccessId, Egress>, call: Call) {
    if call.kind.Present? then call.access in users && users[call.access] == call.egress
    else call.access !in users
  }

  ghost predicate Calls(w: World) {
    forall o | o in w.calls :: CallAlive(w, o) ==> CallRow(w, o)
  }

  // ------------------------------------------------------------------ reconcilers

  /** While its lease runs, a claim owns the node, and its user set agrees with every
      ABSENT that is already confirmed there. */
  ghost predicate ClaimRow(w: World, n: NodeId)
    requires n in w.claims
  {
    var claim := w.claims[n];
    && n in w.db.nodes && w.db.nodes[n].lease == Some(Lease(claim.owner, claim.deadline))
    && (claim.landed ==> n in w.agents && w.agents[n] == claim.users)
    && (n !in w.departed ==>
          && (forall a | a in claim.users :: a in w.db.accesses && w.db.accesses[a].node == n)
          && (forall a | a in w.db.accesses && w.db.accesses[a].node == n && ConfirmedAbsent(w.db, w.db.accesses[a]) ::
                a !in claim.users))
  }

  ghost predicate ConfirmedAbsent(db: Db, row: Access) {
    Tracked(db, row) && row.desired.Absent? && row.apply.Applied?
  }

  ghost predicate Claims(w: World) {
    forall n | n in w.claims :: ClaimAlive(w, n) ==> ClaimRow(w, n)
  }

  /** Nothing on the node changed since the claim read it. */
  ghost predicate Unchanged(w: World, n: NodeId, before: map<AccessId, Access>) {
    && (n !in w.departed ==> forall a | a in before && a in w.db.accesses ::
          w.db.accesses[a].desired == before[a].desired && w.db.accesses[a].egress == before[a].egress)
    && (forall a | Listable(w.db, n, a) ::
          a in before && before[a].desired.Present? && !before[a].retired && before[a].egress == w.db.accesses[a].egress)
  }

  /** The revision read by a claim only grows, and while it stands nothing has changed. */
  ghost predicate GuardRow(w: World, n: NodeId)
    requires n in w.claims
  {
    var claim := w.claims[n];
    && n in w.db.nodes && claim.revision <= w.db.nodes[n].revision
    && (w.db.nodes[n].revision == claim.revision ==> Unchanged(w, n, claim.before))
    && (forall a | a in claim.users :: a in claim.before && claim.before[a].desired.Present?
          && !claim.before[a].retired && claim.users[a] == claim.before[a].egress)
    && (forall a | a in claim.before && a in w.db.accesses :: w.db.accesses[a].node == n)
  }

  ghost predicate Guard(w: World) {
    forall n | n in w.claims :: GuardRow(w, n)
  }

  // ----------------------------------------------------------------------- agents

  /** Revocation is real: a confirmed ABSENT is not configured on its node. */
  ghost predicate Revoked(w: World) {
    forall a | a in w.db.accesses && ConfirmedAbsent(w.db, w.db.accesses[a])
      && w.db.accesses[a].node !in w.departed && w.db.accesses[a].node in w.agents ::
      a !in w.agents[w.db.accesses[a].node]
  }

  /** Every user configured on a node is an existing access of that node. */
  ghost predicate NoOrphans(w: World) {
    forall n, a | n in w.agents && n !in w.departed && a in w.agents[n] ::
      a in w.db.accesses && w.db.accesses[a].node == n
  }

  /** The database on its own. */
  ghost predicate Tables(w: World) {
    && AccessRows(w) && OpRows(w) && UniqueVersions(w) && Queue(w)
    && SingleFlight(w) && Exclusive(w) && Actors(w)
  }

  /** The database against the workers between their transactions. */
  ghost predicate Workers(w: World) {
    Calls(w) && Claims(w) && Guard(w)
  }

  /** The database against the agents. */
  ghost predicate Agents(w: World) {
    Revoked(w) && NoOrphans(w)
  }

  ghost predicate Inv(w: World) {
    Tables(w) && Workers(w) && Agents(w)
  }
}
