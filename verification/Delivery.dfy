/** The delivery protocol: the outbox, the reconcile lease and the agents.

    Each transaction (or single SQL statement) of the source is one atomic step on
    `World`.  What is not in PostgreSQL - the workers between their two transactions and
    the users really configured on the agents - is part of `World` too. */
module Delivery {
  import opened Types

  datatype Status = Queued | InFlight | Succeeded | RetryWait | FailedPermanent | Superseded

  datatype Lease = Lease(owner: nat, expires: int)

  /** A row of agent_operations. */
  datatype Operation = Operation(
    node: NodeId, access: AccessId, kind: Desired, version: nat,
    status: Status, nextAttempt: Option<int>, attempts: nat, lease: Option<Lease>)

  /** A row of vpn_nodes, without its configuration columns. */
  datatype Node = Node(
    revision: nat, reconciled: nat, current: bool,
    needsBootstrap: bool, attemptedAt: Option<int>, lease: Option<Lease>)

  /** The tables the protocol reads and writes. */
  datatype Db = Db(
    now: int,
    customers: map<CustomerId, Lifecycle>,
    nodes: map<NodeId, Node>,
    accesses: map<AccessId, Access>,
    ops: map<OperationId, Operation>)

  /** A dispatcher between taking its lease and recording the result: the payload read by
      the leasing statement, the lease deadline, and whether the call has reached the agent. */
  datatype Call = Call(
    node: NodeId, access: AccessId, kind: Desired, version: nat, seenVersion: nat,
    egress: Egress, attempts: nat, deadline: int, landed: bool)

  /** A reconciler between its two transactions: the fixed revision and the full user set.
      `before` remembers every access row of the node as the claim saw it. */
  datatype Claim = Claim(
    owner: nat, revision: nat, users: map<AccessId, Egress>,
    before: map<AccessId, Access>, deadline: int, landed: bool)

  datatype World = World(
    db: Db,
    calls: map<OperationId, Call>,
    claims: map<NodeId, Claim>,
    agents: map<NodeId, map<AccessId, Egress>>,
    departed: set<NodeId>,
    usedAccesses: set<AccessId>,
    usedOps: set<OperationId>)

  // ------------------------------------------------------------------ queries

  predicate Waiting(s: Status) { s.Queued? || s.RetryWait? }

  predicate Live(s: Status) { Waiting(s) || s.InFlight? }

  predicate Terminal(s: Status) { !Live(s) }

  /** An unexpired reconcile lease: the negation of the SQL gate
      (lease IS NULL OR lease < now()). */
  predicate LeaseHeld(db: Db, n: NodeId) {
    n in db.nodes && db.nodes[n].lease.Some? && db.now <= db.nodes[n].lease.value.expires
  }

  predicate NoneInFlight(db: Db, n: NodeId) {
    forall o | o in db.ops && db.ops[o].node == n :: !db.ops[o].status.InFlight?
  }

  function LifecycleOf(db: Db, c: CustomerId): Lifecycle {
    if c in db.customers then db.customers[c] else Deleted
  }

  /** An ABSENT that delivery answers for: retirement may skip delivery, but the forced
      ABSENT of a deletion covers retired rows as well. */
  predicate Tracked(db: Db, row: Access) {
    !row.retired || LifecycleOf(db, row.customer).Deleting?
  }

  // ------------------------------------------------------- desired-state writers

  predicate Issues(db: Db, p: Write, a: AccessId) {
    || (a in p.creates && p.creates[a].desired.Present?)
    || (a in p.updates && a !in p.unsent && (p.updates[a].Retire? ==> p.updates[a].issue))
  }

  predicate CreateFits(w: World, p: Write, a: AccessId)
    requires a in p.creates
  {
    var row := p.creates[a];
    && a !in w.usedAccesses
    && row.customer == p.customer && row.node in w.db.nodes
    && row.version == 1 && !row.retired
    && row.apply == (if row.desired.Present? then Pending else Applied)
  }

  predicate UpdateFits(w: World, p: Write, a: AccessId)
    requires a in p.updates
  {
    && a in w.db.accesses
    && w.db.accesses[a].customer == p.customer
    && w.db.accesses[a].node in w.db.nodes
    && p.updates[a].version == w.db.accesses[a].version + 1
    && (p.updates[a].SetDesired? && p.updates[a].desired.Present? ==> !w.db.accesses[a].retired)
    && (p.updates[a].Repoint? ==> !w.db.accesses[a].retired)
    && (p.updates[a].Retire? ==>
          && !w.db.accesses[a].retired
          && !LifecycleOf(w.db, p.customer).Deleting?
          && p.updates[a].issue ==
             (w.db.nodes[w.db.accesses[a].node].current && w.db.accesses[a].desired.Present?))
  }

  predicate UnsentFits(w: World, p: Write, a: AccessId) {
    && a in p.updates && a in w.db.accesses && w.db.accesses[a].node in w.db.nodes
    && p.updates[a].SetDesired? && p.updates[a].desired.Absent?
    && !w.db.nodes[w.db.accesses[a].node].current
  }

  predicate LifecycleFits(w: World, p: Write) {
    var before := LifecycleOf(w.db, p.customer);
    && (before.Deleting? ==> p.lifecycle.Deleting?)
    && (before.Deleted? ==> IsEmpty(p.updates))
    && (p.lifecycle.Deleted? ==> before.Deleted? && IsEmpty(p.updates))
    && (p.lifecycle.Deleting? || p.lifecycle.Deleted? ==> IsEmpty(p.creates))
    && (p.lifecycle.Deleting? ==> forall a | a in w.db.accesses && w.db.accesses[a].customer == p.customer ::
          a in p.updates && p.updates[a].SetDesired? && p.updates[a].desired.Absent?)
  }

  /** The operations of a transaction are exactly one per row it has to deliver. */
  predicate OpsFit(w: World, p: Write) {
    var rows := WrittenAccesses(w.db.accesses, p);
    && (forall o | o in p.ops :: o !in w.usedOps && p.ops[o].access in rows && Issues(w.db, p, p.ops[o].access)
          && p.ops[o] == NewOperation(rows[p.ops[o].access].node, p.ops[o].access,
                                      rows[p.ops[o].access].desired, rows[p.ops[o].access].version))
    && (forall o, o' | o in p.ops && o' in p.ops && p.ops[o].access == p.ops[o'].access :: o == o')
    && (forall a | a in rows && Issues(w.db, p, a) :: exists o :: o in p.ops && p.ops[o].access == a)
  }

  /** Every touched node is the node of an issued operation and conversely. */
  predicate TouchedFits(w: World, p: Write) {
    && p.touched <= w.db.nodes.Keys
    && (forall o | o in p.ops :: p.ops[o].node in p.touched)
    && (forall n | n in p.touched :: exists o :: o in p.ops && p.ops[o].node == n)
  }

  /** What the five writers (Apply, lifecycle, expiry, usage, materialize) guarantee about
      the transactions they commit; each planner is proved to meet it. */
  predicate Fits(w: World, p: Write) {
    && (forall a | a in p.creates :: CreateFits(w, p, a))
    && (forall a | a in p.updates :: UpdateFits(w, p, a))
    && (forall a | a in p.unsent :: UnsentFits(w, p, a))
    && LifecycleFits(w, p)
    && OpsFit(w, p)
    && TouchedFits(w, p)
  }

  /** SupersedeStaleOperations on one row. */
  function Superseding(op: Operation, p: Write): Operation {
    if op.access in p.updates && op.version < p.updates[op.access].version && Waiting(op.status)
    then op.(status := Superseded) else op
  }

  /** InsertAgentOperation. */
  function Inserted(op: NewOperation, now: int): Operation {
    Operation(op.node, op.access, op.kind, op.version, Queued, Some(now), 0, None)
  }

  function Bumped(nodes: map<NodeId, Node>, touched: set<NodeId>): map<NodeId, Node> {
    map n | n in nodes :: if n in touched then nodes[n].(revision := nodes[n].revision + 1) else nodes[n]
  }

  function WrittenOps(ops: map<OperationId, Operation>, now: int, p: Write): map<OperationId, Operation> {
    map o | o in ops.Keys + p.ops.Keys :: if o in p.ops then Inserted(p.ops[o], now) else Superseding(ops[o], p)
  }

  function AfterWrite(db: Db, p: Write): Db {
    Db(db.now, db.customers[p.customer := p.lifecycle], Bumped(db.nodes, p.touched),
       WrittenAccesses(db.accesses, p), WrittenOps(db.ops, db.now, p))
  }

  // -------------------------------------------------------------------- dispatch

  /** The eligibility condition of LeaseNextOperation. */
  predicate Eligible(db: Db, o: OperationId) {
    && o in db.ops
    && Waiting(db.ops[o].status)
    && db.ops[o].nextAttempt.Some? && db.ops[o].nextAttempt.value <= db.now
    && !LeaseHeld(db, db.ops[o].node)
    && NoneInFlight(db, db.ops[o].node)
  }

  function Leased(db: Db, o: OperationId, owner: nat, ttl: nat): Db
    requires o in db.ops
  {
    db.(ops := db.ops[o := db.ops[o].(status := InFlight, attempts := db.ops[o].attempts + 1,
                                      nextAttempt := None, lease := Some(Lease(owner, db.now + ttl)))])
  }

  /** The payload returned by LeaseNextOperation, joined from the current access row. */
  function CallFor(db: Db, o: OperationId, ttl: nat): Call
    requires o in db.ops && db.ops[o].access in db.accesses
  {
    var op, row := db.ops[o], db.accesses[db.ops[o].access];
    Call(op.node, op.access, op.kind, op.version, row.version, row.egress, op.attempts + 1, db.now + ttl, false)
  }

  predicate Expired(db: Db, o: OperationId) {
    o in db.ops && db.ops[o].status.InFlight? && db.ops[o].lease.Some? && db.ops[o].lease.value.expires < db.now
  }

  /** ReapExpiredOperationLeases on one row. */
  function ReapedRow(db: Db, op: Operation): Operation {
    if op.access in db.accesses && op.version < db.accesses[op.access].version
    then op.(status := Superseded, nextAttempt := None, lease := None)
    else op.(status := RetryWait, nextAttempt := Some(db.now), lease := None)
  }

  function Reaped(db: Db, picked: set<OperationId>): Db {
    db.(ops := map o | o in db.ops :: if o in picked then ReapedRow(db, db.ops[o]) else db.ops[o])
  }

  datatype Outcome = Success | Retryable | Permanent

  /** OperationResultPlan: status, next attempt and apply state of one attempt. */
  datatype ResultPlan = ResultPlan(status: Status, nextAttempt: Option<int>, apply: ApplyState)

  /** PlanOperationResult; the backoff delay arrives as a number. */
  function PlanResult(outcome: Outcome, now: int, delay: nat): ResultPlan {
    match outcome
    case Success => ResultPlan(Succeeded, None, Applied)
    case Permanent => ResultPlan(FailedPermanent, None, Failed)
    case Retryable => ResultPlan(RetryWait, Some(now + delay), Retrying)
  }

  /** OperationResultPlan.Superseded: only a retry is rewritten. */
  function SupersededPlan(plan: ResultPlan): ResultPlan {
    if plan.status.RetryWait? then ResultPlan(Superseded, None, plan.apply) else plan
  }

  predicate IsFresh(db: Db, call: Call) {
    call.access in db.accesses && db.accesses[call.access].version == call.version
  }

  /** The result transaction: SetAccessApplyState, then CompleteOperation. */
  function Recorded(db: Db, o: OperationId, call: Call, outcome: Outcome, delay: nat): Db
    requires o in db.ops
  {
    var upToDate := IsFresh(db, call);
    var planned := PlanResult(outcome, db.now, delay);
    var plan := if upToDate then planned else SupersededPlan(planned);
    db.(accesses := if upToDate then db.accesses[call.access := db.accesses[call.access].(apply := plan.apply)]
                    else db.accesses,
        ops := db.ops[o := db.ops[o].(status := plan.status, nextAttempt := plan.nextAttempt, lease := None)])
  }

  // ------------------------------------------------------------------- reconcile

  /** The eligibility condition of ClaimNodeForReconcile. */
  predicate Claimable(db: Db, n: NodeId, interval: nat) {
    && n in db.nodes && db.nodes[n].current
    && !LeaseHeld(db, n) && NoneInFlight(db, n)
    && (db.nodes[n].needsBootstrap || db.nodes[n].attemptedAt.None?
        || db.nodes[n].attemptedAt.value < db.now - interval)
  }

  function ClaimedDb(db: Db, n: NodeId, owner: nat, ttl: nat): Db
    requires n in db.nodes
  {
    db.(nodes := db.nodes[n := db.nodes[n].(lease := Some(Lease(owner, db.now + ttl)), attemptedAt := Some(db.now))])
  }

  /** The rows ListNodeDesiredUsers may return before its expiry and quota filters. */
  predicate Listable(db: Db, n: NodeId, a: AccessId) {
    && a in db.accesses && db.accesses[a].node == n
    && !db.accesses[a].retired && db.accesses[a].desired.Present?
  }

  /** ListNodeDesiredUsers; `admitted` holds the accesses that pass its expiry and quota
      filters at this instant. */
  function DesiredUsers(db: Db, n: NodeId, admitted: set<AccessId>): map<AccessId, Egress> {
    map a | a in db.accesses && Listable(db, n, a) && a in admitted
            && LifecycleOf(db, db.accesses[a].customer).Active? :: db.accesses[a].egress
  }

  function RowsAt(db: Db, n: NodeId): map<AccessId, Access> {
    map a | a in db.accesses && db.accesses[a].node == n :: db.accesses[a]
  }

  function ClaimFor(db: Db, n: NodeId, owner: nat, ttl: nat, admitted: set<AccessId>): Claim
    requires n in db.nodes
  {
    Claim(owner, db.nodes[n].revision, DesiredUsers(db, n, admitted), RowsAt(db, n), db.now + ttl, false)
  }

  /** The WHERE condition of AcceptNodeReconcile. */
  predicate Acceptable(db: Db, n: NodeId, revision: nat) {
    n in db.nodes && db.nodes[n].revision == revision
  }

  /** MarkNodeAccessesApplied on one row. */
  function AcceptedRow(row: Access, a: AccessId, n: NodeId, applied: set<AccessId>): Access {
    if row.node == n && !row.retired && (a in applied || row.desired.Absent?)
    then row.(apply := Applied) else row
  }

  /** CompleteNodeOperationsByReconcile on one row. */
  function AcceptedOp(op: Operation, n: NodeId): Operation {
    if op.node == n && Waiting(op.status) then op.(status := Succeeded, nextAttempt := None) else op
  }

  /** AcceptReconcile: all three writes, or none when the revision moved on. */
  function Accepted(db: Db, n: NodeId, revision: nat, applied: set<AccessId>): Db {
    if !Acceptable(db, n, revision) then db else
    db.(nodes := db.nodes[n := db.nodes[n].(reconciled := revision)],
        accesses := map a | a in db.accesses :: AcceptedRow(db.accesses[a], a, n, applied),
        ops := map o | o in db.ops :: AcceptedOp(db.ops[o], n))
  }

  /** ReleaseNodeReconcile: only the owner's own lease is cleared. */
  function Released(db: Db, n: NodeId, owner: nat): Db {
    if n in db.nodes && db.nodes[n].lease.Some? && db.nodes[n].lease.value.owner == owner
    then db.(nodes := db.nodes[n := db.nodes[n].(lease := None)]) else db
  }

  // ------------------------------------------------------------ manifest, deletion

  /** The node rows after RetireNodes and UpsertVpnNode. */
  function ProjectedNodes(nodes: map<NodeId, Node>, snapshot: set<NodeId>): map<NodeId, Node> {
    map n | n in nodes.Keys + snapshot ::
      if n in nodes then nodes[n].(current := n in snapshot)
      else Node(1, 0, true, false, None, None)
  }

  /** CustomerDeletionReady. */
  predicate DeletionReady(db: Db, c: CustomerId) {
    && LifecycleOf(db, c).Deleting?
    && (forall a | a in db.accesses && db.accesses[a].customer == c ::
          db.accesses[a].desired.Absent? && db.accesses[a].apply.Applied?)
    && (forall o | o in db.ops && db.ops[o].access in db.accesses && db.accesses[db.ops[o].access].customer == c ::
          !Live(db.ops[o].status))
  }

  /** FinalizeNextDeletion: the customer's operations and accesses go, the tombstone stays. */
  function Finalized(db: Db, c: CustomerId): Db {
    db.(customers := db.customers[c := Deleted],
        accesses := map a | a in db.accesses && db.accesses[a].customer != c :: db.accesses[a],
        ops := map o | o in db.ops
                       && !(db.ops[o].access in db.accesses && db.accesses[db.ops[o].access].customer == c)
                       :: db.ops[o])
  }

  // ------------------------------------------------------------------- the machine

  /** The call of this dispatcher is still inside its lease. */
  predicate CallAlive(w: World, o: OperationId) {
    o in w.calls && w.db.now <= w.calls[o].deadline
  }

  predicate ClaimAlive(w: World, n: NodeId) {
    n in w.claims && w.db.now <= w.claims[n].deadline
  }

  /** The agent is called unless the desired version had already moved when the lease was taken. */
  predicate Sends(call: Call) { call.seenVersion <= call.version }

  function LandedUsers(users: map<AccessId, Egress>, call: Call): map<AccessId, Egress> {
    if call.kind.Present? then users[call.access := call.egress] else users - {call.access}
  }

  function TickStep(w: World, now: int): World {
    w.(db := w.db.(now := now))
  }

  function CommitStep(w: World, p: Write): World {
    w.(db := AfterWrite(w.db, p),
       usedAccesses := w.usedAccesses + p.creates.Keys, usedOps := w.usedOps + p.ops.Keys)
  }

  /** The nodes of an accepted manifest; a node that leaves it is remembered as departed. */
  function ManifestStep(w: World, snapshot: set<NodeId>): World {
    w.(db := w.db.(nodes := ProjectedNodes(w.db.nodes, snapshot)),
       agents := map n | n in w.agents.Keys + snapshot :: if n in w.agents then w.agents[n] else map[],
       departed := w.departed + (w.db.nodes.Keys - snapshot))
  }

  function BootstrapStep(w: World, n: NodeId, needed: bool): World
    requires n in w.db.nodes
  {
    w.(db := w.db.(nodes := w.db.nodes[n := w.db.nodes[n].(needsBootstrap := needed)]))
  }

  function FinalizeStep(w: World, c: CustomerId): World {
    w.(db := Finalized(w.db, c))
  }

  function TakeLeaseStep(w: World, o: OperationId, owner: nat, ttl: nat): World
    requires o in w.db.ops && w.db.ops[o].access in w.db.accesses
  {
    w.(db := Leased(w.db, o, owner, ttl), calls := w.calls[o := CallFor(w.db, o, ttl)])
  }

  function LandStep(w: World, o: OperationId): World
    requires o in w.calls && w.calls[o].node in w.agents
  {
    var call := w.calls[o];
    w.(agents := w.agents[call.node := LandedUsers(w.agents[call.node], call)],
       calls := w.calls[o := call.(landed := true)])
  }

  function RecordStep(w: World, o: OperationId, outcome: Outcome, delay: nat): World
    requires o in w.calls && o in w.db.ops
  {
    w.(db := Recorded(w.db, o, w.calls[o], outcome, delay), calls := w.calls - {o})
  }

  function LoseDispatcherStep(w: World, o: OperationId): World {
    w.(calls := w.calls - {o})
  }

  function ReapStep(w: World, picked: set<OperationId>): World {
    w.(db := Reaped(w.db, picked))
  }

  function TakeNodeStep(w: World, n: NodeId, owner: nat, ttl: nat, admitted: set<AccessId>): World
    requires n in w.db.nodes
  {
    w.(db := ClaimedDb(w.db, n, owner, ttl), claims := w.claims[n := ClaimFor(w.db, n, owner, ttl, admitted)])
  }

  /** What a full-set call may leave behind: user by user the old state or the new one. */
  predicate Between(before: map<AccessId, Egress>, target: map<AccessId, Egress>, users: map<AccessId, Egress>) {
    && (forall a | a in users :: (a in before && users[a] == before[a]) || (a in target && users[a] == target[a]))
    && (forall a | a in before && a in target :: a in users)
  }

  /** ReconcileUsers on the agent; a call that failed may have been applied in part. */
  function LandSetStep(w: World, n: NodeId, users: map<AccessId, Egress>): World
    requires n in w.claims
  {
    w.(agents := w.agents[n := users], claims := w.claims[n := w.claims[n].(landed := users == w.claims[n].users)])
  }

  function AcceptStep(w: World, n: NodeId): World
    requires n in w.claims
  {
    w.(db := Accepted(w.db, n, w.claims[n].revision, w.claims[n].users.Keys), claims := w.claims - {n})
  }

  function ReleaseStep(w: World, n: NodeId, owner: nat): World {
    w.(db := Released(w.db, n, owner),
       claims := if n in w.claims && w.claims[n].owner == owner then w.claims - {n} else w.claims)
  }

  function LoseReconcilerStep(w: World, n: NodeId): World {
    w.(claims := w.claims - {n})
  }

  datatype Step =
    | Tick(now: int)
    | Commit(write: Write)
    | Manifest(snapshot: set<NodeId>)
    | Bootstrap(node: NodeId, needed: bool)
    | Finalize(customer: CustomerId)
    | TakeLease(op: OperationId, owner: nat, ttl: nat)
    | Land(op: OperationId)
    | Record(op: OperationId, outcome: Outcome, delay: nat)
    | LoseDispatcher(op: OperationId)
    | Reap(picked: set<OperationId>)
    | TakeNode(node: NodeId, owner: nat, ttl: nat, interval: nat, admitted: set<AccessId>)
    | LandSet(node: NodeId, users: map<AccessId, Egress>)
    | Accept(node: NodeId)
    | Release(node: NodeId, owner: nat)
    | LoseReconciler(node: NodeId)

  predicate CanTakeLease(w: World, o: OperationId, ttl: nat) {
    ttl >= 1 && Eligible(w.db, o) && w.db.ops[o].access in w.db.accesses
  }

  predicate CanLand(w: World, o: OperationId) {
    CallAlive(w, o) && Sends(w.calls[o]) && w.calls[o].node in w.agents
  }

  /** Results are recorded within the lease, and a success has reached the agent. */
  predicate CanRecord(w: World, o: OperationId, outcome: Outcome) {
    && CallAlive(w, o) && o in w.db.ops
    && (outcome.Success? ==> Sends(w.calls[o]) && w.calls[o].landed)
  }

  predicate CanReap(w: World, picked: set<OperationId>) {
    forall o | o in picked :: Expired(w.db, o)
  }

  predicate CanLandSet(w: World, n: NodeId, users: map<AccessId, Egress>) {
    ClaimAlive(w, n) && n in w.agents && Between(w.agents[n], w.claims[n].users, users)
  }

  predicate Enabled(w: World, s: Step) {
    match s
    case Tick(now) => w.db.now <= now
    case Commit(p) => Fits(w, p)
    case Manifest(_) => true
    case Bootstrap(n, _) => n in w.db.nodes
    case Finalize(c) => DeletionReady(w.db, c)
    case TakeLease(o, _, ttl) => CanTakeLease(w, o, ttl)
    case Land(o) => CanLand(w, o)
    case Record(o, outcome, _) => CanRecord(w, o, outcome)
    case LoseDispatcher(_) => true
    case Reap(picked) => CanReap(w, picked)
    case TakeNode(n, _, ttl, interval, _) => ttl >= 1 && Claimable(w.db, n, interval)
    case LandSet(n, users) => CanLandSet(w, n, users)
    case Accept(n) => ClaimAlive(w, n) && w.claims[n].landed
    case Release(_, _) => true
    case LoseReconciler(_) => true
  }

  function After(w: World, s: Step): World
    requires Enabled(w, s)
  {
    match s
    case Tick(now) => TickStep(w, now)
    case Commit(p) => CommitStep(w, p)
    case Manifest(snapshot) => ManifestStep(w, snapshot)
    case Bootstrap(n, needed) => BootstrapStep(w, n, needed)
    case Finalize(c) => FinalizeStep(w, c)
    case TakeLease(o, owner, ttl) => TakeLeaseStep(w, o, owner, ttl)
    case Land(o) => LandStep(w, o)
    case Record(o, outcome, delay) => RecordStep(w, o, outcome, delay)
    case LoseDispatcher(o) => LoseDispatcherStep(w, o)
    case Reap(picked) => ReapStep(w, picked)
    case TakeNode(n, owner, ttl, _, admitted) => TakeNodeStep(w, n, owner, ttl, admitted)
    case LandSet(n, users) => LandSetStep(w, n, users)
    case Accept(n) => AcceptStep(w, n)
    case Release(n, owner) => ReleaseStep(w, n, owner)
    case LoseReconciler(n) => LoseReconcilerStep(w, n)
  }

  /** Nothing has been accepted, issued or claimed yet. */
  predicate Initial(w: World) {
    && w.db.customers == map[] && w.db.nodes == map[] && w.db.accesses == map[] && w.db.ops == map[]
    && w.calls == map[] && w.claims == map[] && w.agents == map[]
  }

  /** Every interleaving of the steps is a run. */
  predicate Run(ws: seq<World>, steps: seq<Step>) {
    && |ws| == |steps| + 1
    && Initial(ws[0])
    && forall i | 0 <= i < |steps| :: Enabled(ws[i], steps[i]) && ws[i + 1] == After(ws[i], steps[i])
  }
}
