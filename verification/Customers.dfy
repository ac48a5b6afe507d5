/** One customer: the entitlement, its quota periods and its accesses, and the
    transactions that change them.

    A transaction is a function of the customer, the command and what the transaction reads
    from outside (`Env`); its result names the next customer state and the write that
    reaches the delivery tables. */
module Customers {
  import opened Types
  import opened Targets

  datatype NodeUsage = NodeUsage(total: nat, exhaustedAt: Option<int>)

  /** A quota period is half-open: [started, closed). */
  datatype Period = Period(started: int, closed: Option<int>, quota: nat, usage: map<NodeId, NodeUsage>)

  /** A numbered command of one customer's stream; the fingerprint of a command is its content. */
  datatype Command =
    | Apply(number: nat, fleet: FleetId, expiresAt: int, quota: nat)
    | SetState(number: nat, target: Lifecycle)
    | Delete(number: nat)

  /** A row of customer_entitlements; fleet and expiresAt mean nothing while DELETED. */
  datatype Entitlement = Entitlement(
    lifecycle: Lifecycle, fleet: FleetId, expiresAt: int, version: nat,
    lastCommand: nat, fingerprint: Option<Command>, deleteNotBefore: Option<int>)

  datatype Customer = Customer(ent: Entitlement, periods: seq<Period>, rows: map<AccessId, Access>)

  /** The root row LockEntitlement creates for a customer it has never seen. */
  const Root := Customer(Entitlement(Deleted, 0, 0, 0, 0, None, None), [], map[])

  /** Identifiers generated for one transaction: which new access is for which target, and
      which new operation is for which access. */
  datatype Ids = Ids(targets: map<AccessId, TargetKey>, owners: map<OperationId, AccessId>)

  /** What a transaction reads besides the customer: its time, the accepted fleets, the
      nodes of the current manifest, the deletion grace, and its generated identifiers. */
  datatype Env = Env(now: int, fleets: map<FleetId, Topology>, live: set<NodeId>, grace: nat, ids: Ids)

  datatype Error =
    | CommandInvalid | CommandConflict | CustomerNotFound | CustomerDeleting | FleetNotFound
    | FleetMismatch | ExpiryNotInFuture | ExpiryRegression | OpenPeriodMissing

  /** A transaction rolls back, commits without a change, or commits the next customer
      state; `write` is None when no delivery table is written. */
  datatype Txn =
    | Rejected(error: Error)
    | Ignored
    | Committed(ent: Entitlement, periods: seq<Period>, write: Option<Write>)

  function TopologyOf(env: Env, f: FleetId): Topology {
    if f in env.fleets then env.fleets[f] else NoTopology
  }

  /** The customer after a transaction. */
  function Next(s: Customer, x: Txn): Customer {
    if x.Committed? then Customer(x.ent, x.periods, RowsAfter(s.rows, x.write)) else s
  }

  function RowsAfter(rows: map<AccessId, Access>, write: Option<Write>): map<AccessId, Access> {
    if write.Some? then WrittenAccesses(rows, write.value) else rows
  }

  // --------------------------------------------------------------------- periods

  /** At most one period is open, and it is the one opened last. */
  function OpenPeriod(periods: seq<Period>): Option<Period> {
    if |periods| > 0 && periods[|periods| - 1].closed.None? then Some(periods[|periods| - 1]) else None
  }

  function WithOpen(periods: seq<Period>, p: Period): seq<Period>
    requires OpenPeriod(periods).Some?
  {
    periods[..|periods| - 1] + [p]
  }

  /** CloseOpenQuotaPeriod. */
  function Closed(periods: seq<Period>, now: int): (r: seq<Period>)
    ensures |r| == |periods|
    ensures forall i | 0 <= i < |r| :: r[i] == periods[i].(closed := if periods[i].closed.None? then Some(now) else periods[i].closed)
  {
    if |periods| == 0 then []
    else var last := periods[|periods| - 1];
         Closed(periods[..|periods| - 1], now) + [if last.closed.None? then last.(closed := Some(now)) else last]
  }

  function ZeroCounters(nodes: set<NodeId>): map<NodeId, NodeUsage> {
    map n | n in nodes :: NodeUsage(0, None)
  }

  /** CloseOpenQuotaPeriod, InsertQuotaPeriod and the zero counters of the fleet's nodes. */
  function Renewed(periods: seq<Period>, now: int, quota: nat, nodes: set<NodeId>): seq<Period> {
    Closed(periods, now) + [Period(now, None, quota, ZeroCounters(nodes))]
  }

  predicate Covers(p: Period, at: int) {
    p.started <= at && (p.closed.Some? ==> at < p.closed.value)
  }

  /** LockQuotaPeriodAt. */
  function PeriodAt(periods: seq<Period>, at: int): (r: Option<nat>)
    ensures r.Some? ==> r.value < |periods| && Covers(periods[r.value], at)
    ensures r.None? ==> forall i | 0 <= i < |periods| :: !Covers(periods[i], at)
  {
    if |periods| == 0 then None
    else if Covers(periods[|periods| - 1], at) then Some(|periods| - 1)
    else PeriodAt(periods[..|periods| - 1], at)
  }

  // ----------------------------------------------------------------------- quota

  predicate Exceeds(total: nat, quota: nat) { total >= quota }

  /** IsQuotaExhausted of a node's counter; a node without a counter is not exhausted. */
  predicate Exhausted(p: Period, n: NodeId) {
    n in p.usage && Exceeds(p.usage[n].total, p.quota)
  }

  /** RecomputeExhausted and SetNodeQuotaExhausted on one counter. */
  function Recomputed(u: NodeUsage, quota: nat, now: int): NodeUsage {
    if Exceeds(u.total, quota) && u.exhaustedAt.None? then u.(exhaustedAt := Some(now))
    else if !Exceeds(u.total, quota) && u.exhaustedAt.Some? then u.(exhaustedAt := None)
    else u
  }

  function Requotaed(p: Period, quota: nat, now: int): Period {
    Period(p.started, p.closed, quota, map n | n in p.usage :: Recomputed(p.usage[n], quota, now))
  }

  /** InsertNodeQuotaUsage for the nodes that have no counter yet. */
  function WithCounters(p: Period, nodes: set<NodeId>): Period {
    p.(usage := map n | n in p.usage.Keys + nodes :: if n in p.usage then p.usage[n] else NodeUsage(0, None))
  }

  // --------------------------------------------------------------- desired states

  function DesiredFor(now: int, expiresAt: int, exhausted: bool): Desired {
    if now < expiresAt && !exhausted then Present else Absent
  }

  function DesiredForLifecycle(l: Lifecycle, now: int, expiresAt: int, exhausted: bool): Desired {
    if l.Active? then DesiredFor(now, expiresAt, exhausted) else Absent
  }

  /** DesiredStateForLifecycle of the accesses of one node. */
  function Want(ent: Entitlement, now: int, p: Period, n: NodeId): Desired {
    DesiredForLifecycle(ent.lifecycle, now, ent.expiresAt, Exhausted(p, n))
  }

  /** PlanDesiredChangesForLifecycle over the accesses that are in sync. */
  function Changes(t: Topology, rows: map<AccessId, Access>, ent: Entitlement, now: int, p: Period): map<AccessId, Update> {
    map a | a in rows && InSync(t, rows[a]) && Want(ent, now, p, rows[a].node) != rows[a].desired ::
      SetDesired(Want(ent, now, p, rows[a].node), rows[a].version + 1)
  }

  /** planRepoints. */
  function Repoints(t: Topology, rows: map<AccessId, Access>, ent: Entitlement, now: int, p: Period): map<AccessId, Update> {
    map a | a in rows && Moved(t, rows[a]) ::
      Repoint(TargetAt(t, rows[a].target).egress, Want(ent, now, p, rows[a].node), rows[a].version + 1)
  }

  /** planRetire: the agent is told only while its node is live and the access was PRESENT. */
  function Retires(t: Topology, rows: map<AccessId, Access>, live: set<NodeId>): map<AccessId, Update> {
    map a | a in rows && Gone(t, rows[a]) ::
      Retire(rows[a].version + 1, rows[a].node in live && rows[a].desired.Present?)
  }

  /** PlanForceAbsent: every access, whatever its state. */
  function ForcedAbsent(rows: map<AccessId, Access>): map<AccessId, Update> {
    map a | a in rows :: SetDesired(Absent, rows[a].version + 1)
  }

  /** PlanDesiredChanges with ABSENT as the only outcome. */
  function Revoked(rows: map<AccessId, Access>): map<AccessId, Update> {
    map a | a in rows && rows[a].desired.Present? :: SetDesired(Absent, rows[a].version + 1)
  }

  // ----------------------------------------------------------------------- writes

  /** The new accesses of the missing targets. */
  ghost function Creates(c: CustomerId, t: Topology, rows: map<AccessId, Access>, ent: Entitlement, now: int, p: Period, ids: Ids)
    : map<AccessId, Access>
  {
    map a | a in ids.targets && Missing(t, rows, ids.targets[a]) ::
      NewRow(c, t, rows, ids.targets[a], Want(ent, now, p, TargetAt(t, ids.targets[a]).node))
  }

  function KindOf(u: Update): Desired {
    if u.Retire? then Absent else u.desired
  }

  predicate Delivered(u: Update) { u.Retire? ==> u.issue }

  function CreateOps(creates: map<AccessId, Access>, ids: Ids): map<OperationId, NewOperation> {
    map o | o in ids.owners && ids.owners[o] in creates && creates[ids.owners[o]].desired.Present? ::
      var a := ids.owners[o]; NewOperation(creates[a].node, a, creates[a].desired, creates[a].version)
  }

  function UpdateOps(rows: map<AccessId, Access>, updates: map<AccessId, Update>, ids: Ids): map<OperationId, NewOperation>
    requires updates.Keys <= rows.Keys
  {
    map o | o in ids.owners && ids.owners[o] in updates && Delivered(updates[ids.owners[o]]) ::
      var a := ids.owners[o]; NewOperation(rows[a].node, a, KindOf(updates[a]), updates[a].version)
  }

  /** The operations: one per PRESENT access created, one per delivered update. */
  function Operations(rows: map<AccessId, Access>, creates: map<AccessId, Access>, updates: map<AccessId, Update>, ids: Ids)
    : map<OperationId, NewOperation>
    requires updates.Keys <= rows.Keys
  {
    CreateOps(creates, ids) + UpdateOps(rows, updates, ids)
  }

  /** touchedNodes and materializedTouchedNodes. */
  function TouchedNodes(rows: map<AccessId, Access>, creates: map<AccessId, Access>, updates: map<AccessId, Update>): set<NodeId>
    requires updates.Keys <= rows.Keys
  {
    (set a | a in creates && creates[a].desired.Present? :: creates[a].node)
    + (set a | a in updates && Delivered(updates[a]) :: rows[a].node)
  }

  function WriteOf(c: CustomerId, l: Lifecycle, rows: map<AccessId, Access>, creates: map<AccessId, Access>,
                   updates: map<AccessId, Update>, ids: Ids): Write
    requires updates.Keys <= rows.Keys
  {
    Write(c, l, creates, updates, {}, Operations(rows, creates, updates, ids), TouchedNodes(rows, creates, updates))
  }

  /** AppliedWithoutOperation: the updates of accesses whose node left the manifest. */
  function Undeliverable(rows: map<AccessId, Access>, updates: map<AccessId, Update>, live: set<NodeId>): set<AccessId>
    requires updates.Keys <= rows.Keys
  {
    set a | a in updates && rows[a].node !in live
  }

  function Without(updates: map<AccessId, Update>, unsent: set<AccessId>): map<AccessId, Update> {
    map a | a in updates && a !in unsent :: updates[a]
  }

  /** The lifecycle writer: changes on nodes that left the manifest are applied without an operation. */
  function LifecycleWrite(c: CustomerId, l: Lifecycle, rows: map<AccessId, Access>, updates: map<AccessId, Update>,
                          live: set<NodeId>, restrict: bool, ids: Ids): Write
    requires updates.Keys <= rows.Keys
  {
    var unsent := if restrict then Undeliverable(rows, updates, live) else {};
    var issued := Without(updates, unsent);
    Write(c, l, map[], updates, unsent, Operations(rows, map[], issued, ids), TouchedNodes(rows, map[], issued))
  }

  // --------------------------------------------------------------------- commands

  predicate Valid(cmd: Command) {
    && cmd.number > 0
    && (cmd.Apply? ==> cmd.fleet > 0 && cmd.quota > 0)
    && (cmd.SetState? ==> cmd.target.Active? || cmd.target.Blocked?)
  }

  datatype Order = New | Stale | Replay | Conflict

  /** ClassifyCommand. */
  function Classify(cmd: Command, ent: Entitlement): Order {
    if cmd.number > ent.lastCommand then New
    else if cmd.number < ent.lastCommand then Stale
    else if ent.fingerprint.None? || ent.fingerprint.value == cmd then Replay
    else Conflict
  }

  datatype Decision = Create | Renewal | QuotaChange | Refused(error: Error)

  /** ClassifyApply. */
  function ClassifyApply(now: int, cmd: Command, ent: Entitlement): Decision
    requires cmd.Apply?
  {
    match ent.lifecycle
    case Deleting => Refused(CustomerDeleting)
    case Deleted => if cmd.expiresAt <= now then Refused(ExpiryNotInFuture) else Create
    case _ =>
      if ent.fleet != cmd.fleet then Refused(FleetMismatch)
      else if cmd.expiresAt < ent.expiresAt then Refused(ExpiryRegression)
      else if cmd.expiresAt > ent.expiresAt then
        (if cmd.expiresAt <= now then Refused(ExpiryNotInFuture) else Renewal)
      else QuotaChange
  }

  /** The period an accepted Apply leaves open. */
  function AppliedPeriods(s: Customer, cmd: Command, d: Decision, env: Env): seq<Period>
    requires cmd.Apply? && !d.Refused? && (d.QuotaChange? ==> OpenPeriod(s.periods).Some?)
  {
    if d.QuotaChange? then WithOpen(s.periods, Requotaed(OpenPeriod(s.periods).value, cmd.quota, env.now))
    else Renewed(s.periods, env.now, cmd.quota, TopologyOf(env, cmd.fleet).nodes)
  }

  function AppliedLifecycle(ent: Entitlement): Lifecycle {
    if ent.lifecycle.Deleted? then Active else ent.lifecycle
  }

  /** ApplyPlan.IsNoOp: the quota stands, and nothing is missing or changed. */
  ghost predicate ApplyNoOp(s: Customer, cmd: Command, d: Decision, env: Env)
    requires cmd.Apply?
  {
    && d.QuotaChange? && OpenPeriod(s.periods).Some? && OpenPeriod(s.periods).value.quota == cmd.quota
    && (forall n | n in OpenPeriod(s.periods).value.usage ::
          Recomputed(OpenPeriod(s.periods).value.usage[n], cmd.quota, env.now) == OpenPeriod(s.periods).value.usage[n])
    && Complete(TopologyOf(env, cmd.fleet), s.rows)
    && forall a | a in s.rows && InSync(TopologyOf(env, cmd.fleet), s.rows[a]) ::
         s.rows[a].desired == Want(Granted(s, cmd), env.now, OpenPeriod(s.periods).value, s.rows[a].node)
  }

  ghost function Execute(c: CustomerId, s: Customer, cmd: Command, env: Env): Txn
  {
    if !Valid(cmd) then Rejected(CommandInvalid) else
    match cmd
    case Apply(_, _, _, _) => ExecuteApply(c, s, cmd, env)
    case SetState(_, _) => ExecuteSetState(c, s, cmd, env)
    case Delete(_) => ExecuteDelete(c, s, cmd, env)
  }

  ghost function ExecuteApply(c: CustomerId, s: Customer, cmd: Command, env: Env): Txn
    requires cmd.Apply?
  {
    var order := Classify(cmd, s.ent);
    if order.Conflict? then Rejected(CommandConflict)
    else if !order.New? then Ignored
    else if s.ent.lifecycle.Deleting? then Rejected(CustomerDeleting)
    else if cmd.fleet !in env.fleets then Rejected(FleetNotFound)
    else
      var d := ClassifyApply(env.now, cmd, s.ent);
      if d.Refused? then Rejected(d.error)
      else if d.QuotaChange? && OpenPeriod(s.periods).None? then Rejected(OpenPeriodMissing)
      else ApplyPlanned(c, s, cmd, d, env)
  }

  /** The entitlement whose lifecycle and expiry decide the desired states of an Apply. */
  function Granted(s: Customer, cmd: Command): Entitlement
    requires cmd.Apply?
  {
    s.ent.(lifecycle := AppliedLifecycle(s.ent), expiresAt := cmd.expiresAt)
  }

  /** The accesses and operations PlanApply prescribes. */
  ghost function PlannedWrite(c: CustomerId, s: Customer, cmd: Command, open: Period, env: Env): Write
    requires cmd.Apply?
  {
    var t, ent := TopologyOf(env, cmd.fleet), Granted(s, cmd);
    WriteOf(c, ent.lifecycle, s.rows, Creates(c, t, s.rows, ent, env.now, open, env.ids),
            Changes(t, s.rows, ent, env.now, open), env.ids)
  }

  /** PlanApply and WritePlan. */
  ghost function ApplyPlanned(c: CustomerId, s: Customer, cmd: Command, d: Decision, env: Env): Txn
    requires cmd.Apply? && !d.Refused?
    requires d.QuotaChange? ==> OpenPeriod(s.periods).Some?
  {
    var periods := AppliedPeriods(s, cmd, d, env);
    var write := PlannedWrite(c, s, cmd, periods[|periods| - 1], env);
    var version := if ApplyNoOp(s, cmd, d, env) then s.ent.version else s.ent.version + 1;
    Committed(
      Entitlement(Granted(s, cmd).lifecycle, cmd.fleet, cmd.expiresAt, version, cmd.number, Some(cmd),
                  if d.Create? then None else s.ent.deleteNotBefore),
      periods, Some(write))
  }

  ghost function ExecuteSetState(c: CustomerId, s: Customer, cmd: Command, env: Env): Txn
    requires cmd.SetState?
  {
    if s.ent.lifecycle.Deleted? then Rejected(CustomerNotFound) else
    var order := Classify(cmd, s.ent);
    if order.Conflict? then Rejected(CommandConflict)
    else if !order.New? then Ignored
    else if s.ent.lifecycle.Deleting? then Rejected(CustomerDeleting)
    else if cmd.target.Active? && s.ent.lifecycle.Blocked? && OpenPeriod(s.periods).None? then Rejected(OpenPeriodMissing)
    else
      var changes := StateChanges(s, cmd.target, env);
      var version := if IsEmpty(changes) then s.ent.version else s.ent.version + 1;
      Committed(
        s.ent.(lifecycle := cmd.target, version := version, lastCommand := cmd.number,
               fingerprint := Some(cmd), deleteNotBefore := None),
        s.periods,
        Some(LifecycleWrite(c, cmd.target, s.rows, changes, env.live, cmd.target.Blocked?, env.ids)))
  }

  function StateChanges(s: Customer, target: Lifecycle, env: Env): map<AccessId, Update>
    requires target.Active? && s.ent.lifecycle.Blocked? ==> OpenPeriod(s.periods).Some?
  {
    if target == s.ent.lifecycle then map[]
    else if target.Blocked? then ForcedAbsent(s.rows)
    else if target.Active? && s.ent.lifecycle.Blocked? then
      Changes(TopologyOf(env, s.ent.fleet), s.rows, s.ent.(lifecycle := Active), env.now, OpenPeriod(s.periods).value)
    else map[]
  }

  ghost function ExecuteDelete(c: CustomerId, s: Customer, cmd: Command, env: Env): Txn
    requires cmd.Delete?
  {
    var order := Classify(cmd, s.ent);
    if order.Conflict? then Rejected(CommandConflict)
    else if !order.New? then Ignored
    else if s.ent.lifecycle.Deleted? then
      Committed(s.ent.(lastCommand := cmd.number, fingerprint := Some(cmd), deleteNotBefore := None), s.periods,
                Some(LifecycleWrite(c, Deleted, s.rows, map[], {}, false, env.ids)))
    else
      var changes := ForcedAbsent(s.rows);
      var version := if IsEmpty(changes) then s.ent.version else s.ent.version + 1;
      Committed(
        s.ent.(lifecycle := Deleting, version := version, lastCommand := cmd.number,
               fingerprint := Some(cmd), deleteNotBefore := Some(env.now + env.grace)),
        s.periods,
        Some(LifecycleWrite(c, Deleting, s.rows, changes, env.live, true, env.ids)))
  }

  // ------------------------------------------------------------------ background

  /** The selection of LockNextDueExpiredCustomer. */
  predicate Due(s: Customer, now: int) {
    && s.ent.lifecycle.Active? && s.ent.expiresAt <= now
    && exists a | a in s.rows :: s.rows[a].desired.Present? && !s.rows[a].retired
  }

  /** ExpireCustomers: PlanExpiry and WriteExpiry. */
  ghost function Expire(c: CustomerId, s: Customer, env: Env): Txn
  {
    if !Due(s, env.now) then Ignored else
    var changes := Revoked(s.rows);
    Committed(s.ent.(version := s.ent.version + 1), s.periods,
              Some(WriteOf(c, s.ent.lifecycle, s.rows, map[], changes, env.ids)))
  }

  /** The live accesses of one node. */
  function AtNode(rows: map<AccessId, Access>, n: NodeId): map<AccessId, Access> {
    map a | a in rows && rows[a].node == n && !rows[a].retired :: rows[a]
  }

  /** One usage group: `counted` is the number of bytes of the items registered by this
      transaction, None when all of them had been registered before. */
  ghost function Account(c: CustomerId, s: Customer, n: NodeId, collectedAt: int, counted: Option<nat>, env: Env): Txn
  {
    var at := PeriodAt(s.periods, collectedAt);
    if at.None? then Ignored else
    var p := WithCounters(s.periods[at.value], {n});
    if p.closed.Some? || counted.None? then Committed(s.ent, s.periods[at.value := p], None) else
    var u := p.usage[n];
    var total := u.total + counted.value;
    var crossed := u.exhaustedAt.None? && Exceeds(total, p.quota);
    var charged := NodeUsage(total, if crossed then Some(env.now) else u.exhaustedAt);
    var changes := if crossed then Revoked(AtNode(s.rows, n)) else map[];
    Committed(s.ent, s.periods[at.value := p.(usage := p.usage[n := charged])],
              if IsEmpty(changes) then None
              else Some(WriteOf(c, s.ent.lifecycle, s.rows, map[], changes, env.ids)))
  }

  /** The updates of a materialization: the three parts concern different accesses. */
  function Realigned(t: Topology, rows: map<AccessId, Access>, ent: Entitlement, now: int, p: Period, live: set<NodeId>)
    : (r: map<AccessId, Update>)
    ensures r.Keys <= rows.Keys
  {
    Changes(t, rows, ent, now, p) + Repoints(t, rows, ent, now, p) + Retires(t, rows, live)
  }

  /** The plan of PlanMaterialize. */
  datatype Materialization = Materialization(
    creates: map<AccessId, Access>, updates: map<AccessId, Update>, inits: set<NodeId>)

  ghost function PlanMaterialize(c: CustomerId, s: Customer, env: Env): Materialization
    requires OpenPeriod(s.periods).Some?
  {
    var t := TopologyOf(env, s.ent.fleet);
    var p := OpenPeriod(s.periods).value;
    var expired := s.ent.expiresAt <= env.now;
    Materialization(
      if expired then map[] else Creates(c, t, s.rows, s.ent, env.now, p, env.ids),
      Realigned(t, s.rows, s.ent, env.now, p, env.live),
      if expired then {} else t.nodes - p.usage.Keys)
  }

  /** MaterializationPlan.IsNoOp: nothing is missing, changed, moved or gone. */
  ghost predicate MaterializeNoOp(s: Customer, env: Env)
    requires OpenPeriod(s.periods).Some?
  {
    var t, p := TopologyOf(env, s.ent.fleet), OpenPeriod(s.periods).value;
    && (forall a | a in s.rows && !s.rows[a].retired ::
          InSync(t, s.rows[a]) && s.rows[a].desired == Want(s.ent, env.now, p, s.rows[a].node))
    && (env.now < s.ent.expiresAt ==> Complete(t, s.rows) && t.nodes <= p.usage.Keys)
  }

  function MaterializedWrite(c: CustomerId, s: Customer, m: Materialization, env: Env): Write
    requires m.updates.Keys <= s.rows.Keys
  {
    WriteOf(c, s.ent.lifecycle, s.rows, m.creates, m.updates, env.ids)
  }

  /** materializeCustomer. */
  ghost function Materialize(c: CustomerId, s: Customer, env: Env): Txn
  {
    if s.ent.lifecycle.Deleting? || s.ent.lifecycle.Deleted? then Ignored
    else if OpenPeriod(s.periods).None? then Rejected(OpenPeriodMissing)
    else
      var m := PlanMaterialize(c, s, env);
      if MaterializeNoOp(s, env) then Ignored else
      Committed(s.ent.(version := s.ent.version + 1),
                WithOpen(s.periods, WithCounters(OpenPeriod(s.periods).value, m.inits)),
                Some(MaterializedWrite(c, s, m, env)))
  }

  /** FinalizeNextDeletion as the customer sees it. */
  function Finalize(s: Customer): Customer {
    Customer(s.ent.(lifecycle := Deleted, fleet := 0, expiresAt := 0, deleteNotBefore := None), [], map[])
  }
}
