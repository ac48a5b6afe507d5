/** The whole control plane as one machine: manifests, the materialization jobs, every
    customer's commands and background steps, and the delivery protocol beneath them. */
module Plane {
  import opened Types
  import opened Targets
  import C = Customers
  import D = Delivery
  import I = DeliveryInvariant
  import M = Manifest
  import F = CustomerFits

  /** A customer's rows outside the delivery tables. */
  datatype Account = Account(ent: C.Entitlement, periods: seq<C.Period>)

  /** A row of manifest_materialization_jobs: every customer below the cursor is processed. */
  datatype Job = Job(cursor: nat, done: bool)

  datatype Plane = Plane(
    world: D.World, accounts: map<CustomerId, Account>, projection: M.Projection, jobs: map<nat, Job>)

  function AccountOf(p: Plane, c: CustomerId): Account {
    if c in p.accounts then p.accounts[c] else Account(C.Root.ent, C.Root.periods)
  }

  function CustomerOf(p: Plane, c: CustomerId): C.Customer {
    C.Customer(AccountOf(p, c).ent, AccountOf(p, c).periods, F.RowsOf(p.world.db, c))
  }

  function Fleets(q: M.Projection): map<FleetId, Topology> {
    map f | f in q.fleets :: M.TopologyAt(q, f)
  }

  /** What a transaction that starts now reads. */
  function EnvOf(p: Plane, grace: nat, ids: C.Ids): C.Env {
    C.Env(p.world.db.now, Fleets(p.projection), M.CurrentNodes(p.projection), grace, ids)
  }

  /** A committed transaction reaches the customer's own rows and, if it writes any, the
      delivery tables. */
  function Commit(p: Plane, c: CustomerId, x: C.Txn): Plane {
    if !x.Committed? then p else
    p.(accounts := p.accounts[c := Account(x.ent, x.periods)],
       world := if x.write.Some? then D.CommitStep(p.world, x.write.value) else p.world)
  }

  // ------------------------------------------------------------ materialization jobs

  predicate Served(p: Plane, c: CustomerId) {
    AccountOf(p, c).ent.lifecycle.Active? || AccountOf(p, c).ent.lifecycle.Blocked?
  }

  /** NextCustomerAfter: the first ACTIVE or BLOCKED customer at or above the cursor. */
  ghost predicate IsNext(p: Plane, cursor: nat, next: Option<CustomerId>) {
    match next
    case Some(c) => c in p.accounts && cursor <= c && Served(p, c)
                    && forall b | b in p.accounts && Served(p, b) && cursor <= b :: c <= b
    case None => forall b | b in p.accounts && Served(p, b) :: b < cursor
  }

  /** MaterializeManifest.ProcessNext: one customer of one job, or the job's completion. */
  ghost function Processed(p: Plane, r: nat, next: Option<CustomerId>, ids: C.Ids): Plane
    requires r in p.jobs
  {
    match next
    case None => p.(jobs := p.jobs[r := p.jobs[r].(done := true)])
    case Some(c) =>
      var x := C.Materialize(c, CustomerOf(p, c), EnvOf(p, 0, ids));
      if x.Rejected? then p
      else Commit(p, c, x).(jobs := p.jobs[r := Job(c + 1, false)])
  }

  // ---------------------------------------------------------------------- manifests

  ghost predicate Accepts(p: Plane, m: M.Submission) {
    M.Valid(m.snapshot) && M.Judge(p.projection, m.revision, m.snapshot, m.allowDestructive).Accepted?
  }

  function ManifestAccepted(p: Plane, m: M.Submission): Plane {
    p.(projection := M.Projected(p.projection, m.revision, m.snapshot),
       world := D.ManifestStep(p.world, m.snapshot.nodes.Keys),
       jobs := p.jobs[m.revision := Job(0, false)])
  }

  // -------------------------------------------------------------- reconcile filters

  /** The filters of ListNodeDesiredUsers on one access: its customer is unexpired, and no open
      period has the access's node marked exhausted. */
  predicate Admits(p: Plane, row: Access) {
    var account := AccountOf(p, row.customer);
    var open := C.OpenPeriod(account.periods);
    && p.world.db.now < account.ent.expiresAt
    && !(open.Some? && row.node in open.value.usage && open.value.usage[row.node].exhaustedAt.Some?)
  }

  function Admitted(p: Plane): set<AccessId> {
    set a | a in p.world.db.accesses && Admits(p, p.world.db.accesses[a])
  }

  // ---------------------------------------------------------------------- deletion

  function DeletionFinalized(p: Plane, c: CustomerId): Plane {
    p.(world := D.FinalizeStep(p.world, c),
       accounts := p.accounts[c := Account(C.Finalize(CustomerOf(p, c)).ent, [])])
  }

  predicate DeletionDue(p: Plane, c: CustomerId) {
    var due := AccountOf(p, c).ent.deleteNotBefore;
    D.DeletionReady(p.world.db, c) && due.Some? && due.value <= p.world.db.now
  }

  // -------------------------------------------------------------------- the machine

  datatype Step =
    | Command(customer: CustomerId, command: C.Command, grace: nat, ids: C.Ids)
    | Expire(customer: CustomerId, ids: C.Ids)
    | Usage(customer: CustomerId, node: NodeId, collectedAt: int, counted: Option<nat>, ids: C.Ids)
    | Process(job: nat, next: Option<CustomerId>, ids: C.Ids)
    | Manifest(submission: M.Submission)
    | Finalize(customer: CustomerId)
    | Protocol(step: D.Step)

  /** A step of the delivery protocol that is not a desired-state writer. */
  predicate Background(s: D.Step) {
    !s.Commit? && !s.Manifest? && !s.Finalize?
  }

  ghost predicate Enabled(p: Plane, s: Step) {
    match s
    case Command(c, _, grace, ids) => F.FreshIds(p.world, CustomerOf(p, c), EnvOf(p, grace, ids))
    case Expire(c, ids) => F.FreshIds(p.world, CustomerOf(p, c), EnvOf(p, 0, ids))
    case Usage(c, _, _, _, ids) => F.FreshIds(p.world, CustomerOf(p, c), EnvOf(p, 0, ids))
    case Process(r, next, ids) =>
      && r in p.jobs && !p.jobs[r].done && IsNext(p, p.jobs[r].cursor, next)
      && (next.Some? ==> F.FreshIds(p.world, CustomerOf(p, next.value), EnvOf(p, 0, ids)))
    case Manifest(m) => Accepts(p, m)
    case Finalize(c) => DeletionDue(p, c)
    case Protocol(d) => Background(d) && D.Enabled(p.world, d) && (d.TakeNode? ==> d.admitted == Admitted(p))
  }

  ghost function After(p: Plane, s: Step): Plane
    requires Enabled(p, s)
  {
    match s
    case Command(c, cmd, grace, ids) => Commit(p, c, C.Execute(c, CustomerOf(p, c), cmd, EnvOf(p, grace, ids)))
    case Expire(c, ids) => Commit(p, c, C.Expire(c, CustomerOf(p, c), EnvOf(p, 0, ids)))
    case Usage(c, n, at, counted, ids) => Commit(p, c, C.Account(c, CustomerOf(p, c), n, at, counted, EnvOf(p, 0, ids)))
    case Process(r, next, ids) => Processed(p, r, next, ids)
    case Manifest(m) => ManifestAccepted(p, m)
    case Finalize(c) => DeletionFinalized(p, c)
    case Protocol(d) => p.(world := D.After(p.world, d))
  }

  ghost predicate Initial(p: Plane) {
    D.Initial(p.world) && p.accounts == map[] && p.projection == M.Empty && p.jobs == map[]
  }

  ghost predicate Run(ps: seq<Plane>, steps: seq<Step>) {
    && |ps| == |steps| + 1
    && Initial(ps[0])
    && forall i | 0 <= i < |steps| :: Enabled(ps[i], steps[i]) && ps[i + 1] == After(ps[i], steps[i])
  }
}
