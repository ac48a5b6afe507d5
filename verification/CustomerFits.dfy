/** Every transaction of the five desired-state writers keeps the contract the delivery
    protocol relies on (`Delivery.Fits`): in particular it bumps the revision of exactly the
    nodes it issues operations for. */
module CustomerFits {
  import opened Types
  import opened Targets
  import opened Customers
  import D = Delivery
  import I = DeliveryInvariant

  function RowsOf(db: D.Db, c: CustomerId): map<AccessId, Access> {
    map a | a in db.accesses && db.accesses[a].customer == c :: db.accesses[a]
  }

  /** The transaction sees its customer's rows and the current nodes, and its identifiers
      were never used before. */
  ghost predicate View(w: D.World, c: CustomerId, s: Customer, env: Env) {
    && s.rows == RowsOf(w.db, c) && s.ent.lifecycle == D.LifecycleOf(w.db, c)
    && (forall n | n in w.db.nodes :: n in env.live <==> w.db.nodes[n].current)
    && (forall f, k | f in env.fleets && IsTarget(env.fleets[f], k) :: TargetAt(env.fleets[f], k).node in w.db.nodes)
    && FreshIds(w, s, env)
  }

  /** Identifiers never used before, and enough of them. */
  ghost predicate FreshIds(w: D.World, s: Customer, env: Env) {
    var ids := env.ids;
    && ids.targets.Keys !! w.usedAccesses && ids.owners.Keys !! w.usedOps
    && (forall a, b | a in ids.targets && b in ids.targets && ids.targets[a] == ids.targets[b] :: a == b)
    && OneOwner(ids)
    && (forall f, k | f in env.fleets && IsTarget(env.fleets[f], k) :: exists a :: a in ids.targets && ids.targets[a] == k)
    && (forall a | a in s.rows.Keys + ids.targets.Keys :: Owned(ids, a))
  }

  predicate Owned(ids: Ids, a: AccessId) {
    exists o | o in ids.owners :: ids.owners[o] == a
  }

  ghost predicate OneOwner(ids: Ids) {
    forall o, q | o in ids.owners && q in ids.owners && ids.owners[o] == ids.owners[q] :: o == q
  }

  /** The parts of a write before its operations are attached. */
  ghost predicate RowsFit(w: D.World, p: Write) {
    && (forall a | a in p.creates :: D.CreateFits(w, p, a))
    && (forall a | a in p.updates :: D.UpdateFits(w, p, a))
    && (forall a | a in p.unsent :: D.UnsentFits(w, p, a))
  }

  function Issued(p: Write): map<AccessId, Update> {
    Without(p.updates, p.unsent)
  }

  lemma CreatesAreNew(w: D.World, p: Write, rows: map<AccessId, Access>)
    requires I.AccessRows(w) && forall a | a in p.creates :: D.CreateFits(w, p, a)
    requires forall a | a in rows :: a in w.db.accesses
    ensures p.creates.Keys !! rows.Keys
    ensures forall a | a in p.creates :: a !in w.db.accesses
  {
    forall a | a in p.creates ensures a !in w.db.accesses {
      assert D.CreateFits(w, p, a);
    }
  }

  /** The row an issued update or create leaves behind is what its operation says. */
  lemma OpMatches(w: D.World, p: Write, rows: map<AccessId, Access>, ids: Ids, o: OperationId)
    requires forall x | x in rows :: x in w.db.accesses && rows[x] == w.db.accesses[x]
    requires p.updates.Keys <= rows.Keys && forall x | x in p.creates :: x !in w.db.accesses
    requires o in Operations(rows, p.creates, Issued(p), ids)
    ensures var after, op, a := WrittenAccesses(w.db.accesses, p), Operations(rows, p.creates, Issued(p), ids)[o], ids.owners[o];
            && a in after && D.Issues(w.db, p, a)
            && op == NewOperation(after[a].node, a, after[a].desired, after[a].version)
  {
    hide TouchedNodes;
  }

  lemma OpExists(w: D.World, p: Write, rows: map<AccessId, Access>, ids: Ids, a: AccessId)
    returns (o: OperationId)
    requires p.updates.Keys <= rows.Keys && D.Issues(w.db, p, a) && Owned(ids, a)
    ensures o in Operations(rows, p.creates, Issued(p), ids) && ids.owners[o] == a
  {
    o :| o in ids.owners && ids.owners[o] == a;
    assert a in p.updates && a !in p.unsent ==> a in Issued(p);
  }

  lemma OpsAreSent(w: D.World, p: Write, rows: map<AccessId, Access>, ids: Ids)
    requires p.updates.Keys <= rows.Keys && ids.owners.Keys !! w.usedOps && OneOwner(ids)
    requires forall x | x in rows :: x in w.db.accesses && rows[x] == w.db.accesses[x]
    requires forall x | x in p.creates :: x !in w.db.accesses
    requires forall x | x in rows.Keys + p.creates.Keys :: Owned(ids, x)
    requires p.ops == Operations(rows, p.creates, Issued(p), ids)
    ensures D.OpsFit(w, p)
  {
    forall o | o in p.ops
      ensures o in ids.owners && p.ops[o].access == ids.owners[o]
      ensures var after, a := WrittenAccesses(w.db.accesses, p), p.ops[o].access;
              a in after && D.Issues(w.db, p, a) && p.ops[o] == NewOperation(after[a].node, a, after[a].desired, after[a].version)
    {
      OpMatches(w, p, rows, ids, o);
    }
    forall a | a in WrittenAccesses(w.db.accesses, p) && D.Issues(w.db, p, a)
      ensures exists o :: o in p.ops && p.ops[o].access == a
    {
      var o := OpExists(w, p, rows, ids, a);
    }
  }

  /** The accesses whose row is delivered by an operation, with the node of that row. */
  ghost predicate At(p: Write, rows: map<AccessId, Access>, a: AccessId, n: NodeId)
    requires p.updates.Keys <= rows.Keys
  {
    || (a in p.creates && p.creates[a].desired.Present? && p.creates[a].node == n)
    || (a in p.updates && a !in p.unsent && Delivered(p.updates[a]) && rows[a].node == n)
  }

  lemma TouchedAt(p: Write, rows: map<AccessId, Access>, n: NodeId)
    requires p.updates.Keys <= rows.Keys
    ensures n in TouchedNodes(rows, p.creates, Issued(p)) <==> exists a :: At(p, rows, a, n)
  {
    if n in TouchedNodes(rows, p.creates, Issued(p)) {
      if a :| a in p.creates && p.creates[a].desired.Present? && p.creates[a].node == n {
        assert At(p, rows, a, n);
      } else {
        var a :| a in Issued(p) && Delivered(Issued(p)[a]) && rows[a].node == n;
        assert At(p, rows, a, n);
      }
    }
    if a :| At(p, rows, a, n) {
      if !(a in p.creates && p.creates[a].desired.Present? && p.creates[a].node == n) {
        assert a in Issued(p);
      }
    }
  }

  lemma OpAt(p: Write, rows: map<AccessId, Access>, ids: Ids, o: OperationId)
    requires p.updates.Keys <= rows.Keys && o in Operations(rows, p.creates, Issued(p), ids)
    ensures At(p, rows, ids.owners[o], Operations(rows, p.creates, Issued(p), ids)[o].node)
  {
  }

  lemma AtOp(w: D.World, p: Write, rows: map<AccessId, Access>, ids: Ids, a: AccessId, n: NodeId)
    returns (o: OperationId)
    requires p.updates.Keys <= rows.Keys && p.creates.Keys !! rows.Keys && At(p, rows, a, n) && Owned(ids, a)
    ensures o in Operations(rows, p.creates, Issued(p), ids) && Operations(rows, p.creates, Issued(p), ids)[o].node == n
  {
    o := OpExists(w, p, rows, ids, a);
  }

  lemma NodesAreTouched(w: D.World, p: Write, rows: map<AccessId, Access>, ids: Ids)
    requires p.updates.Keys <= rows.Keys && p.creates.Keys !! rows.Keys
    requires forall x | x in p.creates :: p.creates[x].node in w.db.nodes
    requires forall x | x in p.updates :: rows[x].node in w.db.nodes
    requires forall x | x in rows.Keys + p.creates.Keys :: Owned(ids, x)
    requires p.ops == Operations(rows, p.creates, Issued(p), ids)
    requires p.touched == TouchedNodes(rows, p.creates, Issued(p))
    ensures D.TouchedFits(w, p)
  {
    forall o | o in p.ops ensures p.ops[o].node in p.touched {
      OpAt(p, rows, ids, o);
      TouchedAt(p, rows, p.ops[o].node);
    }
    forall n | n in p.touched ensures n in w.db.nodes && exists o :: o in p.ops && p.ops[o].node == n {
      TouchedAt(p, rows, n);
      var a :| At(p, rows, a, n);
      var o := AtOp(w, p, rows, ids, a, n);
    }
  }

  lemma OpsAndTouched(w: D.World, c: CustomerId, s: Customer, p: Write, env: Env)
    requires I.AccessRows(w) && View(w, c, s, env) && RowsFit(w, p)
    requires p.updates.Keys <= s.rows.Keys && p.creates.Keys <= env.ids.targets.Keys
    requires p.ops == Operations(s.rows, p.creates, Issued(p), env.ids)
    requires p.touched == TouchedNodes(s.rows, p.creates, Issued(p))
    ensures D.OpsFit(w, p) && D.TouchedFits(w, p)
  {
    CreatesAreNew(w, p, s.rows);
    OpsAreSent(w, p, s.rows, env.ids);
    forall x | x in p.creates ensures p.creates[x].node in w.db.nodes {
      assert D.CreateFits(w, p, x);
    }
    NodesAreTouched(w, p, s.rows, env.ids);
  }

  lemma NothingUnsent(c: CustomerId, l: Lifecycle, rows: map<AccessId, Access>, creates: map<AccessId, Access>,
                      updates: map<AccessId, Update>, ids: Ids)
    requires updates.Keys <= rows.Keys
    ensures Issued(WriteOf(c, l, rows, creates, updates, ids)) == updates
  {
  }

  lemma WriteOfFits(w: D.World, c: CustomerId, s: Customer, l: Lifecycle, creates: map<AccessId, Access>,
                    updates: map<AccessId, Update>, env: Env)
    requires I.AccessRows(w) && View(w, c, s, env) && updates.Keys <= s.rows.Keys && creates.Keys <= env.ids.targets.Keys
    requires var p := WriteOf(c, l, s.rows, creates, updates, env.ids); RowsFit(w, p) && D.LifecycleFits(w, p)
    ensures D.Fits(w, WriteOf(c, l, s.rows, creates, updates, env.ids))
  {
    NothingUnsent(c, l, s.rows, creates, updates, env.ids);
    OpsAndTouched(w, c, s, WriteOf(c, l, s.rows, creates, updates, env.ids), env);
  }

  lemma LifecycleWriteFits(w: D.World, c: CustomerId, s: Customer, l: Lifecycle, updates: map<AccessId, Update>,
                           live: set<NodeId>, restrict: bool, env: Env)
    requires I.AccessRows(w) && View(w, c, s, env) && updates.Keys <= s.rows.Keys
    requires var p := LifecycleWrite(c, l, s.rows, updates, live, restrict, env.ids); RowsFit(w, p) && D.LifecycleFits(w, p)
    ensures D.Fits(w, LifecycleWrite(c, l, s.rows, updates, live, restrict, env.ids))
  {
    var p := LifecycleWrite(c, l, s.rows, updates, live, restrict, env.ids);
    OpsAndTouched(w, c, s, p, env);
  }

  // ------------------------------------------------------------ the pieces of a plan

  lemma CreatesFit(w: D.World, c: CustomerId, s: Customer, f: FleetId, ent: Entitlement, open: Period, env: Env, p: Write)
    requires View(w, c, s, env) && p.customer == c
    requires p.creates == Creates(c, TopologyOf(env, f), s.rows, ent, env.now, open, env.ids)
    ensures forall a | a in p.creates :: D.CreateFits(w, p, a)
  {
    var t := TopologyOf(env, f);
    forall a | a in p.creates ensures D.CreateFits(w, p, a) {
      assert TargetAt(t, env.ids.targets[a]).node in w.db.nodes;
    }
  }

  lemma RowFacts(w: D.World, c: CustomerId, s: Customer, env: Env, a: AccessId)
    requires View(w, c, s, env) && I.AccessRows(w) && a in s.rows
    ensures a in w.db.accesses && s.rows[a] == w.db.accesses[a] && s.rows[a].customer == c
    ensures s.rows[a].node in w.db.nodes
    ensures s.rows[a].node in env.live <==> w.db.nodes[s.rows[a].node].current
    ensures s.rows[a].retired ==> s.rows[a].desired.Absent?
    ensures !s.ent.lifecycle.Deleted?
  {
  }

  lemma ApplyFits(w: D.World, c: CustomerId, s: Customer, cmd: Command, env: Env)
    requires View(w, c, s, env) && I.AccessRows(w) && cmd.Apply?
    requires ExecuteApply(c, s, cmd, env).Committed?
    ensures var x := ExecuteApply(c, s, cmd, env);
            x.write.Some? && D.Fits(w, x.write.value) && x.write.value.customer == c
              && x.write.value.lifecycle == x.ent.lifecycle
  {
    var x := ExecuteApply(c, s, cmd, env);
    var p := x.write.value;
    var d := ClassifyApply(env.now, cmd, s.ent);
    var periods := AppliedPeriods(s, cmd, d, env);
    var ent := s.ent.(lifecycle := AppliedLifecycle(s.ent), expiresAt := cmd.expiresAt);
    CreatesFit(w, c, s, cmd.fleet, ent, periods[|periods| - 1], env, p);
    forall a | a in p.updates ensures D.UpdateFits(w, p, a) && !s.ent.lifecycle.Deleted? {
      RowFacts(w, c, s, env, a);
    }
    WriteOfFits(w, c, s, ent.lifecycle, p.creates, p.updates, env);
  }

  lemma ForcedFits(w: D.World, c: CustomerId, s: Customer, env: Env, p: Write)
    requires View(w, c, s, env) && I.AccessRows(w) && p.customer == c && IsEmpty(p.creates)
    requires p.updates == ForcedAbsent(s.rows)
    requires p.unsent == Undeliverable(s.rows, p.updates, env.live)
    ensures RowsFit(w, p)
    ensures forall a | a in w.db.accesses && w.db.accesses[a].customer == c ::
              a in p.updates && p.updates[a].SetDesired? && p.updates[a].desired.Absent?
  {
    forall a | a in s.rows ensures D.UpdateFits(w, p, a) && (a in p.unsent ==> D.UnsentFits(w, p, a)) {
      RowFacts(w, c, s, env, a);
    }
  }

  lemma SetStateFits(w: D.World, c: CustomerId, s: Customer, cmd: Command, env: Env)
    requires View(w, c, s, env) && I.AccessRows(w) && cmd.SetState? && Valid(cmd)
    requires ExecuteSetState(c, s, cmd, env).Committed?
    ensures var x := ExecuteSetState(c, s, cmd, env);
            x.write.Some? && D.Fits(w, x.write.value) && x.write.value.customer == c
              && x.write.value.lifecycle == x.ent.lifecycle
  {
    var p := ExecuteSetState(c, s, cmd, env).write.value;
    if cmd.target.Blocked? && !s.ent.lifecycle.Blocked? {
      ForcedFits(w, c, s, env, p);
    } else {
      forall a | a in p.updates ensures D.UpdateFits(w, p, a) {
        UnblockFits(w, c, s, cmd, env, p, a);
      }
    }
    hide View, I.AccessRows, D.Fits, LifecycleWrite;
    LifecycleWriteFits(w, c, s, cmd.target, p.updates, env.live, cmd.target.Blocked?, env);
  }

  lemma UnblockFits(w: D.World, c: CustomerId, s: Customer, cmd: Command, env: Env, p: Write, a: AccessId)
    requires View(w, c, s, env) && I.AccessRows(w) && cmd.SetState? && Valid(cmd) && p.customer == c
    requires cmd.target.Active? && s.ent.lifecycle.Blocked? ==> OpenPeriod(s.periods).Some?
    requires !(cmd.target.Blocked? && !s.ent.lifecycle.Blocked?) && p.updates == StateChanges(s, cmd.target, env) && a in p.updates
    ensures D.UpdateFits(w, p, a)
  {
    RowFacts(w, c, s, env, a);
  }

  lemma DeleteFits(w: D.World, c: CustomerId, s: Customer, cmd: Command, env: Env)
    requires View(w, c, s, env) && I.AccessRows(w) && cmd.Delete?
    requires ExecuteDelete(c, s, cmd, env).Committed?
    ensures var x := ExecuteDelete(c, s, cmd, env);
            x.write.Some? && D.Fits(w, x.write.value) && x.write.value.customer == c
              && x.write.value.lifecycle == x.ent.lifecycle
  {
    var p := ExecuteDelete(c, s, cmd, env).write.value;
    if s.ent.lifecycle.Deleted? {
      LifecycleWriteFits(w, c, s, Deleted, map[], {}, false, env);
    } else {
      ForcedFits(w, c, s, env, p);
      LifecycleWriteFits(w, c, s, Deleting, p.updates, env.live, true, env);
    }
  }

  /** A command's write fits, and carries the lifecycle the customer then has. */
  lemma CommandFits(w: D.World, c: CustomerId, s: Customer, cmd: Command, env: Env)
    requires View(w, c, s, env) && I.AccessRows(w)
    requires Execute(c, s, cmd, env).Committed?
    ensures var x := Execute(c, s, cmd, env);
            x.write.Some? && D.Fits(w, x.write.value) && x.write.value.customer == c
              && x.write.value.lifecycle == x.ent.lifecycle
  {
    match cmd
    case Apply(_, _, _, _) => ApplyFits(w, c, s, cmd, env);
    case SetState(_, _) => SetStateFits(w, c, s, cmd, env);
    case Delete(_) => DeleteFits(w, c, s, cmd, env);
  }

  lemma RevokedFit(w: D.World, c: CustomerId, s: Customer, rows: map<AccessId, Access>, env: Env, p: Write)
    requires View(w, c, s, env) && I.AccessRows(w) && !s.ent.lifecycle.Deleting?
    requires rows.Keys <= s.rows.Keys && forall a | a in rows :: rows[a] == s.rows[a]
    requires p == WriteOf(c, s.ent.lifecycle, s.rows, map[], Revoked(rows), env.ids)
    ensures D.Fits(w, p)
  {
    forall a | a in p.updates ensures D.UpdateFits(w, p, a) && !s.ent.lifecycle.Deleted? {
      RowFacts(w, c, s, env, a);
    }
    WriteOfFits(w, c, s, s.ent.lifecycle, map[], p.updates, env);
  }

  lemma ExpireFits(w: D.World, c: CustomerId, s: Customer, env: Env)
    requires View(w, c, s, env) && I.AccessRows(w)
    requires Expire(c, s, env).Committed?
    ensures var x := Expire(c, s, env);
            x.write.Some? && D.Fits(w, x.write.value) && x.write.value.customer == c
              && x.write.value.lifecycle == x.ent.lifecycle
  {
    RevokedFit(w, c, s, s.rows, env, Expire(c, s, env).write.value);
  }

  lemma AccountFits(w: D.World, c: CustomerId, s: Customer, n: NodeId, at: int, counted: Option<nat>, env: Env)
    requires View(w, c, s, env) && I.AccessRows(w)
    requires s.ent.lifecycle.Deleting? ==> forall a | a in s.rows :: s.rows[a].desired.Absent?
    requires Account(c, s, n, at, counted, env).Committed? && Account(c, s, n, at, counted, env).write.Some?
    ensures var x := Account(c, s, n, at, counted, env);
            D.Fits(w, x.write.value) && x.write.value.customer == c && x.write.value.lifecycle == x.ent.lifecycle
  {
    AccountWrites(c, s, n, at, counted, env);
    if s.ent.lifecycle.Deleting? { NothingToRevoke(s.rows, n); }
    RevokedFit(w, c, s, AtNode(s.rows, n), env, Account(c, s, n, at, counted, env).write.value);
  }

  lemma AccountWrites(c: CustomerId, s: Customer, n: NodeId, at: int, counted: Option<nat>, env: Env)
    requires Account(c, s, n, at, counted, env).Committed? && Account(c, s, n, at, counted, env).write.Some?
    ensures var x := Account(c, s, n, at, counted, env);
            && x.ent == s.ent && !IsEmpty(Revoked(AtNode(s.rows, n)))
            && x.write.value == WriteOf(c, s.ent.lifecycle, s.rows, map[], Revoked(AtNode(s.rows, n)), env.ids)
  {
  }

  lemma NothingToRevoke(rows: map<AccessId, Access>, n: NodeId)
    requires forall a | a in rows :: rows[a].desired.Absent?
    ensures IsEmpty(Revoked(AtNode(rows, n)))
  {
  }

  lemma MaterializeUpdatesFit(w: D.World, c: CustomerId, s: Customer, env: Env, p: Write)
    requires View(w, c, s, env) && I.AccessRows(w) && p.customer == c && !s.ent.lifecycle.Deleting?
    requires OpenPeriod(s.periods).Some? && p.updates == PlanMaterialize(c, s, env).updates
    ensures forall a | a in p.updates :: D.UpdateFits(w, p, a) && !s.ent.lifecycle.Deleted?
  {
    forall a | a in p.updates ensures D.UpdateFits(w, p, a) && !s.ent.lifecycle.Deleted? {
      MaterializeUpdateFits(w, c, s, env, p, a);
    }
  }

  lemma MaterializeUpdateFits(w: D.World, c: CustomerId, s: Customer, env: Env, p: Write, a: AccessId)
    requires View(w, c, s, env) && I.AccessRows(w) && p.customer == c && !s.ent.lifecycle.Deleting?
    requires OpenPeriod(s.periods).Some? && p.updates == PlanMaterialize(c, s, env).updates && a in p.updates
    ensures D.UpdateFits(w, p, a) && !s.ent.lifecycle.Deleted?
  {
    RowFacts(w, c, s, env, a);
    UpdateKinds(w, c, s, env, a);
    hide FreshIds, View, I.AccessRows, PlanMaterialize, Realigned;
  }

  /** An update of a materialization changes, moves or retires a live row. */
  lemma UpdateKinds(w: D.World, c: CustomerId, s: Customer, env: Env, a: AccessId)
    requires OpenPeriod(s.periods).Some? && a in PlanMaterialize(c, s, env).updates
    ensures a in s.rows && !s.rows[a].retired
    ensures var u, row := PlanMaterialize(c, s, env).updates[a], s.rows[a];
            && u.version == row.version + 1
            && (u.Retire? ==> u.issue == (row.node in env.live && row.desired.Present?))
  {
  }

  lemma MaterializeFits(w: D.World, c: CustomerId, s: Customer, env: Env)
    requires View(w, c, s, env) && I.AccessRows(w)
    requires Materialize(c, s, env).Committed?
    ensures var x := Materialize(c, s, env);
            x.write.Some? && D.Fits(w, x.write.value) && x.write.value.customer == c
              && x.write.value.lifecycle == x.ent.lifecycle
  {
    var p := Materialize(c, s, env).write.value;
    var open := OpenPeriod(s.periods).value;
    if s.ent.expiresAt > env.now {
      CreatesFit(w, c, s, s.ent.fleet, s.ent, open, env, p);
    }
    MaterializeUpdatesFit(w, c, s, env, p);
    WriteOfFits(w, c, s, s.ent.lifecycle, p.creates, p.updates, env);
  }
}
