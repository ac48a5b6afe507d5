/** The delivery tables and the statements that change them, row by row. */
module Outbox {
  import opened Types
  import opened Tables
  import D = Delivery

  /** An insert or update list as a transaction carries it. */
  datatype Batch = Batch(
    customer: CustomerId, lifecycle: Lifecycle,
    touched: seq<NodeId>,
    creates: seq<(AccessId, Access)>,
    updates: seq<(AccessId, Update)>,
    unsent: seq<AccessId>,
    operations: seq<(OperationId, NewOperation)>)

  function WriteOf(b: Batch): Write {
    Write(b.customer, b.lifecycle, MapOf(b.creates), MapOf(b.updates), (set a | a in b.unsent), MapOf(b.operations),
          (set n | n in b.touched))
  }

  /** NULLS FIRST. */
  predicate NoLater(a: Option<int>, b: Option<int>) {
    a.None? || (b.Some? && a.value <= b.value)
  }

  predicate ExpiresBefore(db: D.Db, o: OperationId, p: OperationId)
    requires D.Expired(db, o) && D.Expired(db, p)
  {
    db.ops[o].lease.value.expires <= db.ops[p].lease.value.expires
  }

  /** The order of LeaseNextOperation. */
  predicate Sooner(db: D.Db, o: OperationId, p: OperationId)
    requires D.Eligible(db, o) && D.Eligible(db, p)
  {
    var first, second := db.ops[o].nextAttempt.value, db.ops[p].nextAttempt.value;
    first < second || (first == second && o <= p)
  }

  lemma StillExpired(db: D.Db, picked: set<OperationId>)
    requires forall o | o in picked :: D.Expired(db, o)
    ensures forall o :: D.Expired(D.Reaped(db, picked), o) <==> D.Expired(db, o) && o !in picked
    ensures forall o | o !in picked && o in db.ops :: D.Reaped(db, picked).ops[o] == db.ops[o]
  {
  }

  /** The oldest of what is still expired is the next one. */
  lemma ReapNext(db: D.Db, picked: set<OperationId>, o: OperationId)
    requires forall x | x in picked :: D.Expired(db, x)
    requires D.Expired(D.Reaped(db, picked), o) && forall p | D.Expired(D.Reaped(db, picked), p) :: ExpiresBefore(D.Reaped(db, picked), o, p)
    ensures D.Expired(db, o) && o !in picked
    ensures forall p | D.Expired(db, p) && p !in picked :: ExpiresBefore(db, o, p)
    ensures D.Reaped(db, picked + {o}) == D.Reaped(db, picked).(ops := D.Reaped(db, picked).ops[o := D.ReapedRow(db, db.ops[o])])
    ensures D.Reaped(db, picked).ops[o] == db.ops[o]
  {
    StillExpired(db, picked);
  }

  class Store {
    var now: int
    var customers: map<CustomerId, Lifecycle>
    var nodes: map<NodeId, D.Node>
    var accesses: map<AccessId, Access>
    var ops: map<OperationId, D.Operation>

    function Snapshot(): D.Db
      reads this
    {
      D.Db(now, customers, nodes, accesses, ops)
    }

    /** Foreign keys of agent_operations. */
    ghost predicate Valid()
      reads this
    {
      forall o | o in ops :: ops[o].access in accesses
    }

    constructor (now: int)
      ensures Snapshot() == D.Db(now, map[], map[], map[], map[]) && Valid()
    {
      this.now := now;
      customers, nodes, accesses, ops := map[], map[], map[], map[];
    }

    // ------------------------------------------------------------------- dispatch

    /** ReapExpiredOperationLeases: at most `limit` operations whose lease has expired, the
        oldest leases first. */
    method ReapExpired(limit: nat) returns (picked: set<OperationId>)
      modifies this`ops
      ensures Snapshot() == D.Reaped(old(Snapshot()), picked)
      ensures forall o | o in picked :: D.Expired(old(Snapshot()), o)
      ensures |picked| <= limit
      ensures |picked| < limit ==> forall o | D.Expired(old(Snapshot()), o) :: o in picked
      ensures forall o, p | o in picked && D.Expired(old(Snapshot()), p) && p !in picked :: ExpiresBefore(old(Snapshot()), o, p)
    {
      ghost var before := Snapshot();
      picked := {};
      while |picked| < limit
        invariant Snapshot() == D.Reaped(before, picked) && |picked| <= limit
        invariant forall o | o in picked :: D.Expired(before, o)
        invariant forall o, p | o in picked && D.Expired(before, p) && p !in picked :: ExpiresBefore(before, o, p)
        decreases limit - |picked|
      {
        var oldest := OldestExpired();
        if oldest.None? { StillExpired(before, picked); return; }
        var o := oldest.value;
        var op := ops[o];
        ReapNext(before, picked, o);
        ops := ops[o := if op.access in accesses && op.version < accesses[op.access].version
                        then op.(status := D.Superseded, nextAttempt := None, lease := None)
                        else op.(status := D.RetryWait, nextAttempt := Some(now), lease := None)];
        picked := picked + {o};
      }
    }

    method OldestExpired() returns (oldest: Option<OperationId>)
      ensures oldest.None? ==> forall o :: !D.Expired(Snapshot(), o)
      ensures oldest.Some? ==> D.Expired(Snapshot(), oldest.value)
                               && forall p | D.Expired(Snapshot(), p) :: ExpiresBefore(Snapshot(), oldest.value, p)
    {
      oldest := None;
      var todo := ops.Keys;
      while todo != {}
        invariant todo <= ops.Keys && (oldest.Some? ==> D.Expired(Snapshot(), oldest.value))
        invariant forall o | D.Expired(Snapshot(), o) && o !in todo :: oldest.Some? && ExpiresBefore(Snapshot(), oldest.value, o)
        decreases todo
      {
        var o :| o in todo;
        todo := todo - {o};
        var op := ops[o];
        if op.status.InFlight? && op.lease.Some? && op.lease.value.expires < now
           && (oldest.None? || op.lease.value.expires < ops[oldest.value].lease.value.expires) {
          oldest := Some(o);
        }
      }
    }

    /** Whether the node of an operation may be given a call now. */
    method NodeIsFree(n: NodeId) returns (free: bool)
      ensures free <==> !D.LeaseHeld(Snapshot(), n) && D.NoneInFlight(Snapshot(), n)
    {
      if n in nodes && nodes[n].lease.Some? && now <= nodes[n].lease.value.expires { return false; }
      var todo := ops.Keys;
      while todo != {}
        invariant todo <= ops.Keys
        invariant forall o | o in ops && o !in todo && ops[o].node == n :: !ops[o].status.InFlight?
        decreases todo
      {
        var o :| o in todo;
        if ops[o].node == n && ops[o].status.InFlight? { return false; }
        todo := todo - {o};
      }
      return true;
    }

    /** LeaseNextOperation: the eligible operation with the earliest next attempt - of several,
        the one with the lowest id - leased, with the payload joined from its access row; None
        when nothing is eligible. */
    method LeaseNext(owner: nat, ttl: nat) returns (leased: Option<(OperationId, D.Call)>)
      requires Valid()
      modifies this`ops
      ensures Valid()
      ensures leased.None? ==> Snapshot() == old(Snapshot()) && forall o :: !D.Eligible(old(Snapshot()), o)
      ensures leased.Some? ==>
                var o, db := leased.value.0, old(Snapshot());
                && D.Eligible(db, o) && Snapshot() == D.Leased(db, o, owner, ttl)
                && leased.value.1 == D.CallFor(db, o, ttl)
                && (forall p | D.Eligible(db, p) :: Sooner(db, o, p))
    {
      var best: Option<OperationId> := None;
      var todo := ops.Keys;
      while todo != {}
        invariant todo <= ops.Keys && Snapshot() == old(Snapshot())
        invariant best.Some? ==> D.Eligible(Snapshot(), best.value)
        invariant forall o | o in ops && o !in todo && D.Eligible(Snapshot(), o) :: best.Some? && Sooner(Snapshot(), best.value, o)
        decreases todo
      {
        var o :| o in todo;
        var op := ops[o];
        var free := NodeIsFree(op.node);
        if D.Waiting(op.status) && op.nextAttempt.Some? && op.nextAttempt.value <= now && free
           && (best.None? || op.nextAttempt.value < ops[best.value].nextAttempt.value
               || (op.nextAttempt == ops[best.value].nextAttempt && o < best.value)) {
          best := Some(o);
        }
        todo := todo - {o};
      }
      if best.None? { return None; }
      var op, row := ops[best.value], accesses[ops[best.value].access];
      leased := Some((best.value, D.Call(op.node, op.access, op.kind, op.version, row.version, row.egress,
                                         op.attempts + 1, now + ttl, false)));
      ops := ops[best.value := op.(status := D.InFlight, attempts := op.attempts + 1, nextAttempt := None,
                                   lease := Some(D.Lease(owner, now + ttl)))];
    }

    /** The result transaction: SetAccessApplyState reports whether the version still stands,
        and CompleteOperation writes the plan, rewritten when it does not. */
    method Record(o: OperationId, call: D.Call, outcome: D.Outcome, delay: nat) returns (upToDate: bool)
      requires o in ops
      modifies this`ops, this`accesses
      ensures upToDate == D.IsFresh(old(Snapshot()), call)
      ensures Snapshot() == D.Recorded(old(Snapshot()), o, call, outcome, delay)
      ensures old(Valid()) ==> Valid()
    {
      var plan := D.PlanResult(outcome, now, delay);
      upToDate := call.access in accesses && accesses[call.access].version == call.version;
      if upToDate {
        accesses := accesses[call.access := accesses[call.access].(apply := plan.apply)];
      } else {
        plan := D.SupersededPlan(plan);
      }
      ops := ops[o := ops[o].(status := plan.status, nextAttempt := plan.nextAttempt, lease := None)];
    }

    // ------------------------------------------------------------------ reconcile

    /** ClaimNodeForReconcile and ListNodeDesiredUsers in one transaction: the claimable node
        attempted longest ago, one never attempted before all others. */
    method ClaimNode(owner: nat, ttl: nat, interval: nat, admitted: set<AccessId>) returns (claimed: Option<(NodeId, D.Claim)>)
      modifies this`nodes
      ensures claimed.None? ==> Snapshot() == old(Snapshot()) && forall n :: !D.Claimable(old(Snapshot()), n, interval)
      ensures claimed.Some? ==>
                var n, db := claimed.value.0, old(Snapshot());
                && D.Claimable(db, n, interval) && Snapshot() == D.ClaimedDb(db, n, owner, ttl)
                && claimed.value.1 == D.ClaimFor(db, n, owner, ttl, admitted)
                && (forall m | D.Claimable(db, m, interval) :: NoLater(db.nodes[n].attemptedAt, db.nodes[m].attemptedAt))
    {
      var next := NextClaimable(interval);
      if next.None? { return None; }
      var n := next.value;
      var users := DesiredUsers(n, admitted);
      claimed := Some((n, D.Claim(owner, nodes[n].revision, users, D.RowsAt(Snapshot(), n), now + ttl, false)));
      nodes := nodes[n := nodes[n].(lease := Some(D.Lease(owner, now + ttl)), attemptedAt := Some(now))];
    }

    method NextClaimable(interval: nat) returns (next: Option<NodeId>)
      ensures next.None? ==> forall n :: !D.Claimable(Snapshot(), n, interval)
      ensures next.Some? ==>
                && D.Claimable(Snapshot(), next.value, interval)
                && forall m | D.Claimable(Snapshot(), m, interval) :: NoLater(nodes[next.value].attemptedAt, nodes[m].attemptedAt)
    {
      next := None;
      var todo := nodes.Keys;
      while todo != {}
        invariant todo <= nodes.Keys && (next.Some? ==> D.Claimable(Snapshot(), next.value, interval))
        invariant forall n | n in nodes && n !in todo && D.Claimable(Snapshot(), n, interval) ::
                    next.Some? && NoLater(nodes[next.value].attemptedAt, nodes[n].attemptedAt)
        decreases todo
      {
        var n :| n in todo;
        var free := NodeIsFree(n);
        var node := nodes[n];
        if node.current && free
           && (node.needsBootstrap || node.attemptedAt.None? || node.attemptedAt.value < now - interval)
           && (next.None? || !NoLater(nodes[next.value].attemptedAt, node.attemptedAt)) {
          next := Some(n);
        }
        todo := todo - {n};
      }
    }

    /** ListNodeDesiredUsers. */
    method DesiredUsers(n: NodeId, admitted: set<AccessId>) returns (users: map<AccessId, Egress>)
      ensures users == D.DesiredUsers(Snapshot(), n, admitted)
    {
      users := map[];
      var todo := accesses.Keys;
      while todo != {}
        invariant todo <= accesses.Keys
        invariant users == map a | a in accesses && a !in todo && a in D.DesiredUsers(Snapshot(), n, admitted) :: accesses[a].egress
        decreases todo
      {
        var a :| a in todo;
        var row := accesses[a];
        var active := row.customer in customers && customers[row.customer].Active?;
        if row.node == n && !row.retired && row.desired.Present? && active && a in admitted {
          users := users[a := row.egress];
        }
        todo := todo - {a};
      }
    }

    /** AcceptReconcile: a revision that moved on writes nothing; otherwise the revision, the
        access rows and the waiting operations of the node are all written. */
    method AcceptReconcile(n: NodeId, revision: nat, applied: set<AccessId>) returns (accepted: bool)
      modifies this`nodes, this`accesses, this`ops
      ensures accepted == D.Acceptable(old(Snapshot()), n, revision)
      ensures Snapshot() == D.Accepted(old(Snapshot()), n, revision, applied)
    {
      accepted := n in nodes && nodes[n].revision == revision;
      if !accepted { return; }
      ghost var before := Snapshot();
      nodes := nodes[n := nodes[n].(reconciled := revision)];
      MarkApplied(n, applied);
      CompleteWaiting(n);
    }

    /** MarkNodeAccessesApplied. */
    method MarkApplied(n: NodeId, applied: set<AccessId>)
      modifies this`accesses
      ensures accesses == map a | a in old(accesses) :: D.AcceptedRow(old(accesses)[a], a, n, applied)
    {
      var todo := accesses.Keys;
      while todo != {}
        invariant todo <= accesses.Keys == old(accesses).Keys
        invariant forall a | a in accesses ::
                    accesses[a] == if a in todo then old(accesses)[a] else D.AcceptedRow(old(accesses)[a], a, n, applied)
        decreases todo
      {
        var a :| a in todo;
        var row := accesses[a];
        if row.node == n && !row.retired && (a in applied || row.desired.Absent?) && !row.apply.Applied? {
          accesses := accesses[a := row.(apply := Applied)];
        }
        todo := todo - {a};
      }
    }

    /** CompleteNodeOperationsByReconcile. */
    method CompleteWaiting(n: NodeId)
      modifies this`ops
      ensures ops == map o | o in old(ops) :: D.AcceptedOp(old(ops)[o], n)
    {
      var todo := ops.Keys;
      while todo != {}
        invariant todo <= ops.Keys == old(ops).Keys
        invariant forall o | o in ops :: ops[o] == if o in todo then old(ops)[o] else D.AcceptedOp(old(ops)[o], n)
        decreases todo
      {
        var o :| o in todo;
        if ops[o].node == n && D.Waiting(ops[o].status) {
          ops := ops[o := ops[o].(status := D.Succeeded, nextAttempt := None)];
        }
        todo := todo - {o};
      }
    }

    /** ReleaseNodeReconcile. */
    method Release(n: NodeId, owner: nat)
      modifies this`nodes
      ensures Snapshot() == D.Released(old(Snapshot()), n, owner)
    {
      if n in nodes && nodes[n].lease.Some? && nodes[n].lease.value.owner == owner {
        nodes := nodes[n := nodes[n].(lease := None)];
      }
    }
  
    // ------------------------------------------------------- desired-state writers

    /** LockNodesForUpdate found every node. */
    method AllPresent(touched: seq<NodeId>) returns (ok: bool)
      ensures ok <==> forall n | n in touched :: n in nodes
    {
      ok := true;
      for i := 0 to |touched|
        invariant ok <==> forall n | n in touched[..i] :: n in nodes
      {
        assert touched[..i + 1] == touched[..i] + [touched[i]];
        if touched[i] !in nodes { ok := false; }
      }
      assert touched[..|touched|] == touched;
    }

    /** BumpNodesDesiredRevision: every listed node once. */
    method BumpNodes(touched: seq<NodeId>)
      requires forall i, j | 0 <= i < j < |touched| :: touched[i] != touched[j]
      requires forall n | n in touched :: n in nodes
      modifies this`nodes
      ensures nodes == D.Bumped(old(nodes), set n | n in touched)
    {
      for i := 0 to |touched|
        invariant nodes.Keys == old(nodes).Keys
        invariant forall n | n in nodes :: nodes[n] ==
                    if n in touched[..i] then old(nodes)[n].(revision := old(nodes)[n].revision + 1) else old(nodes)[n]
      {
        var n := touched[i];
        assert n in touched && n !in touched[..i];
        nodes := nodes[n := nodes[n].(revision := nodes[n].revision + 1)];
        assert touched[..i + 1] == touched[..i] + [n];
      }
      assert touched[..|touched|] == touched;
    }

    /** InsertVpnAccess, then UpdateAccessDesiredState, RepointAccess and RetireAccess, then
        MarkAccessDesiredApplied, row by row. */
    method WriteAccesses(b: Batch)
      requires DistinctKeys(b.creates) && DistinctKeys(b.updates)
      requires forall i | 0 <= i < |b.creates| :: b.creates[i].0 !in accesses
      requires forall i | 0 <= i < |b.updates| :: b.updates[i].0 in accesses
      requires forall a | a in b.unsent :: a in accesses
      modifies this`accesses
      ensures accesses == WrittenAccesses(old(accesses), WriteOf(b))
    {
      ghost var before := accesses;
      InsertRows(b.creates);
      UpdateRows(b.updates);
      MarkRows(b.unsent);
      RowsWritten(before, b);
    }

    method InsertRows(creates: seq<(AccessId, Access)>)
      requires DistinctKeys(creates)
      modifies this`accesses
      ensures accesses == old(accesses) + MapOf(creates)
    {
      for i := 0 to |creates|
        invariant accesses == old(accesses) + MapOf(creates[..i])
      {
        assert creates[..i + 1][..i] == creates[..i];
        accesses := accesses[creates[i].0 := creates[i].1];
      }
      assert creates[..|creates|] == creates;
    }

    method UpdateRows(updates: seq<(AccessId, Update)>)
      requires DistinctKeys(updates) && forall i | 0 <= i < |updates| :: updates[i].0 in accesses
      modifies this`accesses
      ensures accesses == UpdatedRows(old(accesses), MapOf(updates))
    {
      assert MapOf(updates[..0]) == map[];
      for i := 0 to |updates|
        invariant accesses == UpdatedRows(old(accesses), MapOf(updates[..i]))
      {
        var a := updates[i].0;
        assert updates[..i + 1][..i] == updates[..i];
        MapKeys(updates[..i]);
        assert a !in MapOf(updates[..i]);
        accesses := accesses[a := Updated(accesses[a], updates[i].1)];
      }
      assert updates[..|updates|] == updates;
    }

    method MarkRows(unsent: seq<AccessId>)
      requires forall a | a in unsent :: a in accesses
      modifies this`accesses
      ensures accesses == MarkedRows(old(accesses), set a | a in unsent)
    {
      for i := 0 to |unsent|
        invariant accesses == MarkedRows(old(accesses), set a | a in unsent[..i])
      {
        var a := unsent[i];
        assert a in unsent;
        assert unsent[..i + 1] == unsent[..i] + [a];
        accesses := accesses[a := MarkedApplied(accesses[a])];
      }
      assert unsent[..|unsent|] == unsent;
    }

    /** SupersedeStaleOperations for every update, then InsertAgentOperation for every operation. */
    method WriteOperations(b: Batch)
      requires DistinctKeys(b.updates)
      requires forall i | 0 <= i < |b.operations| :: b.operations[i].0 !in ops
      modifies this`ops
      ensures ops == D.WrittenOps(old(ops), now, WriteOf(b))
    {
      ghost var before := ops;
      SupersedeAll(b.updates);
      InsertOperations(b.operations);
      OpsWritten(before, now, b);
    }

    method SupersedeAll(updates: seq<(AccessId, Update)>)
      requires DistinctKeys(updates)
      modifies this`ops
      ensures ops == SupersededOps(old(ops), MapOf(updates))
    {
      for i := 0 to |updates|
        invariant ops == SupersededOps(old(ops), MapOf(updates[..i]))
      {
        SupersededNext(old(ops), updates, i);
        Supersede(updates[i].0, updates[i].1.version);
      }
      assert updates[..|updates|] == updates;
    }

    method InsertOperations(operations: seq<(OperationId, NewOperation)>)
      modifies this`ops
      ensures ops == old(ops) + InsertedOps(MapOf(operations), now)
    {
      for i := 0 to |operations|
        invariant ops == old(ops) + InsertedOps(MapOf(operations[..i]), now)
      {
        assert operations[..i + 1][..i] == operations[..i];
        ops := ops[operations[i].0 := D.Inserted(operations[i].1, now)];
      }
      assert operations[..|operations|] == operations;
    }

    /** SupersedeStaleOperations. */
    method Supersede(a: AccessId, version: nat)
      modifies this`ops
      ensures ops == map o | o in old(ops) :: Stale(old(ops)[o], a, version)
    {
      var todo := ops.Keys;
      while todo != {}
        invariant todo <= ops.Keys == old(ops).Keys
        invariant forall o | o in ops :: ops[o] == if o in todo then old(ops)[o] else Stale(old(ops)[o], a, version)
        decreases todo
      {
        var o :| o in todo;
        if ops[o].access == a && ops[o].version < version && D.Waiting(ops[o].status) {
          ops := ops[o := ops[o].(status := D.Superseded)];
        }
        todo := todo - {o};
      }
    }

    /** One desired-state transaction: all of it, or nothing when a touched node is missing. */
    method Commit(b: Batch) returns (ok: bool)
      requires DistinctKeys(b.creates) && DistinctKeys(b.updates)
      requires forall i, j | 0 <= i < j < |b.touched| :: b.touched[i] != b.touched[j]
      requires forall i | 0 <= i < |b.creates| :: b.creates[i].0 !in accesses
      requires forall i | 0 <= i < |b.updates| :: b.updates[i].0 in accesses
      requires forall a | a in b.unsent :: a in accesses
      requires forall i | 0 <= i < |b.operations| :: b.operations[i].0 !in ops
      modifies this
      ensures ok <==> forall n | n in b.touched :: n in old(nodes)
      ensures Snapshot() == if ok then D.AfterWrite(old(Snapshot()), WriteOf(b)) else old(Snapshot())
    {
      ok := AllPresent(b.touched);
      if !ok { return; }
      customers := customers[b.customer := b.lifecycle];
      BumpNodes(b.touched);
      WriteAccesses(b);
      WriteOperations(b);
    }

    // -------------------------------------------------------------------- deletion

    /** CustomerDeletionReady. */
    method DeletionReady(c: CustomerId) returns (ready: bool)
      ensures ready == D.DeletionReady(Snapshot(), c)
    {
      if !(c in customers && customers[c].Deleting?) { return false; }
      var rows := accesses.Keys;
      while rows != {}
        invariant rows <= accesses.Keys
        invariant forall a | a in accesses && a !in rows && accesses[a].customer == c :: accesses[a].desired.Absent? && accesses[a].apply.Applied?
        decreases rows
      {
        var a :| a in rows;
        if accesses[a].customer == c && !(accesses[a].desired.Absent? && accesses[a].apply.Applied?) { return false; }
        rows := rows - {a};
      }
      var todo := ops.Keys;
      while todo != {}
        invariant todo <= ops.Keys
        invariant forall o | o in ops && o !in todo && ops[o].access in accesses && accesses[ops[o].access].customer == c :: !D.Live(ops[o].status)
        decreases todo
      {
        var o :| o in todo;
        if ops[o].access in accesses && accesses[ops[o].access].customer == c && D.Live(ops[o].status) { return false; }
        todo := todo - {o};
      }
      return true;
    }

    /** FinalizeNextDeletion: operations first, then accesses, then the tombstone. */
    method FinalizeNext(due: set<CustomerId>) returns (done: Option<CustomerId>)
      modifies this
      ensures done.None? ==> Snapshot() == old(Snapshot()) && forall c | c in due :: !D.DeletionReady(old(Snapshot()), c)
      ensures done.Some? ==> done.value in due && D.DeletionReady(old(Snapshot()), done.value)
      ensures done.Some? ==> Snapshot() == D.Finalized(old(Snapshot()), done.value)
    {
      var todo := due;
      while todo != {}
        invariant todo <= due && Snapshot() == old(Snapshot())
        invariant forall c | c in due && c !in todo :: !D.DeletionReady(Snapshot(), c)
        decreases todo
      {
        var c :| c in todo;
        var ready := DeletionReady(c);
        if ready {
          ops := map o | o in ops && !(ops[o].access in accesses && accesses[ops[o].access].customer == c) :: ops[o];
          accesses := map a | a in accesses && accesses[a].customer != c :: accesses[a];
          customers := customers[c := Deleted];
          return Some(c);
        }
        todo := todo - {c};
      }
      done := None;
    }
  }

  // ------------------------------------------------------------- what the loops write

  function UpdatedRows(rows: map<AccessId, Access>, updates: map<AccessId, Update>): map<AccessId, Access> {
    map a | a in rows :: if a in updates then Updated(rows[a], updates[a]) else rows[a]
  }

  function MarkedRows(rows: map<AccessId, Access>, unsent: set<AccessId>): map<AccessId, Access> {
    map a | a in rows :: if a in unsent then MarkedApplied(rows[a]) else rows[a]
  }

  function SupersededOps(ops: map<OperationId, D.Operation>, updates: map<AccessId, Update>): map<OperationId, D.Operation> {
    map o | o in ops ::
      if ops[o].access in updates && ops[o].version < updates[ops[o].access].version && D.Waiting(ops[o].status)
      then ops[o].(status := D.Superseded) else ops[o]
  }

  /** SupersedeStaleOperations on one row. */
  function Stale(op: D.Operation, a: AccessId, version: nat): D.Operation {
    if op.access == a && op.version < version && D.Waiting(op.status) then op.(status := D.Superseded) else op
  }

  lemma SupersededNext(ops: map<OperationId, D.Operation>, updates: seq<(AccessId, Update)>, i: nat)
    requires DistinctKeys(updates) && i < |updates|
    ensures SupersededOps(ops, MapOf(updates[..i + 1]))
         == map o | o in ops :: Stale(SupersededOps(ops, MapOf(updates[..i]))[o], updates[i].0, updates[i].1.version)
  {
    assert updates[..i + 1][..i] == updates[..i];
    MapKeys(updates[..i]);
    assert updates[i].0 !in MapOf(updates[..i]);
  }

  function InsertedOps(ops: map<OperationId, NewOperation>, now: int): map<OperationId, D.Operation> {
    map o | o in ops :: D.Inserted(ops[o], now)
  }

  /** Inserting, updating and marking in that order is what one transaction writes. */
  lemma RowsWritten(rows: map<AccessId, Access>, b: Batch)
    requires forall i | 0 <= i < |b.creates| :: b.creates[i].0 !in rows
    requires forall i | 0 <= i < |b.updates| :: b.updates[i].0 in rows
    requires forall a | a in b.unsent :: a in rows
    ensures MarkedRows(UpdatedRows(rows + MapOf(b.creates), MapOf(b.updates)), set a | a in b.unsent)
         == WrittenAccesses(rows, WriteOf(b))
  {
    MapKeys(b.creates);
    MapKeys(b.updates);
  }

  /** Superseding, then inserting, is what one transaction writes to the outbox. */
  lemma OpsWritten(ops: map<OperationId, D.Operation>, now: int, b: Batch)
    requires forall i | 0 <= i < |b.operations| :: b.operations[i].0 !in ops
    ensures SupersededOps(ops, MapOf(b.updates)) + InsertedOps(MapOf(b.operations), now) == D.WrittenOps(ops, now, WriteOf(b))
  {
    MapKeys(b.operations);
  }
}
