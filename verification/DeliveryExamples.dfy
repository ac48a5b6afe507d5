/** Short runs that reach the limits stated in `DeliveryLimits`: one node, one customer, one
    access. */
module DeliveryExamples {
  import opened Types
  import opened Delivery
  import opened DeliveryInvariant
  import opened DeliveryWrites
  import opened DeliveryProgress
  import opened DeliveryLimits

  const Egress0: Egress := "direct"

  function Row(desired: Desired, version: nat, apply: ApplyState, retired: bool): Access {
    Access(1, Freedom(0), 1, 0, Egress0, desired, version, apply, retired)
  }

  function Server(revision: nat): Node { Node(revision, 0, true, false, None, None) }

  function Op(kind: Desired, version: nat, status: Status): Operation {
    Operation(0, 5, kind, version, status, Some(0), 0, None)
  }

  /** A world without workers in which access 5 of customer 1 is at its given version. */
  function Quiet(l: Lifecycle, revision: nat, row: Access, ops: map<OperationId, Operation>, users: map<AccessId, Egress>): World {
    World(Db(0, map[1 := l], map[0 := Server(revision)], map[5 := row], ops), map[], map[], map[0 := users], {}, {5}, ops.Keys)
  }

  const Empty := World(Db(0, map[], map[], map[], map[]), map[], map[], map[], {}, {}, {})

  const OneNode := World(Db(0, map[], map[0 := Server(1)], map[], map[]), map[], map[], map[0 := map[]], {}, {}, {})

  const Creation := Write(1, Active, map[5 := Row(Present, 1, Pending, false)], map[], {},
                          map[1 := NewOperation(0, 5, Present, 1)], {0})

  function Change(l: Lifecycle, u: Update, o: OperationId): Write {
    Write(1, l, map[], map[5 := u], {}, map[o := NewOperation(0, 5, Absent, u.version)], {0})
  }

  const Created := Quiet(Active, 2, Row(Present, 1, Pending, false), map[1 := Op(Present, 1, Queued)], map[])

  // ---------------------------------------------------------------- building a run

  lemma Then(ws: seq<World>, steps: seq<Step>, s: Step, w: World) returns (ws': seq<World>, steps': seq<Step>)
    requires Run(ws, steps) && Enabled(ws[|ws| - 1], s) && After(ws[|ws| - 1], s) == w
    ensures Run(ws', steps') && ws' == ws + [w] && steps' == steps + [s]
  {
    ws', steps' := ws + [w], steps + [s];
  }

  lemma NodeArrives()
    ensures Enabled(Empty, Manifest({0})) && After(Empty, Manifest({0})) == OneNode
  {
    assert ProjectedNodes(map[], {0}) == map[0 := Server(1)];
  }

  lemma AccessArrives()
    ensures Enabled(OneNode, Commit(Creation)) && After(OneNode, Commit(Creation)) == Created
  {
    var p := Creation;
    assert WrittenAccesses(map[], p) == map[5 := Row(Present, 1, Pending, false)];
    assert CreateFits(OneNode, p, 5);
    assert 1 in p.ops && p.ops[1].access == 5;
    assert Issues(OneNode.db, p, 5);
    assert TouchedFits(OneNode, p) by { assert p.ops[1].node == 0; }
    assert WrittenOps(map[], 0, p) == map[1 := Op(Present, 1, Queued)];
    assert Bumped(OneNode.db.nodes, {0}) == map[0 := Server(2)];
  }

  /** The run every example starts with. */
  lemma Start() returns (ws: seq<World>, steps: seq<Step>)
    ensures Run(ws, steps) && |ws| > 0 && ws[|ws| - 1] == Created
  {
    ws, steps := [Empty], [];
    NodeArrives();
    ws, steps := Then(ws, steps, Manifest({0}), OneNode);
    AccessArrives();
    ws, steps := Then(ws, steps, Commit(Creation), Created);
  }

  /** The customer may move from the first lifecycle to the second with this update. */
  predicate Allowed(l: Lifecycle, l': Lifecycle, row: Access, u: Update) {
    && l.Active? && !l'.Deleted? && u.version == row.version + 1
    && (u == SetDesired(Absent, u.version)
        || (u == Retire(u.version, true) && l'.Active? && !row.retired && row.desired.Present?))
  }

  /** A transaction that changes the access and sends an operation. */
  lemma Changed(l: Lifecycle, l': Lifecycle, revision: nat, row: Access, ops: map<OperationId, Operation>,
                users: map<AccessId, Egress>, u: Update, o: OperationId)
    requires row.customer == 1 && row.node == 0 && o !in ops && Allowed(l, l', row, u)
    ensures var w, p := Quiet(l, revision, row, ops, users), Change(l', u, o);
            && Enabled(w, Commit(p))
            && After(w, Commit(p)) == Quiet(l', revision + 1, Updated(row, u), WrittenOps(ops, 0, p), users)
  {
    ChangeFits(l, l', revision, row, ops, users, u, o);
    ChangeWrites(l, l', revision, row, ops, users, u, o);
  }

  lemma ChangeFits(l: Lifecycle, l': Lifecycle, revision: nat, row: Access, ops: map<OperationId, Operation>,
                   users: map<AccessId, Egress>, u: Update, o: OperationId)
    requires row.customer == 1 && row.node == 0 && o !in ops && Allowed(l, l', row, u)
    ensures Fits(Quiet(l, revision, row, ops, users), Change(l', u, o))
  {
    var w, p := Quiet(l, revision, row, ops, users), Change(l', u, o);
    assert UpdateFits(w, p, 5) && Issues(w.db, p, 5);
    assert o in p.ops && p.ops[o].access == 5 && p.ops[o].node == 0;
    assert WrittenAccesses(w.db.accesses, p)[5] == Updated(row, u);
  }

  lemma ChangeWrites(l: Lifecycle, l': Lifecycle, revision: nat, row: Access, ops: map<OperationId, Operation>,
                     users: map<AccessId, Egress>, u: Update, o: OperationId)
    ensures var w, p := Quiet(l, revision, row, ops, users), Change(l', u, o);
            CommitStep(w, p) == Quiet(l', revision + 1, Updated(row, u), WrittenOps(ops, 0, p), users)
  {
    var w, p := Quiet(l, revision, row, ops, users), Change(l', u, o);
    assert WrittenAccesses(w.db.accesses, p) == map[5 := Updated(row, u)];
    assert Bumped(w.db.nodes, {0}) == map[0 := Server(revision + 1)];
    assert WrittenOps(ops, 0, p).Keys == ops.Keys + {o};
  }

  /** A full set that leaves access 5 out is claimed, delivered and accepted. */
  lemma LeftOut(ws: seq<World>, steps: seq<Step>, l: Lifecycle, revision: nat, row: Access,
                ops: map<OperationId, Operation>, users: map<AccessId, Egress>)
    returns (ws': seq<World>, steps': seq<Step>)
    requires Run(ws, steps) && ws[|ws| - 1] == Quiet(l, revision, row, ops, users) && row.node == 0
    requires forall o | o in ops :: ops[o].node == 0 && !ops[o].status.InFlight?
    ensures Run(ws', steps') && |steps'| > 0 && steps'[|steps'| - 1] == Accept(0)
    ensures var w := ws'[|ws'| - 1];
            && 5 in w.db.accesses && w.db.accesses[5] == AcceptedRow(row, 5, 0, {}) && w.db.customers == map[1 := l]
            && (forall o | o in w.db.ops :: !Live(w.db.ops[o].status))
  {
    var w0 := Quiet(l, revision, row, ops, users);
    var w1 := TakeNodeStep(w0, 0, 7, 10, {});
    ws', steps' := Then(ws, steps, TakeNode(0, 7, 10, 0, {}), w1);
    var none := w1.claims[0].users;
    var w2 := LandSetStep(w1, 0, none);
    ws', steps' := Then(ws', steps', LandSet(0, none), w2);
    ws', steps' := Then(ws', steps', Accept(0), AcceptStep(w2, 0));
    SetAccepted(w2, l, row, none);
  }

  lemma SetAccepted(w: World, l: Lifecycle, row: Access, none: map<AccessId, Egress>)
    requires w.db.customers == map[1 := l] && w.db.accesses == map[5 := row] && row.node == 0
    requires 0 in w.claims && w.claims[0].users == none && none.Keys == {} && Acceptable(w.db, 0, w.claims[0].revision)
    requires forall o | o in w.db.ops :: w.db.ops[o].node == 0 && !w.db.ops[o].status.InFlight?
    ensures var w' := AcceptStep(w, 0);
            && 5 in w'.db.accesses && w'.db.accesses[5] == AcceptedRow(row, 5, 0, {}) && w'.db.customers == map[1 := l]
            && (forall o | o in w'.db.ops :: !Live(w'.db.ops[o].status))
  {
  }

  // ------------------------------------------------------------------- the examples

  /** A reconcile claim that leaves out a PRESENT access - its customer has just expired - is
      accepted: the access stays PENDING and nothing will deliver it. */
  lemma WorkIsLost() returns (ws: seq<World>, steps: seq<Step>)
    ensures Run(ws, steps) && |steps| > 0 && steps[|steps| - 1] == Accept(0)
    ensures var w := ws[|ws| - 1];
            && 5 in w.db.accesses && Unconfirmed(w.db.accesses[5]) && w.db.accesses[5].desired.Present?
            && forall o | o in w.db.ops :: !Live(w.db.ops[o].status)
  {
    ws, steps := Start();
    ws, steps := LeftOut(ws, steps, Active, 2, Row(Present, 1, Pending, false), map[1 := Op(Present, 1, Queued)], map[]);
  }

  /** An access is retired, its customer is deleted, and the node is reconciled before either
      revocation is dispatched: the customer stays DELETING with nothing left to deliver. */
  lemma DeletionHangs() returns (ws: seq<World>, steps: seq<Step>)
    ensures Run(ws, steps) && |steps| > 0 && steps[|steps| - 1] == Accept(0)
    ensures var w := ws[|ws| - 1];
            && Stuck(w, 5, 1) && !DeletionReady(w.db, 1)
            && forall o | o in w.db.ops :: !Live(w.db.ops[o].status)
  {
    var ops: map<OperationId, Operation>;
    ws, steps, ops := RetiredThenDeleted();
    ws, steps := LeftOut(ws, steps, Deleting, 4, Row(Absent, 3, Pending, true), ops, map[]);
    StuckIsNotReady(ws[|ws| - 1], 5, 1);
  }

  lemma RetiredThenDeleted() returns (ws: seq<World>, steps: seq<Step>, ops: map<OperationId, Operation>)
    ensures Run(ws, steps) && |ws| > 0 && ws[|ws| - 1] == Quiet(Deleting, 4, Row(Absent, 3, Pending, true), ops, map[])
    ensures forall o | o in ops :: ops[o].node == 0 && !ops[o].status.InFlight?
  {
    ws, steps := Start();
    var created := map[1 := Op(Present, 1, Queued)];
    ws, steps, ops := ThenChanged(ws, steps, Active, Active, 2, Row(Present, 1, Pending, false), created, map[], Retire(2, true), 2);
    ws, steps, ops := ThenChanged(ws, steps, Active, Deleting, 3, Row(Absent, 2, Pending, true), ops, map[], SetDesired(Absent, 3), 3);
  }

  lemma ThenChanged(ws: seq<World>, steps: seq<Step>, l: Lifecycle, l': Lifecycle, revision: nat, row: Access,
                    ops: map<OperationId, Operation>, users: map<AccessId, Egress>, u: Update, o: OperationId)
    returns (ws': seq<World>, steps': seq<Step>, ops': map<OperationId, Operation>)
    requires Run(ws, steps) && ws[|ws| - 1] == Quiet(l, revision, row, ops, users)
    requires row.customer == 1 && row.node == 0 && o !in ops && Allowed(l, l', row, u)
    requires forall x | x in ops :: ops[x].node == 0 && !ops[x].status.InFlight? && (Live(ops[x].status) ==> ops[x].access == 5 && ops[x].version < u.version)
    ensures Run(ws', steps') && |ws'| > 0 && ws'[|ws'| - 1] == Quiet(l', revision + 1, Updated(row, u), ops', users)
    ensures ops'.Keys == ops.Keys + {o} && ops'[o] == Op(Absent, u.version, Queued)
    ensures forall x | x in ops' :: ops'[x].node == 0 && !ops'[x].status.InFlight? && (Live(ops'[x].status) ==> x == o)
  {
    Changed(l, l', revision, row, ops, users, u, o);
    ops' := WrittenOps(ops, 0, Change(l', u, o));
    ws', steps' := Then(ws, steps, Commit(Change(l', u, o)), Quiet(l', revision + 1, Updated(row, u), ops', users));
  }

  const Taken := Op(Present, 1, InFlight).(nextAttempt := None, attempts := 1, lease := Some(Lease(9, 10)))

  const Configured5 := Quiet(Active, 2, Row(Present, 1, Applied, false), map[1 := Taken.(status := Succeeded, lease := None)], map[5 := Egress0])

  /** The creation is dispatched and confirmed. */
  lemma Confirmed() returns (ws: seq<World>, steps: seq<Step>)
    ensures Run(ws, steps) && |ws| > 0 && ws[|ws| - 1] == Configured5
  {
    hide Run;
    ws, steps := Start();
    var w1 := TakeLeaseStep(Created, 1, 9, 10);
    ws, steps := Then(ws, steps, TakeLease(1, 9, 10), w1);
    var w2 := LandStep(w1, 1);
    ws, steps := Then(ws, steps, Land(1), w2);
    assert w2.agents == map[0 := map[5 := Egress0]];
    assert w2.calls.Keys == {1};
    assert RecordStep(w2, 1, Success, 0).calls == map[];
    ws, steps := Then(ws, steps, Record(1, Success, 0), Configured5);
  }

  /** A customer is blocked and its target leaves the fleet before the revocation is
      dispatched: the row is APPLIED and retired, and the user is still on the node. */
  lemma RetiredUserStays() returns (ws: seq<World>, steps: seq<Step>)
    ensures Run(ws, steps)
    ensures var w := ws[|ws| - 1];
            && 5 in w.db.accesses && w.db.accesses[5].retired && w.db.accesses[5].apply.Applied?
            && w.db.accesses[5].node == 0 && 0 !in w.departed && 0 in w.agents && 5 in w.agents[0]
            && forall o | o in w.db.ops :: !Live(w.db.ops[o].status)
  {
    ws, steps := Confirmed();
    var ops: map<OperationId, Operation>;
    ws, steps, ops := ThenChanged(ws, steps, Active, Blocked, 2, Row(Present, 1, Applied, false), Configured5.db.ops,
                                  map[5 := Egress0], SetDesired(Absent, 2), 2);
    var blocked := Quiet(Blocked, 3, Row(Absent, 2, Pending, false), ops, map[5 := Egress0]);
    RetiredSilently(ops);
    ws, steps := Then(ws, steps, Commit(Silent), CommitStep(blocked, Silent));
  }

  const Silent := Write(1, Blocked, map[], map[5 := Retire(3, false)], {}, map[], {})

  lemma RetiredSilently(ops: map<OperationId, Operation>)
    requires forall x | x in ops && Live(ops[x].status) :: x == 2 && ops[x] == Op(Absent, 2, Queued)
    ensures var w := Quiet(Blocked, 3, Row(Absent, 2, Pending, false), ops, map[5 := Egress0]);
            && Fits(w, Silent)
            && 5 in CommitStep(w, Silent).db.accesses && CommitStep(w, Silent).db.accesses[5] == Row(Absent, 3, Applied, true)
            && forall o | o in CommitStep(w, Silent).db.ops :: !Live(CommitStep(w, Silent).db.ops[o].status)
  {
    var w := Quiet(Blocked, 3, Row(Absent, 2, Pending, false), ops, map[5 := Egress0]);
    assert UpdateFits(w, Silent, 5) && !Issues(w.db, Silent, 5);
  }

  /** A dispatcher outlives its lease, the operation is reaped and leased again. */
  lemma LeasedAgain() returns (ws: seq<World>, steps: seq<Step>, late: Call)
    ensures Run(ws, steps) && |ws| > 0 && CallAlive(ws[|ws| - 1], 1)
    ensures exists i :: 0 <= i < |steps| && steps[i] == TakeLease(1, 8, 1) && 1 in ws[i + 1].calls && late == ws[i + 1].calls[1]
    ensures late.deadline < ws[|ws| - 1].db.now
    ensures IsFresh(ws[|ws| - 1].db, late)
  {
    hide Run;
    ws, steps := Start();
    var w1 := TakeLeaseStep(Created, 1, 8, 1);
    ws, steps := Then(ws, steps, TakeLease(1, 8, 1), w1);
    late := w1.calls[1];
    ghost var i := |steps| - 1;
    var w2 := TickStep(w1, 2);
    ws, steps := Then(ws, steps, Tick(2), w2);
    var w3 := ReapStep(w2, {1});
    ws, steps := Then(ws, steps, Reap({1}), w3);
    ws, steps := Then(ws, steps, TakeLease(1, 9, 10), TakeLeaseStep(w3, 1, 9, 10));
    assert steps[i] == TakeLease(1, 8, 1) && late == ws[i + 1].calls[1];
  }

  /** Recording the first result now would make the operation eligible a third time while the
      second attempt runs. */
  lemma LateResultReopens() returns (ws: seq<World>, steps: seq<Step>, late: Call)
    ensures Run(ws, steps) && CallAlive(ws[|ws| - 1], 1)
    ensures exists i :: 0 <= i < |steps| && steps[i] == TakeLease(1, 8, 1) && 1 in ws[i + 1].calls && late == ws[i + 1].calls[1]
    ensures late.deadline < ws[|ws| - 1].db.now
    ensures 1 in ws[|ws| - 1].db.ops && Eligible(Recorded(ws[|ws| - 1].db, 1, late, Retryable, 0), 1)
  {
    hide Run, IsFresh, Eligible, Recorded;
    ws, steps, late := LeasedAgain();
    RunKeeps(ws, steps, |ws| - 1);
    LateResultReopensNode(ws[|ws| - 1], 1, late);
  }
}
