/** Identifiers, enumerations and table rows shared by every part of the model.

    Identifiers are opaque in the control plane: only equality matters, and for
    customers also the order in which the materialization job visits them.  They are
    natural numbers here. */
module Types {

  type NodeId = nat
  type CustomerId = nat
  type AccessId = nat
  type OperationId = nat
  type FleetId = nat
  type RoutingKey = nat
  type Egress = string

  datatype Option<+T> = None | Some(value: T)

  predicate IsEmpty<K, V>(m: map<K, V>) {
    forall k | k in m :: false
  }

  /** Desired presence of a user on its entry node; also the kind of an operation
      (ENSURE_PRESENT or ENSURE_ABSENT). */
  datatype Desired = Present | Absent

  /** How far the desired state of an access has been delivered. */
  datatype ApplyState = Pending | Applied | Retrying | Failed

  /** Administrative state of a customer. */
  datatype Lifecycle = Active | Blocked | Deleting | Deleted

  /** Kind and logical target key of an access, the identity that survives generations. */
  datatype TargetKey = Freedom(node: NodeId) | Bridge(routingKey: RoutingKey)

  /** A row of vpn_accesses.  The accounting id and the credential are one-to-one with
      the access id, so users on an agent are named by the access id. */
  datatype Access = Access(
    customer: CustomerId, target: TargetKey, generation: nat,
    node: NodeId, egress: Egress,
    desired: Desired, version: nat, apply: ApplyState, retired: bool)

  /** One row update of vpn_accesses prepared by a planner. */
  datatype Update =
    | SetDesired(desired: Desired, version: nat)
    | Repoint(egress: Egress, desired: Desired, version: nat)
    | Retire(version: nat, issue: bool)

  /** A row for agent_operations prepared by a planner. */
  datatype NewOperation = NewOperation(node: NodeId, access: AccessId, kind: Desired, version: nat)

  /** Everything one desired-state transaction writes to the delivery tables. */
  datatype Write = Write(
    customer: CustomerId,
    lifecycle: Lifecycle,
    creates: map<AccessId, Access>,
    updates: map<AccessId, Update>,
    unsent: set<AccessId>,
    ops: map<OperationId, NewOperation>,
    touched: set<NodeId>)

  /** UpdateAccessDesiredState, RepointAccess and RetireAccess on one row. */
  function Updated(row: Access, u: Update): Access {
    match u
    case SetDesired(d, v) => row.(desired := d, version := v, apply := Pending)
    case Repoint(e, d, v) => row.(egress := e, desired := d, version := v, apply := Pending)
    case Retire(v, issue) =>
      row.(retired := true, desired := Absent, version := v, apply := if issue then Pending else Applied)
  }

  /** MarkAccessDesiredApplied: only an ABSENT row is marked. */
  function MarkedApplied(row: Access): Access {
    if row.desired.Absent? then row.(apply := Applied) else row
  }

  function WrittenRow(row: Access, a: AccessId, p: Write): Access {
    var updated := if a in p.updates then Updated(row, p.updates[a]) else row;
    if a in p.unsent then MarkedApplied(updated) else updated
  }

  /** vpn_accesses after the row updates and inserts of one transaction. */
  function WrittenAccesses(rows: map<AccessId, Access>, p: Write): map<AccessId, Access> {
    map a | a in rows.Keys + p.creates.Keys ::
      if a in rows then WrittenRow(rows[a], a, p) else p.creates[a]
  }
}
