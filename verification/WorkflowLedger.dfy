/** The approval workflow without concurrency: the three tables, and what one create, one
    approval and one rejection do to them when nothing else runs. */
module WorkflowLedger {
  import opened Collections

  type Id = nat

  const PURCHASE_ORDER := "purchase-order.create"
  const APPROVE_PERMISSION := "po.approve"

  datatype Dto = Dto(vendorId: Id, amount: string, currency: string)

  // The jsonb payload; only a purchase-order request carries a Dto.
  datatype Payload = Order(dto: Dto) | Other(value: nat)

  datatype Status = Pending | Approved | Rejected

  datatype Instance = Instance(
    tenantId: Id, kind: string, status: Status, payload: Payload, requestedBy: Id, completed: bool)

  datatype Action = Approve | Reject

  datatype ApprovalStep = ApprovalStep(instanceId: Id, approverId: Id, action: Action)

  datatype PurchaseOrder = PurchaseOrder(
    tenantId: Id, vendorId: Id, amount: string, currency: string, requestedBy: Id, approvedBy: Id)

  datatype Role = Role(tenantId: Id, permissions: seq<string>)

  // What a module registered for a workflow type; InsertOrder is the purchase-order handler.
  datatype Handler = InsertOrder | OtherHandler
  datatype Registration = Registration(permission: string, handler: Handler)
  type Registry = map<string, Registration>

  /** origin is a history map: the instance each purchase order was written for. */
  datatype Tables = Tables(
    instances: map<Id, Instance>,
    steps: map<Id, ApprovalStep>,
    orders: map<Id, PurchaseOrder>,
    origin: map<Id, Id>)

  const NO_ROWS := Tables(map[], map[], map[], map[])

  // A committed call. role is the approver's role as the permission check read it.
  datatype Op =
    | Create(id: Id, kind: string, payload: Payload, tenantId: Id, requestedBy: Id)
    | Decide(action: Action, id: Id, approverId: Id, role: Role, stepId: Id, orderId: Option<Id>)

  // Only PurchaseOrdersService registers its own type, with its own handler.
  predicate ModulesKeepApart(registry: Registry) {
    forall kind :: kind in registry ==>
      (registry[kind].handler == InsertOrder <==> kind == PURCHASE_ORDER)
      && (kind == PURCHASE_ORDER ==> registry[kind].permission == APPROVE_PERMISSION)
  }

  function Requested(kind: string, payload: Payload, tenantId: Id, requestedBy: Id): Instance {
    Instance(tenantId, kind, Pending, payload, requestedBy, false)
  }

  function Decided(row: Instance, action: Action): Instance {
    row.(status := if action == Approve then Approved else Rejected, completed := true)
  }

  function OrderFor(row: Instance, approverId: Id): PurchaseOrder
    requires row.payload.Order?
  {
    var dto := row.payload.dto;
    PurchaseOrder(row.tenantId, dto.vendorId, dto.amount, dto.currency, row.requestedBy, approverId)
  }

  // The handler writes an order exactly when an order request is approved.
  predicate Writes(registry: Registry, row: Instance, action: Action) {
    action == Approve && row.kind in registry && registry[row.kind].handler == InsertOrder
  }

  predicate RoleAllows(role: Role, tenantId: Id, permission: string) {
    role.tenantId == tenantId && permission in role.permissions
  }

  // What approve and reject check of the row they hold and the approver.
  predicate MayDecide(registry: Registry, row: Instance, action: Action, approverId: Id, role: Role) {
    && row.status == Pending
    && (action == Approve ==> approverId != row.requestedBy)
    && row.kind in registry
    && RoleAllows(role, row.tenantId, registry[row.kind].permission)
  }

  predicate Allowed(db: Tables, registry: Registry, op: Op) {
    match op
    case Create(id, kind, _, _, _) => id !in db.instances && kind in registry
    case Decide(action, id, approverId, role, stepId, orderId) =>
      && id in db.instances
      && MayDecide(registry, db.instances[id], action, approverId, role)
      && stepId !in db.steps
      && (orderId.Some? <==> Writes(registry, db.instances[id], action))
      && (orderId.Some? ==> orderId.value !in db.orders && db.instances[id].payload.Order?)
  }

  function Serial(db: Tables, registry: Registry, op: Op): Tables
    requires Allowed(db, registry, op)
  {
    match op
    case Create(id, kind, payload, tenantId, requestedBy) =>
      db.(instances := db.instances[id := Requested(kind, payload, tenantId, requestedBy)])
    case Decide(action, id, approverId, _, stepId, orderId) =>
      var row := db.instances[id];
      Tables(db.instances[id := Decided(row, action)],
             db.steps[stepId := ApprovalStep(id, approverId, action)],
             if orderId.Some? then db.orders[orderId.value := OrderFor(row, approverId)] else db.orders,
             if orderId.Some? then db.origin[orderId.value := id] else db.origin)
  }

  /** The tables after the calls in log, one at a time in this order, or None if one of them
      would have been refused. */
  function Replay(registry: Registry, log: seq<Op>): Option<Tables>
    decreases |log|
  {
    if log == [] then Some(NO_ROWS)
    else
      var before := Replay(registry, log[..|log| - 1]);
      var op := log[|log| - 1];
      if before.Some? && Allowed(before.value, registry, op)
      then Some(Serial(before.value, registry, op))
      else None
  }

  // ---- What serial calls keep ----

  // Purchase orders and approved order requests are in bijection, field by field.
  ghost predicate OrdersMatch(registry: Registry, db: Tables) {
    && db.origin.Keys == db.orders.Keys
    && (forall o :: o in db.origin ==>
          && db.origin[o] in db.instances
          && Fulfils(db.orders[o], db.instances[db.origin[o]]))
    && (forall o, p :: o in db.origin && p in db.origin && db.origin[o] == db.origin[p] ==> o == p)
    && (forall i :: i in db.instances && db.instances[i].kind == PURCHASE_ORDER && db.instances[i].status == Approved ==>
          exists o :: o in db.origin && db.origin[o] == i)
  }

  predicate Fulfils(order: PurchaseOrder, row: Instance) {
    && row.kind == PURCHASE_ORDER && row.status == Approved && row.payload.Order?
    && order.tenantId == row.tenantId && order.requestedBy == row.requestedBy
    && order.vendorId == row.payload.dto.vendorId
    && order.amount == row.payload.dto.amount && order.currency == row.payload.dto.currency
    && order.approvedBy != order.requestedBy
  }

  // A pending instance has no step; a decided one has exactly one, and it says how.
  ghost predicate StepsMatch(db: Tables) {
    && (forall t :: t in db.steps ==>
          && db.steps[t].instanceId in db.instances
          && db.instances[db.steps[t].instanceId].status
             == (if db.steps[t].action == Approve then Approved else Rejected))
    && (forall t, u :: t in db.steps && u in db.steps && db.steps[t].instanceId == db.steps[u].instanceId ==> t == u)
    && (forall i :: i in db.instances && db.instances[i].status != Pending ==>
          exists t :: t in db.steps && db.steps[t].instanceId == i)
    && (forall i :: i in db.instances ==> (db.instances[i].completed <==> db.instances[i].status != Pending))
  }

  // The order was approved by the approver the step names.
  ghost predicate ApproversMatch(db: Tables) {
    forall o, t :: o in db.origin && o in db.orders && t in db.steps && db.steps[t].instanceId == db.origin[o] ==>
      db.orders[o].approvedBy == db.steps[t].approverId
  }

  ghost predicate Consistent(registry: Registry, db: Tables) {
    OrdersMatch(registry, db) && StepsMatch(db) && ApproversMatch(db)
  }

  // Every approved order request after the call has its order.
  lemma SerialFulfilled(registry: Registry, db: Tables, op: Op, i: Id) returns (o: Id)
    requires ModulesKeepApart(registry) && Allowed(db, registry, op) && OrdersMatch(registry, db)
    requires (var db' := Serial(db, registry, op);
              i in db'.instances && db'.instances[i].kind == PURCHASE_ORDER && db'.instances[i].status == Approved)
    ensures (var db' := Serial(db, registry, op); o in db'.origin && db'.origin[o] == i)
  {
    if i in db.instances && db.instances[i].status == Approved {
      o :| o in db.origin && db.origin[o] == i;
    } else {
      o := op.orderId.value;
    }
    hide Fulfils;
  }

  lemma SerialOrders(registry: Registry, db: Tables, op: Op)
    requires ModulesKeepApart(registry) && Allowed(db, registry, op) && OrdersMatch(registry, db)
    ensures OrdersMatch(registry, Serial(db, registry, op))
  {
    var db' := Serial(db, registry, op);
    forall i | i in db'.instances && db'.instances[i].kind == PURCHASE_ORDER && db'.instances[i].status == Approved
      ensures exists o :: o in db'.origin && db'.origin[o] == i
    {
      var o := SerialFulfilled(registry, db, op, i);
    }
    SerialOrigins(registry, db, op);
    hide Allowed, Serial, Fulfils;
  }

  // Every order after the call fulfils its own request.
  lemma SerialOrigins(registry: Registry, db: Tables, op: Op)
    requires ModulesKeepApart(registry) && Allowed(db, registry, op) && OrdersMatch(registry, db)
    ensures (var db' := Serial(db, registry, op);
             && db'.origin.Keys == db'.orders.Keys
             && (forall o :: o in db'.origin ==>
                   db'.origin[o] in db'.instances && Fulfils(db'.orders[o], db'.instances[db'.origin[o]]))
             && (forall o, p :: o in db'.origin && p in db'.origin && db'.origin[o] == db'.origin[p] ==> o == p))
  {
    var db' := Serial(db, registry, op);
    forall o | o in db'.origin
      ensures db'.origin[o] in db'.instances && Fulfils(db'.orders[o], db'.instances[db'.origin[o]])
    {
      SerialOrigin(registry, db, op, o);
    }
    if op.Decide? && op.orderId.Some? {
      assert forall o :: o in db.origin ==> Fulfils(db.orders[o], db.instances[db.origin[o]]);
      assert forall o :: o in db.origin ==> db.origin[o] != op.id;
    }
    hide OrdersMatch, MayDecide, Fulfils;
  }

  lemma SerialOrigin(registry: Registry, db: Tables, op: Op, o: Id)
    requires ModulesKeepApart(registry) && Allowed(db, registry, op) && OrdersMatch(registry, db)
    requires o in Serial(db, registry, op).origin
    ensures (var db' := Serial(db, registry, op);
             && o in db'.orders && db'.origin[o] in db'.instances
             && Fulfils(db'.orders[o], db'.instances[db'.origin[o]]))
  {
    if o in db.origin {
      assert Fulfils(db.orders[o], db.instances[db.origin[o]]);
    }
    hide RoleAllows, OrdersMatch;
  }

  lemma SerialSteps(registry: Registry, db: Tables, op: Op)
    requires Allowed(db, registry, op) && StepsMatch(db)
    ensures StepsMatch(Serial(db, registry, op))
  {
    var db' := Serial(db, registry, op);
    forall i | i in db'.instances && db'.instances[i].status != Pending
      ensures exists t :: t in db'.steps && db'.steps[t].instanceId == i
    {
      var t := SerialStepped(registry, db, op, i);
    }
    SerialStepsSay(registry, db, op);
    hide Allowed, Serial;
  }

  // Every decided instance after the call has its step.
  lemma SerialStepped(registry: Registry, db: Tables, op: Op, i: Id) returns (t: Id)
    requires Allowed(db, registry, op) && StepsMatch(db)
    requires (var db' := Serial(db, registry, op); i in db'.instances && db'.instances[i].status != Pending)
    ensures (var db' := Serial(db, registry, op); t in db'.steps && db'.steps[t].instanceId == i)
  {
    if i in db.instances && db.instances[i].status != Pending {
      t :| t in db.steps && db.steps[t].instanceId == i;
    } else {
      t := op.stepId;
    }
    hide StepsMatch;
  }

  // Every step after the call says how its own instance was decided.
  lemma SerialStepsSay(registry: Registry, db: Tables, op: Op)
    requires Allowed(db, registry, op) && StepsMatch(db)
    ensures (var db' := Serial(db, registry, op);
             && (forall t :: t in db'.steps ==>
                   && db'.steps[t].instanceId in db'.instances
                   && db'.instances[db'.steps[t].instanceId].status
                      == (if db'.steps[t].action == Approve then Approved else Rejected))
             && (forall t, u :: t in db'.steps && u in db'.steps && db'.steps[t].instanceId == db'.steps[u].instanceId ==> t == u)
             && (forall i :: i in db'.instances ==> (db'.instances[i].completed <==> db'.instances[i].status != Pending)))
  {
    hide RoleAllows, OrderFor, Writes;
  }

  lemma SerialApprovers(registry: Registry, db: Tables, op: Op)
    requires Allowed(db, registry, op) && StepsMatch(db) && OrdersMatch(registry, db) && ApproversMatch(db)
    ensures ApproversMatch(Serial(db, registry, op))
  {
    if op.Decide? {
      assert forall t :: t in db.steps ==> db.steps[t].instanceId != op.id;
      assert forall o :: o in db.origin ==> db.origin[o] != op.id;
    }
    hide OrdersMatch, StepsMatch, Writes, RoleAllows, Fulfils;
  }

  // Whatever calls are made one after another, the tables are consistent.
  lemma {:induction false} ReplayConsistent(registry: Registry, log: seq<Op>)
    requires ModulesKeepApart(registry) && Replay(registry, log).Some?
    ensures Consistent(registry, Replay(registry, log).value)
    decreases |log|
  {
    if log != [] {
      var before, op := log[..|log| - 1], log[|log| - 1];
      ReplayConsistent(registry, before);
      var db := Replay(registry, before).value;
      SerialOrders(registry, db, op);
      SerialSteps(registry, db, op);
      SerialApprovers(registry, db, op);
    }
  }

  // The calls that decided instance id.
  function Decisions(log: seq<Op>, id: Id): nat {
    if log == [] then 0
    else Decisions(log[..|log| - 1], id)
         + (if log[|log| - 1].Decide? && log[|log| - 1].id == id then 1 else 0)
  }

  // An instance is decided at most once, and exactly once if it is not pending.
  lemma {:induction false} DecidedOnce(registry: Registry, log: seq<Op>, id: Id)
    requires Replay(registry, log).Some?
    ensures (var db := Replay(registry, log).value;
             Decisions(log, id) == if id in db.instances && db.instances[id].status != Pending then 1 else 0)
    decreases |log|
  {
    if log != [] {
      DecidedOnce(registry, log[..|log| - 1], id);
    }
  }

  // Every decision was made by someone whose role, as read, belonged to the instance's tenant
  // and held the registered permission, and no approval by the requester.
  lemma {:induction false} DecisionsAuthorised(registry: Registry, log: seq<Op>, k: nat)
    requires Replay(registry, log).Some? && k < |log| && log[k].Decide?
    ensures (var before := Replay(registry, log[..k]);
             && before.Some? && log[k].id in before.value.instances
             && MayDecide(registry, before.value.instances[log[k].id], log[k].action, log[k].approverId, log[k].role))
    decreases |log|
  {
    var n := |log| - 1;
    if k < n {
      DecisionsAuthorised(registry, log[..n], k);
      assert log[..n][..k] == log[..k];
    }
  }
}
