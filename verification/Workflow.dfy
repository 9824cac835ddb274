/** WorkflowService as designed: approve and reject run as transactions that lock the instance
    row, in any number at once, interleaved at every await with each other, with creates and
    with changes of users and roles. */
module Workflow {
  import opened Collections
  import opened WorkflowLedger

  type TxId = nat

  /** Where a transaction stands after each await. row is the instance as the locking read
      returned it, role the approver's role as assertPermission read it. */
  datatype Stage =
    | Waiting
    | Locked(row: Instance)
    | Authorising(row: Instance)
    | Fetching(row: Instance, roleId: Id)
    | Permitted(row: Instance, role: Role)
    | Handled(row: Instance, role: Role, orderId: Option<Id>)
    | Stepped(row: Instance, role: Role, orderId: Option<Id>, stepId: Id)
    | Saved(row: Instance, role: Role, orderId: Option<Id>, stepId: Id)

  // writes is what the transaction wrote and has not committed.
  datatype Tx = Tx(action: Action, instanceId: Id, approverId: Id, stage: Stage, writes: Tables)

  datatype Ending = Committed(row: Instance) | NotFound | Forbidden | Conflict | Unregistered | Failed

  // pool is the number of database clients: a transaction keeps one to its end, and everything
  // outside a transaction needs a free one while it lasts.
  datatype State = State(
    pool: nat,
    db: Tables,
    registry: Registry,
    users: map<Id, Option<Id>>,
    roles: map<Id, Role>,
    txs: map<TxId, Tx>,
    locks: map<Id, TxId>,
    issued: set<Id>,
    ended: map<TxId, Ending>,
    log: seq<Op>)

  function Initial(registry: Registry, pool: nat): State {
    State(pool, NO_ROWS, registry, map[], map[], map[], map[], {}, map[], [])
  }

  datatype TxStep =
    | Lock
    | FindNothing
    | CheckRow
    | FindUser
    | FindRole
    | RunHandler(orderId: Id)
    | HandlerThrows
    | InsertStep(stepId: Id)
    | UpdateInstance
    | Commit
    | Abort

  datatype Step =
    | CreateInstance(id: Id, kind: string, payload: Payload, tenantId: Id, requestedBy: Id)
    | Begin(tx: TxId, action: Action, instanceId: Id, approverId: Id)
    | OfTx(tx: TxId, txStep: TxStep)
    | AssignRole(userId: Id, roleId: Option<Id>)
    | PutRole(newRoleId: Id, role: Role)

  predicate ClientFree(s: State) {
    |s.txs| < s.pool
  }

  // The handler would write an order, but the payload is not one.
  predicate HandlerFails(registry: Registry, row: Instance) {
    Writes(registry, row, Approve) && !row.payload.Order?
  }

  /** The writes go through the transaction's own client. The lookups of user and role do not:
      they are calls of other services, on repositories of the same pool. */
  predicate TxEnabled(s: State, t: TxId, step: TxStep) {
    && t in s.txs
    && (var tx := s.txs[t];
        match step
        case Lock => tx.stage.Waiting? && tx.instanceId in s.db.instances && tx.instanceId !in s.locks
        case FindNothing => tx.stage.Waiting? && tx.instanceId !in s.db.instances
        case CheckRow => tx.stage.Locked?
        case FindUser => tx.stage.Authorising? && ClientFree(s)
        case FindRole => tx.stage.Fetching? && ClientFree(s)
        case RunHandler(orderId) =>
          && tx.stage.Permitted? && tx.action == Approve
          && (Writes(s.registry, tx.stage.row, tx.action) ==> tx.stage.row.payload.Order? && orderId !in s.issued)
        case HandlerThrows => tx.stage.Permitted? && tx.action == Approve && HandlerFails(s.registry, tx.stage.row)
        case InsertStep(stepId) =>
          (if tx.action == Approve then tx.stage.Handled? else tx.stage.Permitted?) && stepId !in s.issued
        case UpdateInstance => tx.stage.Stepped?
        case Commit => tx.stage.Saved?
        case Abort => true)
  }

  predicate Enabled(s: State, step: Step) {
    match step
    case CreateInstance(id, kind, _, _, _) => id !in s.db.instances && kind in s.registry && ClientFree(s)
    case Begin(t, _, _, _) => t !in s.txs && t !in s.ended && ClientFree(s)
    case OfTx(t, k) => TxEnabled(s, t, k)
    case AssignRole(_, _) => true
    case PutRole(_, _) => true
  }

  /** What a transaction does next: it goes on to a stage with these writes, or it ends. */
  datatype Verdict = Goes(stage: Stage, writes: Tables) | Ends(ending: Ending)

  // The checks between the locking read and the permission lookup, in the order of the code.
  function Checked(registry: Registry, tx: Tx, row: Instance): Verdict {
    if tx.action == Approve && tx.approverId == row.requestedBy then Ends(Forbidden)
    else if row.status != Pending then Ends(Conflict)
    else if row.kind !in registry then Ends(Unregistered)
    else Goes(Authorising(row), tx.writes)
  }

  function UserFound(users: map<Id, Option<Id>>, tx: Tx, row: Instance): Verdict {
    if tx.approverId in users && users[tx.approverId].Some?
    then Goes(Fetching(row, users[tx.approverId].value), tx.writes)
    else Ends(Forbidden)
  }

  function RoleFound(registry: Registry, roles: map<Id, Role>, tx: Tx, row: Instance, roleId: Id): Verdict {
    if roleId !in roles || roles[roleId].tenantId != row.tenantId then Ends(Forbidden)
    else if row.kind in registry && registry[row.kind].permission in roles[roleId].permissions
    then Goes(Permitted(row, roles[roleId]), tx.writes)
    else Ends(Forbidden)
  }

  function HandlerRun(registry: Registry, tx: Tx, orderId: Id): Verdict
    requires tx.stage.Permitted?
    requires Writes(registry, tx.stage.row, tx.action) ==> tx.stage.row.payload.Order?
  {
    var row, role := tx.stage.row, tx.stage.role;
    if Writes(registry, row, tx.action) then
      Goes(Handled(row, role, Some(orderId)),
           tx.writes.(orders := tx.writes.orders[orderId := OrderFor(row, tx.approverId)],
                      origin := tx.writes.origin[orderId := tx.instanceId]))
    else Goes(Handled(row, role, None), tx.writes)
  }

  function StepInserted(tx: Tx, stepId: Id): Verdict
    requires tx.stage.Permitted? || tx.stage.Handled?
  {
    Goes(Stepped(tx.stage.row, tx.stage.role, if tx.stage.Handled? then tx.stage.orderId else None, stepId),
         tx.writes.(steps := tx.writes.steps[stepId := ApprovalStep(tx.instanceId, tx.approverId, tx.action)]))
  }

  function InstanceUpdated(tx: Tx): Verdict
    requires tx.stage.Stepped?
  {
    Goes(Saved(tx.stage.row, tx.stage.role, tx.stage.orderId, tx.stage.stepId),
         tx.writes.(instances := tx.writes.instances[tx.instanceId := Decided(tx.stage.row, tx.action)]))
  }

  function Next(s: State, t: TxId, step: TxStep): Verdict
    requires TxEnabled(s, t, step)
  {
    var tx := s.txs[t];
    match step
    case Lock => Goes(Locked(s.db.instances[tx.instanceId]), tx.writes)
    case FindNothing => Ends(NotFound)
    case CheckRow => Checked(s.registry, tx, tx.stage.row)
    case FindUser => UserFound(s.users, tx, tx.stage.row)
    case FindRole => RoleFound(s.registry, s.roles, tx, tx.stage.row, tx.stage.roleId)
    case RunHandler(orderId) => HandlerRun(s.registry, tx, orderId)
    case InsertStep(stepId) => StepInserted(tx, stepId)
    case UpdateInstance => InstanceUpdated(tx)
    case Commit => Ends(Committed(Decided(tx.stage.row, tx.action)))
    case HandlerThrows => Ends(Failed)
    case Abort => Ends(Failed)
  }

  function Merged(db: Tables, writes: Tables): Tables {
    Tables(db.instances + writes.instances, db.steps + writes.steps,
           db.orders + writes.orders, db.origin + writes.origin)
  }

  function OpOf(tx: Tx): Op
    requires tx.stage.Saved?
  {
    Decide(tx.action, tx.instanceId, tx.approverId, tx.stage.role, tx.stage.stepId, tx.stage.orderId)
  }

  function Ids(step: TxStep): set<Id> {
    match step
    case RunHandler(orderId) => {orderId}
    case InsertStep(stepId) => {stepId}
    case _ => {}
  }

  // The locks a transaction holds go when it ends.
  function Unlocked(locks: map<Id, TxId>, t: TxId): map<Id, TxId> {
    map i | i in locks && locks[i] != t :: locks[i]
  }

  function ApplyTx(s: State, t: TxId, step: TxStep): State
    requires TxEnabled(s, t, step)
  {
    var tx := s.txs[t];
    match Next(s, t, step)
    case Goes(stage, writes) =>
      s.(txs := s.txs[t := tx.(stage := stage, writes := writes)],
         locks := if step.Lock? then s.locks[tx.instanceId := t] else s.locks,
         issued := s.issued + Ids(step))
    case Ends(ending) =>
      s.(txs := s.txs - {t},
         locks := Unlocked(s.locks, t),
         ended := s.ended[t := ending],
         db := if step.Commit? then Merged(s.db, tx.writes) else s.db,
         log := if step.Commit? then s.log + [OpOf(tx)] else s.log)
  }

  function Apply(s: State, step: Step): State
    requires Enabled(s, step)
  {
    match step
    case CreateInstance(id, kind, payload, tenantId, requestedBy) =>
      s.(db := s.db.(instances := s.db.instances[id := Requested(kind, payload, tenantId, requestedBy)]),
         log := s.log + [Create(id, kind, payload, tenantId, requestedBy)])
    case Begin(t, action, id, approverId) =>
      s.(txs := s.txs[t := Tx(action, id, approverId, Waiting, NO_ROWS)])
    case OfTx(t, k) => ApplyTx(s, t, k)
    case AssignRole(userId, roleId) => s.(users := s.users[userId := roleId])
    case PutRole(roleId, role) => s.(roles := s.roles[roleId := role])
  }

  ghost predicate Run(s: State, steps: seq<Step>, t: State)
    decreases |steps|
  {
    if steps == [] then s == t
    else Enabled(s, steps[0]) && Run(Apply(s, steps[0]), steps[1..], t)
  }

  ghost predicate Reachable(registry: Registry, s: State) {
    exists steps :: Run(Initial(registry, s.pool), steps, s)
  }

  // ---- The invariant ----

  // A row lock belongs to one transaction on that row that is past its locking read.
  ghost predicate LocksHeld(locks: map<Id, TxId>, txs: map<TxId, Tx>) {
    && (forall i :: i in locks ==>
          locks[i] in txs && txs[locks[i]].instanceId == i && !txs[locks[i]].stage.Waiting?)
    && (forall t :: t in txs && !txs[t].stage.Waiting? ==>
          txs[t].instanceId in locks && locks[txs[t].instanceId] == t)
  }

  // While it is locked, the committed row is the row the transaction read.
  ghost predicate RowsCurrent(instances: map<Id, Instance>, txs: map<TxId, Tx>) {
    forall t :: t in txs && !txs[t].stage.Waiting? ==>
      txs[t].instanceId in instances && instances[txs[t].instanceId] == txs[t].stage.row
  }

  // What the transaction has checked and written so far.
  predicate TxFits(registry: Registry, tx: Tx) {
    match tx.stage
    case Waiting => tx.writes == NO_ROWS
    case Locked(_) => tx.writes == NO_ROWS
    case Authorising(row) => tx.writes == NO_ROWS && MayBegin(registry, tx, row)
    case Fetching(row, _) => tx.writes == NO_ROWS && MayBegin(registry, tx, row)
    case Permitted(row, role) =>
      tx.writes == NO_ROWS && MayDecide(registry, row, tx.action, tx.approverId, role)
    case Handled(row, role, orderId) =>
      && tx.action == Approve && MayDecide(registry, row, tx.action, tx.approverId, role)
      && OrderFits(registry, tx, row, orderId)
      && tx.writes.steps == map[] && tx.writes.instances == map[]
    case Stepped(row, role, orderId, stepId) =>
      && MayDecide(registry, row, tx.action, tx.approverId, role)
      && OrderFits(registry, tx, row, orderId)
      && tx.writes.steps == map[stepId := ApprovalStep(tx.instanceId, tx.approverId, tx.action)]
      && tx.writes.instances == map[]
    case Saved(row, role, orderId, stepId) =>
      && MayDecide(registry, row, tx.action, tx.approverId, role)
      && OrderFits(registry, tx, row, orderId)
      && tx.writes.steps == map[stepId := ApprovalStep(tx.instanceId, tx.approverId, tx.action)]
      && tx.writes.instances == map[tx.instanceId := Decided(row, tx.action)]
  }

  predicate MayBegin(registry: Registry, tx: Tx, row: Instance) {
    && row.status == Pending && row.kind in registry
    && (tx.action == Approve ==> tx.approverId != row.requestedBy)
  }

  predicate OrderFits(registry: Registry, tx: Tx, row: Instance, orderId: Option<Id>) {
    && (orderId.Some? <==> Writes(registry, row, tx.action))
    && (orderId.Some? ==> row.payload.Order?)
    && tx.writes.orders == (if orderId.Some? && row.payload.Order?
                            then map[orderId.value := OrderFor(row, tx.approverId)] else map[])
    && tx.writes.origin == (if orderId.Some? then map[orderId.value := tx.instanceId] else map[])
  }

  ghost predicate TxsFit(registry: Registry, txs: map<TxId, Tx>) {
    forall t :: t in txs ==> TxFits(registry, txs[t])
  }

  // Ids of steps and orders are issued once, so staged and committed rows never collide.
  ghost predicate IdsApart(db: Tables, issued: set<Id>, txs: map<TxId, Tx>) {
    && db.steps.Keys <= issued && db.orders.Keys <= issued
    && (forall t :: t in txs ==> txs[t].writes.steps.Keys <= issued && txs[t].writes.orders.Keys <= issued)
    && (forall t :: t in txs ==> txs[t].writes.steps.Keys !! db.steps.Keys && txs[t].writes.orders.Keys !! db.orders.Keys)
    && (forall t, u :: t in txs && u in txs && t != u ==>
          txs[t].writes.steps.Keys !! txs[u].writes.steps.Keys
          && txs[t].writes.orders.Keys !! txs[u].writes.orders.Keys)
  }

  ghost predicate Inv(s: State) {
    && LocksHeld(s.locks, s.txs)
    && RowsCurrent(s.db.instances, s.txs)
    && TxsFit(s.registry, s.txs)
    && IdsApart(s.db, s.issued, s.txs)
    && Replay(s.registry, s.log) == Some(s.db)
    && |s.txs| <= s.pool
  }

  lemma InitialInv(registry: Registry, pool: nat)
    ensures Inv(Initial(registry, pool))
  {
  }

  lemma ReplayOneMore(registry: Registry, log: seq<Op>, db: Tables, op: Op)
    requires Replay(registry, log) == Some(db) && Allowed(db, registry, op)
    ensures Replay(registry, log + [op]) == Some(Serial(db, registry, op))
  {
    assert (log + [op])[..|log|] == log;
  }

  // Adding what a saved transaction wrote is what the serial call does.
  lemma WritesAreSerial(registry: Registry, db: Tables, tx: Tx)
    requires tx.stage.Saved? && TxFits(registry, tx) && Allowed(db, registry, OpOf(tx))
    requires db.instances[tx.instanceId] == tx.stage.row
    ensures Merged(db, tx.writes) == Serial(db, registry, OpOf(tx))
  {
    hide MayDecide, Writes, Decided, OrderFor;
    var merged, serial := Merged(db, tx.writes), Serial(db, registry, OpOf(tx));
    assert merged.instances == serial.instances;
    assert merged.steps == serial.steps;
    assert merged.orders == serial.orders;
    assert merged.origin == serial.origin;
  }

  // A commit is the serial call on the tables as they are at the commit.
  lemma CommitIsSerial(s: State, t: TxId)
    requires Inv(s) && TxEnabled(s, t, Commit)
    ensures Allowed(s.db, s.registry, OpOf(s.txs[t]))
    ensures Merged(s.db, s.txs[t].writes) == Serial(s.db, s.registry, OpOf(s.txs[t]))
  {
    var tx := s.txs[t];
    hide Replay, LocksHeld, MayDecide, Writes, Serial, Merged;
    assert TxFits(s.registry, tx);
    assert s.db.instances[tx.instanceId] == tx.stage.row;
    assert tx.stage.stepId in tx.writes.steps.Keys;
    assert tx.stage.orderId.Some? ==> tx.stage.orderId.value in tx.writes.orders.Keys;
    WritesAreSerial(s.registry, s.db, tx);
  }

  // A transaction goes on with the row it locked.
  lemma GoesPastLock(s: State, t: TxId, step: TxStep)
    requires TxEnabled(s, t, step) && Next(s, t, step).Goes?
    ensures (var tx, stage := s.txs[t], Next(s, t, step).stage;
             && !stage.Waiting? && (step.Lock? <==> tx.stage.Waiting?)
             && (step.Lock? ==> tx.instanceId !in s.locks && tx.instanceId in s.db.instances)
             && stage.row == if step.Lock? then s.db.instances[tx.instanceId] else tx.stage.row)
  {
  }

  lemma LocksGoOn(locks: map<Id, TxId>, txs: map<TxId, Tx>, t: TxId, tx: Tx)
    requires LocksHeld(locks, txs) && t in txs && tx.instanceId == txs[t].instanceId && !tx.stage.Waiting?
    requires txs[t].stage.Waiting? ==> tx.instanceId !in locks
    ensures LocksHeld(if txs[t].stage.Waiting? then locks[tx.instanceId := t] else locks, txs[t := tx])
  {
  }

  lemma LocksEnd(locks: map<Id, TxId>, txs: map<TxId, Tx>, t: TxId)
    requires LocksHeld(locks, txs)
    ensures LocksHeld(Unlocked(locks, t), txs - {t})
  {
  }

  lemma LocksStep(s: State, t: TxId, step: TxStep)
    requires LocksHeld(s.locks, s.txs) && TxEnabled(s, t, step)
    ensures LocksHeld(ApplyTx(s, t, step).locks, ApplyTx(s, t, step).txs)
  {
    if Next(s, t, step).Goes? {
      GoesPastLock(s, t, step);
      LocksGoOn(s.locks, s.txs, t, ApplyTx(s, t, step).txs[t]);
    } else {
      LocksEnd(s.locks, s.txs, t);
    }
    hide Next, Merged, LocksHeld, TxEnabled;
  }

  lemma GoesFitting(s: State, t: TxId, step: TxStep)
    requires TxEnabled(s, t, step) && TxFits(s.registry, s.txs[t]) && Next(s, t, step).Goes?
    ensures (var next := Next(s, t, step); TxFits(s.registry, s.txs[t].(stage := next.stage, writes := next.writes)))
  {
    hide OrderFor, Decided;
  }

  lemma TxsFitStep(s: State, t: TxId, step: TxStep)
    requires TxsFit(s.registry, s.txs) && TxEnabled(s, t, step)
    ensures TxsFit(s.registry, ApplyTx(s, t, step).txs)
  {
    if Next(s, t, step).Goes? {
      GoesFitting(s, t, step);
    }
    hide Next, TxFits, Merged, TxEnabled;
  }

  lemma RowsStep(s: State, t: TxId, step: TxStep)
    requires RowsCurrent(s.db.instances, s.txs) && LocksHeld(s.locks, s.txs) && TxsFit(s.registry, s.txs)
    requires TxEnabled(s, t, step)
    ensures RowsCurrent(ApplyTx(s, t, step).db.instances, ApplyTx(s, t, step).txs)
  {
    hide TxsFit;
    if Next(s, t, step).Goes? {
      GoesPastLock(s, t, step);
    } else if step.Commit? {
      WrittenRow(s, t);
      RowsEnd(s.db.instances, s.locks, s.txs, t, s.txs[t].writes.instances);
    }
    hide Next, LocksHeld, Unlocked;
  }

  lemma WrittenRow(s: State, t: TxId)
    requires TxsFit(s.registry, s.txs) && TxEnabled(s, t, Commit)
    ensures s.txs[t].writes.instances.Keys == {s.txs[t].instanceId}
  {
    assert TxFits(s.registry, s.txs[t]);
  }

  // Only the row of the transaction itself changes, and nobody else holds that one.
  lemma RowsEnd(instances: map<Id, Instance>, locks: map<Id, TxId>, txs: map<TxId, Tx>, t: TxId, writes: map<Id, Instance>)
    requires RowsCurrent(instances, txs) && LocksHeld(locks, txs)
    requires t in txs && !txs[t].stage.Waiting? && writes.Keys == {txs[t].instanceId}
    ensures RowsCurrent(instances + writes, txs - {t})
  {
  }

  lemma VerdictIds(s: State, t: TxId, step: TxStep)
    requires TxEnabled(s, t, step) && Next(s, t, step).Goes?
    ensures (var before, after := s.txs[t].writes, Next(s, t, step).writes;
             && after.steps.Keys <= before.steps.Keys + (Ids(step) - s.issued)
             && after.orders.Keys <= before.orders.Keys + (Ids(step) - s.issued))
  {
  }

  // A transaction writes under ids that were never issued.
  lemma IdsGoOn(db: Tables, issued: set<Id>, txs: map<TxId, Tx>, t: TxId, tx: Tx, ids: set<Id>)
    requires IdsApart(db, issued, txs) && t in txs
    requires tx.writes.steps.Keys <= txs[t].writes.steps.Keys + (ids - issued)
    requires tx.writes.orders.Keys <= txs[t].writes.orders.Keys + (ids - issued)
    ensures IdsApart(db, issued + ids, txs[t := tx])
  {
  }

  lemma IdsEnd(db: Tables, issued: set<Id>, txs: map<TxId, Tx>, t: TxId)
    requires IdsApart(db, issued, txs) && t in txs
    ensures IdsApart(db, issued, txs - {t}) && IdsApart(Merged(db, txs[t].writes), issued, txs - {t})
  {
  }

  lemma IdsStep(s: State, t: TxId, step: TxStep)
    requires IdsApart(s.db, s.issued, s.txs) && TxEnabled(s, t, step)
    ensures (var s' := ApplyTx(s, t, step); IdsApart(s'.db, s'.issued, s'.txs))
  {
    var s' := ApplyTx(s, t, step);
    if Next(s, t, step).Goes? {
      VerdictIds(s, t, step);
      IdsGoOn(s.db, s.issued, s.txs, t, s'.txs[t], Ids(step));
    } else {
      IdsEnd(s.db, s.issued, s.txs, t);
    }
    hide IdsApart, Merged;
  }

  lemma FitsAt(s: State, t: TxId)
    requires Inv(s) && t in s.txs
    ensures TxFits(s.registry, s.txs[t])
  {
    hide LocksHeld, RowsCurrent, IdsApart, Replay, TxFits;
  }

  lemma TxCount(txs: map<TxId, Tx>, t: TxId, tx: Tx)
    ensures t in txs ==> |txs[t := tx]| == |txs| && |txs - {t}| == |txs| - 1
    ensures t !in txs ==> |txs[t := tx]| == |txs| + 1
  {
    assert txs[t := tx].Keys == txs.Keys + {t};
    assert (txs - {t}).Keys == txs.Keys - {t};
  }

  lemma TxInv(s: State, t: TxId, step: TxStep)
    requires Inv(s) && TxEnabled(s, t, step)
    ensures Inv(ApplyTx(s, t, step))
  {
    hide Replay, LocksHeld, RowsCurrent, TxsFit, IdsApart, Merged, Serial, Next, Unlocked, Ids, OpOf, Allowed;
    TxCount(s.txs, t, if Next(s, t, step).Goes? then ApplyTx(s, t, step).txs[t] else s.txs[t]);
    LocksStep(s, t, step);
    TxsFitStep(s, t, step);
    RowsStep(s, t, step);
    IdsStep(s, t, step);
    if step.Commit? {
      CommitIsSerial(s, t);
      ReplayOneMore(s.registry, s.log, s.db, OpOf(s.txs[t]));
      CommitEnds(s, t);
    }
    hide TxEnabled;
  }

  lemma CommitEnds(s: State, t: TxId)
    requires TxEnabled(s, t, Commit)
    ensures Next(s, t, Commit).Ends?
  {
  }

  lemma CreateInv(s: State, step: Step)
    requires Inv(s) && Enabled(s, step) && step.CreateInstance?
    ensures Inv(Apply(s, step))
  {
    ReplayOneMore(s.registry, s.log, s.db, Create(step.id, step.kind, step.payload, step.tenantId, step.requestedBy));
    hide Replay, LocksHeld, TxsFit;
  }

  // A transaction that has only begun holds nothing and wrote nothing.
  lemma BeginFits(s: State, t: TxId, tx: Tx)
    requires LocksHeld(s.locks, s.txs) && RowsCurrent(s.db.instances, s.txs) && TxsFit(s.registry, s.txs)
    requires t !in s.txs && tx.stage.Waiting? && tx.writes == NO_ROWS
    ensures LocksHeld(s.locks, s.txs[t := tx])
    ensures RowsCurrent(s.db.instances, s.txs[t := tx])
    ensures TxsFit(s.registry, s.txs[t := tx])
  {
  }

  lemma BeginIds(s: State, t: TxId, tx: Tx)
    requires IdsApart(s.db, s.issued, s.txs) && t !in s.txs && tx.writes == NO_ROWS
    ensures IdsApart(s.db, s.issued, s.txs[t := tx])
  {
    assert tx.writes.steps.Keys == {} && tx.writes.orders.Keys == {};
  }

  lemma BeginInv(s: State, step: Step)
    requires Inv(s) && Enabled(s, step) && step.Begin?
    ensures Inv(Apply(s, step))
  {
    var tx := Tx(step.action, step.instanceId, step.approverId, Waiting, NO_ROWS);
    TxCount(s.txs, step.tx, tx);
    BeginFits(s, step.tx, tx);
    BeginIds(s, step.tx, tx);
    hide LocksHeld, RowsCurrent, TxsFit, IdsApart, Replay;
  }

  lemma InvStep(s: State, step: Step)
    requires Inv(s) && Enabled(s, step)
    ensures Inv(Apply(s, step))
  {
    match step
    case CreateInstance(_, _, _, _, _) => CreateInv(s, step);
    case Begin(_, _, _, _) => BeginInv(s, step);
    case OfTx(t, k) => TxInv(s, t, k);
    case AssignRole(_, _) =>
    case PutRole(_, _) =>
    hide LocksHeld, RowsCurrent, TxsFit, IdsApart, Replay, ApplyTx;
  }

  lemma RegistryKept(s: State, step: Step)
    requires Enabled(s, step)
    ensures Apply(s, step).registry == s.registry && Apply(s, step).pool == s.pool
  {
    hide Next;
  }

  lemma {:induction false} InvRun(s: State, steps: seq<Step>, t: State)
    requires Inv(s) && Run(s, steps, t)
    ensures Inv(t) && t.registry == s.registry && t.pool == s.pool
    decreases |steps|
  {
    hide Inv, Enabled, Apply;
    if steps != [] {
      InvStep(s, steps[0]);
      RegistryKept(s, steps[0]);
      InvRun(Apply(s, steps[0]), steps[1..], t);
    }
  }

  // ---- Main results ----

  // Serialisability: after any concurrent run the committed tables are those of the committed
  // calls made one at a time, in commit order, each of them allowed at its turn.
  lemma Serialisable(registry: Registry, s: State)
    requires Reachable(registry, s)
    ensures Replay(registry, s.log) == Some(s.db)
  {
    var steps :| Run(Initial(registry, s.pool), steps, s);
    InitialInv(registry, s.pool);
    InvRun(Initial(registry, s.pool), steps, s);
  }

  // Atomicity: in every reachable state the committed orders are in bijection with the approved
  // order requests, and each decided instance has exactly the one step that decided it.
  lemma CommittedTablesConsistent(registry: Registry, s: State)
    requires Reachable(registry, s) && ModulesKeepApart(registry)
    ensures OrdersMatch(registry, s.db) && StepsMatch(s.db) && ApproversMatch(s.db)
  {
    Serialisable(registry, s);
    ReplayConsistent(registry, s.log);
  }

  // However many calls race for one instance, at most one of them commits.
  lemma OneDecisionWins(registry: Registry, s: State, id: Id)
    requires Reachable(registry, s)
    ensures Decisions(s.log, id) <= 1
    ensures Decisions(s.log, id) == 1 <==> id in s.db.instances && s.db.instances[id].status != Pending
  {
    Serialisable(registry, s);
    DecidedOnce(registry, s.log, id);
  }

  // Every committed decision was allowed to its approver by the role read for it.
  lemma DecisionsWereAllowed(registry: Registry, s: State, k: nat)
    requires Reachable(registry, s) && k < |s.log| && s.log[k].Decide?
    ensures (var before := Replay(registry, s.log[..k]);
             && before.Some? && s.log[k].id in before.value.instances
             && MayDecide(registry, before.value.instances[s.log[k].id], s.log[k].action,
                          s.log[k].approverId, s.log[k].role))
  {
    Serialisable(registry, s);
    DecisionsAuthorised(registry, s.log, k);
  }

  // A decided instance never changes again.
  lemma DecidedStays(s: State, step: Step, id: Id)
    requires Inv(s) && Enabled(s, step)
    requires id in s.db.instances && s.db.instances[id].status != Pending
    ensures id in Apply(s, step).db.instances && Apply(s, step).db.instances[id] == s.db.instances[id]
  {
    hide Inv;
    if step.OfTx? && step.txStep.Commit? {
      CommitIsSerial(s, step.tx);
      SerialKeepsDecided(s.registry, s.db, OpOf(s.txs[step.tx]), id);
    }
    hide Merged, Next, Serial, Allowed, OpOf;
  }

  lemma SerialKeepsDecided(registry: Registry, db: Tables, op: Op, id: Id)
    requires Allowed(db, registry, op) && id in db.instances && db.instances[id].status != Pending
    ensures id in Serial(db, registry, op).instances && Serial(db, registry, op).instances[id] == db.instances[id]
  {
  }

  lemma {:induction false} TerminalIsAbsorbing(s: State, steps: seq<Step>, t: State, id: Id)
    requires Inv(s) && Run(s, steps, t)
    requires id in s.db.instances && s.db.instances[id].status != Pending
    ensures id in t.db.instances && t.db.instances[id] == s.db.instances[id]
    decreases |steps|
  {
    hide Inv, Enabled, Apply;
    if steps != [] {
      DecidedStays(s, steps[0], id);
      InvStep(s, steps[0]);
      TerminalIsAbsorbing(Apply(s, steps[0]), steps[1..], t, id);
    }
  }

  // ---- A transaction that does not commit leaves no trace ----

  predicate StepOfTx(step: Step, t: TxId) {
    (step.Begin? && step.tx == t) || (step.OfTx? && step.tx == t)
  }

  // The run without everything transaction t did.
  function Without(steps: seq<Step>, t: TxId): seq<Step> {
    if steps == [] then []
    else (if StepOfTx(steps[0], t) then [] else [steps[0]]) + Without(steps[1..], t)
  }

  // s' is s as if t had never been.
  ghost predicate Erased(s: State, s': State, t: TxId) {
    && s'.pool == s.pool && s'.db == s.db && s'.log == s.log && s'.registry == s.registry && s'.users == s.users && s'.roles == s.roles
    && s'.txs == s.txs - {t} && s'.locks == Unlocked(s.locks, t) && s'.issued <= s.issued && s'.ended == s.ended - {t}
  }

  lemma UnlockedLocks(locks: map<Id, TxId>, i: Id, t: TxId, u: TxId)
    requires i !in locks
    ensures Unlocked(locks[i := t], t) == Unlocked(locks, t)
    ensures u != t ==> Unlocked(locks[i := u], t) == Unlocked(locks, t)[i := u] && i !in Unlocked(locks, t)
  {
  }

  lemma UnlockedTwice(locks: map<Id, TxId>, t: TxId, u: TxId)
    ensures Unlocked(Unlocked(locks, t), t) == Unlocked(locks, t)
    ensures Unlocked(Unlocked(locks, u), t) == Unlocked(Unlocked(locks, t), u)
  {
  }

  lemma RemovedKey<T>(m: map<nat, T>, t: nat, u: nat, x: T)
    ensures m[t := x] - {t} == m - {t} && (m - {t}) - {t} == m - {t}
    ensures u != t ==> m[u := x] - {t} == (m - {t})[u := x]
    ensures (m - {u}) - {t} == (m - {t}) - {u}
  {
  }

  lemma ErasedOwn(s: State, s': State, t: TxId, step: Step)
    requires Erased(s, s', t) && Enabled(s, step) && StepOfTx(step, t) && step != OfTx(t, Commit)
    ensures Erased(Apply(s, step), s', t)
  {
    var after := Apply(s, step);
    if step.Begin? {
      RemovedKey(s.txs, t, t, after.txs[t]);
    } else {
      ErasedOwnTx(s, s', t, step.txStep);
    }
    hide ApplyTx, TxEnabled, Unlocked;
  }

  lemma ErasedOwnTx(s: State, s': State, t: TxId, step: TxStep)
    requires Erased(s, s', t) && TxEnabled(s, t, step) && !step.Commit?
    ensures Erased(ApplyTx(s, t, step), s', t)
  {
    hide Erased, ApplyTx, TxEnabled;
    if Next(s, t, step).Goes? {
      ErasedOwnGoes(s, s', t, step);
    } else {
      ErasedOwnEnds(s, s', t, step);
    }
  }

  lemma ErasedOwnGoes(s: State, s': State, t: TxId, step: TxStep)
    requires Erased(s, s', t) && TxEnabled(s, t, step) && Next(s, t, step).Goes?
    ensures Erased(ApplyTx(s, t, step), s', t)
  {
    hide Next, Unlocked, ClientFree, Ids;
    RemovedKey(s.txs, t, t, ApplyTx(s, t, step).txs[t]);
    if step.Lock? {
      UnlockedLocks(s.locks, s.txs[t].instanceId, t, t);
    }
    hide TxEnabled;
  }

  lemma ErasedOwnEnds(s: State, s': State, t: TxId, step: TxStep)
    requires Erased(s, s', t) && TxEnabled(s, t, step) && Next(s, t, step).Ends? && !step.Commit?
    ensures Erased(ApplyTx(s, t, step), s', t)
  {
    RemovedKey(s.txs, t, t, s.txs[t]);
    RemovedKey(s.ended, t, t, Next(s, t, step).ending);
    UnlockedTwice(s.locks, t, t);
    hide Next, Merged, Unlocked, TxEnabled, OpOf;
  }

  lemma FewerTxs(txs: map<TxId, Tx>, t: TxId)
    ensures |txs - {t}| <= |txs|
  {
    assert (txs - {t}).Keys == txs.Keys - {t};
  }

  lemma NextSame(s: State, s': State, t: TxId, u: TxId, step: TxStep)
    requires Erased(s, s', t) && u != t && TxEnabled(s, u, step)
    ensures TxEnabled(s', u, step) && Next(s', u, step) == Next(s, u, step) && s'.txs[u] == s.txs[u]
  {
    FewerTxs(s.txs, t);
  }

  lemma ErasedGoes(s: State, s': State, t: TxId, u: TxId, step: TxStep)
    requires Erased(s, s', t) && u != t && TxEnabled(s, u, step) && Next(s, u, step).Goes?
    ensures TxEnabled(s', u, step) && Erased(ApplyTx(s, u, step), ApplyTx(s', u, step), t)
  {
    NextSame(s, s', t, u, step);
    hide Next, Unlocked, ClientFree;
    RemovedKey(s.txs, t, u, ApplyTx(s, u, step).txs[u]);
    if step.Lock? {
      UnlockedLocks(s.locks, s.txs[u].instanceId, t, u);
    }
    hide TxEnabled, Ids;
  }

  lemma ErasedEnds(s: State, s': State, t: TxId, u: TxId, step: TxStep)
    requires Erased(s, s', t) && u != t && TxEnabled(s, u, step) && Next(s, u, step).Ends?
    ensures TxEnabled(s', u, step) && Erased(ApplyTx(s, u, step), ApplyTx(s', u, step), t)
  {
    NextSame(s, s', t, u, step);
    RemovedKey(s.txs, t, u, s.txs[u]);
    RemovedKey(s.ended, t, u, Next(s, u, step).ending);
    UnlockedTwice(s.locks, t, u);
    hide Next, Merged, Unlocked, TxEnabled, OpOf;
  }

  lemma ErasedBegin(s: State, s': State, t: TxId, step: Step)
    requires Erased(s, s', t) && Enabled(s, step) && step.Begin? && step.tx != t
    ensures Enabled(s', step) && Erased(Apply(s, step), Apply(s', step), t)
  {
    FewerTxs(s.txs, t);
    RemovedKey(s.txs, t, step.tx, Tx(step.action, step.instanceId, step.approverId, Waiting, NO_ROWS));
    hide Unlocked;
  }

  lemma ErasedCreate(s: State, s': State, t: TxId, step: Step)
    requires Erased(s, s', t) && Enabled(s, step) && (step.CreateInstance? || step.AssignRole? || step.PutRole?)
    ensures Enabled(s', step) && Erased(Apply(s, step), Apply(s', step), t)
  {
    FewerTxs(s.txs, t);
    hide Unlocked;
  }

  lemma ErasedOther(s: State, s': State, t: TxId, step: Step)
    requires Erased(s, s', t) && Enabled(s, step) && !StepOfTx(step, t)
    ensures Enabled(s', step) && Erased(Apply(s, step), Apply(s', step), t)
  {
    hide ApplyTx, TxEnabled, Erased;
    match step
    case CreateInstance(_, _, _, _, _) => ErasedCreate(s, s', t, step);
    case Begin(_, _, _, _) => ErasedBegin(s, s', t, step);
    case OfTx(u, k) =>
      if Next(s, u, k).Goes? {
        ErasedGoes(s, s', t, u, k);
      } else {
        ErasedEnds(s, s', t, u, k);
      }
    case AssignRole(_, _) => ErasedCreate(s, s', t, step);
    case PutRole(_, _) => ErasedCreate(s, s', t, step);
  }

  lemma {:induction false} ErasedRun(s: State, s': State, steps: seq<Step>, u: State, t: TxId) returns (u': State)
    requires Erased(s, s', t) && Run(s, steps, u) && OfTx(t, Commit) !in steps
    ensures Run(s', Without(steps, t), u') && Erased(u, u', t)
    decreases |steps|
  {
    hide Enabled, Apply, Erased, StepOfTx;
    if steps == [] {
      u' := s';
    } else if StepOfTx(steps[0], t) {
      ErasedOwn(s, s', t, steps[0]);
      u' := ErasedRun(Apply(s, steps[0]), s', steps[1..], u, t);
      assert Without(steps, t) == Without(steps[1..], t);
    } else {
      ErasedOther(s, s', t, steps[0]);
      u' := ErasedRun(Apply(s, steps[0]), Apply(s', steps[0]), steps[1..], u, t);
      assert Without(steps, t) == [steps[0]] + Without(steps[1..], t);
      assert ([steps[0]] + Without(steps[1..], t))[1..] == Without(steps[1..], t);
    }
  }

  // Atomicity: whatever a transaction that never commits did, and wherever it was rolled back,
  // the run without it is a run too, and ends with the same tables, the same log, and the same
  // other transactions.
  lemma RollbackLeavesNoTrace(registry: Registry, pool: nat, steps: seq<Step>, s: State, t: TxId) returns (s': State)
    requires Run(Initial(registry, pool), steps, s) && OfTx(t, Commit) !in steps
    ensures Run(Initial(registry, pool), Without(steps, t), s')
    ensures s'.db == s.db && s'.log == s.log && s'.users == s.users && s'.roles == s.roles
    ensures s'.txs == s.txs - {t}
  {
    StartErased(registry, pool, t);
    s' := ErasedRun(Initial(registry, pool), Initial(registry, pool), steps, s, t);
    hide Run;
  }

  lemma StartErased(registry: Registry, pool: nat, t: TxId)
    ensures Erased(Initial(registry, pool), Initial(registry, pool), t)
  {
  }
}
