/** WorkflowService and PurchaseOrdersService as the listings write them, with their awaits.
    As in the pipeline, an await takes a schedule of steps of the rest of the system. */
module WorkflowServices {
  import opened Collections
  import opened WorkflowLedger
  import opened Workflow
  import opened WorkflowDecisions

  /** The primary: tables, row locks, and the transactions in flight. */
  class Primary {
    var db: Tables
    var users: map<Id, Option<Id>>
    var roles: map<Id, Role>
    var txs: map<TxId, Tx>
    var locks: map<Id, TxId>
    var issued: set<Id>
    var ended: map<TxId, Ending>
    var log: seq<Op>
    var registry: Registry
    const pool: nat

    function View(): State
      reads this
    {
      State(pool, db, registry, users, roles, txs, locks, issued, ended, log)
    }

    constructor (pool: nat)
      ensures View() == Initial(map[], pool)
    {
      this.pool := pool;
      db, users, roles, txs, locks := NO_ROWS, map[], map[], map[], map[];
      issued, ended, log, registry := {}, map[], [], map[];
    }

    method Perform(step: Step)
      requires Enabled(View(), step)
      modifies this
      ensures View() == Apply(old(View()), step)
    {
      RegistryKept(View(), step);
      hide Enabled, Apply;
      var s := Apply(View(), step);
      db, users, roles, txs, locks := s.db, s.users, s.roles, s.txs, s.locks;
      issued, ended, log, registry := s.issued, s.ended, s.log, s.registry;
    }
  }

  predicate Own(step: Step, t: TxId) {
    step.OfTx? && step.tx == t
  }

  // The steps of transaction t among the steps of a run, in order.
  function OwnSteps(steps: seq<Step>, t: TxId): seq<TxStep> {
    if steps == [] then [] else OwnPart(steps[0], t) + OwnSteps(steps[1..], t)
  }

  function OwnPart(step: Step, t: TxId): seq<TxStep> {
    if Own(step, t) then [step.txStep] else []
  }

  lemma {:induction false} OneMoreStep(trace: seq<Step>, step: Step, t: TxId)
    ensures OwnSteps(trace + [step], t) == OwnSteps(trace, t) + OwnPart(step, t)
    decreases |trace|
  {
    hide OwnPart;
    var longer := trace + [step];
    if trace == [] {
      assert longer == [step] && longer[1..] == [];
    } else {
      OneMoreStep(trace[1..], step, t);
      assert longer[0] == trace[0] && longer[1..] == trace[1..] + [step];
    }
  }

  lemma {:induction false} RunExtends(s: State, steps: seq<Step>, t: State, step: Step)
    requires Run(s, steps, t) && Enabled(t, step)
    ensures Run(s, steps + [step], Apply(t, step))
    decreases |steps|
  {
    hide Enabled, Apply;
    if steps == [] {
      assert (steps + [step])[1..] == [];
    } else {
      RunExtends(Apply(s, steps[0]), steps[1..], t, step);
      assert (steps + [step])[1..] == steps[1..] + [step];
    }
  }

  lemma TxStepTaken(s0: State, trace: seq<Step>, s: State, t: TxId, step: TxStep)
    requires Run(s0, trace, s) && Inv(s) && TxEnabled(s, t, step)
    ensures Run(s0, trace + [OfTx(t, step)], ApplyTx(s, t, step)) && Inv(ApplyTx(s, t, step))
    ensures OwnSteps(trace + [OfTx(t, step)], t) == OwnSteps(trace, t) + [step]
  {
    hide Inv, Run, ApplyTx, TxEnabled, OwnSteps;
    RunExtends(s0, trace, s, OfTx(t, step));
    TxInv(s, t, step);
    OneMoreStep(trace, OfTx(t, step), t);
  }

  lemma CommitDecides(s: State, t: TxId)
    requires Inv(s) && TxEnabled(s, t, Commit)
    ensures (var tx, db := s.txs[t], Merged(s.db, s.txs[t].writes);
             && tx.instanceId in db.instances && db.instances[tx.instanceId] == Decided(tx.stage.row, tx.action)
             && tx.stage.stepId in db.steps
             && db.steps[tx.stage.stepId] == ApprovalStep(tx.instanceId, tx.approverId, tx.action))
  {
    FitsAt(s, t);
    hide Inv, MayDecide, OrderFits, Decided;
  }

  // The rest of the system leaves an open transaction alone.
  lemma OthersLeaveTx(s: State, step: Step, t: TxId)
    requires Enabled(s, step) && !Own(step, t) && t in s.txs
    ensures t in Apply(s, step).txs && Apply(s, step).txs[t] == s.txs[t]
    ensures Apply(s, step).registry == s.registry
  {
    hide Next;
  }

  lemma OthersLeaveId(s: State, step: Step, t: TxId)
    requires Enabled(s, step) && !StepOfTx(step, t) && t !in s.txs && t !in s.ended
    ensures t !in Apply(s, step).txs && t !in Apply(s, step).ended && !Own(step, t)
    ensures Apply(s, step).registry == s.registry
  {
    hide Next;
  }

  // The awaits of a call, and the first await (if any) whose database operation rejects.
  datatype Waits = Waits(begin: seq<Step>, find: seq<Step>, user: seq<Step>, role: seq<Step>, handler: seq<Step>,
                         step: seq<Step>, save: seq<Step>, commit: seq<Step>)
  // AtReply: the commit took effect, and its reply was lost.
  datatype Failure = NoFailure | AtUser | AtRole | AtHandler | AtStep | AtSave | AtCommit | AtReply

  // Blocked: after the schedule the call still waits for the row lock or a client. ReplyLost: the call rejects
  // although its transaction committed.
  datatype CallResult = Done(ending: Ending) | Blocked | ReplyLost

  // NoClient: the save still waits for a client, and has changed nothing.
  datatype CreateResult = Created(instance: Instance) | Refused | NoClient

  predicate Prefix(path: seq<TxStep>, whole: seq<TxStep>) {
    |path| <= |whole| && path == whole[..|path|]
  }

  // The steps of a call that is over: a whole decision, or one that stopped without a commit.
  predicate PathOf(action: Action, result: CallResult, path: seq<TxStep>) {
    match result
    case Blocked => |path| <= 3 && path != [Lock] && Prefix(path, CHECKS)
    case ReplyLost => WholePath(action, path)
    case Done(Committed(_)) => WholePath(action, path)
    case Done(_) => path != [] && Commit !in path
  }

  // What a call that is not over waits for: a client for its transaction, the row, or a client
  // for one of its two lookups.
  predicate Stalled(s: State, t: TxId, path: seq<TxStep>) {
    if t !in s.txs then path == [] && !ClientFree(s)
    else match s.txs[t].stage
      case Waiting => path == [] && s.txs[t].instanceId in s.locks
      case Authorising(_) => |path| == 2 && !ClientFree(s)
      case Fetching(_, _) => |path| == 3 && !ClientFree(s)
      case _ => false
  }

  // The tables, users and roles are as they were, and as many transactions are under way.
  ghost predicate Quiet(s: State, s': State) {
    && s'.db == s.db && s'.users == s.users && s'.roles == s.roles && s'.registry == s.registry && s'.pool == s.pool
    && s'.txs.Keys == s.txs.Keys
  }

  // Nothing runs and nothing fails while the call gets its client, its row and its permission.
  predicate Undisturbed(waits: Waits, failure: Failure) {
    && waits.begin == [] && waits.find == [] && waits.user == [] && waits.role == []
    && !failure.AtUser? && !failure.AtRole?
  }

  // A call that begins now is let through: a second client for its lookups, a free row that is
  // open to the approver, and an approver who is qualified.
  predicate LetThrough(s: State, action: Action, instanceId: Id, approverId: Id) {
    |s.txs| + 1 < s.pool && MayPass(s, action, instanceId, approverId)
  }

  predicate MayPass(s: State, action: Action, instanceId: Id, approverId: Id) {
    && instanceId in s.db.instances && instanceId !in s.locks
    && Open(s.registry, s.db.instances[instanceId], action, approverId)
    && Qualified(s.users, s.roles, s.registry, s.db.instances[instanceId], approverId)
  }

  lemma BegunPasses(s0: State, s: State, t: TxId, tx: Tx, action: Action, instanceId: Id, approverId: Id)
    requires t !in s0.txs && s == s0.(txs := s0.txs[t := tx])
    ensures LetThrough(s0, action, instanceId, approverId) <==> ClientFree(s) && MayPass(s, action, instanceId, approverId)
    ensures forall e :: Refusal(s, action, instanceId, approverId, e) <==> Refusal(s0, action, instanceId, approverId, e)
  {
    TxCount(s0.txs, t, tx);
    hide Open, Qualified;
  }

  // Why a call that is not let through is over, where the code says so.
  predicate Refusal(s: State, action: Action, instanceId: Id, approverId: Id, ending: Ending) {
    match ending
    case NotFound => instanceId !in s.db.instances
    case Conflict =>
      && instanceId in s.db.instances && s.db.instances[instanceId].status != Pending
      && (action == Action.Approve ==> approverId != s.db.instances[instanceId].requestedBy)
    case Unregistered =>
      && instanceId in s.db.instances && s.db.instances[instanceId].status == Pending
      && s.db.instances[instanceId].kind !in s.registry
    case Forbidden =>
      && instanceId in s.db.instances
      && ((action == Action.Approve && approverId == s.db.instances[instanceId].requestedBy)
          || (Open(s.registry, s.db.instances[instanceId], action, approverId)
              && !Qualified(s.users, s.roles, s.registry, s.db.instances[instanceId], approverId)))
    case Failed => false
    case Committed(_) => false
  }

  // A database call after the permission is rejected; a rejection has no handler that could be.
  predicate FailsAfter(action: Action, failure: Failure) {
    (action == Action.Approve && failure.AtHandler?) || failure.AtStep? || failure.AtSave? || failure.AtCommit?
  }

  // How an undisturbed call ends: committed exactly if it is let through, its handler takes the
  // payload and no database call fails afterwards.
  predicate Decides(s: State, action: Action, instanceId: Id, approverId: Id, failure: Failure, result: CallResult) {
    && (result.Done? && result.ending.Committed? <==>
          LetThrough(s, action, instanceId, approverId) && !FailsAfter(action, failure) && !failure.AtReply?
          && (action == Action.Approve ==> !HandlerFails(s.registry, s.db.instances[instanceId])))
    && (result.Done? && !result.ending.Committed? && result.ending != Failed ==>
          Refusal(s, action, instanceId, approverId, result.ending))
    && (LetThrough(s, action, instanceId, approverId) ==> result.ReplyLost? || (result.Done? && (result.ending.Committed? || result.ending.Failed?)))
  }

  lemma RefusedDecides(s: State, action: Action, instanceId: Id, approverId: Id, failure: Failure, result: CallResult)
    requires !LetThrough(s, action, instanceId, approverId)
    requires result == Blocked
          || (result.Done? && !result.ending.Committed? && Refusal(s, action, instanceId, approverId, result.ending))
    ensures Decides(s, action, instanceId, approverId, failure, result)
  {
    hide LetThrough;
  }

  // What the decision itself makes of a call that was let through.
  predicate Saves(action: Action, registry: Registry, row: Instance, failure: Failure, result: CallResult) {
    var fails := action == Action.Approve && HandlerFails(registry, row);
    && (result.Done? && result.ending.Committed? <==> !fails && !FailsAfter(action, failure) && !failure.AtReply?)
    && (result == Done(Failed) || result == ReplyLost || (result.Done? && result.ending.Committed?))
  }

  lemma LetThroughIn(s: State, action: Action, instanceId: Id, approverId: Id)
    requires LetThrough(s, action, instanceId, approverId)
    ensures instanceId in s.db.instances
  {
  }

  lemma LetThroughDecides(s: State, action: Action, instanceId: Id, approverId: Id, failure: Failure, result: CallResult)
    requires LetThrough(s, action, instanceId, approverId)
    requires Saves(action, s.registry, s.db.instances[instanceId], failure, result)
    ensures Decides(s, action, instanceId, approverId, failure, result)
  {
  }

  // The decision is on record: its step, and the row as it was but for status and completion.
  ghost predicate OnRecord(before: State, after: State, action: Action, instanceId: Id, approverId: Id) {
    && instanceId in after.db.instances
    && after.db.instances[instanceId].status == (if action == Action.Approve then Approved else Rejected)
    && after.db.instances[instanceId].completed
    && (instanceId in before.db.instances ==>
          after.db.instances[instanceId]
          == before.db.instances[instanceId].(status := after.db.instances[instanceId].status, completed := true))
    && exists k :: k in after.db.steps && after.db.steps[k] == ApprovalStep(instanceId, approverId, action)
  }

  // What holds of a call however it ended: its steps, the ending others find, what it waits for,
  // and the decision it recorded.
  ghost predicate Concluded(before: State, after: State, t: TxId, action: Action, instanceId: Id, approverId: Id,
                            result: CallResult, path: seq<TxStep>)
  {
    && PathOf(action, result, path)
    && (result.Done? ==> EndedAs(after.ended, t, result.ending))
    && (result.Blocked? ==> Stalled(after, t, path))
    && (result.ReplyLost? || (result.Done? && result.ending.Committed?) ==>
          OnRecord(before, after, action, instanceId, approverId))
    && (result.Done? && result.ending.Committed? ==>
          instanceId in after.db.instances && after.db.instances[instanceId] == result.ending.row)
    && (result.ReplyLost? ==>
          instanceId in after.db.instances && EndedAs(after.ended, t, Committed(after.db.instances[instanceId])))
  }

  lemma ConcludedUndecided(before: State, after: State, t: TxId, action: Action, instanceId: Id, approverId: Id,
                           result: CallResult, path: seq<TxStep>)
    requires result == Blocked || (result.Done? && !result.ending.Committed?)
    requires PathOf(action, result, path)
    requires result.Done? ==> EndedAs(after.ended, t, result.ending)
    requires result.Blocked? ==> Stalled(after, t, path)
    ensures Concluded(before, after, t, action, instanceId, approverId, result, path)
  {
    hide PathOf, EndedAs, Stalled;
  }

  lemma ConcludedDecided(before: State, after: State, t: TxId, action: Action, instanceId: Id, approverId: Id,
                         result: CallResult, path: seq<TxStep>, row: Instance)
    requires PathOf(action, result, path) && Applied(result, Decided(row, action))
    requires EndedAs(after.ended, t, Committed(Decided(row, action)))
    requires OnRecord(before, after, action, instanceId, approverId)
    requires instanceId in after.db.instances && after.db.instances[instanceId] == Decided(row, action)
    ensures Concluded(before, after, t, action, instanceId, approverId, result, path)
  {
    hide PathOf, EndedAs, OnRecord, Decided;
  }

  lemma Records(before: State, after: State, row: Instance, tx: Tx)
    requires tx.stage.Saved? && tx.instanceId in after.db.instances
    requires after.db.instances[tx.instanceId] == Decided(row, tx.action)
    requires tx.instanceId in before.db.instances ==> row == before.db.instances[tx.instanceId]
    requires tx.stage.stepId in after.db.steps
    requires after.db.steps[tx.stage.stepId] == ApprovalStep(tx.instanceId, tx.approverId, tx.action)
    ensures OnRecord(before, after, tx.action, tx.instanceId, tx.approverId)
  {
  }

  predicate WholePath(action: Action, path: seq<TxStep>) {
    if action == Approve then
      && |path| == 8 && Prefix(path[..4], CHECKS) && path[4].RunHandler? && path[5].InsertStep?
      && path[6..] == [UpdateInstance, Commit]
    else
      && |path| == 7 && Prefix(path[..4], CHECKS) && path[4].InsertStep?
      && path[5..] == [UpdateInstance, Commit]
  }

  // The rest of the system finds recorded how the call ended.
  predicate EndedAs(ended: map<TxId, Ending>, t: TxId, ending: Ending) {
    t in ended && ended[t] == ending
  }

  const CHECKS := [Lock, CheckRow, FindUser, FindRole]

  predicate Applied(result: CallResult, row: Instance) {
    result == Done(Committed(row)) || result == ReplyLost
  }

  lemma WholeApproval(result: CallResult, row: Instance, orderId: Id, path: seq<TxStep>)
    requires Applied(result, row)
    requires |path| == 3 && path[0].InsertStep? && path[1..] == [UpdateInstance, Commit]
    ensures PathOf(Action.Approve, result, CHECKS + [TxStep.RunHandler(orderId)] + path)
  {
  }

  lemma WholeRejection(result: CallResult, row: Instance, path: seq<TxStep>)
    requires Applied(result, row)
    requires |path| == 3 && path[0].InsertStep? && path[1..] == [UpdateInstance, Commit]
    ensures PathOf(Action.Reject, result, CHECKS + path)
  {
  }

  lemma NeverBegan(action: Action, s: State, t: TxId)
    requires t !in s.txs && !ClientFree(s)
    ensures PathOf(action, Blocked, []) && Stalled(s, t, [])
  {
  }

  lemma Stopped(action: Action, ending: Ending, path: seq<TxStep>)
    requires !ending.Committed? && path != [] && Commit !in path
    ensures PathOf(action, Done(ending), path)
  {
  }

  /** registry is WorkflowService's own map, kept in the shared state so that schedules see it. */
  class WorkflowService {
    const primary: Primary

    constructor (primary: Primary)
      ensures this.primary == primary
    {
      this.primary := primary;
    }

    method RegisterHandler(kind: string, permission: string, handler: Handler)
      modifies primary`registry
      ensures primary.registry == old(primary.registry)[kind := Registration(permission, handler)]
      ensures old(primary.View()) == Initial(old(primary.registry), primary.pool) ==>
                primary.View() == Initial(primary.registry, primary.pool)
    {
      primary.registry := primary.registry[kind := Registration(permission, handler)];
    }

    /** create: refuses a type nobody registered, else saves a pending instance, once it has a
        client to save it with. */
    method Create(id: Id, kind: string, payload: Payload, tenantId: Id, requestedBy: Id)
      returns (result: CreateResult)
      requires Inv(primary.View()) && id !in primary.db.instances
      modifies primary`db, primary`log
      ensures Inv(primary.View())
      ensures result.Refused? <==> kind !in primary.registry
      ensures result.Created? <==> kind in primary.registry && ClientFree(old(primary.View()))
      ensures !result.Created? ==> primary.View() == old(primary.View())
      ensures result.Created? ==>
                && result.instance == Instance(tenantId, kind, Pending, payload, requestedBy, false)
                && primary.db == old(primary.db).(instances := old(primary.db).instances[id := result.instance])
                && primary.View() == Apply(old(primary.View()), CreateInstance(id, kind, payload, tenantId, requestedBy))
    {
      if kind !in primary.registry {
        return Refused;
      }
      if |primary.txs| >= primary.pool {
        return NoClient;
      }
      InvStep(primary.View(), CreateInstance(id, kind, payload, tenantId, requestedBy));
      hide Inv;
      var instance := Instance(tenantId, kind, Pending, payload, requestedBy, false);
      primary.db := primary.db.(instances := primary.db.instances[id := instance]);
      primary.log := primary.log + [WorkflowLedger.Create(id, kind, payload, tenantId, requestedBy)];
      result := Created(instance);
    }

    method Await(t: TxId, schedule: seq<Step>, ghost s0: State, ghost before: seq<Step>) returns (ghost trace: seq<Step>)
      requires Run(s0, before, primary.View()) && Inv(primary.View()) && t in primary.txs
      modifies primary
      ensures Run(s0, trace, primary.View()) && Inv(primary.View())
      ensures OwnSteps(trace, t) == OwnSteps(before, t)
      ensures t in primary.txs && primary.txs[t] == old(primary.txs[t])
      ensures primary.registry == old(primary.registry)
      ensures schedule == [] ==> primary.View() == old(primary.View())
    {
      trace := before;
      ghost var tx, registry := primary.txs[t], primary.registry;
      hide Inv, Run, Enabled, Apply, OwnSteps;
      for i := 0 to |schedule|
        invariant Run(s0, trace, primary.View()) && Inv(primary.View())
        invariant OwnSteps(trace, t) == OwnSteps(before, t)
        invariant t in primary.txs && primary.txs[t] == tx && primary.registry == registry
        invariant i == 0 ==> primary.View() == old(primary.View())
      {
        var step := schedule[i];
        if Enabled(primary.View(), step) && !Own(step, t) {
          OthersLeaveTx(primary.View(), step, t);
          RunExtends(s0, trace, primary.View(), step);
          OneMoreStep(trace, step, t);
          InvStep(primary.View(), step);
          primary.Perform(step);
          trace := trace + [step];
        }
      }
    }

    // The transaction goes on to its next stage with what it wrote.
    method GoOn(t: TxId, stage: Stage, writes: Tables, ids: set<Id>)
      requires t in primary.txs
      modifies primary`txs, primary`issued
      ensures primary.txs == old(primary.txs)[t := old(primary.txs[t]).(stage := stage, writes := writes)]
      ensures primary.issued == old(primary.issued) + ids
    {
      primary.txs := primary.txs[t := primary.txs[t].(stage := stage, writes := writes)];
      primary.issued := primary.issued + ids;
    }

    // The callback threw: the driver rolls back, and the row lock goes.
    method Rollback(t: TxId, ending: Ending)
      requires t in primary.txs
      modifies primary`txs, primary`locks, primary`ended
      ensures primary.txs == old(primary.txs) - {t}
      ensures primary.locks == Unlocked(old(primary.locks), t)
      ensures primary.ended == old(primary.ended)[t := ending]
    {
      primary.txs := primary.txs - {t};
      primary.locks := Unlocked(primary.locks, t);
      primary.ended := primary.ended[t := ending];
    }

    // Rolls back after a rejected database operation, or after the handler threw.
    method Abandon(t: TxId, ghost step: TxStep, ghost s0: State, ghost before: seq<Step>)
      returns (result: CallResult, ghost trace: seq<Step>)
      requires Run(s0, before, primary.View()) && Inv(primary.View()) && t in primary.txs
      requires step.Abort? || (step.HandlerThrows? && TxEnabled(primary.View(), t, step))
      requires Commit !in OwnSteps(before, t)
      modifies primary
      ensures Run(s0, trace, primary.View()) && Inv(primary.View())
      ensures result == Done(Failed) && OwnSteps(trace, t) != [] && Commit !in OwnSteps(trace, t)
      ensures primary.db == old(primary.db) && t !in primary.txs && primary.registry == old(primary.registry)
      ensures EndedAs(primary.ended, t, Failed)
    {
      hide Inv, Run, OwnSteps;
      TxStepTaken(s0, before, primary.View(), t, step);
      Rollback(t, Failed);
      result, trace := Done(Failed), before + [OfTx(t, step)];
    }

    // manager.findOne with a pessimistic_write lock.
    method FindLocked(t: TxId, ghost s0: State, ghost before: seq<Step>)
      returns (row: Option<Instance>, result: CallResult, ghost trace: seq<Step>)
      requires Run(s0, before, primary.View()) && Inv(primary.View())
      requires t in primary.txs && primary.txs[t].stage.Waiting? && OwnSteps(before, t) == []
      modifies primary
      ensures Run(s0, trace, primary.View()) && Inv(primary.View())
      ensures row.Some? ==>
                && OwnSteps(trace, t) == [Lock]
                && t in primary.txs && primary.txs[t] == old(primary.txs[t]).(stage := Locked(row.value))
                && Quiet(old(primary.View()), primary.View())
                && old(primary.txs[t]).instanceId in primary.db.instances
                && primary.db.instances[old(primary.txs[t]).instanceId] == row.value
      ensures row.Some? <==>
                old(primary.txs[t]).instanceId in old(primary.db.instances)
                && old(primary.txs[t]).instanceId !in old(primary.locks)
      ensures row.None? ==> (result == Done(NotFound) <==> old(primary.txs[t]).instanceId !in old(primary.db.instances))
      ensures row.None? ==>
                && (result == Done(NotFound) || result == Blocked)
                && OwnSteps(trace, t) == (if result == Blocked then [] else [FindNothing])
                && (if result == Blocked then Stalled(primary.View(), t, []) else EndedAs(primary.ended, t, NotFound))
      ensures primary.registry == old(primary.registry)
    {
      hide Inv, Run, OwnSteps;
      var id := primary.txs[t].instanceId;
      trace, row, result := before, None, Blocked;
      if id !in primary.db.instances {
        TxStepTaken(s0, before, primary.View(), t, FindNothing);
        trace := before + [OfTx(t, FindNothing)];
        Rollback(t, NotFound);
        result := Done(NotFound);
      } else if id !in primary.locks {
        TxStepTaken(s0, before, primary.View(), t, Lock);
        trace := before + [OfTx(t, Lock)];
        row := Some(primary.db.instances[id]);
        primary.locks := primary.locks[id := t];
        GoOn(t, Locked(row.value), primary.txs[t].writes, {});
      }
    }

    /** The checks on the locked row: self-approval first, then the status, then the registry. */
    method CheckLocked(t: TxId, row: Instance, ghost s0: State, ghost before: seq<Step>)
      returns (refused: Option<Ending>, ghost trace: seq<Step>)
      requires Run(s0, before, primary.View()) && Inv(primary.View())
      requires t in primary.txs && primary.txs[t].stage == Locked(row) && OwnSteps(before, t) == [Lock]
      modifies primary
      ensures Run(s0, trace, primary.View()) && Inv(primary.View())
      ensures OwnSteps(trace, t) == [Lock, CheckRow]
      ensures refused.None? ==>
                && t in primary.txs && primary.txs[t] == old(primary.txs[t]).(stage := Authorising(row))
                && row.kind in primary.registry && row.status == Pending
      ensures refused.Some? ==> !refused.value.Committed? && primary.db == old(primary.db)
      ensures refused.Some? ==> EndedAs(primary.ended, t, refused.value)
      ensures refused == Some(Forbidden) <==>
                old(primary.txs[t]).action == Action.Approve && old(primary.txs[t]).approverId == row.requestedBy
      ensures refused == Some(Conflict) <==> row.status != Pending && refused != Some(Forbidden)
      ensures refused.None? <==> Open(primary.registry, row, old(primary.txs[t]).action, old(primary.txs[t]).approverId)
      ensures refused.Some? ==> refused.value in {Forbidden, Conflict, Unregistered}
      ensures refused.None? ==> Quiet(old(primary.View()), primary.View())
      ensures primary.registry == old(primary.registry)
    {
      hide Inv, Run, OwnSteps;
      TxStepTaken(s0, before, primary.View(), t, CheckRow);
      trace := before + [OfTx(t, CheckRow)];
      var tx := primary.txs[t];
      if tx.action == Action.Approve && tx.approverId == row.requestedBy {
        refused := Some(Forbidden);
      } else if row.status != Pending {
        refused := Some(Conflict);
      } else if row.kind !in primary.registry {
        refused := Some(Unregistered);
      } else {
        refused := None;
      }
      if refused.Some? {
        Rollback(t, refused.value);
      } else {
        GoOn(t, Authorising(row), tx.writes, {});
      }
    }

    /** assertPermission: the user's role id, then that role's tenant, then its permissions. */
    method AssertPermission(t: TxId, row: Instance, waits: Waits, failure: Failure, ghost s0: State, ghost before: seq<Step>)
      returns (refused: Option<CallResult>, ghost trace: seq<Step>)
      requires Run(s0, before, primary.View()) && Inv(primary.View())
      requires t in primary.txs && primary.txs[t].stage == Authorising(row) && OwnSteps(before, t) == [Lock, CheckRow]
      requires row.kind in primary.registry
      modifies primary
      ensures Run(s0, trace, primary.View()) && Inv(primary.View())
      ensures refused.None? ==>
                && OwnSteps(trace, t) == CHECKS
                && t in primary.txs && primary.txs[t].stage.Permitted? && primary.txs[t].stage.row == row
                && primary.txs[t] == old(primary.txs[t]).(stage := primary.txs[t].stage)
      ensures waits.user == [] && waits.role == [] && !failure.AtUser? && !failure.AtRole? ==>
                if !ClientFree(old(primary.View())) then refused == Some(Blocked)
                else if Qualified(old(primary.users), old(primary.roles), primary.registry, row, old(primary.txs[t]).approverId)
                then refused.None?
                else refused == Some(Done(Forbidden))
      ensures refused.Some? ==>
                if refused.value == Blocked then
                  Stalled(primary.View(), t, OwnSteps(trace, t)) && Prefix(OwnSteps(trace, t), CHECKS)
                else
                  && (refused.value == Done(Forbidden) || refused.value == Done(Failed))
                  && OwnSteps(trace, t) != [] && Commit !in OwnSteps(trace, t)
                  && EndedAs(primary.ended, t, refused.value.ending)
      ensures primary.registry == old(primary.registry)
    {
      hide Inv, Run, OwnSteps;
      trace := Await(t, waits.user, s0, before);
      if failure.AtUser? {
        var result;
        result, trace := Abandon(t, Abort, s0, trace);
        refused := Some(result);
        return;
      }
      if |primary.txs| >= primary.pool {
        refused := Some(Blocked);
        return;
      }
      TxStepTaken(s0, trace, primary.View(), t, FindUser);
      trace := trace + [OfTx(t, FindUser)];
      var tx := primary.txs[t];
      if tx.approverId !in primary.users || primary.users[tx.approverId].None? {
        Rollback(t, Forbidden);
        refused := Some(Done(Forbidden));
        return;
      }
      var roleId := primary.users[tx.approverId].value;
      GoOn(t, Fetching(row, roleId), tx.writes, {});
      refused, trace := CheckRole(t, row, roleId, waits, failure, s0, trace);
    }

    method CheckRole(t: TxId, row: Instance, roleId: Id, waits: Waits, failure: Failure,
                     ghost s0: State, ghost before: seq<Step>)
      returns (refused: Option<CallResult>, ghost trace: seq<Step>)
      requires Run(s0, before, primary.View()) && Inv(primary.View())
      requires t in primary.txs && primary.txs[t].stage == Fetching(row, roleId)
      requires OwnSteps(before, t) == [Lock, CheckRow, FindUser] && row.kind in primary.registry
      modifies primary
      ensures Run(s0, trace, primary.View()) && Inv(primary.View())
      ensures refused.None? ==>
                && OwnSteps(trace, t) == CHECKS
                && t in primary.txs && primary.txs[t].stage.Permitted? && primary.txs[t].stage.row == row
                && primary.txs[t] == old(primary.txs[t]).(stage := primary.txs[t].stage)
      ensures waits.role == [] && !failure.AtRole? ==>
                if !ClientFree(old(primary.View())) then refused == Some(Blocked)
                else if roleId in old(primary.roles)
                        && RoleAllows(old(primary.roles)[roleId], row.tenantId, old(primary.registry)[row.kind].permission)
                then refused.None?
                else refused == Some(Done(Forbidden))
      ensures refused.Some? ==>
                if refused.value == Blocked then
                  Stalled(primary.View(), t, OwnSteps(trace, t)) && Prefix(OwnSteps(trace, t), CHECKS)
                else
                  && (refused.value == Done(Forbidden) || refused.value == Done(Failed))
                  && OwnSteps(trace, t) != [] && Commit !in OwnSteps(trace, t)
                  && EndedAs(primary.ended, t, refused.value.ending)
      ensures primary.registry == old(primary.registry)
    {
      hide Inv, Run, OwnSteps;
      trace := Await(t, waits.role, s0, before);
      if failure.AtRole? {
        var result;
        result, trace := Abandon(t, Abort, s0, trace);
        refused := Some(result);
        return;
      }
      if |primary.txs| >= primary.pool {
        refused := Some(Blocked);
        return;
      }
      TxStepTaken(s0, trace, primary.View(), t, FindRole);
      trace := trace + [OfTx(t, FindRole)];
      if roleId !in primary.roles || primary.roles[roleId].tenantId != row.tenantId
         || primary.registry[row.kind].permission !in primary.roles[roleId].permissions {
        Rollback(t, Forbidden);
        refused := Some(Done(Forbidden));
      } else {
        GoOn(t, Permitted(row, primary.roles[roleId]), primary.txs[t].writes, {});
        refused := None;
      }
    }

    // The lock, the checks and the permission, in that order; None means the call is over.
    method Authorise(t: TxId, waits: Waits, failure: Failure, ghost s0: State, ghost before: seq<Step>)
      returns (row: Option<Instance>, result: CallResult, ghost trace: seq<Step>)
      requires Run(s0, before, primary.View()) && Inv(primary.View())
      requires t in primary.txs && primary.txs[t].stage.Waiting? && OwnSteps(before, t) == []
      modifies primary
      ensures Run(s0, trace, primary.View()) && Inv(primary.View())
      ensures row.Some? ==>
                && OwnSteps(trace, t) == CHECKS
                && t in primary.txs && primary.txs[t].stage.Permitted? && primary.txs[t].stage.row == row.value
                && primary.txs[t] == old(primary.txs[t]).(stage := primary.txs[t].stage)
      ensures row.None? ==> result == Blocked || (result.Done? && !result.ending.Committed?)
      ensures row.None? ==> PathOf(old(primary.txs[t]).action, result, OwnSteps(trace, t))
      ensures row.None? && result.Done? ==> EndedAs(primary.ended, t, result.ending)
      ensures row.None? && result.Blocked? ==> Stalled(primary.View(), t, OwnSteps(trace, t))
      ensures waits.find == [] && waits.user == [] && waits.role == [] && !failure.AtUser? && !failure.AtRole? ==>
                (var s, tx := old(primary.View()), old(primary.txs[t]);
                 && (row.Some? <==> ClientFree(s) && MayPass(s, tx.action, tx.instanceId, tx.approverId))
                 && (row.None? && result.Done? ==> Refusal(s, tx.action, tx.instanceId, tx.approverId, result.ending)))
      ensures primary.registry == old(primary.registry)
    {
      hide Inv, Run, OwnSteps;
      trace := Await(t, waits.find, s0, before);
      row, result, trace := FindLocked(t, s0, trace);
      if row.None? {
        return;
      }
      var refusal;
      refusal, trace := CheckLocked(t, row.value, s0, trace);
      if refusal.Some? {
        row, result := None, Done(refusal.value);
        return;
      }
      var refused;
      refused, trace := AssertPermission(t, row.value, waits, failure, s0, trace);
      if refused.Some? {
        row, result := None, refused.value;
      }
    }

    /** The registered handler, on the transaction's manager. It fails on a payload that is not
        an order request, because the columns it would insert are not null. */
    method Handle(t: TxId, row: Instance, ghost s0: State, ghost before: seq<Step>)
      returns (ran: bool, orderId: Id, ghost trace: seq<Step>)
      requires Run(s0, before, primary.View()) && Inv(primary.View())
      requires t in primary.txs && primary.txs[t].stage.Permitted? && primary.txs[t].stage.row == row
      requires primary.txs[t].action == Action.Approve
      modifies primary
      ensures Run(s0, trace, primary.View()) && Inv(primary.View())
      ensures t in primary.txs && primary.txs[t].instanceId == old(primary.txs[t]).instanceId
      ensures primary.txs[t].approverId == old(primary.txs[t]).approverId && primary.txs[t].action == Action.Approve
      ensures ran <==> !HandlerFails(old(primary.registry), row)
      ensures !ran ==> OwnSteps(trace, t) == OwnSteps(before, t) && TxEnabled(primary.View(), t, HandlerThrows)
      ensures ran ==>
                && OwnSteps(trace, t) == OwnSteps(before, t) + [TxStep.RunHandler(orderId)]
                && primary.txs[t].stage.Handled? && primary.txs[t].stage.row == row
    {
      hide Inv, Run, OwnSteps;
      ghost var bound := FreshExists(primary.issued);
      assert bound !in primary.issued;
      orderId :| orderId !in primary.issued;
      var tx := primary.txs[t];
      trace, ran := before, false;
      if !Writes(primary.registry, row, Action.Approve) {
        TxStepTaken(s0, before, primary.View(), t, TxStep.RunHandler(orderId));
        trace, ran := before + [OfTx(t, TxStep.RunHandler(orderId))], true;
        GoOn(t, Handled(row, tx.stage.role, None), tx.writes, {orderId});
      } else if row.payload.Order? {
        TxStepTaken(s0, before, primary.View(), t, TxStep.RunHandler(orderId));
        trace, ran := before + [OfTx(t, TxStep.RunHandler(orderId))], true;
        var dto := row.payload.dto;
        var purchaseOrder :=
          PurchaseOrder(row.tenantId, dto.vendorId, dto.amount, dto.currency, row.requestedBy, tx.approverId);
        GoOn(t, Handled(row, tx.stage.role, Some(orderId)),
             tx.writes.(orders := tx.writes.orders[orderId := purchaseOrder],
                        origin := tx.writes.origin[orderId := tx.instanceId]),
             {orderId});
      }
    }

    method SaveStep(t: TxId, row: Instance, ghost s0: State, ghost before: seq<Step>)
      returns (stepId: Id, ghost trace: seq<Step>)
      requires Run(s0, before, primary.View()) && Inv(primary.View()) && t in primary.txs
      requires if primary.txs[t].action == Action.Approve then primary.txs[t].stage.Handled? else primary.txs[t].stage.Permitted?
      requires primary.txs[t].stage.row == row
      modifies primary
      ensures Run(s0, trace, primary.View()) && Inv(primary.View())
      ensures OwnSteps(trace, t) == OwnSteps(before, t) + [InsertStep(stepId)]
      ensures t in primary.txs && primary.txs[t].instanceId == old(primary.txs[t]).instanceId
      ensures primary.txs[t].approverId == old(primary.txs[t]).approverId
      ensures primary.txs[t].action == old(primary.txs[t]).action
      ensures primary.txs[t].stage.Stepped? && primary.txs[t].stage.row == row
    {
      hide Inv, Run, OwnSteps;
      ghost var bound := FreshExists(primary.issued);
      assert bound !in primary.issued;
      stepId :| stepId !in primary.issued;
      TxStepTaken(s0, before, primary.View(), t, InsertStep(stepId));
      trace := before + [OfTx(t, InsertStep(stepId))];
      var tx := primary.txs[t];
      var step := ApprovalStep(tx.instanceId, tx.approverId, tx.action);
      GoOn(t, Stepped(row, tx.stage.role, if tx.stage.Handled? then tx.stage.orderId else None, stepId),
           tx.writes.(steps := tx.writes.steps[stepId := step]), {stepId});
    }

    method SaveInstance(t: TxId, row: Instance, ghost s0: State, ghost before: seq<Step>) returns (ghost trace: seq<Step>)
      requires Run(s0, before, primary.View()) && Inv(primary.View()) && t in primary.txs
      requires primary.txs[t].stage.Stepped? && primary.txs[t].stage.row == row
      modifies primary
      ensures Run(s0, trace, primary.View()) && Inv(primary.View())
      ensures OwnSteps(trace, t) == OwnSteps(before, t) + [UpdateInstance]
      ensures t in primary.txs && primary.txs[t].instanceId == old(primary.txs[t]).instanceId
      ensures primary.txs[t].approverId == old(primary.txs[t]).approverId
      ensures primary.txs[t].action == old(primary.txs[t]).action
      ensures primary.txs[t].stage.Saved? && primary.txs[t].stage.row == row
    {
      hide Inv, Run, OwnSteps;
      TxStepTaken(s0, before, primary.View(), t, UpdateInstance);
      trace := before + [OfTx(t, UpdateInstance)];
      var tx := primary.txs[t];
      var instance := row.(status := if tx.action == Action.Approve then Approved else Rejected, completed := true);
      GoOn(t, Saved(row, tx.stage.role, tx.stage.orderId, tx.stage.stepId),
           tx.writes.(instances := tx.writes.instances[tx.instanceId := instance]), {});
    }

    method CommitTx(t: TxId, row: Instance, ghost s0: State, ghost before: seq<Step>) returns (ghost trace: seq<Step>)
      requires Run(s0, before, primary.View()) && Inv(primary.View()) && t in primary.txs
      requires primary.txs[t].stage.Saved? && primary.txs[t].stage.row == row
      modifies primary
      ensures Run(s0, trace, primary.View()) && Inv(primary.View())
      ensures OwnSteps(trace, t) == OwnSteps(before, t) + [Commit]
      ensures t !in primary.txs && EndedAs(primary.ended, t, Committed(Decided(row, old(primary.txs[t]).action)))
      ensures old(primary.txs[t]).instanceId in primary.db.instances
      ensures primary.db.instances[old(primary.txs[t]).instanceId] == Decided(row, old(primary.txs[t]).action)
      ensures old(primary.txs[t]).stage.stepId in primary.db.steps
      ensures primary.db.steps[old(primary.txs[t]).stage.stepId]
           == ApprovalStep(old(primary.txs[t]).instanceId, old(primary.txs[t]).approverId, old(primary.txs[t]).action)
    {
      hide Inv, Run, OwnSteps, Replay, OpOf;
      TxStepTaken(s0, before, primary.View(), t, Commit);
      CommitDecides(primary.View(), t);
      trace := before + [OfTx(t, Commit)];
      var tx := primary.txs[t];
      primary.db := Merged(primary.db, tx.writes);
      primary.log := primary.log + [OpOf(tx)];
      Rollback(t, Committed(Decided(row, tx.action)));
    }

    // The step, the instance and the commit, any of which the database may reject.
    method SaveDecision(t: TxId, row: Instance, waits: Waits, failure: Failure, ghost s0: State, ghost before: seq<Step>)
      returns (result: CallResult, ghost trace: seq<Step>, ghost path: seq<TxStep>)
      requires Run(s0, before, primary.View()) && Inv(primary.View()) && t in primary.txs
      requires if primary.txs[t].action == Action.Approve then primary.txs[t].stage.Handled? else primary.txs[t].stage.Permitted?
      requires primary.txs[t].stage.row == row && Commit !in OwnSteps(before, t)
      requires primary.txs[t].instanceId in s0.db.instances ==> row == s0.db.instances[primary.txs[t].instanceId]
      modifies primary
      ensures Run(s0, trace, primary.View()) && Inv(primary.View())
      ensures result == Done(Failed) <==> failure.AtStep? || failure.AtSave? || failure.AtCommit?
      ensures result != Done(Failed) ==>
                (var tx := old(primary.txs[t]); OnRecord(s0, primary.View(), tx.action, tx.instanceId, tx.approverId))
      ensures result == Done(Failed) || Applied(result, Decided(row, old(primary.txs[t]).action))
      ensures failure.AtReply? <==> result == ReplyLost
      ensures EndedAs(primary.ended, t,
                      if result == Done(Failed) then Failed else Committed(Decided(row, old(primary.txs[t]).action)))
      ensures result == Done(Failed) ==> OwnSteps(trace, t) != [] && Commit !in OwnSteps(trace, t)
      ensures result != Done(Failed) ==>
                && OwnSteps(trace, t) == OwnSteps(before, t) + path
                && |path| == 3 && path[0].InsertStep? && path[1..] == [UpdateInstance, Commit]
                && old(primary.txs[t]).instanceId in primary.db.instances
                && primary.db.instances[old(primary.txs[t]).instanceId] == Decided(row, old(primary.txs[t]).action)
    {
      hide Inv, Run, OwnSteps, Decided;
      path := [];
      trace := Await(t, waits.step, s0, before);
      if failure.AtStep? {
        result, trace := Abandon(t, Abort, s0, trace);
        return;
      }
      var stepId;
      stepId, trace := SaveStep(t, row, s0, trace);
      trace := Await(t, waits.save, s0, trace);
      if failure.AtSave? {
        result, trace := Abandon(t, Abort, s0, trace);
        return;
      }
      trace := SaveInstance(t, row, s0, trace);
      trace := Await(t, waits.commit, s0, trace);
      if failure.AtCommit? {
        result, trace := Abandon(t, Abort, s0, trace);
        return;
      }
      result := if failure.AtReply? then ReplyLost else Done(Committed(Decided(row, primary.txs[t].action)));
      ghost var tx, db := primary.txs[t], primary.db;
      trace := CommitTx(t, row, s0, trace);
      Records(s0, primary.View(), row, tx);
      path := [InsertStep(stepId), UpdateInstance, Commit];
    }

    // The wait for a client, without a transaction yet. No other call takes the same id.
    method AwaitClient(t: TxId, schedule: seq<Step>, ghost s0: State) returns (ghost trace: seq<Step>)
      requires primary.View() == s0 && Inv(s0) && t !in primary.txs && t !in primary.ended
      modifies primary
      ensures Run(s0, trace, primary.View()) && Inv(primary.View()) && OwnSteps(trace, t) == []
      ensures t !in primary.txs && t !in primary.ended && primary.registry == old(primary.registry)
      ensures schedule == [] ==> primary.View() == old(primary.View())
    {
      trace := [];
      assert Run(s0, trace, s0) && OwnSteps(trace, t) == [];
      hide Inv, Run, Enabled, Apply, OwnSteps;
      for i := 0 to |schedule|
        invariant Run(s0, trace, primary.View()) && Inv(primary.View()) && OwnSteps(trace, t) == []
        invariant t !in primary.txs && t !in primary.ended && primary.registry == old(primary.registry)
        invariant i == 0 ==> primary.View() == old(primary.View())
      {
        var step := schedule[i];
        if Enabled(primary.View(), step) && !StepOfTx(step, t) {
          OthersLeaveId(primary.View(), step, t);
          RunExtends(s0, trace, primary.View(), step);
          OneMoreStep(trace, step, t);
          InvStep(primary.View(), step);
          primary.Perform(step);
          trace := trace + [step];
        }
      }
    }

    method BeginTx(t: TxId, action: Action, instanceId: Id, approverId: Id, ghost s0: State, ghost before: seq<Step>)
      returns (ghost trace: seq<Step>)
      requires Run(s0, before, primary.View()) && Inv(primary.View()) && OwnSteps(before, t) == []
      requires t !in primary.txs && t !in primary.ended && ClientFree(primary.View())
      modifies primary`txs
      ensures Run(s0, trace, primary.View()) && Inv(primary.View()) && OwnSteps(trace, t) == []
      ensures primary.txs == old(primary.txs)[t := Tx(action, instanceId, approverId, Waiting, NO_ROWS)]
    {
      hide Inv, Run, OwnSteps;
      RunExtends(s0, before, primary.View(), Begin(t, action, instanceId, approverId));
      InvStep(primary.View(), Begin(t, action, instanceId, approverId));
      OneMoreStep(before, Begin(t, action, instanceId, approverId), t);
      trace := before + [Begin(t, action, instanceId, approverId)];
      primary.txs := primary.txs[t := Tx(action, instanceId, approverId, Waiting, NO_ROWS)];
    }

    // The transaction up to its permission, if it gets there.
    method Enter(t: TxId, action: Action, instanceId: Id, approverId: Id, waits: Waits, failure: Failure, ghost s0: State)
      returns (row: Option<Instance>, result: CallResult, ghost trace: seq<Step>)
      requires primary.View() == s0 && Inv(s0) && t !in primary.txs && t !in primary.ended
      modifies primary
      ensures Run(s0, trace, primary.View()) && Inv(primary.View())
      ensures row.Some? ==>
                && OwnSteps(trace, t) == CHECKS && t in primary.txs
                && primary.txs[t] == Tx(action, instanceId, approverId, primary.txs[t].stage, NO_ROWS)
                && primary.txs[t].stage.Permitted? && primary.txs[t].stage.row == row.value
      ensures row.None? ==>
                && Concluded(s0, primary.View(), t, action, instanceId, approverId, result, OwnSteps(trace, t))
                && (Undisturbed(waits, failure) ==> Decides(s0, action, instanceId, approverId, failure, result))
      ensures row.Some? && Undisturbed(waits, failure) ==> LetThrough(s0, action, instanceId, approverId)
      ensures row.Some? && instanceId in s0.db.instances ==> row.value == s0.db.instances[instanceId]
      ensures primary.registry == old(primary.registry)
    {
      hide Inv, Run, OwnSteps, PathOf, EndedAs, Stalled, MayPass, Refusal, Concluded, Decides;
      trace := AwaitClient(t, waits.begin, s0);
      if |primary.txs| >= primary.pool {
        NeverBegan(action, primary.View(), t);
        row, result := None, Blocked;
        ConcludedUndecided(s0, primary.View(), t, action, instanceId, approverId, result, OwnSteps(trace, t));
        if Undisturbed(waits, failure) {
          RefusedDecides(s0, action, instanceId, approverId, failure, result);
        }
        return;
      }
      row, result, trace := WithClient(t, action, instanceId, approverId, waits, failure, s0, trace);
    }

    // The transaction once it has its client.
    method WithClient(t: TxId, action: Action, instanceId: Id, approverId: Id, waits: Waits, failure: Failure,
                 ghost s0: State, ghost before: seq<Step>)
      returns (row: Option<Instance>, result: CallResult, ghost trace: seq<Step>)
      requires Run(s0, before, primary.View()) && Inv(s0) && Inv(primary.View()) && OwnSteps(before, t) == []
      requires t !in primary.txs && t !in primary.ended && ClientFree(primary.View())
      requires waits.begin == [] ==> primary.View() == s0
      modifies primary
      ensures Run(s0, trace, primary.View()) && Inv(primary.View())
      ensures row.Some? ==>
                && OwnSteps(trace, t) == CHECKS && t in primary.txs
                && primary.txs[t] == Tx(action, instanceId, approverId, primary.txs[t].stage, NO_ROWS)
                && primary.txs[t].stage.Permitted? && primary.txs[t].stage.row == row.value
      ensures row.None? ==>
                && Concluded(s0, primary.View(), t, action, instanceId, approverId, result, OwnSteps(trace, t))
                && (Undisturbed(waits, failure) ==> Decides(s0, action, instanceId, approverId, failure, result))
      ensures row.Some? && Undisturbed(waits, failure) ==> LetThrough(s0, action, instanceId, approverId)
      ensures row.Some? && instanceId in s0.db.instances ==> row.value == s0.db.instances[instanceId]
      ensures primary.registry == old(primary.registry)
    {
      hide Inv, Run, OwnSteps, PathOf, EndedAs, Stalled, MayPass, Refusal, Concluded, Decides, LetThrough;
      ghost var s1 := primary.View();
      trace := BeginTx(t, action, instanceId, approverId, s0, before);
      BegunPasses(s1, primary.View(), t, primary.txs[t], action, instanceId, approverId);
      row, result, trace := Authorise(t, waits, failure, s0, trace);
      if row.Some? {
        HeldRowIsOld(s0, trace, primary.View(), t);
      } else {
        ConcludedUndecided(s0, primary.View(), t, action, instanceId, approverId, result, OwnSteps(trace, t));
        if Undisturbed(waits, failure) {
          RefusedDecides(s0, action, instanceId, approverId, failure, result);
        }
      }
    }

    // The handler, then the decision.
    method Execute(t: TxId, row: Instance, waits: Waits, failure: Failure, ghost s0: State, ghost before: seq<Step>)
      returns (result: CallResult, ghost trace: seq<Step>)
      requires Run(s0, before, primary.View()) && Inv(primary.View()) && t in primary.txs
      requires primary.txs[t].stage.Permitted? && primary.txs[t].stage.row == row
      requires primary.txs[t].action == Action.Approve && OwnSteps(before, t) == CHECKS
      requires primary.txs[t].instanceId in s0.db.instances ==> row == s0.db.instances[primary.txs[t].instanceId]
      modifies primary
      ensures Saves(Action.Approve, old(primary.registry), row, failure, result)
      ensures Run(s0, trace, primary.View()) && Inv(primary.View())
      ensures Concluded(s0, primary.View(), t, Action.Approve, old(primary.txs[t]).instanceId, old(primary.txs[t]).approverId,
                        result, OwnSteps(trace, t))
    {
      hide Inv, Run, OwnSteps, PathOf, EndedAs, Decided, Concluded, OnRecord;
      ghost var tx := primary.txs[t];
      trace := Await(t, waits.handler, s0, before);
      if failure.AtHandler? {
        result, trace := Abandon(t, Abort, s0, trace);
        Stopped(Action.Approve, Failed, OwnSteps(trace, t));
        ConcludedUndecided(s0, primary.View(), t, Action.Approve, tx.instanceId, tx.approverId, result, OwnSteps(trace, t));
        return;
      }
      var ran, orderId;
      ran, orderId, trace := Handle(t, row, s0, trace);
      if !ran {
        result, trace := Abandon(t, HandlerThrows, s0, trace);
        Stopped(Action.Approve, Failed, OwnSteps(trace, t));
        ConcludedUndecided(s0, primary.View(), t, Action.Approve, tx.instanceId, tx.approverId, result, OwnSteps(trace, t));
        return;
      }
      ghost var path;
      result, trace, path := SaveDecision(t, row, waits, failure, s0, trace);
      if result == Done(Failed) {
        Stopped(Action.Approve, Failed, OwnSteps(trace, t));
        ConcludedUndecided(s0, primary.View(), t, Action.Approve, tx.instanceId, tx.approverId, result, OwnSteps(trace, t));
      } else {
        WholeApproval(result, Decided(row, Action.Approve), orderId, path);
        ConcludedDecided(s0, primary.View(), t, Action.Approve, tx.instanceId, tx.approverId, result, OwnSteps(trace, t), row);
      }
    }

    /** approve. Whatever runs meanwhile, the call is a run of the transition system in which its
        own steps are a whole approval ending in a commit, or a rollback without one. Undisturbed, it
        commits exactly if it is let through and neither its handler nor a database call fails. */
    method Approve(t: TxId, instanceId: Id, approverId: Id, waits: Waits, failure: Failure)
      returns (result: CallResult, ghost trace: seq<Step>)
      requires Inv(primary.View()) && t !in primary.txs && t !in primary.ended
      modifies primary
      ensures Run(old(primary.View()), trace, primary.View()) && Inv(primary.View())
      ensures Concluded(old(primary.View()), primary.View(), t, Action.Approve, instanceId, approverId, result, OwnSteps(trace, t))
      ensures Undisturbed(waits, failure) ==>
                Decides(old(primary.View()), Action.Approve, instanceId, approverId, failure, result)
    {
      ghost var s0 := primary.View();
      hide Inv, Run, OwnSteps, Primary.View, Concluded, Undisturbed, LetThrough, Decides, Saves, HandlerFails;
      var row;
      row, result, trace := Enter(t, Action.Approve, instanceId, approverId, waits, failure, s0);
      if row.None? {
        return;
      }
      result, trace := Execute(t, row.value, waits, failure, s0, trace);
      if Undisturbed(waits, failure) {
        LetThroughIn(s0, Action.Approve, instanceId, approverId);
        LetThroughDecides(s0, Action.Approve, instanceId, approverId, failure, result);
      }
    }

    /** reject: the same lock and permission, no self-reject restriction, no handler. */
    method Reject(t: TxId, instanceId: Id, approverId: Id, waits: Waits, failure: Failure)
      returns (result: CallResult, ghost trace: seq<Step>)
      requires Inv(primary.View()) && t !in primary.txs && t !in primary.ended
      modifies primary
      ensures Run(old(primary.View()), trace, primary.View()) && Inv(primary.View())
      ensures Concluded(old(primary.View()), primary.View(), t, Action.Reject, instanceId, approverId, result, OwnSteps(trace, t))
      ensures Undisturbed(waits, failure) ==>
                Decides(old(primary.View()), Action.Reject, instanceId, approverId, failure, result)
    {
      ghost var s0 := primary.View();
      hide Inv, Run, OwnSteps, Primary.View, Concluded, Undisturbed, LetThrough, Decides, Saves, HandlerFails;
      var row;
      row, result, trace := Enter(t, Action.Reject, instanceId, approverId, waits, failure, s0);
      if row.None? {
        return;
      }
      result, trace := Refuse(t, row.value, waits, failure, s0, trace);
      if Undisturbed(waits, failure) {
        LetThroughIn(s0, Action.Reject, instanceId, approverId);
        LetThroughDecides(s0, Action.Reject, instanceId, approverId, failure, result);
      }
    }

    // The decision of a rejection.
    method Refuse(t: TxId, row: Instance, waits: Waits, failure: Failure, ghost s0: State, ghost before: seq<Step>)
      returns (result: CallResult, ghost trace: seq<Step>)
      requires Run(s0, before, primary.View()) && Inv(primary.View()) && t in primary.txs
      requires primary.txs[t].stage.Permitted? && primary.txs[t].stage.row == row
      requires primary.txs[t].action == Action.Reject && OwnSteps(before, t) == CHECKS
      requires primary.txs[t].instanceId in s0.db.instances ==> row == s0.db.instances[primary.txs[t].instanceId]
      modifies primary
      ensures Run(s0, trace, primary.View()) && Inv(primary.View())
      ensures Saves(Action.Reject, old(primary.registry), row, failure, result)
      ensures Concluded(s0, primary.View(), t, Action.Reject, old(primary.txs[t]).instanceId, old(primary.txs[t]).approverId,
                        result, OwnSteps(trace, t))
    {
      hide Inv, Run, OwnSteps, PathOf, EndedAs, Decided, OnRecord, Concluded;
      ghost var tx := primary.txs[t];
      ghost var path;
      result, trace, path := SaveDecision(t, row, waits, failure, s0, before);
      if result == Done(Failed) {
        Stopped(Action.Reject, Failed, OwnSteps(trace, t));
        ConcludedUndecided(s0, primary.View(), t, Action.Reject, tx.instanceId, tx.approverId, result, OwnSteps(trace, t));
      } else {
        WholeRejection(result, Decided(row, Action.Reject), path);
        ConcludedDecided(s0, primary.View(), t, Action.Reject, tx.instanceId, tx.approverId, result, OwnSteps(trace, t), row);
      }
    }
  }

  class PurchaseOrdersService {
    const workflowService: WorkflowService

    constructor (workflowService: WorkflowService)
      ensures this.workflowService == workflowService
    {
      this.workflowService := workflowService;
    }

    // Registers the handler that inserts the order.
    method OnModuleInit()
      modifies workflowService.primary`registry
      ensures ModulesKeepApart(old(workflowService.primary.registry)) ==>
                ModulesKeepApart(workflowService.primary.registry)
      ensures PURCHASE_ORDER in workflowService.primary.registry
    {
      workflowService.RegisterHandler(PURCHASE_ORDER, APPROVE_PERMISSION, InsertOrder);
    }

    /** requestCreate: vendors gives each vendor's tenant. A vendor that is unknown or another
        tenant's refuses the request before the workflow is touched. */
    method RequestCreate(id: Id, dto: Dto, tenantId: Id, requestedBy: Id, vendors: map<Id, Id>)
      returns (result: CreateResult)
      requires Inv(workflowService.primary.View()) && id !in workflowService.primary.db.instances
      modifies workflowService.primary`db, workflowService.primary`log
      ensures Inv(workflowService.primary.View())
      ensures !result.Refused? <==>
                && dto.vendorId in vendors && vendors[dto.vendorId] == tenantId
                && PURCHASE_ORDER in workflowService.primary.registry
      ensures result.Created? <==> !result.Refused? && ClientFree(old(workflowService.primary.View()))
      ensures !result.Created? ==> workflowService.primary.View() == old(workflowService.primary.View())
      ensures result.Created? ==>
                && result.instance == Instance(tenantId, PURCHASE_ORDER, Pending, Order(dto), requestedBy, false)
                && workflowService.primary.db.instances == old(workflowService.primary.db.instances)[id := result.instance]
                && workflowService.primary.View()
                  == Apply(old(workflowService.primary.View()),
                           CreateInstance(id, PURCHASE_ORDER, Order(dto), tenantId, requestedBy))
    {
      if dto.vendorId !in vendors || vendors[dto.vendorId] != tenantId {
        return Refused;
      }
      result := workflowService.Create(id, PURCHASE_ORDER, Order(dto), tenantId, requestedBy);
    }
  }
}
