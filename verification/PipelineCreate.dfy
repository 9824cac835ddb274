/** TasksService.create and QueueService.publishTaskCreated, with their awaits. */
module PipelineCreate {
  import opened Collections
  import opened QuorumQueue
  import opened Pipeline
  import opened PipelineInvariant
  import opened PipelineWitnesses
  import opened PipelineSafety
  import opened PipelineServices

  // The steps of call c among the steps of a run, in order.
  function OwnCallSteps(steps: seq<Step>, c: nat): seq<CallStep> {
    if steps == [] then [] else CallPart(steps[0], c) + OwnCallSteps(steps[1..], c)
  }

  function CallPart(step: Step, c: nat): seq<CallStep> {
    if OwnCall(step, c) then [step.callStep] else []
  }

  lemma {:induction false} OwnCallStepsAppend(trace: seq<Step>, step: Step, c: nat)
    ensures OwnCallSteps(trace + [step], c)
         == OwnCallSteps(trace, c) + CallPart(step, c)
    decreases |trace|
  {
    hide CallPart;
    var longer := trace + [step];
    if trace == [] {
      assert longer == [step] && longer[1..] == [];
    } else {
      OwnCallStepsAppend(trace[1..], step, c);
      assert longer[0] == trace[0] && longer[1..] == trace[1..] + [step];
    }
  }

  lemma CallStepTaken(s0: State, trace: seq<Step>, s: State, c: nat, step: CallStep)
    requires Run(s0, trace, s) && Inv(s) && CallEnabled(s, c, step)
    ensures Run(s0, trace + [OfCall(c, step)], ApplyCall(s, c, step)) && Inv(ApplyCall(s, c, step))
    ensures OwnCallSteps(trace + [OfCall(c, step)], c) == OwnCallSteps(trace, c) + [step]
  {
    hide Inv, Run, ApplyCall, CallEnabled, OwnCallSteps;
    RunExtends(s0, trace, s, OfCall(c, step));
    CallInv(s, c, step);
    OwnCallStepsAppend(trace, OfCall(c, step), c);
  }

  datatype InsertReply = Committed | RejectedBeforeCommit | RejectedAfterCommit

  datatype CreateError = InsertRejected | ProcessDied

  datatype PublishEnd = Resolved | Rejected | Dead

  // The steps a finished call took. The publish may throw, be confirmed, fail or time out; the
  // row is inserted exactly once before it, and the caller gets its id.
  predicate CallPath(result: Result<Id, CreateError>, path: seq<CallStep>) {
    match result
    case Ok(id) =>
      || (|path| == 3 && path[0].Begin? && path[1] == CommitTask(id) && path[2].PublishThrows?)
      || (|path| == 4 && path[0].Begin? && path[1] == CommitTask(id) && path[2].StartPublish?
          && path[3].PublishSettles?)
    case Err(InsertRejected) =>
      |path| == 2 && path[0].Begin? && (path[1].InsertRejects? || path[1].CommitThenReject?)
    case Err(ProcessDied) =>
      || (|path| == 1 && path[0].Begin?)
      || (|path| == 2 && path[0].Begin? && path[1].CommitTask?)
      || (|path| == 3 && path[0].Begin? && path[1].CommitTask? && path[2].StartPublish?)
  }

  lemma DiedInserting(process: Process, title: string, path: seq<CallStep>)
    requires path == [Begin(process, title)]
    ensures CallPath(Err(ProcessDied), path)
  {
  }

  lemma NewRow(before: map<Id, string>, after: map<Id, string>, result: Result<Id, CreateError>)
    requires RowsStay(before, after) && (result.Ok? ==> result.value !in after)
    ensures result.Ok? ==> result.value !in before
  {
  }

  predicate PublishPath(end: PublishEnd, throws: bool, path: seq<CallStep>) {
    if throws then end.Rejected? && |path| == 1 && path[0].PublishThrows?
    else
      && |path| == (if end.Dead? then 1 else 2)
      && path[0].StartPublish?
      && (end.Dead? || path[1].PublishSettles?)
  }

  method Await(cluster: Cluster, call: nat, schedule: seq<Step>, ghost s0: State, ghost before: seq<Step>)
    returns (alive: bool, ghost trace: seq<Step>)
    requires Run(s0, before, cluster.View()) && Inv(cluster.View())
    requires call in cluster.calls && !cluster.calls[call].pc.Died?
    modifies cluster
    ensures Run(s0, trace, cluster.View()) && Inv(cluster.View())
    ensures OwnCallSteps(trace, call) == OwnCallSteps(before, call)
    ensures call in cluster.calls
    ensures alive ==> cluster.calls[call] == old(cluster.calls[call])
    ensures !alive ==> cluster.calls[call].pc.Died?
    ensures RowsStay(old(cluster.tasks), cluster.tasks)
    ensures schedule == [] ==> alive && cluster.View() == old(cluster.View())
  {
    trace := before;
    ghost var c0 := cluster.calls[call];
    hide Inv, Run, Enabled, Apply, OwnCallSteps, RowsStay;
    NoRowChanges(cluster.tasks);
    for i := 0 to |schedule|
      invariant Run(s0, trace, cluster.View()) && Inv(cluster.View())
      invariant OwnCallSteps(trace, call) == OwnCallSteps(before, call)
      invariant call in cluster.calls
      invariant cluster.calls[call] == c0 || cluster.calls[call] == Bereaved(c0)
      invariant RowsStay(old(cluster.tasks), cluster.tasks)
      invariant i == 0 ==> cluster.View() == old(cluster.View())
    {
      var step := schedule[i];
      if Enabled(cluster.View(), step) && !OwnCall(step, call) {
        OthersLeaveCall(cluster.View(), step, call);
        StepKeepsRows(cluster.View(), step);
        RowsStayOn(old(cluster.tasks), cluster.tasks, Apply(cluster.View(), step).tasks);
        RunExtends(s0, trace, cluster.View(), step);
        OwnCallStepsAppend(trace, step, call);
        InvStep(cluster.View(), step);
        cluster.Perform(step);
        trace := trace + [step];
      }
    }
    alive := !cluster.calls[call].pc.Died?;
  }

  lemma PublishStarts(s: State, c: nat, taskId: Id, eventId: Id)
    requires c in s.calls && s.calls[c].pc == Inserted(taskId) && eventId !in s.minted
    ensures CallEnabled(s, c, StartPublish(eventId))
    ensures (var payload := Payload(eventId, EVENT_TYPE, taskId);
             ApplyCall(s, c, StartPublish(eventId))
             == s.(calls := s.calls[c := s.calls[c].(pc := Publishing(taskId, payload))],
                   minted := s.minted[eventId := taskId],
                   outbox := s.outbox + {Buffered(s.calls[c].process, payload)}))
  {
  }

  lemma PublishFailsAtOnce(s: State, c: nat, taskId: Id, eventId: Id)
    requires c in s.calls && s.calls[c].pc == Inserted(taskId) && eventId !in s.minted
    ensures CallEnabled(s, c, PublishThrows(eventId))
    ensures ApplyCall(s, c, PublishThrows(eventId))
         == s.(calls := s.calls[c := s.calls[c].(pc := Returned(taskId))], minted := s.minted[eventId := taskId])
  {
  }

  method RandomUuid(minted: map<Id, Id>) returns (eventId: Id)
    ensures eventId !in minted
  {
    ghost var bound := FreshExists(minted.Keys);
    assert bound !in minted;
    eventId :| eventId !in minted;
  }

  class QueueService {
    const cluster: Cluster

    constructor (cluster: Cluster)
      ensures this.cluster == cluster
    {
      this.cluster := cluster;
    }

    /** publishTaskCreated: a fresh event id, a publish that may throw, and a race between the
        publish and a timeout. After a timeout the payload may still sit in the buffer, to be
        sent later by the rest of the system. */
    method PublishTaskCreated(call: nat, taskId: Id, throws: bool, whilePublishing: seq<Step>, outcome: Outcome,
                              ghost s0: State, ghost before: seq<Step>)
      returns (end: PublishEnd, ghost trace: seq<Step>, ghost path: seq<CallStep>)
      requires Run(s0, before, cluster.View()) && Inv(cluster.View())
      requires call in cluster.calls && cluster.calls[call].pc == Inserted(taskId)
      modifies cluster
      ensures Run(s0, trace, cluster.View()) && Inv(cluster.View())
      ensures end.Dead? || (call in cluster.calls && cluster.calls[call].pc == Returned(taskId))
      ensures OwnCallSteps(trace, call) == OwnCallSteps(before, call) + path
      ensures PublishPath(end, throws, path)
      ensures end.Resolved? ==> path[1] == PublishSettles(Confirmed)
      ensures RowsStay(old(cluster.tasks), cluster.tasks)
      ensures whilePublishing == [] ==> !end.Dead?
    {
      hide Inv, Run, OwnCallSteps, RowsStay;
      NoRowChanges(cluster.tasks);
      if throws {
        ghost var eventId;
        trace, eventId := Throw(call, taskId, s0, before);
        end, path := Rejected, [PublishThrows(eventId)];
      } else {
        var payload;
        payload, trace := Buffer(call, taskId, s0, before);
        end, trace, path := Race(call, taskId, payload, whilePublishing, outcome, s0, trace);
        path := [StartPublish(payload.eventId)] + path;
      }
    }

    // randomUUID, and channelWrapper.publish putting the payload into its buffer.
    method Buffer(call: nat, taskId: Id, ghost s0: State, ghost before: seq<Step>)
      returns (payload: Payload, ghost trace: seq<Step>)
      requires Run(s0, before, cluster.View()) && Inv(cluster.View())
      requires call in cluster.calls && cluster.calls[call].pc == Inserted(taskId)
      modifies cluster`minted, cluster`outbox, cluster`calls
      ensures Run(s0, trace, cluster.View()) && Inv(cluster.View())
      ensures payload.taskId == taskId && payload.eventId !in old(cluster.minted)
      ensures call in cluster.calls && cluster.calls[call].pc == Publishing(taskId, payload)
      ensures Buffered(old(cluster.calls[call]).process, payload) in cluster.outbox
      ensures OwnCallSteps(trace, call) == OwnCallSteps(before, call) + [StartPublish(payload.eventId)]
    {
      var eventId := RandomUuid(cluster.minted);
      hide Inv, Run, OwnCallSteps, ApplyCall, CallEnabled;
      PublishStarts(cluster.View(), call, taskId, eventId);
      CallStepTaken(s0, before, cluster.View(), call, StartPublish(eventId));
      trace := before + [OfCall(call, StartPublish(eventId))];
      var c := cluster.calls[call];
      payload := Payload(eventId, EVENT_TYPE, taskId);
      cluster.minted := cluster.minted[eventId := taskId];
      cluster.outbox := cluster.outbox + {Buffered(c.process, payload)};
      cluster.calls := cluster.calls[call := c.(pc := Publishing(taskId, payload))];
    }

    // channelWrapper.publish throws at once.
    method Throw(call: nat, taskId: Id, ghost s0: State, ghost before: seq<Step>)
      returns (ghost trace: seq<Step>, ghost eventId: Id)
      requires Run(s0, before, cluster.View()) && Inv(cluster.View())
      requires call in cluster.calls && cluster.calls[call].pc == Inserted(taskId)
      modifies cluster`minted, cluster`calls
      ensures Run(s0, trace, cluster.View()) && Inv(cluster.View())
      ensures call in cluster.calls && cluster.calls[call].pc == Returned(taskId)
      ensures OwnCallSteps(trace, call) == OwnCallSteps(before, call) + [PublishThrows(eventId)]
    {
      var unused := RandomUuid(cluster.minted);
      hide Inv, Run, OwnCallSteps, ApplyCall, CallEnabled;
      PublishFailsAtOnce(cluster.View(), call, taskId, unused);
      CallStepTaken(s0, before, cluster.View(), call, PublishThrows(unused));
      eventId, trace := unused, before + [OfCall(call, PublishThrows(unused))];
      cluster.minted := cluster.minted[unused := taskId];
      cluster.calls := cluster.calls[call := cluster.calls[call].(pc := Returned(taskId))];
    }

    method Race(call: nat, taskId: Id, payload: Payload, whilePublishing: seq<Step>, outcome: Outcome,
                ghost s0: State, ghost before: seq<Step>)
      returns (end: PublishEnd, ghost trace: seq<Step>, ghost path: seq<CallStep>)
      requires Run(s0, before, cluster.View()) && Inv(cluster.View())
      requires call in cluster.calls && cluster.calls[call].pc == Publishing(taskId, payload)
      modifies cluster
      ensures Run(s0, trace, cluster.View()) && Inv(cluster.View())
      ensures end.Dead? || (call in cluster.calls && cluster.calls[call].pc == Returned(taskId))
      ensures OwnCallSteps(trace, call) == OwnCallSteps(before, call) + path
      ensures if end.Dead? then path == [] else |path| == 1 && path[0].PublishSettles?
      ensures end.Resolved? <==> path == [PublishSettles(Confirmed)]
      ensures RowsStay(old(cluster.tasks), cluster.tasks)
      ensures whilePublishing == [] ==> !end.Dead?
    {
      hide RowsStay;
      var alive;
      hide Inv, Run, OwnCallSteps;
      alive, trace := Await(cluster, call, whilePublishing, s0, before);
      if !alive {
        end, path := Dead, [];
        return;
      }
      var c := cluster.calls[call];
      var first := if outcome.Confirmed? && Buffered(c.process, payload) in cluster.outbox then TimedOut else outcome;
      CallStepTaken(s0, trace, cluster.View(), call, PublishSettles(first));
      trace := trace + [OfCall(call, PublishSettles(first))];
      cluster.calls := cluster.calls[call := c.(pc := Returned(taskId))];
      end, path := if first.Confirmed? then Resolved else Rejected, [PublishSettles(first)];
    }
  }

  class TasksService {
    const cluster: Cluster
    const queueService: QueueService

    constructor (cluster: Cluster, queueService: QueueService)
      ensures this.cluster == cluster && this.queueService == queueService
    {
      this.cluster := cluster;
      this.queueService := queueService;
    }

    /** create: the save decides the result; the publish only adds its own steps. The process may
        die before the row is committed, between the commit and its reply, or while publishing. */
    method Create(call: nat, process: Process, title: string, whileInserting: seq<Step>, insert: InsertReply,
                  whileReplying: seq<Step>, publishThrows: bool, whilePublishing: seq<Step>, outcome: Outcome)
      returns (result: Result<Id, CreateError>, ghost trace: seq<Step>)
      requires queueService.cluster == cluster
      requires Inv(cluster.View()) && call !in cluster.calls
      modifies cluster
      ensures Run(old(cluster.View()), trace, cluster.View()) && Inv(cluster.View())
      ensures CallPath(result, OwnCallSteps(trace, call))
      ensures insert.Committed? ==> result != Err(InsertRejected)
      ensures !insert.Committed? ==> result.Err?
      ensures result.Ok? ==> call in cluster.calls && cluster.calls[call].pc == Returned(result.value)
      ensures result.Ok? ==> result.value in cluster.tasks && cluster.tasks[result.value] == title
      ensures result.Ok? ==> result.value !in old(cluster.tasks)
      ensures RowsStay(old(cluster.tasks), cluster.tasks)
      ensures whileInserting == [] && whileReplying == [] && whilePublishing == [] ==> result != Err(ProcessDied)
    {
      ghost var s0 := cluster.View();
      hide Inv, Run, OwnCallSteps, Cluster.View, RowsStay, CallPath;
      trace := Start(call, process, title, s0);

      var alive;
      alive, trace := Await(cluster, call, whileInserting, s0, trace);
      if !alive {
        DiedInserting(process, title, OwnCallSteps(trace, call));
        result := Err(ProcessDied);
        return;
      }
      ghost var tasks := cluster.tasks;
      result, trace :=
        SaveAndPublish(call, process, title, insert, whileReplying, publishThrows, whilePublishing, outcome, s0, trace);
      RowsStayOn(s0.tasks, tasks, cluster.tasks);
      NewRow(s0.tasks, tasks, result);
    }

    method SaveAndPublish(call: nat, process: Process, title: string, insert: InsertReply,
                          whileReplying: seq<Step>, publishThrows: bool, whilePublishing: seq<Step>, outcome: Outcome,
                          ghost s0: State, ghost before: seq<Step>)
      returns (result: Result<Id, CreateError>, ghost trace: seq<Step>)
      requires queueService.cluster == cluster
      requires Run(s0, before, cluster.View()) && Inv(cluster.View())
      requires OwnCallSteps(before, call) == [Begin(process, title)]
      requires call in cluster.calls && cluster.calls[call] == Call(process, title, Inserting)
      modifies cluster
      ensures Run(s0, trace, cluster.View()) && Inv(cluster.View())
      ensures CallPath(result, OwnCallSteps(trace, call))
      ensures insert.Committed? <==> result != Err(InsertRejected)
      ensures result.Ok? ==> call in cluster.calls && cluster.calls[call].pc == Returned(result.value)
      ensures result.Ok? ==> result.value in cluster.tasks && cluster.tasks[result.value] == title
      ensures result.Ok? ==> result.value !in old(cluster.tasks)
      ensures RowsStay(old(cluster.tasks), cluster.tasks)
      ensures whileReplying == [] && whilePublishing == [] ==> result != Err(ProcessDied)
    {
      hide Inv, Run, OwnCallSteps, Cluster.View;
      var saved;
      ghost var step, path;
      saved, trace, step := Save(call, title, insert, s0, before);
      if saved.None? {
        result := Err(InsertRejected);
        assert OwnCallSteps(trace, call) == [Begin(process, title), step];
        return;
      }

      var alive;
      alive, trace := Await(cluster, call, whileReplying, s0, trace);
      if !alive {
        result := Err(ProcessDied);
        assert OwnCallSteps(trace, call) == [Begin(process, title), step];
        return;
      }

      // A failed publish is logged, not thrown.
      var end;
      end, trace, path :=
        queueService.PublishTaskCreated(call, saved.value, publishThrows, whilePublishing, outcome, s0, trace);
      result := if end.Dead? then Err(ProcessDied) else Ok(saved.value);
      assert OwnCallSteps(trace, call) == [Begin(process, title), step] + path;
    }

    method Start(call: nat, process: Process, title: string, ghost s0: State) returns (ghost trace: seq<Step>)
      requires cluster.View() == s0 && Inv(s0) && call !in cluster.calls
      modifies cluster`calls
      ensures Run(s0, trace, cluster.View()) && Inv(cluster.View())
      ensures OwnCallSteps(trace, call) == [Begin(process, title)]
      ensures call in cluster.calls && cluster.calls[call] == Call(process, title, Inserting)
    {
      assert Run(s0, [], s0) && OwnCallSteps([], call) == [];
      hide Inv, Run, OwnCallSteps;
      CallStepTaken(s0, [], s0, call, Begin(process, title));
      trace := [] + [OfCall(call, Begin(process, title))];
      cluster.calls := cluster.calls[call := Call(process, title, Inserting)];
    }

    // writeRepo.save: None when it rejects, whether or not the row was committed.
    method Save(call: nat, title: string, insert: InsertReply, ghost s0: State, ghost before: seq<Step>)
      returns (saved: Option<Id>, ghost trace: seq<Step>, ghost step: CallStep)
      requires Run(s0, before, cluster.View()) && Inv(cluster.View())
      requires call in cluster.calls && cluster.calls[call].pc.Inserting? && cluster.calls[call].title == title
      modifies cluster`tasks, cluster`calls
      ensures Run(s0, trace, cluster.View()) && Inv(cluster.View())
      ensures saved.Some? <==> insert.Committed?
      ensures OwnCallSteps(trace, call) == OwnCallSteps(before, call) + [step]
      ensures saved.Some? ==>
                call in cluster.calls && cluster.calls[call].pc == Inserted(saved.value)
                && step == CommitTask(saved.value)
      ensures saved.None? ==> step.InsertRejects? || step.CommitThenReject?
      ensures saved.Some? ==> saved.value !in old(cluster.tasks) && cluster.tasks == old(cluster.tasks)[saved.value := title]
      ensures insert.RejectedBeforeCommit? ==> cluster.tasks == old(cluster.tasks)
      ensures insert.RejectedAfterCommit? ==>
                exists id: Id :: id !in old(cluster.tasks) && cluster.tasks == old(cluster.tasks)[id := title]
      ensures RowsStay(old(cluster.tasks), cluster.tasks)
    {
      hide Inv, Run, OwnCallSteps;
      var c := cluster.calls[call];
      ghost var bound := FreshExists(cluster.tasks.Keys);
      assert bound !in cluster.tasks;
      var id :| id !in cluster.tasks;
      match insert {
        case RejectedBeforeCommit =>
          step, saved := InsertRejects, None;
        case RejectedAfterCommit =>
          step, saved := CommitThenReject(id), None;
        case Committed =>
          step, saved := CommitTask(id), Some(id);
      }
      CallStepTaken(s0, before, cluster.View(), call, step);
      trace := before + [OfCall(call, step)];
      if !insert.RejectedBeforeCommit? {
        cluster.tasks := cluster.tasks[id := title];
      }
      cluster.calls := cluster.calls[call := c.(pc := if insert.Committed? then Inserted(id) else Threw)];
    }
  }
}
