/** The three services as the program writes them: straight-line code with awaits. Every await
    takes a schedule, the steps the rest of the system takes meanwhile; a step that is not
    enabled when its turn comes is skipped, so a schedule stands for any interleaving. */
module PipelineServices {
  import opened Collections
  import opened QuorumQueue
  import opened Pipeline
  import opened PipelineFrames
  import opened PipelineInvariant
  import opened PipelineWitnesses

  /** The primary's tables, the broker, and the attempts and calls in flight, shared by all
      processes. */
  class Cluster {
    var tasks: map<Id, string>
    var processed: map<Id, string>
    var calls: map<nat, Call>
    var minted: map<Id, Id>
    var outbox: set<Buffered>
    var topology: Topology
    var channels: map<Chan, Channel>
    var used: set<Chan>
    var frames: map<Tag, Frame>
    var queue: Queue
    var attempts: map<Tag, Attempt>
    var effects: map<Id, nat>

    function View(): State
      reads this
    {
      State(tasks, processed, calls, minted, outbox, topology, channels, used, frames, queue, attempts, effects)
    }

    constructor (limit: nat)
      ensures View() == Initial(limit)
    {
      tasks, processed, calls, minted, outbox := map[], map[], map[], map[], {};
      topology := Topology(false, false, false, false, false, false);
      channels, used, frames, queue := map[], {}, map[], Empty(limit);
      attempts, effects := map[], map[];
    }

    // One step of the rest of the system.
    method Perform(step: Step)
      requires Enabled(View(), step)
      modifies this
      ensures View() == Apply(old(View()), step)
    {
      hide Enabled, Apply;
      var s := Apply(View(), step);
      tasks, processed, calls, minted, outbox := s.tasks, s.processed, s.calls, s.minted, s.outbox;
      topology, channels, used, frames := s.topology, s.channels, s.used, s.frames;
      queue, attempts, effects := s.queue, s.attempts, s.effects;
    }
  }

  predicate Own(step: Step, t: Tag) {
    step.OfHandler? && step.tag == t
  }

  predicate OwnCall(step: Step, c: nat) {
    step.OfCall? && step.call == c
  }

  // The rest of the system leaves an attempt alone, except that its process may die.
  lemma OthersLeaveAttempt(s: State, step: Step, t: Tag)
    requires Inv(s) && Enabled(s, step) && !Own(step, t) && t in s.attempts
    ensures (var s' := Apply(s, step);
             t in s'.attempts && (s'.attempts[t] == s.attempts[t] || s'.attempts[t] == Orphaned(s.attempts[t])))
  {
    hide Inv, ApplyCall, ApplyWire, ApplyLink, ApplyBroker, ApplyHandler, Orphaned;
    match step
    case OfCall(c, k) => CallFrame(s, c, k);
    case OfWire(w) => WireFrame(s, w);
    case OfLink(l) => OthersLink(s, l, t);
    case OfBroker(b) => OthersBroker(s, b, t);
    case OfHandler(u, h) => HandlerFrame(s, u, h);
  }

  lemma OthersLink(s: State, step: LinkStep, t: Tag)
    requires LinkEnabled(s, step) && t in s.attempts
    ensures (var s' := ApplyLink(s, step);
             t in s'.attempts && (s'.attempts[t] == s.attempts[t] || s'.attempts[t] == Orphaned(s.attempts[t])))
  {
  }

  lemma OthersBroker(s: State, step: BrokerStep, t: Tag)
    requires Inv(s) && BrokerEnabled(s, step) && t in s.attempts
    ensures (var s' := ApplyBroker(s, step); t in s'.attempts && s'.attempts[t] == s.attempts[t])
  {
    if step.Push? {
      PushedLinked(s, step.chan, step.mid);
    }
  }

  lemma OthersLeaveCall(s: State, step: Step, c: nat)
    requires Enabled(s, step) && !OwnCall(step, c) && c in s.calls
    ensures (var s' := Apply(s, step);
             c in s'.calls && (s'.calls[c] == s.calls[c] || s'.calls[c] == Bereaved(s.calls[c])))
  {
    hide ApplyCall, ApplyWire, ApplyLink, ApplyBroker, ApplyHandler, Bereaved;
    match step
    case OfCall(d, k) => CallLeavesOthers(s, d, k, c);
    case OfWire(w) => WireFrame(s, w);
    case OfLink(l) => LinkLeavesCall(s, l, c);
    case OfBroker(b) => BrokerFrame(s, b);
    case OfHandler(t, h) => HandlerFrame(s, t, h);
  }

  lemma LinkLeavesCall(s: State, step: LinkStep, c: nat)
    requires LinkEnabled(s, step) && c in s.calls
    ensures (var s' := ApplyLink(s, step);
             c in s'.calls && (s'.calls[c] == s.calls[c] || s'.calls[c] == Bereaved(s.calls[c])))
  {
    hide Return, Bereaved;
  }

  // The segments of attempt t among the steps of a run, in order.
  function OwnSegments(steps: seq<Step>, t: Tag): seq<HandlerStep> {
    if steps == [] then []
    else (if Own(steps[0], t) then [steps[0].handlerStep] else []) + OwnSegments(steps[1..], t)
  }

  lemma {:induction false} OwnSegmentsJoin(a: seq<Step>, b: seq<Step>, t: Tag)
    ensures OwnSegments(a + b, t) == OwnSegments(a, t) + OwnSegments(b, t)
    decreases |a|
  {
    if a == [] {
      assert a + b == b;
    } else {
      OwnSegmentsJoin(a[1..], b, t);
      assert (a + b)[1..] == a[1..] + b;
    }
  }

  /** What became of one attempt of handleMessage. */
  datatype Handling =
    | Dropped      // unparseable, nacked without requeue
    | Skipped      // already recorded, acked
    | Recorded     // effect run, row committed, acked
    | Retried      // effect or save failed, nacked with requeue
    | LeftUnacked  // findOne rejected outside the try
    | Killed       // the process died at an await

  datatype SaveReply = Committed | RejectedAfterCommit | RejectedBeforeCommit

  const WHOLE := [Start, FindResolves, RunEffect, CommitRow, SaveResolves]

  // The segments an attempt goes through, for each thing that can become of it.
  predicate PathOf(handling: Handling, path: seq<HandlerStep>) {
    match handling
    case Dropped => path == [Start]
    case Skipped => path == [Start, FindResolves]
    case Recorded => path == WHOLE
    case Retried =>
      || path == [Start, FindResolves, EffectThrows]
      || path == [Start, FindResolves, RunEffect, SaveRejects]
      || path == [Start, FindResolves, RunEffect, CommitRow, SaveRejects]
    case LeftUnacked => path == [Start, FindRejects]
    case Killed => 0 < |path| < |WHOLE| && path == WHOLE[..|path|]
  }

  // What was sent on the attempt's channel, if that is still open, and that nothing was sent
  // where the code sends nothing.
  predicate Answered(s: State, t: Tag, handling: Handling) {
    match handling
    case Dropped => t.chan in s.channels ==> t in s.frames && s.frames[t] == NackDrop
    case Skipped => t.chan in s.channels ==> t in s.frames && s.frames[t] == Ack
    case Recorded => t.chan in s.channels ==> t in s.frames && s.frames[t] == Ack
    case Retried => t.chan in s.channels ==> t in s.frames && s.frames[t] == NackRequeue
    case LeftUnacked => t !in s.frames
    case Killed => t !in s.frames
  }

  // An attempt fails only for the reason the code names, and gets through only without one.
  predicate Explained(handling: Handling, findRejects: bool, effectThrows: bool, reply: SaveReply) {
    match handling
    case Dropped => false
    case Skipped => !findRejects
    case Recorded => !findRejects && !effectThrows && reply.Committed?
    case Retried => !findRejects && (effectThrows || !reply.Committed?)
    case LeftUnacked => findRejects
    case Killed => true
  }

  // An attempt that is not finished has no answer in flight.
  lemma NoAnswerYet(s: State, t: Tag)
    requires Inv(s) && t in s.attempts && !s.attempts[t].pc.Finished?
    ensures t !in s.frames
  {
    hide QuorumQueue.Valid, TagsIssued, Held, Faithful, Wired, RowsBacked, FramesFit, AckedRecorded,
      DeadExplained, MintedFits, OutboxGenuine, BodiesGenuine, RowsGenuine, CallsFit;
  }

  lemma EmptyRun(s: State, t: Tag)
    ensures Run(s, [], s) && OwnSegments([], t) == []
  {
  }

  // JSON.parse: what cannot be parsed is nacked at once, anything else goes on to the check.
  lemma StartDecides(s: State, t: Tag)
    requires t in s.attempts && s.attempts[t].pc.Delivered?
    ensures HandlerEnabled(s, t, Start)
    ensures s.attempts[t].body.Unparseable? ==>
              ApplyHandler(s, t, Start)
              == s.(attempts := s.attempts[t := s.attempts[t].(pc := Finished)], frames := Sent(s, t, Some(NackDrop)))
    ensures s.attempts[t].body.Event? ==>
              ApplyHandler(s, t, Start)
              == s.(attempts := s.attempts[t := s.attempts[t].(pc := Checking(s.attempts[t].body.payload))])
  {
  }

  lemma KilledPath(path: seq<HandlerStep>)
    requires path == [Start, FindResolves, RunEffect, CommitRow]
    ensures PathOf(Killed, path)
  {
  }

  lemma OneMoreStep(trace: seq<Step>, step: Step, t: Tag)
    ensures OwnSegments(trace + [step], t)
         == OwnSegments(trace, t) + if Own(step, t) then [step.handlerStep] else []
  {
    OwnSegmentsJoin(trace, [step], t);
    assert [step][1..] == [];
  }

  // What one more segment of the attempt does to the run so far.
  lemma SegmentTaken(s0: State, trace: seq<Step>, s: State, t: Tag, step: HandlerStep)
    requires Run(s0, trace, s) && Inv(s) && HandlerEnabled(s, t, step)
    ensures Run(s0, trace + [OfHandler(t, step)], ApplyHandler(s, t, step)) && Inv(ApplyHandler(s, t, step))
    ensures OwnSegments(trace + [OfHandler(t, step)], t) == OwnSegments(trace, t) + [step]
  {
    hide Inv, Run, ApplyHandler, OwnSegments;
    RunExtends(s0, trace, s, OfHandler(t, step));
    HandlerInv(s, t, step);
    OneMoreStep(trace, OfHandler(t, step), t);
  }

  class QueueConsumerService {
    const cluster: Cluster

    constructor (cluster: Cluster)
      ensures this.cluster == cluster
    {
      this.cluster := cluster;
    }

    // The rest of the system runs while attempt tag waits; alive says whether it resumes.
    method Await(tag: Tag, schedule: seq<Step>, ghost s0: State, ghost before: seq<Step>)
      returns (alive: bool, ghost trace: seq<Step>)
      requires Run(s0, before, cluster.View()) && Inv(cluster.View())
      requires tag in cluster.attempts
      requires !cluster.attempts[tag].pc.Finished? && !cluster.attempts[tag].pc.Abandoned?
      modifies cluster
      ensures Run(s0, trace, cluster.View()) && Inv(cluster.View())
      ensures OwnSegments(trace, tag) == OwnSegments(before, tag)
      ensures tag in cluster.attempts
      ensures alive ==> cluster.attempts[tag] == old(cluster.attempts[tag])
      ensures !alive ==> cluster.attempts[tag] == old(cluster.attempts[tag]).(pc := Abandoned)
      ensures schedule == [] ==> alive && cluster.View() == old(cluster.View())
    {
      trace := before;
      ghost var a := cluster.attempts[tag];
      hide Inv, Run, Enabled, Apply, OwnSegments, Cluster.View;
      for i := 0 to |schedule|
        invariant Run(s0, trace, cluster.View()) && Inv(cluster.View())
        invariant OwnSegments(trace, tag) == OwnSegments(before, tag)
        invariant tag in cluster.attempts
        invariant cluster.attempts[tag] == a || cluster.attempts[tag] == Orphaned(a)
        invariant i == 0 ==> cluster.View() == old(cluster.View())
      {
        var step := schedule[i];
        if Enabled(cluster.View(), step) && !Own(step, tag) {
          OthersLeaveAttempt(cluster.View(), step, tag);
          RunExtends(s0, trace, cluster.View(), step);
          OneMoreStep(trace, step, tag);
          InvStep(cluster.View(), step);
          cluster.Perform(step);
          trace := trace + [step];
        }
      }
      alive := !cluster.attempts[tag].pc.Abandoned?;
    }

    // channel.ack and channel.nack, on the channel the message came from.
    method Answer(tag: Tag, frame: Frame)
      requires tag in cluster.attempts
      modifies cluster`frames, cluster`attempts
      ensures cluster.attempts == old(cluster.attempts)[tag := old(cluster.attempts[tag]).(pc := Finished)]
      ensures cluster.frames == Sent(old(cluster.View()), tag, Some(frame))
      ensures tag.chan in cluster.channels ==> tag in cluster.frames && cluster.frames[tag] == frame
    {
      if tag.chan in cluster.channels {
        cluster.frames := cluster.frames[tag := frame];
      }
      cluster.attempts := cluster.attempts[tag := cluster.attempts[tag].(pc := Finished)];
    }

    method Advance(tag: Tag, pc: Pc)
      requires tag in cluster.attempts
      modifies cluster`attempts
      ensures cluster.attempts == old(cluster.attempts)[tag := old(cluster.attempts[tag]).(pc := pc)]
    {
      cluster.attempts := cluster.attempts[tag := cluster.attempts[tag].(pc := pc)];
    }

    method FindOne(eventId: Id) returns (row: Option<string>)
      ensures row.Some? <==> eventId in cluster.processed
      ensures row.Some? ==> row.value == cluster.processed[eventId]
    {
      row := if eventId in cluster.processed then Some(cluster.processed[eventId]) else None;
    }

    /** handleMessage. Whatever the schedules, the whole call is a
        run of the transition system in which the attempt's own segments are exactly those its
        outcome stands for, so everything proved of runs holds of it. */
    method HandleMessage(tag: Tag, whileFinding: seq<Step>, findRejects: bool, whileWorking: seq<Step>,
                         effectThrows: bool, whileSaving: seq<Step>, reply: SaveReply, whileReplying: seq<Step>)
      returns (handling: Handling, ghost trace: seq<Step>)
      requires Inv(cluster.View()) && tag in cluster.attempts && cluster.attempts[tag].pc.Delivered?
      modifies cluster
      ensures Run(old(cluster.View()), trace, cluster.View()) && Inv(cluster.View())
      ensures PathOf(handling, OwnSegments(trace, tag)) && Answered(cluster.View(), tag, handling)
      ensures handling.Dropped? <==> old(cluster.attempts[tag]).body.Unparseable?
      ensures handling.Skipped? || handling.Recorded? ==>
                PipelineInvariant.Recorded(cluster.processed, old(cluster.attempts[tag]).body)
      ensures !handling.Dropped? ==> Explained(handling, findRejects, effectThrows, reply)
      ensures whileFinding == [] && !handling.Dropped? && !handling.LeftUnacked? && !handling.Killed? ==>
                (handling.Skipped? <==> PipelineInvariant.Recorded(old(cluster.processed), old(cluster.attempts[tag]).body))
      ensures whileFinding == [] && whileWorking == [] && whileSaving == [] && whileReplying == [] ==> !handling.Killed?
    {
      ghost var s0 := cluster.View();
      hide Inv, Run, OwnSegments, Cluster.View;
      var payload;
      payload, trace := Parse(tag, s0);
      if payload.None? {
        handling := Dropped;
      } else {
        handling, trace := Check(tag, payload.value, whileFinding, findRejects, whileWorking, effectThrows,
                                 whileSaving, reply, whileReplying, s0, trace);
      }
    }

    // JSON.parse, and the nack of a message it cannot parse.
    method Parse(tag: Tag, ghost s0: State) returns (payload: Option<Payload>, ghost trace: seq<Step>)
      requires s0 == cluster.View() && Inv(s0) && tag in cluster.attempts && cluster.attempts[tag].pc.Delivered?
      modifies cluster`frames, cluster`attempts
      ensures Run(s0, trace, cluster.View()) && Inv(cluster.View()) && OwnSegments(trace, tag) == [Start]
      ensures payload.None? <==> old(cluster.attempts[tag]).body.Unparseable?
      ensures payload.None? ==> Answered(cluster.View(), tag, Dropped)
      ensures payload.Some? ==>
                && old(cluster.attempts[tag]).body == Event(payload.value)
                && tag in cluster.attempts
                && cluster.attempts[tag] == old(cluster.attempts[tag]).(pc := Checking(payload.value))
    {
      hide Inv, Run, OwnSegments, ApplyHandler, HandlerEnabled, Sent;
      EmptyRun(s0, tag);
      StartDecides(s0, tag);
      SegmentTaken(s0, [], s0, tag, Start);
      trace := [] + [OfHandler(tag, Start)];
      match cluster.attempts[tag].body {
        case Unparseable =>
          Answer(tag, NackDrop);
          payload := None;
        case Event(parsed) =>
          Advance(tag, Checking(parsed));
          payload := Some(parsed);
      }
    }

    // findOne, outside the try, and the skip of an event already processed.
    method Check(tag: Tag, payload: Payload, whileFinding: seq<Step>, findRejects: bool, whileWorking: seq<Step>,
                 effectThrows: bool, whileSaving: seq<Step>, reply: SaveReply, whileReplying: seq<Step>,
                 ghost s0: State, ghost before: seq<Step>)
      returns (handling: Handling, ghost trace: seq<Step>)
      requires Run(s0, before, cluster.View()) && Inv(cluster.View())
      requires OwnSegments(before, tag) == [Start]
      requires tag in cluster.attempts && cluster.attempts[tag].pc == Checking(payload)
      requires cluster.attempts[tag].body == Event(payload)
      modifies cluster
      ensures Run(s0, trace, cluster.View()) && Inv(cluster.View())
      ensures PathOf(handling, OwnSegments(trace, tag)) && !handling.Dropped?
      ensures Answered(cluster.View(), tag, handling)
      ensures handling.Skipped? || handling.Recorded? ==> payload.eventId in cluster.processed
      ensures Explained(handling, findRejects, effectThrows, reply)
      ensures whileFinding == [] && !handling.LeftUnacked? && !handling.Killed? ==>
                (handling.Skipped? <==> payload.eventId in old(cluster.processed))
      ensures whileFinding == [] && whileWorking == [] && whileSaving == [] && whileReplying == [] ==> !handling.Killed?
    {
      hide Inv, Run, OwnSegments;
      var alive;
      alive, trace := Await(tag, whileFinding, s0, before);
      if !alive {
        NoAnswerYet(cluster.View(), tag);
        handling := Killed;
        return;
      }
      if findRejects {
        SegmentTaken(s0, trace, cluster.View(), tag, FindRejects);
        trace := trace + [OfHandler(tag, FindRejects)];
        Advance(tag, Abandoned);
        NoAnswerYet(cluster.View(), tag);
        handling := LeftUnacked;
        return;
      }
      SegmentTaken(s0, trace, cluster.View(), tag, FindResolves);
      trace := trace + [OfHandler(tag, FindResolves)];
      var alreadyProcessed := FindOne(payload.eventId);
      if alreadyProcessed.Some? {
        Answer(tag, Ack);
        handling := Skipped;
        return;
      }
      Advance(tag, Working(payload));
      handling, trace := Process(tag, payload, whileWorking, effectThrows, whileSaving, reply, whileReplying, s0, trace);
    }

    // The catch block: whatever threw, the message is nacked with requeue.
    method Catch(tag: Tag, ghost step: HandlerStep, ghost s0: State, ghost before: seq<Step>) returns (ghost trace: seq<Step>)
      requires Run(s0, before, cluster.View()) && Inv(cluster.View())
      requires HandlerEnabled(cluster.View(), tag, step) && (step.EffectThrows? || step.SaveRejects?)
      modifies cluster`frames, cluster`attempts
      ensures Run(s0, trace, cluster.View()) && Inv(cluster.View())
      ensures OwnSegments(trace, tag) == OwnSegments(before, tag) + [step]
      ensures Answered(cluster.View(), tag, Retried)
    {
      hide Inv, Run, OwnSegments;
      SegmentTaken(s0, before, cluster.View(), tag, step);
      trace := before + [OfHandler(tag, step)];
      Answer(tag, NackRequeue);
    }

    // The try block: the side effect, the save and the ack, or the nack of the catch.
    method Process(tag: Tag, payload: Payload, whileWorking: seq<Step>, effectThrows: bool, whileSaving: seq<Step>,
                   reply: SaveReply, whileReplying: seq<Step>, ghost s0: State, ghost before: seq<Step>)
      returns (handling: Handling, ghost trace: seq<Step>)
      requires Run(s0, before, cluster.View()) && Inv(cluster.View())
      requires OwnSegments(before, tag) == [Start, FindResolves]
      requires tag in cluster.attempts && cluster.attempts[tag].pc == Working(payload)
      requires cluster.attempts[tag].body == Event(payload)
      modifies cluster
      ensures Explained(handling, false, effectThrows, reply)
      ensures whileWorking == [] && whileSaving == [] && whileReplying == [] ==> !handling.Killed?
      ensures Run(s0, trace, cluster.View()) && Inv(cluster.View())
      ensures PathOf(handling, OwnSegments(trace, tag)) && Answered(cluster.View(), tag, handling)
      ensures handling.Retried? || handling.Killed? || (handling.Recorded? && payload.eventId in cluster.processed)
    {
      var alive;
      hide Inv, Run, OwnSegments;
      alive, trace := Await(tag, whileWorking, s0, before);
      if !alive {
        NoAnswerYet(cluster.View(), tag);
        handling := Killed;
        return;
      }
      if effectThrows {
        trace := Catch(tag, EffectThrows, s0, trace);
        handling := Retried;
        return;
      }
      SegmentTaken(s0, trace, cluster.View(), tag, RunEffect);
      trace := trace + [OfHandler(tag, RunEffect)];
      cluster.effects := CountedEffect(cluster.View(), payload.eventId);
      Advance(tag, Saving(payload));
      handling, trace := Save(tag, payload, whileSaving, reply, whileReplying, s0, trace);
    }

    method Save(tag: Tag, payload: Payload, whileSaving: seq<Step>, reply: SaveReply, whileReplying: seq<Step>,
                ghost s0: State, ghost before: seq<Step>)
      returns (handling: Handling, ghost trace: seq<Step>)
      requires Run(s0, before, cluster.View()) && Inv(cluster.View())
      requires OwnSegments(before, tag) == [Start, FindResolves, RunEffect]
      requires tag in cluster.attempts && cluster.attempts[tag].pc == Saving(payload)
      modifies cluster
      ensures Explained(handling, false, false, reply)
      ensures whileSaving == [] && whileReplying == [] ==> !handling.Killed?
      ensures Run(s0, trace, cluster.View()) && Inv(cluster.View())
      ensures PathOf(handling, OwnSegments(trace, tag)) && Answered(cluster.View(), tag, handling)
      ensures handling.Retried? || handling.Killed? || (handling.Recorded? && payload.eventId in cluster.processed)
    {
      var alive;
      hide Inv, Run, OwnSegments;
      alive, trace := Await(tag, whileSaving, s0, before);
      if !alive {
        NoAnswerYet(cluster.View(), tag);
        handling := Killed;
        return;
      }
      if reply.RejectedBeforeCommit? {
        trace := Catch(tag, SaveRejects, s0, trace);
        handling := Retried;
        return;
      }
      SegmentTaken(s0, trace, cluster.View(), tag, CommitRow);
      trace := trace + [OfHandler(tag, CommitRow)];
      cluster.processed := cluster.processed[payload.eventId := payload.eventType];
      Advance(tag, Saved(payload));
      handling, trace := AwaitReply(tag, payload, reply, whileReplying, s0, trace);
    }

    // The row is committed; its reply may still be lost.
    method AwaitReply(tag: Tag, payload: Payload, reply: SaveReply, whileReplying: seq<Step>,
                      ghost s0: State, ghost before: seq<Step>)
      returns (handling: Handling, ghost trace: seq<Step>)
      requires Run(s0, before, cluster.View()) && Inv(cluster.View())
      requires OwnSegments(before, tag) == [Start, FindResolves, RunEffect, CommitRow]
      requires tag in cluster.attempts && cluster.attempts[tag].pc == Saved(payload) && !reply.RejectedBeforeCommit?
      modifies cluster
      ensures Explained(handling, false, false, reply)
      ensures whileReplying == [] ==> !handling.Killed?
      ensures Run(s0, trace, cluster.View()) && Inv(cluster.View())
      ensures PathOf(handling, OwnSegments(trace, tag)) && Answered(cluster.View(), tag, handling)
      ensures handling.Retried? || handling.Killed? || (handling.Recorded? && payload.eventId in cluster.processed)
    {
      hide Inv, Run, OwnSegments, PathOf;
      var alive;
      alive, trace := Await(tag, whileReplying, s0, before);
      if !alive {
        NoAnswerYet(cluster.View(), tag);
        handling := Killed;
        KilledPath(OwnSegments(trace, tag));
        return;
      }
      AttemptFacts(cluster.View(), tag);
      handling, trace := Reply(tag, reply, s0, trace);
    }

    method Reply(tag: Tag, reply: SaveReply, ghost s0: State, ghost before: seq<Step>)
      returns (handling: Handling, ghost trace: seq<Step>)
      requires Run(s0, before, cluster.View()) && Inv(cluster.View())
      requires OwnSegments(before, tag) == [Start, FindResolves, RunEffect, CommitRow]
      requires tag in cluster.attempts && cluster.attempts[tag].pc.Saved?
      modifies cluster`frames, cluster`attempts
      ensures Run(s0, trace, cluster.View()) && Inv(cluster.View())
      ensures PathOf(handling, OwnSegments(trace, tag)) && Answered(cluster.View(), tag, handling)
      ensures if reply.RejectedAfterCommit? then handling.Retried? else handling.Recorded?
    {
      hide Inv, Run, OwnSegments;
      if reply.RejectedAfterCommit? {
        trace := Catch(tag, SaveRejects, s0, before);
        handling := Retried;
      } else {
        SegmentTaken(s0, before, cluster.View(), tag, SaveResolves);
        trace := before + [OfHandler(tag, SaveResolves)];
        Answer(tag, Ack);
        handling := Recorded;
      }
    }
  }
}
