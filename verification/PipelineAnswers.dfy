/** What becomes of a message whose event is already recorded: the attempt acknowledges it and
    nothing else, however the rest of the system interleaves. */
module PipelineAnswers {
  import opened QuorumQueue
  import opened Pipeline
  import opened PipelineFrames
  import opened PipelineInvariant
  import opened PipelineSafety

  // Attempt t is at a recorded event. It never gets past its check, the only answer it has in
  // flight is an ack, and its message leaves the outstanding ones only as acknowledged.
  ghost predicate Acking(s: State, t: Tag, m: Mid) {
    && t in s.attempts && s.attempts[t].mid == m && Recorded(s.processed, s.attempts[t].body)
    && (s.attempts[t].pc.Delivered? || s.attempts[t].pc.Checking? || s.attempts[t].pc.Abandoned? || s.attempts[t].pc.Finished?)
    && (s.attempts[t].pc.Finished? && t in s.queue.unacked ==> t in s.frames && s.frames[t] == Ack)
    && (t in s.queue.unacked ==> s.queue.unacked[t] == m)
    && (t !in s.queue.unacked ==> m in s.queue.acked)
  }

  lemma AckingStarts(s: State, t: Tag)
    requires Inv(s) && t in s.attempts && Recorded(s.processed, s.attempts[t].body)
    requires (s.attempts[t].pc.Delivered? || s.attempts[t].pc.Checking?) && t.chan in s.channels
    ensures Acking(s, t, s.attempts[t].mid)
  {
    hide QuorumQueue.Valid, TagsIssued, Answering, Faithful, Wired, RowsBacked, FramesFit, AckedRecorded,
      DeadExplained, MintedFits, OutboxGenuine, BodiesGenuine, RowsGenuine, CallsFit;
  }

  lemma AckingOnLink(s: State, step: LinkStep, t: Tag, m: Mid)
    requires LinkEnabled(s, step) && Acking(s, t, m) && t.chan in ApplyLink(s, step).channels
    ensures Acking(ApplyLink(s, step), t, m)
  {
    if step.Lose? {
      ReturnLeaves(s.queue, HeldOn(s, {step.chan}), s.topology.dlqBound, t);
    } else if step.Crash? {
      ReturnLeaves(s.queue, HeldOn(s, ChannelsOf(s, step.process)), s.topology.dlqBound, t);
    }
    hide Return;
  }

  lemma ReturnLeaves(q: Queue, tags: set<Tag>, bound: bool, t: Tag)
    requires tags <= q.unacked.Keys && t !in tags
    ensures (var q' := Return(q, tags, bound);
             && q'.acked == q.acked && (t in q'.unacked <==> t in q.unacked)
             && (t in q.unacked ==> q'.unacked[t] == q.unacked[t]))
  {
  }

  lemma AckingOnBroker(s: State, step: BrokerStep, t: Tag, m: Mid)
    requires Inv(s) && BrokerEnabled(s, step) && Acking(s, t, m)
    ensures Acking(ApplyBroker(s, step), t, m)
  {
    hide Inv, Acking, Pushed, Settled;
    match step
    case Push(c, n) => AckingOnPush(s, c, n, t, m);
    case Settle(u) => AckingOnSettle(s, u, t, m);
  }

  lemma AckingOnPush(s: State, c: Chan, n: Mid, t: Tag, m: Mid)
    requires Inv(s) && BrokerEnabled(s, Push(c, n)) && Acking(s, t, m)
    ensures Acking(Pushed(s, c, n), t, m)
  {
    FreshTag(s, c, n);
    hide Inv;
  }

  lemma FreshTag(s: State, c: Chan, n: Mid)
    requires Inv(s) && BrokerEnabled(s, Push(c, n))
    ensures Tag(c, s.channels[c].nextTag) !in s.attempts && Tag(c, s.channels[c].nextTag) !in s.queue.unacked
  {
    PushedLinked(s, c, n);
    hide QuorumQueue.Valid, Faithful, Wired, RowsBacked, FramesFit, AckedRecorded,
      DeadExplained, MintedFits, OutboxGenuine, BodiesGenuine, RowsGenuine, CallsFit, Pushed;
  }

  lemma AckingOnSettle(s: State, u: Tag, t: Tag, m: Mid)
    requires Inv(s) && u in s.frames && Acking(s, t, m)
    ensures Acking(Settled(s, u), t, m)
  {
    hide Inv, AfterAnswer;
    SettledFacts(s, u);
    AnsweredIsFinished(s, u);
    Acted(s.queue, u, s.frames[u], s.topology.dlqBound);
  }

  lemma AnsweredIsFinished(s: State, t: Tag)
    requires Inv(s) && t in s.frames
    ensures t in s.attempts && s.attempts[t].pc.Finished?
  {
    hide QuorumQueue.Valid, TagsIssued, Held, Faithful, Wired, RowsBacked, FramesFit, AckedRecorded,
      DeadExplained, MintedFits, OutboxGenuine, BodiesGenuine, RowsGenuine, CallsFit;
  }

  // The broker removes an acknowledged message for good, and no other.
  lemma Acted(q: Queue, t: Tag, frame: Frame, bound: bool)
    requires t in q.unacked
    ensures (var q' := AfterAnswer(q, t, frame, bound);
             q'.unacked == q.unacked - {t} && q'.acked == if frame == Ack then q.acked + {q.unacked[t]} else q.acked)
  {
  }

  lemma AckingOnHandler(s: State, u: Tag, step: HandlerStep, t: Tag, m: Mid)
    requires HandlerEnabled(s, u, step) && Acking(s, t, m) && t.chan in s.channels
    requires t in s.queue.unacked || s.attempts[t].pc.Finished?
    requires PcFits(s.processed, s.effects, s.attempts[t])
    ensures Acking(ApplyHandler(s, u, step), t, m)
  {
    HandlerFrame(s, u, step);
  }

  lemma HeldOrFinished(s: State, t: Tag)
    requires Inv(s) && t in s.attempts && t.chan in s.channels
    ensures t in s.queue.unacked || s.attempts[t].pc.Finished?
    ensures t.chan in s.used && PcFits(s.processed, s.effects, s.attempts[t])
  {
    hide QuorumQueue.Valid, Answering, Faithful, Wired, FramesFit, AckedRecorded,
      DeadExplained, MintedFits, OutboxGenuine, BodiesGenuine, RowsGenuine, CallsFit;
  }

  lemma AckingStep(s: State, step: Step, t: Tag, m: Mid)
    requires Inv(s) && Enabled(s, step) && Acking(s, t, m) && t.chan in s.channels && t.chan in Apply(s, step).channels
    ensures Acking(Apply(s, step), t, m)
  {
    hide Inv, ApplyCall, ApplyWire, ApplyLink, ApplyBroker, ApplyHandler;
    match step
    case OfCall(c, k) => CallFrame(s, c, k);
    case OfWire(w) => WireFrame(s, w);
    case OfLink(l) => AckingOnLink(s, l, t, m); hide Acking;
    case OfBroker(b) => AckingOnBroker(s, b, t, m); hide Acking;
    case OfHandler(u, h) => HeldOrFinished(s, t); AckingOnHandler(s, u, h, t, m); hide Acking;
  }

  // A channel that is open at the end of a run was open all along.
  lemma ChannelLasted(s: State, steps: seq<Step>, u: State, c: Chan)
    requires Inv(s) && Run(s, steps, u) && c in s.used && c in u.channels
    ensures c in s.channels
  {
    if c !in s.channels {
      NotOpenIsClosed(s, c);
      ClosedForever(s, steps, u, c);
      assert false;
    }
  }

  lemma NotOpenIsClosed(s: State, c: Chan)
    requires Inv(s) && c in s.used && c !in s.channels
    ensures Closed(s, c)
  {
    hide QuorumQueue.Valid, TagsIssued, Faithful, Wired, RowsBacked, FramesFit, AckedRecorded,
      DeadExplained, MintedFits, OutboxGenuine, BodiesGenuine, RowsGenuine, CallsFit;
  }

  lemma {:induction false} AckingRun(s: State, steps: seq<Step>, u: State, t: Tag, m: Mid)
    requires Inv(s) && Run(s, steps, u) && Acking(s, t, m) && t.chan in s.channels && t.chan in u.channels
    ensures Acking(u, t, m)
    decreases |steps|
  {
    hide Inv, Enabled, Apply;
    if steps != [] {
      var s1 := Apply(s, steps[0]);
      HeldOrFinished(s, t);
      InvStep(s, steps[0]);
      StillUsed(s, steps[0], t.chan);
      ChannelLasted(s1, steps[1..], u, t.chan);
      AckingStep(s, steps[0], t, m);
      AckingRun(s1, steps[1..], u, t, m);
    }
  }

  lemma StillUsed(s: State, step: Step, c: Chan)
    requires Enabled(s, step) && c in s.used
    ensures c in Apply(s, step).used
  {
    hide ApplyCall, ApplyWire, ApplyLink, ApplyBroker, ApplyHandler;
    match step
    case OfCall(d, k) => CallFrame(s, d, k);
    case OfWire(w) => WireFrame(s, w);
    case OfLink(l) => LinkFrame(s, l);
    case OfBroker(b) => BrokerFrame(s, b);
    case OfHandler(t, h) => HandlerFrame(s, t, h);
  }

  // Over every run in which its channel lasts, an attempt that is delivered or checking a recorded
  // event never runs the effect and never sends anything but an ack; once its answer is settled
  // its message is acknowledged.
  lemma RecordedIsAcked(s: State, steps: seq<Step>, u: State, t: Tag)
    requires Inv(s) && Run(s, steps, u) && t.chan in u.channels
    requires t in s.attempts && Recorded(s.processed, s.attempts[t].body)
    requires s.attempts[t].pc.Delivered? || s.attempts[t].pc.Checking?
    ensures Acking(u, t, s.attempts[t].mid)
    ensures t !in u.queue.unacked ==> s.attempts[t].mid in u.queue.acked
  {
    hide Inv, Run, Acking;
    AttemptUsed(s, t);
    ChannelLasted(s, steps, u, t.chan);
    AckingStarts(s, t);
    AckingRun(s, steps, u, t, s.attempts[t].mid);
    AckingMeans(u, t, s.attempts[t].mid);
  }

  lemma AckingMeans(u: State, t: Tag, m: Mid)
    requires Acking(u, t, m)
    ensures t !in u.queue.unacked ==> m in u.queue.acked
  {
  }

  lemma AttemptUsed(s: State, t: Tag)
    requires Inv(s) && t in s.attempts
    ensures t.chan in s.used
  {
    hide QuorumQueue.Valid, Held, Answering, Faithful, Wired, RowsBacked, FramesFit, AckedRecorded,
      DeadExplained, MintedFits, OutboxGenuine, BodiesGenuine, RowsGenuine, CallsFit;
  }

  // And it gets there: the check finds the row, the ack reaches the broker, the message is gone.
  lemma RecordedCanBeAcked(s: State, t: Tag) returns (u: State)
    requires Inv(s) && t in s.attempts && s.attempts[t].pc.Delivered? && t.chan in s.channels
    requires Recorded(s.processed, s.attempts[t].body)
    ensures Run(s, [OfHandler(t, Start), OfHandler(t, FindResolves), OfBroker(Settle(t))], u)
    ensures s.attempts[t].mid in u.queue.acked && u.effects == s.effects && u.processed == s.processed
  {
    hide Inv, ApplyHandler, HandlerEnabled, AfterAnswer;
    HeldOrFinished(s, t);
    HeldMessage(s, t);
    var s1 := Parsed(s, t);
    var s2 := Found(s1, t);
    Acted(s2.queue, t, Ack, s2.topology.dlqBound);
    u := Settled(s2, t);
    ThreeSteps(s, OfHandler(t, Start), s1, OfHandler(t, FindResolves), s2, OfBroker(Settle(t)), u);
  }

  lemma HeldMessage(s: State, t: Tag)
    requires Inv(s) && t in s.queue.unacked
    ensures t in s.attempts && s.queue.unacked[t] == s.attempts[t].mid
  {
    hide QuorumQueue.Valid, TagsIssued, Answering, Faithful, Wired, RowsBacked, FramesFit, AckedRecorded,
      DeadExplained, MintedFits, OutboxGenuine, BodiesGenuine, RowsGenuine, CallsFit;
  }

  lemma ThreeSteps(s: State, a: Step, s1: State, b: Step, s2: State, c: Step, u: State)
    requires Enabled(s, a) && Apply(s, a) == s1 && Enabled(s1, b) && Apply(s1, b) == s2
    requires Enabled(s2, c) && Apply(s2, c) == u
    ensures Run(s, [a, b, c], u)
  {
    hide Enabled, Apply;
    var steps := [a, b, c];
    assert steps[1..] == [b, c] && steps[1..][1..] == [c] && steps[1..][1..][1..] == [];
    assert Run(s2, [c], u);
    assert Run(s1, [b, c], u);
  }

  lemma Parsed(s: State, t: Tag) returns (s1: State)
    requires t in s.attempts && s.attempts[t].pc.Delivered? && s.attempts[t].body.Event?
    ensures HandlerEnabled(s, t, Start) && s1 == ApplyHandler(s, t, Start)
    ensures s1 == s.(attempts := s.attempts[t := s.attempts[t].(pc := Checking(s.attempts[t].body.payload))])
  {
    s1 := ApplyHandler(s, t, Start);
  }

  lemma Found(s: State, t: Tag) returns (s1: State)
    requires t in s.attempts && s.attempts[t].pc.Checking? && s.attempts[t].pc.payload.eventId in s.processed
    requires t.chan in s.channels
    ensures HandlerEnabled(s, t, FindResolves) && s1 == ApplyHandler(s, t, FindResolves)
    ensures s1 == s.(attempts := s.attempts[t := s.attempts[t].(pc := Finished)], frames := s.frames[t := Ack])
  {
    s1 := ApplyHandler(s, t, FindResolves);
  }
}
