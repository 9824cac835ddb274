/** The exact condition, in any reachable state, under which the effect of an event runs at most
    once from there on, whatever happens: what can still pass the check, counted. */
module PipelineAtMostOnce {
  import opened Collections
  import opened QuorumQueue
  import opened Pipeline
  import opened PipelineFrames
  import opened PipelineInvariant
  import opened PipelineDedupe
  import opened PipelineRetry
  import opened PipelineReach
  import opened PipelineSafety
  import opened PipelineWitnesses

  predicate Carries(b: Body, e: Id) {
    b.Event? && b.payload.eventId == e
  }

  // Before its effect, and able to reach it.
  predicate Alive(a: Attempt, e: Id) {
    Carries(a.body, e) && (a.pc.Delivered? || a.pc.Checking? || a.pc.Working?)
  }

  ghost function Live(attempts: map<Tag, Attempt>, e: Id): set<Tag> {
    set t | t in attempts && Alive(attempts[t], e)
  }

  // The deliveries the queue may still make of message m, if it carries e.
  ghost function LeftFor(q: Queue, m: Mid, e: Id): nat {
    if m !in q.body || !Carries(q.body[m], e) then 0
    else if m in q.ready then Left(q, m) + 1
    else if m in q.Outstanding() then Left(q, m)
    else 0
  }

  ghost function QueueLeft(q: Queue, e: Id): nat {
    Sum(q.body.Keys, m => LeftFor(q, m, e))
  }

  // Effects run, attempts on their way to one, and deliveries left.
  ghost function Ahead(s: State, e: Id): nat {
    s.Effects(e) + |Live(s.attempts, e)| + QueueLeft(s.queue, e)
  }

  // A publisher may still send copies of e: it holds one, or e is not yet in use.
  ghost predicate Supplied(s: State, e: Id) {
    e !in s.minted || exists b :: b in s.outbox && b.payload.eventId == e
  }

  // What the state must be for the effect of e to run at most once from here on.
  ghost predicate Safe(s: State, e: Id) {
    if e in s.processed then s.Effects(e) + |WorkingOn(s.attempts, e)| <= 1
    else !Supplied(s, e) && Ahead(s, e) <= 1
  }

  // ---- Nothing adds to what lies ahead ----

  lemma LiveShrinks(a: map<Tag, Attempt>, b: map<Tag, Attempt>, e: Id)
    requires forall t :: t in b ==> t in a && (Alive(b[t], e) ==> Alive(a[t], e))
    ensures |Live(b, e)| <= |Live(a, e)|
  {
    CardinalityMonotone(Live(b, e), Live(a, e));
  }

  function One(b: bool): nat {
    if b then 1 else 0
  }

  lemma LiveAfterMove(attempts: map<Tag, Attempt>, t: Tag, a: Attempt, e: Id)
    ensures Live(attempts[t := a], e) == (Live(attempts, e) - {t}) + (if Alive(a, e) then {t} else {})
    ensures t in Live(attempts, e) <==> t in attempts && Alive(attempts[t], e)
  {
  }

  lemma LiveMoved(attempts: map<Tag, Attempt>, t: Tag, a: Attempt, e: Id)
    ensures |Live(attempts[t := a], e)| + One(t in attempts && Alive(attempts[t], e))
         == |Live(attempts, e)| + One(Alive(a, e))
  {
    hide Live, Alive;
    LiveAfterMove(attempts, t, a, e);
    var live := Live(attempts, e);
    if t in live {
      assert live == (live - {t}) + {t};
    } else {
      assert live - {t} == live;
    }
  }

  lemma LeftEqual(q: Queue, q': Queue, e: Id)
    requires q'.body == q.body && forall m :: m in q.body ==> LeftFor(q', m, e) <= LeftFor(q, m, e)
    ensures QueueLeft(q', e) <= QueueLeft(q, e)
  {
    SumMonotone(q.body.Keys, m => LeftFor(q', m, e), m => LeftFor(q, m, e));
  }

  lemma EnqueueLeft(q: Queue, m: Mid, b: Body, e: Id)
    requires QuorumQueue.Valid(q) && m !in q.body && !Carries(b, e)
    ensures QueueLeft(Enqueue(q, m, b), e) == QueueLeft(q, e)
  {
    var q' := Enqueue(q, m, b);
    forall x | x in q.body ensures LeftFor(q', x, e) == LeftFor(q, x, e) {
      assert x != m && q'.Outstanding() == q.Outstanding() && Left(q', x) == Left(q, x);
    }
    assert q'.body.Keys == q.body.Keys + {m};
    SumExtend(q.body.Keys, x => LeftFor(q', x, e), x => LeftFor(q, x, e), m);
  }

  lemma ReturnLeftOf(q: Queue, tags: set<Tag>, bound: bool, e: Id, m: Mid)
    requires QuorumQueue.Valid(q) && tags <= q.unacked.Keys && m in q.body
    ensures LeftFor(Return(q, tags, bound), m, e) == LeftFor(q, m, e)
  {
    var q' := Return(q, tags, bound);
    Release(q, tags, q');
    if m in q.Held(tags) {
      var t :| t in tags && q.unacked[t] == m;
      assert m in q.Outstanding() && m !in q.ready && q'.Count(m) == q.Count(m) + 1;
    } else {
      assert q'.Count(m) == q.Count(m);
    }
  }

  lemma ReturnLeft(q: Queue, tags: set<Tag>, bound: bool, e: Id)
    requires QuorumQueue.Valid(q) && tags <= q.unacked.Keys
    ensures QueueLeft(Return(q, tags, bound), e) == QueueLeft(q, e)
  {
    var q' := Return(q, tags, bound);
    forall m | m in q.body ensures LeftFor(q', m, e) == LeftFor(q, m, e) {
      ReturnLeftOf(q, tags, bound, e, m);
    }
    hide Return, LeftFor;
    LeftEqual(q, q', e);
    LeftEqual(q', q, e);
  }

  lemma AnswerLeft(q: Queue, t: Tag, frame: Frame, bound: bool, e: Id)
    requires QuorumQueue.Valid(q) && t in q.unacked
    ensures QueueLeft(AfterAnswer(q, t, frame, bound), e) <= QueueLeft(q, e)
  {
    if frame.NackRequeue? {
      ReturnLeft(q, {t}, bound, e);
    } else {
      var q' := AfterAnswer(q, t, frame, bound);
      Release(q, {t}, q');
      forall m | m in q.body ensures LeftFor(q', m, e) <= LeftFor(q, m, e) {
        assert Left(q', m) == Left(q, m);
      }
      LeftEqual(q, q', e);
    }
  }

  lemma DeliverLeft(q: Queue, t: Tag, m: Mid, e: Id)
    requires QuorumQueue.Valid(q) && m in q.ready && t !in q.unacked
    ensures m in q.body
    ensures QueueLeft(Deliver(q, t, m), e) + (if Carries(q.body[m], e) then 1 else 0) == QueueLeft(q, e)
  {
    DeliverValid(q, t, m);
    var q' := Deliver(q, t, m);
    forall x | x in q.body ensures Left(q', x) == Left(q, x) {}
    SumSplit(q.body.Keys, x => LeftFor(q', x, e), m);
    SumSplit(q.body.Keys, x => LeftFor(q, x, e), m);
    forall x | x in q.body.Keys - {m} ensures LeftFor(q', x, e) == LeftFor(q, x, e) {}
    SumMonotone(q.body.Keys - {m}, x => LeftFor(q', x, e), x => LeftFor(q, x, e));
    SumMonotone(q.body.Keys - {m}, x => LeftFor(q, x, e), x => LeftFor(q', x, e));
  }

  lemma WorkingIsLive(s: State, e: Id)
    requires Inv(s)
    ensures WorkingOn(s.attempts, e) <= Live(s.attempts, e)
    ensures |WorkingOn(s.attempts, e)| <= |Live(s.attempts, e)|
  {
    forall t | t in WorkingOn(s.attempts, e) ensures t in Live(s.attempts, e) {
      AttemptFacts(s, t);
    }
    CardinalityMonotone(WorkingOn(s.attempts, e), Live(s.attempts, e));
  }

  lemma HandlerAhead(s: State, t: Tag, step: HandlerStep, e: Id)
    requires Inv(s) && HandlerEnabled(s, t, step)
    ensures Ahead(ApplyHandler(s, t, step), e) <= Ahead(s, e)
    ensures step.Start? || (step.FindResolves? && e !in s.processed) || step.RunEffect? ==>
              Alive(s.attempts[t], e) ==> Ahead(ApplyHandler(s, t, step), e) == Ahead(s, e)
  {
    HandlerFrame(s, t, step);
    HandlerEffects(s, t, step, e);
    AttemptFacts(s, t);
    AliveMoves(s, t, step, e);
    var s' := ApplyHandler(s, t, step);
    hide ApplyHandler, Inv, Live, QueueLeft, PcFits, Follows, Alive;
    LiveMoved(s.attempts, t, s'.attempts[t], e);
  }

  lemma AliveMoves(s: State, t: Tag, step: HandlerStep, e: Id)
    requires HandlerEnabled(s, t, step) && PcFits(s.processed, s.effects, s.attempts[t])
    ensures t in ApplyHandler(s, t, step).attempts
    ensures (var a, a' := s.attempts[t], ApplyHandler(s, t, step).attempts[t];
             && (Alive(a', e) ==> Alive(a, e))
             && (Works(a, e) ==> Alive(a, e))
             && (step.RunEffect? && Alive(a, e) ==> Works(a, e))
             && (step.RunEffect? ==> !Alive(a', e))
             && (step.Start? || (step.FindResolves? && e !in s.processed) ==> (Alive(a', e) <==> Alive(a, e))))
  {
  }

  lemma OrphansLive(s: State, p: Process, e: Id)
    ensures |Live(Orphans(s, p).attempts, e)| <= |Live(s.attempts, e)|
  {
    LiveShrinks(s.attempts, Orphans(s, p).attempts, e);
  }

  lemma LinkAhead(s: State, step: LinkStep, e: Id)
    requires Inv(s) && LinkEnabled(s, step)
    ensures Ahead(ApplyLink(s, step), e) <= Ahead(s, e)
    ensures step.Lose? ==> Ahead(ApplyLink(s, step), e) == Ahead(s, e)
  {
    hide TagsIssued, Held, Answering, Faithful, Wired, RowsBacked, FramesFit, AckedRecorded,
      DeadExplained, MintedFits, OutboxGenuine, BodiesGenuine, RowsGenuine, CallsFit, QuorumQueue.Valid,
      QueueLeft, Live, Return, Orphaned;
    match step
    case Open(c) =>
    case Setup(c) =>
    case Lose(c) => ReturnLeft(s.queue, HeldOn(s, {c}), s.topology.dlqBound, e);
    case Crash(p) =>
      ReturnLeft(s.queue, HeldOn(s, ChannelsOf(s, p)), s.topology.dlqBound, e);
      OrphansLive(Disconnected(s, ChannelsOf(s, p)), p, e);
  }

  lemma PushAhead(s: State, c: Chan, m: Mid, e: Id)
    requires Inv(s) && BrokerEnabled(s, Push(c, m))
    ensures Ahead(Pushed(s, c, m), e) == Ahead(s, e)
  {
    hide Live, QueueLeft, Deliver, QuorumQueue.Valid;
    PushedTag(s, c, m);
    var t := Tag(c, s.channels[c].nextTag);
    hide Inv;
    DeliverLeft(s.queue, t, m, e);
    LiveMoved(s.attempts, t, Attempt(m, s.queue.body[m], Delivered), e);
  }

  lemma PushedTag(s: State, c: Chan, m: Mid)
    requires Inv(s) && BrokerEnabled(s, Push(c, m))
    ensures Tag(c, s.channels[c].nextTag) !in s.attempts
    ensures Tag(c, s.channels[c].nextTag) !in s.queue.unacked && QuorumQueue.Valid(s.queue)
  {
    PushedLinked(s, c, m);
    UnissuedTag(s, Tag(c, s.channels[c].nextTag));
    hide Inv;
  }

  lemma UnissuedTag(s: State, t: Tag)
    requires Inv(s) && t !in s.attempts
    ensures t !in s.queue.unacked && QuorumQueue.Valid(s.queue)
  {
    hide QuorumQueue.Valid, TagsIssued, Answering, Faithful, Wired, RowsBacked, FramesFit, AckedRecorded,
      DeadExplained, MintedFits, OutboxGenuine, BodiesGenuine, RowsGenuine, CallsFit;
  }

  lemma BrokerAhead(s: State, step: BrokerStep, e: Id)
    requires Inv(s) && BrokerEnabled(s, step)
    ensures Ahead(ApplyBroker(s, step), e) <= Ahead(s, e)
  {
    hide Inv, Live, QueueLeft, AfterAnswer;
    match step
    case Push(c, m) => PushAhead(s, c, m, e);
    case Settle(t) =>
      SettledFacts(s, t);
      ValidQueue(s);
      AnswerLeft(s.queue, t, s.frames[t], s.topology.dlqBound, e);
  }

  lemma ValidQueue(s: State)
    requires Inv(s)
    ensures QuorumQueue.Valid(s.queue)
  {
    hide QuorumQueue.Valid;
  }

  lemma RoutedAhead(s: State, m: Mid, b: Body, e: Id)
    requires QuorumQueue.Valid(s.queue) && m !in s.queue.body && !Carries(b, e)
    ensures Ahead(Routed(s, m, b), e) == Ahead(s, e)
  {
    EnqueueLeft(s.queue, m, b, e);
    hide Live, QueueLeft, QuorumQueue.Valid, Enqueue;
  }

  lemma WireAhead(s: State, step: WireStep, e: Id)
    requires Inv(s) && WireEnabled(s, step) && !Supplied(s, e)
    ensures Ahead(ApplyWire(s, step), e) == Ahead(s, e)
  {
    ValidQueue(s);
    hide Inv, Live, QueueLeft, QuorumQueue.Valid, Routed;
    if step.Send? {
      RoutedAhead(s, step.mid, Event(step.buffered.payload), e);
    } else if step.ForeignPublish? {
      RoutedAhead(s, step.mid, Unparseable, e);
    } else {
      BufferAhead(s, step, e);
    }
    hide Ahead;
  }

  lemma BufferAhead(s: State, step: WireStep, e: Id)
    requires step.AssertExchange? || step.Unbuffer?
    requires WireEnabled(s, step)
    ensures Ahead(ApplyWire(s, step), e) == Ahead(s, e)
  {
    hide Live, QueueLeft;
  }

  lemma WireSupplies(s: State, step: WireStep, e: Id)
    requires WireEnabled(s, step) && !Supplied(s, e)
    ensures !Supplied(ApplyWire(s, step), e)
  {
    hide Enqueue;
  }

  // No step adds to what lies ahead of an event that is in use and that no publisher holds; nor
  // does such an event come back into a publisher's buffer.
  lemma AheadStep(s: State, step: Step, e: Id)
    requires Inv(s) && Enabled(s, step) && !Supplied(s, e)
    ensures Ahead(Apply(s, step), e) <= Ahead(s, e) && !Supplied(Apply(s, step), e)
  {
    hide Inv, Live, QueueLeft, ApplyWire, ApplyLink, ApplyBroker, ApplyHandler;
    match step
    case OfCall(c, k) => CallFrame(s, c, k);
    case OfWire(w) => WireAhead(s, w, e); WireSupplies(s, w, e);
    case OfLink(l) => LinkAhead(s, l, e); LinkSupplies(s, l, e);
    case OfBroker(b) => BrokerAhead(s, b, e); BrokerFrame(s, b);
    case OfHandler(t, h) => HandlerAhead(s, t, h, e); HandlerFrame(s, t, h);
  }

  lemma LinkSupplies(s: State, step: LinkStep, e: Id)
    requires LinkEnabled(s, step) && !Supplied(s, e)
    ensures !Supplied(ApplyLink(s, step), e)
  {
  }

  // A safe state stays safe, so the effect never runs twice.
  lemma SafeStep(s: State, step: Step, e: Id)
    requires Inv(s) && Enabled(s, step) && Safe(s, e)
    ensures Safe(Apply(s, step), e)
  {
    var s' := Apply(s, step);
    hide Inv, Apply, Supplied;
    if e in s.processed {
      PotentialStep(s, step, e);
    } else {
      AheadStep(s, step, e);
      InvStep(s, step);
      WorkingIsLive(s', e);
    }
  }

  lemma {:induction false} SafeForever(s: State, steps: seq<Step>, t: State, e: Id)
    requires Inv(s) && Run(s, steps, t) && Safe(s, e)
    ensures Safe(t, e) && t.Effects(e) <= 1
    decreases |steps|
  {
    hide Inv, Enabled, Apply, Supplied, Live, QueueLeft;
    if steps != [] {
      SafeStep(s, steps[0], e);
      InvStep(s, steps[0]);
      SafeForever(Apply(s, steps[0]), steps[1..], t, e);
    }
  }

  // ---- All of it can happen ----

  function NextOf(pc: Pc): HandlerStep {
    match pc
    case Delivered => Start
    case Checking(_) => FindResolves
    case _ => RunEffect
  }

  // An attempt on its way to the effect takes its next segment.
  lemma LiveAdvances(s: State, t: Tag, e: Id)
    requires Inv(s) && t in Live(s.attempts, e) && e !in s.processed
    ensures t in s.attempts
    ensures (var step := NextOf(s.attempts[t].pc);
             && HandlerEnabled(s, t, step)
             && (var s' := ApplyHandler(s, t, step);
                 Inv(s') && e !in s'.processed && Ahead(s', e) == Ahead(s, e) && Work(s') < Work(s)))
  {
    var step := NextOf(s.attempts[t].pc);
    AttemptFacts(s, t);
    HandlerInv(s, t, step);
    HandlerAhead(s, t, step, e);
    HandlerWork(s, t, step);
    hide Inv, Ahead, Work, PcFits;
  }

  // A ready copy is delivered.
  lemma ReadyAdvances(s: State, c: Chan, m: Mid, e: Id)
    requires Inv(s) && c in s.channels && s.channels[c].phase == CONSUMING && m in s.queue.ready && e !in s.processed
    ensures BrokerEnabled(s, Push(c, m))
    ensures (var s' := ApplyBroker(s, Push(c, m));
             Inv(s') && e !in s'.processed && Ahead(s', e) == Ahead(s, e) && Work(s') < Work(s))
  {
    hide Ahead, Work;
    Pushes(s, c, m);
    PushAhead(s, c, m, e);
    BrokerWork(s, Push(c, m));
    hide Inv;
  }

  // An outstanding copy comes back when its channel is lost.
  lemma OutstandingAdvances(s: State, t: Tag, e: Id)
    requires Inv(s) && t in s.queue.unacked && e !in s.processed
    ensures LinkEnabled(s, Lose(t.chan))
    ensures (var s' := ApplyLink(s, Lose(t.chan));
             Inv(s') && e !in s'.processed && Ahead(s', e) == Ahead(s, e) && Work(s') < Work(s))
  {
    hide Ahead, Work, Inv;
    Loses(s, t);
    LostQueue(s, t);
    LinkAhead(s, Lose(t.chan), e);
    LinkWork(s, Lose(t.chan));
    LinkFrame(s, Lose(t.chan));
    hide ApplyLink, HeldOn;
  }

  lemma ReconnectedAhead(s: State, s': State, e: Id)
    requires Reconnected(s, s')
    ensures Ahead(s', e) == Ahead(s, e) && Work(s') == Work(s) && s'.processed == s.processed
    ensures s'.queue == s.queue && s'.outbox == s.outbox
  {
    hide Live, QueueLeft, QueueWork, AttemptWork;
  }

  // Something is left for e: a ready copy, or an outstanding one with deliveries left.
  lemma SomethingLeft(s: State, e: Id) returns (m: Mid)
    requires QueueLeft(s.queue, e) > 0
    ensures m in s.queue.body && LeftFor(s.queue, m, e) > 0
    ensures m in s.queue.ready || m in s.queue.Outstanding()
  {
    if forall x :: x in s.queue.body ==> LeftFor(s.queue, x, e) == 0 {
      SumOfZeros(s.queue.body.Keys, x => LeftFor(s.queue, x, e));
    }
    m :| m in s.queue.body && LeftFor(s.queue, m, e) > 0;
  }

  // Everything that lies ahead of an unrecorded event can come to pass in one run.
  lemma {:induction false} AheadReached(s: State, e: Id) returns (steps: seq<Step>, t: State)
    requires Inv(s) && e !in s.processed
    ensures Run(s, steps, t) && t.Effects(e) == Ahead(s, e)
    decreases Work(s), 1
  {
    hide Inv, Enabled, Apply, Work, Live, QueueLeft;
    if tag :| tag in Live(s.attempts, e) {
      hide Ahead;
      LiveAdvances(s, tag, e);
      var step := NextOf(s.attempts[tag].pc);
      StepIs(s, OfHandler(tag, step));
      steps, t := AheadAfter(s, [], s, OfHandler(tag, step), e);
    } else if QueueLeft(s.queue, e) > 0 {
      hide Ahead;
      var m := SomethingLeft(s, e);
      if m in s.queue.ready {
        var open, s1, c := ConsumerConnects(s);
        ReconnectedAhead(s, s1, e);
        ReadyAdvances(s1, c, m, e);
        StepIs(s1, OfBroker(Push(c, m)));
        steps, t := AheadAfter(s, open, s1, OfBroker(Push(c, m)), e);
      } else {
        var tag :| tag in s.queue.unacked && s.queue.unacked[tag] == m;
        OutstandingAdvances(s, tag, e);
        StepIs(s, OfLink(Lose(tag.chan)));
        steps, t := AheadAfter(s, [], s, OfLink(Lose(tag.chan)), e);
      }
    } else {
      assert Live(s.attempts, e) == {};
      steps, t := [], s;
    }
  }

  lemma {:induction false} AheadAfter(s: State, before: seq<Step>, s1: State, step: Step, e: Id)
    returns (steps: seq<Step>, t: State)
    requires Run(s, before, s1) && Enabled(s1, step) && Inv(Apply(s1, step)) && e !in Apply(s1, step).processed
    requires Work(Apply(s1, step)) < Work(s)
    ensures Run(s, steps, t) && t.Effects(e) == Ahead(Apply(s1, step), e)
    decreases Work(s), 0
  {
    hide Inv, Enabled, Apply, Work, Ahead;
    var rest;
    rest, t := AheadReached(Apply(s1, step), e);
    Joined(s, before, s1, step, rest, t);
    steps := before + ([step] + rest);
  }

  // ---- A publisher that may still send can send twice ----

  lemma SendsCopy(s: State, b: Buffered) returns (s': State, m: Mid)
    requires Inv(s) && b in s.outbox && s.topology.exchange && s.topology.queueBound
    ensures m !in s.queue.body && Enabled(s, OfWire(Send(b, m))) && s' == Apply(s, OfWire(Send(b, m))) && Inv(s')
    ensures s'.queue == Enqueue(s.queue, m, Event(b.payload)) && s' == s.(queue := s'.queue)
  {
    m := FreshExists(s.queue.body.Keys);
    assert m !in s.queue.body;
    s' := Apply(s, OfWire(Send(b, m)));
    InvStep(s, OfWire(Send(b, m)));
    hide Inv, Enqueue;
  }

  lemma TwoReadyCopies(q: Queue, m: Mid, n: Mid, e: Id)
    requires m != n && m in q.ready && n in q.ready && m in q.body && n in q.body
    requires Carries(q.body[m], e) && Carries(q.body[n], e)
    ensures QueueLeft(q, e) >= 2
  {
    SumSplit(q.body.Keys, x => LeftFor(q, x, e), m);
    SumSplit(q.body.Keys - {m}, x => LeftFor(q, x, e), n);
  }

  lemma BufferedRunsTwice(s: State, b: Buffered) returns (steps: seq<Step>, t: State)
    requires Inv(s) && b in s.outbox && b.payload.eventId !in s.processed
    ensures Run(s, steps, t) && t.Effects(b.payload.eventId) >= 2
  {
    var e := b.payload.eventId;
    hide Inv, Enabled, Apply, Live, QueueLeft;
    var open, s1, c := ConsumerConnects(s);
    var s2, m := SendsCopy(s1, b);
    var s3, n := SendsCopy(s2, b);
    TwoReadyCopies(s3.queue, m, n, e);
    var rest;
    rest, t := AheadReached(s3, e);
    assert t.Effects(e) >= 2;
    hide Ahead, Enqueue;
    Joined(s2, [], s2, OfWire(Send(b, n)), rest, t);
    assert [] + ([OfWire(Send(b, n))] + rest) == [OfWire(Send(b, n))] + rest;
    Joined(s, open, s1, OfWire(Send(b, m)), [OfWire(Send(b, n))] + rest, t);
    steps := open + ([OfWire(Send(b, m))] + ([OfWire(Send(b, n))] + rest));
  }

  lemma CallGoes(s0: State, before: seq<Step>, s: State, c: nat, step: CallStep)
    requires Run(s0, before, s) && Inv(s) && CallEnabled(s, c, step)
    ensures Run(s0, before + [OfCall(c, step)], ApplyCall(s, c, step)) && Inv(ApplyCall(s, c, step))
    ensures ApplyCall(s, c, step).processed == s.processed
  {
    CallFrame(s, c, step);
    CallInv(s, c, step);
    hide Inv, Run, ApplyCall, CallEnabled;
    RunExtends(s0, before, s, OfCall(c, step));
  }

  lemma NoSteps(s: State)
    ensures Run(s, [], s)
  {
  }

  // A request inserts its row.
  lemma Inserts(s: State) returns (steps: seq<Step>, t: State, c: nat)
    requires Inv(s)
    ensures Run(s, steps, t) && Inv(t) && t.processed == s.processed && t.minted == s.minted
    ensures c in t.calls && t.calls[c].pc.Inserted?
  {
    c := FreshExists(s.calls.Keys);
    var id := FreshExists(s.tasks.Keys);
    assert c !in s.calls && id !in s.tasks;
    hide Inv, Run;
    NoSteps(s);
    CallGoes(s, [], s, c, Begin(0, ""));
    t := ApplyCall(s, c, Begin(0, ""));
    steps := [] + [OfCall(c, Begin(0, ""))];
    CallGoes(s, steps, t, c, CommitTask(id));
    steps := steps + [OfCall(c, CommitTask(id))];
    t := ApplyCall(t, c, CommitTask(id));
  }

  // An event id that is not in use may be drawn by a request yet to come.
  lemma Mints(s: State, e: Id) returns (steps: seq<Step>, t: State, b: Buffered)
    requires Inv(s) && e !in s.minted
    ensures Run(s, steps, t) && Inv(t) && t.processed == s.processed && b in t.outbox && b.payload.eventId == e
  {
    hide Inv, Run;
    var before, s1, c := Inserts(s);
    CallGoes(s, before, s1, c, StartPublish(e));
    steps, t := before + [OfCall(c, StartPublish(e))], ApplyCall(s1, c, StartPublish(e));
    b := Buffered(s1.calls[c].process, Payload(e, EVENT_TYPE, s1.calls[c].pc.id));
  }

  lemma SuppliedRunsTwice(s: State, e: Id) returns (steps: seq<Step>, t: State)
    requires Inv(s) && e !in s.processed && Supplied(s, e)
    ensures Run(s, steps, t) && t.Effects(e) >= 2
  {
    hide Inv;
    if b :| b in s.outbox && b.payload.eventId == e {
      steps, t := BufferedRunsTwice(s, b);
    } else {
      var before, s1, b := Mints(s, e);
      var after;
      after, t := BufferedRunsTwice(s1, b);
      RunJoins(s, before, s1, after, t);
      steps := before + after;
    }
  }

  // ---- Main result ----

  ghost predicate AtMostOnceFrom(s: State, e: Id) {
    forall steps, t :: Run(s, steps, t) ==> t.Effects(e) <= 1
  }

  // Exactly when the effect of an event runs at most once, whatever redeliveries, copies,
  // crashes and overlaps the future brings. A recorded event: the effects that ran and the
  // attempts past its check are at most one together. Any other: no publisher can still send it,
  // and the effects that ran, the attempts that have yet to reach it, and the deliveries its
  // copies have left are at most one together.
  lemma AtMostOnceIffSafe(limit: nat, s: State, e: Id)
    requires Reachable(limit, s)
    ensures AtMostOnceFrom(s, e) <==> Safe(s, e)
  {
    ReachableInv(limit, s);
    hide Inv, Reachable, Live, QueueLeft, Supplied;
    if Safe(s, e) {
      forall steps, t | Run(s, steps, t) ensures t.Effects(e) <= 1 {
        SafeForever(s, steps, t, e);
      }
    } else if e in s.processed {
      var steps, t := PotentialIsReached(s, e);
      assert Run(s, steps, t) && t.Effects(e) > 1;
    } else if Supplied(s, e) {
      var steps, t := SuppliedRunsTwice(s, e);
      assert Run(s, steps, t) && t.Effects(e) > 1;
    } else {
      var steps, t := AheadReached(s, e);
      assert Run(s, steps, t) && t.Effects(e) > 1;
    }
  }

  // So with any redelivery at all, an event whose message waits for its first delivery can have
  // its effect twice.
  lemma FirstDeliveryIsNotSafe(limit: nat, s: State, m: Mid)
    requires Reachable(limit, s) && limit > 0 && m in s.queue.ready && m in s.queue.body && s.queue.Count(m) == 0
    requires s.queue.body[m].Event? && s.queue.body[m].payload.eventId !in s.processed
    ensures !AtMostOnceFrom(s, s.queue.body[m].payload.eventId)
  {
    var e := s.queue.body[m].payload.eventId;
    AtMostOnceIffSafe(limit, s, e);
    ReachableInv(limit, s);
    SumSplit(s.queue.body.Keys, x => LeftFor(s.queue, x, e), m);
    hide Inv, AtMostOnceFrom, Live, Supplied;
  }
}
