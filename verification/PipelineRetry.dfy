/** Bounded retry: with no new messages, the work left in the main queue runs out. */
module PipelineRetry {
  import opened Collections
  import opened QuorumQueue
  import opened Pipeline
  import opened PipelineFrames
  import opened PipelineInvariant

  // Redeliveries the queue may still make of m.
  function Left(q: Queue, m: Mid): nat {
    if q.Count(m) <= q.limit then q.limit - q.Count(m) else 0
  }

  ghost function Weight(q: Queue, m: Mid): nat {
    if m in q.ready then 16 * Left(q, m) + 16
    else if m in q.Outstanding() then 16 * Left(q, m) + 8
    else 0
  }

  function Phase(a: Attempt): nat {
    match a.pc
    case Delivered => 6
    case Checking(_) => 5
    case Working(_) => 4
    case Saving(_) => 3
    case Saved(_) => 2
    case Finished => 0
    case Abandoned => 0
  }

  function PhaseAt(attempts: map<Tag, Attempt>, t: Tag): nat {
    if t in attempts then Phase(attempts[t]) else 0
  }

  ghost function QueueWork(q: Queue): nat {
    Sum(q.body.Keys, m => Weight(q, m))
  }

  ghost function AttemptWork(attempts: map<Tag, Attempt>): nat {
    Sum(attempts.Keys, t => PhaseAt(attempts, t))
  }

  /** The lexicographic order "redeliveries left, then phase of the attempts" as one number. */
  ghost function Work(s: State): nat {
    QueueWork(s.queue) + AttemptWork(s.attempts)
  }

  // ---- The queue ----

  lemma QueueWorkFalls(q: Queue, q': Queue, m: Mid)
    requires q'.body.Keys == q.body.Keys && m in q.body
    requires forall x :: x in q.body ==> Weight(q', x) <= Weight(q, x)
    requires Weight(q', m) + 8 <= Weight(q, m)
    ensures QueueWork(q') + 8 <= QueueWork(q)
  {
    SumFalls(q.body.Keys, x => Weight(q', x), x => Weight(q, x), m, 8);
  }

  lemma DeliverWork(q: Queue, t: Tag, m: Mid)
    requires QuorumQueue.Valid(q) && m in q.ready && t !in q.unacked
    ensures QueueWork(Deliver(q, t, m)) + 8 <= QueueWork(q)
  {
    DeliverValid(q, t, m);
    var q' := Deliver(q, t, m);
    forall x | x in q.body ensures Weight(q', x) <= Weight(q, x) {
      assert Left(q', x) == Left(q, x);
    }
    QueueWorkFalls(q, q', m);
  }

  // Taking tags off the outstanding messages, whatever becomes of the messages, is progress.
  lemma ReturnWeights(q: Queue, tags: set<Tag>, bound: bool, x: Mid)
    requires QuorumQueue.Valid(q) && tags <= q.unacked.Keys && x in q.body
    ensures Weight(Return(q, tags, bound), x) + (if x in q.Held(tags) then 8 else 0) <= Weight(q, x)
  {
    var q' := Return(q, tags, bound);
    Release(q, tags, q');
    OutstandingRouted(q);
    if x in q.Held(tags) {
      var t :| t in tags && q.unacked[t] == x;
      assert q.Count(x) <= q.limit;
      assert x !in q.ready;
      assert q'.Count(x) == q.Count(x) + 1;
    } else {
      assert q'.Count(x) == q.Count(x);
    }
  }

  lemma ReturnWork(q: Queue, tags: set<Tag>, bound: bool)
    requires QuorumQueue.Valid(q) && tags <= q.unacked.Keys
    ensures QueueWork(Return(q, tags, bound)) + (if tags == {} then 0 else 8) <= QueueWork(q)
  {
    var q' := Return(q, tags, bound);
    OutstandingRouted(q);
    forall x | x in q.body
      ensures Weight(q', x) + (if x in q.Held(tags) then 8 else 0) <= Weight(q, x)
    {
      ReturnWeights(q, tags, bound, x);
    }
    if tags == {} {
      SumMonotone(q.body.Keys, x => Weight(q', x), x => Weight(q, x));
    } else {
      var t :| t in tags;
      assert q.unacked[t] in q.Held(tags);
      QueueWorkFalls(q, q', q.unacked[t]);
    }
  }

  // The message is acknowledged or dead-lettered for good.
  lemma RemovalWork(q: Queue, q': Queue, t: Tag)
    requires QuorumQueue.Valid(q) && t in q.unacked
    requires q'.unacked == q.unacked - {t} && q'.ready == q.ready
    requires q'.body == q.body && q'.count == q.count && q'.limit == q.limit
    ensures QueueWork(q') + 8 <= QueueWork(q)
  {
    Release(q, {t}, q');
    OutstandingRouted(q);
    assert q.Held({t}) == {q.unacked[t]};
    forall x | x in q.body ensures Weight(q', x) <= Weight(q, x) {
      assert Left(q', x) == Left(q, x);
    }
    QueueWorkFalls(q, q', q.unacked[t]);
  }

  lemma AnswerWork(q: Queue, t: Tag, frame: Frame, bound: bool)
    requires QuorumQueue.Valid(q) && t in q.unacked
    ensures QueueWork(AfterAnswer(q, t, frame, bound)) + 8 <= QueueWork(q)
  {
    match frame
    case Ack => RemovalWork(q, Acknowledge(q, t), t);
    case NackRequeue => ReturnWork(q, {t}, bound);
    case NackDrop => RemovalWork(q, Reject(q, t, bound), t);
  }

  // ---- The attempts ----

  lemma AttemptMoves(attempts: map<Tag, Attempt>, t: Tag, a: Attempt)
    requires t in attempts && Phase(a) < Phase(attempts[t])
    ensures AttemptWork(attempts[t := a]) < AttemptWork(attempts)
  {
    var after := attempts[t := a];
    assert after.Keys == attempts.Keys;
    SumFalls(attempts.Keys, u => PhaseAt(after, u), u => PhaseAt(attempts, u), t, 1);
  }

  lemma AttemptAdded(attempts: map<Tag, Attempt>, t: Tag, a: Attempt)
    requires t !in attempts
    ensures AttemptWork(attempts[t := a]) == AttemptWork(attempts) + Phase(a)
  {
    var after := attempts[t := a];
    assert after.Keys == attempts.Keys + {t};
    SumExtend(attempts.Keys, u => PhaseAt(after, u), u => PhaseAt(attempts, u), t);
  }

  lemma AttemptsOrphaned(s: State, p: Process)
    ensures AttemptWork(Orphans(s, p).attempts) <= AttemptWork(s.attempts)
  {
    var after := Orphans(s, p).attempts;
    assert after.Keys == s.attempts.Keys;
    SumMonotone(s.attempts.Keys, u => PhaseAt(after, u), u => PhaseAt(s.attempts, u));
  }

  // ---- Steps ----

  // Deliveries, answers, segments of an attempt, and losses that return messages.
  predicate Productive(s: State, step: Step) {
    match step
    case OfCall(_, _) => false
    case OfWire(_) => false
    case OfBroker(_) => true
    case OfHandler(_, _) => true
    case OfLink(Lose(c)) => HeldOn(s, {c}) != {}
    case OfLink(Crash(p)) => HeldOn(s, ChannelsOf(s, p)) != {}
    case OfLink(_) => false
  }

  predicate Publishes(step: Step) {
    step.OfWire? && (step.wireStep.Send? || step.wireStep.ForeignPublish?)
  }

  lemma LinkWork(s: State, step: LinkStep)
    requires Inv(s) && LinkEnabled(s, step)
    ensures Work(ApplyLink(s, step)) + (if Productive(s, OfLink(step)) then 1 else 0) <= Work(s)
  {
    hide TagsIssued, Held, Answering, Faithful, Wired, RowsBacked, FramesFit, AckedRecorded,
      DeadExplained, MintedFits, OutboxGenuine, BodiesGenuine, RowsGenuine, CallsFit, QuorumQueue.Valid,
      QueueWork, AttemptWork, Return, Orphaned;
    match step
    case Open(c) =>
    case Setup(c) =>
    case Lose(c) => ReturnWork(s.queue, HeldOn(s, {c}), s.topology.dlqBound);
    case Crash(p) =>
      ReturnWork(s.queue, HeldOn(s, ChannelsOf(s, p)), s.topology.dlqBound);
      AttemptsOrphaned(Disconnected(s, ChannelsOf(s, p)), p);
  }

  lemma BrokerWork(s: State, step: BrokerStep)
    requires Inv(s) && BrokerEnabled(s, step)
    ensures Work(ApplyBroker(s, step)) < Work(s)
  {
    match step
    case Push(c, m) =>
      var t := Tag(c, s.channels[c].nextTag);
      PushedLinked(s, c, m);
      assert t !in s.queue.unacked;
      DeliverWork(s.queue, t, m);
      AttemptAdded(s.attempts, t, Attempt(m, s.queue.body[m], Delivered));
    case Settle(t) =>
      SettledFacts(s, t);
      AnswerWork(s.queue, t, s.frames[t], s.topology.dlqBound);
  }

  lemma HandlerWork(s: State, t: Tag, step: HandlerStep)
    requires HandlerEnabled(s, t, step)
    ensures Work(ApplyHandler(s, t, step)) < Work(s)
  {
    HandlerFrame(s, t, step);
    var s' := ApplyHandler(s, t, step);
    hide ApplyHandler;
    AttemptMoves(s.attempts, t, s'.attempts[t]);
  }

  // Every delivery, answer, attempt segment and loss of an outstanding message uses up work;
  // without publishes nothing adds any.
  lemma WorkStep(s: State, step: Step)
    requires Inv(s) && Enabled(s, step) && !Publishes(step)
    ensures Work(Apply(s, step)) + (if Productive(s, step) then 1 else 0) <= Work(s)
  {
    hide Inv, Work, ApplyCall, ApplyWire, ApplyLink, ApplyBroker, ApplyHandler;
    match step
    case OfCall(c, k) => CallWork(s, c, k);
    case OfWire(w) => WireWork(s, w);
    case OfLink(l) => LinkWork(s, l);
    case OfBroker(b) => BrokerWork(s, b);
    case OfHandler(t, h) => HandlerWork(s, t, h);
  }

  lemma CallWork(s: State, c: nat, step: CallStep)
    requires CallEnabled(s, c, step)
    ensures Work(ApplyCall(s, c, step)) == Work(s)
  {
    CallFrame(s, c, step);
  }

  lemma WireWork(s: State, step: WireStep)
    requires WireEnabled(s, step) && (step.AssertExchange? || step.Unbuffer?)
    ensures Work(ApplyWire(s, step)) == Work(s)
  {
  }

  ghost predicate Quiet(steps: seq<Step>) {
    forall i :: 0 <= i < |steps| ==> !Publishes(steps[i])
  }

  ghost function ProductiveSteps(s: State, steps: seq<Step>): nat
    decreases |steps|
  {
    if steps == [] || !Enabled(s, steps[0]) then 0
    else (if Productive(s, steps[0]) then 1 else 0) + ProductiveSteps(Apply(s, steps[0]), steps[1..])
  }

  // Termination: a run without publishes makes at most Work(s) deliveries, answers and attempt
  // segments, however often connections come and go.
  lemma {:induction false} WorkRunsOut(s: State, steps: seq<Step>, t: State)
    requires Inv(s) && Run(s, steps, t) && Quiet(steps)
    ensures ProductiveSteps(s, steps) + Work(t) <= Work(s)
    decreases |steps|
  {
    hide Inv, Work, Enabled, Apply, Productive;
    if steps != [] {
      assert !Publishes(steps[0]);
      InvStep(s, steps[0]);
      WorkStep(s, steps[0]);
      forall i | 0 <= i < |steps[1..]| ensures !Publishes(steps[1..][i]) {
        assert steps[1..][i] == steps[i + 1];
      }
      WorkRunsOut(Apply(s, steps[0]), steps[1..], t);
    }
  }

  function NextSegment(a: Attempt): HandlerStep
    requires !a.pc.Finished? && !a.pc.Abandoned?
  {
    match a.pc
    case Delivered => Start
    case Checking(_) => FindResolves
    case Working(_) => RunEffect
    case Saving(_) => CommitRow
    case Saved(_) => SaveResolves
  }

  // Progress: while a consumer is connected, either the main queue is empty, or the broker or
  // an attempt can move, or what is left is held by attempts that will never settle it, and
  // losing their channel returns it.
  lemma NothingElseIsStuck(s: State, c: Chan)
    requires Inv(s) && c in s.channels && s.channels[c].phase == CONSUMING
    requires forall b :: !BrokerEnabled(s, b)
    requires forall t, h :: !HandlerEnabled(s, t, h)
    ensures s.queue.ready == {}
    ensures forall t :: t in s.queue.unacked ==>
              t in s.attempts && s.attempts[t].pc.Abandoned?
              && Enabled(s, OfLink(Lose(t.chan))) && Productive(s, OfLink(Lose(t.chan)))
  {
    if m :| m in s.queue.ready {
      assert BrokerEnabled(s, Push(c, m));
    }
    forall t | t in s.queue.unacked
      ensures t in s.attempts && s.attempts[t].pc.Abandoned?
           && Enabled(s, OfLink(Lose(t.chan))) && Productive(s, OfLink(Lose(t.chan)))
    {
      assert t in s.attempts && t.chan in s.channels;
      assert t in HeldOn(s, {t.chan});
      if s.attempts[t].pc.Finished? {
        assert BrokerEnabled(s, Settle(t));
      } else if !s.attempts[t].pc.Abandoned? {
        assert HandlerEnabled(s, t, NextSegment(s.attempts[t]));
      }
    }
  }
}
