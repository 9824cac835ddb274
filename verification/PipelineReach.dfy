/** What the rest of the system can still do to a message: a consumer can always be connected,
    and until a message is acknowledged it can still be dead-lettered. */
module PipelineReach {
  import opened Collections
  import opened QuorumQueue
  import opened Pipeline
  import opened PipelineFrames
  import opened PipelineInvariant
  import opened PipelineSafety
  import opened PipelineSetup
  import opened PipelineWitnesses

  // ---- A consumer can always be connected ----

  // Only connections and topology differ.
  ghost predicate Reconnected(s: State, s': State) {
    s' == s.(topology := s'.topology, channels := s'.channels, used := s'.used)
  }

  lemma FreshChannel(used: set<Chan>) returns (c: Chan)
    ensures c !in used
  {
    var epochs := set d | d in used :: d.epoch;
    var epoch := FreshExists(epochs);
    assert forall d :: d in used ==> d.epoch in epochs;
    c := Chan(0, epoch);
  }

  lemma SetupStep(s: State, c: Chan)
    requires Inv(s) && c in s.channels && c in s.used && s.channels[c].phase < CONSUMING
    ensures Enabled(s, OfLink(Setup(c)))
    ensures (var s' := Apply(s, OfLink(Setup(c)));
             && Inv(s') && Reconnected(s, s') && c in s'.channels && c in s'.used
             && s'.channels[c].phase == s.channels[c].phase + 1)
  {
    SetupNeverRefused(s, c);
    InvStep(s, OfLink(Setup(c)));
    hide Inv;
  }

  predicate LinksOnly(steps: seq<Step>) {
    forall i :: 0 <= i < |steps| ==> steps[i].OfLink?
  }

  lemma {:induction false} SetsUp(s: State, c: Chan) returns (steps: seq<Step>, t: State)
    requires Inv(s) && c in s.channels && c in s.used && s.channels[c].phase <= CONSUMING
    ensures Run(s, steps, t) && Inv(t) && Reconnected(s, t) && LinksOnly(steps)
    ensures c in t.channels && t.channels[c].phase == CONSUMING
    decreases CONSUMING - s.channels[c].phase
  {
    hide Inv, Enabled, Apply;
    if s.channels[c].phase == CONSUMING {
      steps, t := [], s;
    } else {
      SetupStep(s, c);
      var rest;
      rest, t := SetsUp(Apply(s, OfLink(Setup(c))), c);
      steps := [OfLink(Setup(c))] + rest;
      assert steps[1..] == rest;
    }
  }

  lemma Opens(s: State, c: Chan)
    requires Inv(s) && c !in s.used
    ensures Enabled(s, OfLink(Open(c)))
    ensures (var s' := Apply(s, OfLink(Open(c)));
             Inv(s') && Reconnected(s, s') && c in s'.channels && c in s'.used && s'.channels[c].phase == 0)
  {
    InvStep(s, OfLink(Open(c)));
    hide Inv;
  }

  lemma ConsumerConnects(s: State) returns (steps: seq<Step>, t: State, c: Chan)
    requires Inv(s)
    ensures Run(s, steps, t) && Inv(t) && Reconnected(s, t) && LinksOnly(steps)
    ensures c in t.channels && t.channels[c].phase == CONSUMING && t.topology.exchange && t.topology.queueBound
  {
    c := FreshChannel(s.used);
    Opens(s, c);
    hide Inv, Enabled, Apply;
    var rest;
    rest, t := SetsUp(Apply(s, OfLink(Open(c))), c);
    steps := [OfLink(Open(c))] + rest;
    assert steps[1..] == rest;
    ConsumerTopology(t, c);
  }

  lemma ConsumerTopology(s: State, c: Chan)
    requires Inv(s) && c in s.channels && s.channels[c].phase == CONSUMING
    ensures s.topology.exchange && s.topology.queueBound && s.topology.dlqBound
  {
    hide QuorumQueue.Valid, TagsIssued, Held, Answering, Faithful, RowsBacked, FramesFit, AckedRecorded,
      DeadExplained, MintedFits, OutboxGenuine, BodiesGenuine, RowsGenuine, CallsFit;
  }

  lemma Joined(s: State, before: seq<Step>, t: State, step: Step, after: seq<Step>, u: State)
    requires Run(s, before, t) && Enabled(t, step) && Run(Apply(t, step), after, u)
    ensures Run(s, before + ([step] + after), u)
  {
    hide Enabled, Apply;
    assert ([step] + after)[1..] == after;
    RunJoins(s, before, t, [step] + after, u);
  }

  // ---- Until it is acknowledged, a message can be dead-lettered ----

  lemma AckedOnLink(s: State, step: LinkStep)
    requires LinkEnabled(s, step)
    ensures ApplyLink(s, step).queue.acked == s.queue.acked
  {
  }

  lemma AckedOnAnswer(q: Queue, t: Tag, frame: Frame, bound: bool)
    ensures q.acked <= AfterAnswer(q, t, frame, bound).acked
  {
  }

  lemma AckedStep(s: State, step: Step)
    requires Enabled(s, step)
    ensures s.queue.acked <= Apply(s, step).queue.acked
  {
    hide ApplyCall, ApplyWire, ApplyLink, ApplyBroker, ApplyHandler;
    match step
    case OfCall(c, k) => CallFrame(s, c, k);
    case OfWire(w) => WireFrame(s, w);
    case OfLink(l) => AckedOnLink(s, l);
    case OfBroker(b) => AckedByBroker(s, b);
    case OfHandler(t, h) => HandlerFrame(s, t, h);
  }

  lemma AckedByBroker(s: State, step: BrokerStep)
    requires BrokerEnabled(s, step)
    ensures s.queue.acked <= ApplyBroker(s, step).queue.acked
  {
    if step.Settle? {
      AckedOnAnswer(s.queue, step.tag, s.frames[step.tag], s.topology.dlqBound);
    }
    hide AfterAnswer;
  }

  lemma {:induction false} AckedForever(s: State, steps: seq<Step>, t: State, m: Mid)
    requires Run(s, steps, t) && m in s.queue.acked
    ensures m in t.queue.acked
    decreases |steps|
  {
    hide Enabled, Apply;
    if steps != [] {
      AckedStep(s, steps[0]);
      AckedForever(Apply(s, steps[0]), steps[1..], t, m);
    }
  }

  // A returned message has one more on its count, and is ready or dead.
  lemma ReturnedOnce(q: Queue, tags: set<Tag>, t: Tag)
    requires QuorumQueue.Valid(q) && tags <= q.unacked.Keys && t in tags
    ensures (var q', m := Return(q, tags, true), q.unacked[t];
             && q'.limit == q.limit && q'.body == q.body && m in q.body
             && q'.Count(m) == q.Count(m) + 1 <= q.limit + 1
             && (if q.Count(m) < q.limit then m in q'.ready else m in q'.dead))
  {
    OutstandingRouted(q);
  }

  // How far a message is from the dead-letter queue.
  ghost function Distance(q: Queue, m: Mid): nat {
    var left := if q.Count(m) <= q.limit then q.limit - q.Count(m) else 0;
    if m in q.ready then 2 * left + 2 else if m in q.Outstanding() then 2 * left + 1 else 0
  }

  lemma ReturnDistance(q: Queue, tags: set<Tag>, t: Tag)
    requires QuorumQueue.Valid(q) && tags <= q.unacked.Keys && t in tags
    ensures (var q', m := Return(q, tags, true), q.unacked[t];
             && QuorumQueue.Valid(q') && m in q'.body && m !in q'.acked && Distance(q', m) < Distance(q, m))
  {
    ReturnedOnce(q, tags, t);
    ReturnValid(q, tags, true);
    assert q.unacked[t] in q.Outstanding();
    hide Return;
  }

  lemma LostQueue(s: State, t: Tag)
    requires Inv(s) && t in s.queue.unacked
    ensures LinkEnabled(s, Lose(t.chan)) && HeldOn(s, {t.chan}) <= s.queue.unacked.Keys && t in HeldOn(s, {t.chan})
    ensures ApplyLink(s, Lose(t.chan)).queue == Return(s.queue, HeldOn(s, {t.chan}), true)
    ensures QuorumQueue.Valid(s.queue)
  {
    hide QuorumQueue.Valid, TagsIssued, Answering, Faithful, RowsBacked, FramesFit, AckedRecorded,
      DeadExplained, MintedFits, OutboxGenuine, BodiesGenuine, RowsGenuine, CallsFit, Return;
  }

  lemma Loses(s: State, t: Tag)
    requires Inv(s) && t in s.queue.unacked
    ensures LinkEnabled(s, Lose(t.chan))
    ensures (var s', m := ApplyLink(s, Lose(t.chan)), s.queue.unacked[t];
             && Inv(s') && m in s'.queue.body && m !in s'.queue.acked
             && Distance(s'.queue, m) < Distance(s.queue, m))
  {
    hide Inv, QuorumQueue.Valid, Return, ApplyLink, Distance, HeldOn;
    LostQueue(s, t);
    LinkInv(s, Lose(t.chan));
    ReturnDistance(s.queue, HeldOn(s, {t.chan}), t);
  }

  lemma Pushes(s: State, c: Chan, m: Mid)
    requires Inv(s) && c in s.channels && s.channels[c].phase == CONSUMING && m in s.queue.ready
    ensures BrokerEnabled(s, Push(c, m))
    ensures (var s' := ApplyBroker(s, Push(c, m));
             && Inv(s') && m in s'.queue.body && m !in s'.queue.acked && m in s'.queue.Outstanding()
             && Distance(s'.queue, m) < Distance(s.queue, m))
  {
    hide Inv, Distance, Deliver, QuorumQueue.Valid;
    PushReady(s, c, m);
    PushedInv(s, c, m);
    DeliverDistance(s.queue, Tag(c, s.channels[c].nextTag), m);
  }

  lemma PushReady(s: State, c: Chan, m: Mid)
    requires Inv(s) && c in s.channels && s.channels[c].phase == CONSUMING && m in s.queue.ready
    ensures BrokerEnabled(s, Push(c, m)) && QuorumQueue.Valid(s.queue) && Tag(c, s.channels[c].nextTag) !in s.queue.unacked
  {
    assert m in s.queue.body;
    PushedLinked(s, c, m);
    hide Answering, Faithful, Wired, RowsBacked, FramesFit, AckedRecorded,
      DeadExplained, MintedFits, OutboxGenuine, BodiesGenuine, RowsGenuine, CallsFit;
  }

  lemma DeliverDistance(q: Queue, t: Tag, m: Mid)
    requires QuorumQueue.Valid(q) && m in q.ready && t !in q.unacked
    ensures (var q' := Deliver(q, t, m);
             && m in q'.body && m !in q'.acked && m in q'.Outstanding() && Distance(q', m) < Distance(q, m))
  {
    DeliverValid(q, t, m);
  }

  lemma Places(s: State, m: Mid)
    requires Inv(s) && m in s.queue.body
    ensures m in s.queue.ready || m in s.queue.Outstanding() || m in s.queue.acked || m in s.queue.dead
    ensures m in s.queue.acked ==> m !in s.queue.dead
  {
    hide TagsIssued, Held, Answering, Faithful, RowsBacked, FramesFit, AckedRecorded,
      DeadExplained, MintedFits, OutboxGenuine, BodiesGenuine, RowsGenuine, CallsFit;
  }

  lemma {:induction false} CanDie(s: State, m: Mid) returns (steps: seq<Step>, t: State)
    requires Inv(s) && m in s.queue.body && m !in s.queue.acked
    ensures Run(s, steps, t) && m in t.queue.dead
    decreases Distance(s.queue, m)
  {
    Places(s, m);
    hide Inv, Enabled, Apply, Distance;
    if m in s.queue.dead {
      steps, t := [], s;
    } else if m in s.queue.ready {
      var open, s1, c := ConsumerConnects(s);
      Pushes(s1, c, m);
      var rest;
      rest, t := CanDie(ApplyBroker(s1, Push(c, m)), m);
      StepIs(s1, OfBroker(Push(c, m)));
      Joined(s, open, s1, OfBroker(Push(c, m)), rest, t);
      steps := open + ([OfBroker(Push(c, m))] + rest);
    } else {
      var tag :| tag in s.queue.unacked && s.queue.unacked[tag] == m;
      Loses(s, tag);
      var rest;
      rest, t := CanDie(ApplyLink(s, Lose(tag.chan)), m);
      StepIs(s, OfLink(Lose(tag.chan)));
      steps := [OfLink(Lose(tag.chan))] + rest;
      assert steps[1..] == rest;
    }
  }

  lemma StepIs(s: State, step: Step)
    ensures step.OfBroker? && BrokerEnabled(s, step.brokerStep) ==>
              Enabled(s, step) && Apply(s, step) == ApplyBroker(s, step.brokerStep)
    ensures step.OfLink? && LinkEnabled(s, step.linkStep) ==>
              Enabled(s, step) && Apply(s, step) == ApplyLink(s, step.linkStep)
    ensures step.OfHandler? && HandlerEnabled(s, step.tag, step.handlerStep) ==>
              Enabled(s, step) && Apply(s, step) == ApplyHandler(s, step.tag, step.handlerStep)
  {
  }

  ghost predicate CanBeDeadLettered(s: State, m: Mid) {
    exists steps, t :: Run(s, steps, t) && m in t.queue.dead
  }

  // Exactly when a message is safe from the dead-letter queue, recorded or not: once its ack
  // has reached the broker, and not before.
  lemma DeadLetterableIffNotAcked(limit: nat, s: State, m: Mid)
    requires Reachable(limit, s) && m in s.queue.body
    ensures CanBeDeadLettered(s, m) <==> m !in s.queue.acked
  {
    ReachableInv(limit, s);
    hide Inv, Reachable;
    if m in s.queue.acked {
      forall steps, t | Run(s, steps, t) ensures m !in t.queue.dead {
        AckedForever(s, steps, t, m);
        InvRun(s, steps, t);
        AckedIsRouted(t, m);
        Places(t, m);
      }
    } else {
      var steps, t := CanDie(s, m);
    }
  }

  lemma AckedIsRouted(s: State, m: Mid)
    requires Inv(s) && m in s.queue.acked
    ensures m in s.queue.body
  {
    hide TagsIssued, Held, Answering, Faithful, RowsBacked, FramesFit, QuorumQueue.Valid,
      DeadExplained, MintedFits, OutboxGenuine, BodiesGenuine, RowsGenuine, CallsFit;
  }
}
