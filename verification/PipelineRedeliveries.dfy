/** What redelivery of a single message can lead to, for every delivery limit: an effect that
    runs twice although no two attempts overlap, and a recorded event in the dead-letter queue. */
module PipelineRedeliveries {
  import opened Collections
  import opened QuorumQueue
  import opened Pipeline
  import opened PipelineInvariant
  import opened PipelineWitnesses

  const ATTEMPT := [Start, FindResolves]

  // The only message waits in the main queue after k returns, no attempt is under way, and its
  // event is not recorded; path are the segments taken so far, one attempt at a time.
  ghost predicate Waiting(limit: nat, s: State, k: nat, path: seq<HandlerStep>) {
    Through(limit, s, path) && Resting(limit, s, k)
  }

  ghost predicate Resting(limit: nat, s: State, k: nat) {
    && s.queue.limit == limit && Consuming(s)
    && 0 in s.queue.ready && Routed0(s.queue) && s.queue.Count(0) == k
    && PAYLOAD.eventId !in s.processed
    && (forall u :: u in s.attempts ==> s.attempts[u].pc.Finished?)
  }

  predicate Consuming(s: State) {
    && CONSUMER in s.channels && s.channels[CONSUMER].phase == CONSUMING && s.topology.dlqBound
  }

  predicate Routed0(q: Queue) {
    q.body == map[0 := Event(PAYLOAD)] && 0 in q.count
  }

  // Attempt t holds the only message and stands at pc; no other attempt is under way.
  ghost predicate InHand(limit: nat, s: State, t: Tag, k: nat, pc: Pc, path: seq<HandlerStep>) {
    Through(limit, s, path) && Held0(limit, s, t, k, pc)
  }

  ghost predicate Held0(limit: nat, s: State, t: Tag, k: nat, pc: Pc) {
    && s.queue.limit == limit && Consuming(s)
    && t.chan == CONSUMER && t in s.queue.unacked && s.queue.unacked[t] == 0
    && Routed0(s.queue) && s.queue.Count(0) == k
    && t in s.attempts && s.attempts[t] == Attempt(0, Event(PAYLOAD), pc)
    && (forall u :: u in s.attempts && u != t ==> s.attempts[u].pc.Finished?)
  }

  lemma SentWaiting(limit: nat) returns (s: State)
    ensures Waiting(limit, s, 0, []) && s.effects == map[]
  {
    hide Through;
    SetUpThrough(limit, CONSUMING);
    var s0 := SetUp(limit, CONSUMING);
    var send := OfWire(Send(Buffered(0, PAYLOAD), 0));
    s := Apply(s0, send);
    ThroughQuietly(limit, s0, [], send);
  }

  lemma Take(limit: nat, s: State, k: nat, path: seq<HandlerStep>) returns (s': State, t: Tag)
    requires Waiting(limit, s, k, path)
    ensures InHand(limit, s', t, k, Delivered, path) && s'.processed == s.processed && s'.effects == s.effects
  {
    hide Through, Held0, Deliver, Lone;
    t, s' := Tag(CONSUMER, s.channels[CONSUMER].nextTag), Pushed(s, CONSUMER, 0);
    TakenInHand(limit, s, k);
    ThroughQuietly(limit, s, path, OfBroker(Push(CONSUMER, 0)));
  }

  lemma TakenInHand(limit: nat, s: State, k: nat)
    requires Resting(limit, s, k)
    ensures BrokerEnabled(s, Push(CONSUMER, 0))
    ensures (var s' := Pushed(s, CONSUMER, 0);
             Lone(s') && Held0(limit, s', Tag(CONSUMER, s.channels[CONSUMER].nextTag), k, Delivered))
  {
  }

  // A segment that sends no answer.
  lemma Advance(limit: nat, s: State, t: Tag, k: nat, pc: Pc, step: HandlerStep, pc': Pc, path: seq<HandlerStep>)
    returns (s': State)
    requires InHand(limit, s, t, k, pc, path) && HandlerEnabled(s, t, step)
    requires Segment(s.processed, s.attempts[t], step) == Decision(pc', None)
    ensures InHand(limit, s', t, k, pc', path + [step])
    ensures !step.CommitRow? ==> s'.processed == s.processed
    ensures !step.RunEffect? ==> s'.effects == s.effects
    ensures step.RunEffect? && pc == Working(PAYLOAD) ==> s'.Effects(PAYLOAD.eventId) == s.Effects(PAYLOAD.eventId) + 1
    ensures step.CommitRow? && pc.Saving? ==> pc.payload.eventId in s'.processed
  {
    hide Through, Segment;
    s' := ApplyHandler(s, t, step);
    ThroughExtends(limit, s, path, OfHandler(t, step));
  }

  lemma Checked(limit: nat, s: State, k: nat, path: seq<HandlerStep>) returns (s': State, t: Tag)
    requires Waiting(limit, s, k, path)
    ensures InHand(limit, s', t, k, Working(PAYLOAD), path + ATTEMPT)
    ensures s'.processed == s.processed && s'.effects == s.effects
  {
    s', t := Take(limit, s, k, path);
    s' := Advance(limit, s', t, k, Delivered, Start, Checking(PAYLOAD), path);
    s' := Advance(limit, s', t, k, Checking(PAYLOAD), FindResolves, Working(PAYLOAD), path + [Start]);
    assert path + [Start] + [FindResolves] == path + ATTEMPT;
    hide InHand;
  }

  // The effect throws, or the save is rejected before its commit: the message comes back with
  // one more on its count.
  lemma ComesBack(limit: nat, s: State, t: Tag, k: nat, pc: Pc, step: HandlerStep, path: seq<HandlerStep>)
    returns (s': State)
    requires InHand(limit, s, t, k, pc, path) && k < limit && PAYLOAD.eventId !in s.processed
    requires (pc == Working(PAYLOAD) && step.EffectThrows?) || (pc == Saving(PAYLOAD) && step.SaveRejects?)
    ensures Waiting(limit, s', k + 1, path + [step]) && s'.effects == s.effects
  {
    hide Through, Lone, Resting;
    var s1 := ApplyHandler(s, t, step);
    Nacked(s, t, step);
    NackedLone(limit, s, t, k, pc, s1);
    ThroughExtends(limit, s, path, OfHandler(t, step));
    hide ApplyHandler;
    s' := Settled(s1, t);
    Requeued(s1.queue, t, s1.topology.dlqBound);
    BackRests(limit, s, t, k, pc, s1);
    ThroughQuietly(limit, s1, path + [step], OfBroker(Settle(t)));
  }

  predicate NackedFrom(s: State, t: Tag, s1: State)
    requires t in s.attempts
  {
    && t in s1.frames && s1.frames[t] == NackRequeue
    && s1.queue == s.queue && s1.channels == s.channels && s1.topology == s.topology
    && s1.processed == s.processed && s1.effects == s.effects
    && s1.attempts == s.attempts[t := s.attempts[t].(pc := Finished)]
  }

  lemma NackedLone(limit: nat, s: State, t: Tag, k: nat, pc: Pc, s1: State)
    requires Held0(limit, s, t, k, pc) && NackedFrom(s, t, s1)
    ensures Lone(s1)
  {
  }

  lemma BackRests(limit: nat, s: State, t: Tag, k: nat, pc: Pc, s1: State)
    requires Held0(limit, s, t, k, pc) && k < limit && PAYLOAD.eventId !in s.processed && NackedFrom(s, t, s1)
    ensures Resting(limit, Settled(s1, t), k + 1) && Lone(Settled(s1, t))
  {
    Requeued(s1.queue, t, s1.topology.dlqBound);
    hide AfterAnswer;
  }

  lemma Nacked(s: State, t: Tag, step: HandlerStep)
    requires HandlerEnabled(s, t, step) && t.chan in s.channels && (step.EffectThrows? || step.SaveRejects?)
    ensures NackedFrom(s, t, ApplyHandler(s, t, step))
  {
  }

  lemma Requeued(q: Queue, t: Tag, bound: bool)
    requires t in q.unacked && q.unacked[t] in q.count && q.Count(q.unacked[t]) < q.limit
    ensures (var q' := AfterAnswer(q, t, NackRequeue, bound);
             && q.unacked[t] in q'.ready && q'.Count(q.unacked[t]) == q.Count(q.unacked[t]) + 1
             && q'.body == q.body && q'.limit == q.limit && q'.count.Keys == q.count.Keys)
  {
  }

  lemma {:induction false} FailedOften(limit: nat, k: nat) returns (s: State, path: seq<HandlerStep>)
    requires k <= limit
    ensures Waiting(limit, s, k, path)
  {
    hide Waiting, InHand;
    if k == 0 {
      s := SentWaiting(limit);
      path := [];
    } else {
      var s0;
      s0, path := FailedOften(limit, k - 1);
      s := Failed(limit, s0, k - 1, path);
      path := path + ATTEMPT + [EffectThrows];
    }
  }

  lemma Failed(limit: nat, s: State, k: nat, path: seq<HandlerStep>) returns (s': State)
    requires Waiting(limit, s, k, path) && k < limit
    ensures Waiting(limit, s', k + 1, path + ATTEMPT + [EffectThrows])
  {
    var s1, t := Checked(limit, s, k, path);
    hide InHand;
    s' := ComesBack(limit, s1, t, k, Working(PAYLOAD), EffectThrows, path + ATTEMPT);
  }

  const LOST_SAVE := [Start, FindResolves, RunEffect, SaveRejects]

  lemma EffectLost(limit: nat) returns (s: State)
    requires limit > 0
    ensures Waiting(limit, s, 1, LOST_SAVE) && s.Effects(PAYLOAD.eventId) == 1
  {
    var s0 := SentWaiting(limit);
    var s1, t := Checked(limit, s0, 0, []);
    assert s1.Effects(PAYLOAD.eventId) == 0;
    hide Through;
    var s2 := EffectRun(limit, s1, t, 0, [] + ATTEMPT);
    s := ComesBack(limit, s2, t, 0, Saving(PAYLOAD), SaveRejects, [] + ATTEMPT + [RunEffect]);
    assert [] + ATTEMPT + [RunEffect] + [SaveRejects] == LOST_SAVE;
  }

  // One message and at every point of the run at most one attempt under way, and still the effect
  // runs twice: the save of the first attempt is rejected before the second attempt checks, so
  // the second check finds no row.
  lemma EffectTwiceWithoutOverlap(limit: nat) returns (steps: seq<Step>, s: State)
    requires limit > 0
    ensures Run(Initial(limit), steps, s) && AlwaysLone(Initial(limit), steps)
    ensures Segments(steps) == LOST_SAVE + [Start, FindResolves, RunEffect]
    ensures s.Effects(PAYLOAD.eventId) == 2 && PAYLOAD.eventId !in s.processed
  {
    var s0 := EffectLost(limit);
    var s1, t := Checked(limit, s0, 1, LOST_SAVE);
    s := EffectRun(limit, s1, t, 1, LOST_SAVE + ATTEMPT);
    assert LOST_SAVE + ATTEMPT + [RunEffect] == LOST_SAVE + [Start, FindResolves, RunEffect];
    hide Run, AlwaysLone, Segments;
    steps :| Run(Initial(limit), steps, s) && AlwaysLone(Initial(limit), steps)
             && Segments(steps) == LOST_SAVE + [Start, FindResolves, RunEffect];
  }

  lemma RecordedOnLast(limit: nat) returns (s: State, t: Tag)
    ensures Reachable(limit, s) && s.queue.limit == limit && Consuming(s)
    ensures t.chan == CONSUMER && t in s.queue.unacked && s.queue.unacked[t] == 0
    ensures Routed0(s.queue) && s.queue.Count(0) == limit && PAYLOAD.eventId in s.processed
    ensures HandlerEnabled(s, t, SaveResolves)
  {
    hide Through, Reachable, Waiting;
    var s0, path := FailedOften(limit, limit);
    s, t := Recorded(limit, s0, limit, path);
    ThroughReachable(limit, s, path + ATTEMPT + [RunEffect] + [CommitRow]);
  }

  lemma Recorded(limit: nat, s: State, k: nat, path: seq<HandlerStep>) returns (s': State, t: Tag)
    requires Waiting(limit, s, k, path)
    ensures InHand(limit, s', t, k, Saved(PAYLOAD), path + ATTEMPT + [RunEffect] + [CommitRow])
    ensures PAYLOAD.eventId in s'.processed
  {
    hide Waiting, InHand;
    s', t := Checked(limit, s, k, path);
    s' := EffectRun(limit, s', t, k, path + ATTEMPT);
    s' := RowCommitted(limit, s', t, k, path + ATTEMPT + [RunEffect]);
  }

  lemma EffectRun(limit: nat, s: State, t: Tag, k: nat, path: seq<HandlerStep>) returns (s': State)
    requires InHand(limit, s, t, k, Working(PAYLOAD), path)
    ensures InHand(limit, s', t, k, Saving(PAYLOAD), path + [RunEffect]) && s'.processed == s.processed
    ensures s'.Effects(PAYLOAD.eventId) == s.Effects(PAYLOAD.eventId) + 1
  {
    hide Through;
    s' := Advance(limit, s, t, k, Working(PAYLOAD), RunEffect, Saving(PAYLOAD), path);
    hide InHand;
  }

  lemma RowCommitted(limit: nat, s: State, t: Tag, k: nat, path: seq<HandlerStep>) returns (s': State)
    requires InHand(limit, s, t, k, Saving(PAYLOAD), path)
    ensures InHand(limit, s', t, k, Saved(PAYLOAD), path + [CommitRow]) && PAYLOAD.eventId in s'.processed
  {
    hide Through;
    s' := Advance(limit, s, t, k, Saving(PAYLOAD), CommitRow, Saved(PAYLOAD), path);
    hide InHand;
  }

  // For every limit there is a run at whose end an event is recorded, its effect has run, and
  // its message is in the dead-letter queue.
  lemma RecordedYetDead(limit: nat) returns (s: State, m: Mid)
    ensures Reachable(limit, s) && m in s.queue.dead && m in s.queue.body && s.queue.body[m].Event?
    ensures s.queue.body[m].payload.eventId in s.processed
    ensures s.Effects(s.queue.body[m].payload.eventId) >= 1
  {
    var s1, t := RecordedOnLast(limit);
    var s2 := ApplyHandler(s1, t, SaveResolves);
    SaveAnswered(s1, t);
    hide Reachable;
    ReachableExtends(limit, s1, OfHandler(t, SaveResolves));
    hide ApplyHandler, Return;
    s, m := Disconnected(s2, {CONSUMER}), 0;
    ReachableExtends(limit, s2, OfLink(Lose(CONSUMER)));
    var tags := set u | u in s2.queue.unacked && u.chan in {CONSUMER};
    assert t in tags;
    ReturnOver(s2.queue, tags, t);
    EffectBehindRow(limit, s, PAYLOAD.eventId);
  }

  lemma SaveAnswered(s: State, t: Tag)
    requires HandlerEnabled(s, t, SaveResolves)
    ensures (var s1 := ApplyHandler(s, t, SaveResolves);
             s1.queue == s.queue && s1.channels == s.channels && s1.topology == s.topology && s1.processed == s.processed)
  {
  }

  lemma ReturnOver(q: Queue, tags: set<Tag>, t: Tag)
    requires tags <= q.unacked.Keys && t in tags && q.Count(q.unacked[t]) >= q.limit
    ensures q.unacked[t] in Return(q, tags, true).dead && Return(q, tags, true).body == q.body
  {
  }

  lemma EffectBehindRow(limit: nat, s: State, e: Id)
    requires Reachable(limit, s) && e in s.processed
    ensures s.Effects(e) >= 1
  {
    var steps :| Run(Initial(limit), steps, s);
    InitialInv(limit);
    InvRun(Initial(limit), steps, s);
    hide QuorumQueue.Valid, TagsIssued, Held, Answering, Faithful, Wired, FramesFit, AckedRecorded,
      DeadExplained, MintedFits, OutboxGenuine, BodiesGenuine, RowsGenuine, CallsFit;
  }
}
