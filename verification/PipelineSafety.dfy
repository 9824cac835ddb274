/** What holds in every reachable state of the pipeline. */
module PipelineSafety {
  import opened Collections
  import opened QuorumQueue
  import opened Pipeline
  import opened PipelineFrames
  import opened PipelineInvariant

  lemma LimitKept(s: State, step: Step)
    requires Enabled(s, step)
    ensures Apply(s, step).queue.limit == s.queue.limit
  {
    hide ApplyCall, ApplyWire, ApplyLink, ApplyBroker, ApplyHandler;
    match step
    case OfCall(c, k) => CallFrame(s, c, k);
    case OfWire(w) => WireFrame(s, w);
    case OfLink(l) => LinkFrame(s, l);
    case OfBroker(b) => BrokerFrame(s, b);
    case OfHandler(t, h) => HandlerFrame(s, t, h);
  }

  lemma {:induction false} LimitKeptRun(s: State, steps: seq<Step>, t: State)
    requires Run(s, steps, t)
    ensures t.queue.limit == s.queue.limit
    decreases |steps|
  {
    if steps != [] {
      LimitKept(s, steps[0]);
      LimitKeptRun(Apply(s, steps[0]), steps[1..], t);
    }
  }

  lemma ReachableInv(limit: nat, s: State)
    requires Reachable(limit, s)
    ensures Inv(s) && s.queue.limit == limit
  {
    var steps :| Run(Initial(limit), steps, s);
    InitialInv(limit);
    InvRun(Initial(limit), steps, s);
    LimitKeptRun(Initial(limit), steps, s);
  }

  // Conservation: what was routed to the main queue is, as a multiset of bodies, what is
  // ready, outstanding, acknowledged or dead-lettered.
  lemma NothingLostOrInvented(limit: nat, s: State, b: Body)
    requires Reachable(limit, s)
    ensures Copies(s.queue, s.queue.body.Keys, b)
         == Copies(s.queue, s.queue.ready, b) + Copies(s.queue, s.queue.Outstanding(), b)
            + Copies(s.queue, s.queue.acked, b) + Copies(s.queue, s.queue.dead, b)
    ensures forall m :: m in s.queue.body ==>
              && (m in s.queue.ready ==> m !in s.queue.Outstanding() + s.queue.acked + s.queue.dead)
              && (m in s.queue.Outstanding() ==> m !in s.queue.acked + s.queue.dead)
              && (m in s.queue.acked ==> m !in s.queue.dead)
  {
    ReachableInv(limit, s);
    ConservedByContent(s.queue, b);
    assert Copies(s.queue, {}, b) == 0;
  }

  // A message removed by an ack was recorded, and its effect had run.
  lemma AckMeansDone(limit: nat, s: State, m: Mid)
    requires Reachable(limit, s) && m in s.queue.acked
    ensures m in s.queue.body && s.queue.body[m].Event?
    ensures s.queue.body[m].payload.eventId in s.processed
    ensures s.Effects(s.queue.body[m].payload.eventId) >= 1
  {
    ReachableInv(limit, s);
    hide QuorumQueue.Valid, TagsIssued, Held, Answering, Faithful, Wired, FramesFit,
      DeadExplained, MintedFits, OutboxGenuine, BodiesGenuine, CallsFit;
  }

  // Already when the ack is on its way.
  lemma AckInFlightMeansDone(limit: nat, s: State, t: Tag)
    requires Reachable(limit, s) && t in s.frames && s.frames[t].Ack?
    ensures t in s.queue.unacked && s.queue.unacked[t] in s.queue.body
    ensures Recorded(s.processed, s.queue.body[s.queue.unacked[t]])
    ensures s.Effects(s.queue.body[s.queue.unacked[t]].payload.eventId) >= 1
  {
    ReachableInv(limit, s);
    SettledFacts(s, t);
    hide QuorumQueue.Valid, TagsIssued, Held, Answering, Faithful, Wired, FramesFit,
      DeadExplained, MintedFits, OutboxGenuine, BodiesGenuine, CallsFit;
  }

  // Once a channel is closed it never carries another answer or holds another message, so an
  // attempt that outlived it cannot touch the copy that was requeued.
  ghost predicate Closed(s: State, c: Chan) {
    && c in s.used && c !in s.channels
    && (forall t :: t in s.frames ==> t.chan != c)
    && (forall t :: t in s.queue.unacked ==> t.chan != c)
  }

  lemma ClosedStep(s: State, step: Step, c: Chan)
    requires Closed(s, c) && Enabled(s, step)
    ensures Closed(Apply(s, step), c)
  {
    hide ApplyCall, ApplyWire, ApplyLink, ApplyBroker, ApplyHandler;
    match step
    case OfCall(d, k) => CallFrame(s, d, k);
    case OfWire(w) => WireFrame(s, w);
    case OfLink(l) => LinkFrame(s, l);
    case OfBroker(b) => BrokerFrame(s, b); BrokerTags(s, b);
    case OfHandler(t, h) => HandlerFrame(s, t, h);
  }

  lemma {:induction false} ClosedForever(s: State, steps: seq<Step>, t: State, c: Chan)
    requires Closed(s, c) && Run(s, steps, t)
    ensures Closed(t, c)
    decreases |steps|
  {
    if steps != [] {
      ClosedStep(s, steps[0], c);
      ClosedForever(Apply(s, steps[0]), steps[1..], t, c);
    }
  }

  lemma LostChannelIsClosed(limit: nat, s: State, c: Chan)
    requires Reachable(limit, s) && c in s.used && c !in s.channels
    ensures Closed(s, c)
  {
    ReachableInv(limit, s);
    hide QuorumQueue.Valid, TagsIssued, Faithful, Wired, RowsBacked, FramesFit, AckedRecorded,
      DeadExplained, MintedFits, OutboxGenuine, BodiesGenuine, RowsGenuine, CallsFit;
  }

  // Whatever an attempt does on a channel that is gone, no message moves.
  lemma StaleAttemptMovesNothing(limit: nat, s: State, t: Tag, step: HandlerStep)
    requires Reachable(limit, s) && HandlerEnabled(s, t, step) && t.chan !in s.channels
    ensures ApplyHandler(s, t, step).queue == s.queue && ApplyHandler(s, t, step).frames == s.frames
    ensures t !in s.queue.unacked && t !in s.frames
  {
    ReachableInv(limit, s);
    HandlerFrame(s, t, step);
    hide ApplyHandler, QuorumQueue.Valid, Faithful, Wired, RowsBacked, FramesFit, AckedRecorded,
      DeadExplained, MintedFits, OutboxGenuine, BodiesGenuine, RowsGenuine, CallsFit;
  }

  // The dead-letter queue holds unparseable messages, and messages delivered and returned
  // limit + 1 times.
  lemma DeadLettersExplained(limit: nat, s: State, m: Mid)
    requires Reachable(limit, s) && m in s.queue.dead
    ensures m in s.queue.body
    ensures s.queue.body[m].Event? ==> s.queue.Deliveries(m) == limit + 1 && s.queue.Count(m) == limit + 1
  {
    ReachableInv(limit, s);
    hide QuorumQueue.Valid, TagsIssued, Held, Answering, Faithful, Wired, RowsBacked, FramesFit, AckedRecorded,
      MintedFits, OutboxGenuine, BodiesGenuine, RowsGenuine, CallsFit;
  }

  // An attempt on an unparseable message only ever sends the nack that dead-letters it.
  lemma UnparseableIsDropped(limit: nat, s: State, t: Tag)
    requires Reachable(limit, s) && t in s.attempts && s.attempts[t].body.Unparseable?
    ensures s.attempts[t].pc.Delivered? || s.attempts[t].pc.Finished? || s.attempts[t].pc.Abandoned?
    ensures t in s.frames ==> s.frames[t].NackDrop?
  {
    ReachableInv(limit, s);
    AttemptFacts(s, t);
    hide QuorumQueue.Valid, TagsIssued, Held, Answering, Faithful, Wired, RowsBacked, AckedRecorded,
      DeadExplained, MintedFits, OutboxGenuine, BodiesGenuine, RowsGenuine, CallsFit;
    assert t in s.frames ==> FrameFits(s.processed, s.frames[t], s.attempts[t].body);
  }

  // It touches neither the table nor the effect.
  lemma UnparseableTouchesNothing(limit: nat, s: State, t: Tag, step: HandlerStep)
    requires Reachable(limit, s) && HandlerEnabled(s, t, step) && s.attempts[t].body.Unparseable?
    ensures step.Start?
    ensures Segment(s.processed, s.attempts[t], step) == Decision(Finished, Some(NackDrop))
    ensures ApplyHandler(s, t, step).processed == s.processed && ApplyHandler(s, t, step).effects == s.effects
  {
    UnparseableIsDropped(limit, s, t);
  }

  // The delivery limit counts redeliveries: at most limit + 1 deliveries of one message.
  lemma BoundedDeliveries(limit: nat, s: State, m: Mid)
    requires Reachable(limit, s)
    ensures s.queue.Deliveries(m) <= limit + 1
    ensures m in s.queue.ready ==> s.queue.Deliveries(m) <= limit
  {
    ReachableInv(limit, s);
    hide TagsIssued, Held, Answering, Faithful, Wired, RowsBacked, FramesFit, AckedRecorded,
      DeadExplained, MintedFits, OutboxGenuine, BodiesGenuine, RowsGenuine, CallsFit;
  }

  // Under every interleaving of setups, a channel consumes only when the dead-letter queue and
  // the main queue are bound; a message is in the main queue only then; and nothing that was
  // dead-lettered was dropped. No operation of a setup is ever refused.
  lemma TopologyFirst(limit: nat, s: State)
    requires Reachable(limit, s)
    ensures forall c :: c in s.channels && s.channels[c].phase == CONSUMING ==>
              s.topology.dlqBound && s.topology.queueBound
    ensures s.queue.body != map[] ==> s.topology.queueBound
    ensures s.queue.unacked != map[] ==> s.topology.dlqBound
    ensures s.queue.lost == {}
    ensures forall c :: c in s.channels && s.channels[c].phase < CONSUMING ==> LinkEnabled(s, Setup(c))
  {
    ReachableInv(limit, s);
    hide QuorumQueue.Valid, TagsIssued, Held, Answering, Faithful, RowsBacked, FramesFit, AckedRecorded,
      DeadExplained, MintedFits, OutboxGenuine, BodiesGenuine, RowsGenuine, CallsFit;
  }

  // Causality: an event that is buffered, routed, being handled or recorded names a committed
  // task, and two events never name the same task.
  lemma EventsNameCommittedTasks(limit: nat, s: State)
    requires Reachable(limit, s)
    ensures forall b :: b in s.outbox ==> Genuine(s.tasks, s.minted, b.payload)
    ensures forall m :: m in s.queue.body && s.queue.body[m].Event? ==>
              Genuine(s.tasks, s.minted, s.queue.body[m].payload)
    ensures forall t :: t in s.attempts && s.attempts[t].body.Event? ==>
              Genuine(s.tasks, s.minted, s.attempts[t].body.payload)
    ensures forall e :: e in s.processed || e in s.effects ==> e in s.minted && s.minted[e] in s.tasks
    ensures forall e, f :: e in s.minted && f in s.minted && s.minted[e] == s.minted[f] ==> e == f
  {
    ReachableInv(limit, s);
    forall t | t in s.attempts && s.attempts[t].body.Event?
      ensures Genuine(s.tasks, s.minted, s.attempts[t].body.payload)
    {
      AttemptFacts(s, t);
    }
    hide QuorumQueue.Valid, TagsIssued, Held, Answering, Faithful, Wired, RowsBacked, FramesFit, AckedRecorded,
      DeadExplained, CallsFit;
  }

  // ---- TasksService.create ----

  // Rows that are committed stay as they are.
  ghost predicate RowsStay(before: map<Id, string>, after: map<Id, string>) {
    forall id :: id in before ==> id in after && after[id] == before[id]
  }

  lemma CallKeepsRows(s: State, c: nat, step: CallStep)
    requires CallEnabled(s, c, step)
    ensures RowsStay(s.tasks, ApplyCall(s, c, step).tasks)
  {
  }

  lemma StepKeepsRows(s: State, step: Step)
    requires Enabled(s, step)
    ensures RowsStay(s.tasks, Apply(s, step).tasks)
  {
    hide ApplyCall, ApplyWire, ApplyLink, ApplyBroker, ApplyHandler;
    match step
    case OfCall(c, k) => CallKeepsRows(s, c, k);
    case OfWire(w) => WireFrame(s, w);
    case OfLink(l) => LinkFrame(s, l);
    case OfBroker(b) => BrokerFrame(s, b);
    case OfHandler(t, h) => HandlerFrame(s, t, h);
  }

  lemma NoRowChanges(tasks: map<Id, string>)
    ensures RowsStay(tasks, tasks)
  {
  }

  lemma RowsStayOn(a: map<Id, string>, b: map<Id, string>, c: map<Id, string>)
    requires RowsStay(a, b) && RowsStay(b, c)
    ensures RowsStay(a, c)
  {
  }

  // The title a call began with.
  function BegunWith(steps: seq<Step>, c: nat): Option<string> {
    if steps == [] then None
    else if steps[0].OfCall? && steps[0].call == c && steps[0].callStep.Begin? then Some(steps[0].callStep.title)
    else BegunWith(steps[1..], c)
  }

  lemma OwnTitle(s: State, c: nat, step: CallStep)
    requires CallEnabled(s, c, step)
    ensures c in ApplyCall(s, c, step).calls
    ensures ApplyCall(s, c, step).calls[c].title == if step.Begin? then step.title else s.calls[c].title
    ensures step.Begin? <==> c !in s.calls
  {
  }

  lemma LinkTitle(s: State, step: LinkStep, c: nat)
    requires LinkEnabled(s, step)
    ensures c in ApplyLink(s, step).calls <==> c in s.calls
    ensures c in s.calls ==> ApplyLink(s, step).calls[c].title == s.calls[c].title
  {
    hide Return;
  }

  // A call keeps the title it began with.
  lemma TitleStep(s: State, step: Step, c: nat)
    requires Enabled(s, step)
    ensures (var s' := Apply(s, step);
             if step.OfCall? && step.call == c && step.callStep.Begin? then
               c !in s.calls && c in s'.calls && s'.calls[c].title == step.callStep.title
             else
               (c in s'.calls <==> c in s.calls) && (c in s.calls ==> s'.calls[c].title == s.calls[c].title))
  {
    hide ApplyCall, ApplyWire, ApplyLink, ApplyBroker, ApplyHandler;
    match step
    case OfCall(d, k) =>
      if d == c {
        OwnTitle(s, c, k);
      } else {
        CallLeavesOthers(s, d, k, c);
      }
    case OfWire(w) => WireFrame(s, w);
    case OfLink(l) => LinkTitle(s, l, c);
    case OfBroker(b) => BrokerFrame(s, b);
    case OfHandler(t, h) => HandlerFrame(s, t, h);
  }

  lemma {:induction false} TitleKept(s: State, steps: seq<Step>, t: State, c: nat)
    requires Run(s, steps, t) && c in t.calls
    ensures if c in s.calls then t.calls[c].title == s.calls[c].title else BegunWith(steps, c) == Some(t.calls[c].title)
    decreases |steps|
  {
    hide Enabled, Apply;
    if steps != [] {
      TitleStep(s, steps[0], c);
      TitleKept(Apply(s, steps[0]), steps[1..], t, c);
    }
  }

  // Every row has the title of a call that is known.
  ghost predicate Titled(s: State) {
    forall id :: id in s.tasks ==> exists c :: c in s.calls && s.calls[c].title == s.tasks[id]
  }

  lemma CallTitled(s: State, c: nat, step: CallStep)
    requires CallEnabled(s, c, step) && Titled(s)
    ensures Titled(ApplyCall(s, c, step))
  {
    var s' := ApplyCall(s, c, step);
    forall id | id in s'.tasks ensures exists d :: d in s'.calls && s'.calls[d].title == s'.tasks[id] {
      if id in s.tasks {
        var d :| d in s.calls && s.calls[d].title == s.tasks[id];
        assert d in s'.calls && s'.calls[d].title == s'.tasks[id];
      } else {
        assert c in s'.calls && s'.calls[c].title == s'.tasks[id];
      }
    }
  }

  lemma LinkTitled(s: State, step: LinkStep)
    requires LinkEnabled(s, step) && Titled(s)
    ensures Titled(ApplyLink(s, step))
  {
    var s' := ApplyLink(s, step);
    LinkFrame(s, step);
    forall id | id in s'.tasks ensures exists d :: d in s'.calls && s'.calls[d].title == s'.tasks[id] {
      var d :| d in s.calls && s.calls[d].title == s.tasks[id];
      LinkTitle(s, step, d);
    }
    hide ApplyLink;
  }

  lemma TitledStep(s: State, step: Step)
    requires Enabled(s, step) && Titled(s)
    ensures Titled(Apply(s, step))
  {
    hide ApplyCall, ApplyWire, ApplyLink, ApplyBroker, ApplyHandler;
    match step
    case OfCall(c, k) => CallTitled(s, c, k);
    case OfWire(w) => WireFrame(s, w);
    case OfLink(l) => LinkTitled(s, l);
    case OfBroker(b) => BrokerFrame(s, b);
    case OfHandler(t, h) => HandlerFrame(s, t, h);
  }

  lemma {:induction false} TitledRun(s: State, steps: seq<Step>, t: State)
    requires Run(s, steps, t) && Titled(s)
    ensures Titled(t)
    decreases |steps|
  {
    hide Enabled, Apply, Titled;
    if steps != [] {
      TitledStep(s, steps[0]);
      TitledRun(Apply(s, steps[0]), steps[1..], t);
    }
  }

  // Every row, also one whose caller was told that the insert failed, has the title some call
  // began with.
  lemma RowsHaveTitles(limit: nat, steps: seq<Step>, s: State, id: Id) returns (c: nat)
    requires Run(Initial(limit), steps, s) && id in s.tasks
    ensures c in s.calls && BegunWith(steps, c) == Some(s.tasks[id])
  {
    TitledRun(Initial(limit), steps, s);
    c :| c in s.calls && s.calls[c].title == s.tasks[id];
    TitleKept(Initial(limit), steps, s, c);
  }

  // How many rows the steps of call c insert.
  ghost function RowsInserted(steps: seq<Step>, c: nat): nat {
    if steps == [] then 0
    else
      (if steps[0].OfCall? && steps[0].call == c
          && (steps[0].callStep.CommitTask? || steps[0].callStep.CommitThenReject?) then 1 else 0)
      + RowsInserted(steps[1..], c)
  }

  predicate HasRow(s: State, c: nat) {
    c in s.calls && (s.calls[c].pc.Inserted? || s.calls[c].pc.Publishing? || s.calls[c].pc.Returned?)
  }

  predicate NoRowYet(s: State, c: nat) {
    c !in s.calls || s.calls[c].pc.Inserting?
  }

  lemma CallProgress(s: State, step: Step, c: nat)
    requires Enabled(s, step)
    ensures (var s' := Apply(s, step);
             var n := RowsInserted([step], c);
             && (NoRowYet(s, c) && n == 0 ==> !HasRow(s', c))
             && (HasRow(s, c) ==> n == 0 && !NoRowYet(s', c))
             && (NoRowYet(s, c) && n == 1 ==> !NoRowYet(s', c))
             && (!NoRowYet(s, c) && !HasRow(s, c) ==> !NoRowYet(s', c) && !HasRow(s', c)))
  {
    assert RowsInserted([step][1..], c) == 0;
    match step
    case OfCall(d, k) =>
      if d == c {
        OwnProgress(s, c, k);
      } else {
        CallLeavesOthers(s, d, k, c);
      }
      hide ApplyCall;
    case OfWire(w) => WireFrame(s, w); hide ApplyWire;
    case OfLink(l) => LinkProgress(s, l, c); hide ApplyLink;
    case OfBroker(b) => BrokerFrame(s, b); hide ApplyBroker;
    case OfHandler(t, h) => HandlerFrame(s, t, h); hide ApplyHandler;
  }

  lemma OwnProgress(s: State, c: nat, step: CallStep)
    requires CallEnabled(s, c, step)
    ensures (var s' := ApplyCall(s, c, step);
             if step.CommitTask? || step.CommitThenReject? then NoRowYet(s, c) && !NoRowYet(s', c)
             else
               && (NoRowYet(s, c) ==> !HasRow(s', c))
               && (HasRow(s, c) ==> !NoRowYet(s', c))
               && (!NoRowYet(s, c) && !HasRow(s, c) ==> !NoRowYet(s', c) && !HasRow(s', c)))
  {
  }

  lemma LinkProgress(s: State, step: LinkStep, c: nat)
    requires LinkEnabled(s, step)
    ensures (var s' := ApplyLink(s, step);
             && (NoRowYet(s, c) ==> !HasRow(s', c))
             && (HasRow(s, c) ==> !NoRowYet(s', c))
             && (!NoRowYet(s, c) && !HasRow(s, c) ==> !NoRowYet(s', c) && !HasRow(s', c)))
  {
  }

  lemma {:induction false} RowsOfCall(s: State, steps: seq<Step>, t: State, c: nat)
    requires Run(s, steps, t) && HasRow(t, c)
    ensures NoRowYet(s, c) ==> RowsInserted(steps, c) == 1
    ensures !NoRowYet(s, c) ==> HasRow(s, c) && RowsInserted(steps, c) == 0
    decreases |steps|
  {
    if steps != [] {
      CallProgress(s, steps[0], c);
      assert [steps[0]][1..] == [];
      RowsOfCall(Apply(s, steps[0]), steps[1..], t, c);
    }
  }

  // create returns the row it saved, with the title it was called with, whatever became of the
  // publish, and the whole call inserted exactly one row.
  lemma CreateInsertsOneRow(limit: nat, steps: seq<Step>, s: State, c: nat, id: Id)
    requires Run(Initial(limit), steps, s) && c in s.calls && s.calls[c].pc == Returned(id)
    ensures RowsInserted(steps, c) == 1
    ensures id in s.tasks && BegunWith(steps, c) == Some(s.tasks[id])
    ensures forall d :: d in s.calls && Owns(s.calls[d], id) ==> d == c
  {
    RowsOfCall(Initial(limit), steps, s, c);
    TitleKept(Initial(limit), steps, s, c);
    ReachableInv(limit, s);
    hide QuorumQueue.Valid, TagsIssued, Held, Answering, Faithful, Wired, RowsBacked, FramesFit, AckedRecorded,
      DeadExplained, MintedFits, OutboxGenuine, BodiesGenuine, RowsGenuine;
    assert CallFits(s.tasks, s.minted, s.calls[c]);
    assert Owns(s.calls[c], id);
  }
}
