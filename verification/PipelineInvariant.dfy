/** What every step of the pipeline keeps. */
module PipelineInvariant {
  import opened Collections
  import opened QuorumQueue
  import opened Pipeline

  // Every tag handed out belongs to a channel that was opened, and lies below its next tag.
  ghost predicate TagsIssued(channels: map<Chan, Channel>, used: set<Chan>, attempts: map<Tag, Attempt>) {
    && channels.Keys <= used
    && (forall t :: t in attempts ==> t.chan in used)
    && (forall t :: t in attempts && t.chan in channels ==> t.n < channels[t.chan].nextTag)
  }

  // An outstanding message belongs to the attempt it was delivered to, on an open channel;
  // an attempt on an open channel holds its message until it is settled.
  ghost predicate Held(channels: map<Chan, Channel>, unacked: map<Tag, Mid>, attempts: map<Tag, Attempt>) {
    && (forall t :: t in unacked ==> t in attempts && t.chan in channels && attempts[t].mid == unacked[t])
    && (forall t :: t in attempts && t.chan in channels ==> t in unacked || attempts[t].pc.Finished?)
  }

  // An answer in flight is the answer of a finished attempt to an outstanding message.
  ghost predicate Answering(frames: map<Tag, Frame>, unacked: map<Tag, Mid>, attempts: map<Tag, Attempt>) {
    && (forall t :: t in frames ==> t in unacked && t in attempts && attempts[t].pc.Finished?)
    && (forall t :: t in unacked && t in attempts && attempts[t].pc.Finished? ==> t in frames)
  }

  ghost predicate Faithful(body: map<Mid, Body>, attempts: map<Tag, Attempt>) {
    forall t :: t in attempts ==> attempts[t].mid in body && attempts[t].body == body[attempts[t].mid]
  }

  ghost predicate Established(t: Topology, phase: nat) {
    && phase <= CONSUMING
    && (phase > 0 ==> t.exchange)
    && (phase > 1 ==> t.dlx)
    && (phase > 2 ==> t.dlq)
    && (phase > 3 ==> t.dlqBound)
    && (phase > 4 ==> t.queue)
    && (phase > 5 ==> t.queueBound)
  }

  // No consumer starts before both bindings exist, so nothing dead-lettered is unroutable.
  ghost predicate Wired(topology: Topology, channels: map<Chan, Channel>, queue: Queue) {
    && (forall c :: c in channels ==> Established(topology, channels[c].phase))
    && (queue.unacked != map[] ==> topology.dlqBound)
    && (queue.body != map[] ==> topology.queueBound)
    && queue.lost == {}
  }

  predicate Recorded(processed: map<Id, string>, b: Body) {
    b.Event? && b.payload.eventId in processed
  }

  predicate Ran(effects: map<Id, nat>, e: Id) {
    e in effects && effects[e] >= 1
  }

  predicate PcFits(processed: map<Id, string>, effects: map<Id, nat>, a: Attempt) {
    match a.pc
    case Delivered => true
    case Checking(payload) => a.body == Event(payload)
    case Working(payload) => a.body == Event(payload)
    case Saving(payload) => a.body == Event(payload) && Ran(effects, payload.eventId)
    case Saved(payload) => a.body == Event(payload) && payload.eventId in processed
    case Finished => true
    case Abandoned => true
  }

  predicate FrameFits(processed: map<Id, string>, f: Frame, b: Body) {
    match f
    case Ack => Recorded(processed, b)
    case NackRequeue => b.Event?
    case NackDrop => b.Unparseable?
  }

  // A row stands for an effect that ran.
  ghost predicate RowsBacked(processed: map<Id, string>, effects: map<Id, nat>, attempts: map<Tag, Attempt>) {
    && (forall t :: t in attempts ==> PcFits(processed, effects, attempts[t]))
    && (forall e :: e in processed ==> Ran(effects, e))
  }

  ghost predicate FramesFit(processed: map<Id, string>, frames: map<Tag, Frame>, attempts: map<Tag, Attempt>) {
    forall t :: t in frames ==> t in attempts && FrameFits(processed, frames[t], attempts[t].body)
  }

  // An ack the broker acted on stands for a row.
  ghost predicate AckedRecorded(processed: map<Id, string>, acked: set<Mid>, body: map<Mid, Body>) {
    forall m :: m in acked ==> m in body && Recorded(processed, body[m])
  }

  // Only unparseable messages and messages out of deliveries are dead-lettered.
  ghost predicate DeadExplained(queue: Queue) {
    forall m :: m in queue.dead ==>
      && m in queue.body
      && (queue.body[m].Unparseable? || (queue.Deliveries(m) == queue.limit + 1 && queue.Count(m) == queue.limit + 1))
  }

  // The payload names an event that was minted for a committed task.
  predicate Genuine(tasks: map<Id, string>, minted: map<Id, Id>, payload: Payload) {
    && payload.eventId in minted
    && minted[payload.eventId] == payload.taskId
    && payload.taskId in tasks
    && payload.eventType == EVENT_TYPE
  }

  // Every event names a committed task, and no task has two events.
  ghost predicate MintedFits(tasks: map<Id, string>, minted: map<Id, Id>) {
    && (forall e :: e in minted ==> minted[e] in tasks)
    && (forall e, f :: e in minted && f in minted && minted[e] == minted[f] ==> e == f)
  }

  ghost predicate OutboxGenuine(tasks: map<Id, string>, minted: map<Id, Id>, outbox: set<Buffered>) {
    forall b :: b in outbox ==> Genuine(tasks, minted, b.payload)
  }

  ghost predicate BodiesGenuine(tasks: map<Id, string>, minted: map<Id, Id>, body: map<Mid, Body>) {
    forall m :: m in body && body[m].Event? ==> Genuine(tasks, minted, body[m].payload)
  }

  ghost predicate RowsGenuine(minted: map<Id, Id>, processed: map<Id, string>, effects: map<Id, nat>) {
    && (forall e :: e in processed ==> e in minted && processed[e] == EVENT_TYPE)
    && (forall e :: e in effects ==> e in minted)
  }

  ghost predicate CallFits(tasks: map<Id, string>, minted: map<Id, Id>, c: Call) {
    match c.pc
    case Inserting => true
    case Inserted(id) => id in tasks && tasks[id] == c.title && forall e :: e in minted ==> minted[e] != id
    case Publishing(id, payload) =>
      id in tasks && tasks[id] == c.title && payload.taskId == id && Genuine(tasks, minted, payload)
    case Returned(id) => id in tasks && tasks[id] == c.title
    case Threw => true
    case Died => true
  }

  predicate Owns(c: Call, id: Id) {
    match c.pc
    case Inserting => false
    case Inserted(i) => i == id
    case Publishing(i, _) => i == id
    case Returned(i) => i == id
    case Threw => false
    case Died => false
  }

  // Calls own the rows they inserted, and no row has two owners.
  ghost predicate CallsFit(tasks: map<Id, string>, minted: map<Id, Id>, calls: map<nat, Call>) {
    && (forall c :: c in calls ==> CallFits(tasks, minted, calls[c]))
    && (forall c, d, id :: c in calls && d in calls && Owns(calls[c], id) && Owns(calls[d], id) ==> c == d)
  }

  ghost predicate Inv(s: State) {
    && QuorumQueue.Valid(s.queue)
    && TagsIssued(s.channels, s.used, s.attempts)
    && Held(s.channels, s.queue.unacked, s.attempts)
    && Answering(s.frames, s.queue.unacked, s.attempts)
    && Faithful(s.queue.body, s.attempts)
    && Wired(s.topology, s.channels, s.queue)
    && RowsBacked(s.processed, s.effects, s.attempts)
    && FramesFit(s.processed, s.frames, s.attempts)
    && AckedRecorded(s.processed, s.queue.acked, s.queue.body)
    && DeadExplained(s.queue)
    && MintedFits(s.tasks, s.minted)
    && OutboxGenuine(s.tasks, s.minted, s.outbox)
    && BodiesGenuine(s.tasks, s.minted, s.queue.body)
    && RowsGenuine(s.minted, s.processed, s.effects)
    && CallsFit(s.tasks, s.minted, s.calls)
  }

  lemma InitialInv(limit: nat)
    ensures Inv(Initial(limit))
  {
    assert QuorumQueue.Valid(Empty(limit)) by {
      assert Empty(limit).Outstanding() == {};
    }
    hide QuorumQueue.Valid;
  }

  // ---- Calls and the publisher ----

  // A row is added under a fresh id.
  lemma RowAdded(s: State, c: nat, id: Id, pc: CallPc)
    requires CallsFit(s.tasks, s.minted, s.calls) && MintedFits(s.tasks, s.minted)
    requires c in s.calls && s.calls[c].pc.Inserting? && id !in s.tasks
    requires pc == Inserted(id) || pc == Threw
    ensures (var s' := WithPc(s, c, pc).(tasks := s.tasks[id := s.calls[c].title]);
             CallsFit(s'.tasks, s'.minted, s'.calls) && MintedFits(s'.tasks, s'.minted))
  {
  }

  // An event is minted for the row of the call that publishes it.
  lemma EventMinted(s: State, c: nat, e: Id, pc: CallPc)
    requires CallsFit(s.tasks, s.minted, s.calls) && MintedFits(s.tasks, s.minted)
    requires c in s.calls && s.calls[c].pc.Inserted? && e !in s.minted
    requires pc == Returned(s.calls[c].pc.id)
          || pc == Publishing(s.calls[c].pc.id, Payload(e, EVENT_TYPE, s.calls[c].pc.id))
    ensures (var s' := WithPc(s, c, pc).(minted := s.minted[e := s.calls[c].pc.id]);
             CallsFit(s'.tasks, s'.minted, s'.calls) && MintedFits(s'.tasks, s'.minted))
  {
    assert CallFits(s.tasks, s.minted, s.calls[c]);
    var s' := WithPc(s, c, pc).(minted := s.minted[e := s.calls[c].pc.id]);
    forall d | d in s'.calls ensures CallFits(s'.tasks, s'.minted, s'.calls[d]) {
      assert d != c ==> CallFits(s.tasks, s.minted, s.calls[d]);
      if d != c && s.calls[d].pc.Inserted? {
        assert Owns(s.calls[d], s.calls[d].pc.id) && Owns(s.calls[c], s.calls[c].pc.id);
      }
    }
  }

  lemma CallCallsFit(s: State, c: nat, step: CallStep)
    requires CallsFit(s.tasks, s.minted, s.calls) && MintedFits(s.tasks, s.minted)
    requires CallEnabled(s, c, step)
    ensures (var s' := ApplyCall(s, c, step);
             CallsFit(s'.tasks, s'.minted, s'.calls) && MintedFits(s'.tasks, s'.minted))
  {
    match step
    case Begin(_, _) =>
    case CommitTask(id) => RowAdded(s, c, id, Inserted(id));
    case InsertRejects =>
    case CommitThenReject(id) => RowAdded(s, c, id, Threw);
    case StartPublish(e) =>
      EventMinted(s, c, e, Publishing(s.calls[c].pc.id, Payload(e, EVENT_TYPE, s.calls[c].pc.id)));
    case PublishThrows(e) => EventMinted(s, c, e, Returned(s.calls[c].pc.id));
    case PublishSettles(_) => assert CallFits(s.tasks, s.minted, s.calls[c]);
  }

  lemma CallGenuine(s: State, c: nat, step: CallStep)
    requires Inv(s) && CallEnabled(s, c, step)
    ensures (var s' := ApplyCall(s, c, step);
             && OutboxGenuine(s'.tasks, s'.minted, s'.outbox)
             && BodiesGenuine(s'.tasks, s'.minted, s'.queue.body)
             && RowsGenuine(s'.minted, s'.processed, s'.effects))
  {
    hide QuorumQueue.Valid, TagsIssued, Held, Answering, Faithful, Wired, RowsBacked, FramesFit, AckedRecorded, DeadExplained;
    if c in s.calls {
      assert CallFits(s.tasks, s.minted, s.calls[c]);
    }
  }

  lemma CallInv(s: State, c: nat, step: CallStep)
    requires Inv(s) && CallEnabled(s, c, step)
    ensures Inv(ApplyCall(s, c, step))
  {
    hide QuorumQueue.Valid, TagsIssued, Held, Answering, Faithful, Wired, RowsBacked, FramesFit, AckedRecorded, DeadExplained,
      MintedFits, OutboxGenuine, BodiesGenuine, RowsGenuine, CallsFit;
    CallCallsFit(s, c, step);
    CallGenuine(s, c, step);
  }

  lemma EnqueueDead(q: Queue, m: Mid, b: Body)
    requires DeadExplained(q) && m !in q.body
    ensures DeadExplained(Enqueue(q, m, b))
  {
  }

  lemma EnqueueBodies(s: State, m: Mid, b: Body)
    requires m !in s.queue.body && (b.Event? ==> Genuine(s.tasks, s.minted, b.payload))
    ensures Faithful(s.queue.body, s.attempts) ==> Faithful(s.queue.body[m := b], s.attempts)
    ensures AckedRecorded(s.processed, s.queue.acked, s.queue.body)
        ==> AckedRecorded(s.processed, s.queue.acked, s.queue.body[m := b])
    ensures BodiesGenuine(s.tasks, s.minted, s.queue.body)
        ==> BodiesGenuine(s.tasks, s.minted, s.queue.body[m := b])
  {
  }

  lemma RoutedInv(s: State, m: Mid, b: Body)
    requires Inv(s) && m !in s.queue.body
    requires b.Event? ==> Genuine(s.tasks, s.minted, b.payload)
    ensures Inv(Routed(s, m, b))
  {
    EnqueueValid(s.queue, m, b);
    EnqueueDead(s.queue, m, b);
    EnqueueBodies(s, m, b);
    hide QuorumQueue.Valid, TagsIssued, Held, Answering, Faithful, RowsBacked, FramesFit, AckedRecorded, DeadExplained,
      MintedFits, OutboxGenuine, BodiesGenuine, RowsGenuine, CallsFit;
  }

  lemma WireInv(s: State, step: WireStep)
    requires Inv(s) && WireEnabled(s, step)
    ensures Inv(ApplyWire(s, step))
  {
    hide QuorumQueue.Valid, TagsIssued, Held, Answering, Faithful, RowsBacked, FramesFit, AckedRecorded, DeadExplained,
      MintedFits, BodiesGenuine, RowsGenuine, CallsFit;
    match step
    case AssertExchange =>
    case Send(b, m) => RoutedInv(s, m, Event(b.payload));
    case Unbuffer(b) =>
    case ForeignPublish(m) => RoutedInv(s, m, Unparseable);
  }

  // ---- Connections ----

  function HeldOn(s: State, cs: set<Chan>): set<Tag> {
    set t | t in s.queue.unacked && t.chan in cs
  }

  lemma ReturnDead(q: Queue, tags: set<Tag>, bound: bool)
    requires QuorumQueue.Valid(q) && DeadExplained(q) && tags <= q.unacked.Keys
    ensures DeadExplained(Return(q, tags, bound))
  {
    OutstandingRouted(q);
    var q' := Return(q, tags, bound);
    forall m | m in q.dead ensures q'.Count(m) == q.Count(m) {
      assert m !in q.Outstanding();
    }
    forall m | m in q'.dead && m !in q.dead
      ensures m in q.body && q.deliveries[m] == q.limit + 1 && q'.Count(m) == q.limit + 1
    {
      var t :| t in tags && q.unacked[t] == m;
    }
  }

  lemma DisconnectedLinks(s: State, cs: set<Chan>)
    requires TagsIssued(s.channels, s.used, s.attempts) && Held(s.channels, s.queue.unacked, s.attempts)
    ensures (var s' := Disconnected(s, cs);
             && TagsIssued(s'.channels, s.used, s.attempts)
             && Held(s'.channels, s'.queue.unacked, s.attempts))
  {
  }

  lemma DisconnectedFrames(s: State, cs: set<Chan>)
    requires Answering(s.frames, s.queue.unacked, s.attempts)
    ensures (var s' := Disconnected(s, cs); Answering(s'.frames, s'.queue.unacked, s.attempts))
    ensures FramesFit(s.processed, s.frames, s.attempts)
        ==> FramesFit(s.processed, Disconnected(s, cs).frames, s.attempts)
  {
  }

  lemma DisconnectedWired(s: State, cs: set<Chan>)
    requires Wired(s.topology, s.channels, s.queue)
    ensures (var s' := Disconnected(s, cs); Wired(s'.topology, s'.channels, s'.queue))
  {
    var s' := Disconnected(s, cs);
    if s.queue.unacked == map[] {
      assert HeldOn(s, cs) == {};
    }
  }

  lemma DisconnectedInv(s: State, cs: set<Chan>)
    requires Inv(s)
    ensures Inv(Disconnected(s, cs))
  {
    ReturnValid(s.queue, HeldOn(s, cs), s.topology.dlqBound);
    ReturnDead(s.queue, HeldOn(s, cs), s.topology.dlqBound);
    DisconnectedLinks(s, cs);
    DisconnectedFrames(s, cs);
    DisconnectedWired(s, cs);
    hide QuorumQueue.Valid, TagsIssued, Held, Answering, Faithful, Wired, RowsBacked, FramesFit, AckedRecorded, DeadExplained,
      MintedFits, OutboxGenuine, BodiesGenuine, RowsGenuine, CallsFit;
  }

  // What a crash does beside closing the channels.
  lemma OrphanedInv(s: State, p: Process)
    requires Inv(s) && forall c :: c in s.channels ==> c.process != p
    ensures Inv(Orphans(s, p))
  {
    OrphanedLinked(s, p);
    OrphanedRows(s, p);
    OrphanedBodies(s, p);
    OrphanedCalls(s, p);
    hide QuorumQueue.Valid, TagsIssued, Held, Answering, Faithful, Wired, RowsBacked, FramesFit, AckedRecorded, DeadExplained,
      MintedFits, OutboxGenuine, BodiesGenuine, RowsGenuine, CallsFit;
  }

  lemma OrphanedLinked(s: State, p: Process)
    requires forall c :: c in s.channels ==> c.process != p
    requires TagsIssued(s.channels, s.used, s.attempts) && Held(s.channels, s.queue.unacked, s.attempts)
    requires Answering(s.frames, s.queue.unacked, s.attempts)
    ensures (var attempts := Orphans(s, p).attempts;
             && TagsIssued(s.channels, s.used, attempts)
             && Held(s.channels, s.queue.unacked, attempts)
             && Answering(s.frames, s.queue.unacked, attempts))
  {
  }

  lemma OrphanedRows(s: State, p: Process)
    ensures RowsBacked(s.processed, s.effects, s.attempts)
        ==> RowsBacked(s.processed, s.effects, Orphans(s, p).attempts)
  {
  }

  lemma OrphanedBodies(s: State, p: Process)
    ensures FramesFit(s.processed, s.frames, s.attempts)
        ==> FramesFit(s.processed, s.frames, Orphans(s, p).attempts)
    ensures Faithful(s.queue.body, s.attempts) ==> Faithful(s.queue.body, Orphans(s, p).attempts)
  {
  }

  lemma OrphanedCalls(s: State, p: Process)
    ensures CallsFit(s.tasks, s.minted, s.calls) ==> CallsFit(s.tasks, s.minted, Orphans(s, p).calls)
    ensures OutboxGenuine(s.tasks, s.minted, s.outbox) ==> OutboxGenuine(s.tasks, s.minted, Orphans(s, p).outbox)
  {
  }

  lemma LinkInv(s: State, step: LinkStep)
    requires Inv(s) && LinkEnabled(s, step)
    ensures Inv(ApplyLink(s, step))
  {
    hide Inv, Disconnected, Orphans;
    match step
    case Open(_) => ConnectingInv(s, step);
    case Setup(_) => ConnectingInv(s, step);
    case Lose(c) => DisconnectedInv(s, {c});
    case Crash(p) =>
      DisconnectedInv(s, ChannelsOf(s, p));
      ChannelsGone(s, p);
      OrphanedInv(Disconnected(s, ChannelsOf(s, p)), p);
  }

  lemma ChannelsGone(s: State, p: Process)
    ensures forall c :: c in Disconnected(s, ChannelsOf(s, p)).channels ==> c.process != p
  {
  }

  lemma ConnectingInv(s: State, step: LinkStep)
    requires Inv(s) && LinkEnabled(s, step) && (step.Open? || step.Setup?)
    ensures Inv(ApplyLink(s, step))
  {
    hide QuorumQueue.Valid, Faithful, RowsBacked, FramesFit, AckedRecorded, DeadExplained,
      MintedFits, OutboxGenuine, BodiesGenuine, RowsGenuine, CallsFit;
  }

  // ---- The broker ----

  lemma PushedLinked(s: State, c: Chan, m: Mid)
    requires TagsIssued(s.channels, s.used, s.attempts) && Held(s.channels, s.queue.unacked, s.attempts)
    requires Answering(s.frames, s.queue.unacked, s.attempts)
    requires BrokerEnabled(s, Push(c, m))
    ensures Tag(c, s.channels[c].nextTag) !in s.attempts
    ensures (var s' := Pushed(s, c, m);
             && TagsIssued(s'.channels, s'.used, s'.attempts)
             && Held(s'.channels, s'.queue.unacked, s'.attempts)
             && Answering(s'.frames, s'.queue.unacked, s'.attempts))
  {
    assert Tag(c, s.channels[c].nextTag) !in s.attempts;
    PushedHeld(s, c, m);
    PushedAnswering(s, c, m);
    hide Held, Answering;
  }

  lemma PushedHeld(s: State, c: Chan, m: Mid)
    requires Held(s.channels, s.queue.unacked, s.attempts)
    requires BrokerEnabled(s, Push(c, m)) && Tag(c, s.channels[c].nextTag) !in s.attempts
    ensures (var s' := Pushed(s, c, m); Held(s'.channels, s'.queue.unacked, s'.attempts))
  {
  }

  lemma PushedAnswering(s: State, c: Chan, m: Mid)
    requires Held(s.channels, s.queue.unacked, s.attempts) && Answering(s.frames, s.queue.unacked, s.attempts)
    requires BrokerEnabled(s, Push(c, m)) && Tag(c, s.channels[c].nextTag) !in s.attempts
    ensures (var s' := Pushed(s, c, m); Answering(s'.frames, s'.queue.unacked, s'.attempts))
  {
  }

  lemma PushedAttempts(s: State, c: Chan, m: Mid)
    requires RowsBacked(s.processed, s.effects, s.attempts) && FramesFit(s.processed, s.frames, s.attempts)
    requires Faithful(s.queue.body, s.attempts)
    requires BrokerEnabled(s, Push(c, m)) && Tag(c, s.channels[c].nextTag) !in s.attempts
    ensures (var s' := Pushed(s, c, m);
             && RowsBacked(s.processed, s.effects, s'.attempts)
             && FramesFit(s.processed, s.frames, s'.attempts)
             && Faithful(s.queue.body, s'.attempts))
  {
  }

  lemma DeliverDead(q: Queue, t: Tag, m: Mid)
    requires Conserved(q) && DeadExplained(q) && m in q.ready
    ensures DeadExplained(Deliver(q, t, m))
  {
  }

  lemma PushedInv(s: State, c: Chan, m: Mid)
    requires Inv(s) && BrokerEnabled(s, Push(c, m))
    ensures Inv(Pushed(s, c, m))
  {
    PushedLinked(s, c, m);
    PushedAttempts(s, c, m);
    DeliverValid(s.queue, Tag(c, s.channels[c].nextTag), m);
    DeliverDead(s.queue, Tag(c, s.channels[c].nextTag), m);
    hide QuorumQueue.Valid, TagsIssued, Held, Answering, Faithful, RowsBacked, FramesFit, AckedRecorded, DeadExplained,
      MintedFits, OutboxGenuine, BodiesGenuine, RowsGenuine, CallsFit;
  }

  // Taking an answered tag off the outstanding messages.
  lemma SettledLinked(s: State, t: Tag)
    requires Held(s.channels, s.queue.unacked, s.attempts)
    requires Answering(s.frames, s.queue.unacked, s.attempts) && t in s.frames
    ensures Held(s.channels, s.queue.unacked - {t}, s.attempts)
    ensures Answering(s.frames - {t}, s.queue.unacked - {t}, s.attempts)
    ensures FramesFit(s.processed, s.frames, s.attempts)
        ==> FramesFit(s.processed, s.frames - {t}, s.attempts)
  {
  }

  // The answer on tag t fits the message it answers, which is nowhere else.
  lemma SettledFacts(s: State, t: Tag)
    requires Inv(s) && t in s.frames
    ensures t in s.queue.unacked && s.queue.unacked[t] in s.queue.body
    ensures FrameFits(s.processed, s.frames[t], s.queue.body[s.queue.unacked[t]])
    ensures s.topology.dlqBound
  {
    OutstandingRouted(s.queue);
    hide QuorumQueue.Valid, Conserved, Counted, RowsBacked, AckedRecorded, DeadExplained,
      MintedFits, OutboxGenuine, BodiesGenuine, RowsGenuine, CallsFit;
  }

  lemma RejectDead(q: Queue, t: Tag, bound: bool)
    requires DeadExplained(q) && t in q.unacked && q.unacked[t] in q.body && q.body[q.unacked[t]].Unparseable?
    ensures DeadExplained(Reject(q, t, bound))
  {
  }

  lemma AcknowledgeRecorded(s: State, t: Tag)
    requires AckedRecorded(s.processed, s.queue.acked, s.queue.body)
    requires t in s.queue.unacked && s.queue.unacked[t] in s.queue.body
    requires Recorded(s.processed, s.queue.body[s.queue.unacked[t]])
    ensures AckedRecorded(s.processed, Acknowledge(s.queue, t).acked, s.queue.body)
  {
  }

  lemma SettledInv(s: State, t: Tag)
    requires Inv(s) && t in s.frames
    ensures Inv(Settled(s, t))
  {
    hide Inv;
    match s.frames[t]
    case Ack => SettledAck(s, t);
    case NackRequeue => SettledRequeue(s, t);
    case NackDrop => SettledDrop(s, t);
  }

  lemma SettledAck(s: State, t: Tag)
    requires Inv(s) && t in s.frames && s.frames[t].Ack?
    ensures Inv(Settled(s, t))
  {
    SettledFacts(s, t);
    SettledLinked(s, t);
    AcknowledgeValid(s.queue, t);
    AcknowledgeRecorded(s, t);
    AcknowledgeDead(s.queue, t);
    hide QuorumQueue.Valid, TagsIssued, Held, Answering, Faithful, RowsBacked, FramesFit, AckedRecorded,
      DeadExplained, MintedFits, OutboxGenuine, BodiesGenuine, RowsGenuine, CallsFit;
  }

  lemma SettledRequeue(s: State, t: Tag)
    requires Inv(s) && t in s.frames && s.frames[t].NackRequeue?
    ensures Inv(Settled(s, t))
  {
    hide QuorumQueue.Valid, TagsIssued, Held, Answering, Faithful, RowsBacked, FramesFit, AckedRecorded,
      DeadExplained, MintedFits, OutboxGenuine, BodiesGenuine, RowsGenuine, CallsFit;
    SettledFacts(s, t);
    SettledLinked(s, t);
    ReturnValid(s.queue, {t}, s.topology.dlqBound);
    ReturnDead(s.queue, {t}, s.topology.dlqBound);
  }

  lemma SettledDrop(s: State, t: Tag)
    requires Inv(s) && t in s.frames && s.frames[t].NackDrop?
    ensures Inv(Settled(s, t))
  {
    SettledFacts(s, t);
    SettledLinked(s, t);
    RejectValid(s.queue, t, s.topology.dlqBound);
    RejectDead(s.queue, t, s.topology.dlqBound);
    hide QuorumQueue.Valid, TagsIssued, Held, Answering, Faithful, RowsBacked, FramesFit, AckedRecorded,
      DeadExplained, MintedFits, OutboxGenuine, BodiesGenuine, RowsGenuine, CallsFit;
  }

  lemma AcknowledgeDead(q: Queue, t: Tag)
    requires DeadExplained(q) && t in q.unacked
    ensures DeadExplained(Acknowledge(q, t))
  {
  }

  lemma BrokerInv(s: State, step: BrokerStep)
    requires Inv(s) && BrokerEnabled(s, step)
    ensures Inv(ApplyBroker(s, step))
  {
    match step
    case Push(c, m) => PushedInv(s, c, m);
    case Settle(t) => SettledInv(s, t);
  }

  // ---- handleMessage ----

  // Replacing an attempt by one on the same message that has settled nothing yet, or by a
  // finished one whose answer was sent.
  lemma MovedHeld(s: State, t: Tag, a: Attempt, answer: Option<Frame>)
    requires Held(s.channels, s.queue.unacked, s.attempts) && Answering(s.frames, s.queue.unacked, s.attempts)
    requires t in s.attempts && a.mid == s.attempts[t].mid && !s.attempts[t].pc.Finished?
    requires a.pc.Finished? <==> answer.Some?
    ensures Held(s.channels, s.queue.unacked, s.attempts[t := a])
    ensures Answering(Sent(s, t, answer), s.queue.unacked, s.attempts[t := a])
  {
  }

  lemma MovedIssued(s: State, t: Tag, a: Attempt)
    requires t in s.attempts && a.mid == s.attempts[t].mid && a.body == s.attempts[t].body
    ensures TagsIssued(s.channels, s.used, s.attempts) ==> TagsIssued(s.channels, s.used, s.attempts[t := a])
    ensures Faithful(s.queue.body, s.attempts) ==> Faithful(s.queue.body, s.attempts[t := a])
  {
  }

  lemma MovedFrames(s: State, t: Tag, a: Attempt, answer: Option<Frame>)
    requires FramesFit(s.processed, s.frames, s.attempts)
    requires t in s.attempts && a.body == s.attempts[t].body
    requires answer.Some? ==> FrameFits(s.processed, answer.value, a.body)
    ensures FramesFit(s.processed, Sent(s, t, answer), s.attempts[t := a])
  {
  }

  // The decision of a segment, the effect it ran and the row it stored fit its message.
  lemma SegmentFits(s: State, t: Tag, step: HandlerStep)
    requires HandlerEnabled(s, t, step)
    requires PcFits(s.processed, s.effects, s.attempts[t])
    ensures (var s' := ApplyHandler(s, t, step);
             var decision := Segment(s.processed, s.attempts[t], step);
             && PcFits(s'.processed, s'.effects, s'.attempts[t])
             && (decision.pc.Finished? <==> decision.answer.Some?)
             && (decision.answer.Some? ==> FrameFits(s.processed, decision.answer.value, s.attempts[t].body)))
  {
  }

  // Counting an effect, and storing a row whose effect ran.
  lemma HandlerRows(s: State, t: Tag, step: HandlerStep)
    requires HandlerEnabled(s, t, step) && RowsBacked(s.processed, s.effects, s.attempts)
    ensures (var s' := ApplyHandler(s, t, step); RowsBacked(s'.processed, s'.effects, s'.attempts))
  {
    SegmentFits(s, t, step);
    var s' := ApplyHandler(s, t, step);
    forall u | u in s'.attempts ensures PcFits(s'.processed, s'.effects, s'.attempts[u]) {
      assert u != t ==> PcFits(s.processed, s.effects, s.attempts[u]);
    }
    assert PcFits(s.processed, s.effects, s.attempts[t]);
  }

  lemma HandlerRecords(s: State, t: Tag, step: HandlerStep)
    requires HandlerEnabled(s, t, step)
    requires step.CommitRow? || step.RunEffect? ==> Genuine(s.tasks, s.minted, s.attempts[t].pc.payload)
    ensures (var s' := ApplyHandler(s, t, step);
             && (RowsGenuine(s.minted, s.processed, s.effects) ==> RowsGenuine(s.minted, s'.processed, s'.effects))
             && (AckedRecorded(s.processed, s.queue.acked, s.queue.body)
                 ==> AckedRecorded(s'.processed, s.queue.acked, s.queue.body))
             && (FramesFit(s.processed, s'.frames, s'.attempts) ==> FramesFit(s'.processed, s'.frames, s'.attempts)))
  {
  }

  // What an attempt knows about its own message.
  lemma AttemptFacts(s: State, t: Tag)
    requires Inv(s) && t in s.attempts
    ensures PcFits(s.processed, s.effects, s.attempts[t])
    ensures s.attempts[t].body.Event? ==> Genuine(s.tasks, s.minted, s.attempts[t].body.payload)
  {
    hide QuorumQueue.Valid, TagsIssued, Held, Answering, Wired, FramesFit, AckedRecorded, DeadExplained,
      MintedFits, OutboxGenuine, RowsGenuine, CallsFit;
  }

  lemma HandlerGenuine(s: State, t: Tag, step: HandlerStep)
    requires Inv(s) && HandlerEnabled(s, t, step) && (step.CommitRow? || step.RunEffect?)
    ensures Genuine(s.tasks, s.minted, s.attempts[t].pc.payload)
  {
    AttemptFacts(s, t);
    hide Inv;
  }

  lemma HandlerInv(s: State, t: Tag, step: HandlerStep)
    requires Inv(s) && HandlerEnabled(s, t, step)
    ensures Inv(ApplyHandler(s, t, step))
  {
    hide QuorumQueue.Valid, TagsIssued, Held, Answering, Faithful, Wired, RowsBacked, FramesFit, AckedRecorded,
      DeadExplained, MintedFits, OutboxGenuine, BodiesGenuine, RowsGenuine, CallsFit;
    AttemptFacts(s, t);
    SegmentFits(s, t, step);
    HandlerRows(s, t, step);
    if step.CommitRow? || step.RunEffect? {
      HandlerGenuine(s, t, step);
    }
    HandlerRecords(s, t, step);
    var s' := ApplyHandler(s, t, step);
    var answer := Segment(s.processed, s.attempts[t], step).answer;
    MovedHeld(s, t, s'.attempts[t], answer);
    MovedIssued(s, t, s'.attempts[t]);
    MovedFrames(s, t, s'.attempts[t], answer);
  }

  lemma InvStep(s: State, step: Step)
    requires Inv(s) && Enabled(s, step)
    ensures Inv(Apply(s, step))
  {
    hide Inv;
    match step
    case OfCall(c, k) => CallInv(s, c, k);
    case OfWire(w) => WireInv(s, w);
    case OfLink(l) => LinkInv(s, l);
    case OfBroker(b) => BrokerInv(s, b);
    case OfHandler(t, h) => HandlerInv(s, t, h);
  }

  lemma {:induction false} InvRun(s: State, steps: seq<Step>, t: State)
    requires Inv(s) && Run(s, steps, t)
    ensures Inv(t)
    decreases |steps|
  {
    hide Inv;
    if steps != [] {
      InvStep(s, steps[0]);
      InvRun(Apply(s, steps[0]), steps[1..], t);
    }
  }
}
