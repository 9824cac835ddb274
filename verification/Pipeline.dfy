/** The task-event pipeline as an unbounded transition system: TasksService.create and
    QueueService.publishTaskCreated in any number of requests, the broker, and any number of
    handleMessage attempts in any number of processes, interleaved at every await. */
module Pipeline {
  import opened Collections
  import opened QuorumQueue

  type Id = nat
  type Process = nat

  const EVENT_TYPE := "task.created"
  const CONSUMING: nat := 7

  datatype Topology = Topology(
    exchange: bool, dlx: bool, dlq: bool, dlqBound: bool, queue: bool, queueBound: bool)

  // phase counts the finished operations of the channel's setup.
  datatype Channel = Channel(phase: nat, nextTag: nat)

  /** Where an attempt of handleMessage stands: Delivered (not started), Checking (parsed,
      findOne in flight), Working (no row found, effect not run), Saving (effect run), Saved
      (row committed, reply in flight), Finished (settled), Abandoned (findOne rejected, or
      the process died). */
  datatype Pc =
    | Delivered
    | Checking(payload: Payload)
    | Working(payload: Payload)
    | Saving(payload: Payload)
    | Saved(payload: Payload)
    | Finished
    | Abandoned
  datatype Attempt = Attempt(mid: Mid, body: Body, pc: Pc)

  // A call of TasksService.create.
  datatype CallPc =
    | Inserting
    | Inserted(id: Id)
    | Publishing(id: Id, payload: Payload)
    | Returned(id: Id)
    | Threw
    | Died
  datatype Call = Call(process: Process, title: string, pc: CallPc)

  datatype Outcome = Confirmed | PublishFailed | TimedOut

  // A payload amqp-connection-manager still holds for one process.
  datatype Buffered = Buffered(process: Process, payload: Payload)

  datatype State = State(
    tasks: map<Id, string>,
    processed: map<Id, string>,
    calls: map<nat, Call>,
    minted: map<Id, Id>,
    outbox: set<Buffered>,
    topology: Topology,
    channels: map<Chan, Channel>,
    used: set<Chan>,
    frames: map<Tag, Frame>,
    queue: Queue,
    attempts: map<Tag, Attempt>,
    effects: map<Id, nat>)
  {
    // How often the side effect of event e has run.
    function Effects(e: Id): nat {
      if e in effects then effects[e] else 0
    }
  }

  function Initial(limit: nat): State {
    State(map[], map[], map[], map[], {}, Topology(false, false, false, false, false, false),
          map[], {}, map[], Empty(limit), map[], map[])
  }

  // TasksService.create and QueueService.publishTaskCreated.
  datatype CallStep =
    | Begin(process: Process, title: string)
    | CommitTask(id: Id)
    | InsertRejects
    | CommitThenReject(id: Id)
    | StartPublish(eventId: Id)
    | PublishThrows(eventId: Id)
    | PublishSettles(outcome: Outcome)

  // The publisher's channel; ForeignPublish is any other client of the exchange.
  datatype WireStep =
    | AssertExchange
    | Send(buffered: Buffered, mid: Mid)
    | Unbuffer(buffered: Buffered)
    | ForeignPublish(mid: Mid)

  // Connections and the consumer's setup.
  datatype LinkStep =
    | Open(chan: Chan)
    | Setup(chan: Chan)
    | Lose(chan: Chan)
    | Crash(process: Process)

  // The broker pushes a ready message, or acts on an answer that reached it.
  datatype BrokerStep =
    | Push(chan: Chan, mid: Mid)
    | Settle(tag: Tag)

  // The segments of handleMessage between its awaits, and what the awaited calls do.
  datatype HandlerStep =
    | Start
    | FindResolves
    | FindRejects
    | RunEffect
    | EffectThrows
    | CommitRow
    | SaveResolves
    | SaveRejects

  datatype Step =
    | OfCall(call: nat, callStep: CallStep)
    | OfWire(wireStep: WireStep)
    | OfLink(linkStep: LinkStep)
    | OfBroker(brokerStep: BrokerStep)
    | OfHandler(tag: Tag, handlerStep: HandlerStep)

  predicate CallEnabled(s: State, c: nat, step: CallStep) {
    if step.Begin? then c !in s.calls
    else
      && c in s.calls
      && (var pc := s.calls[c].pc;
          match step
          case Begin(_, _) => false
          case CommitTask(id) => pc.Inserting? && id !in s.tasks
          case InsertRejects => pc.Inserting?
          case CommitThenReject(id) => pc.Inserting? && id !in s.tasks
          case StartPublish(e) => pc.Inserted? && e !in s.minted
          case PublishThrows(e) => pc.Inserted? && e !in s.minted
          case PublishSettles(outcome) =>
            && pc.Publishing?
            && (outcome == Confirmed ==> Buffered(s.calls[c].process, pc.payload) !in s.outbox))
  }

  predicate WireEnabled(s: State, step: WireStep) {
    match step
    case AssertExchange => true
    case Send(b, m) => b in s.outbox && s.topology.exchange && m !in s.queue.body
    case Unbuffer(b) => b in s.outbox
    case ForeignPublish(m) => s.topology.exchange && m !in s.queue.body
  }

  predicate LinkEnabled(s: State, step: LinkStep) {
    match step
    case Open(c) => c !in s.used
    case Setup(c) => c in s.channels && SetupAccepted(s.topology, s.channels[c].phase)
    case Lose(c) => c in s.channels
    case Crash(p) => true
  }

  predicate BrokerEnabled(s: State, step: BrokerStep) {
    match step
    case Push(c, m) =>
      c in s.channels && s.channels[c].phase == CONSUMING && m in s.queue.ready && m in s.queue.body
    case Settle(t) => t in s.frames
  }

  predicate HandlerEnabled(s: State, t: Tag, step: HandlerStep) {
    t in s.attempts && SegmentAt(s.attempts[t].pc, step)
  }

  predicate Enabled(s: State, step: Step) {
    match step
    case OfCall(c, k) => CallEnabled(s, c, k)
    case OfWire(w) => WireEnabled(s, w)
    case OfLink(l) => LinkEnabled(s, l)
    case OfBroker(b) => BrokerEnabled(s, b)
    case OfHandler(t, h) => HandlerEnabled(s, t, h)
  }

  // A bind against a missing queue or exchange, or a consume of a missing queue, would be a
  // channel error.
  predicate SetupAccepted(t: Topology, phase: nat) {
    && phase < CONSUMING
    && (phase == 3 ==> t.dlx && t.dlq)
    && (phase == 5 ==> t.exchange && t.queue)
    && (phase == 6 ==> t.queue)
  }

  // The operations of the setup in the order one channel carries them out.
  function SetupOperation(t: Topology, phase: nat): Topology {
    match phase
    case 0 => t.(exchange := true)
    case 1 => t.(dlx := true)
    case 2 => t.(dlq := true)
    case 3 => t.(dlqBound := true)
    case 4 => t.(queue := true)
    case 5 => t.(queueBound := true)
    case _ => t
  }

  // The broker hands a routed copy to the main queue, or drops it if no binding matches.
  function Routed(s: State, m: Mid, b: Body): State {
    if s.topology.queueBound then s.(queue := Enqueue(s.queue, m, b)) else s
  }

  // The broker drops the channels cs and everything in flight on them.
  function Disconnected(s: State, cs: set<Chan>): State {
    var tags := set t | t in s.queue.unacked && t.chan in cs;
    s.(channels := s.channels - cs,
       frames := map t | t in s.frames && t.chan !in cs :: s.frames[t],
       queue := Return(s.queue, tags, s.topology.dlqBound))
  }

  function Orphaned(a: Attempt): Attempt {
    if a.pc == Finished then a else a.(pc := Abandoned)
  }

  function Bereaved(c: Call): Call {
    if c.pc.Returned? || c.pc.Threw? then c else c.(pc := Died)
  }

  function ChannelsOf(s: State, p: Process): set<Chan> {
    set c | c in s.channels && c.process == p
  }

  // The attempts, calls and buffers of process p are gone.
  function Orphans(s: State, p: Process): State {
    s.(attempts := map t | t in s.attempts ::
         if t.chan.process == p then Orphaned(s.attempts[t]) else s.attempts[t],
       calls := map c | c in s.calls ::
         if s.calls[c].process == p then Bereaved(s.calls[c]) else s.calls[c],
       outbox := set b | b in s.outbox && b.process != p)
  }

  function Crashed(s: State, p: Process): State {
    Orphans(Disconnected(s, ChannelsOf(s, p)), p)
  }

  function Pushed(s: State, c: Chan, m: Mid): State
    requires BrokerEnabled(s, Push(c, m))
  {
    var t := Tag(c, s.channels[c].nextTag);
    s.(channels := s.channels[c := s.channels[c].(nextTag := t.n + 1)],
       queue := Deliver(s.queue, t, m),
       attempts := s.attempts[t := Attempt(m, s.queue.body[m], Delivered)])
  }

  // The broker acts on an answer that reached it.
  function Settled(s: State, t: Tag): State
    requires t in s.frames
  {
    s.(frames := s.frames - {t}, queue := AfterAnswer(s.queue, t, s.frames[t], s.topology.dlqBound))
  }

  function WithPc(s: State, c: nat, pc: CallPc): State
    requires c in s.calls
  {
    s.(calls := s.calls[c := s.calls[c].(pc := pc)])
  }

  function ApplyCall(s: State, c: nat, step: CallStep): State
    requires CallEnabled(s, c, step)
  {
    match step
    case Begin(p, title) => s.(calls := s.calls[c := Call(p, title, Inserting)])
    case CommitTask(id) => WithPc(s, c, Inserted(id)).(tasks := s.tasks[id := s.calls[c].title])
    case InsertRejects => WithPc(s, c, Threw)
    case CommitThenReject(id) => WithPc(s, c, Threw).(tasks := s.tasks[id := s.calls[c].title])
    case StartPublish(e) =>
      var payload := Payload(e, EVENT_TYPE, s.calls[c].pc.id);
      WithPc(s, c, Publishing(payload.taskId, payload))
      .(minted := s.minted[e := payload.taskId],
        outbox := s.outbox + {Buffered(s.calls[c].process, payload)})
    case PublishThrows(e) =>
      WithPc(s, c, Returned(s.calls[c].pc.id)).(minted := s.minted[e := s.calls[c].pc.id])
    case PublishSettles(_) => WithPc(s, c, Returned(s.calls[c].pc.id))
  }

  function ApplyWire(s: State, step: WireStep): State
    requires WireEnabled(s, step)
  {
    match step
    case AssertExchange => s.(topology := s.topology.(exchange := true))
    case Send(b, m) => Routed(s, m, Event(b.payload))
    case Unbuffer(b) => s.(outbox := s.outbox - {b})
    case ForeignPublish(m) => Routed(s, m, Unparseable)
  }

  function ApplyLink(s: State, step: LinkStep): State
    requires LinkEnabled(s, step)
  {
    match step
    case Open(c) => s.(channels := s.channels[c := Channel(0, 1)], used := s.used + {c})
    case Setup(c) =>
      s.(topology := SetupOperation(s.topology, s.channels[c].phase),
         channels := s.channels[c := s.channels[c].(phase := s.channels[c].phase + 1)])
    case Lose(c) => Disconnected(s, {c})
    case Crash(p) => Crashed(s, p)
  }

  function ApplyBroker(s: State, step: BrokerStep): State
    requires BrokerEnabled(s, step)
  {
    match step
    case Push(c, m) => Pushed(s, c, m)
    case Settle(t) => Settled(s, t)
  }

  // What a segment of handleMessage decides: where the attempt stands next, and its answer.
  datatype Decision = Decision(pc: Pc, answer: Option<Frame>)

  predicate SegmentAt(pc: Pc, step: HandlerStep) {
    match step
    case Start => pc.Delivered?
    case FindResolves => pc.Checking?
    case FindRejects => pc.Checking?
    case RunEffect => pc.Working?
    case EffectThrows => pc.Working?
    case CommitRow => pc.Saving?
    case SaveResolves => pc.Saved?
    case SaveRejects => pc.Saving? || pc.Saved?
  }

  function Segment(processed: map<Id, string>, a: Attempt, step: HandlerStep): Decision
    requires SegmentAt(a.pc, step)
  {
    match step
    case Start =>
      (match a.body
       case Unparseable => Decision(Finished, Some(NackDrop))
       case Event(payload) => Decision(Checking(payload), None))
    case FindResolves =>
      if a.pc.payload.eventId in processed then Decision(Finished, Some(Ack))
      else Decision(Working(a.pc.payload), None)
    case FindRejects => Decision(Abandoned, None)
    case RunEffect => Decision(Saving(a.pc.payload), None)
    case EffectThrows => Decision(Finished, Some(NackRequeue))
    case CommitRow => Decision(Saved(a.pc.payload), None)
    case SaveResolves => Decision(Finished, Some(Ack))
    case SaveRejects => Decision(Finished, Some(NackRequeue))
  }

  // ack and nack on a closed channel throw and send nothing.
  function Sent(s: State, t: Tag, answer: Option<Frame>): map<Tag, Frame> {
    if answer.Some? && t.chan in s.channels then s.frames[t := answer.value] else s.frames
  }

  function CountedEffect(s: State, e: Id): map<Id, nat> {
    s.effects[e := s.Effects(e) + 1]
  }

  function ApplyHandler(s: State, t: Tag, step: HandlerStep): State
    requires HandlerEnabled(s, t, step)
  {
    var a := s.attempts[t];
    var decision := Segment(s.processed, a, step);
    s.(attempts := s.attempts[t := a.(pc := decision.pc)],
       frames := Sent(s, t, decision.answer),
       effects := if step.RunEffect? then CountedEffect(s, a.pc.payload.eventId) else s.effects,
       processed := if step.CommitRow? then s.processed[a.pc.payload.eventId := a.pc.payload.eventType]
                    else s.processed)
  }

  function Apply(s: State, step: Step): State
    requires Enabled(s, step)
  {
    match step
    case OfCall(c, k) => ApplyCall(s, c, k)
    case OfWire(w) => ApplyWire(s, w)
    case OfLink(l) => ApplyLink(s, l)
    case OfBroker(b) => ApplyBroker(s, b)
    case OfHandler(t, h) => ApplyHandler(s, t, h)
  }

  /** A run is a list of steps, each enabled where it is taken. */
  ghost predicate Run(s: State, steps: seq<Step>, t: State)
    decreases |steps|
  {
    if steps == [] then s == t
    else Enabled(s, steps[0]) && Run(Apply(s, steps[0]), steps[1..], t)
  }

  ghost predicate Reachable(limit: nat, s: State) {
    exists steps :: Run(Initial(limit), steps, s)
  }
}
