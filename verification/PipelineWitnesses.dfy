/** Runs that show what the pipeline does not promise. */
module PipelineWitnesses {
  import opened QuorumQueue
  import opened Pipeline

  lemma {:induction false} RunExtends(s: State, steps: seq<Step>, t: State, step: Step)
    requires Run(s, steps, t) && Enabled(t, step)
    ensures Run(s, steps + [step], Apply(t, step))
    decreases |steps|
  {
    hide Enabled, Apply;
    if steps == [] {
      assert (steps + [step])[1..] == [];
    } else {
      RunExtends(Apply(s, steps[0]), steps[1..], t, step);
      assert (steps + [step])[1..] == steps[1..] + [step];
    }
  }

  ghost predicate Leads(s: State, t: State) {
    exists steps :: Run(s, steps, t)
  }

  lemma LeadsStart(s: State)
    ensures Leads(s, s)
  {
    assert Run(s, [], s);
  }

  lemma LeadsExtends(s: State, t: State, step: Step)
    requires Leads(s, t) && Enabled(t, step)
    ensures Leads(s, Apply(t, step))
  {
    var steps :| Run(s, steps, t);
    RunExtends(s, steps, t, step);
  }

  lemma ReachableExtends(limit: nat, s: State, step: Step)
    requires Reachable(limit, s) && Enabled(s, step)
    ensures Reachable(limit, Apply(s, step))
  {
    var steps :| Run(Initial(limit), steps, s);
    RunExtends(Initial(limit), steps, s, step);
  }

  // ---- Runs with one message and one attempt at a time ----

  predicate UnderWay(a: Attempt) {
    !a.pc.Finished?
  }

  ghost predicate Lone(s: State) {
    && s.queue.body.Keys <= {0}
    && (forall t, u :: t in s.attempts && u in s.attempts && UnderWay(s.attempts[t]) && UnderWay(s.attempts[u]) ==> t == u)
  }

  // At every point of the run.
  ghost predicate AlwaysLone(s: State, steps: seq<Step>)
    decreases |steps|
  {
    Lone(s) && (steps == [] || !Enabled(s, steps[0]) || AlwaysLone(Apply(s, steps[0]), steps[1..]))
  }

  // The segments of handleMessage a run takes, in order.
  function Segments(steps: seq<Step>): seq<HandlerStep> {
    if steps == [] then [] else SegmentOf(steps[0]) + Segments(steps[1..])
  }

  function SegmentOf(step: Step): seq<HandlerStep> {
    if step.OfHandler? then [step.handlerStep] else []
  }

  ghost predicate Through(limit: nat, s: State, path: seq<HandlerStep>) {
    exists steps :: Run(Initial(limit), steps, s) && AlwaysLone(Initial(limit), steps) && Segments(steps) == path
  }

  lemma {:induction false} LoneExtends(s: State, steps: seq<Step>, t: State, step: Step)
    requires Run(s, steps, t) && AlwaysLone(s, steps) && Enabled(t, step) && Lone(Apply(t, step))
    ensures AlwaysLone(s, steps + [step]) && Segments(steps + [step]) == Segments(steps) + SegmentOf(step)
    decreases |steps|
  {
    hide Enabled, Apply, Lone, SegmentOf;
    var longer := steps + [step];
    if steps == [] {
      assert longer == [step] && longer[1..] == [];
    } else {
      LoneExtends(Apply(s, steps[0]), steps[1..], t, step);
      assert longer[0] == steps[0] && longer[1..] == steps[1..] + [step];
    }
  }

  lemma ThroughExtends(limit: nat, s: State, path: seq<HandlerStep>, step: Step)
    requires Through(limit, s, path) && Enabled(s, step) && Lone(Apply(s, step))
    ensures Through(limit, Apply(s, step), path + SegmentOf(step))
  {
    hide Enabled, Apply, Run, AlwaysLone, Lone, Segments, SegmentOf;
    var steps :| Run(Initial(limit), steps, s) && AlwaysLone(Initial(limit), steps) && Segments(steps) == path;
    RunExtends(Initial(limit), steps, s, step);
    LoneExtends(Initial(limit), steps, s, step);
  }

  lemma ThroughQuietly(limit: nat, s: State, path: seq<HandlerStep>, step: Step)
    requires Through(limit, s, path) && Enabled(s, step) && Lone(Apply(s, step)) && !step.OfHandler?
    ensures Through(limit, Apply(s, step), path)
  {
    hide Through, Enabled, Apply, Lone;
    ThroughExtends(limit, s, path, step);
    assert path + [] == path;
  }

  lemma ThroughReachable(limit: nat, s: State, path: seq<HandlerStep>)
    requires Through(limit, s, path)
    ensures Reachable(limit, s)
  {
  }

  lemma ThroughStart(limit: nat)
    ensures Through(limit, Initial(limit), [])
  {
    var s := Initial(limit);
    assert Run(s, [], s) && AlwaysLone(s, []) && Segments([]) == [];
  }

  // ---- Two copies of one event, handled at the same time ----

  const CONSUMER := Chan(0, 0)
  const PAYLOAD := Payload(0, EVENT_TYPE, 0)

  function Published(limit: nat): State {
    Initial(limit).(tasks := map[0 := "t"],
                    calls := map[0 := Call(0, "t", Publishing(0, PAYLOAD))],
                    minted := map[0 := 0],
                    outbox := {Buffered(0, PAYLOAD)})
  }

  lemma PublishedThrough(limit: nat)
    ensures Through(limit, Published(limit), [])
  {
    var s0 := Initial(limit);
    hide Through;
    ThroughStart(limit);
    var s1 := s0.(calls := map[0 := Call(0, "t", Inserting)]);
    assert Apply(s0, OfCall(0, Begin(0, "t"))) == s1;
    ThroughQuietly(limit, s0, [], OfCall(0, Begin(0, "t")));
    var s2 := s0.(tasks := map[0 := "t"], calls := map[0 := Call(0, "t", Inserted(0))]);
    assert Apply(s1, OfCall(0, CommitTask(0))) == s2;
    ThroughQuietly(limit, s1, [], OfCall(0, CommitTask(0)));
    assert Apply(s2, OfCall(0, StartPublish(0))) == Published(limit);
    ThroughQuietly(limit, s2, [], OfCall(0, StartPublish(0)));
  }

  function SetUp(limit: nat, phase: nat): State
    requires phase <= CONSUMING
  {
    Published(limit).(
      topology := Topology(phase > 0, phase > 1, phase > 2, phase > 3, phase > 4, phase > 5),
      channels := map[CONSUMER := Channel(phase, 1)],
      used := {CONSUMER})
  }

  lemma {:induction false} SetUpThrough(limit: nat, phase: nat)
    requires phase <= CONSUMING
    ensures Through(limit, SetUp(limit, phase), [])
  {
    hide Through;
    if phase == 0 {
      PublishedThrough(limit);
      assert Apply(Published(limit), OfLink(Open(CONSUMER))) == SetUp(limit, 0);
      ThroughQuietly(limit, Published(limit), [], OfLink(Open(CONSUMER)));
    } else {
      SetUpThrough(limit, phase - 1);
      SetUpStep(limit, phase);
      assert Lone(SetUp(limit, phase));
      hide Enabled, Apply, SetUp;
      ThroughQuietly(limit, SetUp(limit, phase - 1), [], OfLink(Setup(CONSUMER)));
    }
  }

  lemma SetUpReachable(limit: nat)
    ensures Reachable(limit, SetUp(limit, CONSUMING))
  {
    hide Through, SetUp, Reachable;
    SetUpThrough(limit, CONSUMING);
    ThroughReachable(limit, SetUp(limit, CONSUMING), []);
  }

  lemma SetUpStep(limit: nat, phase: nat)
    requires 0 < phase <= CONSUMING
    ensures Enabled(SetUp(limit, phase - 1), OfLink(Setup(CONSUMER)))
    ensures Apply(SetUp(limit, phase - 1), OfLink(Setup(CONSUMER))) == SetUp(limit, phase)
  {
    hide Published;
  }

  lemma TwoCopiesReady(limit: nat) returns (s: State)
    ensures Reachable(limit, s)
    ensures s.channels == map[CONSUMER := Channel(CONSUMING, 1)]
    ensures s.queue.ready == {0, 1} && s.queue.body == map[0 := Event(PAYLOAD), 1 := Event(PAYLOAD)]
    ensures s.attempts == map[] && s.processed == map[] && s.effects == map[]
  {
    SetUpReachable(limit);
    var s0 := SetUp(limit, CONSUMING);
    var b := Buffered(0, PAYLOAD);
    var s1 := Apply(s0, OfWire(Send(b, 0)));
    ReachableExtends(limit, s0, OfWire(Send(b, 0)));
    s := Apply(s1, OfWire(Send(b, 1)));
    ReachableExtends(limit, s1, OfWire(Send(b, 1)));
  }

  lemma TwoCopiesDelivered(limit: nat) returns (s: State, t: Tag, u: Tag)
    ensures Reachable(limit, s) && t != u
    ensures s.attempts == map[t := Attempt(0, Event(PAYLOAD), Delivered), u := Attempt(1, Event(PAYLOAD), Delivered)]
    ensures s.processed == map[] && s.effects == map[]
  {
    var s1 := TwoCopiesReady(limit);
    t, u := Tag(CONSUMER, 1), Tag(CONSUMER, 2);
    var s2 := Pushed(s1, CONSUMER, 0);
    ReachableExtends(limit, s1, OfBroker(Push(CONSUMER, 0)));
    assert s2.queue.ready == {1};
    s := Pushed(s2, CONSUMER, 1);
    ReachableExtends(limit, s2, OfBroker(Push(CONSUMER, 1)));
  }

  // The publisher sent its unconfirmed message twice, and both copies are being checked.
  lemma TwoCopiesChecked(limit: nat) returns (s: State, t: Tag, u: Tag)
    ensures Reachable(limit, s) && t != u
    ensures HandlerEnabled(s, t, FindResolves) && HandlerEnabled(s, u, FindResolves)
    ensures s.attempts[t].pc == Checking(PAYLOAD) && s.attempts[u].pc == Checking(PAYLOAD)
    ensures s.processed == map[] && s.effects == map[]
  {
    var s1;
    s1, t, u := TwoCopiesDelivered(limit);
    var s2 := ApplyHandler(s1, t, Start);
    ReachableExtends(limit, s1, OfHandler(t, Start));
    s := ApplyHandler(s2, u, Start);
    ReachableExtends(limit, s2, OfHandler(u, Start));
  }

  // A check that finds no row, and the effect after it.
  lemma FindsNone(s: State, t: Tag, payload: Payload)
    requires t in s.attempts && s.attempts[t].pc == Checking(payload) && payload.eventId !in s.processed
    ensures (var s' := ApplyHandler(s, t, FindResolves);
             && s'.attempts == s.attempts[t := s.attempts[t].(pc := Working(payload))]
             && s'.processed == s.processed && s'.effects == s.effects)
  {
  }

  lemma Effect(s: State, t: Tag, payload: Payload)
    requires t in s.attempts && s.attempts[t].pc == Working(payload)
    ensures (var s' := ApplyHandler(s, t, RunEffect);
             && s'.attempts == s.attempts[t := s.attempts[t].(pc := Saving(payload))]
             && s'.Effects(payload.eventId) == s.Effects(payload.eventId) + 1)
  {
  }

  // Two attempts that check the same unrecorded event before either has run its effect both
  // run it.
  lemma OverlapRunsTwice(s: State, t: Tag, u: Tag, payload: Payload) returns (s': State)
    requires t != u && t in s.attempts && u in s.attempts && payload.eventId !in s.processed
    requires s.attempts[t].pc == Checking(payload) && s.attempts[u].pc == Checking(payload)
    ensures Leads(s, s') && s'.Effects(payload.eventId) == s.Effects(payload.eventId) + 2
  {
    FindsNone(s, t, payload);
    var s1 := ApplyHandler(s, t, FindResolves);
    FindsNone(s1, u, payload);
    var s2 := ApplyHandler(s1, u, FindResolves);
    Effect(s2, t, payload);
    var s3 := ApplyHandler(s2, t, RunEffect);
    Effect(s3, u, payload);
    s' := ApplyHandler(s3, u, RunEffect);
    hide ApplyHandler, State.Effects;
    LeadsStart(s);
    LeadsExtends(s, s, OfHandler(t, FindResolves));
    LeadsExtends(s, s1, OfHandler(u, FindResolves));
    LeadsExtends(s, s2, OfHandler(t, RunEffect));
    LeadsExtends(s, s3, OfHandler(u, RunEffect));
  }

  // Exactly-once fails for every delivery limit.
  lemma NotExactlyOnce(limit: nat)
    ensures exists steps, s, e :: Run(Initial(limit), steps, s) && s.Effects(e) == 2
  {
    var s, t, u := TwoCopiesChecked(limit);
    var s' := OverlapRunsTwice(s, t, u, PAYLOAD);
    var before :| Run(Initial(limit), before, s);
    var after :| Run(s, after, s');
    RunJoins(Initial(limit), before, s, after, s');
    assert Run(Initial(limit), before + after, s') && s'.Effects(0) == 2;
  }

  lemma {:induction false} RunJoins(s: State, before: seq<Step>, t: State, after: seq<Step>, u: State)
    requires Run(s, before, t) && Run(t, after, u)
    ensures Run(s, before + after, u)
    decreases |before|
  {
    hide Enabled, Apply;
    if before == [] {
      assert before + after == after;
    } else {
      RunJoins(Apply(s, before[0]), before[1..], t, after, u);
      assert (before + after)[1..] == before[1..] + after;
    }
  }
}
