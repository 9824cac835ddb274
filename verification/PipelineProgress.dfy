/** Every fair run without new messages empties the main queue, and what was in it is then done
    or explained. */
module PipelineProgress {
  import opened QuorumQueue
  import opened Pipeline
  import opened PipelineInvariant
  import opened PipelineReach
  import opened PipelineRetry

  // An infinite run, state by state, in which nothing is published.
  ghost predicate QuietRun(st: nat -> State, step: nat -> Step) {
    && Inv(st(0))
    && (forall n: nat :: Enabled(st(n), step(n)) && st(n + 1) == Apply(st(n), step(n)) && !Publishes(step(n)))
  }

  ghost predicate Idle(s: State) {
    forall p :: Enabled(s, p) ==> !Productive(s, p)
  }

  ghost predicate ProductiveAt(st: nat -> State, step: nat -> Step, n: nat) {
    Productive(st(n), step(n))
  }

  ghost predicate IdleFrom(st: nat -> State, n: nat) {
    forall k: nat :: n <= k ==> Idle(st(k))
  }

  ghost predicate ConsumingAt(st: nat -> State, n: nat) {
    exists c :: c in st(n).channels && st(n).channels[c].phase == CONSUMING
  }

  /** Deliveries, answers, segments of handlers and losses of channels that hold messages are not
      put off for ever: from any point on, either one of them happens or at some time none can
      happen any more. And a consumer is connected time and again. */
  ghost predicate Fair(st: nat -> State, step: nat -> Step) {
    && (forall n: nat :: ProductiveLater(st, step, n) || IdleLater(st, n))
    && (forall n: nat :: ConsumingLater(st, n))
  }

  ghost predicate ProductiveLater(st: nat -> State, step: nat -> Step, n: nat) {
    exists k: nat :: n <= k && ProductiveAt(st, step, k)
  }

  ghost predicate IdleLater(st: nat -> State, n: nat) {
    exists k: nat :: n <= k && IdleFrom(st, k)
  }

  ghost predicate ConsumingLater(st: nat -> State, n: nat) {
    exists k: nat :: n <= k && ConsumingAt(st, k)
  }

  lemma {:induction false} StaysGood(st: nat -> State, step: nat -> Step, n: nat)
    requires QuietRun(st, step)
    ensures Inv(st(n))
  {
    hide Inv, Enabled, Apply;
    if n > 0 {
      StaysGood(st, step, n - 1);
      InvStep(st(n - 1), step(n - 1));
      assert st(n - 1 + 1) == Apply(st(n - 1), step(n - 1));
    }
  }

  lemma WorkAt(st: nat -> State, step: nat -> Step, n: nat)
    requires QuietRun(st, step)
    ensures Work(st(n + 1)) + (if Productive(st(n), step(n)) then 1 else 0) <= Work(st(n))
  {
    hide Inv, Enabled, Apply, Work, Productive;
    StaysGood(st, step, n);
    WorkStep(st(n), step(n));
  }

  lemma {:induction false} WorkNeverRises(st: nat -> State, step: nat -> Step, n: nat, k: nat)
    requires QuietRun(st, step) && n <= k
    ensures Work(st(k)) <= Work(st(n))
    decreases k
  {
    hide Work, QuietRun;
    if n < k {
      WorkNeverRises(st, step, n, k - 1);
      WorkAt(st, step, k - 1);
    }
  }

  // In an idle state with a consumer the main queue is empty.
  lemma IdleIsEmpty(s: State, c: Chan)
    requires Inv(s) && Idle(s) && c in s.channels && s.channels[c].phase == CONSUMING
    ensures s.queue.ready == {} && s.queue.unacked == map[]
  {
    hide Inv;
    forall b ensures !BrokerEnabled(s, b) {
      assert Productive(s, OfBroker(b));
      assert Enabled(s, OfBroker(b)) ==> !Productive(s, OfBroker(b));
    }
    forall t, h ensures !HandlerEnabled(s, t, h) {
      assert Enabled(s, OfHandler(t, h)) ==> !Productive(s, OfHandler(t, h));
    }
    NothingElseIsStuck(s, c);
    assert forall t :: t !in s.queue.unacked;
  }

  // From any point of a fair run without publishes, the main queue is empty later: nothing is
  // ready and nothing outstanding.
  lemma {:induction false} QueueEmpties(st: nat -> State, step: nat -> Step, n: nat) returns (m: nat)
    requires QuietRun(st, step) && Fair(st, step)
    ensures n <= m && st(m).queue.ready == {} && st(m).queue.unacked == map[]
    decreases Work(st(n))
  {
    hide Work, QuietRun, Fair, ProductiveLater, IdleLater;
    FairAt(st, step, n);
    if ProductiveLater(st, step, n) {
      var k := MoreWork(st, step, n);
      m := QueueEmpties(st, step, k);
    } else {
      m := EmptyLater(st, step, n);
    }
  }

  lemma FairAt(st: nat -> State, step: nat -> Step, n: nat)
    requires Fair(st, step)
    ensures ProductiveLater(st, step, n) || IdleLater(st, n)
  {
  }

  lemma MoreWork(st: nat -> State, step: nat -> Step, n: nat) returns (k: nat)
    requires QuietRun(st, step) && ProductiveLater(st, step, n)
    ensures n <= k && Work(st(k)) < Work(st(n))
  {
    hide Work, QuietRun, Productive;
    var j: nat :| n <= j && ProductiveAt(st, step, j);
    WorkNeverRises(st, step, n, j);
    WorkAt(st, step, j);
    k := j + 1;
  }

  lemma EmptyLater(st: nat -> State, step: nat -> Step, n: nat) returns (m: nat)
    requires QuietRun(st, step) && Fair(st, step) && IdleLater(st, n)
    ensures n <= m && st(m).queue.ready == {} && st(m).queue.unacked == map[]
  {
    hide QuietRun, Idle;
    var k: nat :| n <= k && IdleFrom(st, k);
    assert ConsumingLater(st, k);
    m :| k <= m && ConsumingAt(st, m);
    var c :| c in st(m).channels && st(m).channels[c].phase == CONSUMING;
    StaysGood(st, step, m);
    IdleIsEmpty(st(m), c);
  }

  // At least once, or explained: every event message is then acknowledged, with its event
  // recorded and its effect run, or dead-lettered after limit + 1 deliveries.
  lemma EveryMessageSettles(st: nat -> State, step: nat -> Step, n: nat) returns (m: nat)
    requires QuietRun(st, step) && Fair(st, step)
    ensures n <= m
    ensures forall x :: x in st(m).queue.body && st(m).queue.body[x].Event? ==>
              || (x in st(m).queue.acked
                  && st(m).queue.body[x].payload.eventId in st(m).processed
                  && st(m).Effects(st(m).queue.body[x].payload.eventId) >= 1)
              || (x in st(m).queue.dead && st(m).queue.Deliveries(x) == st(m).queue.limit + 1)
  {
    hide Fair, QuietRun;
    m := QueueEmpties(st, step, n);
    StaysGood(st, step, m);
    EmptyIsSettled(st(m));
  }

  lemma EmptyIsSettled(s: State)
    requires Inv(s) && s.queue.ready == {} && s.queue.unacked == map[]
    ensures forall x :: x in s.queue.body && s.queue.body[x].Event? ==>
              || (x in s.queue.acked
                  && s.queue.body[x].payload.eventId in s.processed && s.Effects(s.queue.body[x].payload.eventId) >= 1)
              || (x in s.queue.dead && s.queue.Deliveries(x) == s.queue.limit + 1)
  {
    hide TagsIssued, Held, Answering, Faithful, FramesFit, MintedFits, OutboxGenuine, BodiesGenuine, RowsGenuine, CallsFit;
    assert s.queue.Outstanding() == {};
  }

  // ---- From every state there is such a run ----

  lemma NotIdle(s: State) returns (p: Step)
    requires !Idle(s)
    ensures Enabled(s, p) && Productive(s, p) && !Publishes(p)
  {
    hide Enabled;
    p :| Enabled(s, p) && Productive(s, p);
  }

  lemma ReconnectedWork(s: State, t: State)
    requires Reconnected(s, t)
    ensures Work(t) == Work(s)
  {
  }

  lemma QuietJoin(before: seq<Step>, p: Step, after: seq<Step>)
    requires LinksOnly(before) && !Publishes(p) && Quiet(after)
    ensures Quiet(before) && Quiet(before + ([p] + after))
  {
  }

  // Doing whatever work there is, with a consumer connected each time, leads to an idle state.
  lemma {:induction false} WorksOff(s: State) returns (steps: seq<Step>, t: State, c: Chan)
    requires Inv(s)
    ensures Run(s, steps, t) && Quiet(steps) && Idle(t)
    ensures c in t.channels && t.channels[c].phase == CONSUMING && t.topology.exchange
    decreases Work(s)
  {
    hide Inv, Enabled, Apply, Idle, Work, Productive;
    var s1;
    steps, s1, c := ConsumerConnects(s);
    ReconnectedWork(s, s1);
    if Idle(s1) {
      t := s1;
    } else {
      var p := NotIdle(s1);
      WorkStep(s1, p);
      InvStep(s1, p);
      var rest;
      rest, t, c := WorksOff(Apply(s1, p));
      Joined(s, steps, s1, p, rest, t);
      QuietJoin(steps, p, rest);
      steps := steps + ([p] + rest);
    }
  }

  // The state after the first n of the steps, and the last one from then on.
  ghost function Walk(s: State, steps: seq<Step>, n: nat): State
    decreases n
  {
    if n == 0 || steps == [] || !Enabled(s, steps[0]) then s else Walk(Apply(s, steps[0]), steps[1..], n - 1)
  }

  lemma {:induction false} WalkSteps(s: State, steps: seq<Step>, t: State, n: nat)
    requires Run(s, steps, t)
    ensures n < |steps| ==> Enabled(Walk(s, steps, n), steps[n]) && Walk(s, steps, n + 1) == Apply(Walk(s, steps, n), steps[n])
    ensures n >= |steps| ==> Walk(s, steps, n) == t
    decreases |steps|
  {
    hide Enabled, Apply;
    if steps != [] && n > 0 {
      WalkSteps(Apply(s, steps[0]), steps[1..], t, n - 1);
    }
  }

  lemma AssertingAgain(s: State)
    requires s.topology.exchange
    ensures Enabled(s, OfWire(AssertExchange)) && Apply(s, OfWire(AssertExchange)) == s
  {
  }

  function StepAt(steps: seq<Step>, n: nat): Step {
    if n < |steps| then steps[n] else OfWire(AssertExchange)
  }

  lemma StandingStillIsFair(st: nat -> State, step: nat -> Step, m: nat, t: State, c: Chan)
    requires (forall n: nat :: m <= n ==> st(n) == t) && Idle(t) && c in t.channels && t.channels[c].phase == CONSUMING
    ensures Fair(st, step)
  {
    hide Idle;
    forall n: nat ensures IdleLater(st, n) && ConsumingLater(st, n) {
      var k := m + n;
      assert IdleFrom(st, k);
      assert c in st(k).channels && st(k).channels[c].phase == CONSUMING;
      assert ConsumingAt(st, k);
    }
  }

  // The assumptions can be met from every state, whatever is ready, outstanding, in flight or
  // abandoned in it.
  lemma FairRunFrom(s: State) returns (st: nat -> State, step: nat -> Step)
    requires Inv(s)
    ensures QuietRun(st, step) && Fair(st, step) && st(0) == s
  {
    hide Inv, Enabled, Apply, Idle;
    var steps, t, c := WorksOff(s);
    AssertingAgain(t);
    st, step := (n: nat) => Walk(s, steps, n), (n: nat) => StepAt(steps, n);
    forall n: nat ensures Enabled(st(n), step(n)) && st(n + 1) == Apply(st(n), step(n)) && !Publishes(step(n)) {
      WalkSteps(s, steps, t, n);
      WalkSteps(s, steps, t, n + 1);
    }
    forall n: nat | |steps| <= n ensures st(n) == t {
      WalkSteps(s, steps, t, n);
    }
    StandingStillIsFair(st, step, |steps|, t, c);
  }
}
