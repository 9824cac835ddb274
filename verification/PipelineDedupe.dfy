/** How often the side effect of one event can run. The effect and the row of processed_events
    are not written together, so the answer is a bound and a condition, not "once". */
module PipelineDedupe {
  import opened Collections
  import opened QuorumQueue
  import opened Pipeline
  import opened PipelineFrames

  // The attempts that found no row for e and have not run its effect.
  function WorkingOn(attempts: map<Tag, Attempt>, e: Id): set<Tag> {
    set t | t in attempts && attempts[t].pc.Working? && attempts[t].pc.payload.eventId == e
  }

  // How often the effect of e has run or may still run without another check.
  function Potential(s: State, e: Id): nat {
    s.Effects(e) + |WorkingOn(s.attempts, e)|
  }

  // The step is a findOne for e that finds no row.
  predicate PassesCheck(s: State, step: Step, e: Id) {
    && step.OfHandler? && step.handlerStep.FindResolves?
    && step.tag in s.attempts && s.attempts[step.tag].pc.Checking?
    && s.attempts[step.tag].pc.payload.eventId == e
    && e !in s.processed
  }

  // The attempts working on e can only become fewer, and effects can only replace them.
  ghost predicate Settling(s: State, s': State, e: Id) {
    && WorkingOn(s'.attempts, e) <= WorkingOn(s.attempts, e)
    && s.Effects(e) <= s'.Effects(e)
    && Potential(s', e) <= Potential(s, e)
    && (e in s.processed ==> e in s'.processed)
  }

  lemma LinkSettling(s: State, step: LinkStep, e: Id)
    requires LinkEnabled(s, step)
    ensures Settling(s, ApplyLink(s, step), e)
  {
    LinkFrame(s, step);
    var s' := ApplyLink(s, step);
    assert WorkingOn(s'.attempts, e) <= WorkingOn(s.attempts, e);
    CardinalityMonotone(WorkingOn(s'.attempts, e), WorkingOn(s.attempts, e));
  }

  lemma BrokerSettling(s: State, step: BrokerStep, e: Id)
    requires BrokerEnabled(s, step)
    ensures Settling(s, ApplyBroker(s, step), e)
  {
    BrokerFrame(s, step);
    var s' := ApplyBroker(s, step);
    assert WorkingOn(s'.attempts, e) <= WorkingOn(s.attempts, e);
    CardinalityMonotone(WorkingOn(s'.attempts, e), WorkingOn(s.attempts, e));
  }

  predicate Works(a: Attempt, e: Id) {
    a.pc.Working? && a.pc.payload.eventId == e
  }

  lemma WorkingAfterMove(attempts: map<Tag, Attempt>, t: Tag, a: Attempt, e: Id)
    ensures WorkingOn(attempts[t := a], e) == (WorkingOn(attempts, e) - {t}) + if Works(a, e) then {t} else {}
  {
  }

  lemma HandlerEffects(s: State, t: Tag, step: HandlerStep, e: Id)
    requires HandlerEnabled(s, t, step)
    ensures (var s' := ApplyHandler(s, t, step);
             && s'.Effects(e) == s.Effects(e) + (if step.RunEffect? && Works(s.attempts[t], e) then 1 else 0)
             && (e in s.processed ==> e in s'.processed)
             && t in s'.attempts
             && (Works(s'.attempts[t], e) <==> PassesCheck(s, OfHandler(t, step), e)))
  {
  }

  // What one segment of an attempt does to the attempts working on e.
  lemma HandlerWorking(s: State, t: Tag, step: HandlerStep, e: Id)
    requires HandlerEnabled(s, t, step)
    ensures (var s' := ApplyHandler(s, t, step);
             var before := WorkingOn(s.attempts, e);
             && (PassesCheck(s, OfHandler(t, step), e) ==>
                   t !in before && WorkingOn(s'.attempts, e) == before + {t} && s'.Effects(e) == s.Effects(e))
             && (!PassesCheck(s, OfHandler(t, step), e) ==>
                   WorkingOn(s'.attempts, e) == before - {t}
                   && s'.Effects(e) == if step.RunEffect? && t in before then s.Effects(e) + 1 else s.Effects(e))
             && (e in s.processed ==> e in s'.processed))
  {
    HandlerFrame(s, t, step);
    HandlerEffects(s, t, step, e);
    var s' := ApplyHandler(s, t, step);
    WorkingAfterMove(s.attempts, t, s'.attempts[t], e);
    assert t in WorkingOn(s.attempts, e) <==> Works(s.attempts[t], e);
    hide ApplyHandler, WorkingOn;
  }

  lemma HandlerSettling(s: State, t: Tag, step: HandlerStep, e: Id)
    requires HandlerEnabled(s, t, step)
    ensures PassesCheck(s, OfHandler(t, step), e) ==>
              Potential(ApplyHandler(s, t, step), e) == Potential(s, e) + 1
    ensures !PassesCheck(s, OfHandler(t, step), e) ==> Settling(s, ApplyHandler(s, t, step), e)
  {
    HandlerWorking(s, t, step, e);
    hide ApplyHandler, WorkingOn;
    var before := WorkingOn(s.attempts, e);
    if t in before {
      assert before == (before - {t}) + {t};
    } else {
      assert before - {t} == before;
    }
  }

  // A check that finds no row adds one to the potential; nothing else ever adds to it.
  lemma PotentialStep(s: State, step: Step, e: Id)
    requires Enabled(s, step)
    ensures PassesCheck(s, step, e) ==> Potential(Apply(s, step), e) == Potential(s, e) + 1
    ensures !PassesCheck(s, step, e) ==> Settling(s, Apply(s, step), e)
  {
    hide ApplyCall, ApplyWire, ApplyLink, ApplyBroker, ApplyHandler;
    match step
    case OfCall(c, k) => CallFrame(s, c, k);
    case OfWire(w) => WireFrame(s, w);
    case OfLink(l) => LinkSettling(s, l, e);
    case OfBroker(b) => BrokerSettling(s, b, e);
    case OfHandler(t, h) => HandlerSettling(s, t, h, e);
  }

  // Dedupe stability: from the moment e is recorded, over any run with any redeliveries,
  // copies and losses, only attempts that had already passed the check run the effect.
  lemma {:induction false} RecordedEventSettles(s: State, steps: seq<Step>, t: State, e: Id)
    requires Run(s, steps, t) && e in s.processed
    ensures e in t.processed
    ensures WorkingOn(t.attempts, e) <= WorkingOn(s.attempts, e)
    ensures s.Effects(e) <= t.Effects(e)
    ensures t.Effects(e) + |WorkingOn(t.attempts, e)| <= s.Effects(e) + |WorkingOn(s.attempts, e)|
    decreases |steps|
  {
    hide WorkingOn, Enabled, Apply;
    if steps != [] {
      PotentialStep(s, steps[0], e);
      RecordedEventSettles(Apply(s, steps[0]), steps[1..], t, e);
    }
  }

  // Once they are through, the effect never runs again.
  lemma RecordedEventIsQuiet(s: State, steps: seq<Step>, t: State, e: Id)
    requires Run(s, steps, t) && e in s.processed && WorkingOn(s.attempts, e) == {}
    ensures t.Effects(e) == s.Effects(e) && WorkingOn(t.attempts, e) == {}
  {
    RecordedEventSettles(s, steps, t, e);
  }

  // The number of checks of a run that found no row for e.
  ghost function Passes(s: State, steps: seq<Step>, e: Id): nat
    decreases |steps|
  {
    if steps == [] || !Enabled(s, steps[0]) then 0
    else (if PassesCheck(s, steps[0], e) then 1 else 0) + Passes(Apply(s, steps[0]), steps[1..], e)
  }

  lemma {:induction false} EffectsBoundedByPasses(s: State, steps: seq<Step>, t: State, e: Id)
    requires Run(s, steps, t)
    ensures Potential(t, e) <= Potential(s, e) + Passes(s, steps, e)
    decreases |steps|
  {
    hide WorkingOn, Enabled, Apply, PassesCheck;
    if steps != [] {
      PotentialStep(s, steps[0], e);
      EffectsBoundedByPasses(Apply(s, steps[0]), steps[1..], t, e);
    }
  }

  // ---- Runs in which attempts do not overlap ----

  // Every check for e that finds no row is made when the effect of e has not run and no other
  // attempt is between its check and the effect.
  ghost predicate ChecksAlone(s: State, steps: seq<Step>, e: Id)
    decreases |steps|
  {
    steps == [] || !Enabled(s, steps[0])
    || ((PassesCheck(s, steps[0], e) ==> s.Effects(e) == 0 && WorkingOn(s.attempts, e) == {})
        && ChecksAlone(Apply(s, steps[0]), steps[1..], e))
  }

  ghost predicate PotentialAtMostOne(s: State, steps: seq<Step>, e: Id)
    decreases |steps|
  {
    && Potential(s, e) <= 1
    && (steps == [] || !Enabled(s, steps[0]) || PotentialAtMostOne(Apply(s, steps[0]), steps[1..], e))
  }

  // Along a run, effects run and attempts past their check stay at most one together if and only
  // if each passing check is made before any effect and with no other attempt past its check.
  lemma {:induction false} PotentialIffChecksAlone(s: State, steps: seq<Step>, t: State, e: Id)
    requires Run(s, steps, t) && Potential(s, e) <= 1
    ensures PotentialAtMostOne(s, steps, e) <==> ChecksAlone(s, steps, e)
    decreases |steps|
  {
    hide WorkingOn, Enabled, Apply, PassesCheck;
    if steps != [] {
      var s1 := Apply(s, steps[0]);
      PotentialStep(s, steps[0], e);
      if Potential(s1, e) <= 1 {
        PotentialIffChecksAlone(s1, steps[1..], t, e);
        assert PassesCheck(s, steps[0], e) ==> s.Effects(e) == 0 && |WorkingOn(s.attempts, e)| == 0;
      } else {
        assert PassesCheck(s, steps[0], e);
        assert !(s.Effects(e) == 0 && |WorkingOn(s.attempts, e)| == 0);
      }
    }
  }

  // The potential is real: with no further check, every attempt working on e can run its
  // effect, and then the effect has run that often.
  lemma {:induction false} PotentialIsReached(s: State, e: Id) returns (steps: seq<Step>, t: State)
    ensures Run(s, steps, t) && t.Effects(e) == Potential(s, e)
    decreases |WorkingOn(s.attempts, e)|
  {
    var working := WorkingOn(s.attempts, e);
    if working == {} {
      steps, t := [], s;
    } else {
      var tag :| tag in working;
      var s1 := ApplyHandler(s, tag, RunEffect);
      HandlerWorking(s, tag, RunEffect, e);
      assert working == WorkingOn(s1.attempts, e) + {tag};
      hide ApplyHandler;
      var rest;
      rest, t := PotentialIsReached(s1, e);
      steps := [OfHandler(tag, RunEffect)] + rest;
      assert steps[1..] == rest;
      assert Apply(s, steps[0]) == s1;
    }
  }
}
