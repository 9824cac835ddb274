/** Exactly-once under the two hypotheses the entity's comment assumes: the effect and the row
    are written as one step, and no two attempts at one event work at the same time. Without
    them it fails, as PipelineWitnesses and PipelineRedeliveries show. */
module PipelineExactlyOnce {
  import opened QuorumQueue
  import opened Pipeline
  import opened PipelineFrames
  import opened PipelineDedupe

  // ---- The ledger ----

  // How often each event took effect; an event is entered once.
  type Ledger = map<Id, nat>

  ghost predicate LedgerRun(l: Ledger, entries: seq<Id>, l': Ledger)
    decreases |entries|
  {
    if entries == [] then l == l'
    else entries[0] !in l && LedgerRun(l[entries[0] := 1], entries[1..], l')
  }

  lemma {:induction false} LedgerEntersOnce(l: Ledger, entries: seq<Id>, l': Ledger)
    requires LedgerRun(l, entries, l')
    ensures forall i, j :: 0 <= i < j < |entries| ==> entries[i] != entries[j]
    ensures forall e :: e in l' <==> e in l || e in entries
    ensures forall e :: e in l ==> e !in entries && l'[e] == l[e]
    ensures forall e :: e in entries ==> l'[e] == 1
    decreases |entries|
  {
    if entries != [] {
      var head, rest := entries[0], entries[1..];
      assert entries == [head] + rest;
      LedgerEntersOnce(l[head := 1], rest, l');
      forall i, j | 0 <= i < j < |entries| ensures entries[i] != entries[j] {
        assert entries[j] == rest[j - 1];
        if i > 0 {
          assert entries[i] == rest[i - 1];
        }
      }
      assert forall e :: e in entries <==> e == head || e in rest;
    }
  }

  // ---- Disciplined runs ----

  // No other attempt at the event is between its check and its effect.
  ghost predicate AloneAt(s: State, t: Tag) {
    && t in s.attempts && s.attempts[t].pc.Checking?
    && forall u :: u in s.attempts && u != t ==> !Works(s.attempts[u], s.attempts[t].pc.payload.eventId)
  }

  // Every effect is followed at once by the commit of its row, and a check is resolved only
  // while no other attempt works on the same event.
  ghost predicate Disciplined(s: State, steps: seq<Step>)
    decreases |steps|
  {
    if steps == [] || !Enabled(s, steps[0]) then true
    else if steps[0].OfHandler? && steps[0].handlerStep.RunEffect? then
      && |steps| >= 2 && steps[1] == OfHandler(steps[0].tag, CommitRow)
      && Disciplined(Transacted(s, steps[0].tag), steps[2..])
    else
      && (steps[0].OfHandler? && steps[0].handlerStep.FindResolves? ==> AloneAt(s, steps[0].tag))
      && Disciplined(Apply(s, steps[0]), steps[1..])
  }

  lemma CommitFollows(s: State, t: Tag)
    requires HandlerEnabled(s, t, RunEffect)
    ensures HandlerEnabled(ApplyHandler(s, t, RunEffect), t, CommitRow)
  {
  }

  // Effect and row in one step.
  function Transacted(s: State, t: Tag): State
    requires HandlerEnabled(s, t, RunEffect)
  {
    CommitFollows(s, t);
    ApplyHandler(ApplyHandler(s, t, RunEffect), t, CommitRow)
  }

  // The events a disciplined run enters, in order; every other step enters none.
  ghost function Entries(s: State, steps: seq<Step>): seq<Id>
    decreases |steps|
  {
    if steps == [] || !Enabled(s, steps[0]) then []
    else if steps[0].OfHandler? && steps[0].handlerStep.RunEffect? && |steps| >= 2 then
      [s.attempts[steps[0].tag].pc.payload.eventId] + Entries(Transacted(s, steps[0].tag), steps[2..])
    else Entries(Apply(s, steps[0]), steps[1..])
  }

  // The concurrent state shows the ledger: the recorded events are those that took effect,
  // each once, and whoever still works on an event is alone and the event is not recorded.
  ghost predicate ShowsLedger(processed: map<Id, string>, effects: Ledger, attempts: map<Tag, Attempt>) {
    && effects.Keys == processed.Keys
    && (forall e :: e in effects ==> effects[e] == 1)
    && (forall t :: t in attempts ==> !attempts[t].pc.Saving?)
    && (forall t :: t in attempts && attempts[t].pc.Working? ==> attempts[t].pc.payload.eventId !in processed)
    && (forall t, u :: t in attempts && u in attempts && t != u && attempts[t].pc.Working? ==>
          !Works(attempts[u], attempts[t].pc.payload.eventId))
  }

  lemma InitialShowsLedger(limit: nat)
    ensures ShowsLedger(Initial(limit).processed, Initial(limit).effects, Initial(limit).attempts)
  {
  }

  lemma TransactedShows(s: State, t: Tag)
    requires ShowsLedger(s.processed, s.effects, s.attempts) && HandlerEnabled(s, t, RunEffect)
    ensures (var s' := Transacted(s, t);
             var e := s.attempts[t].pc.payload.eventId;
             && e !in s.effects && s'.effects == s.effects[e := 1]
             && ShowsLedger(s'.processed, s'.effects, s'.attempts))
  {
    var payload := s.attempts[t].pc.payload;
    var s' := Transacted(s, t);
    assert s'.attempts == s.attempts[t := s.attempts[t].(pc := Saved(payload))];
    assert s'.processed == s.processed[payload.eventId := payload.eventType];
    assert s'.effects == s.effects[payload.eventId := 1];
    hide ApplyHandler, Transacted;
  }

  lemma HandlerShows(s: State, t: Tag, step: HandlerStep)
    requires ShowsLedger(s.processed, s.effects, s.attempts)
    requires HandlerEnabled(s, t, step) && !step.RunEffect?
    requires step.FindResolves? ==> AloneAt(s, t)
    ensures (var s' := ApplyHandler(s, t, step);
             s'.effects == s.effects && ShowsLedger(s'.processed, s'.effects, s'.attempts))
  {
    HandlerFrame(s, t, step);
    HandlerEffects(s, t, step, if s.attempts[t].pc.Checking? then s.attempts[t].pc.payload.eventId else 0);
    var s' := ApplyHandler(s, t, step);
    assert s'.processed == s.processed && s'.effects == s.effects;
    hide ApplyHandler;
  }

  // No attempt came closer to its effect.
  ghost predicate Recede(attempts: map<Tag, Attempt>, attempts': map<Tag, Attempt>) {
    forall t :: t in attempts' && (attempts'[t].pc.Working? || attempts'[t].pc.Saving?) ==>
      t in attempts && attempts[t] == attempts'[t]
  }

  lemma RecedeShows(processed: map<Id, string>, effects: Ledger, attempts: map<Tag, Attempt>, attempts': map<Tag, Attempt>)
    requires ShowsLedger(processed, effects, attempts) && Recede(attempts, attempts')
    ensures ShowsLedger(processed, effects, attempts')
  {
  }

  lemma LinkRecedes(s: State, step: LinkStep)
    requires LinkEnabled(s, step)
    ensures Recede(s.attempts, ApplyLink(s, step).attempts)
  {
  }

  lemma BrokerRecedes(s: State, step: BrokerStep)
    requires BrokerEnabled(s, step)
    ensures Recede(s.attempts, ApplyBroker(s, step).attempts)
  {
  }

  lemma SteppedShows(s: State, step: Step)
    requires ShowsLedger(s.processed, s.effects, s.attempts) && Enabled(s, step) && !step.OfHandler?
    ensures (var s' := Apply(s, step);
             s'.effects == s.effects && ShowsLedger(s'.processed, s'.effects, s'.attempts))
  {
    hide ApplyCall, ApplyWire, ApplyLink, ApplyBroker, ShowsLedger, Recede;
    match step
    case OfCall(c, k) => CallFrame(s, c, k);
    case OfWire(w) => WireFrame(s, w);
    case OfLink(l) =>
      LinkFrame(s, l);
      LinkRecedes(s, l);
      RecedeShows(s.processed, s.effects, s.attempts, ApplyLink(s, l).attempts);
    case OfBroker(b) =>
      BrokerFrame(s, b);
      BrokerRecedes(s, b);
      RecedeShows(s.processed, s.effects, s.attempts, ApplyBroker(s, b).attempts);
  }

  // Refinement: a disciplined run of the concurrent system is a run of the ledger, in which
  // every delivery, redelivery, check, answer and loss is a stuttering step.
  lemma {:induction false} RefinesLedger(s: State, steps: seq<Step>, t: State)
    requires ShowsLedger(s.processed, s.effects, s.attempts)
    requires Run(s, steps, t) && Disciplined(s, steps)
    ensures ShowsLedger(t.processed, t.effects, t.attempts)
    ensures LedgerRun(s.effects, Entries(s, steps), t.effects)
    decreases |steps|
  {
    hide ShowsLedger, Enabled, Apply, ApplyHandler, AloneAt;
    if steps == [] {
    } else if steps[0].OfHandler? && steps[0].handlerStep.RunEffect? {
      DisciplinedEffect(s, steps, t);
      TransactedShows(s, steps[0].tag);
      RefinesLedger(Transacted(s, steps[0].tag), steps[2..], t);
      var e := s.attempts[steps[0].tag].pc.payload.eventId;
      var rest := Entries(Transacted(s, steps[0].tag), steps[2..]);
      assert Entries(s, steps) == [e] + rest;
      assert ([e] + rest)[1..] == rest;
    } else {
      DisciplinedOther(s, steps);
      RefinesLedger(Apply(s, steps[0]), steps[1..], t);
    }
  }

  lemma DisciplinedEffect(s: State, steps: seq<Step>, t: State)
    requires steps != [] && steps[0].OfHandler? && steps[0].handlerStep.RunEffect?
    requires Run(s, steps, t) && Disciplined(s, steps)
    ensures |steps| >= 2 && HandlerEnabled(s, steps[0].tag, RunEffect)
    ensures Run(Transacted(s, steps[0].tag), steps[2..], t)
    ensures Enabled(s, steps[0]) && Disciplined(Transacted(s, steps[0].tag), steps[2..])
  {
    hide ApplyHandler;
    assert steps[1..][0] == steps[1];
    assert steps[1..][1..] == steps[2..];
  }

  lemma DisciplinedOther(s: State, steps: seq<Step>)
    requires ShowsLedger(s.processed, s.effects, s.attempts)
    requires steps != [] && Enabled(s, steps[0]) && Disciplined(s, steps)
    requires !(steps[0].OfHandler? && steps[0].handlerStep.RunEffect?)
    ensures (var s' := Apply(s, steps[0]);
             && s'.effects == s.effects && ShowsLedger(s'.processed, s'.effects, s'.attempts)
             && Disciplined(s', steps[1..]))
    ensures Entries(s, steps) == Entries(Apply(s, steps[0]), steps[1..])
  {
    if steps[0].OfHandler? {
      HandlerShows(s, steps[0].tag, steps[0].handlerStep);
    } else {
      SteppedShows(s, steps[0]);
    }
    hide ShowsLedger, ApplyHandler;
  }

  // So in every disciplined run from the start, each recorded event took effect exactly once
  // and no other event took effect.
  lemma ExactlyOnce(limit: nat, steps: seq<Step>, t: State, e: Id)
    requires Run(Initial(limit), steps, t) && Disciplined(Initial(limit), steps)
    ensures t.Effects(e) == if e in t.processed then 1 else 0
  {
    InitialShowsLedger(limit);
    RefinesLedger(Initial(limit), steps, t);
  }
}
