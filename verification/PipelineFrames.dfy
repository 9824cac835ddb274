/** What each kind of pipeline step leaves alone. */
module PipelineFrames {
  import opened QuorumQueue
  import opened Pipeline

  // A call touches the task table and the publisher's buffers only.
  lemma CallFrame(s: State, c: nat, step: CallStep)
    requires CallEnabled(s, c, step)
    ensures (var s' := ApplyCall(s, c, step);
             && s'.processed == s.processed && s'.effects == s.effects && s'.attempts == s.attempts
             && s'.queue == s.queue && s'.frames == s.frames
             && s'.topology == s.topology && s'.channels == s.channels && s'.used == s.used)
  {
  }

  lemma CallLeavesOthers(s: State, c: nat, step: CallStep, d: nat)
    requires CallEnabled(s, c, step) && c != d
    ensures d in ApplyCall(s, c, step).calls <==> d in s.calls
    ensures d in s.calls ==> ApplyCall(s, c, step).calls[d] == s.calls[d]
  {
  }

  lemma WireFrame(s: State, step: WireStep)
    requires WireEnabled(s, step)
    ensures (var s' := ApplyWire(s, step);
             && s'.tasks == s.tasks && s'.calls == s.calls && s'.minted == s.minted
             && s'.processed == s.processed && s'.effects == s.effects && s'.attempts == s.attempts
             && s'.frames == s.frames && s'.channels == s.channels && s'.used == s.used
             && s'.queue.unacked == s.queue.unacked && s'.queue.limit == s.queue.limit
             && s'.queue.acked == s.queue.acked && s'.queue.dead == s.queue.dead)
  {
  }

  // Losing connections touches no table and runs no effect; no channel comes back.
  lemma LinkFrame(s: State, step: LinkStep)
    requires LinkEnabled(s, step)
    ensures (var s' := ApplyLink(s, step);
             && s'.tasks == s.tasks && s'.minted == s.minted
             && s'.processed == s.processed && s'.effects == s.effects
             && s'.queue.limit == s.queue.limit
             && s.used <= s'.used
             && (forall c :: c in s.used && c !in s.channels ==> c !in s'.channels)
             && (forall t :: t in s'.frames ==> t in s.frames)
             && (forall t :: t in s'.queue.unacked ==> t in s.queue.unacked))
  {
  }

  lemma AnswerFrame(q: Queue, t: Tag, frame: Frame, bound: bool)
    ensures AfterAnswer(q, t, frame, bound).limit == q.limit
    ensures AfterAnswer(q, t, frame, bound).unacked == q.unacked - {t}
  {
  }

  lemma BrokerFrame(s: State, step: BrokerStep)
    requires BrokerEnabled(s, step)
    ensures (var s' := ApplyBroker(s, step);
             && s'.tasks == s.tasks && s'.calls == s.calls && s'.minted == s.minted && s'.outbox == s.outbox
             && s'.processed == s.processed && s'.effects == s.effects
             && s'.topology == s.topology && s'.used == s.used
             && s'.channels.Keys == s.channels.Keys
             && s'.queue.limit == s.queue.limit)
  {
    if step.Settle? {
      AnswerFrame(s.queue, step.tag, s.frames[step.tag], s.topology.dlqBound);
    }
    hide AfterAnswer;
  }

  lemma BrokerTags(s: State, step: BrokerStep)
    requires BrokerEnabled(s, step)
    ensures (var s' := ApplyBroker(s, step);
             && (forall t :: t in s'.frames ==> t in s.frames)
             && (forall t :: t in s'.queue.unacked && t !in s.queue.unacked ==> t.chan in s.channels))
  {
    if step.Settle? {
      AnswerFrame(s.queue, step.tag, s.frames[step.tag], s.topology.dlqBound);
    }
    hide AfterAnswer;
  }

  // The order of handleMessage's program points.
  predicate Follows(pc: Pc, pc': Pc) {
    match pc
    case Delivered => pc'.Checking? || pc'.Finished?
    case Checking(payload) => pc' == Working(payload) || pc'.Finished? || pc'.Abandoned?
    case Working(payload) => pc' == Saving(payload) || pc'.Finished?
    case Saving(payload) => pc' == Saved(payload) || pc'.Finished?
    case Saved(_) => pc'.Finished?
    case Finished => false
    case Abandoned => false
  }

  // An attempt moves itself, sends at most its own answer, and leaves the queue alone.
  lemma HandlerFrame(s: State, t: Tag, step: HandlerStep)
    requires HandlerEnabled(s, t, step)
    ensures (var s' := ApplyHandler(s, t, step);
             && s' == s.(attempts := s'.attempts, frames := s'.frames, effects := s'.effects, processed := s'.processed)
             && t in s'.attempts && Follows(s.attempts[t].pc, s'.attempts[t].pc)
             && s'.attempts == s.attempts[t := s.attempts[t].(pc := s'.attempts[t].pc)]
             && (forall u :: u in s'.frames ==> u in s.frames || (u == t && t.chan in s.channels)))
  {
  }
}
