/** The consumer's setup: the operations onModuleInit queues on a new channel, and the consume
    that starts when they have all resolved. */
module PipelineSetup {
  import opened QuorumQueue
  import opened Pipeline
  import opened PipelineFrames
  import opened PipelineInvariant
  import opened PipelineWitnesses
  import opened PipelineServices

  predicate OwnSetup(step: Step, c: Chan) {
    step == OfLink(Setup(c))
  }

  // An opened channel goes on with its setup only by itself; anything else can only close it.
  ghost predicate AtPhase(s: State, c: Chan, phase: nat) {
    c in s.used && (c in s.channels ==> s.channels[c].phase == phase)
  }

  lemma OthersLeavePhase(s: State, step: Step, c: Chan, phase: nat)
    requires Enabled(s, step) && !OwnSetup(step, c) && AtPhase(s, c, phase)
    ensures AtPhase(Apply(s, step), c, phase)
  {
    hide ApplyCall, ApplyWire, ApplyLink, ApplyHandler, ApplyBroker;
    match step
    case OfCall(d, k) => CallFrame(s, d, k);
    case OfWire(w) => WireFrame(s, w);
    case OfLink(l) => LinkLeavesPhase(s, l, c, phase);
    case OfBroker(b) => BrokerLeavesPhase(s, b, c, phase);
    case OfHandler(t, h) => HandlerFrame(s, t, h);
  }

  lemma LinkLeavesPhase(s: State, step: LinkStep, c: Chan, phase: nat)
    requires LinkEnabled(s, step) && step != Setup(c) && AtPhase(s, c, phase)
    ensures AtPhase(ApplyLink(s, step), c, phase)
  {
  }

  lemma BrokerLeavesPhase(s: State, step: BrokerStep, c: Chan, phase: nat)
    requires BrokerEnabled(s, step) && AtPhase(s, c, phase)
    ensures AtPhase(ApplyBroker(s, step), c, phase)
  {
  }

  lemma SetupNeverRefused(s: State, c: Chan)
    requires Inv(s) && c in s.channels && c in s.used && s.channels[c].phase < CONSUMING
    ensures Enabled(s, OfLink(Setup(c)))
    ensures AtPhase(Apply(s, OfLink(Setup(c))), c, s.channels[c].phase + 1)
    ensures c in Apply(s, OfLink(Setup(c))).channels
  {
    hide QuorumQueue.Valid, TagsIssued, Held, Answering, Faithful, RowsBacked, FramesFit, AckedRecorded,
      DeadExplained, MintedFits, OutboxGenuine, BodiesGenuine, RowsGenuine, CallsFit;
  }

  class ConsumerChannel {
    const cluster: Cluster

    constructor (cluster: Cluster)
      ensures this.cluster == cluster
    {
      this.cluster := cluster;
    }

    method Await(chan: Chan, schedule: seq<Step>, ghost phase: nat, ghost s0: State, ghost before: seq<Step>)
      returns (ghost trace: seq<Step>)
      requires Run(s0, before, cluster.View()) && Inv(cluster.View()) && AtPhase(cluster.View(), chan, phase)
      modifies cluster
      ensures Run(s0, trace, cluster.View()) && Inv(cluster.View()) && AtPhase(cluster.View(), chan, phase)
    {
      trace := before;
      hide Inv, Run, Enabled, Apply, AtPhase, Cluster.View;
      for i := 0 to |schedule|
        invariant Run(s0, trace, cluster.View()) && Inv(cluster.View()) && AtPhase(cluster.View(), chan, phase)
      {
        var step := schedule[i];
        if Enabled(cluster.View(), step) && !OwnSetup(step, chan) {
          OthersLeavePhase(cluster.View(), step, chan, phase);
          RunExtends(s0, trace, cluster.View(), step);
          InvStep(cluster.View(), step);
          cluster.Perform(step);
          trace := trace + [step];
        }
      }
    }

    // One operation of the setup, which resolves unless the channel closes first.
    method Operation(chan: Chan, schedule: seq<Step>, ghost phase: nat, ghost s0: State, ghost before: seq<Step>)
      returns (resolved: bool, ghost trace: seq<Step>)
      requires Run(s0, before, cluster.View()) && Inv(cluster.View()) && AtPhase(cluster.View(), chan, phase)
      requires phase < CONSUMING
      modifies cluster
      ensures Run(s0, trace, cluster.View()) && Inv(cluster.View())
      ensures resolved ==> AtPhase(cluster.View(), chan, phase + 1)
      ensures resolved <==> chan in cluster.channels
    {
      trace := Await(chan, schedule, phase, s0, before);
      resolved := chan in cluster.channels;
      if resolved {
        SetupNeverRefused(cluster.View(), chan);
        hide Inv, Run, Enabled, Apply;
        RunExtends(s0, trace, cluster.View(), OfLink(Setup(chan)));
        InvStep(cluster.View(), OfLink(Setup(chan)));
        trace := trace + [OfLink(Setup(chan))];
        cluster.Perform(OfLink(Setup(chan)));
      }
    }

    /** setup on a freshly opened channel: the two exchanges, the dead-letter queue and its
        binding, the main queue and its binding, then the consume. Whatever other instances do
        meanwhile, the channel consumes only once both queues are bound. */
    method SetUp(chan: Chan, schedules: seq<seq<Step>>)
      returns (consuming: bool, ghost trace: seq<Step>)
      requires Inv(cluster.View()) && chan !in cluster.used && |schedules| == CONSUMING
      modifies cluster
      ensures Run(old(cluster.View()), trace, cluster.View()) && Inv(cluster.View())
      ensures consuming <==> chan in cluster.channels && cluster.channels[chan].phase == CONSUMING
      ensures consuming ==> cluster.topology.dlqBound && cluster.topology.queueBound
    {
      ghost var s0 := cluster.View();
      hide Inv, Run, AtPhase, Cluster.View;
      trace := Opened(chan, s0);
      consuming, trace := Exchanges(chan, schedules[..4], s0, trace);
      if !consuming { return; }
      consuming, trace := Operation(chan, schedules[4], 4, s0, trace);
      if !consuming { return; }
      consuming, trace := Operation(chan, schedules[5], 5, s0, trace);
      if !consuming { return; }
      consuming, trace := Operation(chan, schedules[6], 6, s0, trace);
      if consuming {
        ConsumingIsBound(cluster.View(), chan);
      }
    }

    // The two exchanges, the dead-letter queue, and its binding.
    method Exchanges(chan: Chan, schedules: seq<seq<Step>>, ghost s0: State, ghost before: seq<Step>)
      returns (resolved: bool, ghost trace: seq<Step>)
      requires Run(s0, before, cluster.View()) && Inv(cluster.View()) && AtPhase(cluster.View(), chan, 0)
      requires |schedules| == 4
      modifies cluster
      ensures Run(s0, trace, cluster.View()) && Inv(cluster.View())
      ensures resolved ==> AtPhase(cluster.View(), chan, 4)
      ensures resolved <==> chan in cluster.channels
    {
      hide Inv, Run, AtPhase, Cluster.View;
      resolved, trace := Operation(chan, schedules[0], 0, s0, before);
      if !resolved { return; }
      resolved, trace := Operation(chan, schedules[1], 1, s0, trace);
      if !resolved { return; }
      resolved, trace := Operation(chan, schedules[2], 2, s0, trace);
      if !resolved { return; }
      resolved, trace := Operation(chan, schedules[3], 3, s0, trace);
    }

    method Opened(chan: Chan, ghost s0: State) returns (ghost trace: seq<Step>)
      requires s0 == cluster.View() && Inv(s0) && chan !in cluster.used
      modifies cluster`channels, cluster`used
      ensures Run(s0, trace, cluster.View()) && Inv(cluster.View()) && AtPhase(cluster.View(), chan, 0)
      ensures chan in cluster.channels
    {
      hide Inv, Run;
      EmptyRun(s0, Tag(chan, 0));
      RunExtends(s0, [], s0, OfLink(Open(chan)));
      InvStep(s0, OfLink(Open(chan)));
      trace := [] + [OfLink(Open(chan))];
      cluster.channels := cluster.channels[chan := Channel(0, 1)];
      cluster.used := cluster.used + {chan};
    }
  }

  lemma ConsumingIsBound(s: State, c: Chan)
    requires Inv(s) && AtPhase(s, c, CONSUMING) && c in s.channels
    ensures s.channels[c].phase == CONSUMING && s.topology.dlqBound && s.topology.queueBound
  {
    hide QuorumQueue.Valid, TagsIssued, Held, Answering, Faithful, RowsBacked, FramesFit, AckedRecorded,
      DeadExplained, MintedFits, OutboxGenuine, BodiesGenuine, RowsGenuine, CallsFit;
  }
}
