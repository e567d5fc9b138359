/**
 Delivery is reachable: from every idle endpoint, with the lanes empty, a full
 snapshot of any newer generation can be started, built, streamed, committed and
 delivered, and this is the run that does it.
 */
module EndpointDelivery {
  import opened Engine
  import opened Candidate
  import opened CandidateTheorems
  import opened EndpointOps
  import opened EndpointTheorems
  import opened EndpointPolling
  import opened EndpointRuns
  import opened EndpointGuarantees
  import P = StreamProtocol
  import G = RecursiveGreen
  import GT = RecursiveGreenTheorems
  import L = Lanes
  import LP = LanePoll

  // ---------------------------------------------------------------- runs, step by step

  /** `states` are what `ops` visit, each operation within the engine's contract. */
  predicate Visits(states: seq<Endpoint>, ops: seq<Op>) {
    && |states| == |ops| + 1
    && forall i :: 0 <= i < |ops| ==> Legal(states[i], ops[i]) && Apply(states[i], ops[i]).endpoint == states[i + 1]
  }

  lemma {:induction false} VisitsRun(states: seq<Endpoint>, ops: seq<Op>)
    requires Visits(states, ops)
    ensures LegalRun(states[0], ops) && Run(states[0], ops) == states[|ops|]
    decreases |ops|
  {
    hide Legal, Apply;
    if ops != [] {
      var rest, more := states[1..], ops[1..];
      forall i | 0 <= i < |more|
        ensures Legal(rest[i], more[i]) && Apply(rest[i], more[i]).endpoint == rest[i + 1]
      {
        assert rest[i] == states[i + 1] && more[i] == ops[i + 1] && rest[i + 1] == states[i + 2];
      }
      VisitsRun(rest, more);
    }
  }

  lemma {:induction false} RunsAppend(e: Endpoint, first: seq<Op>, second: seq<Op>)
    ensures LegalRun(e, first + second) <==> LegalRun(e, first) && LegalRun(Run(e, first), second)
    ensures Run(e, first + second) == Run(Run(e, first), second)
    decreases |first|
  {
    hide Legal, Apply;
    if first == [] {
      assert first + second == second;
    } else {
      RunsAppend(Apply(e, first[0]).endpoint, first[1..], second);
      assert (first + second)[1..] == first[1..] + second;
    }
  }

  lemma ReachableOnward(e: Endpoint, ops: seq<Op>)
    requires Reachable(e) && LegalRun(e, ops)
    ensures Reachable(Run(e, ops))
  {
    hide LegalRun, Run;
    var before: seq<Op> :| LegalRun(New, before) && Run(New, before) == e;
    RunsAppend(New, before, ops);
  }

  lemma ReachableNext(e: Endpoint, op: Op)
    requires Reachable(e) && Legal(e, op)
    ensures Reachable(Apply(e, op).endpoint)
  {
    hide Reachable, Legal, Apply;
    var ops := [op];
    assert ops[1..] == [];
    assert LegalRun(e, ops) && Run(e, ops) == Apply(e, op).endpoint by {
      OneStep(e, op);
    }
    ReachableOnward(e, ops);
  }

  lemma OneStep(e: Endpoint, op: Op)
    requires Legal(e, op)
    ensures LegalRun(e, [op]) && Run(e, [op]) == Apply(e, op).endpoint
  {
    hide Legal, Apply;
    assert [op][1..] == [];
    var after := Apply(e, op).endpoint;
    assert LegalRun(after, []) && Run(after, []) == after;
  }

  lemma NewIsReachable()
    ensures Reachable(New)
  {
    assert LegalRun(New, []) && Run(New, []) == New;
  }

  // ----------------------------------------------------------------------- the engine

  /** A poll answer of which only the target and candidate answers matter. */
  function Ask(target: G.TargetReply, active: seq<ActiveReply>): PollReply {
    PollReply(CleanupReply(Progress(0), Progress(0), true, [], []), target, Progress(0),
              PreemptReply(false, false, Err(Busy), None),
              LP.LaneReply([], None, [], [], true, true, 0), active)
  }

  function TargetStep(status: G.PollStatus, handle: Resource): G.TargetReply {
    G.TargetReply(0, status, handle, Progress(0), None)
  }

  function Finished(handle: Resource, next: Option<Restart>): ActiveReply {
    Done(0, true, handle, next, false, false, Published, 1, false)
  }

  // --------------------------------------------------------------------- the snapshot

  /** A full snapshot: its context, the session and writer the engine makes, the restart it leaves. */
  datatype Snapshot = Snapshot(context: Context, session: Resource, writer: Resource, next: Option<Restart>)

  function TargetOf(d: Snapshot): G.Target {
    G.Target(d.context.source, d.context.profile)
  }

  /** An idle endpoint that a snapshot of a newer generation may start on. */
  predicate CanTake(e: Endpoint, d: Snapshot) {
    && Idle(e) && !e.closing && d.context.source == d.context.ackSource
    && e.lanes.viewport.None? && e.lanes.hot.None? && e.lanes.sidecar.None? && e.lanes.unavailable.None?
    && (e.retained.Some? ==> e.retained.value.ack.hostRevision < d.context.generation)
  }

  predicate IsInitial(e: Endpoint) {
    e.retained.None? && e.green.installed.None?
  }

  function OriginOf(e: Endpoint): G.Origin {
    if e.green.installed.Some? then G.IncrementalFallback else G.Initial
  }

  function NextOf(e: Endpoint, d: Snapshot): Option<Restart> {
    if IsInitial(e) then Some(Restart(ByRecursiveGreen, d.context.generation)) else d.next
  }

  function Target(e: Endpoint, pending: G.Pending): G.Slot {
    e.green.(installed := None, pending := Some(pending))
  }

  function Started(e: Endpoint, d: Snapshot, pending: G.Pending): Endpoint {
    e.(bullet := None, active := Some(Parsing(d.context, IsInitial(e))), green := Target(e, pending))
  }

  function ReadySlot(e: Endpoint, d: Snapshot): G.Slot {
    Target(e, G.ReadyClean(G.Session(d.session, d.context.source, d.context.profile), e.green.installed, OriginOf(e)))
  }

  function StreamOf(e: Endpoint, d: Snapshot, sealed: bool, phase: P.StreamPhase): Streaming {
    Streaming(if sealed then None else Some(Stream(d.writer, None)), if sealed then Some(d.writer) else None, FullSnapshot,
              d.context, phase, if sealed then Some(ExpectedAck(d.context)) else None, NextOf(e, d), None, None, false, None)
  }

  function Streams(e: Endpoint, d: Snapshot, sealed: bool, phase: P.StreamPhase): Endpoint {
    e.(bullet := None, active := Some(Publishing(StreamOf(e, d, sealed, phase))), green := ReadySlot(e, d))
  }

  /** What the delivery leaves: the snapshot retained and installed under one ack, the old base on its way out. */
  function AfterSnapshot(e: Endpoint, d: Snapshot): Endpoint {
    var ack := ExpectedAck(d.context);
    e.(bullet := None, active := None, green := G.CommitDelivery(ReadySlot(e, d), ack).slot,
       retained := Some(Base(d.writer, ack, NextOf(e, d))),
       cleanup := if e.retained.Some? then Close(RetainedPublication, e.retained.value.publication) else None)
  }

  /** The operations up to the sealed End packet, and from there to the delivery. */
  function OpsToStream(d: Snapshot): seq<Op> {
    [OpStart(d.context, true),
     OpPoll(1, Ask(TargetStep(G.More, d.session), [])),
     OpPoll(1, Ask(TargetStep(G.Complete, d.session), [])),
     OpPoll(1, Ask(G.TargetFailed, [Finished(d.writer, d.next), Finished(d.writer, None), More(0, d.writer)])),
     OpCredit(P.BeginCredit, 0, true)]
  }

  function OpsToDelivery(d: Snapshot): seq<Op> {
    [OpPoll(1, Ask(G.TargetFailed, [EndPacket(0, 0, 1, Sealed, d.writer)])),
     OpCredit(P.PacketCredit(0, 1, true), 0, true),
     OpHostPoll(0, true, P.HostPacketCredit, P.PacketCredited(0, 1), true),
     OpPoll(1, Ask(G.TargetFailed, [More(0, d.writer)])),
     OpCredit(P.CommitCredit, 1, true),
     OpHostPoll(1, true, P.HostCommit, P.Committed(ExpectedAck(d.context)), true),
     OpCredit(P.DeliveryCredit, 0, true)]
  }

  function StatesToStream(e: Endpoint, d: Snapshot): seq<Endpoint> {
    [e,
     Started(e, d, G.CleanPlan(Some(TargetOf(d)), e.green.installed, OriginOf(e))),
     Started(e, d, G.CleanBuild(G.Build(d.session, TargetOf(d)), e.green.installed, OriginOf(e))),
     Started(e, d, ReadySlot(e, d).pending.value),
     Streams(e, d, false, P.AwaitBeginReceipt),
     Streams(e, d, false, P.NeedPacket)]
  }

  function StatesToDelivery(e: Endpoint, d: Snapshot): seq<Endpoint> {
    [Streams(e, d, false, P.NeedPacket),
     Streams(e, d, true, P.AwaitPacketReceipt(0, 1, true)),
     Streams(e, d, true, P.AwaitPacketHost(0, 1, true)),
     Streams(e, d, true, P.NeedCommit),
     Streams(e, d, true, P.AwaitCommitReceipt),
     Streams(e, d, true, P.AwaitCommitHost(1)),
     Streams(e, d, true, P.AwaitDeliveryReceipt),
     AfterSnapshot(e, d)]
  }

  // --------------------------------------------------------------------------- its steps

  lemma StartsParsing(e: Endpoint, d: Snapshot)
    requires CanTake(e, d)
    ensures Apply(e, OpsToStream(d)[0]).endpoint == StatesToStream(e, d)[1]
    ensures Apply(e, OpsToStream(d)[0]).ok
  {
  }

  lemma BuildsSlotTarget(e: Endpoint, d: Snapshot)
    requires CanTake(e, d)
    ensures Legal(StatesToStream(e, d)[1], OpsToStream(d)[1])
    ensures Apply(StatesToStream(e, d)[1], OpsToStream(d)[1]).endpoint == StatesToStream(e, d)[2]
    ensures Legal(StatesToStream(e, d)[2], OpsToStream(d)[2])
    ensures Apply(StatesToStream(e, d)[2], OpsToStream(d)[2]).endpoint == StatesToStream(e, d)[3]
  {
    hide LegalPollCleanup, PollCleanup, AdvanceLoop, LegalLoop, PollActive, LP.LegalPoll;
  }

  lemma ParsesAndBuilds(e: Endpoint, d: Snapshot)
    requires CanTake(e, d)
    ensures Legal(StatesToStream(e, d)[3], OpsToStream(d)[3])
    ensures Apply(StatesToStream(e, d)[3], OpsToStream(d)[3]).endpoint == StatesToStream(e, d)[4]
  {
    hide LegalPollCleanup, PollCleanup, LP.LegalPoll, LP.Poll;
    var s := StatesToStream(e, d)[3];
    var replies := OpsToStream(d)[3].poll.active;
    var built := s.(active := Some(Building(d.context, d.writer, NextOf(e, d))));
    var begun := Streams(e, d, false, P.NeedBegin);
    assert AdvanceActive(s, 1, replies[0]) == Again(built, 0);
    assert replies[1..][0] == Finished(d.writer, None) && replies[1..][1..] == [More(0, d.writer)];
    assert AdvanceActive(built, 1, replies[1]) == Again(begun, 0);
    assert AdvanceActive(begun, 1, replies[2]) == Return(StatesToStream(e, d)[4], Event(0));
    LoopSteps(s, 1, replies, built, begun, StatesToStream(e, d)[4]);
  }

  /** Two iterations that go on and a third that returns an event. */
  lemma LoopSteps(s: Endpoint, fuel: nat, replies: seq<ActiveReply>, a: Endpoint, b: Endpoint, c: Endpoint)
    requires |replies| == 3 && fuel > 0 && s.active.Some? && a.active.Some? && b.active.Some?
    requires AdvanceActive(s, fuel, replies[0]) == Again(a, 0) && LegalAdvance(s.active.value, fuel, replies[0])
    requires AdvanceActive(a, fuel, replies[1]) == Again(b, 0) && LegalAdvance(a.active.value, fuel, replies[1])
    requires AdvanceActive(b, fuel, replies[2]) == Return(c, Event(0)) && LegalAdvance(b.active.value, fuel, replies[2])
    ensures AdvanceLoop(s, fuel, 0, replies) == (c, Event(0)) && LegalLoop(s, fuel, 0, replies)
  {
    hide AdvanceActive, LegalAdvance;
    var one, two := replies[1..], replies[2..];
    assert one[1..] == two && one[0] == replies[1] && two[0] == replies[2];
    assert AdvanceLoop(b, fuel, 0, two) == (c, Event(0)) && LegalLoop(b, fuel, 0, two);
    assert AdvanceLoop(a, fuel, 0, one) == (c, Event(0)) && LegalLoop(a, fuel, 0, one);
  }

  /** One iteration that returns. */
  lemma LoopReturns(s: Endpoint, fuel: nat, reply: ActiveReply, c: Endpoint, r: PollResult)
    requires fuel > 0 && s.active.Some? && AdvanceActive(s, fuel, reply) == Return(c, r) && (!r.PollError? ==> r.spent == 0)
    requires LegalAdvance(s.active.value, fuel, reply)
    ensures AdvanceLoop(s, fuel, 0, [reply]) == (c, r) && LegalLoop(s, fuel, 0, [reply])
  {
    hide AdvanceActive, LegalAdvance;
  }

  lemma Polls(e: Endpoint, d: Snapshot)
    requires CanTake(e, d)
    ensures Legal(StatesToDelivery(e, d)[0], OpsToDelivery(d)[0])
    ensures Apply(StatesToDelivery(e, d)[0], OpsToDelivery(d)[0]).endpoint == StatesToDelivery(e, d)[1]
    ensures Legal(StatesToDelivery(e, d)[3], OpsToDelivery(d)[3])
    ensures Apply(StatesToDelivery(e, d)[3], OpsToDelivery(d)[3]).endpoint == StatesToDelivery(e, d)[4]
  {
    hide LegalPollCleanup, PollCleanup, LP.LegalPoll, LP.Poll, AdvanceLoop, LegalLoop;
    LoopReturns(StatesToDelivery(e, d)[0], 1, EndPacket(0, 0, 1, Sealed, d.writer), StatesToDelivery(e, d)[1], Event(0));
    LoopReturns(StatesToDelivery(e, d)[3], 1, More(0, d.writer), StatesToDelivery(e, d)[4], Event(0));
  }

  /** Receipts and packet credits move the phase. */
  lemma Credits(e: Endpoint, d: Snapshot)
    requires CanTake(e, d)
    ensures Apply(StatesToStream(e, d)[4], OpsToStream(d)[4]).endpoint == StatesToStream(e, d)[5]
    ensures Apply(StatesToDelivery(e, d)[1], OpsToDelivery(d)[1]).endpoint == StatesToDelivery(e, d)[2]
    ensures Apply(StatesToDelivery(e, d)[4], OpsToDelivery(d)[4]).endpoint == StatesToDelivery(e, d)[5]
  {
  }

  lemma HostCredits(e: Endpoint, d: Snapshot)
    requires CanTake(e, d)
    ensures Apply(StatesToDelivery(e, d)[2], OpsToDelivery(d)[2]).endpoint == StatesToDelivery(e, d)[3]
    ensures Apply(StatesToDelivery(e, d)[5], OpsToDelivery(d)[5]).endpoint == StatesToDelivery(e, d)[6]
  {
    hide Cancel;
  }

  lemma Delivers(e: Endpoint, d: Snapshot)
    requires CanTake(e, d)
    ensures Apply(StatesToDelivery(e, d)[6], OpsToDelivery(d)[6]).endpoint == AfterSnapshot(e, d)
  {
  }

  /** Every idle endpoint can stream any newer snapshot up to its End packet. */
  lemma SnapshotStreams(e: Endpoint, d: Snapshot)
    requires CanTake(e, d)
    ensures LegalRun(e, OpsToStream(d)) && Run(e, OpsToStream(d)) == Streams(e, d, false, P.NeedPacket)
  {
    hide Apply, Legal;
    var states, ops := StatesToStream(e, d), OpsToStream(d);
    StartsParsing(e, d);
    BuildsSlotTarget(e, d);
    ParsesAndBuilds(e, d);
    Credits(e, d);
    assert Legal(states[0], ops[0]) && Legal(states[4], ops[4]) by {
      OnlyPollsAskTheEngine(states[0], ops[0]);
      OnlyPollsAskTheEngine(states[4], ops[4]);
    }
    VisitsRun(states, ops);
  }

  lemma OnlyPollsAskTheEngine(e: Endpoint, op: Op)
    requires !op.OpPoll? && !op.OpPollCleanup?
    ensures Legal(e, op)
  {
  }

  /**
   Every idle endpoint can deliver any newer snapshot: the run below is within the
   engine's contract and ends with the snapshot retained and installed under its ack.
   */
  lemma EveryIdleEndpointCanDeliver(e: Endpoint, d: Snapshot)
    requires CanTake(e, d)
    ensures LegalRun(e, OpsToStream(d) + OpsToDelivery(d))
    ensures Run(e, OpsToStream(d) + OpsToDelivery(d)) == AfterSnapshot(e, d)
  {
    hide Apply, Legal, LegalRun, Run, Streams, AfterSnapshot;
    SnapshotStreams(e, d);
    Polls(e, d);
    Credits(e, d);
    HostCredits(e, d);
    Delivers(e, d);
    var states, ops := StatesToDelivery(e, d), OpsToDelivery(d);
    forall i | i == 1 || i == 2 || i == 4 || i == 5 || i == 6
      ensures Legal(states[i], ops[i])
    {
      OnlyPollsAskTheEngine(states[i], ops[i]);
    }
    VisitsRun(states, ops);
    RunsAppend(e, OpsToStream(d), ops);
  }

  lemma DeliveryIsReachable(e: Endpoint, d: Snapshot)
    requires Reachable(e) && CanTake(e, d)
    ensures Reachable(AfterSnapshot(e, d)) && Reachable(Streams(e, d, false, P.NeedPacket))
  {
    hide LegalRun, Run, CanTake, Reachable;
    EveryIdleEndpointCanDeliver(e, d);
    SnapshotStreams(e, d);
    ReachableOnward(e, OpsToStream(d) + OpsToDelivery(d));
    ReachableOnward(e, OpsToStream(d));
  }
}
