/**
 The refinement over whole runs: whatever packet polls, receipts and packet credits
 a frame-level stream goes through, the endpoint that mirrors it follows with its
 own public operations. So the packets an endpoint announces are those of the
 greedy split, with the stream's own ordinals.
 */
module StreamRuns {
  import opened Engine
  import C = Candidate
  import P = StreamProtocol
  import O = EndpointOps
  import D = EndpointDelivery
  import G = RecursiveGreen
  import LP = LanePoll
  import opened Packets
  import S = PacketStream
  import T = PacketTheorems
  import opened StreamRefinement

  /** The endpoint streams `s`, and nothing of the slot or of cleanup comes first. */
  ghost predicate Carries(e: C.Endpoint, s: S.Stream) {
    && e.active.Some? && e.active.value.Publishing? && Mirrors(e.active.value.streaming, s)
    && e.cleanup.None? && !G.TargetWorkPending(e.green) && T.Inv(s)
    && !s.phase.AwaitRecursiveGreenDelivery? && !s.phase.AwaitDeliveryReceipt?
  }

  /** Polls have fuel and an answer; the host neither rejects nor answers the commit. */
  predicate ShortOfCommit(s: S.Stream, op: T.Op) {
    match op
    case OpPoll(fuel, replies, _) => fuel > 0 && replies != []
    case OpCredit(_, _) => true
    case OpHost(_, _, result, _) => result.PacketCredited?
  }

  /** The endpoint's operation that follows one operation of the frame stream. */
  function Following(s: S.Stream, op: T.Op, handle: Resource): O.Op {
    match op
    case OpPoll(fuel, replies, sealOk) =>
      var (s', p) := S.PollEvent(s, fuel, replies, sealOk);
      O.OpPoll(fuel, D.Ask(G.TargetFailed, [Explains(s', p, handle)]))
    case OpCredit(credit, event) => O.OpCredit(credit, event, true)
    case OpHost(ticket, phase, result, resumeOk) => O.OpHostPoll(ticket, true, phase, result, resumeOk || !s.resumeAfterCredit)
  }

  lemma PollIsAdvance(e: C.Endpoint, c: C.Streaming, fuel: nat, reply: C.ActiveReply)
    requires e.active == Some(C.Publishing(c)) && e.cleanup.None? && !G.TargetWorkPending(e.green) && fuel > 0
    requires !c.phase.AwaitRecursiveGreenDelivery?
    ensures O.Apply(e, O.OpPoll(fuel, D.Ask(G.TargetFailed, [reply]))).endpoint == C.AdvanceStream(e, c, reply).endpoint
  {
    hide C.PollCleanup, LP.Poll, G.TargetWorkPending, C.SealStream;
    var replies := [reply];
    assert replies[0] == reply;
    StreamTurnReturns(e, c, reply);
    var a := C.AdvanceStream(e, c, reply);
    assert C.AdvanceLoop(e, fuel, 0, replies).0 == a.endpoint by {
      LoopTakesOneTurn(e, c, fuel, reply);
    }
  }

  lemma StreamTurnReturns(e: C.Endpoint, c: C.Streaming, reply: C.ActiveReply)
    ensures C.AdvanceStream(e, c, reply).Return?
  {
  }

  lemma LoopTakesOneTurn(e: C.Endpoint, c: C.Streaming, fuel: nat, reply: C.ActiveReply)
    requires e.active == Some(C.Publishing(c)) && fuel > 0
    ensures C.AdvanceLoop(e, fuel, 0, [reply]).0 == C.AdvanceStream(e, c, reply).endpoint
  {
    hide C.AdvanceStream;
    StreamTurnReturns(e, c, reply);
    assert C.AdvanceActive(e, fuel, reply) == C.AdvanceStream(e, c, reply);
  }

  lemma StreamLeavesTheRest(e: C.Endpoint, c: C.Streaming, reply: C.ActiveReply)
    requires e.active == Some(C.Publishing(c))
    ensures var e' := C.AdvanceStream(e, c, reply).endpoint; e'.cleanup == e.cleanup && e'.green == e.green
  {
  }

  /** Outside NeedPacket a poll moves both views by their phase alone. */
  lemma OtherPollsRefine(e: C.Endpoint, c: C.Streaming, s: S.Stream, fuel: nat, replies: seq<S.Reply>, sealOk: bool, reply: C.ActiveReply)
    requires Mirrors(c, s) && e.active == Some(C.Publishing(c)) && !s.phase.NeedPacket? && (s.phase.NeedBegin? ==> s.frames == [])
    ensures var (s', p) := S.PollEvent(s, fuel, replies, sealOk);
      var e' := C.AdvanceStream(e, c, reply).endpoint;
      && e'.active.Some? && e'.active.value.Publishing? && Mirrors(e'.active.value.streaming, s')
      && !s'.phase.AwaitRecursiveGreenDelivery? == !s.phase.AwaitRecursiveGreenDelivery?
      && !s'.phase.AwaitDeliveryReceipt? == !s.phase.AwaitDeliveryReceipt?
  {
  }

  lemma PollFollows(e: C.Endpoint, s: S.Stream, op: T.Op, handle: Resource)
    requires Carries(e, s) && op.OpPoll? && T.Legal(s, op) && ShortOfCommit(s, op)
    ensures Carries(O.Apply(e, Following(s, op, handle)).endpoint, T.Apply(s, op))
  {
    hide O.Apply, C.AdvanceStream, S.PollPacket, T.LegalReplies, T.Inv, Mirrors, G.TargetWorkPending, D.Ask;
    var c := e.active.value.streaming;
    var (s', p) := S.PollEvent(s, op.fuel, op.replies, op.sealOk);
    var reply := Explains(s', p, handle);
    T.OpKeeps(s, op);
    PhasesMirror(c, s);
    PollIsAdvance(e, c, op.fuel, reply);
    StreamLeavesTheRest(e, c, reply);
    if s.phase.NeedPacket? {
      PollRefines(e, c, s, op.fuel, op.replies, op.sealOk, handle);
      T.PollPhase(s, op.fuel, 0, op.replies, op.sealOk);
    } else {
      NoFramesBeforeBegin(s);
      OtherPollsRefine(e, c, s, op.fuel, op.replies, op.sealOk, reply);
    }
  }

  lemma PhasesMirror(c: C.Streaming, s: S.Stream)
    requires Mirrors(c, s)
    ensures c.phase == s.phase
  {
  }

  lemma NoFramesBeforeBegin(s: S.Stream)
    requires T.Inv(s)
    ensures s.phase.NeedBegin? ==> s.frames == []
  {
  }

  lemma CreditFollows(e: C.Endpoint, s: S.Stream, op: T.Op, handle: Resource)
    requires Carries(e, s) && op.OpCredit?
    ensures Carries(O.Apply(e, Following(s, op, handle)).endpoint, T.Apply(s, op))
  {
    hide T.Inv, Mirrors, G.TargetWorkPending;
    T.OpKeeps(s, op);
    PhasesMirror(e.active.value.streaming, s);
    CreditRefines(e, e.active.value.streaming, s, op.credit, op.event, true);
  }

  lemma HostFollows(e: C.Endpoint, s: S.Stream, op: T.Op, handle: Resource)
    requires Carries(e, s) && op.OpHost? && ShortOfCommit(s, op)
    ensures Carries(O.Apply(e, Following(s, op, handle)).endpoint, T.Apply(s, op))
  {
    hide T.Inv, Mirrors, G.TargetWorkPending, C.Cancel;
    T.OpKeeps(s, op);
    PhasesMirror(e.active.value.streaming, s);
    if s.phase.AwaitPacketHost? && op.phase.HostPacketCredit? {
      HostCreditRefines(e, e.active.value.streaming, s, op.ticket, op.result, op.resumeOk);
    }
  }

  predicate AllShortOfCommit(s: S.Stream, ops: seq<T.Op>)
    decreases |ops|
  {
    ops == [] || (ShortOfCommit(s, ops[0]) && AllShortOfCommit(T.Apply(s, ops[0]), ops[1..]))
  }

  function FollowingAll(s: S.Stream, ops: seq<T.Op>, handle: Resource): seq<O.Op>
    decreases |ops|
  {
    if ops == [] then [] else [Following(s, ops[0], handle)] + FollowingAll(T.Apply(s, ops[0]), ops[1..], handle)
  }

  /** Over every legal run of the frame stream the endpoint that carries it follows. */
  lemma {:induction false} EndpointFollows(e: C.Endpoint, s: S.Stream, ops: seq<T.Op>, handle: Resource)
    requires Carries(e, s) && T.LegalRun(s, ops) && AllShortOfCommit(s, ops)
    ensures Carries(O.Run(e, FollowingAll(s, ops, handle)), T.Run(s, ops))
    decreases |ops|
  {
    hide Carries, O.Apply, T.Apply, T.Legal, Following;
    if ops != [] {
      match ops[0] {
      case OpPoll(_, _, _) => PollFollows(e, s, ops[0], handle);
      case OpCredit(_, _) => CreditFollows(e, s, ops[0], handle);
      case OpHost(_, _, _, _) => HostFollows(e, s, ops[0], handle);
      }
      var next, rest := O.Apply(e, Following(s, ops[0], handle)).endpoint, T.Apply(s, ops[0]);
      EndpointFollows(next, rest, ops[1..], handle);
      var all := FollowingAll(s, ops, handle);
      assert all[0] == Following(s, ops[0], handle) && all[1..] == FollowingAll(rest, ops[1..], handle);
    }
  }

  /** The packet an endpoint waits on: the last of the `n + 1` first ones of the split, with its ordinals. */
  predicate Announces(e: C.Endpoint, split: seq<seq<Frame>>, n: nat) {
    && n < |split| && e.active.Some? && e.active.value.Publishing?
    && var phase := e.active.value.streaming.phase;
       phase.AwaitPacketReceipt? && phase.first == |Flatten(split[..n])| && phase.count == |split[n]|
  }

  predicate AnnouncesLast(e: C.Endpoint, emitted: seq<S.Packet>, split: seq<seq<Frame>>) {
    emitted != [] && Announces(e, split, |emitted| - 1)
  }

  predicate WaitsOnPacket(e: C.Endpoint) {
    e.active.Some? && e.active.value.Publishing? && e.active.value.streaming.phase.AwaitPacketReceipt?
  }

  lemma AnnouncedPacketIsTheSplits(e: C.Endpoint, s: S.Stream, items: seq<Item>, limit: nat)
    requires RoomForOne(limit) && T.LegalItems(0, 0, None, items) && items != [] && T.Reached(s, items, limit)
    requires Carries(e, s) && WaitsOnPacket(e)
    ensures AnnouncesLast(e, s.emitted, Split(items, limit))
  {
    hide T.Reached, Mirrors, T.LegalItems, Cut, T.Inv, Split, Flatten;
    T.PacketsAreTheGreedySplit(s, items, limit);
    PhasesMirror(e.active.value.streaming, s);
    WaitingMeansSent(s);
    var n, split := |s.emitted| - 1, Split(items, limit);
    assert split[n] == split[..|s.emitted|][n] == s.emitted[n].frames;
    assert T.Payload(s.emitted[..n]) == T.Payload(s.emitted)[..n] == split[..n];
  }

  /**
   Over whole runs: an endpoint that starts to carry a new stream announces,
   whenever it waits for a packet's receipt, the packet of the greedy split whose
   turn it is.
   */
  lemma EndpointAnnouncesTheSplit(e: C.Endpoint, s: S.Stream, ops: seq<T.Op>, handle: Resource)
    requires Starts(s) && Carries(e, s) && T.LegalRun(s, ops) && AllShortOfCommit(s, ops)
    ensures var (e', s') := (O.Run(e, FollowingAll(s, ops, handle)), T.Run(s, ops));
      && Carries(e', s')
      && (WaitsOnPacket(e') ==> AnnouncesLast(e', s'.emitted, Split(s.items, s.limit)))
  {
    hide Carries, WaitsOnPacket, AnnouncesLast, AllShortOfCommit, FollowingAll, O.Run, T.Run, T.LegalRun, T.LegalItems, Mirrors, T.Inv, Split;
    EndpointFollows(e, s, ops, handle);
    var e', s' := O.Run(e, FollowingAll(s, ops, handle)), T.Run(s, ops);
    if WaitsOnPacket(e') {
      AnnouncedPacketIsTheSplits(e', s', s.items, s.limit);
    }
  }

  /** A new stream of some legal producer's items. */
  ghost predicate Starts(s: S.Stream) {
    && s == S.Fresh(s.items, s.limit, s.expectedRecords) && s.items != []
    && RoomForOne(s.limit) && T.LegalItems(0, 0, None, s.items)
  }

  /** Every candidate that has just become a stream carries whatever its producer will yield. */
  lemma FreshStreamCarries(e: C.Endpoint, s: S.Stream)
    requires Starts(s) && e.cleanup.None? && !G.TargetWorkPending(e.green) && e.active.Some? && e.active.value.Publishing?
    requires var c := e.active.value.streaming;
      && c.stream.Some? && e.active.value == C.FreshStream(c.context, c.stream.value, c.mode, c.next, c.superseded, c.recovery, c.reuses)
      && (c.mode.ExactBaseDelta? ==> c.superseded.None? && c.stream.value.base.Some?)
    ensures Carries(e, s)
  {
    hide T.LegalItems, T.Inv;
    T.FreshInv(s.items, s.limit, s.expectedRecords);
  }

  /** A stream waiting for a packet's receipt has sent that packet last. */
  lemma WaitingMeansSent(s: S.Stream)
    requires T.Inv(s) && s.phase.AwaitPacketReceipt?
    ensures s.emitted != [] && T.LastSent(s.emitted, s.phase.first, s.phase.count, s.phase.end)
  {
  }
}
