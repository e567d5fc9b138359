/**
 The frame-level packet stream refines the transaction's view of a candidate
 stream: each of its polls, credits and host polls is one of the endpoint's, with
 the same event, the same phase and the same outcome.
 */
module StreamRefinement {
  import opened Engine
  import C = Candidate
  import P = StreamProtocol
  import opened Packets
  import S = PacketStream
  import T = PacketTheorems

  /** The End frame is in the builder, but its packet has not gone out. */
  predicate HoldsEnd(s: S.Stream) {
    s.phase.NeedPacket? && HasEnd(s.frames)
  }

  /** Past the End frame: its packet is in the builder, out, or credited. */
  predicate PastEnd(s: S.Stream) {
    || HoldsEnd(s) || (s.phase.AwaitPacketReceipt? && s.phase.end) || (s.phase.AwaitPacketHost? && s.phase.end)
    || !(s.phase.NeedBegin? || s.phase.AwaitBeginReceipt? || s.phase.NeedPacket? || s.phase.AwaitPacketReceipt? || s.phase.AwaitPacketHost?)
  }

  /** `c` and `s` are the same stream, seen as owners and seen as frames. */
  predicate Mirrors(c: C.Streaming, s: S.Stream) {
    && c.phase == s.phase
    && (c.stream.Some? <==> s.commit.None?) && (c.expectedAck.Some? <==> s.commit.Some?) && (c.sealed.Some? <==> s.commit.Some?)
    && c.unsent == (if HoldsEnd(s) then Some(C.UnsentEnd(s.first, |s.frames|)) else None)
    && (c.mode.ExactBaseDelta? && c.stream.Some? && !PastEnd(s) ==> c.superseded.None? && c.stream.value.base.Some?)
    && (s.commit.Some? ==> PastEnd(s) && !s.phase.NeedPacket?)
  }

  /** The engine answer that explains a packet poll to the transaction. */
  function Explains(s': S.Stream, p: S.Poll, handle: Resource): C.ActiveReply {
    match p
    case Pending(spent) => C.More(spent, handle)
    case Event(spent) =>
      if !s'.phase.AwaitPacketReceipt? then C.Failed
      else if s'.phase.end then C.EndPacket(spent, s'.phase.first, s'.phase.count, C.Sealed, handle)
      else C.Packet(spent, s'.phase.first, s'.phase.count, handle)
    case PollFailed(error) =>
      if HasEnd(s'.frames)
      then C.EndPacket(0, s'.first, |s'.frames|, if error.InvalidAuthority? then C.RecordsDiffer else C.SealFailed, handle)
      else C.Failed
  }

  predicate SameResult(p: S.Poll, r: C.PollResult) {
    match p
    case Pending(spent) => r == C.Pending(spent)
    case Event(spent) => r == C.Event(spent)
    case PollFailed(error) => r == C.PollError(error)
  }

  /** What a packet poll of an open stream can come to. */
  predicate PollShape(s: S.Stream, s': S.Stream, p: S.Poll) {
    match p
    case Pending(_) => s'.phase.NeedPacket? && !HasEnd(s.frames) && !HasEnd(s'.frames) && s'.commit == s.commit
    case Event(spent) =>
      && s'.phase.AwaitPacketReceipt? && s'.frames == []
      && (if HasEnd(s.frames) then s'.phase == P.AwaitPacketReceipt(s.first, |s.frames|, true) && spent == 0 && s'.commit == s.commit
          else (s'.phase.end <==> s'.commit.Some?))
    case PollFailed(error) =>
      && s'.phase.NeedPacket? && s'.commit == s.commit
      && (error.InvalidAuthority? ==> HasEnd(s'.frames)) && (error.EngineFailure? || error.InvalidAuthority?)
      && !HasEnd(s.frames)
  }

  lemma AcceptShape(s: S.Stream, f: Frame, left: nat, spent: nat, sealOk: bool)
    requires T.InHand(s, f) && s.commit.None? && spent <= left
    ensures var t := S.Accept(s, f, left, spent, sealOk);
      && (t.More? ==> t.stream.phase.NeedPacket? && !HasEnd(t.stream.frames) && t.stream.commit.None?)
      && (t.Finish? ==> PollShape(s, t.stream, t.poll))
  {
    hide T.Inv, WithinLimits, Saturated, LegalSize;
    T.AcceptKeeps(s, f, left, spent, sealOk);
    T.OrdinalsCarryOn(s, f);
    OpenFits(s, f);
  }

  lemma OpenFits(s: S.Stream, f: Frame)
    requires T.InHand(s, f)
    ensures !HasEnd(s.frames) && s.phase.NeedPacket? && (s.frames == [] ==> Fits(s.frames, f, s.limit))
  {
    T.OrdinalsCarryOn(s, f);
    OneFrameFits(f, s.limit);
  }

  lemma TurnShape(s: S.Stream, left: nat, reply: S.Reply, sealOk: bool)
    requires T.Inv(s) && s.phase.NeedPacket? && (s.commit.Some? ==> HasEnd(s.frames)) && (!reply.Broken? ==> reply.spent <= left)
    ensures var t := S.PacketTurn(s, left, reply, sealOk);
      && (t.More? ==> t.stream.phase.NeedPacket? && !HasEnd(t.stream.frames) && t.stream.commit.None? && !HasEnd(s.frames))
      && (t.Finish? ==> PollShape(s, t.stream, t.poll))
  {
    hide S.Accept, T.Inv, WithinLimits, Saturated;
    T.InvFacts(s);
    T.TurnKeeps(s, left, reply, sealOk);
    if !Closed(s.frames, s.limit) {
      if s.lookahead.Some? {
        assert s.(lookahead := None).(lookahead := Some(s.lookahead.value)) == s;
        AcceptShape(s.(lookahead := None), s.lookahead.value, left, 0, sealOk);
      } else if s.taken < |s.items| {
        T.TakenInHand(s);
        if s.items[s.taken].Whole? {
          AcceptShape(s.(taken := s.taken + 1), s.items[s.taken].frame, left, 0, sealOk);
          if !reply.Broken? && left > 0 && s.nextFrame > 0 {
            AcceptShape(s.(taken := s.taken + 1), s.items[s.taken].frame, left, reply.spent, sealOk);
          }
        } else {
          T.ReplayKeeps(s);
        }
      }
    }
  }

  lemma {:induction false} PollShapeHolds(s: S.Stream, fuel: nat, spent: nat, replies: seq<S.Reply>, sealOk: bool)
    requires T.Inv(s) && s.phase.NeedPacket? && (s.commit.Some? ==> HasEnd(s.frames)) && spent <= fuel
    requires T.LegalReplies(s, fuel, spent, replies, sealOk) && (HasEnd(s.frames) ==> spent == 0 && replies != [])
    ensures var (s', p) := S.PollPacket(s, fuel, spent, replies, sealOk); PollShape(s, s', p)
    decreases |replies|
  {
    hide S.PacketTurn, T.Inv;
    if replies != [] {
      TurnShape(s, fuel - spent, replies[0], sealOk);
      T.TurnKeeps(s, fuel - spent, replies[0], sealOk);
      var t := S.PacketTurn(s, fuel - spent, replies[0], sealOk);
      if t.More? {
        PollShapeHolds(t.stream, fuel, spent + t.spent, replies[1..], sealOk);
      }
    }
  }

  /**
   A packet poll is a candidate poll: with the explaining answer the transaction
   reaches the mirroring state with the same event and the same fuel.
   */
  lemma PollRefines(e: C.Endpoint, c: C.Streaming, s: S.Stream, fuel: nat, replies: seq<S.Reply>, sealOk: bool, handle: Resource)
    requires T.Inv(s) && s.phase.NeedPacket? && Mirrors(c, s) && e.active == Some(C.Publishing(c))
    requires T.LegalReplies(s, fuel, 0, replies, sealOk) && replies != []
    ensures var (s', p) := S.PollEvent(s, fuel, replies, sealOk);
      var a := C.AdvanceStream(e, c, Explains(s', p, handle));
      && a.Return? && SameResult(p, a.result)
      && a.endpoint.active.Some? && a.endpoint.active.value.Publishing? && Mirrors(a.endpoint.active.value.streaming, s')
  {
    hide S.PollPacket, T.Inv, T.LegalReplies;
    PollShapeHolds(s, fuel, 0, replies, sealOk);
    var (s', p) := S.PollPacket(s, fuel, 0, replies, sealOk);
    ShapeRefines(e, c, s, s', p, handle);
  }

  /** Whatever a packet poll comes to, its explanation takes the transaction to the mirroring state. */
  lemma ShapeRefines(e: C.Endpoint, c: C.Streaming, s: S.Stream, s': S.Stream, p: S.Poll, handle: Resource)
    requires s.phase.NeedPacket? && Mirrors(c, s) && e.active == Some(C.Publishing(c)) && PollShape(s, s', p)
    ensures var a := C.AdvanceStream(e, c, Explains(s', p, handle));
      && a.Return? && SameResult(p, a.result)
      && a.endpoint.active.Some? && a.endpoint.active.value.Publishing? && Mirrors(a.endpoint.active.value.streaming, s')
  {
    var a := C.AdvanceStream(e, c, Explains(s', p, handle));
    assert a.Return? && SameResult(p, a.result);
    assert Mirrors(a.endpoint.active.value.streaming, s');
  }

  /** Receipts move both views alike. */
  lemma CreditRefines(e: C.Endpoint, c: C.Streaming, s: S.Stream, credit: P.Credit, event: nat, adoptOk: bool)
    requires Mirrors(c, s) && e.active == Some(C.Publishing(c)) && !s.phase.AwaitDeliveryReceipt? && T.Inv(s)
    ensures var (s', r) := S.TakeCredit(s, credit, event);
      var a := C.AcceptCredit(e, credit, event, adoptOk);
      && (a.outcome.Ok? <==> r.Ok?)
      && a.endpoint.active.Some? && a.endpoint.active.value.Publishing? && Mirrors(a.endpoint.active.value.streaming, s')
  {
    BeginHasNoFrames(s);
    hide T.Inv;
  }

  lemma BeginHasNoFrames(s: S.Stream)
    requires T.Inv(s)
    ensures s.phase.AwaitBeginReceipt? || s.phase.AwaitPacketHost? ==> s.frames == []
  {
  }

  /** A packet credit of the host moves both views alike. */
  lemma HostCreditRefines(e: C.Endpoint, c: C.Streaming, s: S.Stream, ticket: nat, result: P.HostResult, resumeOk: bool)
    requires Mirrors(c, s) && e.active == Some(C.Publishing(c)) && T.Inv(s) && s.phase.AwaitPacketHost? && result.PacketCredited?
    ensures var (s', r) := S.TakeHostPoll(s, ticket, P.HostPacketCredit, result, resumeOk);
      var a := C.HostPoll(e, ticket, true, P.HostPacketCredit, result, resumeOk || !s.resumeAfterCredit);
      && (a.outcome.Ok? <==> r.Ok?)
      && a.endpoint.active.Some? && a.endpoint.active.value.Publishing? && Mirrors(a.endpoint.active.value.streaming, s')
  {
    hide C.Cancel;
    BeginHasNoFrames(s);
  }
}
