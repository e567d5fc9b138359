/**
 The credited packet stream of a candidate: frames come from a producer under a
 fuel grant, are packed with one frame of lookahead, and each packet waits for
 the host's credit. A replay demand parks the producer until the host has
 credited every frame before it.
 */
module PacketStream {
  import opened Engine
  import opened StreamProtocol
  import opened Packets

  datatype Packet = Packet(first: nat, firstRecord: nat, frames: seq<Frame>)

  /** A producer resume, and how many frames were produced and credited by then. */
  datatype Resume = Resume(produced: nat, credited: nat)

  /**
   `items[taken..]` is what the producer will still hand over; `emitted`,
   `credited` and `resumes` are histories of what the host was sent and said.
   */
  datatype Stream = Stream(
    items: seq<Item>, taken: nat, limit: nat, expectedRecords: nat,
    frames: seq<Frame>, first: nat, firstRecord: nat,
    lookahead: Option<Frame>,
    nextFrame: nat, nextRecord: nat, nextNode: Option<nat>,
    resumeAfterCredit: bool, phase: StreamPhase, commit: Option<nat>,
    emitted: seq<Packet>, credited: nat, resumes: seq<Resume>)

  function Fresh(items: seq<Item>, limit: nat, expectedRecords: nat): Stream {
    Stream(items, 0, limit, expectedRecords, [], 0, 0, None, 0, 0, None, false, NeedBegin, None, [], 0, [])
  }

  /** The producer's answer to one poll: nothing yet, the next item, or a failure. */
  datatype Reply = Wait(spent: nat) | Yield(spent: nat) | Broken

  datatype Poll = Pending(spent: nat) | Event(spent: nat) | PollFailed(error: Error)

  datatype Turn = More(stream: Stream, spent: nat) | Finish(stream: Stream, poll: Poll)

  // --------------------------------------------------------------------- one packet

  /** `take_packet_event`. */
  function Take(s: Stream): Stream {
    s.(frames := [], first := 0, firstRecord := 0, emitted := s.emitted + [Packet(s.first, s.firstRecord, s.frames)],
       phase := AwaitPacketReceipt(s.first, |s.frames|, HasEnd(s.frames)))
  }

  function NextNode(node: Option<nat>, f: Frame): Option<nat> {
    if f.kind.Node? && f.node.Some? then Some(f.node.value + 1) else node
  }

  predicate NodeFits(node: Option<nat>, f: Frame) {
    if f.kind.Node? then f.node.Some? && (node.Some? ==> f.node == node) else f.node.None?
  }

  /** Begin comes first and only first, sizes are legal, and nodes are numbered in order. */
  predicate Admissible(s: Stream, f: Frame) {
    (f.kind.Begin? <==> s.nextFrame == 0) && LegalSize(f) && NodeFits(s.nextNode, f)
  }

  /** `append_frame`; the End frame also seals, which needs the promised record count. */
  function Append(s: Stream, f: Frame, sealOk: bool): (Stream, Outcome<()>) {
    if !Admissible(s, f) then (s, Err(InvalidState))
    else if s.nextFrame + 1 > MAX_U32 || s.nextRecord + f.records > MAX_U32 then
      (s.(nextNode := NextNode(s.nextNode, f)), Err(MetricOverflow))
    else if s.frames != [] && (s.first + |s.frames| != s.nextFrame || s.firstRecord + Records(s.frames) != s.nextRecord) then
      (s.(nextNode := NextNode(s.nextNode, f)), Err(InvalidState))
    else
      if f.kind.End? then Seal(Added(s, f), sealOk) else (Added(s, f), Ok(()))
  }

  /** The frame pushed, and the ordinals moved past it. */
  function Added(s: Stream, f: Frame): Stream {
    s.(frames := s.frames + [f],
       first := if s.frames == [] then s.nextFrame else s.first,
       firstRecord := if s.frames == [] then s.nextRecord else s.firstRecord,
       nextFrame := s.nextFrame + 1, nextRecord := s.nextRecord + f.records,
       nextNode := NextNode(s.nextNode, f))
  }

  /** `finish_frame_stream`: the commit carries the number of frames appended. */
  function Seal(s: Stream, sealOk: bool): (Stream, Outcome<()>) {
    if s.nextRecord != s.expectedRecords then (s, Err(InvalidAuthority))
    else if !sealOk || s.commit.Some? then (s, Err(EngineFailure))
    else (s.(commit := Some(s.nextFrame)), Ok(()))
  }

  /** A frame in hand: it joins the packet, or the packet goes out and the frame is looked ahead. */
  function Accept(s: Stream, f: Frame, left: nat, spent: nat, sealOk: bool): Turn {
    if !LegalSize(f) then Finish(s, PollFailed(InvalidState))
    else if !Fits(s.frames, f, s.limit) then
      if s.frames == [] then Finish(s, PollFailed(InvalidState))
      else Finish(Take(s.(lookahead := Some(f))), Event(spent))
    else
      var (s', r) := Append(s, f, sealOk);
      if r.Err? then Finish(s', PollFailed(r.error))
      else if Closed(s'.frames, s.limit) then Finish(Take(s'), Event(spent))
      else if spent == left then Finish(s', Pending(spent))
      else More(s', spent)
  }

  /** `resume_exact_base_delta`, remembered with what had been produced and credited. */
  function Resumed(s: Stream): Stream {
    s.(resumes := s.resumes + [Resume(s.nextFrame + (if s.lookahead.Some? then 1 else 0), s.credited)])
  }

  /** One iteration of the `poll_packet` loop with `left` fuel. */
  function PacketTurn(s: Stream, left: nat, reply: Reply, sealOk: bool): Turn {
    if Closed(s.frames, s.limit) then Finish(Take(s), Event(0))
    else if s.lookahead.Some? then Accept(s.(lookahead := None), s.lookahead.value, left, 0, sealOk)
    else if left == 0 then Finish(s, Pending(0))
    else if s.nextFrame == 0 then
      if s.frames != [] || s.taken >= |s.items| || s.items[s.taken].Replay? then Finish(s, PollFailed(InvalidState))
      else Accept(s.(taken := s.taken + 1), s.items[s.taken].frame, left, 0, sealOk)
    else if reply.Broken? then Finish(s, PollFailed(EngineFailure))
    else if reply.spent > left then Finish(s, PollFailed(InvalidState))
    else if reply.Wait? || s.taken >= |s.items| then Finish(s, Pending(reply.spent))
    else
      var s' := s.(taken := s.taken + 1);
      if s.items[s.taken].Whole? then Accept(s', s.items[s.taken].frame, left, reply.spent, sealOk)
      else if s.resumeAfterCredit then Finish(s', PollFailed(InvalidState))
      else if s.frames == [] then More(Resumed(s'), reply.spent)
      else Finish(Take(s'.(resumeAfterCredit := true)), Event(reply.spent))
  }

  /** The `poll_packet` loop: one producer answer per iteration. */
  function PollPacket(s: Stream, fuel: nat, spent: nat, replies: seq<Reply>, sealOk: bool): (Stream, Poll)
    decreases |replies|
  {
    if replies == [] || spent > fuel then (s, Pending(spent))
    else
      match PacketTurn(s, fuel - spent, replies[0], sealOk)
      case More(s', more) => PollPacket(s', fuel, spent + more, replies[1..], sealOk)
      case Finish(s', Pending(more)) => (s', Pending(spent + more))
      case Finish(s', Event(more)) => (s', Event(spent + more))
      case Finish(s', PollFailed(error)) => (s', PollFailed(error))
  }

  // ---------------------------------------------------------------------- operations

  /** `poll_event`. */
  function PollEvent(s: Stream, fuel: nat, replies: seq<Reply>, sealOk: bool): (Stream, Poll) {
    match s.phase
    case NeedBegin => (s.(phase := AwaitBeginReceipt), Event(0))
    case NeedPacket => PollPacket(s, fuel, 0, replies, sealOk)
    case NeedCommit => if s.commit.None? then (s, PollFailed(InvalidState)) else (s.(phase := AwaitCommitReceipt), Event(0))
    case _ => (s, Pending(0))
  }

  function TakeCredit(s: Stream, credit: Credit, event: nat): (Stream, Outcome<()>) {
    match AcceptCredit(s.phase, credit, event)
    case Ok(phase) => (s.(phase := phase), Ok(()))
    case Err(error) => (s, Err(error))
  }

  /** The host credits the packet it was polled for, or answers the commit. */
  function TakeHostPoll(s: Stream, ticket: nat, phase: HostPhase, result: HostResult, resumeOk: bool): (Stream, Outcome<()>) {
    if !ExactTicket(s.phase, ticket, true, phase) then (s, Err(InvalidState))
    else if s.phase.AwaitPacketHost? && result.PacketCredited? && result.next == s.phase.next then
      if s.resumeAfterCredit && !resumeOk then (s, Err(EngineFailure))
      else
        var credited := s.(credited := result.next, phase := if s.phase.end then NeedCommit else NeedPacket);
        (if s.resumeAfterCredit then Resumed(credited).(resumeAfterCredit := false) else credited, Ok(()))
    else if s.phase.AwaitCommitHost? && result.Committed? then (s.(phase := AwaitRecursiveGreenDelivery), Ok(()))
    else (s, Err(InvalidState))
  }
}
