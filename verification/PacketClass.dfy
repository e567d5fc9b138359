/**
 The packet builder and the packet stream as objects: the builder caches its
 totals, the stream replaces its builder whenever a packet goes out.
 */
module PacketObject {
  import opened Engine
  import opened StreamProtocol
  import opened Packets
  import opened PacketStream

  class PacketBuilder {
    var frames: seq<Frame>
    var first: Option<nat>
    var firstRecord: nat
    var records: nat
    var bytes: nat
    var end: bool

    /** The cached totals are those of the frames. */
    ghost predicate Valid()
      reads this
    {
      && bytes == Bytes(frames) && records == Records(frames) && end == HasEnd(frames)
      && (first.Some? <==> frames != []) && (frames == [] ==> firstRecord == 0)
    }

    constructor ()
      ensures Valid() && frames == [] && fresh(this)
    {
      frames, first, firstRecord, records, bytes, end := [], None, 0, 0, 0, false;
    }

    method EncodedLen() returns (n: nat)
      requires Valid()
      ensures n == Encoded(frames)
    {
      return PACKET_HEADER_BYTES + |frames| * PACKET_FRAME_DESCRIPTOR_BYTES + bytes;
    }

    /** `can_accept`: whether one more frame keeps every limit, from the totals alone. */
    method CanAccept(frame: Frame, limit: nat) returns (r: Outcome<bool>)
      requires Valid()
      ensures r == if LegalSize(frame) then Ok(Fits(frames, frame, limit)) else Err(InvalidState)
    {
      if |frame.bytes| == 0 || |frame.bytes| > MAXIMUM_FRAME_BYTES {
        return Err(InvalidState);
      }
      if |frames| >= MAXIMUM_PACKET_FRAME_COUNT || end {
        return Ok(false);
      }
      BytesAppend(frames, [frame]);
      BytesOne(frame);
      var aggregate := bytes + |frame.bytes|;
      var encoded := PACKET_HEADER_BYTES + (|frames| + 1) * PACKET_FRAME_DESCRIPTOR_BYTES + aggregate;
      return Ok(aggregate <= MAXIMUM_PACKET_AGGREGATE_FRAME_BYTES && encoded <= limit
                && encoded <= MAXIMUM_PACKET_ENCODED_BYTES);
    }

    method IsClosed(limit: nat) returns (closed: bool)
      requires Valid() && limit > PACKET_HEADER_BYTES
      ensures closed == Closed(frames, limit)
    {
      var encoded := EncodedLen();
      return end || |frames| == MAXIMUM_PACKET_FRAME_COUNT || bytes == MAXIMUM_PACKET_AGGREGATE_FRAME_BYTES
             || encoded == limit || encoded == MAXIMUM_PACKET_ENCODED_BYTES;
    }

    /** `push`: a frame must carry on from the ordinals of the frames already in the packet. */
    method Push(ordinal: nat, record: nat, frame: Frame) returns (r: Outcome<()>)
      requires Valid()
      modifies this
      ensures Valid()
      ensures r.Ok? <==> old(frames) == []
                         || (ordinal == old(first.value) + |old(frames)| && record == old(firstRecord) + Records(old(frames)))
      ensures r.Ok? ==> && frames == old(frames) + [frame]
                        && first == (if old(frames) == [] then Some(ordinal) else old(first))
                        && firstRecord == (if old(frames) == [] then record else old(firstRecord))
      ensures r.Err? ==> unchanged(this) && r.error == InvalidState
    {
      if first.Some? {
        if ordinal != first.value + |frames| || record != firstRecord + records {
          return Err(InvalidState);
        }
      } else {
        first := Some(ordinal);
        firstRecord := record;
      }
      BytesAppend(frames, [frame]);
      BytesOne(frame);
      records := records + frame.records;
      bytes := bytes + |frame.bytes|;
      frames := frames + [frame];
      end := frame.kind.End?;
      return Ok(());
    }
  }

  class StreamingCandidate {
    const items: seq<Item>
    const limit: nat
    const expectedRecords: nat
    var taken: nat
    var packet: PacketBuilder
    var lookahead: Option<Frame>
    var nextFrame: nat
    var nextRecord: nat
    var nextNode: Option<nat>
    var resumeAfterCredit: bool
    var phase: StreamPhase
    var commit: Option<nat>
    ghost var emitted: seq<Packet>
    ghost var credited: nat
    ghost var resumes: seq<Resume>

    ghost predicate Valid()
      reads this, packet
    {
      packet.Valid() && limit > PACKET_HEADER_BYTES
    }

    ghost function View(): Stream
      reads this, packet
    {
      Stream(items, taken, limit, expectedRecords, packet.frames,
             if packet.first.Some? then packet.first.value else 0, packet.firstRecord,
             lookahead, nextFrame, nextRecord, nextNode, resumeAfterCredit, phase, commit, emitted, credited, resumes)
    }

    constructor (items: seq<Item>, limit: nat, expectedRecords: nat)
      requires RoomForOne(limit)
      ensures Valid() && fresh(packet) && View() == Fresh(items, limit, expectedRecords)
    {
      this.items, this.limit, this.expectedRecords := items, limit, expectedRecords;
      taken, lookahead, nextFrame, nextRecord, nextNode := 0, None, 0, 0, None;
      resumeAfterCredit, phase, commit := false, NeedBegin, None;
      emitted, credited, resumes := [], 0, [];
      packet := new PacketBuilder();
    }

    /** `take_packet_event`: the packet leaves, an empty builder takes its place. */
    method TakePacket()
      requires Valid() && packet.frames != []
      modifies this`packet, this`phase, this`emitted
      ensures Valid() && fresh(packet)
      ensures View() == Take(old(View()))
    {
      var sent := packet;
      emitted := emitted + [Packet(sent.first.value, sent.firstRecord, sent.frames)];
      phase := AwaitPacketReceipt(sent.first.value, |sent.frames|, sent.end);
      packet := new PacketBuilder();
    }

    method Admits(f: Frame) returns (ok: bool)
      requires Valid()
      ensures ok == Admissible(View(), f)
    {
      if f.kind.Begin? != (nextFrame == 0) || |f.bytes| == 0 || |f.bytes| > MAXIMUM_FRAME_BYTES {
        return false;
      }
      return if f.kind.Node? then f.node.Some? && (nextNode.None? || f.node == nextNode) else f.node.None?;
    }

    method AppendFrame(f: Frame, sealOk: bool) returns (r: Outcome<()>)
      requires Valid()
      modifies this`nextFrame, this`nextRecord, this`nextNode, this`commit, packet
      ensures Valid()
      ensures (View(), r) == Append(old(View()), f, sealOk)
    {
      hide Seal, Bytes, Records, HasEnd, LegalSize;
      ghost var before := View();
      var admitted := Admits(f);
      if !admitted {
        return Err(InvalidState);
      }
      if f.kind.Node? {
        nextNode := Some(f.node.value + 1);
      }
      if nextFrame + 1 > MAX_U32 || nextRecord + f.records > MAX_U32 {
        return Err(MetricOverflow);
      }
      r := packet.Push(nextFrame, nextRecord, f);
      if r.Err? {
        return;
      }
      nextFrame := nextFrame + 1;
      nextRecord := nextRecord + f.records;
      assert View() == Added(before, f);
      if f.kind.End? {
        r := SealStream(sealOk);
      } else {
        r := Ok(());
      }
    }

    method SealStream(sealOk: bool) returns (r: Outcome<()>)
      modifies this`commit
      ensures (View(), r) == Seal(old(View()), sealOk)
    {
      if nextRecord != expectedRecords {
        return Err(InvalidAuthority);
      }
      if !sealOk || commit.Some? {
        return Err(EngineFailure);
      }
      commit := Some(nextFrame);
      return Ok(());
    }

    method AcceptFrame(f: Frame, left: nat, spent: nat, sealOk: bool) returns (m: Motion)
      requires Valid()
      modifies this, packet
      ensures Valid() && (packet == old(packet) || fresh(packet))
      ensures Moved(View(), m) == Accept(old(View()), f, left, spent, sealOk)
    {
      hide Append, WithinLimits, Saturated;
      var accepts := packet.CanAccept(f, limit);
      if accepts.Err? {
        return Stop(PollFailed(accepts.error));
      }
      if !accepts.value {
        if packet.frames == [] {
          return Stop(PollFailed(InvalidState));
        }
        lookahead := Some(f);
        TakePacket();
        return Stop(Event(spent));
      }
      var appended := AppendFrame(f, sealOk);
      if appended.Err? {
        return Stop(PollFailed(appended.error));
      }
      var closed := packet.IsClosed(limit);
      if closed {
        TakePacket();
        return Stop(Event(spent));
      }
      return if spent == left then Stop(Pending(spent)) else GoOn(spent);
    }

    method TurnPacket(left: nat, reply: Reply, sealOk: bool) returns (m: Motion)
      requires Valid()
      modifies this, packet
      ensures Valid() && (packet == old(packet) || fresh(packet))
      ensures Moved(View(), m) == PacketTurn(old(View()), left, reply, sealOk)
    {
      hide Accept, WithinLimits, Saturated;
      var closed := packet.IsClosed(limit);
      if closed {
        TakePacket();
        return Stop(Event(0));
      }
      if lookahead.Some? {
        var f := lookahead.value;
        lookahead := None;
        m := AcceptFrame(f, left, 0, sealOk);
        return;
      }
      if left == 0 {
        return Stop(Pending(0));
      }
      if nextFrame == 0 {
        if packet.frames != [] || taken >= |items| || items[taken].Replay? {
          return Stop(PollFailed(InvalidState));
        }
        taken := taken + 1;
        m := AcceptFrame(items[taken - 1].frame, left, 0, sealOk);
        return;
      }
      if reply.Broken? {
        return Stop(PollFailed(EngineFailure));
      }
      if reply.spent > left {
        return Stop(PollFailed(InvalidState));
      }
      if reply.Wait? || taken >= |items| {
        return Stop(Pending(reply.spent));
      }
      taken := taken + 1;
      var item := items[taken - 1];
      if item.Whole? {
        m := AcceptFrame(item.frame, left, reply.spent, sealOk);
        return;
      }
      if resumeAfterCredit {
        return Stop(PollFailed(InvalidState));
      }
      if packet.frames == [] {
        resumes := resumes + [Resume(nextFrame, credited)];
        return GoOn(reply.spent);
      }
      resumeAfterCredit := true;
      TakePacket();
      return Stop(Event(reply.spent));
    }

    /** `poll_packet`: the fuel loop over the producer's answers. */
    method PollPacket(fuel: nat, replies: seq<Reply>, sealOk: bool) returns (p: Poll)
      requires Valid()
      modifies this, packet
      ensures Valid() && (packet == old(packet) || fresh(packet))
      ensures (View(), p) == PacketStream.PollPacket(old(View()), fuel, 0, replies, sealOk)
    {
      hide PacketTurn;
      var transitions, i := 0, 0;
      while i < |replies| && transitions <= fuel
        invariant Valid() && (packet == old(packet) || fresh(packet)) && i <= |replies|
        invariant PacketStream.PollPacket(old(View()), fuel, 0, replies, sealOk)
               == PacketStream.PollPacket(View(), fuel, transitions, replies[i..], sealOk)
        decreases |replies| - i
      {
        ghost var before := View();
        var m := TurnPacket(fuel - transitions, replies[i], sealOk);
        assert Moved(View(), m) == PacketTurn(before, fuel - transitions, replies[i..][0], sealOk);
        assert replies[i..][1..] == replies[i + 1..];
        match m {
        case GoOn(spent) =>
          transitions := transitions + spent;
          i := i + 1;
        case Stop(Pending(spent)) => return Pending(transitions + spent);
        case Stop(Event(spent)) => return Event(transitions + spent);
        case Stop(PollFailed(error)) => return PollFailed(error);
        }
      }
      return Pending(transitions);
    }

    /** `handle_host_poll` for the packet part of the protocol. */
    method HostPoll(ticket: nat, host: HostPhase, result: HostResult, resumeOk: bool) returns (r: Outcome<()>)
      requires Valid()
      modifies this`phase, this`credited, this`resumes, this`resumeAfterCredit
      ensures Valid() && (View(), r) == TakeHostPoll(old(View()), ticket, host, result, resumeOk)
    {
      if !ExactTicket(phase, ticket, true, host) {
        return Err(InvalidState);
      }
      if phase.AwaitPacketHost? && result.PacketCredited? && result.next == phase.next {
        if resumeAfterCredit && !resumeOk {
          return Err(EngineFailure);
        }
        credited := result.next;
        if resumeAfterCredit {
          resumes := resumes + [Resume(nextFrame + (if lookahead.Some? then 1 else 0), credited)];
          resumeAfterCredit := false;
        }
        phase := if phase.end then NeedCommit else NeedPacket;
        return Ok(());
      }
      if phase.AwaitCommitHost? && result.Committed? {
        phase := AwaitRecursiveGreenDelivery;
        return Ok(());
      }
      return Err(InvalidState);
    }
  }

  /** How one loop iteration leaves the stream. */
  datatype Motion = GoOn(spent: nat) | Stop(poll: Poll)

  function Moved(s: Stream, m: Motion): Turn {
    match m
    case GoOn(spent) => More(s, spent)
    case Stop(poll) => Finish(s, poll)
  }
}
