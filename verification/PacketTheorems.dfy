/**
 What every run of a packet stream keeps: whatever the fuel slices, the packets
 sent so far and the ones still to come are the one greedy split of the
 producer's frames; ordinals are contiguous; the producer resumes only after full credit.
 */
module PacketTheorems {
  import opened Engine
  import opened StreamProtocol
  import opened Packets
  import opened PacketStream

  /** The producer's contract from a given position on. */
  predicate LegalItems(position: nat, records: nat, node: Option<nat>, items: seq<Item>)
    decreases |items|
  {
    items == [] ||
    match items[0]
    case Replay => position > 0 && LegalItems(position, records, node, items[1..])
    case Whole(f) =>
      && LegalSize(f) && (f.kind.Begin? <==> position == 0) && NodeFits(node, f)
      && position + 1 <= MAX_U32 && records + f.records <= MAX_U32
      && (f.kind.End? ==> items[1..] == [])
      && LegalItems(position + 1, records + f.records, NextNode(node, f), items[1..])
  }

  lemma {:induction false} LegalItemsHaveLegalSizes(position: nat, records: nat, node: Option<nat>, items: seq<Item>)
    requires LegalItems(position, records, node, items)
    ensures LegalSizes(items)
    decreases |items|
  {
    if items != [] {
      match items[0] {
      case Replay => LegalItemsHaveLegalSizes(position, records, node, items[1..]);
      case Whole(f) => LegalItemsHaveLegalSizes(position + 1, records + f.records, NextNode(node, f), items[1..]);
      }
      forall i | 0 <= i < |items| && items[i].Whole?
        ensures LegalSize(items[i].frame)
      {
        if i > 0 {
          assert items[i] == items[1..][i - 1];
        }
      }
    }
  }

  /** What is still to be packed: the frame looked ahead, then the producer's rest. */
  function Coming(s: Stream): seq<Item>
    requires s.taken <= |s.items|
  {
    (if s.lookahead.Some? then [Whole(s.lookahead.value)] else []) + s.items[s.taken..]
  }

  function Payload(emitted: seq<Packet>): (p: seq<seq<Frame>>)
    ensures |p| == |emitted|
  {
    seq(|emitted|, i requires 0 <= i < |emitted| => emitted[i].frames)
  }

  /** Everything the host has been sent. */
  function Sent(emitted: seq<Packet>): seq<Frame> {
    Flatten(Payload(emitted))
  }

  /** Packets are numbered by the frames and records sent before them. */
  predicate Numbered(emitted: seq<Packet>) {
    forall i :: 0 <= i < |emitted| ==>
      && emitted[i].first == |Sent(emitted[..i])|
      && emitted[i].firstRecord == Records(Sent(emitted[..i]))
  }

  predicate LastSent(emitted: seq<Packet>, first: nat, count: nat, end: bool)
    requires emitted != []
  {
    var last := emitted[|emitted| - 1];
    last.first == first && |last.frames| == count && HasEnd(last.frames) == end
  }

  predicate PhaseInv(s: Stream) {
    && (s.resumeAfterCredit ==> s.lookahead.None? && (s.phase.AwaitPacketReceipt? || s.phase.AwaitPacketHost?))
    && match s.phase
       case NeedBegin => s.nextFrame == 0 && s.credited == 0
       case AwaitBeginReceipt => s.nextFrame == 0 && s.credited == 0
       case NeedPacket => s.credited + |s.frames| == s.nextFrame
       case AwaitPacketReceipt(first, count, end) =>
         && s.frames == [] && s.credited == first && first + count == s.nextFrame
         && s.emitted != [] && LastSent(s.emitted, first, count, end)
       case AwaitPacketHost(_, next, _) => s.frames == [] && next == s.nextFrame
       case _ => s.frames == [] && s.credited == s.nextFrame
  }

  /** Every resume so far found all produced frames credited. */
  predicate ResumedSafely(s: Stream) {
    forall i :: 0 <= i < |s.resumes| ==> s.resumes[i].produced == s.resumes[i].credited
  }

  ghost predicate Inv(s: Stream) {
    && RoomForOne(s.limit) && s.taken <= |s.items| && Open(s.frames, s.limit)
    && LegalItems(s.nextFrame, s.nextRecord, s.nextNode, Coming(s))
    && (HasEnd(s.frames) ==> Coming(s) == []) && (s.nextFrame == 0 ==> Coming(s) != [])
    && Payload(s.emitted) + Cut(s.frames, Coming(s), s.limit) == Split(s.items, s.limit)
    && s.nextFrame == |Sent(s.emitted) + s.frames|
    && s.nextRecord == Records(Sent(s.emitted) + s.frames)
    && (s.frames != [] ==> s.first == |Sent(s.emitted)| && s.firstRecord == Records(Sent(s.emitted)))
    && Numbered(s.emitted) && ResumedSafely(s) && PhaseInv(s)
    && (s.commit.Some? ==> s.commit.value == s.nextFrame && Coming(s) == [])
  }

  lemma FreshInv(items: seq<Item>, limit: nat, expectedRecords: nat)
    requires RoomForOne(limit) && LegalItems(0, 0, None, items) && items != []
    ensures Inv(Fresh(items, limit, expectedRecords))
  {
    var s := Fresh(items, limit, expectedRecords);
    assert Coming(s) == items;
    assert Payload([]) == [];
    assert [] + Split(items, limit) == Split(items, limit);
    assert Sent([]) + [] == [];
  }

  // ---------------------------------------------------------------------- one packet

  lemma {:induction false} FlattenAppend(packets: seq<seq<Frame>>, packet: seq<Frame>)
    ensures Flatten(packets + [packet]) == Flatten(packets) + packet
  {
    if packets == [] {
      assert [] + [packet] == [packet];
      assert Flatten([packet]) == packet + Flatten([]);
    } else {
      FlattenAppend(packets[1..], packet);
      assert (packets + [packet])[1..] == packets[1..] + [packet];
    }
  }

  lemma SentAppend(emitted: seq<Packet>, p: Packet)
    ensures Payload(emitted + [p]) == Payload(emitted) + [p.frames]
    ensures Sent(emitted + [p]) == Sent(emitted) + p.frames
  {
    assert Payload(emitted + [p]) == Payload(emitted) + [p.frames];
    FlattenAppend(Payload(emitted), p.frames);
  }

  lemma NumberedAppend(emitted: seq<Packet>, p: Packet)
    requires Numbered(emitted) && p.first == |Sent(emitted)| && p.firstRecord == Records(Sent(emitted))
    ensures Numbered(emitted + [p])
  {
    forall i | 0 <= i < |emitted + [p]|
      ensures (emitted + [p])[i].first == |Sent((emitted + [p])[..i])|
      ensures (emitted + [p])[i].firstRecord == Records(Sent((emitted + [p])[..i]))
    {
      assert (emitted + [p])[..i] == emitted[..i];
      if i == |emitted| {
        assert emitted[..i] == emitted;
      }
    }
  }

  /**
   Sending the packet is right whenever cutting would also end the packet here.
   */
  lemma TakeKeeps(s: Stream)
    requires s.taken <= |s.items| && s.frames != []
    requires Payload(s.emitted) + [s.frames] + Cut([], Coming(s), s.limit) == Split(s.items, s.limit)
    requires RoomForOne(s.limit)
    requires LegalItems(s.nextFrame, s.nextRecord, s.nextNode, Coming(s))
    requires s.nextFrame == |Sent(s.emitted) + s.frames| && s.nextRecord == Records(Sent(s.emitted) + s.frames)
    requires s.first == |Sent(s.emitted)| && s.firstRecord == Records(Sent(s.emitted))
    requires Numbered(s.emitted) && ResumedSafely(s)
    requires s.credited == s.first && (s.resumeAfterCredit ==> s.lookahead.None?)
    requires s.commit.Some? ==> s.commit.value == s.nextFrame && Coming(s) == []
    ensures Inv(Take(s))
  {
    var p := Packet(s.first, s.firstRecord, s.frames);
    SentAppend(s.emitted, p);
    NumberedAppend(s.emitted, p);
    assert Coming(Take(s)) == Coming(s);
    assert Payload(s.emitted) + [s.frames] + Cut([], Coming(s), s.limit)
        == Payload(s.emitted) + ([s.frames] + Cut([], Coming(s), s.limit));
    assert Sent(Take(s).emitted) + [] == Sent(s.emitted) + s.frames;
  }

  /** A frame in hand is a frame looked ahead. */
  ghost predicate InHand(s: Stream, f: Frame) {
    && s.lookahead.None? && Inv(s.(lookahead := Some(f)))
    && s.phase.NeedPacket? && !Closed(s.frames, s.limit)
  }

  lemma CutTakesFrame(open: seq<Frame>, f: Frame, rest: seq<Item>, limit: nat)
    requires !Closed(open, limit)
    ensures Fits(open, f, limit) ==> Cut(open, [Whole(f)] + rest, limit) == Cut(open + [f], rest, limit)
    ensures !Fits(open, f, limit) && open != [] ==>
      Cut(open, [Whole(f)] + rest, limit) == [open] + Cut([], [Whole(f)] + rest, limit)
  {
    assert ([Whole(f)] + rest)[1..] == rest;
  }

  predicate SealFailure(r: Outcome<()>) {
    r.Err? ==> r.error == EngineFailure || r.error == InvalidAuthority
  }

  lemma LegalStep(position: nat, records: nat, node: Option<nat>, f: Frame, rest: seq<Item>)
    requires LegalItems(position, records, node, [Whole(f)] + rest)
    ensures LegalSize(f) && (f.kind.Begin? <==> position == 0) && NodeFits(node, f)
    ensures position + 1 <= MAX_U32 && records + f.records <= MAX_U32 && (f.kind.End? ==> rest == [])
    ensures LegalItems(position + 1, records + f.records, NextNode(node, f), rest)
  {
    assert ([Whole(f)] + rest)[1..] == rest;
  }

  /** The counters after one more frame. */
  lemma OneMoreFrame(sent: seq<Frame>, frames: seq<Frame>, f: Frame)
    ensures |sent + (frames + [f])| == |sent + frames| + 1
    ensures Records(sent + (frames + [f])) == Records(sent + frames) + f.records
  {
    BytesAppend(sent + frames, [f]);
    BytesOne(f);
    assert sent + frames + [f] == sent + (frames + [f]);
  }

  lemma AddedKeeps(s: Stream, f: Frame)
    requires InHand(s, f) && Fits(s.frames, f, s.limit)
    ensures Inv(Added(s, f)) && (f.kind.End? ==> Coming(Added(s, f)) == [])
  {
    hide LegalItems, Cut, Records, Sent, Numbered, ResumedSafely, WithinLimits, NodeFits, NextNode, LegalSize;
    var s' := Added(s, f);
    var rest := s.items[s.taken..];
    assert Coming(s.(lookahead := Some(f))) == [Whole(f)] + rest;
    LegalStep(s.nextFrame, s.nextRecord, s.nextNode, f, rest);
    assert Coming(s') == [] + rest == rest;
    CutTakesFrame(s.frames, f, rest, s.limit);
    OneMoreFrame(Sent(s.emitted), s.frames, f);
    SameHistory(s.(lookahead := Some(f)), s');
    if s.frames == [] {
      assert Sent(s.emitted) + [] == Sent(s.emitted);
    }
  }

  /** The builder's ordinals carry on: `push` never refuses. */
  lemma OrdinalsCarryOn(s: Stream, f: Frame)
    requires InHand(s, f)
    ensures s.frames != [] ==> s.first + |s.frames| == s.nextFrame && s.firstRecord + Records(s.frames) == s.nextRecord
    ensures (f.kind.Begin? <==> s.nextFrame == 0) && LegalSize(f) && NodeFits(s.nextNode, f)
    ensures s.nextFrame + 1 <= MAX_U32 && s.nextRecord + f.records <= MAX_U32
  {
    hide Cut, Sent, Numbered, ResumedSafely, WithinLimits;
    BytesAppend(Sent(s.emitted), s.frames);
    LegalStep(s.nextFrame, s.nextRecord, s.nextNode, f, s.items[s.taken..]);
  }

  lemma AppendKeeps(s: Stream, f: Frame, sealOk: bool)
    requires InHand(s, f) && Fits(s.frames, f, s.limit)
    ensures var (s', r) := Append(s, f, sealOk);
      && Inv(s') && s'.phase.NeedPacket? && s'.lookahead.None? && SealFailure(r)
      && s'.frames == s.frames + [f] && s'.limit == s.limit
  {
    hide LegalItems, Cut, Records, Sent, Numbered, ResumedSafely, WithinLimits, NodeFits, NextNode, LegalSize, Open;
    AddedKeeps(s, f);
    OrdinalsCarryOn(s, f);
    var (s', r) := Append(s, f, sealOk);
    assert Coming(s') == Coming(Added(s, f));
    SameHistory(Added(s, f), s');
  }

  lemma SameHistory(s: Stream, s': Stream)
    requires s'.resumes == s.resumes
    ensures ResumedSafely(s) == ResumedSafely(s')
  {
  }

  predicate TurnFailure(p: Poll) {
    p.PollFailed? ==> p.error == EngineFailure || p.error == InvalidAuthority
  }

  /** A legal turn keeps the invariant, stays within its fuel, and fails only with the engine. */
  ghost predicate GoodTurn(t: Turn, left: nat) {
    && Inv(t.stream)
    && (t.More? ==> t.stream.phase.NeedPacket? && t.spent <= left)
    && (t.Finish? ==> TurnFailure(t.poll) && (!t.poll.PollFailed? ==> t.poll.spent <= left))
  }

  /** The builder's packet may go out as it is: cutting would end it here too. */
  lemma SendKeeps(s: Stream)
    requires Inv(s) && s.phase.NeedPacket? && s.frames != []
    requires Cut(s.frames, Coming(s), s.limit) == [s.frames] + Cut([], Coming(s), s.limit)
    ensures Inv(Take(s))
  {
    assert Payload(s.emitted) + [s.frames] + Cut([], Coming(s), s.limit)
        == Payload(s.emitted) + ([s.frames] + Cut([], Coming(s), s.limit));
    TakeKeeps(s);
  }

  lemma AcceptKeeps(s: Stream, f: Frame, left: nat, spent: nat, sealOk: bool)
    requires InHand(s, f) && spent <= left
    ensures GoodTurn(Accept(s, f, left, spent, sealOk), left)
  {
    hide Append, Open, Numbered, ResumedSafely;
    var rest := s.items[s.taken..];
    var hand := s.(lookahead := Some(f));
    assert Coming(hand) == [Whole(f)] + rest;
    CutTakesFrame(s.frames, f, rest, s.limit);
    if Fits(s.frames, f, s.limit) {
      AppendKeeps(s, f, sealOk);
      var (s', r) := Append(s, f, sealOk);
      if r.Ok? && Closed(s'.frames, s'.limit) {
        SendKeeps(s');
      }
    } else {
      OneFrameFits(f, s.limit);
      SendKeeps(hand);
    }
  }

  /** The next item of the producer, taken in hand. */
  lemma TakenInHand(s: Stream)
    requires Inv(s) && s.phase.NeedPacket? && s.lookahead.None? && !Closed(s.frames, s.limit)
    requires s.taken < |s.items|
    ensures s.items[s.taken].Whole? ==> InHand(s.(taken := s.taken + 1), s.items[s.taken].frame)
  {
    if s.items[s.taken].Whole? {
      var hand := s.(taken := s.taken + 1, lookahead := Some(s.items[s.taken].frame));
      assert Coming(hand) == Coming(s);
    }
  }

  lemma ReplayKeeps(s: Stream)
    requires Inv(s) && s.phase.NeedPacket? && s.lookahead.None? && !Closed(s.frames, s.limit)
    requires s.taken < |s.items| && s.items[s.taken].Replay?
    ensures !s.resumeAfterCredit
    ensures s.frames == [] ==> Inv(Resumed(s.(taken := s.taken + 1)))
    ensures s.frames != [] ==> Inv(Take(s.(taken := s.taken + 1, resumeAfterCredit := true)))
  {
    var s' := s.(taken := s.taken + 1);
    assert Coming(s) == s.items[s.taken..];
    assert Coming(s') == Coming(s)[1..];
    if s.frames == [] {
      assert [] + Cut([], Coming(s'), s.limit) == Cut([], Coming(s'), s.limit);
      assert Coming(Resumed(s')) == Coming(s');
    } else {
      var parked := s'.(resumeAfterCredit := true);
      assert Coming(parked) == Coming(s');
      assert Payload(s.emitted) + [s.frames] + Cut([], Coming(s'), s.limit)
          == Payload(s.emitted) + ([s.frames] + Cut([], Coming(s'), s.limit));
      TakeKeeps(parked);
    }
  }

  lemma TurnKeeps(s: Stream, left: nat, reply: Reply, sealOk: bool)
    requires Inv(s) && s.phase.NeedPacket? && (!reply.Broken? ==> reply.spent <= left)
    ensures GoodTurn(PacketTurn(s, left, reply, sealOk), left)
  {
    hide Accept, Inv, Take;
    InvFacts(s);
    if Closed(s.frames, s.limit) {
      SendKeeps(s);
    } else if s.lookahead.Some? {
      assert s.(lookahead := None).(lookahead := Some(s.lookahead.value)) == s;
      AcceptKeeps(s.(lookahead := None), s.lookahead.value, left, 0, sealOk);
    } else if s.taken < |s.items| {
      TakenInHand(s);
      if s.items[s.taken].Whole? {
        AcceptKeeps(s.(taken := s.taken + 1), s.items[s.taken].frame, left, 0, sealOk);
        if !reply.Broken? && left > 0 && s.nextFrame > 0 {
          AcceptKeeps(s.(taken := s.taken + 1), s.items[s.taken].frame, left, reply.spent, sealOk);
        }
      } else {
        ReplayKeeps(s);
      }
    }
  }

  lemma InvFacts(s: Stream)
    requires Inv(s)
    ensures s.taken <= |s.items|
    ensures s.nextFrame == 0 ==> s.frames == []
    ensures s.nextFrame == 0 && s.lookahead.None? ==> s.taken < |s.items| && s.items[s.taken].Whole?
    ensures Closed(s.frames, s.limit) ==>
      s.frames != [] && Cut(s.frames, Coming(s), s.limit) == [s.frames] + Cut([], Coming(s), s.limit)
  {
    if s.lookahead.None? {
      assert Coming(s) == s.items[s.taken..];
    }
  }

  // ------------------------------------------------------------------------ whole polls

  /** The producer never spends more fuel than it is offered. */
  predicate LegalReplies(s: Stream, fuel: nat, spent: nat, replies: seq<Reply>, sealOk: bool)
    decreases |replies|
  {
    replies == [] || spent > fuel ||
    (&& (!replies[0].Broken? ==> replies[0].spent <= fuel - spent)
     && var t := PacketTurn(s, fuel - spent, replies[0], sealOk);
        t.More? ==> LegalReplies(t.stream, fuel, spent + t.spent, replies[1..], sealOk))
  }

  /** However the fuel is sliced, a packet poll keeps the invariant and reports at most its fuel. */
  lemma {:induction false} PollPacketKeeps(s: Stream, fuel: nat, spent: nat, replies: seq<Reply>, sealOk: bool)
    requires Inv(s) && s.phase.NeedPacket? && spent <= fuel && LegalReplies(s, fuel, spent, replies, sealOk)
    ensures var (s', p) := PollPacket(s, fuel, spent, replies, sealOk);
      Inv(s') && TurnFailure(p) && (!p.PollFailed? ==> p.spent <= fuel)
    decreases |replies|
  {
    hide PacketTurn, Inv;
    if replies != [] {
      TurnKeeps(s, fuel - spent, replies[0], sealOk);
      var t := PacketTurn(s, fuel - spent, replies[0], sealOk);
      if t.More? {
        PollPacketKeeps(t.stream, fuel, spent + t.spent, replies[1..], sealOk);
      }
    }
  }

  datatype Op =
    | OpPoll(fuel: nat, replies: seq<Reply>, sealOk: bool)
    | OpCredit(credit: Credit, event: nat)
    | OpHost(ticket: nat, phase: HostPhase, result: HostResult, resumeOk: bool)

  function Apply(s: Stream, op: Op): Stream {
    match op
    case OpPoll(fuel, replies, sealOk) => PollEvent(s, fuel, replies, sealOk).0
    case OpCredit(credit, event) => TakeCredit(s, credit, event).0
    case OpHost(ticket, phase, result, resumeOk) => TakeHostPoll(s, ticket, phase, result, resumeOk).0
  }

  predicate Legal(s: Stream, op: Op) {
    op.OpPoll? && s.phase.NeedPacket? ==> LegalReplies(s, op.fuel, 0, op.replies, op.sealOk)
  }

  /** A change of phase and credit alone. */
  lemma PhaseMoves(s: Stream, s': Stream)
    requires Inv(s) && PhaseInv(s') && ResumedSafely(s')
    requires s' == s.(phase := s'.phase, credited := s'.credited, resumes := s'.resumes, resumeAfterCredit := s'.resumeAfterCredit)
    ensures Inv(s')
  {
    assert Coming(s') == Coming(s);
  }

  lemma OpKeeps(s: Stream, op: Op)
    requires Inv(s) && Legal(s, op)
    ensures Inv(Apply(s, op))
  {
    hide PollPacket, Cut, LegalItems, LegalReplies, Numbered, Open;
    match op
    case OpPoll(fuel, replies, sealOk) =>
      if s.phase.NeedPacket? {
        PollPacketKeeps(s, fuel, 0, replies, sealOk);
      } else {
        PhaseMoves(s, Apply(s, op));
      }
    case OpCredit(_, _) => PhaseMoves(s, Apply(s, op));
    case OpHost(_, _, _, _) => PhaseMoves(s, Apply(s, op));
  }

  function Run(s: Stream, ops: seq<Op>): Stream
    decreases |ops|
  {
    if ops == [] then s else Run(Apply(s, ops[0]), ops[1..])
  }

  predicate LegalRun(s: Stream, ops: seq<Op>)
    decreases |ops|
  {
    ops == [] || (Legal(s, ops[0]) && LegalRun(Apply(s, ops[0]), ops[1..]))
  }

  lemma {:induction false} RunKeeps(s: Stream, ops: seq<Op>)
    requires Inv(s) && LegalRun(s, ops)
    ensures Inv(Run(s, ops)) && Run(s, ops).items == s.items && Run(s, ops).limit == s.limit
    decreases |ops|
  {
    hide Apply, Legal, Inv;
    if ops != [] {
      OpKeeps(s, ops[0]);
      SameProducer(s, ops[0]);
      RunKeeps(Apply(s, ops[0]), ops[1..]);
    }
  }

  lemma SameProducer(s: Stream, op: Op)
    ensures Apply(s, op).items == s.items && Apply(s, op).limit == s.limit
  {
    hide PollPacket;
    if op.OpPoll? {
      PollSameProducer(s, op.fuel, 0, op.replies, op.sealOk);
    }
  }

  lemma AcceptSameProducer(s: Stream, f: Frame, left: nat, spent: nat, sealOk: bool)
    ensures Accept(s, f, left, spent, sealOk).stream.items == s.items
    ensures Accept(s, f, left, spent, sealOk).stream.limit == s.limit
  {
    hide Closed, Fits, LegalSize, NodeFits;
  }

  lemma TurnSameProducer(s: Stream, left: nat, reply: Reply, sealOk: bool)
    ensures PacketTurn(s, left, reply, sealOk).stream.items == s.items
    ensures PacketTurn(s, left, reply, sealOk).stream.limit == s.limit
  {
    hide Closed, Accept;
    if s.lookahead.Some? {
      AcceptSameProducer(s.(lookahead := None), s.lookahead.value, left, 0, sealOk);
    } else if s.taken < |s.items| && s.items[s.taken].Whole? {
      AcceptSameProducer(s.(taken := s.taken + 1), s.items[s.taken].frame, left, 0, sealOk);
      if !reply.Broken? {
        AcceptSameProducer(s.(taken := s.taken + 1), s.items[s.taken].frame, left, reply.spent, sealOk);
      }
    }
  }

  lemma {:induction false} PollSameProducer(s: Stream, fuel: nat, spent: nat, replies: seq<Reply>, sealOk: bool)
    ensures PollPacket(s, fuel, spent, replies, sealOk).0.items == s.items
    ensures PollPacket(s, fuel, spent, replies, sealOk).0.limit == s.limit
    decreases |replies|
  {
    hide PacketTurn;
    if replies != [] && spent <= fuel {
      TurnSameProducer(s, fuel - spent, replies[0], sealOk);
      var t := PacketTurn(s, fuel - spent, replies[0], sealOk);
      if t.More? {
        PollSameProducer(t.stream, fuel, spent + t.spent, replies[1..], sealOk);
      }
    }
  }

  // --------------------------------------------------------------------- main results

  /** A stream of `items` under `limit`, after any legal run from its start. */
  ghost predicate Reached(s: Stream, items: seq<Item>, limit: nat) {
    exists records: nat, ops: seq<Op> ::
      LegalRun(Fresh(items, limit, records), ops) && s == Run(Fresh(items, limit, records), ops)
  }

  lemma ReachedInv(s: Stream, items: seq<Item>, limit: nat)
    requires RoomForOne(limit) && LegalItems(0, 0, None, items) && items != [] && Reached(s, items, limit)
    ensures Inv(s) && s.items == items && s.limit == limit
  {
    hide Inv, LegalRun, Run;
    var records: nat, ops: seq<Op> :|
      LegalRun(Fresh(items, limit, records), ops) && s == Run(Fresh(items, limit, records), ops);
    FreshInv(items, limit, records);
    RunKeeps(Fresh(items, limit, records), ops);
  }

  /**
   Packetization: at any point of any run, for every slicing of fuel into polls,
   the packets sent are the first packets of the one greedy split of the
   producer's frames; each is within the limits, and frame and record ordinals
   are contiguous from zero.
   */
  lemma PacketsAreTheGreedySplit(s: Stream, items: seq<Item>, limit: nat)
    requires RoomForOne(limit) && LegalItems(0, 0, None, items) && items != [] && Reached(s, items, limit)
    ensures |s.emitted| <= |Split(items, limit)|
    ensures Payload(s.emitted) == Split(items, limit)[..|s.emitted|]
    ensures Numbered(s.emitted)
    ensures forall i :: 0 <= i < |s.emitted| ==> WithinLimits(s.emitted[i].frames, limit)
  {
    hide Reached, Cut, LegalItems, LegalSizes;
    ReachedInv(s, items, limit);
    LegalItemsHaveLegalSizes(0, 0, None, items);
    SplitIsGreedyAndLossless(items, limit);
    var whole := Payload(s.emitted) + Cut(s.frames, Coming(s), s.limit);
    assert whole[..|s.emitted|] == Payload(s.emitted);
    forall i | 0 <= i < |s.emitted|
      ensures WithinLimits(s.emitted[i].frames, limit)
    {
      assert whole[i] == s.emitted[i].frames;
      assert whole[i] in Split(items, limit);
    }
  }

  predicate Offered(s: Stream) {
    s.commit.Some? && (s.phase.AwaitCommitReceipt? || s.phase.AwaitCommitHost? || s.phase.AwaitRecursiveGreenDelivery?
                       || s.phase.NeedCommit?)
  }

  /**
   Commit: it is ready only when the host has credited every packet, the packets
   concatenate to exactly the producer's frames in order, and the count it
   carries is the number of all of them.
   */
  lemma CommitCountsEveryFrame(s: Stream, items: seq<Item>, limit: nat)
    requires RoomForOne(limit) && LegalItems(0, 0, None, items) && items != [] && Reached(s, items, limit) && Offered(s)
    ensures Payload(s.emitted) == Split(items, limit)
    ensures Sent(s.emitted) == Frames(items)
    ensures s.commit == Some(|Frames(items)|) && s.credited == |Frames(items)|
  {
    hide Reached, LegalItems, LegalSizes;
    ReachedInv(s, items, limit);
    LegalItemsHaveLegalSizes(0, 0, None, items);
    SplitIsGreedyAndLossless(items, limit);
    assert Cut(s.frames, Coming(s), s.limit) == [];
    assert Payload(s.emitted) + [] == Payload(s.emitted);
    assert Sent(s.emitted) + [] == Sent(s.emitted);
  }

  /** A replay demand is answered only once the host has credited every frame produced before it. */
  lemma ProducerResumesAfterFullCredit(s: Stream, items: seq<Item>, limit: nat)
    requires RoomForOne(limit) && LegalItems(0, 0, None, items) && items != [] && Reached(s, items, limit)
    ensures forall i :: 0 <= i < |s.resumes| ==> s.resumes[i].produced == s.resumes[i].credited
  {
    hide Reached;
    ReachedInv(s, items, limit);
  }

  lemma {:induction false} NumberedIsDetermined(a: seq<Packet>, b: seq<Packet>)
    requires Numbered(a) && Numbered(b) && Payload(a) == Payload(b)
    ensures a == b
  {
    assert |a| == |Payload(a)| == |Payload(b)| == |b|;
    forall i | 0 <= i < |a|
      ensures a[i] == b[i]
    {
      assert Payload(a)[i] == Payload(b)[i];
      assert Payload(a[..i]) == Payload(a)[..i] == Payload(b)[..i] == Payload(b[..i]);
    }
  }

  /** Two runs over the same items, however their fuel was sliced, send the very same packets. */
  lemma PacketsDoNotDependOnFuel(s: Stream, t: Stream, items: seq<Item>, limit: nat)
    requires RoomForOne(limit) && LegalItems(0, 0, None, items) && items != []
    requires Reached(s, items, limit) && Reached(t, items, limit) && Offered(s) && Offered(t)
    ensures s.emitted == t.emitted
  {
    hide Reached, Numbered, Payload, Split, Frames, Offered;
    CommitCountsEveryFrame(s, items, limit);
    CommitCountsEveryFrame(t, items, limit);
    PacketsAreTheGreedySplit(s, items, limit);
    PacketsAreTheGreedySplit(t, items, limit);
    NumberedIsDetermined(s.emitted, t.emitted);
  }

  // ------------------------------------------------------------ events and their receipts

  /** The poll of `op`, if it is one, sends an event. */
  predicate SendsEvent(s: Stream, op: Op) {
    op.OpPoll? && PollEvent(s, op.fuel, op.replies, op.sealOk).1.Event?
  }

  /** The poll of `op` sends a packet. */
  predicate SendsPacket(s: Stream, op: Op) {
    SendsEvent(s, op) && s.phase.NeedPacket?
  }

  predicate TakesReceipt(s: Stream, op: Op) {
    op.OpCredit? && TakeCredit(s, op.credit, op.event).1.Ok?
  }

  predicate TakesPacketCredit(s: Stream, op: Op) {
    op.OpHost? && s.phase.AwaitPacketHost? && TakeHostPoll(s, op.ticket, op.phase, op.result, op.resumeOk).1.Ok?
  }

  function CountIf(b: bool): nat {
    if b then 1 else 0
  }

  function Events(s: Stream, ops: seq<Op>): nat
    decreases |ops|
  {
    if ops == [] then 0 else CountIf(SendsEvent(s, ops[0])) + Events(Apply(s, ops[0]), ops[1..])
  }

  function Receipts(s: Stream, ops: seq<Op>): nat
    decreases |ops|
  {
    if ops == [] then 0 else CountIf(TakesReceipt(s, ops[0])) + Receipts(Apply(s, ops[0]), ops[1..])
  }

  function PacketsSent(s: Stream, ops: seq<Op>): nat
    decreases |ops|
  {
    if ops == [] then 0 else CountIf(SendsPacket(s, ops[0])) + PacketsSent(Apply(s, ops[0]), ops[1..])
  }

  function PacketsCredited(s: Stream, ops: seq<Op>): nat
    decreases |ops|
  {
    if ops == [] then 0 else CountIf(TakesPacketCredit(s, ops[0])) + PacketsCredited(Apply(s, ops[0]), ops[1..])
  }

  predicate ReceiptAwaited(p: StreamPhase) {
    p.AwaitBeginReceipt? || p.AwaitPacketReceipt? || p.AwaitCommitReceipt?
  }

  predicate PacketAwaited(p: StreamPhase) {
    p.AwaitPacketReceipt? || p.AwaitPacketHost?
  }

  lemma TurnPhase(s: Stream, left: nat, reply: Reply, sealOk: bool)
    requires s.phase.NeedPacket?
    ensures var t := PacketTurn(s, left, reply, sealOk);
      && (t.More? ==> t.stream.phase.NeedPacket?)
      && (t.Finish? ==> if t.poll.Event? then t.stream.phase.AwaitPacketReceipt? else t.stream.phase.NeedPacket?)
  {
    hide Closed, Fits, LegalSize, Admissible;
  }

  lemma {:induction false} PollPhase(s: Stream, fuel: nat, spent: nat, replies: seq<Reply>, sealOk: bool)
    requires s.phase.NeedPacket?
    ensures var (s', p) := PollPacket(s, fuel, spent, replies, sealOk);
      if p.Event? then s'.phase.AwaitPacketReceipt? else s'.phase.NeedPacket?
    decreases |replies|
  {
    hide PacketTurn;
    if replies != [] && spent <= fuel {
      TurnPhase(s, fuel - spent, replies[0], sealOk);
      var t := PacketTurn(s, fuel - spent, replies[0], sealOk);
      if t.More? {
        PollPhase(t.stream, fuel, spent + t.spent, replies[1..], sealOk);
      }
    }
  }

  /** An event is sent only with none outstanding, and a receipt or credit ends the wait. */
  lemma StepBalance(s: Stream, op: Op)
    requires !s.phase.AwaitDeliveryReceipt?
    ensures !Apply(s, op).phase.AwaitDeliveryReceipt?
    ensures CountIf(ReceiptAwaited(s.phase)) + CountIf(SendsEvent(s, op))
         == CountIf(TakesReceipt(s, op)) + CountIf(ReceiptAwaited(Apply(s, op).phase))
    ensures CountIf(PacketAwaited(s.phase)) + CountIf(SendsPacket(s, op))
         == CountIf(TakesPacketCredit(s, op)) + CountIf(PacketAwaited(Apply(s, op).phase))
  {
    hide PollPacket;
    if op.OpPoll? && s.phase.NeedPacket? {
      PollPhase(s, op.fuel, 0, op.replies, op.sealOk);
    }
  }

  /**
   At most one event is outstanding, over every run from any point: of the events
   sent all but at most one have had their receipt, and of the packets sent all but
   at most one have had the host's credit. So between two events there is a receipt,
   and between two packets a host credit.
   */
  lemma {:induction false} OneEventOutstanding(s: Stream, ops: seq<Op>)
    requires !s.phase.AwaitDeliveryReceipt?
    ensures CountIf(ReceiptAwaited(s.phase)) + Events(s, ops) == Receipts(s, ops) + CountIf(ReceiptAwaited(Run(s, ops).phase))
    ensures CountIf(PacketAwaited(s.phase)) + PacketsSent(s, ops)
         == PacketsCredited(s, ops) + CountIf(PacketAwaited(Run(s, ops).phase))
    ensures Events(s, ops) <= Receipts(s, ops) + 1 && PacketsSent(s, ops) <= PacketsCredited(s, ops) + 1
    decreases |ops|
  {
    hide Apply, SendsEvent, SendsPacket, TakesReceipt, TakesPacketCredit;
    if ops != [] {
      StepBalance(s, ops[0]);
      OneEventOutstanding(Apply(s, ops[0]), ops[1..]);
    }
  }
}
