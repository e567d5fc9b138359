/**
 Packing snapshot frames into packets: the limits, the builder's fill rule, and
 the one greedy way of cutting a frame sequence that they define.
 */
module Packets {
  import opened Engine

  const PACKET_HEADER_BYTES: nat := 44
  const PACKET_FRAME_DESCRIPTOR_BYTES: nat := 24
  const MAXIMUM_PACKET_FRAME_COUNT: nat := 256
  const MAXIMUM_PACKET_AGGREGATE_FRAME_BYTES: nat := 65536
  const MAXIMUM_PACKET_ENCODED_BYTES: nat :=
    PACKET_HEADER_BYTES + PACKET_FRAME_DESCRIPTOR_BYTES * MAXIMUM_PACKET_FRAME_COUNT + MAXIMUM_PACKET_AGGREGATE_FRAME_BYTES
  const MAXIMUM_FRAME_BYTES: nat := 5140

  datatype FrameKind = Begin | Node | Page | End

  datatype Frame = Frame(kind: FrameKind, bytes: seq<bv8>, records: nat, node: Option<nat>)

  /** What the producer hands over: a frame, or a demand that the host replay what it has. */
  datatype Item = Whole(frame: Frame) | Replay

  function Bytes(frames: seq<Frame>): nat {
    if frames == [] then 0 else Bytes(frames[..|frames| - 1]) + |frames[|frames| - 1].bytes|
  }

  function Records(frames: seq<Frame>): nat {
    if frames == [] then 0 else Records(frames[..|frames| - 1]) + frames[|frames| - 1].records
  }

  function Encoded(frames: seq<Frame>): nat {
    PACKET_HEADER_BYTES + PACKET_FRAME_DESCRIPTOR_BYTES * |frames| + Bytes(frames)
  }

  /** The three limits of one packet; `limit` is the offer's encoded-byte ceiling. */
  predicate WithinLimits(frames: seq<Frame>, limit: nat) {
    && |frames| <= MAXIMUM_PACKET_FRAME_COUNT
    && Bytes(frames) <= MAXIMUM_PACKET_AGGREGATE_FRAME_BYTES
    && Encoded(frames) <= limit && Encoded(frames) <= MAXIMUM_PACKET_ENCODED_BYTES
  }

  predicate HasEnd(frames: seq<Frame>) {
    frames != [] && frames[|frames| - 1].kind.End?
  }

  predicate Fits(frames: seq<Frame>, frame: Frame, limit: nat) {
    !HasEnd(frames) && WithinLimits(frames + [frame], limit)
  }

  predicate Saturated(frames: seq<Frame>, limit: nat) {
    || |frames| == MAXIMUM_PACKET_FRAME_COUNT
    || Bytes(frames) == MAXIMUM_PACKET_AGGREGATE_FRAME_BYTES
    || Encoded(frames) == limit || Encoded(frames) == MAXIMUM_PACKET_ENCODED_BYTES
  }

  /** A packet that must go out before anything else is taken in. */
  predicate Closed(frames: seq<Frame>, limit: nat) {
    HasEnd(frames) || (frames != [] && Saturated(frames, limit))
  }

  predicate LegalSize(frame: Frame) {
    0 < |frame.bytes| <= MAXIMUM_FRAME_BYTES
  }

  /** The offer leaves room for one frame of any legal size. */
  predicate RoomForOne(limit: nat) {
    PACKET_HEADER_BYTES + PACKET_FRAME_DESCRIPTOR_BYTES + MAXIMUM_FRAME_BYTES <= limit
  }

  predicate LegalSizes(items: seq<Item>) {
    forall i :: 0 <= i < |items| && items[i].Whole? ==> LegalSize(items[i].frame)
  }

  // ------------------------------------------------------------------ greedy cutting

  /** The packets still to be cut from `items` when `open` is already in the builder. */
  function Cut(open: seq<Frame>, items: seq<Item>, limit: nat): seq<seq<Frame>>
    decreases |items|, |open|
  {
    if Closed(open, limit) then [open] + Cut([], items, limit)
    else if items == [] then (if open == [] then [] else [open])
    else if items[0].Replay? then (if open == [] then [] else [open]) + Cut([], items[1..], limit)
    else if Fits(open, items[0].frame, limit) then Cut(open + [items[0].frame], items[1..], limit)
    else if open == [] then []
    else [open] + Cut([], items, limit)
  }

  function Split(items: seq<Item>, limit: nat): seq<seq<Frame>> {
    Cut([], items, limit)
  }

  function Frames(items: seq<Item>): seq<Frame> {
    if items == [] then []
    else (if items[0].Whole? then [items[0].frame] else []) + Frames(items[1..])
  }

  function Flatten(packets: seq<seq<Frame>>): seq<Frame> {
    if packets == [] then [] else packets[0] + Flatten(packets[1..])
  }

  // -------------------------------------------------- what it means to be cut greedily

  function AfterReplays(items: seq<Item>): (rest: seq<Item>)
    ensures |rest| <= |items|
  {
    if items != [] && items[0].Replay? then AfterReplays(items[1..]) else items
  }

  /** `packet` is the next run of frames of `items`, with no replay demand inside. */
  predicate LeadsWith(items: seq<Item>, packet: seq<Frame>) {
    |packet| <= |items| && forall i :: 0 <= i < |packet| ==> items[i] == Whole(packet[i])
  }

  /** Nothing more could have gone into `packet`: the stream stops, demands a replay, or ends there, or the next frame does not fit. */
  predicate Maximal(packet: seq<Frame>, after: seq<Item>, limit: nat) {
    after == [] || after[0].Replay? || !Fits(packet, after[0].frame, limit)
  }

  /** Each packet is a maximal run of frames within the limits, and together they use up `items`. */
  ghost predicate Greedy(packets: seq<seq<Frame>>, items: seq<Item>, limit: nat)
    decreases |packets|
  {
    var rest := AfterReplays(items);
    if packets == [] then rest == []
    else
      && packets[0] != [] && LeadsWith(rest, packets[0]) && WithinLimits(packets[0], limit)
      && (forall i :: 0 <= i < |packets[0]| - 1 ==> !packets[0][i].kind.End?)
      && Maximal(packets[0], rest[|packets[0]|..], limit)
      && Greedy(packets[1..], rest[|packets[0]|..], limit)
  }

  // ----------------------------------------------------------------------- the limits

  lemma {:induction false} BytesAppend(frames: seq<Frame>, more: seq<Frame>)
    ensures Bytes(frames + more) == Bytes(frames) + Bytes(more)
    ensures Records(frames + more) == Records(frames) + Records(more)
    decreases |more|
  {
    if more == [] {
      assert frames + more == frames;
    } else {
      var last := |more| - 1;
      BytesAppend(frames, more[..last]);
      assert (frames + more)[..|frames| + last] == frames + more[..last];
    }
  }

  lemma BytesOne(frame: Frame)
    ensures Bytes([frame]) == |frame.bytes| && Records([frame]) == frame.records
  {
    assert [frame][..0] == [];
  }

  lemma OneFrameFits(frame: Frame, limit: nat)
    requires LegalSize(frame) && RoomForOne(limit)
    ensures Fits([], frame, limit)
  {
    BytesOne(frame);
    assert [] + [frame] == [frame];
  }

  /** A prefix of a packet within the limits is within the limits. */
  lemma PrefixWithin(frames: seq<Frame>, n: nat, limit: nat)
    requires n <= |frames| && WithinLimits(frames, limit)
    ensures WithinLimits(frames[..n], limit)
  {
    BytesAppend(frames[..n], frames[n..]);
    assert frames[..n] + frames[n..] == frames;
  }

  /** A saturated packet takes no further frame. */
  lemma SaturatedIsMaximal(frames: seq<Frame>, frame: Frame, limit: nat)
    requires frames != [] && Closed(frames, limit) && LegalSize(frame)
    ensures !Fits(frames, frame, limit)
  {
    BytesAppend(frames, [frame]);
    BytesOne(frame);
  }

  // ------------------------------------------------------- cutting is greedy, and only it

  function AsItems(frames: seq<Frame>): (items: seq<Item>)
    ensures |items| == |frames| && forall i :: 0 <= i < |frames| ==> items[i] == Whole(frames[i])
  {
    seq(|frames|, i requires 0 <= i < |frames| => Whole(frames[i]))
  }

  /** An open packet as the builder keeps it: within the limits, with End only at the very end. */
  predicate Open(open: seq<Frame>, limit: nat) {
    && (open == [] || WithinLimits(open, limit))
    && forall i :: 0 <= i < |open| - 1 ==> !open[i].kind.End?
  }

  lemma NothingToCut(limit: nat)
    ensures Greedy([], AsItems([]) + [], limit)
  {
  }

  lemma {:induction false} CutIsGreedy(open: seq<Frame>, items: seq<Item>, limit: nat)
    requires RoomForOne(limit) && LegalSizes(items) && Open(open, limit)
    ensures Greedy(Cut(open, items, limit), AsItems(open) + items, limit)
    decreases |items|, |open|
  {
    hide Greedy, WithinLimits, Saturated;
    assert AsItems([]) + items == items;
    if Closed(open, limit) {
      CutIsGreedy([], items, limit);
      ClosedCut(open, items, limit);
    } else if items == [] {
      NothingToCut(limit);
      if open != [] {
        HeadedBy(open, [], items, limit);
        assert [open] + [] == [open];
      }
    } else if items[0].Replay? {
      CutIsGreedy([], items[1..], limit);
      assert AsItems([]) + items[1..] == items[1..];
      ReplaySkips(Cut([], items[1..], limit), items, limit);
      if open == [] {
        assert [] + Cut([], items[1..], limit) == Cut([], items[1..], limit);
      } else {
        HeadedBy(open, Cut([], items[1..], limit), items, limit);
      }
    } else if Fits(open, items[0].frame, limit) {
      assert AsItems(open + [items[0].frame]) + items[1..] == AsItems(open) + items;
      CutIsGreedy(open + [items[0].frame], items[1..], limit);
    } else {
      OneFrameFits(items[0].frame, limit);
      CutIsGreedy([], items, limit);
      HeadedBy(open, Cut([], items, limit), items, limit);
    }
  }

  lemma ReplaySkips(packets: seq<seq<Frame>>, items: seq<Item>, limit: nat)
    requires items != [] && items[0].Replay?
    ensures Greedy(packets, items, limit) == Greedy(packets, items[1..], limit)
  {
    assert AfterReplays(items) == AfterReplays(items[1..]);
  }

  /** Putting a maximal packet in front of a greedy cut of what follows it. */
  lemma HeadedBy(open: seq<Frame>, packets: seq<seq<Frame>>, items: seq<Item>, limit: nat)
    requires open != [] && Open(open, limit) && Maximal(open, items, limit) && Greedy(packets, items, limit)
    ensures Greedy([open] + packets, AsItems(open) + items, limit)
  {
    var all := AsItems(open) + items;
    assert AfterReplays(all) == all;
    assert all[|open|..] == items;
    assert ([open] + packets)[1..] == packets;
  }

  lemma ClosedCut(open: seq<Frame>, items: seq<Item>, limit: nat)
    requires Open(open, limit) && LegalSizes(items) && Closed(open, limit)
    requires Greedy(Cut([], items, limit), items, limit)
    ensures Greedy([open] + Cut([], items, limit), AsItems(open) + items, limit)
  {
    if items != [] && items[0].Whole? {
      SaturatedIsMaximal(open, items[0].frame, limit);
    }
    HeadedBy(open, Cut([], items, limit), items, limit);
  }

  /** Two greedy cuts of the same items are the same cut. */
  lemma {:induction false} GreedyIsUnique(p: seq<seq<Frame>>, q: seq<seq<Frame>>, items: seq<Item>, limit: nat)
    requires Greedy(p, items, limit) && Greedy(q, items, limit)
    ensures p == q
    decreases |p|
  {
    if p != [] && q != [] {
      var rest := AfterReplays(items);
      NotShorter(p[0], q[0], rest, limit);
      NotShorter(q[0], p[0], rest, limit);
      assert p[0] == q[0];
      GreedyIsUnique(p[1..], q[1..], rest[|p[0]|..], limit);
    }
  }

  lemma NotShorter(p: seq<Frame>, q: seq<Frame>, rest: seq<Item>, limit: nat)
    requires p != [] && LeadsWith(rest, p) && LeadsWith(rest, q)
    requires Maximal(p, rest[|p|..], limit) && WithinLimits(q, limit)
    requires forall i :: 0 <= i < |q| - 1 ==> !q[i].kind.End?
    ensures |p| >= |q|
  {
    if |p| < |q| {
      assert rest[|p|..][0] == Whole(q[|p|]);
      assert p + [q[|p|]] == q[..|p| + 1];
      assert p[|p| - 1] == q[|p| - 1];
      PrefixWithin(q, |p| + 1, limit);
    }
  }

  lemma {:induction false} LeadingFrames(items: seq<Item>, packet: seq<Frame>)
    requires LeadsWith(items, packet)
    ensures Frames(items) == packet + Frames(items[|packet|..])
    decreases |packet|
  {
    if packet == [] {
      assert items[0..] == items;
    } else {
      assert LeadsWith(items[1..], packet[1..]);
      LeadingFrames(items[1..], packet[1..]);
      assert items[1..][|packet[1..]|..] == items[|packet|..];
      assert packet == [packet[0]] + packet[1..];
    }
  }

  lemma {:induction false} ReplaysHoldNoFrames(items: seq<Item>)
    ensures Frames(AfterReplays(items)) == Frames(items)
  {
    if items != [] && items[0].Replay? {
      ReplaysHoldNoFrames(items[1..]);
    }
  }

  /** A greedy cut loses, repeats and reorders nothing. */
  lemma {:induction false} GreedyIsLossless(packets: seq<seq<Frame>>, items: seq<Item>, limit: nat)
    requires Greedy(packets, items, limit)
    ensures Flatten(packets) == Frames(items)
    ensures forall i :: 0 <= i < |packets| ==> packets[i] != [] && WithinLimits(packets[i], limit)
    decreases |packets|
  {
    var rest := AfterReplays(items);
    ReplaysHoldNoFrames(items);
    if packets != [] {
      LeadingFrames(rest, packets[0]);
      GreedyIsLossless(packets[1..], rest[|packets[0]|..], limit);
      forall i | 0 <= i < |packets|
        ensures packets[i] != [] && WithinLimits(packets[i], limit)
      {
        if i > 0 {
          assert packets[i] == packets[1..][i - 1];
        }
      }
    }
  }

  /** The split of any legal item sequence: greedy, lossless and within every limit. */
  lemma SplitIsGreedyAndLossless(items: seq<Item>, limit: nat)
    requires RoomForOne(limit) && LegalSizes(items)
    ensures Greedy(Split(items, limit), items, limit)
    ensures Flatten(Split(items, limit)) == Frames(items)
    ensures forall packet :: packet in Split(items, limit) ==> packet != [] && WithinLimits(packet, limit)
  {
    CutIsGreedy([], items, limit);
    assert AsItems([]) + items == items;
    GreedyIsLossless(Split(items, limit), items, limit);
  }
}
