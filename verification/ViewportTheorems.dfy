/**
 Every legal run of a viewport stream sends the children in directory order and
 meets, at its End frame, exactly the counts declared in the offer.
 */
module ViewportTheorems {
  import opened Engine
  import opened ViewportStream

  /** The frames of one child: Begin, its nodes, End. */
  function ChildFrames(child: nat, nodes: nat): (fs: seq<ChildFrame>)
    ensures |fs| == nodes + 2
  {
    seq(nodes + 2, k requires 0 <= k < nodes + 2 =>
          ChildFrame(child, k, if k == 0 then Begin else if k <= nodes then Node else End))
  }

  /** All child frames of a leaf list, in directory order. */
  function AllFrames(leaves: seq<Leaf>): seq<ChildFrame> {
    if leaves == [] then []
    else AllFrames(leaves[..|leaves| - 1]) + ChildFrames(|leaves| - 1, leaves[|leaves| - 1].nodes)
  }

  lemma {:induction false} AllFramesLength(leaves: seq<Leaf>)
    ensures |AllFrames(leaves)| == 2 * |leaves| + Nodes(leaves)
  {
    if leaves != [] {
      AllFramesLength(leaves[..|leaves| - 1]);
    }
  }

  lemma {:induction false} PrefixSums(leaves: seq<Leaf>, n: nat)
    requires n <= |leaves|
    ensures Nodes(leaves[..n]) <= Nodes(leaves) && Charges(leaves[..n]) <= Charges(leaves)
    decreases |leaves|
  {
    if n == |leaves| {
      assert leaves[..n] == leaves;
    } else {
      PrefixSums(leaves[..|leaves| - 1], n);
      assert leaves[..|leaves| - 1][..n] == leaves[..n];
    }
  }

  lemma NextPrefix(leaves: seq<Leaf>, n: nat)
    requires n < |leaves|
    ensures AllFrames(leaves[..n + 1]) == AllFrames(leaves[..n]) + ChildFrames(n, leaves[n].nodes)
    ensures Nodes(leaves[..n + 1]) == Nodes(leaves[..n]) + leaves[n].nodes
    ensures Charges(leaves[..n + 1]) == Charges(leaves[..n]) + ChildCharge(leaves[n])
  {
    assert leaves[..n + 1][..n] == leaves[..n];
  }

  // ------------------------------------------------------------------------ contract

  /** Begin and End payloads of a child fit what was charged for its envelope and descriptor. */
  predicate LegalChild(leaf: Leaf, edges: nat) {
    edges <= leaf.envelopeBytes + leaf.descriptorBytes + 3 * META_RECORD_BYTES
  }

  /**
   The encoder's contract: Begin, its nodes in order, End, with legal sizes;
   `edges` is the payload of the child's Begin and End frames sent so far.
   */
  predicate LegalReply(s: Stream, edges: nat, reply: Reply) {
    s.active.Some? ==>
      var c := s.active.value;
      && reply.kind == (if c.next == 0 then Begin else if c.next <= c.leaf.nodes then Node else End)
      && 0 < reply.payload <= MAXIMUM_FRAME_BYTES
      && (reply.kind.Node? ==> reply.node.Some? && (c.nextNode.Some? ==> reply.node == c.nextNode))
      && (!reply.kind.Node? ==> reply.node.None? && LegalChild(c.leaf, edges + reply.payload))
  }

  function EdgesAfter(s: Stream, edges: nat, reply: Reply): nat {
    if s.finished || s.nextFrame < 2 || s.releasing || s.active.None? then 0
    else if reply.kind.Node? then edges
    else edges + reply.payload
  }

  predicate LegalRun(s: Stream, edges: nat, replies: seq<Reply>)
    decreases |replies|
  {
    replies == [] ||
    (&& (s.nextFrame >= 2 && !s.releasing && !s.finished ==> LegalReply(s, edges, replies[0]))
     && LegalRun(Advance(s, replies[0]).stream,
                 if s.nextFrame >= 2 && !s.releasing && !s.finished && s.active.Some? && !replies[0].kind.End?
                 then EdgesAfter(s, edges, replies[0]) else 0, replies[1..]))
  }

  // ----------------------------------------------------------------------- invariant

  /** Children finished so far. */
  function DoneChildren(s: Stream, leaves: seq<Leaf>): int {
    |leaves| - |s.pending| - (if s.active.Some? then 1 else 0)
  }

  predicate Unchanged(p: Plan, pending: seq<Prepared>) {
    |pending| <= |p.pending| && pending == p.pending[..|pending|]
  }

  /** The active child's frames so far, and the bytes they may have cost. */
  predicate ActiveInv(s: Stream, leaves: seq<Leaf>, edges: nat, done: nat)
    requires done <= |leaves|
  {
    if s.active.None? then
      && s.sent == AllFrames(leaves[..done])
      && s.nextRecord == (if s.nextFrame < 2 then 0 else |leaves| + Nodes(leaves[..done]))
      && s.bytes <= OuterBytes(s) + Charges(leaves[..done])
    else
      var c := s.active.value;
      && done < |leaves| && c.index == done && c.leaf == leaves[done] && c.next <= c.leaf.nodes + 1 && !s.releasing
      && s.sent == AllFrames(leaves[..done]) + ChildFrames(done, c.leaf.nodes)[..c.next]
      && s.nextRecord == |leaves| + Nodes(leaves[..done]) + (if c.next == 0 then 0 else c.next - 1)
      && s.bytes <= OuterBytes(s) + Charges(leaves[..done]) + edges
                    + (if c.next == 0 then 0 else c.next - 1) * MAXIMUM_FRAME_BYTES + c.next * CHILD_HEADER_BYTES
      && (c.next == 0 ==> edges == 0) && LegalChild(c.leaf, edges)
  }

  function OuterBytes(s: Stream): nat {
    (if s.nextFrame > 0 then PARENT_FRAME_BYTES else 0) + (if s.nextFrame > 1 then DirectoryBytes(s.plan) else 0)
  }

  ghost predicate Inv(s: Stream, leaves: seq<Leaf>, edges: nat) {
    && PlanOf(s.plan, leaves) && !s.finished && Unchanged(s.plan, s.pending)
    && 0 <= DoneChildren(s, leaves)
    && ActiveInv(s, leaves, edges, DoneChildren(s, leaves))
    && (s.nextFrame < 2 ==> s.sent == [] && s.pending == s.plan.pending && s.active.None? && !s.releasing)
    && (s.nextFrame >= 2 ==> s.nextFrame == 2 + |s.sent|)
  }

  lemma OpenedInv(p: Plan, leaves: seq<Leaf>)
    requires PlanOf(p, leaves)
    ensures Inv(Opened(p), leaves, 0)
  {
    assert leaves[..0] == [];
  }

  /** What has been declared leaves room for what is still to come. */
  lemma RoomLeft(s: Stream, leaves: seq<Leaf>, edges: nat)
    requires Inv(s, leaves, edges) && s.nextFrame >= 2
    ensures s.active.Some? ==>
      && s.nextFrame + 1 <= DeclaredFrames(s.plan)
      && s.bytes <= PARENT_FRAME_BYTES + DirectoryBytes(s.plan) + Charges(leaves[..DoneChildren(s, leaves)]) + edges
                    + (if s.active.value.next == 0 then 0 else s.active.value.next - 1) * MAXIMUM_FRAME_BYTES
                    + s.active.value.next * CHILD_HEADER_BYTES
      && Charges(leaves[..DoneChildren(s, leaves)]) + ChildCharge(s.active.value.leaf) <= Charges(leaves)
    ensures s.active.None? && s.pending == [] ==>
      && s.nextFrame + 1 == DeclaredFrames(s.plan) && s.bytes + END_FRAME_BYTES <= DeclaredBytes(s.plan)
      && s.sent == AllFrames(leaves) && s.nextRecord == |leaves| + Nodes(leaves)
  {
    var done := DoneChildren(s, leaves);
    AllFramesLength(leaves[..done]);
    PrefixSums(leaves, done);
    if s.active.Some? {
      NextPrefix(leaves, done);
      PrefixSums(leaves, done + 1);
    } else if s.pending == [] {
      assert leaves[..done] == leaves;
    }
  }

  lemma OuterKeeps(s: Stream, leaves: seq<Leaf>, reply: Reply)
    requires Inv(s, leaves, 0) && s.nextFrame < 2
    ensures var step := Advance(s, reply); step.outcome.Ok? && Inv(step.stream, leaves, 0)
  {
    assert leaves[..0] == [];
    assert DoneChildren(s, leaves) == 0;
  }

  lemma ActivateKeeps(s: Stream, leaves: seq<Leaf>)
    requires Inv(s, leaves, 0) && s.nextFrame >= 2 && !s.releasing && s.active.None? && s.pending != []
    ensures Activate(s).outcome.Ok? && Inv(Activate(s).stream, leaves, 0)
  {
    var done := DoneChildren(s, leaves);
    var last := |s.pending| - 1;
    assert s.pending[last] == s.plan.pending[|leaves| - 1 - done];
    assert s.plan.pending[|leaves| - 1 - done] == Prepared(leaves[done], EntryOf(leaves, done));
    var s' := Activate(s).stream;
    assert s'.pending == s.plan.pending[..last];
    assert ChildFrames(done, leaves[done].nodes)[..0] == [];
    assert s'.sent == AllFrames(leaves[..done]) + [];
  }

  /** One more frame of the active child, short of its End. */
  lemma ChildGrows(s: Stream, leaves: seq<Leaf>, edges: nat, reply: Reply)
    requires Inv(s, leaves, edges) && s.nextFrame >= 2 && s.active.Some? && LegalReply(s, edges, reply) && !reply.kind.End?
    ensures var step := AppendChild(s, s.active.value, reply);
      step.outcome.Ok? && Inv(step.stream, leaves, EdgesAfter(s, edges, reply))
  {
    RoomLeft(s, leaves, edges);
    var c := s.active.value;
    var done := DoneChildren(s, leaves);
    var all := ChildFrames(done, c.leaf.nodes);
    assert all[..c.next + 1] == all[..c.next] + [all[c.next]];
    var s' := AppendChild(s, c, reply).stream;
    assert s'.sent == AllFrames(leaves[..done]) + all[..c.next + 1];
  }

  lemma ChildEnds(s: Stream, leaves: seq<Leaf>, edges: nat, reply: Reply)
    requires Inv(s, leaves, edges) && s.nextFrame >= 2 && s.active.Some? && LegalReply(s, edges, reply) && reply.kind.End?
    ensures var step := AppendChild(s, s.active.value, reply); step.outcome.Ok? && Inv(step.stream, leaves, 0)
  {
    RoomLeft(s, leaves, edges);
    var c := s.active.value;
    var done := DoneChildren(s, leaves);
    NextPrefix(leaves, done);
    var all := ChildFrames(done, c.leaf.nodes);
    assert all[..c.next] + [all[c.next]] == all;
    hide AllFrames, Nodes, Charges, ChildFrames;
    var s' := AppendChild(s, c, reply).stream;
    assert s'.sent == AllFrames(leaves[..done]) + all;
  }

  lemma FinishSucceeds(s: Stream, leaves: seq<Leaf>)
    requires Inv(s, leaves, 0) && s.nextFrame >= 2 && !s.releasing && s.active.None? && s.pending == []
    ensures var step := Finish(s);
      && step.outcome.Ok? && step.stream.finished && step.stream.sent == AllFrames(leaves)
      && step.stream.nextFrame == 2 * |leaves| + Nodes(leaves) + 3
      && step.stream.nextRecord == |leaves| + Nodes(leaves)
  {
    RoomLeft(s, leaves, 0);
    AllFramesLength(leaves);
  }

  lemma ReleasingKeeps(s: Stream, leaves: seq<Leaf>, reply: Reply)
    requires Inv(s, leaves, 0) && s.nextFrame >= 2 && s.releasing
    ensures Inv(Advance(s, reply).stream, leaves, 0) && Advance(s, reply).outcome.Ok?
  {
  }

  /** A stream that has finished: everything sent, in order, and counted. */
  predicate Complete(s: Stream, leaves: seq<Leaf>) {
    && s.finished && s.sent == AllFrames(leaves)
    && s.nextFrame == 2 * |leaves| + Nodes(leaves) + 3 && s.nextRecord == |leaves| + Nodes(leaves)
  }

  lemma {:induction false} RunAccounts(s: Stream, leaves: seq<Leaf>, edges: nat, replies: seq<Reply>)
    requires Complete(s, leaves) || (Inv(s, leaves, edges) && (s.active.None? ==> edges == 0))
    requires LegalRun(s, edges, replies)
    ensures var r := Run(s, replies);
      r.outcome.Ok? && (Complete(r.stream, leaves) || exists e: nat :: Inv(r.stream, leaves, e))
    decreases |replies|
  {
    hide Inv, AppendChild, Activate, Finish, LegalReply;
    if replies != [] && !s.finished {
      InvOpen(s, leaves, edges);
      var step := Advance(s, replies[0]);
      if s.nextFrame < 2 {
        OuterKeeps(s, leaves, replies[0]);
        InvOpen(step.stream, leaves, 0);
        RunAccounts(step.stream, leaves, 0, replies[1..]);
      } else if s.releasing {
        ReleasingKeeps(s, leaves, replies[0]);
        RunAccounts(step.stream, leaves, 0, replies[1..]);
      } else if s.active.Some? {
        if replies[0].kind.End? {
          ChildEnds(s, leaves, edges, replies[0]);
          RunAccounts(step.stream, leaves, 0, replies[1..]);
        } else {
          ChildGrows(s, leaves, edges, replies[0]);
          ChildStays(s, replies[0]);
          RunAccounts(step.stream, leaves, EdgesAfter(s, edges, replies[0]), replies[1..]);
        }
      } else if s.pending != [] {
        ActivateKeeps(s, leaves);
        RunAccounts(step.stream, leaves, 0, replies[1..]);
      } else {
        FinishSucceeds(s, leaves);
        RunAccounts(step.stream, leaves, 0, replies[1..]);
      }
    } else if replies != [] {
      if !Complete(s, leaves) {
        InvOpen(s, leaves, edges);
      }
      RunAccounts(s, leaves, 0, replies[1..]);
    }
  }

  lemma InvOpen(s: Stream, leaves: seq<Leaf>, edges: nat)
    requires Inv(s, leaves, edges)
    ensures !s.finished && (s.nextFrame < 2 ==> s.active.None? && !s.releasing) && (s.releasing ==> s.active.None?)
  {
  }

  lemma ChildStays(s: Stream, reply: Reply)
    requires s.active.Some? && !reply.kind.End?
    ensures AppendChild(s, s.active.value, reply).stream.active.Some?
  {
  }

  /**
   Viewport accounting, for any list of leaves: streaming never fails, sends the
   children in directory order despite the two reversals, and when it finishes it
   has sent `2 * leaves + nodes + 3` frames and `leaves + nodes` records, as declared.
   */
  lemma StreamMeetsItsOffer(p: Plan, leaves: seq<Leaf>, replies: seq<Reply>)
    requires PlanOf(p, leaves) && LegalRun(Opened(p), 0, replies)
    ensures var r := Run(Opened(p), replies);
      && r.outcome.Ok?
      && r.stream.sent <= AllFrames(leaves)
      && (r.stream.finished ==>
            && r.stream.sent == AllFrames(leaves)
            && r.stream.nextFrame == DeclaredFrames(p) == 2 * |leaves| + Nodes(leaves) + 3
            && r.stream.nextRecord == |leaves| + Nodes(leaves))
  {
    hide LegalRun, Run, Inv;
    OpenedInv(p, leaves);
    RunAccounts(Opened(p), leaves, 0, replies);
    var s := Run(Opened(p), replies).stream;
    if !Complete(s, leaves) {
      var e: nat :| Inv(s, leaves, e);
      InvOpen(s, leaves, e);
      SentIsPrefix(s, leaves, e);
    }
  }

  lemma {:induction false} FramesPrefix(leaves: seq<Leaf>, n: nat)
    requires n <= |leaves|
    ensures AllFrames(leaves[..n]) <= AllFrames(leaves)
    decreases |leaves|
  {
    if n == |leaves| {
      assert leaves[..n] == leaves;
    } else {
      FramesPrefix(leaves[..|leaves| - 1], n);
      assert leaves[..|leaves| - 1][..n] == leaves[..n];
    }
  }

  lemma SentIsPrefix(s: Stream, leaves: seq<Leaf>, edges: nat)
    requires Inv(s, leaves, edges)
    ensures s.sent <= AllFrames(leaves)
  {
    var done := DoneChildren(s, leaves);
    FramesPrefix(leaves, done);
    if s.active.Some? {
      NextPrefix(leaves, done);
      FramesPrefix(leaves, done + 1);
    }
  }
}
