/**
 The viewport presentation stream: leaves are prepared by popping, children are
 streamed one at a time, and the frames and records sent must add up to what the
 offer declared before the first of them was known.
 */
module ViewportStream {
  import opened Engine

  const PARENT_FRAME_BYTES: nat := 144
  const DIRECTORY_HEADER_BYTES: nat := 12
  const DIRECTORY_ENTRY_BYTES: nat := 192
  const CHILD_HEADER_BYTES: nat := 28
  const END_FRAME_BYTES: nat := 52
  const META_RECORD_BYTES: nat := 48
  const MAXIMUM_FRAME_BYTES: nat := 5140

  /** A ready leaf: its row, how many nodes its encoder transfers, its envelope and descriptor sizes. */
  datatype Leaf = Leaf(row: nat, nodes: nat, envelopeBytes: nat, descriptorBytes: nat, rooted: bool)

  datatype Entry = Entry(index: nat, row: nat, nodes: nat)

  datatype Prepared = Prepared(leaf: Leaf, entry: Entry)

  /** What preparation declares: entry directory, children still to stream, and the totals. */
  datatype Plan = Plan(directory: seq<Entry>, pending: seq<Prepared>, nodes: nat, childBytes: nat)

  function EntryOf(leaves: seq<Leaf>, i: nat): Entry
    requires i < |leaves|
  {
    Entry(i, leaves[i].row, leaves[i].nodes)
  }

  function Nodes(leaves: seq<Leaf>): nat {
    if leaves == [] then 0 else Nodes(leaves[..|leaves| - 1]) + leaves[|leaves| - 1].nodes
  }

  /** The bytes charged for one child before its frames exist. */
  function ChildCharge(leaf: Leaf): nat {
    leaf.envelopeBytes + leaf.descriptorBytes + 3 * META_RECORD_BYTES
    + leaf.nodes * MAXIMUM_FRAME_BYTES + (leaf.nodes + 2) * CHILD_HEADER_BYTES
  }

  function Charges(leaves: seq<Leaf>): nat {
    if leaves == [] then 0 else Charges(leaves[..|leaves| - 1]) + ChildCharge(leaves[|leaves| - 1])
  }

  /** The frame count of the offer, declared before streaming starts. */
  function DeclaredFrames(p: Plan): nat {
    2 * |p.directory| + p.nodes + 3
  }

  function DirectoryBytes(p: Plan): nat {
    DIRECTORY_HEADER_BYTES + |p.directory| * DIRECTORY_ENTRY_BYTES
  }

  function DeclaredBytes(p: Plan): nat {
    p.childBytes + PARENT_FRAME_BYTES + DirectoryBytes(p) + END_FRAME_BYTES
  }

  /** The plan of a leaf list: directory in order, children stacked so that the first is popped first. */
  ghost predicate PlanOf(p: Plan, leaves: seq<Leaf>) {
    && |p.directory| == |leaves| && (forall i :: 0 <= i < |leaves| ==> p.directory[i] == EntryOf(leaves, i))
    && |p.pending| == |leaves|
    && (forall i :: 0 <= i < |leaves| ==> p.pending[|leaves| - 1 - i] == Prepared(leaves[i], EntryOf(leaves, i)))
    && p.nodes == Nodes(leaves) && p.childBytes == Charges(leaves)
  }

  /** The preparation loop pops leaves from the end, pushes entries, and reverses the directory once. */
  method Prepare(leaves: seq<Leaf>) returns (p: Plan)
    ensures PlanOf(p, leaves)
  {
    var rest := leaves;
    var directory: seq<Entry>, prepared: seq<Prepared> := [], [];
    var nodes, childBytes := 0, 0;
    while rest != []
      invariant |rest| <= |leaves| && rest == leaves[..|rest|]
      invariant |directory| == |prepared| == |leaves| - |rest|
      invariant forall i :: |rest| <= i < |leaves| ==> directory[|leaves| - 1 - i] == EntryOf(leaves, i)
      invariant forall i :: |rest| <= i < |leaves| ==> prepared[|leaves| - 1 - i] == Prepared(leaves[i], EntryOf(leaves, i))
      invariant nodes + Nodes(rest) == Nodes(leaves)
      invariant childBytes + Charges(rest) == Charges(leaves)
      decreases |rest|
    {
      var leaf := rest[|rest| - 1];
      rest := rest[..|rest| - 1];
      var entry := Entry(|rest|, leaf.row, leaf.nodes);
      nodes := nodes + leaf.nodes;
      childBytes := childBytes + ChildCharge(leaf);
      directory := directory + [entry];
      prepared := prepared + [Prepared(leaf, entry)];
    }
    var ordered := Reversed(directory);
    return Plan(ordered, prepared, nodes, childBytes);
  }

  function Reversed(entries: seq<Entry>): (r: seq<Entry>)
    ensures |r| == |entries| && forall i :: 0 <= i < |r| ==> r[i] == entries[|entries| - 1 - i]
  {
    if entries == [] then [] else Reversed(entries[1..]) + [entries[0]]
  }

  // ----------------------------------------------------------------------- streaming

  datatype FrameKind = Begin | Node | End

  /** One child frame on the wire: whose it is, its place within the child, its kind. */
  datatype ChildFrame = ChildFrame(child: nat, ordinal: nat, kind: FrameKind)

  datatype ActiveChild = ActiveChild(index: nat, leaf: Leaf, next: nat, nextNode: Option<nat>)

  datatype Stream = Stream(
    plan: Plan, pending: seq<Prepared>, active: Option<ActiveChild>, releasing: bool,
    nextFrame: nat, nextRecord: nat, bytes: nat, finished: bool, sent: seq<ChildFrame>)

  function Opened(p: Plan): Stream {
    Stream(p, p.pending, None, false, 0, 0, 0, false, [])
  }

  /** The encoder's next frame (kind, node ordinal, payload size), and whether a release finished. */
  datatype Reply = Reply(kind: FrameKind, node: Option<nat>, payload: nat, released: bool)

  datatype Step = Step(stream: Stream, outcome: Outcome<()>)

  /** `append_outer_frame`, which enforces the declared frame count and byte ceiling. */
  function AppendOuter(s: Stream, records: nat, bytes: nat): Step {
    if s.bytes + bytes > DeclaredBytes(s.plan) || s.nextFrame + 1 > DeclaredFrames(s.plan) then Step(s, Err(Overdrawn))
    else Step(s.(nextFrame := s.nextFrame + 1, nextRecord := s.nextRecord + records, bytes := s.bytes + bytes), Ok(()))
  }

  /** The next child must be the one the directory lists next. */
  function Activate(s: Stream): Step
    requires s.pending != []
  {
    var last := |s.pending| - 1;
    var prepared := s.pending[last];
    if |s.plan.directory| < last + 1 || prepared.entry.index != |s.plan.directory| - last - 1 then Step(s, Err(InvalidAuthority))
    else
      Step(s.(pending := s.pending[..last], active := Some(ActiveChild(prepared.entry.index, prepared.leaf, 0, None))), Ok(()))
  }

  /** `append_child_frame`. */
  function AppendChild(s: Stream, c: ActiveChild, reply: Reply): Step {
    if reply.kind.Begin? != (c.next == 0) || reply.payload == 0 || reply.payload > MAXIMUM_FRAME_BYTES then Step(s, Err(InvalidState))
    else if (if reply.kind.Node? then reply.node.None? || (c.nextNode.Some? && reply.node != c.nextNode) else reply.node.Some?) then
      Step(s, Err(InvalidState))
    else
      var appended := AppendOuter(s, if reply.kind.Node? then 1 else 0, CHILD_HEADER_BYTES + reply.payload);
      if appended.outcome.Err? then appended
      else
        var c' := c.(next := c.next + 1, nextNode := if reply.kind.Node? then Some(reply.node.value + 1) else c.nextNode);
        var s' := appended.stream.(active := Some(c'), sent := s.sent + [ChildFrame(c.index, c.next, reply.kind)]);
        if !reply.kind.End? then Step(s', Ok(()))
        else if c.index >= |s.plan.directory| || c'.next != s.plan.directory[c.index].nodes + 2 then Step(s', Err(InvalidAuthority))
        else Step(s'.(active := None, releasing := c.leaf.rooted), Ok(()))
  }

  /** The End frame, and the equalities it must meet. */
  function Finish(s: Stream): Step {
    var appended := AppendOuter(s, 0, END_FRAME_BYTES);
    if appended.outcome.Err? then appended
    else
      var s' := appended.stream;
      if s'.nextRecord != |s.plan.directory| + s.plan.nodes || s'.nextFrame != DeclaredFrames(s.plan)
         || s'.active.Some? || s'.pending != [] || s'.releasing
      then Step(s', Err(InvalidAuthority))
      else Step(s'.(finished := true), Ok(()))
  }

  /** One append, activation or release of the stream loop. */
  function Advance(s: Stream, reply: Reply): Step {
    if s.finished then Step(s, Ok(()))
    else if s.nextFrame == 0 then AppendOuter(s, 0, PARENT_FRAME_BYTES)
    else if s.nextFrame == 1 then AppendOuter(s, |s.plan.directory|, DirectoryBytes(s.plan))
    else if s.releasing then Step(s.(releasing := !reply.released), Ok(()))
    else if s.active.Some? then AppendChild(s, s.active.value, reply)
    else if s.pending != [] then Activate(s)
    else Finish(s)
  }

  function Run(s: Stream, replies: seq<Reply>): Step
    decreases |replies|
  {
    if replies == [] then Step(s, Ok(()))
    else
      var step := Advance(s, replies[0]);
      if step.outcome.Err? then step else Run(step.stream, replies[1..])
  }
}
