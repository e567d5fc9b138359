/**
 The viewport presentation stream as an object: ordinals, active child and
 releasing root updated in place by its loop.
 */
module ViewportObject {
  import opened Engine
  import opened ViewportStream

  class StreamingViewportPresentation {
    const plan: Plan
    var pending: seq<Prepared>
    var active: Option<ActiveChild>
    var releasing: bool
    var nextFrame: nat
    var nextRecord: nat
    var bytes: nat
    var finished: bool
    ghost var sent: seq<ChildFrame>

    ghost function View(): Stream
      reads this
    {
      Stream(plan, pending, active, releasing, nextFrame, nextRecord, bytes, finished, sent)
    }

    constructor (plan: Plan)
      ensures View() == Opened(plan)
    {
      this.plan, pending := plan, plan.pending;
      active, releasing, finished := None, false, false;
      nextFrame, nextRecord, bytes, sent := 0, 0, 0, [];
    }

    method AppendOuterFrame(records: nat, size: nat) returns (r: Outcome<()>)
      modifies this`nextFrame, this`nextRecord, this`bytes
      ensures Step(View(), r) == AppendOuter(old(View()), records, size)
    {
      if bytes + size > DeclaredBytes(plan) || nextFrame + 1 > DeclaredFrames(plan) {
        return Err(Overdrawn);
      }
      nextFrame, nextRecord, bytes := nextFrame + 1, nextRecord + records, bytes + size;
      return Ok(());
    }

    method ActivateNext() returns (r: Outcome<()>)
      requires pending != []
      modifies this`pending, this`active
      ensures Step(View(), r) == Activate(old(View()))
    {
      var last := |pending| - 1;
      var prepared := pending[last];
      if |plan.directory| < last + 1 || prepared.entry.index != |plan.directory| - last - 1 {
        return Err(InvalidAuthority);
      }
      pending := pending[..last];
      active := Some(ActiveChild(prepared.entry.index, prepared.leaf, 0, None));
      return Ok(());
    }

    method AppendChildFrame(reply: Reply) returns (r: Outcome<()>)
      requires active.Some?
      modifies this
      ensures Step(View(), r) == AppendChild(old(View()), old(active.value), reply)
    {
      var c := active.value;
      if reply.kind.Begin? != (c.next == 0) || reply.payload == 0 || reply.payload > MAXIMUM_FRAME_BYTES {
        return Err(InvalidState);
      }
      if reply.kind.Node? {
        if reply.node.None? || (c.nextNode.Some? && reply.node != c.nextNode) {
          return Err(InvalidState);
        }
      } else if reply.node.Some? {
        return Err(InvalidState);
      }
      r := AppendOuterFrame(if reply.kind.Node? then 1 else 0, CHILD_HEADER_BYTES + reply.payload);
      if r.Err? {
        return;
      }
      sent := sent + [ChildFrame(c.index, c.next, reply.kind)];
      c := c.(next := c.next + 1, nextNode := if reply.kind.Node? then Some(reply.node.value + 1) else c.nextNode);
      active := Some(c);
      if reply.kind.End? {
        if c.index >= |plan.directory| || c.next != plan.directory[c.index].nodes + 2 {
          return Err(InvalidAuthority);
        }
        active := None;
        releasing := c.leaf.rooted;
      }
      return Ok(());
    }

    method FinishStream() returns (r: Outcome<()>)
      modifies this
      ensures Step(View(), r) == Finish(old(View()))
    {
      r := AppendOuterFrame(0, END_FRAME_BYTES);
      if r.Err? {
        return;
      }
      if nextRecord != |plan.directory| + plan.nodes || nextFrame != DeclaredFrames(plan)
         || active.Some? || pending != [] || releasing
      {
        return Err(InvalidAuthority);
      }
      finished := true;
      return Ok(());
    }

    /** The stream loop over the encoder's answers; it stops at the first failure. */
    method SendAll(replies: seq<Reply>) returns (r: Outcome<()>)
      modifies this
      ensures Step(View(), r) == Run(old(View()), replies)
    {
      hide AppendChild, Activate, Finish;
      var i := 0;
      while i < |replies|
        invariant i <= |replies| && Run(old(View()), replies) == Run(View(), replies[i..])
      {
        var reply := replies[i];
        assert replies[i..][0] == reply && replies[i..][1..] == replies[i + 1..];
        r := Ok(());
        if finished {
        } else if nextFrame == 0 {
          r := AppendOuterFrame(0, PARENT_FRAME_BYTES);
        } else if nextFrame == 1 {
          r := AppendOuterFrame(|plan.directory|, DirectoryBytes(plan));
        } else if releasing {
          releasing := !reply.released;
        } else if active.Some? {
          r := AppendChildFrame(reply);
        } else if pending != [] {
          r := ActivateNext();
        } else {
          r := FinishStream();
        }
        if r.Err? {
          return;
        }
        i := i + 1;
      }
      return Ok(());
    }
  }
}
