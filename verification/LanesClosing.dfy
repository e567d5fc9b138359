/**
 Draining the inline lanes: a measure of the release work the lanes still owe,
 which cancelling never raises and every drain turn strictly lowers.
 */
module LanesClosing {
  import opened Engine
  import opened Lanes
  import opened LanesTheorems

  function HotDebt(h: HotState): nat {
    match h
    case Awaiting(_) => 0
    case Running(_, _, job, _) => job.work + 2
    case Ready(_, _, root, _) => if root.Some? then root.value.work + 2 else 0
    case Cancelling(job, begun, _) => job.work + (if begun then 1 else 2)
    case Releasing(root, begun, _) => root.work + (if begun then 1 else 2)
  }

  function LeafDebt(leaf: Option<Resource>): nat {
    if leaf.Some? then leaf.value.work + 3 else 1
  }

  function LeavesDebt(leaves: seq<Option<Resource>>): nat
    decreases |leaves|
  {
    if leaves == [] then 0 else LeavesDebt(leaves[..|leaves| - 1]) + LeafDebt(leaves[|leaves| - 1])
  }

  function DrainDebt(c: ViewCleanup): nat {
    (if c.job.Some? then c.job.value.work + (if c.abortBegun then 1 else 2) else 0)
    + (if c.releasing.Some? then c.releasing.value.root.work + (if c.releasing.value.begun then 1 else 2) else 0)
    + (if c.child.Some? then LeafDebt(c.child.value) else 0)
    + LeavesDebt(c.prepared) + LeavesDebt(c.ready) + 1
  }

  function LaneDebt(l: Lanes): nat {
    (if l.viewport.Some? then DrainDebt(IntoCleanup(l.viewport.value)) else 0)
    + (if l.hot.Some? then HotDebt(l.hot.value) else 0)
    + (if l.sidecar.Some? && l.sidecar.value.root.Some? then l.sidecar.value.root.value.work + 2 else 0)
  }

  lemma CancelAllAddsNoDebt(l: Lanes)
    requires Inv(l)
    ensures LaneDebt(CancelAll(l)) <= LaneDebt(l)
  {
  }

  lemma {:induction false} PopDebt(leaves: seq<Option<Resource>>, left: nat)
    ensures var p := PopLeaves(leaves, left);
      LeavesDebt(p.rest) + p.spent + (if p.root.Some? then p.root.value.work + 3 else 0) == LeavesDebt(leaves)
    decreases |leaves|
  {
    if left != 0 && leaves != [] && leaves[|leaves| - 1].None? {
      PopDebt(leaves[..|leaves| - 1], left - 1);
    }
  }

  lemma ReadyPaysDebt(l: Lanes, c: ViewCleanup, left: nat, spent: nat, reply: ViewReply)
    requires c.job.None? && c.releasing.None? && c.child.None? && c.replacement.None?
    requires l.hot.None? && l.sidecar.None? && spent <= left
    ensures var t := DrainReady(l, c, left, spent, reply);
      t.failure.None? ==> && Quiet(t.lanes)
                          && LaneDebt(t.lanes) <= DrainDebt(c)
                          && (spent < left ==> LaneDebt(t.lanes) < DrainDebt(c))
  {
    PopDebt(c.ready, left - spent);
    PopHolds(c.ready, left - spent, 0);
  }

  lemma PoppingPaysDebt(l: Lanes, c: ViewCleanup, left: nat, spent: nat, reply: ViewReply)
    requires c.job.None? && c.releasing.None? && c.child.None? && c.replacement.None?
    requires l.hot.None? && l.sidecar.None? && spent <= left
    ensures var t := DrainPrepared(l, c, left, spent, reply);
      t.failure.None? ==> && Quiet(t.lanes)
                          && LaneDebt(t.lanes) <= DrainDebt(c)
                          && (spent < left ==> LaneDebt(t.lanes) < DrainDebt(c))
  {
    hide DrainReady;
    var p := PopLeaves(c.prepared, left - spent);
    PopDebt(c.prepared, left - spent);
    PopHolds(c.prepared, left - spent, 0);
    if p.root.None? {
      ReadyPaysDebt(l, c.(prepared := p.rest), left, spent + p.spent, reply);
    }
  }

  lemma ChildPaysDebt(l: Lanes, c: ViewCleanup, left: nat, spent: nat, reply: ViewReply)
    requires c.job.None? && c.releasing.None? && c.replacement.None?
    requires l.hot.None? && l.sidecar.None? && spent + Bit(c.child.Some?) <= left
    ensures var t := DrainChild(l, c, left, spent, reply);
      t.failure.None? ==> && Quiet(t.lanes)
                          && LaneDebt(t.lanes) <= DrainDebt(c)
                          && (spent < left ==> LaneDebt(t.lanes) < DrainDebt(c))
  {
    hide DrainPrepared;
    if c.child.None? {
      PoppingPaysDebt(l, c, left, spent, reply);
    } else if c.child.value.None? {
      PoppingPaysDebt(l, c.(child := None), left, spent + 1, reply);
    }
  }

  lemma ReleasePaysDebt(l: Lanes, c: ViewCleanup, left: nat, spent: nat, reply: ViewReply)
    requires c.job.None? && c.replacement.None? && OneOwner(c) && LegalAbort(c, left, reply)
    requires l.hot.None? && l.sidecar.None? && left > 0
    requires spent <= left && (c.releasing.Some? || c.child.Some? ==> spent == 0)
    ensures var t := DrainRelease(l, c, left, spent, reply);
      t.failure.None? ==> && Quiet(t.lanes)
                          && LaneDebt(t.lanes) <= DrainDebt(c)
                          && (spent < left ==> LaneDebt(t.lanes) < DrainDebt(c))
  {
    hide DrainChild;
    if c.releasing.None? {
      ChildPaysDebt(l, c, left, spent, reply);
    } else {
      var r := c.releasing.value;
      if reply.release.Progress? && WorkLeft(r.root, reply.release) == 0 && (r.begun || left > 1) {
        ChildPaysDebt(l.(released := l.released + multiset{r.root.id}), c.(releasing := None), left,
                      Bit(!r.begun) + reply.release.spent, reply);
      }
    }
  }

  /** Every successful drain turn of the viewport lane strictly pays its debt. */
  lemma ViewTurnPaysDebt(l: Lanes, left: nat, hasBase: bool, reply: ViewReply)
    requires Inv(l) && Quiet(l) && l.viewport.Some? && left > 0 && LegalView(l.viewport.value, left, reply)
    ensures var t := ViewTurn(l, left, hasBase, reply);
      t.failure.None? ==> Quiet(t.lanes) && LaneDebt(t.lanes) < LaneDebt(l)
  {
    hide DrainRelease;
    var c := l.viewport.value.cleanup;
    if c.job.None? {
      ReleasePaysDebt(l, c, left, 0, reply);
    } else if reply.abort.Progress? && WorkLeft(c.job.value, reply.abort) == 0 && (c.abortBegun || left > 1) {
      ReleasePaysDebt(l.(released := l.released + multiset{c.job.value.id}), c.(job := None, abortBegun := false),
                      left, Bit(!c.abortBegun) + reply.abort.spent, reply);
    }
  }

  /** Every successful drain turn of the hot lane strictly pays its debt. */
  lemma HotTurnPaysDebt(l: Lanes, left: nat, hasBase: bool, reply: HotReply)
    requires Inv(l) && Quiet(l) && l.hot.Some? && left > 0 && LegalHot(l.hot.value, left, reply)
    ensures var t := HotTurn(l, left, hasBase, reply);
      t.failure.None? ==> Quiet(t.lanes) && LaneDebt(t.lanes) < LaneDebt(l)
  {
  }

  lemma {:induction false} ViewLoopPaysDebt(l: Lanes, fuel: nat, hasBase: bool, replies: seq<ViewReply>)
    requires Inv(l) && Quiet(l) && fuel > 0 && LegalViewLoop(l, fuel, hasBase, replies)
    ensures var s := ViewLoop(l, fuel, hasBase, replies);
      s.outcome.Ok? ==> && Quiet(s.lanes) && LaneDebt(s.lanes) <= LaneDebt(l)
                        && (l.viewport.Some? && replies != [] ==> LaneDebt(s.lanes) < LaneDebt(l))
    decreases |replies|
  {
    hide ViewTurn, LegalView, Inv, Quiet, LaneDebt, MintedView;
    if replies != [] {
      var t := ViewTurn(l, fuel, hasBase, replies[0]);
      QuietViewTurn(l, fuel, hasBase, replies[0]);
      if t.failure.None? && t.again && t.spent < fuel {
        ViewLoopPaysDebt(t.lanes, fuel - t.spent, hasBase, replies[1..]);
      }
    }
  }

  lemma QuietViewTurn(l: Lanes, left: nat, hasBase: bool, reply: ViewReply)
    requires Inv(l) && Quiet(l) && left > 0
    requires l.viewport.Some? ==> LegalView(l.viewport.value, left, reply)
    ensures var t := ViewTurn(l, left, hasBase, reply);
      && Inv(t.lanes)
      && (t.failure.None? ==> && Quiet(t.lanes) && LaneDebt(t.lanes) <= LaneDebt(l)
                              && (l.viewport.Some? ==> LaneDebt(t.lanes) < LaneDebt(l)))
  {
    hide LegalView, LaneDebt;
    if l.viewport.Some? {
      ViewTurnPaysDebt(l, left, hasBase, reply);
    }
    ViewTurnGood(l, left, hasBase, reply, 0);
  }

  lemma QuietHotTurn(l: Lanes, left: nat, hasBase: bool, reply: HotReply)
    requires Inv(l) && Quiet(l) && left > 0
    requires l.hot.Some? ==> LegalHot(l.hot.value, left, reply)
    ensures var t := HotTurn(l, left, hasBase, reply);
      && Inv(t.lanes)
      && (t.failure.None? ==> && Quiet(t.lanes) && LaneDebt(t.lanes) <= LaneDebt(l)
                              && (l.hot.Some? ==> LaneDebt(t.lanes) < LaneDebt(l)))
  {
    hide LegalHot, LaneDebt;
    if l.hot.Some? {
      HotTurnPaysDebt(l, left, hasBase, reply);
    }
    HotTurnGood(l, left, hasBase, reply, 0);
  }

  lemma {:induction false} HotLoopPaysDebt(l: Lanes, fuel: nat, hasBase: bool, replies: seq<HotReply>)
    requires Inv(l) && Quiet(l) && fuel > 0 && LegalHotLoop(l, fuel, hasBase, replies)
    ensures var s := PollHot(l, fuel, hasBase, replies);
      s.outcome.Ok? ==> && Quiet(s.lanes) && LaneDebt(s.lanes) <= LaneDebt(l)
                        && (l.hot.Some? && replies != [] ==> LaneDebt(s.lanes) < LaneDebt(l))
    decreases |replies|
  {
    hide HotTurn, LegalHot, Inv, Quiet, LaneDebt, MintedJob;
    if replies != [] {
      var t := HotTurn(l, fuel, hasBase, replies[0]);
      QuietHotTurn(l, fuel, hasBase, replies[0]);
      if t.failure.None? && t.again && t.spent < fuel {
        HotLoopPaysDebt(t.lanes, fuel - t.spent, hasBase, replies[1..]);
      }
    }
  }
}
