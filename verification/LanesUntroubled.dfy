/**
 Draining quiet lanes with an engine that reports no error never fails: the
 defensive branches are dead, so every drain turn and every drain poll succeeds.
 */
module LanesUntroubled {
  import opened Engine
  import opened Lanes
  import opened LanesTheorems
  import opened LanesClosing

  /** No abort and no release fails. */
  predicate ViewUntroubled(reply: ViewReply) {
    reply.abort.Progress? && reply.release.Progress?
  }

  predicate HotUntroubled(reply: HotReply) {
    reply.HotReply? && reply.release.Progress?
  }

  /** Without an engine error a drain turn could only fail defensively. */
  predicate OnlyDefensive(t: Turn) {
    t.failure.Some? ==> t.failure.value != EngineFailure && t.failure.value != InvalidAuthority
  }

  lemma ChildOnlyDefensive(l: Lanes, c: ViewCleanup, left: nat, spent: nat, reply: ViewReply)
    requires c.replacement.None?
    ensures OnlyDefensive(DrainChild(l, c, left, spent, reply))
  {
    hide PopLeaves;
  }

  lemma ReleaseOnlyDefensive(l: Lanes, c: ViewCleanup, left: nat, spent: nat, reply: ViewReply)
    requires c.replacement.None? && ViewUntroubled(reply)
    ensures OnlyDefensive(DrainRelease(l, c, left, spent, reply))
  {
    hide DrainChild;
    ChildOnlyDefensive(l, c, left, spent, reply);
    if c.releasing.Some? && reply.release.Progress? {
      var r := c.releasing.value;
      ChildOnlyDefensive(l.(released := l.released + multiset{r.root.id}), c.(releasing := None), left,
                         spent + (if r.begun then 0 else 1) + reply.release.spent, reply);
    }
  }

  /** A drain turn of the viewport lane succeeds. */
  lemma QuietViewTurnSucceeds(l: Lanes, left: nat, hasBase: bool, reply: ViewReply)
    requires Inv(l) && Quiet(l) && left > 0 && ViewUntroubled(reply)
    requires l.viewport.Some? ==> LegalView(l.viewport.value, left, reply)
    ensures ViewTurn(l, left, hasBase, reply).failure.None?
  {
    hide DrainRelease, LegalView;
    ViewTurnGood(l, left, hasBase, reply, 0);
    if l.viewport.Some? {
      var c := l.viewport.value.cleanup;
      ReleaseOnlyDefensive(l, c, left, 0, reply);
      if c.job.Some? && reply.abort.Progress? {
        ReleaseOnlyDefensive(l.(released := l.released + multiset{c.job.value.id}), c.(job := None, abortBegun := false), left,
                             (if c.abortBegun then 0 else 1) + reply.abort.spent, reply);
      }
    }
  }

  /** A drain turn of the hot lane succeeds. */
  lemma QuietHotTurnSucceeds(l: Lanes, left: nat, hasBase: bool, reply: HotReply)
    requires Inv(l) && Quiet(l) && left > 0 && HotUntroubled(reply)
    requires l.hot.Some? ==> LegalHot(l.hot.value, left, reply)
    ensures HotTurn(l, left, hasBase, reply).failure.None?
  {
    hide Inv;
    HotTurnGood(l, left, hasBase, reply, 0);
  }

  lemma {:induction false} ViewLoopSucceeds(l: Lanes, fuel: nat, hasBase: bool, replies: seq<ViewReply>)
    requires Inv(l) && Quiet(l) && fuel > 0 && LegalViewLoop(l, fuel, hasBase, replies)
    requires forall i :: 0 <= i < |replies| ==> ViewUntroubled(replies[i])
    ensures ViewLoop(l, fuel, hasBase, replies).outcome.Ok?
    decreases |replies|
  {
    hide ViewTurn, LegalView, Inv, Quiet, LaneDebt, ViewUntroubled;
    if replies != [] {
      var t := ViewTurn(l, fuel, hasBase, replies[0]);
      QuietViewTurnSucceeds(l, fuel, hasBase, replies[0]);
      QuietViewTurn(l, fuel, hasBase, replies[0]);
      if t.again && t.spent < fuel {
        ViewLoopSucceeds(t.lanes, fuel - t.spent, hasBase, replies[1..]);
      }
    }
  }

  lemma {:induction false} HotLoopSucceeds(l: Lanes, fuel: nat, hasBase: bool, replies: seq<HotReply>)
    requires Inv(l) && Quiet(l) && fuel > 0 && LegalHotLoop(l, fuel, hasBase, replies)
    requires forall i :: 0 <= i < |replies| ==> HotUntroubled(replies[i])
    ensures PollHot(l, fuel, hasBase, replies).outcome.Ok?
    decreases |replies|
  {
    hide HotTurn, LegalHot, Inv, Quiet, LaneDebt, HotUntroubled;
    if replies != [] {
      var t := HotTurn(l, fuel, hasBase, replies[0]);
      QuietHotTurnSucceeds(l, fuel, hasBase, replies[0]);
      QuietHotTurn(l, fuel, hasBase, replies[0]);
      if t.again && t.spent < fuel {
        HotLoopSucceeds(t.lanes, fuel - t.spent, hasBase, replies[1..]);
      }
    }
  }
}
