/**
 What polling, cleanup and closing keep, and the fuel they report.
 */
module EndpointPolling {
  import opened Engine
  import opened Candidate
  import opened CandidateTheorems
  import opened CandidateEdges
  import opened EndpointOps
  import opened EndpointTheorems
  import P = StreamProtocol
  import G = RecursiveGreen
  import GT = RecursiveGreenTheorems
  import L = Lanes
  import LT = LanesTheorems
  import LP = LanePoll

  // ---------------------------------------------------------------------- closing

  /** Like `Inv`, except that a closing endpoint may still hold owners to schedule. */
  ghost predicate Schedulable(e: Endpoint) {
    && Closable(e) && GT.Single(e.green) && (!e.closing ==> Agrees(e))
    && LT.Inv(e.lanes) && LT.Fresh(e.lanes, RetainedAck(e)) && (e.active.Some? ==> LT.Quiet(e.lanes))
  }

  lemma InvIsSchedulable(e: Endpoint)
    requires Inv(e)
    ensures Schedulable(e) && Schedulable(e.(closing := true))
  {
  }

  lemma ScheduleSteps(e: Endpoint, id: nat)
    requires Schedulable(e)
    ensures var r := ScheduleClose(e);
      && r.outcome.Ok? && Inv(r.endpoint) && Fate(r.endpoint, id) == Fate(e, id)
      && (!e.closing ==> r.endpoint == e) && r.endpoint.closing == e.closing
  {
    hide ScheduleClose, FateHere, GT.Owned, LT.Fate, GT.Single, LT.Inv, LT.Fresh, LT.Quiet, G.BeginClose, L.CancelAll;
    var r := ScheduleClose(e);
    ScheduleCloseKeeps(e, id);
    GT.CloseConserves(e.green, id);
    if e.closing {
      LT.CancelAllQuiets(e.lanes, id);
      LT.NothingNewStaysFresh(e.lanes, L.CancelAll(e.lanes), RetainedAck(e));
      LT.QuietIsFresh(L.CancelAll(e.lanes), RetainedAck(e), RetainedAck(r.endpoint));
      if e.cleanup.Some? {
        CleanupHoldsOwners(e);
      }
    } else {
      OpenScheduling(e);
    }
  }

  lemma OpenScheduling(e: Endpoint)
    requires Schedulable(e) && !e.closing
    ensures Inv(e)
  {
    assert e.(closing := false) == e;
  }

  lemma CleanupHoldsOwners(e: Endpoint)
    requires e.closing && e.cleanup.Some?
    ensures ScheduleClose(e).endpoint == e.(green := G.BeginClose(e.green))
  {
  }

  lemma BeginCloseSteps(e: Endpoint, id: nat)
    requires Inv(e)
    ensures var r := BeginClose(e);
      r.outcome.Ok? && Inv(r.endpoint) && Fate(r.endpoint, id) == Fate(e, id) && r.endpoint.closing
  {
    hide ScheduleClose, FateHere, GT.Owned;
    var m := e.(closing := true, lanes := e.lanes.(unavailable := None), bullet := None);
    assert Schedulable(m) by {
      InvIsSchedulable(e);
      ForgetNotice(e.lanes, RetainedAck(e), id);
      OnlyElsewhere(e.(closing := false), m.(closing := false), id);
    }
    assert Fate(m, id) == Fate(e, id) by {
      ForgetNotice(e.lanes, RetainedAck(e), id);
      SameFateHere(e, m, id);
    }
    ScheduleSteps(m, id);
  }

  lemma SameFateHere(e: Endpoint, m: Endpoint, id: nat)
    requires m.active == e.active && m.cleanup == e.cleanup && m.retained == e.retained && m.released == e.released
    ensures FateHere(m, id) == FateHere(e, id)
  {
  }

  lemma ForgetNotice(l: L.Lanes, retained: Option<Ack>, id: nat)
    requires LT.Inv(l) && LT.Fresh(l, retained)
    ensures var l' := l.(unavailable := None);
      LT.Inv(l') && LT.Fresh(l', retained) && LT.Fate(l', id) == LT.Fate(l, id) && (LT.Quiet(l) ==> LT.Quiet(l'))
  {
  }

  // ------------------------------------------------------------------ cleanup polls

  predicate LegalLanes(l: L.Lanes, fuel: nat, hasBase: bool, reply: CleanupReply) {
    var view := if L.ViewHasWork(l) then L.PollViewport(l, fuel, hasBase, reply.views) else L.LaneStep(l, Ok(0));
    && (L.ViewHasWork(l) ==> LT.LegalViewLoop(l, fuel, hasBase, reply.views))
    && (L.HotHasWork(view.lanes) ==> LT.LegalHotLoop(view.lanes, fuel, hasBase, reply.hots))
  }

  function MintedLanes(l: L.Lanes, fuel: nat, hasBase: bool, reply: CleanupReply, id: nat): nat {
    var view := if L.ViewHasWork(l) then L.PollViewport(l, fuel, hasBase, reply.views) else L.LaneStep(l, Ok(0));
    (if L.ViewHasWork(l) then LT.MintedViewLoop(l, fuel, hasBase, reply.views, id) else 0)
    + (if view.outcome.Ok? && !L.ViewHasWork(view.lanes) && L.HotHasWork(view.lanes)
       then LT.MintedHotLoop(view.lanes, fuel, hasBase, reply.hots, id) else 0)
  }

  /** The lanes' turn in a cleanup poll keeps what a lane poll keeps. */
  lemma PollLanesKeeps(l: L.Lanes, fuel: nat, retained: Option<Ack>, reply: CleanupReply, id: nat)
    requires LT.Inv(l) && LT.Fresh(l, retained) && fuel > 0 && LegalLanes(l, fuel, retained.Some?, reply)
    ensures var s := PollLanes(l, fuel, retained.Some?, reply);
      && LT.Inv(s.lanes) && LT.NothingNew(l, s.lanes)
      && LT.Fate(s.lanes, id) == LT.Fate(l, id) + MintedLanes(l, fuel, retained.Some?, reply, id)
      && (s.outcome.Err? ==> s.outcome.error == EngineFailure || s.outcome.error == InvalidAuthority)
  {
    hide L.PollViewport, L.PollHot, LT.Inv, LT.Fresh, LT.Fate, LT.NothingNew, LT.LegalViewLoop, LT.LegalHotLoop,
      LT.MintedViewLoop, LT.MintedHotLoop, LT.ViewBase;
    var hasBase := retained.Some?;
    LT.NothingNewAtAll(l);
    var view := if L.ViewHasWork(l) then L.PollViewport(l, fuel, hasBase, reply.views) else L.LaneStep(l, Ok(0));
    if L.ViewHasWork(l) {
      if LT.ViewBase(l.viewport.value).Some? {
        LP.BatchHasBase(l, retained);
      }
      LT.ViewPollWithinGrant(l, fuel, hasBase, reply.views, id);
    }
    if view.outcome.Ok? && !L.ViewHasWork(view.lanes) && L.HotHasWork(view.lanes) {
      LT.HotPollWithinGrant(view.lanes, fuel, hasBase, reply.hots, id);
      LT.NothingNewChains(l, view.lanes, L.PollHot(view.lanes, fuel, hasBase, reply.hots).lanes, true);
    }
  }

  lemma QuietStays(l: L.Lanes, l': L.Lanes)
    requires LT.Quiet(l) && LT.NothingNew(l, l')
    ensures LT.Quiet(l')
  {
  }

  /** `e'` is `e` after lanes were polled: still an invariant state. */
  lemma LanesMoved(e: Endpoint, lanes: L.Lanes, minted: nat, id: nat)
    requires Inv(e) && LT.Inv(lanes) && LT.NothingNew(e.lanes, lanes)
    requires LT.Fate(lanes, id) == LT.Fate(e.lanes, id) + minted
    ensures Steps(e, e.(lanes := lanes), true, minted, id)
  {
    hide LT.Inv, LT.Fresh, LT.Quiet, LT.NothingNew, LT.Fate, Shape, FateHere, GT.Single, GT.Owned;
    LT.NothingNewStaysFresh(e.lanes, lanes, RetainedAck(e));
    if LT.Quiet(e.lanes) {
      QuietStays(e.lanes, lanes);
    }
    SameShape(e, e.(lanes := lanes));
    SameFateHere(e, e.(lanes := lanes), id);
  }

  lemma SameShape(e: Endpoint, m: Endpoint)
    requires m == e.(lanes := m.lanes, green := m.green)
    ensures Shape(m) == Shape(e) && OwedBase(m) == OwedBase(e)
  {
  }

  lemma PollLaneCleanupSteps(e: Endpoint, fuel: nat, reply: CleanupReply, id: nat)
    requires Inv(e) && fuel > 0 && LegalLanes(e.lanes, fuel, e.retained.Some?, reply)
    ensures var r := PollLaneCleanup(e, fuel, reply);
      && Steps(e, r.endpoint, true, MintedLanes(e.lanes, fuel, e.retained.Some?, reply, id), id)
      && r.endpoint.closing == e.closing
  {
    hide PollLanes, ScheduleClose, Inv, Fate, LegalLanes, MintedLanes, CleanupPending, LT.Inv, LT.Fresh, LT.NothingNew, LT.Fate;
    var polled := PollLanes(e.lanes, fuel, e.retained.Some?, reply);
    assert LT.Inv(e.lanes) && LT.Fresh(e.lanes, RetainedAck(e)) by {
      InvParts(e);
    }
    PollLanesKeeps(e.lanes, fuel, RetainedAck(e), reply, id);
    LanesMoved(e, polled.lanes, MintedLanes(e.lanes, fuel, e.retained.Some?, reply, id), id);
    var m := e.(lanes := polled.lanes);
    StepsInv(e, m, true, MintedLanes(e.lanes, fuel, e.retained.Some?, reply, id), id);
    InvIsSchedulable(m);
    ScheduleSteps(m, id);
  }

  lemma InvParts(e: Endpoint)
    requires Inv(e)
    ensures Shape(e) && GT.Single(e.green) && LT.Inv(e.lanes) && LT.Fresh(e.lanes, RetainedAck(e))
  {
  }

  lemma GreenCleanupSteps(e: Endpoint, fuel: nat, reply: ReleaseReply, id: nat)
    requires Inv(e)
    ensures Steps(e, e.(green := G.PollCleanup(e.green, fuel, reply).slot), true, 0, id)
    ensures e.closing ==> Steps(e, e.(green := G.BeginClose(G.PollCleanup(e.green, fuel, reply).slot)), true, 0, id)
  {
    hide G.PollCleanup, G.BeginClose, Shape, FateHere, LT.Fate, LT.Inv, LT.Fresh, LT.Quiet, GT.Owned, GT.Single, GT.Owed;
    var polled := G.PollCleanup(e.green, fuel, reply).slot;
    GT.CleanupKeeps(e.green, fuel, reply, id);
    GT.CloseConserves(polled, id);
    SameShape(e, e.(green := polled));
    SameShape(e, e.(green := G.BeginClose(polled)));
    SameFateHere(e, e.(green := polled), id);
    SameFateHere(e, e.(green := G.BeginClose(polled)), id);
  }

  lemma OwnCleanupSteps(e: Endpoint, fuel: nat, reply: CleanupReply, id: nat)
    requires Inv(e) && fuel > 0 && e.cleanup.Some?
    ensures Steps(e, PollOwnCleanup(e, fuel, reply).endpoint, true, 0, id)
    ensures PollOwnCleanup(e, fuel, reply).endpoint.closing == e.closing
  {
    hide PollCandidateCleanup, ScheduleClose, Shape, FateHere, LT.Fate, LT.Inv, LT.Fresh, LT.Quiet, GT.Owned, GT.Single, GT.Owed;
    CandidateCleanupKeeps(e, fuel, reply, id);
    var m := PollCandidateCleanup(e, fuel, reply).endpoint;
    assert LT.Fresh(m.lanes, RetainedAck(m)) by {
      if m.retained != e.retained {
        RetainedOnlyRestored(e, fuel, reply);
        NoBaseMeansQuiet(e.lanes);
        LT.QuietIsFresh(e.lanes, RetainedAck(e), RetainedAck(m));
      }
    }
    ScheduleSteps(m, id);
  }

  lemma RetainedOnlyRestored(e: Endpoint, fuel: nat, reply: CleanupReply)
    requires Shape(e) && e.cleanup.Some? && fuel > 0
    requires PollCandidateCleanup(e, fuel, reply).endpoint.retained != e.retained
    ensures e.retained.None?
  {
    hide PollPart;
  }

  /** Does a cleanup poll get as far as the lanes? */
  predicate ReachesLanes(e: Endpoint, fuel: nat, reply: CleanupReply) {
    && fuel > 0 && e.cleanup.None?
    && (e.green.cleanup != [] ==>
          var polled := G.PollCleanup(e.green, fuel, reply.green);
          polled.outcome.Ok? && (if e.closing then G.BeginClose(polled.slot) else polled.slot).cleanup == [])
  }

  function MintedCleanup(e: Endpoint, fuel: nat, reply: CleanupReply, id: nat): nat {
    if ReachesLanes(e, fuel, reply) then MintedLanes(e.lanes, fuel, e.retained.Some?, reply, id) else 0
  }

  /** Engine contract for one cleanup poll. */
  predicate LegalPollCleanup(e: Endpoint, fuel: nat, reply: CleanupReply) {
    && G.LegalCleanup(e.green, fuel, reply.green)
    && (e.cleanup.Some? ==> LegalClose(e.cleanup.value, fuel, reply))
    && (e.cleanup.None? && fuel > 0 ==> LegalLanes(e.lanes, fuel, e.retained.Some?, reply))
  }

  lemma PollCleanupSteps(e: Endpoint, fuel: nat, reply: CleanupReply, id: nat)
    requires Inv(e) && LegalPollCleanup(e, fuel, reply)
    ensures Steps(e, PollCleanup(e, fuel, reply).endpoint, true, MintedCleanup(e, fuel, reply, id), id)
    ensures PollCleanup(e, fuel, reply).endpoint.closing == e.closing
  {
    hide G.PollCleanup, G.BeginClose, PollOwnCleanup, PollLaneCleanup, Inv, Fate, Steps, LegalLanes, MintedLanes, LegalClose;
    Unmoved(e, id);
    if fuel > 0 {
      if e.green.cleanup != [] {
        var polled := G.PollCleanup(e.green, fuel, reply.green);
        var m := e.(green := if e.closing && polled.outcome.Ok? then G.BeginClose(polled.slot) else polled.slot);
        GreenCleanupSteps(e, fuel, reply.green, id);
        if ReachesLanes(e, fuel, reply) {
          StepsInv(e, m, true, 0, id);
          PollLaneCleanupSteps(m, fuel, reply, id);
          StepsChain(e, m, PollLaneCleanup(m, fuel, reply).endpoint, true, 0, MintedCleanup(e, fuel, reply, id), id);
        }
      } else if e.cleanup.Some? {
        OwnCleanupSteps(e, fuel, reply, id);
      } else {
        OwnIsLane(e, fuel, reply);
        PollLaneCleanupSteps(e, fuel, reply, id);
      }
    }
  }

  lemma OwnIsLane(e: Endpoint, fuel: nat, reply: CleanupReply)
    requires fuel > 0 && e.cleanup.None?
    ensures PollOwnCleanup(e, fuel, reply) == PollLaneCleanup(e, fuel, reply)
  {
  }
}
