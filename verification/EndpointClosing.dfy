/**
 Draining the endpoint, after a cancel or while it closes: a measure of the
 release work still owed, which every successful cleanup poll strictly lowers,
 although cancelling an adoption or an exact stream reinstalls a base on the way.
 */
module EndpointClosing {
  import opened Engine
  import opened Candidate
  import opened CandidateTheorems
  import opened CandidateEdges
  import opened EndpointTheorems
  import opened EndpointPolling
  import G = RecursiveGreen
  import GT = RecursiveGreenTheorems
  import L = Lanes
  import LT = LanesTheorems
  import LC = LanesClosing

  // ------------------------------------------------------------------- the measure

  function Closing(r: Resource, begun: bool): nat {
    r.work + (if begun then 1 else 2)
  }

  function Keeping(r: Option<Resource>): nat {
    if r.Some? then r.value.work + 3 else 0
  }

  function CleanupDebt(c: Cleanup): nat {
    match c
    case CloseOne(_, handle, begun) => Closing(handle, begun)
    case CloseTwo(_, target, begun, complete, other, otherBegun) =>
      (if complete then 0 else Closing(target, begun)) + Closing(other, otherBegun)
    case ExactStreamAndRestore(stream, begun, base, _) =>
      Closing(stream.handle, begun) + Keeping(stream.base) + Keeping(base) + (if base.None? then 1 else 0)
  }

  function ActiveDebt(a: Active): nat {
    match a
    case Parsing(_, _) => 0
    case Building(_, writer, _) => Closing(writer, false)
    case ParsingExact(_, _, base) => Keeping(Some(base.publication))
    case ParsingOrdinaryExact(_, _, base) => Keeping(Some(base.publication))
    case AwaitingGreen(_, base) => Keeping(Some(base.publication))
    case ParsingBulletLocal(_, _, base) => Keeping(Some(base.publication))
    case ParsingExactFallback(_, base) => Keeping(Some(base.publication))
    case BuildingExactFallback(_, writer, base, _) => Closing(writer, false) + Keeping(Some(base.publication))
    case BuildingExact(_, writer, base, _, _, _) => Closing(writer, false) + Keeping(Some(base.publication))
    case Publishing(s) =>
      (if s.stream.Some? then Closing(s.stream.value.handle, false) + Keeping(s.stream.value.base) + 1 else 0)
      + (if s.sealed.Some? then Closing(s.sealed.value, false) else 0) + Keeping(s.superseded)
  }

  function PendingDebt(c: Option<Cleanup>): nat {
    if c.Some? then CleanupDebt(c.value) else 0
  }

  function DebtHere(e: Endpoint): nat {
    (if e.active.Some? then ActiveDebt(e.active.value) else 0) + PendingDebt(e.cleanup)
    + (if e.retained.Some? then Keeping(Some(e.retained.value.publication)) else 0)
  }

  /** Bounds the cleanup polls that draining still needs. */
  function Debt(e: Endpoint): nat {
    DebtHere(e) + GT.Debt(e.green) + LC.LaneDebt(e.lanes)
  }

  // ------------------------------------------------------------- candidate cleanup

  /** A successful poll of one part pays: it begins, works some, or is done. */
  lemma PartPays(r: Resource, begun: bool, fuel: nat, reply: ReleaseReply)
    requires fuel > 0 && LegalPart(r, begun, fuel, reply)
    ensures PollPart(r, begun, fuel, reply).PartWaiting? ==>
      Closing(PollPart(r, begun, fuel, reply).handle, true) < Closing(r, begun)
  {
  }

  lemma PlainCleanupPays(e: Endpoint, fuel: nat, reply: CleanupReply)
    requires e.cleanup.Some? && fuel > 0 && LegalClose(e.cleanup.value, fuel, reply)
    requires !e.cleanup.value.ExactStreamAndRestore?
    requires PollCandidateCleanup(e, fuel, reply).complete.Ok?
    ensures DebtHere(PollCandidateCleanup(e, fuel, reply).endpoint) < DebtHere(e)
  {
    hide ActiveDebt, PollPart, LegalPart, PollExactRestore;
    match e.cleanup.value
    case CloseOne(_, handle, begun) => PartPays(handle, begun, fuel, reply.release);
    case CloseTwo(_, target, begun, complete, other, otherBegun) =>
      if complete {
        PartPays(other, otherBegun, fuel, reply.release);
      } else {
        PartPays(target, begun, fuel, reply.release);
      }
  }

  lemma RestorePays(e: Endpoint, fuel: nat, reply: CleanupReply)
    requires e.cleanup.Some? && fuel > 0 && LegalClose(e.cleanup.value, fuel, reply)
    requires e.cleanup.value.ExactStreamAndRestore? && CleanupShape(e.cleanup.value) && e.retained.None?
    requires PollExactRestore(e, e.cleanup.value, fuel, reply).complete.Ok?
    ensures DebtHere(PollExactRestore(e, e.cleanup.value, fuel, reply).endpoint) < DebtHere(e)
  {
    hide ActiveDebt, PollPart, LegalPart;
    var c := e.cleanup.value;
    var left := if c.base.Some? then fuel else fuel - 1;
    if left > 0 {
      PartPays(c.stream.handle, c.streamBegun, left, reply.release);
    }
  }

  lemma CandidateCleanupPays(e: Endpoint, fuel: nat, reply: CleanupReply)
    requires Shape(e) && e.cleanup.Some? && fuel > 0 && LegalClose(e.cleanup.value, fuel, reply)
    requires PollCandidateCleanup(e, fuel, reply).complete.Ok?
    ensures DebtHere(PollCandidateCleanup(e, fuel, reply).endpoint) < DebtHere(e)
  {
    hide DebtHere, PollCloseOne, PollCloseTwo, PollExactRestore, LegalClose;
    if e.cleanup.value.ExactStreamAndRestore? {
      RestoreShape(e);
      RestorePays(e, fuel, reply);
    } else {
      PlainCleanupPays(e, fuel, reply);
    }
  }

  lemma CancelStreamAddsNoDebt(e: Endpoint, s: Streaming)
    requires e.active == Some(Publishing(s)) && Shape(e.(closing := false)) && e.cleanup.None?
    ensures DebtHere(CancelStreaming(e, s).endpoint) <= DebtHere(e)
  {
  }

  lemma CancelActiveAddsNoDebt(e: Endpoint)
    requires e.active.Some? && Shape(e.(closing := false)) && e.cleanup.None?
    ensures DebtHere(CancelActive(e).endpoint) <= DebtHere(e)
  {
    hide CancelStreaming;
    if e.active.value.Publishing? {
      CancelStreamAddsNoDebt(e, e.active.value.streaming);
    }
  }

  lemma CancelAddsNoDebt(e: Endpoint)
    requires e.active.Some? && Shape(e.(closing := false)) && e.cleanup.None?
    ensures Cancel(e).outcome.Ok? && DebtHere(Cancel(e).endpoint) <= DebtHere(e)
  {
    hide L.CancelAll, G.RequestCancel, CancelActive, Shape, ActiveDebt, CleanupDebt;
    var m := e.(lanes := L.CancelAll(e.lanes), green := G.RequestCancel(e.green));
    SameShape(e.(closing := false), m.(closing := false));
    CancelActiveAddsNoDebt(m);
    ClosingCancel(e, 0);
  }

  lemma ScheduleAddsNoDebt(e: Endpoint)
    requires Schedulable(e)
    ensures var r := ScheduleClose(e);
      && Debt(r.endpoint) <= Debt(e)
      && (e.closing && (e.green.installed.Some? || e.green.pending.Some?) ==> Debt(r.endpoint) < Debt(e))
  {
    hide G.BeginClose, L.CancelAll, G.RequestCancel, GT.Debt, LC.LaneDebt, ActiveDebt, LT.Inv, LT.Fresh, LT.Quiet, Cancel;
    GT.CloseNeverAddsDebt(e.green);
    LC.CancelAllAddsNoDebt(e.lanes);
    CommitCancelled(e.green);
    CancelTwice(e.lanes, e.green);
    if e.closing && e.cleanup.None? && e.active.Some? {
      var m := e.(green := G.BeginClose(e.green), lanes := L.CancelAll(e.lanes));
      assert Shape(m.(closing := false)) by {
        SameShape(e.(closing := false), m.(closing := false));
      }
      CancelAddsNoDebt(m);
      ClosingCancel(m, 0);
      assert DebtHere(m) == DebtHere(e);
    }
  }

  // --------------------------------------------------------------------- the lanes

  lemma PollLanesPay(l: L.Lanes, fuel: nat, hasBase: bool, reply: CleanupReply)
    requires LT.Inv(l) && LT.Quiet(l) && fuel > 0 && LegalLanes(l, fuel, hasBase, reply)
    requires reply.views != [] && reply.hots != []
    ensures var s := PollLanes(l, fuel, hasBase, reply);
      s.outcome.Ok? ==> && LT.Quiet(s.lanes) && LC.LaneDebt(s.lanes) <= LC.LaneDebt(l)
                        && (l.viewport.Some? || l.hot.Some? ==> LC.LaneDebt(s.lanes) < LC.LaneDebt(l))
                        && (s.outcome.value == 0 ==> s.lanes.viewport.None? && s.lanes.hot.None?)
                        && (l.viewport.None? && l.hot.None? ==> s.outcome.value == 0)
  {
    hide L.PollViewport, L.PollHot, LT.Inv, LC.LaneDebt, LT.LegalViewLoop, LT.LegalHotLoop, L.ViewLoop;
    QuietLanesWork(l);
    if L.ViewHasWork(l) {
      ViewPollPays(l, fuel, hasBase, reply.views);
      var view := L.PollViewport(l, fuel, hasBase, reply.views);
      if view.outcome.Ok? {
        QuietLanesWork(view.lanes);
        if L.HotHasWork(view.lanes) {
          LC.HotLoopPaysDebt(view.lanes, fuel, hasBase, reply.hots);
          var hot := L.PollHot(view.lanes, fuel, hasBase, reply.hots);
          HotPollLeavesView(view.lanes, fuel, hasBase, reply.hots);
          if hot.outcome.Ok? {
            QuietLanesWork(hot.lanes);
          }
        }
      }
    } else if L.HotHasWork(l) {
      LC.HotLoopPaysDebt(l, fuel, hasBase, reply.hots);
      var hot := L.PollHot(l, fuel, hasBase, reply.hots);
      HotPollLeavesView(l, fuel, hasBase, reply.hots);
      if hot.outcome.Ok? {
        QuietLanesWork(hot.lanes);
      }
    }
  }

  lemma QuietLanesWork(l: L.Lanes)
    requires LT.Quiet(l)
    ensures L.ViewHasWork(l) <==> l.viewport.Some?
    ensures L.HotHasWork(l) <==> l.hot.Some?
  {
  }

  lemma ViewPollPays(l: L.Lanes, fuel: nat, hasBase: bool, replies: seq<L.ViewReply>)
    requires LT.Inv(l) && LT.Quiet(l) && fuel > 0 && LT.LegalViewLoop(l, fuel, hasBase, replies) && replies != []
    ensures var s := L.PollViewport(l, fuel, hasBase, replies);
      && LT.Inv(s.lanes)
      && (s.outcome.Ok? ==> && LT.Quiet(s.lanes) && LC.LaneDebt(s.lanes) <= LC.LaneDebt(l)
                            && (l.viewport.Some? ==> LC.LaneDebt(s.lanes) < LC.LaneDebt(l)))
  {
    hide L.ViewLoop, LC.LaneDebt, LT.LegalViewLoop, LT.MintedViewLoop;
    LC.ViewLoopPaysDebt(l, fuel, hasBase, replies);
    LT.ViewPollWithinGrant(l, fuel, hasBase, replies, 0);
  }

  lemma HotTurnLeavesView(l: L.Lanes, left: nat, hasBase: bool, reply: L.HotReply)
    requires left > 0
    ensures L.HotTurn(l, left, hasBase, reply).lanes.viewport == l.viewport
  {
  }

  lemma {:induction false} HotPollLeavesView(l: L.Lanes, fuel: nat, hasBase: bool, replies: seq<L.HotReply>)
    ensures L.PollHot(l, fuel, hasBase, replies).lanes.viewport == l.viewport
    decreases |replies|
  {
    hide L.HotTurn;
    if fuel > 0 && replies != [] {
      var t := L.HotTurn(l, fuel, hasBase, replies[0]);
      HotTurnLeavesView(l, fuel, hasBase, replies[0]);
      if t.spent < fuel {
        HotPollLeavesView(t.lanes, fuel - t.spent, hasBase, replies[1..]);
      }
    }
  }

  // ---------------------------------------------------------------- whole cleanup polls

  /**
   The endpoint is draining: it closes, or a cancel left no candidate, no slot
   work beyond cleanup and no live demand.
   */
  ghost predicate Settling(e: Endpoint) {
    Inv(e) && (e.closing || (e.active.None? && e.green.pending.None? && LT.Quiet(e.lanes)))
  }

  /** A legal reply that answers every release the poll may ask for. */
  predicate Answers(e: Endpoint, fuel: nat, reply: CleanupReply) {
    fuel > 0 && LegalPollCleanup(e, fuel, reply) && reply.views != [] && reply.hots != []
  }

  /** Pays unless there was nothing to pay; `paid` says that earlier work of the poll already did. */
  lemma LaneCleanupPays(e: Endpoint, fuel: nat, reply: CleanupReply, id: nat)
    requires Settling(e) && e.cleanup.None? && fuel > 0 && LegalLanes(e.lanes, fuel, e.retained.Some?, reply)
    requires reply.views != [] && reply.hots != []
    ensures var r := PollLaneCleanup(e, fuel, reply);
      r.outcome.Ok? ==> && Settling(r.endpoint) && Debt(r.endpoint) <= Debt(e)
                        && (CleanupPending(e) && e.green.cleanup == [] ==> Debt(r.endpoint) < Debt(e))
  {
    hide PollLanes, ScheduleClose, LegalLanes, GT.Debt, LC.LaneDebt, DebtHere, Inv, LT.Inv, LT.Fresh, LT.NothingNew;
    InvParts(e);
    SettlingIsQuiet(e);
    var polled := PollLanes(e.lanes, fuel, e.retained.Some?, reply);
    PollLanesPay(e.lanes, fuel, e.retained.Some?, reply);
    PollLanesKeeps(e.lanes, fuel, RetainedAck(e), reply, 0);
    LanesMoved(e, polled.lanes, MintedLanes(e.lanes, fuel, e.retained.Some?, reply, 0), 0);
    var m := e.(lanes := polled.lanes);
    StepsInv(e, m, true, MintedLanes(e.lanes, fuel, e.retained.Some?, reply, 0), 0);
    InvIsSchedulable(m);
    ScheduleSteps(m, 0);
    ScheduleAddsNoDebt(m);
    SameDebtHere(e, m);
    if e.closing {
      ClosedHoldsNothing(e);
    }
  }

  lemma SameDebtHere(e: Endpoint, m: Endpoint)
    requires m == e.(lanes := m.lanes, green := m.green)
    ensures DebtHere(m) == DebtHere(e)
  {
  }

  lemma SettlingIsQuiet(e: Endpoint)
    requires Settling(e) && e.cleanup.None?
    ensures LT.Quiet(e.lanes)
  {
  }

  lemma ClosedHoldsNothing(e: Endpoint)
    requires Inv(e) && e.closing && e.cleanup.None?
    ensures e.active.None? && e.retained.None?
  {
  }

  lemma OwnCleanupPays(e: Endpoint, fuel: nat, reply: CleanupReply)
    requires Settling(e) && e.cleanup.Some? && fuel > 0 && LegalClose(e.cleanup.value, fuel, reply)
    ensures var r := PollOwnCleanup(e, fuel, reply);
      r.outcome.Ok? ==> Settling(r.endpoint) && Debt(r.endpoint) < Debt(e)
  {
    hide PollCandidateCleanup, ScheduleClose, GT.Debt, LC.LaneDebt, DebtHere, LegalClose, Shape, FateHere, LT.Inv, LT.Fresh,
      LT.Quiet, GT.Single;
    var p := PollCandidateCleanup(e, fuel, reply);
    OwnCleanupSteps(e, fuel, reply, 0);
    StepsInv(e, PollOwnCleanup(e, fuel, reply).endpoint, true, 0, 0);
    CandidateCleanupKeeps(e, fuel, reply, 0);
    if p.complete.Ok? {
      CandidateCleanupPays(e, fuel, reply);
      PolledIsSchedulable(e, fuel, reply);
      ScheduleAddsNoDebt(p.endpoint);
      ScheduleSteps(p.endpoint, 0);
    }
  }

  lemma PolledIsSchedulable(e: Endpoint, fuel: nat, reply: CleanupReply)
    requires Inv(e) && e.cleanup.Some? && fuel > 0
    ensures Schedulable(PollCandidateCleanup(e, fuel, reply).endpoint)
  {
    hide PollCandidateCleanup, Shape, LT.Inv, LT.Fresh, LT.Quiet, GT.Single;
    CandidateCleanupKeeps(e, fuel, reply, 0);
    var m := PollCandidateCleanup(e, fuel, reply).endpoint;
    if m.retained != e.retained {
      RetainedOnlyRestored(e, fuel, reply);
      NoBaseMeansQuiet(e.lanes);
      LT.QuietIsFresh(e.lanes, RetainedAck(e), RetainedAck(m));
    }
  }

  /** Every successful cleanup poll of a draining endpoint that still has cleanup pays some debt. */
  lemma CleanupPollPays(e: Endpoint, fuel: nat, reply: CleanupReply)
    requires Settling(e) && CleanupPending(e) && Answers(e, fuel, reply)
    ensures var r := PollCleanup(e, fuel, reply);
      r.outcome.Ok? ==> Settling(r.endpoint) && Debt(r.endpoint) < Debt(e) && r.endpoint.closing == e.closing
  {
    hide G.PollCleanup, G.BeginClose, PollOwnCleanup, PollLaneCleanup, Inv, LegalLanes, LegalClose, CleanupPending, GT.Debt,
      LC.LaneDebt, DebtHere, G.LegalCleanup, Steps;
    PollCleanupSteps(e, fuel, reply, 0);
    if e.green.cleanup != [] {
      var polled := G.PollCleanup(e.green, fuel, reply.green);
      if polled.outcome.Ok? {
        var m := e.(green := if e.closing then G.BeginClose(polled.slot) else polled.slot);
        GreenPays(e, fuel, reply.green);
        SameDebtHere(e, m);
        if e.cleanup.None? && m.green.cleanup == [] {
          LaneCleanupPays(m, fuel, reply, 0);
        }
      }
    } else if e.cleanup.Some? {
      OwnCleanupPays(e, fuel, reply);
    } else {
      OwnIsLane(e, fuel, reply);
      LaneCleanupPays(e, fuel, reply, 0);
    }
  }

  lemma GreenPays(e: Endpoint, fuel: nat, reply: ReleaseReply)
    requires Settling(e) && e.green.cleanup != [] && fuel > 0 && G.LegalCleanup(e.green, fuel, reply)
    requires G.PollCleanup(e.green, fuel, reply).outcome.Ok?
    ensures var slot := G.PollCleanup(e.green, fuel, reply).slot;
      var m := e.(green := if e.closing then G.BeginClose(slot) else slot);
      Settling(m) && GT.Debt(m.green) < GT.Debt(e.green)
  {
    hide G.PollCleanup, G.BeginClose, Inv, GT.Debt, G.LegalCleanup, GT.Single;
    InvParts(e);
    var slot := G.PollCleanup(e.green, fuel, reply).slot;
    GT.CleanupPollPaysDebt(e.green, fuel, reply);
    GreenCleanupSteps(e, fuel, reply, 0);
    StepsInv(e, e.(green := slot), true, 0, 0);
    InvParts(e.(green := slot));
    GT.CloseNeverAddsDebt(slot);
    CleanupLeavesPending(e.green, fuel, reply);
  }

  lemma CleanupLeavesPending(s: G.Slot, fuel: nat, reply: ReleaseReply)
    ensures G.PollCleanup(s, fuel, reply).slot.pending == s.pending
  {
  }
}
