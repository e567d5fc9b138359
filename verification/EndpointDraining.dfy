/**
 Closing with an engine that reports no error: no cleanup poll fails, every
 drain ends within its debt with nothing owned, and such an engine exists.
 */
module EndpointDraining {
  import opened Engine
  import opened Candidate
  import opened CandidateTheorems
  import opened CandidateEdges
  import opened EndpointTheorems
  import opened EndpointPolling
  import opened EndpointClosing
  import opened EndpointGuarantees
  import G = RecursiveGreen
  import GT = RecursiveGreenTheorems
  import L = Lanes
  import LT = LanesTheorems
  import LC = LanesClosing
  import LU = LanesUntroubled

  /** The engine answers the poll without an error. */
  predicate Untroubled(reply: CleanupReply) {
    && reply.green.Progress? && reply.release.Progress? && reply.detachOk
    && (forall i :: 0 <= i < |reply.views| ==> LU.ViewUntroubled(reply.views[i]))
    && (forall i :: 0 <= i < |reply.hots| ==> LU.HotUntroubled(reply.hots[i]))
  }

  // ------------------------------------------------------------- no cleanup poll fails

  lemma CandidateCleanupSucceeds(e: Endpoint, fuel: nat, reply: CleanupReply)
    requires Shape(e) && e.cleanup.Some? && fuel > 0 && reply.release.Progress? && reply.detachOk
    ensures PollCandidateCleanup(e, fuel, reply).complete.Ok?
  {
    hide ActiveShape, ActiveBase;
  }

  /** The slot never finds a session already installed. */
  lemma GreenCleanupSucceeds(s: G.Slot, fuel: nat, reply: ReleaseReply)
    requires GT.Single(s) && reply.Progress?
    ensures G.PollCleanup(s, fuel, reply).outcome.Ok?
  {
  }

  lemma PollLanesSucceed(l: L.Lanes, fuel: nat, hasBase: bool, reply: CleanupReply)
    requires LT.Inv(l) && LT.Quiet(l) && fuel > 0 && LegalLanes(l, fuel, hasBase, reply) && Untroubled(reply)
    ensures PollLanes(l, fuel, hasBase, reply).outcome.Ok?
  {
    hide L.ViewLoop, L.PollHot, LT.Inv, LT.Quiet, LT.LegalViewLoop, LT.LegalHotLoop, LT.MintedViewLoop, LC.LaneDebt,
      LU.ViewUntroubled, LU.HotUntroubled;
    if L.ViewHasWork(l) {
      LU.ViewLoopSucceeds(l, fuel, hasBase, reply.views);
      QuietAfterViews(l, fuel, hasBase, reply.views);
      var view := L.PollViewport(l, fuel, hasBase, reply.views);
      if L.HotHasWork(view.lanes) {
        LU.HotLoopSucceeds(view.lanes, fuel, hasBase, reply.hots);
      }
    } else if L.HotHasWork(l) {
      LU.HotLoopSucceeds(l, fuel, hasBase, reply.hots);
    }
  }

  lemma QuietAfterViews(l: L.Lanes, fuel: nat, hasBase: bool, replies: seq<L.ViewReply>)
    requires LT.Inv(l) && LT.Quiet(l) && fuel > 0 && LT.LegalViewLoop(l, fuel, hasBase, replies)
    ensures var s := L.PollViewport(l, fuel, hasBase, replies);
      LT.Inv(s.lanes) && (s.outcome.Ok? ==> LT.Quiet(s.lanes))
  {
    hide L.ViewLoop, LC.LaneDebt, LT.LegalViewLoop, LT.MintedViewLoop;
    LC.ViewLoopPaysDebt(l, fuel, hasBase, replies);
    LT.ViewPollWithinGrant(l, fuel, hasBase, replies, 0);
  }

  lemma LaneCleanupSucceeds(e: Endpoint, fuel: nat, reply: CleanupReply)
    requires Settling(e) && e.cleanup.None? && fuel > 0 && LegalLanes(e.lanes, fuel, e.retained.Some?, reply) && Untroubled(reply)
    ensures PollLaneCleanup(e, fuel, reply).outcome.Ok?
  {
    hide PollLanes, ScheduleClose, LegalLanes, Inv, LT.Inv, LT.Fresh, LT.NothingNew, LT.Quiet, Untroubled, CleanupPending;
    InvParts(e);
    SettlingIsQuiet(e);
    PollLanesSucceed(e.lanes, fuel, e.retained.Some?, reply);
    PollLanesKeeps(e.lanes, fuel, RetainedAck(e), reply, 0);
    var polled := PollLanes(e.lanes, fuel, e.retained.Some?, reply);
    LanesMoved(e, polled.lanes, MintedLanes(e.lanes, fuel, e.retained.Some?, reply, 0), 0);
    var m := e.(lanes := polled.lanes);
    StepsInv(e, m, true, MintedLanes(e.lanes, fuel, e.retained.Some?, reply, 0), 0);
    InvIsSchedulable(m);
    ScheduleSteps(m, 0);
  }

  lemma OwnCleanupSucceeds(e: Endpoint, fuel: nat, reply: CleanupReply)
    requires Settling(e) && e.cleanup.Some? && fuel > 0 && Untroubled(reply)
    ensures PollOwnCleanup(e, fuel, reply).outcome.Ok?
  {
    hide PollCandidateCleanup, ScheduleClose, Inv, Shape;
    InvParts(e);
    CandidateCleanupSucceeds(e, fuel, reply);
    PolledIsSchedulable(e, fuel, reply);
    ScheduleSteps(PollCandidateCleanup(e, fuel, reply).endpoint, 0);
  }

  /** Cleanup of a draining endpoint fails only with the engine: every defensive branch is dead. */
  lemma CleanupPollSucceeds(e: Endpoint, fuel: nat, reply: CleanupReply)
    requires Settling(e) && Answers(e, fuel, reply) && Untroubled(reply)
    ensures PollCleanup(e, fuel, reply).outcome.Ok?
  {
    hide G.PollCleanup, G.BeginClose, PollOwnCleanup, PollLaneCleanup, Inv, LegalLanes, LegalClose, G.LegalCleanup, GT.Single,
      GT.Debt;
    InvParts(e);
    if e.green.cleanup != [] {
      GreenCleanupSucceeds(e.green, fuel, reply.green);
      var slot := G.PollCleanup(e.green, fuel, reply.green).slot;
      var m := e.(green := if e.closing then G.BeginClose(slot) else slot);
      GreenPays(e, fuel, reply.green);
      if e.cleanup.None? && m.green.cleanup == [] {
        LaneCleanupSucceeds(m, fuel, reply);
      }
    } else if e.cleanup.Some? {
      OwnCleanupSucceeds(e, fuel, reply);
    } else {
      OwnIsLane(e, fuel, reply);
      LaneCleanupSucceeds(e, fuel, reply);
    }
  }

  // --------------------------------------------------------------------- whole drains

  /** Cleanup is polled while it is pending, and the engine reports no error. */
  predicate Answered(e: Endpoint, quanta: seq<Quantum>)
    decreases |quanta|
  {
    quanta == [] ||
    (&& CleanupPending(e) && Answers(e, quanta[0].fuel, quanta[0].reply) && Untroubled(quanta[0].reply)
     && Answered(PollCleanup(e, quanta[0].fuel, quanta[0].reply).endpoint, quanta[1..]))
  }

  lemma {:induction false} AnsweredDrains(e: Endpoint, quanta: seq<Quantum>)
    requires Settling(e) && Answered(e, quanta)
    ensures Draining(e, quanta)
    decreases |quanta|
  {
    hide PollCleanup, Settling, CleanupPending, Answers, Untroubled;
    if quanta != [] {
      CleanupPollSucceeds(e, quanta[0].fuel, quanta[0].reply);
      CleanupPollPays(e, quanta[0].fuel, quanta[0].reply);
      AnsweredDrains(PollCleanup(e, quanta[0].fuel, quanta[0].reply).endpoint, quanta[1..]);
    }
  }

  /**
   Close always drains: with an engine that reports no error, begin_close
   succeeds, no cleanup poll fails, polling cleanup while any is pending takes at
   most `Debt` polls, and where it ends nothing at all is owned.
   */
  lemma CloseAlwaysDrains(e: Endpoint, quanta: seq<Quantum>)
    requires Inv(e) && Answered(BeginClose(e).endpoint, quanta)
    ensures BeginClose(e).outcome.Ok? && Draining(BeginClose(e).endpoint, quanta)
    ensures |quanta| <= Debt(BeginClose(e).endpoint)
    ensures CleanupPending(Drain(BeginClose(e).endpoint, quanta)) || OwnsNothing(Drain(BeginClose(e).endpoint, quanta))
  {
    hide BeginClose, Drain, Draining, Answered, Debt, Inv, CleanupPending;
    BeginCloseSteps(e, 0);
    AnsweredDrains(BeginClose(e).endpoint, quanta);
    DrainsWhenAllSucceed(e, quanta);
  }

  // -------------------------------------------------------------- one engine, any state

  /** An engine answers whatever draining endpoint it is asked about. */
  type Machine = Endpoint -> Quantum

  ghost predicate NeverFails(machine: Machine) {
    forall e: Endpoint :: Settling(e) && CleanupPending(e) ==>
      Answers(e, machine(e).fuel, machine(e).reply) && Untroubled(machine(e).reply)
  }

  /** Poll cleanup with the machine's answers, at most `polls` times. */
  function DrainBy(e: Endpoint, machine: Machine, polls: nat): Endpoint
    decreases polls
  {
    if polls == 0 || !CleanupPending(e) then e
    else DrainBy(PollCleanup(e, machine(e).fuel, machine(e).reply).endpoint, machine, polls - 1)
  }

  lemma {:induction false} DrainByEnds(e: Endpoint, machine: Machine, polls: nat)
    requires Settling(e) && NeverFails(machine) && Debt(e) <= polls
    ensures Settling(DrainBy(e, machine, polls)) && DrainBy(e, machine, polls).closing == e.closing
    ensures !CleanupPending(DrainBy(e, machine, polls))
    ensures !e.closing ==> OwedBase(DrainBy(e, machine, polls)) == OwedBase(e)
                           && GT.Owed(DrainBy(e, machine, polls).green) == GT.Owed(e.green)
    decreases polls
  {
    hide PollCleanup, Settling, Debt, CleanupPending, Answers, Untroubled, OwedBase, GT.Owed;
    if CleanupPending(e) {
      assert Answers(e, machine(e).fuel, machine(e).reply) && Untroubled(machine(e).reply);
      SettlingPoll(e, machine(e).fuel, machine(e).reply);
      CleanupPollSucceeds(e, machine(e).fuel, machine(e).reply);
      CleanupPollPays(e, machine(e).fuel, machine(e).reply);
      DrainByEnds(PollCleanup(e, machine(e).fuel, machine(e).reply).endpoint, machine, polls - 1);
    }
  }

  /** Whatever engine without errors serves it, a close owns nothing after `Debt` polls. */
  lemma CloseEndsOwningNothing(e: Endpoint, machine: Machine)
    requires Inv(e) && NeverFails(machine)
    ensures var c := BeginClose(e).endpoint; OwnsNothing(DrainBy(c, machine, Debt(c)))
  {
    hide BeginClose, DrainBy, Debt, Inv, NeverFails, CleanupPending;
    BeginCloseSteps(e, 0);
    var c := BeginClose(e).endpoint;
    DrainByEnds(c, machine, Debt(c));
    ClosedOwnsNothing(DrainBy(c, machine, Debt(c)));
  }

  /**
   Cancel always restores: after a successful cancel in any invariant state, any
   engine without errors drains the endpoint within `Debt` polls to exactly the base
   that was owed, with the slot's session installed again.
   */
  lemma CancelAlwaysRestores(e: Endpoint, machine: Machine)
    requires Inv(e) && !e.closing && Cancel(e).outcome.Ok? && NeverFails(machine)
    ensures var c := Cancel(e).endpoint;
      var d := DrainBy(c, machine, Debt(c));
      Idle(d) && d.retained == OwedBase(e) && d.green.installed == GT.Owed(e.green)
  {
    hide Cancel, DrainBy, Debt, Inv, OwedBase, GT.Owed, Settling, NeverFails, CleanupPending;
    InvParts(e);
    CandidateTheorems.CancelKeeps(e, 0);
    CancelSteps(e, 0);
    CancelSettles(e);
    var c := Cancel(e).endpoint;
    DrainByEnds(c, machine, Debt(c));
    var d := DrainBy(c, machine, Debt(c));
    SettledIdle(d);
    IdleFate(d, 0);
  }

  // ----------------------------------------------------------------- there is such one

  function Most(work: nat, fuel: nat): ReleaseReply {
    Progress(if work <= fuel then work else fuel)
  }

  function AnyResource(): Resource {
    Resource(0, 0)
  }

  function ViewAnswer(l: L.Lanes, fuel: nat): L.ViewReply {
    var c := if l.viewport.Some? && l.viewport.value.Draining? then Some(l.viewport.value.cleanup) else None;
    var abort := if c.Some? && c.value.job.Some? && fuel > 0
                 then Most(c.value.job.value.work, if c.value.abortBegun then fuel else fuel - 1) else Progress(0);
    var release := if c.Some? && c.value.releasing.Some? && fuel > 0
                   then Most(c.value.releasing.value.root.work, if c.value.releasing.value.begun then fuel else fuel - 1)
                   else Progress(0);
    L.ViewReply(true, 0, true, None, true, 0, true, AnyResource(), None, true, false, abort, release)
  }

  function HotAnswer(l: L.Lanes, fuel: nat): L.HotReply {
    var release :=
      if l.hot.None? || fuel == 0 then Progress(0)
      else
        match l.hot.value
        case Cancelling(job, begun, _) => Most(job.work, if begun then fuel else fuel - 1)
        case Releasing(root, begun, _) => Most(root.work, if begun then fuel else fuel - 1)
        case _ => Progress(0);
    L.HotReply(0, false, true, AnyResource(), None, release, None)
  }

  function CloseAnswer(c: Cleanup, fuel: nat): ReleaseReply {
    if fuel == 0 then Progress(0)
    else
      match c
      case CloseOne(_, handle, begun) => Most(handle.work, if begun then fuel else fuel - 1)
      case CloseTwo(_, target, begun, complete, other, otherBegun) =>
        if complete then Most(other.work, if otherBegun then fuel else fuel - 1)
        else Most(target.work, if begun then fuel else fuel - 1)
      case ExactStreamAndRestore(stream, begun, base, _) =>
        var left := if base.Some? then fuel else fuel - 1;
        Most(stream.handle.work, if begun || left == 0 then left else left - 1)
  }

  /** An engine that releases as fast as its fuel allows. */
  function Eager(e: Endpoint, fuel: nat): CleanupReply {
    var green := if e.green.cleanup == [] || fuel == 0 then Progress(0)
                 else Most(G.Handle(e.green.cleanup[0]).work, if e.green.cleanup[0].begun then fuel else fuel - 1);
    var release := if e.cleanup.None? then Progress(0) else CloseAnswer(e.cleanup.value, fuel);
    var views := [ViewAnswer(e.lanes, fuel)];
    var view := if L.ViewHasWork(e.lanes) then L.PollViewport(e.lanes, fuel, e.retained.Some?, views)
                else L.LaneStep(e.lanes, Ok(0));
    CleanupReply(green, release, true, views, [HotAnswer(view.lanes, fuel)])
  }

  lemma ViewAnswerIsLegal(l: L.Lanes, fuel: nat, hasBase: bool)
    requires LT.Quiet(l) && fuel > 0
    ensures LT.LegalViewLoop(l, fuel, hasBase, [ViewAnswer(l, fuel)]) && LU.ViewUntroubled(ViewAnswer(l, fuel))
  {
    hide L.ViewTurn;
    var replies := [ViewAnswer(l, fuel)];
    assert replies[1..] == [];
    assert l.viewport.Some? ==> LT.LegalViewLoop(L.ViewTurn(l, fuel, hasBase, replies[0]).lanes, 0, hasBase, []);
  }

  lemma HotAnswerIsLegal(l: L.Lanes, fuel: nat, hasBase: bool)
    requires LT.Quiet(l) && fuel > 0
    ensures LT.LegalHotLoop(l, fuel, hasBase, [HotAnswer(l, fuel)]) && LU.HotUntroubled(HotAnswer(l, fuel))
  {
    hide L.HotTurn;
    var replies := [HotAnswer(l, fuel)];
    assert replies[1..] == [];
  }

  lemma EagerReleasesAreLegal(e: Endpoint, fuel: nat)
    requires fuel > 0
    ensures G.LegalCleanup(e.green, fuel, Eager(e, fuel).green) && Eager(e, fuel).green.Progress?
    ensures e.cleanup.Some? ==> LegalClose(e.cleanup.value, fuel, Eager(e, fuel))
    ensures Eager(e, fuel).release.Progress?
  {
    hide L.PollViewport, ViewAnswer, HotAnswer;
  }

  lemma EagerLanesAreLegal(e: Endpoint, fuel: nat)
    requires LT.Inv(e.lanes) && LT.Quiet(e.lanes) && fuel > 0
    ensures LegalLanes(e.lanes, fuel, e.retained.Some?, Eager(e, fuel))
  {
    hide L.PollViewport, LT.LegalViewLoop, LT.LegalHotLoop, LT.Inv, LT.Quiet, ViewAnswer, HotAnswer;
    var hasBase := e.retained.Some?;
    ViewAnswerIsLegal(e.lanes, fuel, hasBase);
    QuietAfterViews(e.lanes, fuel, hasBase, [ViewAnswer(e.lanes, fuel)]);
    ViewAnswerSucceeds(e.lanes, fuel, hasBase);
    var view := if L.ViewHasWork(e.lanes) then L.PollViewport(e.lanes, fuel, hasBase, [ViewAnswer(e.lanes, fuel)])
                else L.LaneStep(e.lanes, Ok(0));
    HotAnswerIsLegal(view.lanes, fuel, hasBase);
  }

  lemma EagerIsUntroubled(e: Endpoint, fuel: nat)
    requires fuel > 0
    ensures Untroubled(Eager(e, fuel)) && Eager(e, fuel).views != [] && Eager(e, fuel).hots != []
  {
    hide L.PollViewport, ViewAnswer, HotAnswer, LU.ViewUntroubled, LU.HotUntroubled;
    EagerReleasesAreLegal(e, fuel);
    AnswersAreUntroubled(e.lanes, fuel);
    var view := if L.ViewHasWork(e.lanes) then L.PollViewport(e.lanes, fuel, e.retained.Some?, [ViewAnswer(e.lanes, fuel)])
                else L.LaneStep(e.lanes, Ok(0));
    AnswersAreUntroubled(view.lanes, fuel);
  }

  lemma EagerNeverFails(e: Endpoint, fuel: nat)
    requires Settling(e) && fuel > 0
    ensures Answers(e, fuel, Eager(e, fuel)) && Untroubled(Eager(e, fuel))
  {
    hide Eager, Inv, LegalLanes, LegalClose, G.LegalCleanup, Untroubled, LT.Inv, LT.Quiet;
    InvParts(e);
    EagerReleasesAreLegal(e, fuel);
    EagerIsUntroubled(e, fuel);
    if e.cleanup.None? {
      SettlingIsQuiet(e);
      EagerLanesAreLegal(e, fuel);
    }
  }

  lemma AnswersAreUntroubled(l: L.Lanes, fuel: nat)
    ensures LU.ViewUntroubled(ViewAnswer(l, fuel)) && LU.HotUntroubled(HotAnswer(l, fuel))
  {
  }

  lemma ViewAnswerSucceeds(l: L.Lanes, fuel: nat, hasBase: bool)
    requires LT.Inv(l) && LT.Quiet(l) && fuel > 0
    ensures L.PollViewport(l, fuel, hasBase, [ViewAnswer(l, fuel)]).outcome.Ok?
  {
    hide L.ViewLoop, LT.Inv, LT.Quiet, LT.LegalViewLoop, ViewAnswer, LU.ViewUntroubled;
    ViewAnswerIsLegal(l, fuel, hasBase);
    LU.ViewLoopSucceeds(l, fuel, hasBase, [ViewAnswer(l, fuel)]);
  }

  /** So every close can be drained: the eager engine does it. */
  lemma SomeEngineNeverFails()
    ensures NeverFails(e => Quantum(1, Eager(e, 1)))
  {
    hide Settling, CleanupPending, Answers, Untroubled, Eager;
    forall e: Endpoint | Settling(e) && CleanupPending(e)
      ensures Answers(e, 1, Eager(e, 1)) && Untroubled(Eager(e, 1))
    {
      EagerNeverFails(e, 1);
    }
  }
}
