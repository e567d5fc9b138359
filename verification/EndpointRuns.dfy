/**
 Whole polls and whole runs of the endpoint, and what holds over all of them.
 */
module EndpointRuns {
  import opened Engine
  import opened Candidate
  import opened CandidateTheorems
  import opened CandidateEdges
  import opened EndpointOps
  import opened EndpointTheorems
  import opened EndpointPolling
  import P = StreamProtocol
  import G = RecursiveGreen
  import GT = RecursiveGreenTheorems
  import L = Lanes
  import LT = LanesTheorems
  import LP = LanePoll

  // ------------------------------------------------------------------------- polls

  /** Engine contract for the branch one poll takes. */
  predicate LegalPoll(e: Endpoint, fuel: nat, reply: PollReply) {
    if fuel == 0 then true
    else if e.cleanup.Some? then LegalPollCleanup(e, fuel, reply.cleanup)
    else if G.TargetWorkPending(e.green) then G.LegalTarget(e.green, fuel, reply.target)
    else if e.active.Some? then LegalLoop(e, fuel, 0, reply.active)
    else if e.green.cleanup != [] then G.LegalCleanup(e.green, fuel, reply.greenCleanup)
    else LP.LegalPoll(e.lanes, fuel, RetainedAck(e), reply.lane)
  }

  /** Resources the engine creates during one poll. */
  function MintedPoll(e: Endpoint, fuel: nat, reply: PollReply, id: nat): nat {
    if fuel == 0 then 0
    else if e.cleanup.Some? then 0
    else if G.TargetWorkPending(e.green) then GT.Minted(e.green, GT.OpPollTarget(fuel, reply.target), id)
    else if TakeDelivery(e).outcome == Ok(true) then 0
    else if Preempt(e, reply.preempt).outcome != Ok(false) then MintedPreempt(e, reply.preempt, id)
    else if e.active.Some? then MintedLoop(e, fuel, 0, reply.active, id)
    else if e.green.cleanup != [] then 0
    else LP.MintedPoll(e.lanes, fuel, RetainedAck(e), reply.lane, id)
  }

  /** A poll keeps what every operation keeps and reports at most the fuel it was given. */
  ghost predicate PollKeeps(e: Endpoint, p: Answer, fuel: nat, minted: nat, id: nat) {
    && Steps(e, p.endpoint, !p.result.PollError?, minted, id)
    && p.endpoint.closing == e.closing
    && (!p.result.PollError? ==> p.result.spent <= fuel)
  }

  lemma TargetWithin(s: G.Slot, fuel: nat, reply: G.TargetReply)
    requires fuel > 0 && G.LegalTarget(s, fuel, reply)
    ensures G.PollTarget(s, fuel, reply).outcome.Ok? ==> G.PollTarget(s, fuel, reply).outcome.value <= fuel
  {
  }

  lemma GreenSteps(e: Endpoint, green: G.Slot, minted: nat, id: nat)
    requires Inv(e) && GT.Keeps(e.green, green, minted, id)
    ensures Steps(e, e.(green := green), true, minted, id) && Inv(e.(green := green))
  {
    hide Shape, FateHere, LT.Fate, LT.Inv, LT.Fresh, LT.Quiet, GT.Owned, GT.Single, GT.Owed;
    SameShape(e, e.(green := green));
    SameFateHere(e, e.(green := green), id);
  }

  lemma PollGreenKeeps(e: Endpoint, fuel: nat, reply: PollReply, id: nat)
    requires Inv(e) && fuel > 0 && G.LegalTarget(e.green, fuel, reply.target)
    ensures PollKeeps(e, PollGreen(e, fuel, reply), fuel, GT.Minted(e.green, GT.OpPollTarget(fuel, reply.target), id), id)
  {
    hide G.PollTarget, G.LegalTarget, TakeDelivery, Inv, Steps, GT.Minted, GT.Keeps;
    InvParts(e);
    var m := e.(green := G.PollTarget(e.green, fuel, reply.target).slot);
    var minted := GT.Minted(e.green, GT.OpPollTarget(fuel, reply.target), id);
    GT.PollTargetKeeps(e.green, fuel, reply.target, id);
    TargetWithin(e.green, fuel, reply.target);
    GreenSteps(e, m.green, minted, id);
    StepsWeaken(e, m, minted, id);
    TakeDeliverySteps(m, id);
    DeliveryKeepsClosing(m);
    StepsChain(e, m, TakeDelivery(m).endpoint, true, minted, 0, id);
  }

  lemma StepsWeaken(e: Endpoint, e': Endpoint, minted: nat, id: nat)
    requires Steps(e, e', true, minted, id)
    ensures Steps(e, e', false, minted, id)
  {
  }

  lemma CleanupWithin(s: G.Slot, fuel: nat, reply: ReleaseReply)
    requires fuel > 0
    ensures G.PollCleanup(s, fuel, reply).outcome.Ok? ==> G.PollCleanup(s, fuel, reply).outcome.value <= fuel
  {
  }

  lemma LaneSteps(e: Endpoint, lanes: L.Lanes, minted: nat, id: nat)
    requires Inv(e) && e.active.None? && (e.closing ==> e.cleanup.Some? || LT.Quiet(lanes))
    requires LT.GoodStep(e.lanes, lanes, RetainedAck(e), minted, id)
    ensures Steps(e, e.(lanes := lanes), true, minted, id)
  {
    hide Shape, FateHere, LT.Fate, LT.Inv, LT.Fresh, LT.Quiet, GT.Owned, GT.Single, GT.Owed;
    SameShape(e, e.(lanes := lanes));
    SameFateHere(e, e.(lanes := lanes), id);
  }

  lemma PollIdleKeeps(e: Endpoint, fuel: nat, reply: PollReply, id: nat)
    requires Inv(e) && fuel > 0 && e.active.None? && e.cleanup.None?
    requires e.green.cleanup == [] ==> LP.LegalPoll(e.lanes, fuel, RetainedAck(e), reply.lane)
    ensures PollKeeps(e, PollIdle(e, fuel, reply), fuel,
                      if e.green.cleanup != [] then 0 else LP.MintedPoll(e.lanes, fuel, RetainedAck(e), reply.lane, id), id)
  {
    hide G.PollCleanup, LP.Poll, LP.LegalPoll, LP.MintedPoll, Inv, Steps, LT.GoodStep, LT.Inv, LT.Fresh;
    InvParts(e);
    if e.green.cleanup != [] {
      var m := e.(green := G.PollCleanup(e.green, fuel, reply.greenCleanup).slot);
      GreenCleanupSteps(e, fuel, reply.greenCleanup, id);
      StepsWeaken(e, m, 0, id);
      CleanupWithin(e.green, fuel, reply.greenCleanup);
    } else {
      var lane := LP.Poll(e.lanes, fuel, RetainedAck(e), reply.lane);
      var minted := LP.MintedPoll(e.lanes, fuel, RetainedAck(e), reply.lane, id);
      LP.PollWithin(e.lanes, fuel, RetainedAck(e), reply.lane, id);
      if e.closing {
        ClosedIsBare(e);
        GoodStepIsFresh(e.lanes, lane.lanes, RetainedAck(e), minted, id);
        NoBaseMeansQuiet(lane.lanes);
      }
      LaneSteps(e, lane.lanes, minted, id);
      StepsWeaken(e, e.(lanes := lane.lanes), minted, id);
    }
  }

  lemma ClosedIsBare(e: Endpoint)
    requires Inv(e) && e.closing && e.cleanup.None?
    ensures e.retained.None? && e.active.None? && RetainedAck(e).None?
  {
  }

  lemma GoodStepIsFresh(l: L.Lanes, l': L.Lanes, retained: Option<Ack>, minted: nat, id: nat)
    requires LT.GoodStep(l, l', retained, minted, id)
    ensures LT.Fresh(l', retained)
  {
  }

  /** A candidate step with the lanes quiet and the slot kept is an endpoint step. */
  lemma CandidateSteps(e: Endpoint, e': Endpoint, ok: bool, minted: nat, id: nat)
    requires Inv(e) && e.active.Some? && Keeps(e, e', ok, minted, id)
    requires e'.lanes == e.lanes && e'.closing == e.closing
    requires e'.green == e.green || e'.green == G.RequestCancel(e.green)
    ensures Steps(e, e', ok, minted, id)
  {
    hide Shape, Keeps, LanesInv, LanesStep, GT.Keeps, Steps, G.RequestCancel;
    SlotUntouched(e.green, id);
    GT.CancelKeeps(e.green, id);
    ActiveIsQuiet(e);
    QuietLanesStep(e, e', id);
    Compose(e, e', ok, minted, 0, 0, id);
  }

  lemma PollActiveKeeps(e: Endpoint, fuel: nat, reply: PollReply, id: nat)
    requires Inv(e) && fuel > 0 && e.cleanup.None?
    requires !G.TargetWorkPending(e.green) && TakeDelivery(e).outcome == Ok(false) && LegalPoll(e, fuel, reply)
    ensures PollKeeps(e, PollActive(e, fuel, reply), fuel, MintedPoll(e, fuel, reply, id), id)
  {
    hide Preempt, PollIdle, AdvanceLoop, Inv, Steps, TakeDelivery, Shape, Keeps, LegalLoop, MintedLoop, MintedPreempt,
      G.RequestCancel, LP.LegalPoll, LP.MintedPoll;
    InvParts(e);
    var preempted := Preempt(e, reply.preempt);
    CandidateTheorems.PreemptKeeps(e, reply.preempt, id);
    if preempted.outcome != Ok(false) {
      PreemptsActive(e, reply.preempt);
      CandidateSteps(e, preempted.endpoint, preempted.outcome.Ok?, MintedPreempt(e, reply.preempt, id), id);
    } else if e.active.None? {
      PollIdleKeeps(e, fuel, reply, id);
    } else {
      LoopKeeps(e, fuel, 0, reply.active, id);
      var (e', result) := AdvanceLoop(e, fuel, 0, reply.active);
      CandidateSteps(e, e', !result.PollError?, MintedLoop(e, fuel, 0, reply.active, id), id);
    }
  }

  lemma PreemptsActive(e: Endpoint, reply: PreemptReply)
    requires Preempt(e, reply).outcome != Ok(false)
    ensures e.active.Some?
  {
  }

  /**
   Every endpoint poll reports at most its granted transitions, whichever of the
   candidate, the slot, the lanes or a pending cleanup it serves.
   */
  lemma PollStaysWithinFuel(e: Endpoint, fuel: nat, reply: PollReply, id: nat)
    requires Inv(e) && LegalPoll(e, fuel, reply)
    ensures PollKeeps(e, Poll(e, fuel, reply), fuel, MintedPoll(e, fuel, reply, id), id)
  {
    hide PollCleanup, PollGreen, PollActive, TakeDelivery, Preempt, Inv, Steps, LegalPollCleanup, LegalLoop, MintedLoop,
      MintedPreempt, LP.LegalPoll, LP.MintedPoll, GT.Minted, G.LegalTarget, G.LegalCleanup, G.TargetWorkPending;
    Unmoved(e, id);
    if fuel > 0 {
      if e.cleanup.Some? {
        PollCleanupSteps(e, fuel, reply.cleanup, id);
        StepsWeaken(e, PollCleanup(e, fuel, reply.cleanup).endpoint, 0, id);
      } else if G.TargetWorkPending(e.green) {
        PollGreenKeeps(e, fuel, reply, id);
      } else {
        TakeDeliverySteps(e, id);
        DeliveryKeepsClosing(e);
        if TakeDelivery(e).outcome == Ok(false) {
          PollActiveKeeps(e, fuel, reply, id);
        }
      }
    }
  }
}
