/**
 Delivery follows only the host's own acknowledgement: no operation but a host
 poll that commits the expected ack brings a stream to the point of delivery.
 */
module EndpointCredits {
  import opened Engine
  import opened Candidate
  import opened CandidateTheorems
  import opened CandidateEdges
  import opened EndpointOps
  import opened EndpointGuarantees
  import P = StreamProtocol
  import G = RecursiveGreen
  import L = Lanes
  import LP = LanePoll

  /** The host has confirmed the stream's commit. */
  predicate Confirmed(e: Endpoint) {
    && e.active.Some? && e.active.value.Publishing?
    && (e.active.value.streaming.phase.AwaitRecursiveGreenDelivery? || e.active.value.streaming.phase.AwaitDeliveryReceipt?)
  }

  /** `e'` is confirmed only if `e` was, for the same stream. */
  predicate ConfirmsNothing(e: Endpoint, e': Endpoint) {
    Confirmed(e') ==> Confirmed(e)
  }

  lemma AdvanceConfirmsNothing(e: Endpoint, left: nat, reply: ActiveReply)
    requires e.active.Some?
    ensures ConfirmsNothing(e, AdvanceActive(e, left, reply).endpoint)
  {
    hide G.OwnsBaseAuthority, G.ReadyUpdateFor, G.IncrementalCleanReady, G.InitialCleanReady;
  }

  lemma {:induction false} LoopConfirmsNothing(e: Endpoint, fuel: nat, spent: nat, replies: seq<ActiveReply>)
    ensures ConfirmsNothing(e, AdvanceLoop(e, fuel, spent, replies).0)
    decreases |replies|
  {
    hide AdvanceActive;
    if spent < fuel && replies != [] && e.active.Some? {
      AdvanceConfirmsNothing(e, fuel - spent, replies[0]);
      var a := AdvanceActive(e, fuel - spent, replies[0]);
      if a.Again? {
        LoopConfirmsNothing(a.endpoint, fuel, spent + a.spent, replies[1..]);
      }
    }
  }

  lemma TakeConfirmsNothing(e: Endpoint)
    ensures ConfirmsNothing(e, TakeDelivery(e).endpoint)
    ensures TakeDelivery(e).outcome == Ok(false) ==> TakeDelivery(e).endpoint == e
  {
    hide G.ReadyFor;
  }

  lemma PreemptConfirmsNothing(e: Endpoint, reply: PreemptReply)
    ensures ConfirmsNothing(e, Preempt(e, reply).endpoint)
    ensures Preempt(e, reply).outcome == Ok(false) ==> Preempt(e, reply).endpoint == e
  {
    hide G.ReadyUpdateFor, G.CleanReadyForBase, G.RequestCancel;
  }

  lemma CancelConfirmsNothing(e: Endpoint, detachOk: bool)
    ensures ConfirmsNothing(e, Cancel(e).endpoint)
    ensures ConfirmsNothing(e, CancelForEdit(e, detachOk).endpoint)
    ensures ConfirmsNothing(e, CancelKeepingBullet(e).endpoint)
  {
    hide G.RequestCancel, L.CancelAll;
  }

  lemma ScheduleConfirmsNothing(e: Endpoint)
    ensures ConfirmsNothing(e, ScheduleClose(e).endpoint)
  {
    hide G.BeginClose, L.CancelAll, Cancel;
    if e.active.Some? {
      CancelConfirmsNothing(e.(green := G.BeginClose(e.green), lanes := L.CancelAll(e.lanes)), true);
    }
  }

  lemma CleanupConfirmsNothing(e: Endpoint, fuel: nat, reply: CleanupReply)
    ensures ConfirmsNothing(e, PollCleanup(e, fuel, reply).endpoint)
  {
    hide G.PollCleanup, G.BeginClose, PollOwnCleanup, PollLaneCleanup;
    if fuel > 0 {
      var polled := G.PollCleanup(e.green, fuel, reply.green);
      LaneCleanupConfirmsNothing(e.(green := if e.closing && polled.outcome.Ok? then G.BeginClose(polled.slot) else polled.slot), fuel, reply);
      OwnCleanupConfirmsNothing(e, fuel, reply);
    }
  }

  lemma LaneCleanupConfirmsNothing(e: Endpoint, fuel: nat, reply: CleanupReply)
    requires fuel > 0
    ensures ConfirmsNothing(e, PollLaneCleanup(e, fuel, reply).endpoint)
  {
    hide PollLanes, ScheduleClose, CleanupPending;
    ScheduleConfirmsNothing(e.(lanes := PollLanes(e.lanes, fuel, e.retained.Some?, reply).lanes));
  }

  lemma OwnCleanupConfirmsNothing(e: Endpoint, fuel: nat, reply: CleanupReply)
    requires fuel > 0
    ensures ConfirmsNothing(e, PollOwnCleanup(e, fuel, reply).endpoint)
  {
    hide PollLaneCleanup, ScheduleClose, PollCandidateCleanup;
    if e.cleanup.None? {
      LaneCleanupConfirmsNothing(e, fuel, reply);
    } else {
      CandidateCleanupLeavesActive(e, fuel, reply);
      ScheduleConfirmsNothing(PollCandidateCleanup(e, fuel, reply).endpoint);
    }
  }

  lemma CandidateCleanupLeavesActive(e: Endpoint, fuel: nat, reply: CleanupReply)
    requires fuel > 0 && e.cleanup.Some?
    ensures PollCandidateCleanup(e, fuel, reply).endpoint.active == e.active
  {
    hide PollPart;
  }

  lemma PollConfirmsNothing(e: Endpoint, fuel: nat, reply: PollReply)
    ensures ConfirmsNothing(e, Poll(e, fuel, reply).endpoint)
  {
    hide PollCleanup, G.PollTarget, TakeDelivery, Preempt, AdvanceLoop, LP.Poll, G.PollCleanup, G.TargetWorkPending;
    CleanupConfirmsNothing(e, fuel, reply.cleanup);
    TakeConfirmsNothing(e);
    TakeConfirmsNothing(e.(green := G.PollTarget(e.green, fuel, reply.target).slot));
    PreemptConfirmsNothing(e, reply.preempt);
    LoopConfirmsNothing(e, fuel, 0, reply.active);
  }

  lemma StartConfirmsNothing(e: Endpoint, context: Context, admitted: bool, reply: IncrementalReply)
    ensures ConfirmsNothing(e, Start(e, context, admitted).endpoint)
    ensures ConfirmsNothing(e, StartIncremental(e, context, reply).endpoint)
  {
    hide G.StartClean, G.StartIncremental, L.CancelAll, G.OwnsBaseAuthority;
  }

  lemma CreditConfirmsNothing(e: Endpoint, credit: P.Credit, event: nat, adoptOk: bool)
    ensures ConfirmsNothing(e, AcceptCredit(e, credit, event, adoptOk).endpoint)
  {
    hide G.CommitDelivery, G.ReadyFor;
  }

  /** A host poll confirms a stream only by committing the very ack the endpoint expects. */
  lemma HostPollConfirms(e: Endpoint, ticket: nat, sameOffer: bool, phase: P.HostPhase, result: P.HostResult, resumeOk: bool)
    requires !Confirmed(e) && Confirmed(HostPoll(e, ticket, sameOffer, phase, result, resumeOk).endpoint)
    ensures e.active.Some? && e.active.value.Publishing? && result.Committed?
    ensures e.active.value.streaming.phase == P.AwaitCommitHost(ticket) && sameOffer && phase.HostCommit?
    ensures e.active.value.streaming.expectedAck == Some(result.ack)
  {
    hide Cancel, G.ReadyFor;
    CancelConfirmsNothing(e, true);
  }

  /**
   Delivery follows only an exact host ack: over every operation of the endpoint,
   a stream becomes deliverable only through a host poll for its own ticket that
   commits exactly the ack this endpoint sealed the target for.
   */
  lemma DeliveryFollowsExactAck(e: Endpoint, op: Op)
    requires Reachable(e) && !Confirmed(e) && Confirmed(Apply(e, op).endpoint)
    ensures op.OpHostPoll? && e.active.Some? && e.active.value.Publishing? && op.sameOffer
    ensures op.result == P.Committed(ExpectedAck(e.active.value.streaming.context))
    ensures e.active.value.streaming.phase == P.AwaitCommitHost(op.ticket)
  {
    hide Reachable, Start, StartIncremental, Poll, AcceptCredit, HostPoll, Cancel, CancelForEdit, PollCleanup, ScheduleClose,
      RequestHot, RequestViewport, TakeReceipt, CancelKeepingBullet, L.CancelAll;
    match op
    case OpStart(context, admitted) => StartConfirmsNothing(e, context, admitted, AnyReply);
    case OpStartIncremental(context, reply) => StartConfirmsNothing(e, context, true, reply);
    case OpPoll(fuel, reply) => PollConfirmsNothing(e, fuel, reply);
    case OpCredit(credit, event, adoptOk) => CreditConfirmsNothing(e, credit, event, adoptOk);
    case OpHostPoll(ticket, sameOffer, phase, result, resumeOk) =>
      HostPollConfirms(e, ticket, sameOffer, phase, result, resumeOk);
      CommitOnlyWhenSealed(e, 0, ActiveReply.Failed);
    case OpCancel => CancelConfirmsNothing(e, true);
    case OpCancelForEdit(detachOk) => CancelConfirmsNothing(e, detachOk);
    case OpBeginClose =>
      ScheduleConfirmsNothing(e.(closing := true, lanes := e.lanes.(unavailable := None), bullet := None));
    case OpPollCleanup(fuel, reply) => CleanupConfirmsNothing(e, fuel, reply);
    case OpRequestHot(d, start) => RequestConfirmsNothing(e, op);
    case OpRequestViewport(_, _, _) => RequestConfirmsNothing(e, op);
    case OpCancelForSourceFacts => CancelConfirmsNothing(e, true);
    case _ =>
  }

  const AnyReply: IncrementalReply :=
    IncrementalReply(false, false, false, false, CropRefused, false, G.StartReply(false, false, None))

  lemma RequestConfirmsNothing(e: Endpoint, op: Op)
    requires op.OpRequestHot? || op.OpRequestViewport?
    ensures Apply(e, op).endpoint.active == e.active
  {
    hide L.RequestHot, L.RequestViewport;
  }
}
