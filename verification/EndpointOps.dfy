/**
 The endpoint's public operations over the candidate transaction, the
 recursive-Green slot and the inline lanes, and runs of them.
 */
module EndpointOps {
  import opened Engine
  import opened Candidate
  import P = StreamProtocol
  import G = RecursiveGreen
  import GT = RecursiveGreenTheorems
  import L = Lanes
  import LT = LanesTheorems
  import LP = LanePoll

  /** Engine answers to one poll; each branch of `Poll` reads only its own. */
  datatype PollReply = PollReply(
    cleanup: CleanupReply, target: G.TargetReply, greenCleanup: ReleaseReply,
    preempt: PreemptReply, lane: LP.LaneReply, active: seq<ActiveReply>)

  datatype Answer = Answer(endpoint: Endpoint, result: PollResult)

  /** The recursive-Green target moves first; its completion may release a waiting delivery. */
  function PollGreen(e: Endpoint, fuel: nat, reply: PollReply): Answer {
    var green := G.PollTarget(e.green, fuel, reply.target);
    var e := e.(green := green.slot);
    if green.outcome.Err? then Answer(e, PollError(green.outcome.error))
    else
      var delivery := TakeDelivery(e);
      if delivery.outcome.Err? then Answer(delivery.endpoint, PollError(delivery.outcome.error))
      else Answer(delivery.endpoint,
                  if delivery.outcome.value then Event(green.outcome.value) else Pending(green.outcome.value))
  }

  /** No candidate is active: drain the slot, then serve the lanes. */
  function PollIdle(e: Endpoint, fuel: nat, reply: PollReply): Answer {
    if e.green.cleanup != [] then
      var green := G.PollCleanup(e.green, fuel, reply.greenCleanup);
      Answer(e.(green := green.slot),
             if green.outcome.Ok? then Pending(green.outcome.value) else PollError(green.outcome.error))
    else
      var lane := LP.Poll(e.lanes, fuel, RetainedAck(e), reply.lane);
      Answer(e.(lanes := lane.lanes),
             if lane.outcome.Ok? then Pending(lane.outcome.value) else PollError(lane.outcome.error))
  }

  function PollActive(e: Endpoint, fuel: nat, reply: PollReply): Answer {
    var preempted := Preempt(e, reply.preempt);
    if preempted.outcome.Err? then Answer(preempted.endpoint, PollError(preempted.outcome.error))
    else if preempted.outcome.value then Answer(preempted.endpoint, Pending(1))
    else if e.active.None? then PollIdle(e, fuel, reply)
    else
      var (e', result) := AdvanceLoop(e, fuel, 0, reply.active);
      Answer(e', result)
  }

  /** `poll`. */
  function Poll(e: Endpoint, fuel: nat, reply: PollReply): Answer {
    if fuel == 0 then Answer(e, PollError(InvalidState))
    else if e.cleanup.Some? then
      var cleaned := PollCleanup(e, fuel, reply.cleanup);
      Answer(cleaned.endpoint,
             if cleaned.outcome.Err? then PollError(cleaned.outcome.error)
             else Pending(if cleaned.outcome.value then 1 else fuel))
    else if G.TargetWorkPending(e.green) then PollGreen(e, fuel, reply)
    else
      var delivery := TakeDelivery(e);
      if delivery.outcome.Err? then Answer(delivery.endpoint, PollError(delivery.outcome.error))
      else if delivery.outcome.value then Answer(delivery.endpoint, Event(0))
      else PollActive(e, fuel, reply)
  }

  // ----------------------------------------------------------------- lane requests

  /** Cleanup other than the release of a superseded publication keeps the lanes closed. */
  predicate LanesClosed(e: Endpoint) {
    || e.closing || e.active.Some?
    || (e.cleanup.Some? && !(e.cleanup.value.CloseOne? && e.cleanup.value.kind.RetainedPublication?))
  }

  function RequestHot(e: Endpoint, d: L.Demand, start: Option<Resource>): Result<()> {
    if LanesClosed(e) then Result(e, Err(Busy))
    else
      var r := L.RequestHot(e.lanes, RetainedAck(e), d, start);
      Result(e.(lanes := r.lanes), if r.outcome.Ok? then Ok(()) else Err(r.outcome.error))
  }

  function RequestViewport(e: Endpoint, c: L.ViewCommand, leaves: nat, spent: nat): Result<()> {
    if LanesClosed(e) then Result(e, Err(Busy))
    else
      var r := L.RequestViewport(e.lanes, RetainedAck(e), c, leaves, spent);
      Result(e.(lanes := r.lanes), if r.outcome.Ok? then Ok(()) else Err(r.outcome.error))
  }

  /** What the host's receipts and polls can do to a lane: reject or complete its stream. */
  datatype LaneReceipt = SidecarRejected | SidecarDelivered | StreamRejected | StreamDelivered

  function TakeReceipt(l: L.Lanes, receipt: LaneReceipt): L.LaneStep {
    match receipt
    case SidecarRejected => L.LaneStep(L.CancelSidecar(l), Ok(0))
    case SidecarDelivered => L.FinishSidecar(l)
    case StreamRejected => L.LaneStep(L.CancelPresentation(l), Ok(0))
    case StreamDelivered => L.FinishStream(l)
  }

  // ------------------------------------------------------------------------- runs

  datatype Op =
    | OpStart(context: Context, admitted: bool)
    | OpStartIncremental(context: Context, incremental: IncrementalReply)
    | OpPoll(fuel: nat, poll: PollReply)
    | OpCredit(credit: P.Credit, event: nat, adoptOk: bool)
    | OpHostPoll(ticket: nat, sameOffer: bool, phase: P.HostPhase, result: P.HostResult, resumeOk: bool)
    | OpCancel
    | OpCancelForEdit(detachOk: bool)
    | OpBeginClose
    | OpPollCleanup(fuel: nat, cleanup: CleanupReply)
    | OpRequestHot(demand: L.Demand, start: Option<Resource>)
    | OpRequestViewport(view: L.ViewCommand, leaves: nat, spent: nat)
    | OpReceipt(receipt: LaneReceipt)
    | OpPrepareBullet(prepare: PrepareReply)
    | OpDiscardBullet
    | OpCancelForSourceFacts
    | OpCancelLanes

  /** The state after an operation, and whether the operation succeeded. */
  datatype Applied = Applied(endpoint: Endpoint, ok: bool)

  function Done<T>(r: Result<T>): Applied {
    Applied(r.endpoint, r.outcome.Ok?)
  }

  function Apply(e: Endpoint, op: Op): Applied {
    match op
    case OpStart(context, admitted) => Done(Start(e, context, admitted))
    case OpStartIncremental(context, reply) => Done(StartIncremental(e, context, reply))
    case OpPoll(fuel, reply) =>
      var p := Poll(e, fuel, reply);
      Applied(p.endpoint, !p.result.PollError?)
    case OpCredit(credit, event, adoptOk) => Done(AcceptCredit(e, credit, event, adoptOk))
    case OpHostPoll(ticket, sameOffer, phase, result, resumeOk) => Done(HostPoll(e, ticket, sameOffer, phase, result, resumeOk))
    case OpCancel => Done(Cancel(e))
    case OpCancelForEdit(detachOk) => Done(CancelForEdit(e, detachOk))
    case OpBeginClose => Done(BeginClose(e))
    case OpPollCleanup(fuel, reply) => Done(PollCleanup(e, fuel, reply))
    case OpRequestHot(d, start) => Done(RequestHot(e, d, start))
    case OpRequestViewport(c, leaves, spent) => Done(RequestViewport(e, c, leaves, spent))
    case OpReceipt(receipt) =>
      var r := TakeReceipt(e.lanes, receipt);
      Applied(e.(lanes := r.lanes), r.outcome.Ok?)
    case OpPrepareBullet(reply) => Done(PrepareBullet(e, reply))
    case OpDiscardBullet => Applied(e.(bullet := None), true)
    case OpCancelForSourceFacts => Done(CancelKeepingBullet(e))
    case OpCancelLanes => Applied(e.(lanes := L.CancelAll(e.lanes)), true)
  }

  function Run(e: Endpoint, ops: seq<Op>): Endpoint
    decreases |ops|
  {
    if ops == [] then e else Run(Apply(e, ops[0]).endpoint, ops[1..])
  }
}
