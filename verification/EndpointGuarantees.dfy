/**
 The endpoint's guarantees over every run: rollback, agreement, conservation,
 fresh and exclusive lanes, and a close that always drains.
 */
module EndpointGuarantees {
  import opened Engine
  import opened Candidate
  import opened CandidateTheorems
  import opened CandidateEdges
  import opened EndpointOps
  import opened EndpointTheorems
  import opened EndpointPolling
  import opened EndpointRuns
  import opened EndpointClosing
  import P = StreamProtocol
  import G = RecursiveGreen
  import GT = RecursiveGreenTheorems
  import L = Lanes
  import LT = LanesTheorems
  import LP = LanePoll

  // ------------------------------------------------------------- lane operations

  lemma ReceiptGood(l: L.Lanes, retained: Option<Ack>, receipt: LaneReceipt, id: nat)
    requires LT.Inv(l) && LT.Fresh(l, retained)
    ensures var l' := TakeReceipt(l, receipt).lanes;
      LT.Inv(l') && LT.NothingNew(l, l') && LT.Fate(l', id) == LT.Fate(l, id)
  {
    hide LT.Fresh;
    assert LT.HoldsLeaves([], id) == 0;
    hide LT.HoldsLeaves;
    LT.CancelSidecarGood(l, retained, id);
    LT.StreamEdgesGood(l, retained, id);
    LT.CancelPresentationGood(l, retained, id);
  }

  lemma ReceiptSteps(e: Endpoint, receipt: LaneReceipt, id: nat)
    requires Inv(e)
    ensures Steps(e, e.(lanes := TakeReceipt(e.lanes, receipt).lanes), true, 0, id)
  {
    hide Inv, Steps, TakeReceipt, LT.Inv, LT.Fresh, LT.NothingNew, LT.Fate;
    InvParts(e);
    ReceiptGood(e.lanes, RetainedAck(e), receipt, id);
    LanesMoved(e, TakeReceipt(e.lanes, receipt).lanes, 0, id);
  }

  function MintedHot(e: Endpoint, d: L.Demand, start: Option<Resource>, id: nat): nat {
    if LanesClosed(e) then 0
    else LT.MintedJob(L.CancelSidecar(e.lanes), L.RequestHot(e.lanes, RetainedAck(e), d, start).lanes, id)
  }

  lemma RequestSteps(e: Endpoint, op: Op, id: nat)
    requires Inv(e) && (op.OpRequestHot? || op.OpRequestViewport?)
    ensures Steps(e, Apply(e, op).endpoint, true, if op.OpRequestHot? then MintedHot(e, op.demand, op.start, id) else 0, id)
    ensures Apply(e, op).endpoint.closing == e.closing
  {
    hide Inv, Steps, L.RequestHot, L.RequestViewport, LT.Inv, LT.Fresh, LT.Fate, LT.GoodStep, LT.MintedJob, L.CancelSidecar;
    InvParts(e);
    Unmoved(e, id);
    if !LanesClosed(e) {
      match op
      case OpRequestHot(d, start) =>
        HotRequestGood(e.lanes, RetainedAck(e), d, start, id);
        LaneSteps(e, L.RequestHot(e.lanes, RetainedAck(e), d, start).lanes, MintedHot(e, d, start, id), id);
      case OpRequestViewport(c, leaves, spent) =>
        LT.RequestViewportGood(e.lanes, RetainedAck(e), c, leaves, spent, id);
        LaneSteps(e, L.RequestViewport(e.lanes, RetainedAck(e), c, leaves, spent).lanes, 0, id);
    }
  }

  lemma HotRequestGood(l: L.Lanes, retained: Option<Ack>, d: L.Demand, start: Option<Resource>, id: nat)
    requires LT.Inv(l) && LT.Fresh(l, retained)
    ensures var l' := L.RequestHot(l, retained, d, start).lanes;
      LT.GoodStep(l, l', retained, LT.MintedJob(L.CancelSidecar(l), l', id), id)
  {
    hide L.RequestHot, LT.GoodStep, LT.MintedJob;
    LT.RequestHotGood(l, retained, d, start, id);
  }

  // --------------------------------------------------------------- any operation

  /** Engine contract for one operation. */
  predicate Legal(e: Endpoint, op: Op) {
    match op
    case OpPoll(fuel, reply) => LegalPoll(e, fuel, reply)
    case OpPollCleanup(fuel, reply) => LegalPollCleanup(e, fuel, reply)
    case _ => true
  }

  /** Resources the engine creates during `op`. */
  function Minted(e: Endpoint, op: Op, id: nat): nat {
    match op
    case OpStartIncremental(context, reply) => MintedStart(e, context, reply, id)
    case OpPoll(fuel, reply) => MintedPoll(e, fuel, reply, id)
    case OpPollCleanup(fuel, reply) => MintedCleanup(e, fuel, reply, id)
    case OpRequestHot(d, start) => MintedHot(e, d, start, id)
    case _ => 0
  }

  /** Resources dropped by `op`: only a failed fallback over a pending cleanup drops any. */
  function Dropped(e: Endpoint, op: Op, id: nat): nat {
    if op.OpStartIncremental? then Lost(e, op.context, op.incremental, id) else 0
  }

  predicate IsDelivery(e: Endpoint, op: Op) {
    op.OpCredit? && Delivers(e, op.credit)
  }

  /** Everything but a delivery and a close owes the same base afterwards. */
  predicate KeepsBases(e: Endpoint, op: Op) {
    !IsDelivery(e, op) && !op.OpBeginClose?
  }

  lemma CreditIsDelivery(e: Endpoint, credit: P.Credit, event: nat, adoptOk: bool)
    requires Delivers(e, credit)
    ensures AcceptCredit(e, credit, event, adoptOk) == FinishDelivery(e, adoptOk)
  {
  }

  lemma StepKeepsClosing(e: Endpoint, op: Op)
    requires Inv(e) && Legal(e, op) && !op.OpBeginClose?
    ensures Apply(e, op).endpoint.closing == e.closing
  {
    hide LegalPoll, LegalPollCleanup, Poll, PollCleanup, StartIncremental, CancelForEdit, Cancel, Inv, FinishDelivery, TakeReceipt,
      RequestHot, RequestViewport, TakeDelivery, Start, HostPoll, AcceptCredit, CancelKeepingBullet, L.CancelAll;
    InvParts(e);
    match op
    case OpStart(context, admitted) => StartKeeps(e, context, admitted, 0);
    case OpStartIncremental(context, reply) => StartIncrementalStarts(e, context, reply, 0);
    case OpPoll(fuel, reply) => PollStaysWithinFuel(e, fuel, reply, 0);
    case OpCredit(credit, event, adoptOk) => CreditKeepsClosing(e, credit, event, adoptOk);
    case OpHostPoll(ticket, sameOffer, phase, result, resumeOk) =>
      HostPollKeepsClosing(e, ticket, sameOffer, phase, result, resumeOk);
    case OpCancel => CandidateTheorems.CancelKeeps(e, 0);
    case OpCancelForEdit(detachOk) => CancelForEditKeeps(e, detachOk, 0);
    case OpPollCleanup(fuel, reply) => PollCleanupSteps(e, fuel, reply, 0);
    case OpRequestHot(_, _) => RequestSteps(e, op, 0);
    case OpRequestViewport(_, _, _) => RequestSteps(e, op, 0);
    case OpCancelForSourceFacts => CancelKeepingBulletKeeps(e, 0);
    case _ =>
  }

  lemma CreditKeepsClosing(e: Endpoint, credit: P.Credit, event: nat, adoptOk: bool)
    ensures AcceptCredit(e, credit, event, adoptOk).endpoint.closing == e.closing
  {
    hide G.CommitDelivery, G.ReadyFor;
  }

  lemma HostPollKeepsClosing(e: Endpoint, ticket: nat, sameOffer: bool, phase: P.HostPhase, result: P.HostResult, resumeOk: bool)
    requires Shape(e)
    ensures HostPoll(e, ticket, sameOffer, phase, result, resumeOk).endpoint.closing == e.closing
  {
    hide Cancel, TakeDelivery, Shape;
    CandidateTheorems.CancelKeeps(e, 0);
    if e.active.Some? && e.active.value.Publishing? {
      var s := e.active.value.streaming;
      DeliveryKeepsClosing(At(e, s.(phase := P.AwaitRecursiveGreenDelivery)));
    }
  }

  /** One operation, failed or not: the invariant, the fate of every resource, and the bases. */
  ghost predicate OpKeeps(e: Endpoint, op: Op, id: nat) {
    var a := Apply(e, op);
    && Inv(a.endpoint)
    && Fate(a.endpoint, id) + Dropped(e, op, id) == Fate(e, id) + Minted(e, op, id)
    && (a.ok && KeepsBases(e, op) && !a.endpoint.closing ==>
          OwedBase(a.endpoint) == OwedBase(e) && GT.Owed(a.endpoint.green) == GT.Owed(e.green))
  }

  lemma OpSteps(e: Endpoint, op: Op, id: nat)
    requires Inv(e) && Legal(e, op)
    ensures OpKeeps(e, op, id)
  {
    hide LegalPoll, LegalPollCleanup, Poll, PollCleanup, Start, StartIncremental, CancelForEdit, Cancel, Inv, FinishDelivery,
      TakeReceipt, RequestHot, RequestViewport, HostPoll, AcceptCredit, BeginClose, Fate, OwedBase, GT.Owed, MintedPoll,
      MintedCleanup, MintedStart, MintedHot, Lost, Delivers, CancelKeepingBullet, PrepareBullet, L.CancelAll;
    match op
    case OpStart(context, admitted) => StartSteps(e, context, admitted, id);
    case OpStartIncremental(context, reply) => StartIncrementalSteps(e, context, reply, id);
    case OpPoll(fuel, reply) => PollStaysWithinFuel(e, fuel, reply, id);
    case OpCredit(credit, event, adoptOk) =>
      if Delivers(e, credit) {
        CreditIsDelivery(e, credit, event, adoptOk);
        DeliverySteps(e, adoptOk, id);
      } else {
        CreditSteps(e, credit, event, adoptOk, id);
      }
    case OpHostPoll(ticket, sameOffer, phase, result, resumeOk) =>
      HostPollSteps(e, ticket, sameOffer, phase, result, resumeOk, id);
    case OpCancel => CancelSteps(e, id);
    case OpCancelForEdit(detachOk) => CancelForEditSteps(e, detachOk, id);
    case OpBeginClose => BeginCloseSteps(e, id);
    case OpPollCleanup(fuel, reply) => PollCleanupSteps(e, fuel, reply, id);
    case OpRequestHot(_, _) => RequestSteps(e, op, id);
    case OpRequestViewport(_, _, _) => RequestSteps(e, op, id);
    case OpReceipt(receipt) => ReceiptSteps(e, receipt, id);
    case OpPrepareBullet(reply) => PrepareBulletSteps(e, reply, id);
    case OpDiscardBullet => ElsewhereSteps(e, None, id);
    case OpCancelForSourceFacts => CancelForSourceFactsSteps(e, id);
    case OpCancelLanes => ElsewhereSteps(e, None, id);
  }

  // ---------------------------------------------------------------------------- runs

  predicate LegalRun(e: Endpoint, ops: seq<Op>)
    decreases |ops|
  {
    ops == [] || (Legal(e, ops[0]) && LegalRun(Apply(e, ops[0]).endpoint, ops[1..]))
  }

  function MintedRun(e: Endpoint, ops: seq<Op>, id: nat): nat
    decreases |ops|
  {
    if ops == [] then 0 else Minted(e, ops[0], id) + MintedRun(Apply(e, ops[0]).endpoint, ops[1..], id)
  }

  function DroppedRun(e: Endpoint, ops: seq<Op>, id: nat): nat
    decreases |ops|
  {
    if ops == [] then 0 else Dropped(e, ops[0], id) + DroppedRun(Apply(e, ops[0]).endpoint, ops[1..], id)
  }

  /** Every operation of the run succeeds, and none delivers or closes. */
  predicate ShortOfDelivery(e: Endpoint, ops: seq<Op>)
    decreases |ops|
  {
    ops == [] ||
    (&& Apply(e, ops[0]).ok && KeepsBases(e, ops[0])
     && ShortOfDelivery(Apply(e, ops[0]).endpoint, ops[1..]))
  }

  ghost predicate Reachable(e: Endpoint) {
    exists ops: seq<Op> :: LegalRun(New, ops) && Run(New, ops) == e
  }

  lemma {:induction false} RunSteps(e: Endpoint, ops: seq<Op>, id: nat)
    requires Inv(e) && LegalRun(e, ops)
    ensures Inv(Run(e, ops))
    ensures Fate(Run(e, ops), id) + DroppedRun(e, ops, id) == Fate(e, id) + MintedRun(e, ops, id)
    decreases |ops|
  {
    hide Legal, Apply, Inv, Fate, Minted, Dropped;
    if ops != [] {
      OpSteps(e, ops[0], id);
      RunSteps(Apply(e, ops[0]).endpoint, ops[1..], id);
    }
  }

  lemma ReachableInv(e: Endpoint)
    requires Reachable(e)
    ensures Inv(e)
  {
    hide Inv, LegalRun, Run;
    NewInv();
    var ops: seq<Op> :| LegalRun(New, ops) && Run(New, ops) == e;
    RunSteps(New, ops, 0);
  }

  /**
   Conservation: over every run of a new endpoint, failed operations included,
   each engine resource minted once is owned in one place or was released once,
   unless a failed fallback dropped the cleanup that held it.
   */
  lemma EachResourceHasOneFate(ops: seq<Op>, id: nat)
    requires LegalRun(New, ops) && MintedRun(New, ops, id) <= 1
    ensures Fate(Run(New, ops), id) + DroppedRun(New, ops, id) == MintedRun(New, ops, id)
    ensures Fate(Run(New, ops), id) <= 1
  {
    hide Fate, LegalRun, Run, MintedRun, DroppedRun;
    NewInv();
    RunSteps(New, ops, id);
  }

  // ------------------------------------------------------------------------ rollback

  lemma {:induction false} RunKeepsBases(e: Endpoint, ops: seq<Op>)
    requires Inv(e) && !e.closing && LegalRun(e, ops) && ShortOfDelivery(e, ops)
    ensures !Run(e, ops).closing
    ensures OwedBase(Run(e, ops)) == OwedBase(e) && GT.Owed(Run(e, ops).green) == GT.Owed(e.green)
    decreases |ops|
  {
    hide Legal, Apply, Inv, Fate, OwedBase, GT.Owed, IsDelivery, Minted, Dropped;
    if ops != [] {
      OpSteps(e, ops[0], 0);
      StepKeepsClosing(e, ops[0]);
      RunKeepsBases(Apply(e, ops[0]).endpoint, ops[1..]);
    }
  }

  /** No candidate, no cleanup and no slot work: nothing of a transaction is left. */
  predicate Idle(e: Endpoint) {
    e.active.None? && e.cleanup.None? && e.green.pending.None? && e.green.cleanup == []
  }

  function Released(e: Endpoint, id: nat): nat {
    e.released[id] + e.green.released[id] + e.lanes.released[id]
  }

  lemma IdleFate(e: Endpoint, id: nat)
    requires Idle(e)
    ensures OwedBase(e) == e.retained && GT.Owed(e.green) == e.green.installed
    ensures Fate(e, id) == Released(e, id) + LT.OwnedLane(e.lanes, id) + GT.HoldsInstalled(e.green.installed, id)
                           + (if e.retained.Some? then HoldsBase(e.retained.value, id) else 0)
  {
  }

  /**
   Rollback: from an idle endpoint, run any start, polls, credits, host polls,
   cancels, cleanup polls and lane requests that succeed short of a delivery. If
   the endpoint ends idle, it retains exactly the base it began with - the same
   publication, ack and restart authority - and the slot has exactly the same
   session installed. Everything minted on the way and not held by a lane has
   been released, once.
   */
  lemma CancelIsRollback(e: Endpoint, ops: seq<Op>, id: nat)
    requires Inv(e) && !e.closing && Idle(e)
    requires LegalRun(e, ops) && ShortOfDelivery(e, ops) && Idle(Run(e, ops))
    ensures Run(e, ops).retained == e.retained
    ensures Run(e, ops).green.installed == e.green.installed
    ensures Released(Run(e, ops), id) + LT.OwnedLane(Run(e, ops).lanes, id)
         == Released(e, id) + LT.OwnedLane(e.lanes, id) + MintedRun(e, ops, id)
  {
    hide Inv, LegalRun, ShortOfDelivery, Run, MintedRun, DroppedRun, LT.OwnedLane, Fate, Released, OwedBase, GT.Owed;
    RunSteps(e, ops, id);
    RunKeepsBases(e, ops);
    NothingDropped(e, ops, id);
    IdleFate(e, id);
    IdleFate(Run(e, ops), id);
  }

  /** A run of successes drops nothing: only a failed start can overwrite a cleanup. */
  lemma {:induction false} NothingDropped(e: Endpoint, ops: seq<Op>, id: nat)
    requires ShortOfDelivery(e, ops)
    ensures DroppedRun(e, ops, id) == 0
    decreases |ops|
  {
    hide Apply, KeepsBases;
    if ops != [] {
      if ops[0].OpStartIncremental? {
        SuccessDropsNothing(e, ops[0], id);
      }
      NothingDropped(Apply(e, ops[0]).endpoint, ops[1..], id);
    }
  }

  lemma SuccessDropsNothing(e: Endpoint, op: Op, id: nat)
    requires op.OpStartIncremental? && Apply(e, op).ok
    ensures Dropped(e, op, id) == 0
  {
    hide G.StartIncremental, L.CancelAll;
  }

  // ------------------------------------------------------------------------- draining

  datatype Quantum = Quantum(fuel: nat, reply: CleanupReply)

  function Drain(e: Endpoint, quanta: seq<Quantum>): Endpoint
    decreases |quanta|
  {
    if quanta == [] then e else Drain(PollCleanup(e, quanta[0].fuel, quanta[0].reply).endpoint, quanta[1..])
  }

  /** Cleanup is polled while it is pending, with legal answers, and no poll fails. */
  predicate Draining(e: Endpoint, quanta: seq<Quantum>)
    decreases |quanta|
  {
    quanta == [] ||
    (&& CleanupPending(e) && Answers(e, quanta[0].fuel, quanta[0].reply)
     && PollCleanup(e, quanta[0].fuel, quanta[0].reply).outcome.Ok?
     && Draining(PollCleanup(e, quanta[0].fuel, quanta[0].reply).endpoint, quanta[1..]))
  }

  /** However the fuel is sliced, a drain takes no more polls than the debt it began with. */
  lemma {:induction false} DrainIsBounded(e: Endpoint, quanta: seq<Quantum>, id: nat)
    requires Settling(e) && Draining(e, quanta)
    ensures |quanta| + Debt(Drain(e, quanta)) <= Debt(e)
    ensures Settling(Drain(e, quanta)) && Drain(e, quanta).closing == e.closing
    ensures !e.closing ==> OwedBase(Drain(e, quanta)) == OwedBase(e) && GT.Owed(Drain(e, quanta).green) == GT.Owed(e.green)
    decreases |quanta|
  {
    hide PollCleanup, Settling, Debt, CleanupPending, Answers, OwedBase, GT.Owed;
    if quanta != [] {
      CleanupPollPays(e, quanta[0].fuel, quanta[0].reply);
      SettlingPoll(e, quanta[0].fuel, quanta[0].reply);
      DrainIsBounded(PollCleanup(e, quanta[0].fuel, quanta[0].reply).endpoint, quanta[1..], id);
    }
  }

  lemma SettlingPoll(e: Endpoint, fuel: nat, reply: CleanupReply)
    requires Settling(e) && Answers(e, fuel, reply)
    ensures !e.closing ==> OwedBase(PollCleanup(e, fuel, reply).endpoint) == OwedBase(e)
    ensures !e.closing ==> GT.Owed(PollCleanup(e, fuel, reply).endpoint.green) == GT.Owed(e.green)
  {
    hide PollCleanup, Inv, LegalPollCleanup, OwedBase, GT.Owed;
    PollCleanupSteps(e, fuel, reply, 0);
  }

  /**
   A successful cancel, whatever the candidate was doing, and any complete drain
   after it give the base back exactly as it was owed: retained under its own
   ack with its restart authority, with the slot's session installed again.
   */
  lemma CancelThenDrainRestores(e: Endpoint, quanta: seq<Quantum>)
    requires Inv(e) && !e.closing && Cancel(e).outcome.Ok?
    requires Draining(Cancel(e).endpoint, quanta) && !CleanupPending(Drain(Cancel(e).endpoint, quanta))
    ensures Idle(Drain(Cancel(e).endpoint, quanta))
    ensures Drain(Cancel(e).endpoint, quanta).retained == OwedBase(e)
    ensures Drain(Cancel(e).endpoint, quanta).green.installed == GT.Owed(e.green)
    ensures |quanta| <= Debt(Cancel(e).endpoint)
  {
    hide Cancel, Drain, Draining, Debt, Inv, OwedBase, GT.Owed, Settling;
    InvParts(e);
    CandidateTheorems.CancelKeeps(e, 0);
    CancelSteps(e, 0);
    var c := Cancel(e).endpoint;
    CancelSettles(e);
    DrainIsBounded(c, quanta, 0);
    var d := Drain(c, quanta);
    SettledIdle(d);
    IdleFate(d, 0);
  }

  /**
   The whole story of a cancelled edit: an incremental start, any successful
   operations short of a delivery, a successful cancel and a complete drain leave
   the endpoint retaining exactly the base the edit took - the same publication,
   ack and restart authority - with the slot's session installed as before.
   */
  lemma CancelledEditRestoresBase(e: Endpoint, context: Context, reply: IncrementalReply, ops: seq<Op>, quanta: seq<Quantum>)
    requires Inv(e) && StartIncremental(e, context, reply).outcome.Ok?
    requires var m := StartIncremental(e, context, reply).endpoint;
      && LegalRun(m, ops) && ShortOfDelivery(m, ops)
      && Cancel(Run(m, ops)).outcome.Ok?
      && Draining(Cancel(Run(m, ops)).endpoint, quanta)
      && !CleanupPending(Drain(Cancel(Run(m, ops)).endpoint, quanta))
    ensures var d := Drain(Cancel(Run(StartIncremental(e, context, reply).endpoint, ops)).endpoint, quanta);
      && Idle(d) && d.retained == e.retained && d.green.installed == GT.Owed(e.green)
      && d.retained.Some? && d.retained.value.restart.Some?
  {
    hide Inv, StartIncremental, LegalRun, ShortOfDelivery, Run, Cancel, Draining, Drain, CleanupPending, OwedBase, GT.Owed, Debt;
    var m := StartIncremental(e, context, reply).endpoint;
    StartTakesBase(e, context, reply);
    StartIncrementalSteps(e, context, reply, 0);
    InvParts(e);
    StartIncrementalStarts(e, context, reply, 0);
    RunSteps(m, ops, 0);
    RunKeepsBases(m, ops);
    CancelThenDrainRestores(Run(m, ops), quanta);
  }

  /** A successful incremental start had a base with a restart authority to take. */
  lemma StartTakesBase(e: Endpoint, context: Context, reply: IncrementalReply)
    requires StartIncremental(e, context, reply).outcome.Ok?
    ensures !e.closing && e.retained.Some? && e.retained.value.restart.Some? && OwedBase(e) == e.retained
  {
    hide G.StartIncremental, L.CancelAll;
  }

  lemma CancelSettles(e: Endpoint)
    requires Inv(e) && Cancel(e).outcome.Ok?
    ensures Settling(Cancel(e).endpoint)
  {
    hide Cancel, Inv, Shape, Keeps, G.RequestCancel, L.CancelAll, Steps;
    InvParts(e);
    CandidateTheorems.CancelKeeps(e, 0);
    CancelSteps(e, 0);
    StepsInv(e, Cancel(e).endpoint, true, 0, 0);
    LT.CancelAllQuiets(e.lanes, 0);
    CancelLeavesNoPending(e.green);
  }

  lemma CancelLeavesNoPending(s: G.Slot)
    ensures G.RequestCancel(s).pending.None?
  {
  }

  lemma SettledIdle(e: Endpoint)
    requires Settling(e) && !e.closing && !CleanupPending(e)
    ensures Idle(e)
  {
  }

  /** The endpoint owns nothing: not a base, a session, a target, a job or a root. */
  predicate OwnsNothing(e: Endpoint) {
    && e.active.None? && e.cleanup.None? && e.retained.None?
    && e.green.installed.None? && e.green.pending.None? && e.green.cleanup == []
    && e.lanes.viewport.None? && e.lanes.hot.None? && e.lanes.sidecar.None?
  }

  lemma NothingOwnedMeansReleased(e: Endpoint, id: nat)
    requires OwnsNothing(e)
    ensures Fate(e, id) == Released(e, id)
  {
  }

  /** A close whose cleanup polls all succeed ends within `Debt` polls, and then nothing at all is owned. */
  lemma DrainsWhenAllSucceed(e: Endpoint, quanta: seq<Quantum>)
    requires Inv(e) && Draining(BeginClose(e).endpoint, quanta)
    ensures BeginClose(e).outcome.Ok?
    ensures |quanta| <= Debt(BeginClose(e).endpoint)
    ensures !CleanupPending(Drain(BeginClose(e).endpoint, quanta)) ==> OwnsNothing(Drain(BeginClose(e).endpoint, quanta))
  {
    hide BeginClose, Drain, Draining, Debt, Inv, CleanupPending;
    BeginCloseSteps(e, 0);
    var c := BeginClose(e).endpoint;
    DrainIsBounded(c, quanta, 0);
    if !CleanupPending(Drain(c, quanta)) {
      ClosedOwnsNothing(Drain(c, quanta));
    }
  }

  lemma ClosedOwnsNothing(e: Endpoint)
    requires e.closing && !CleanupPending(e)
    ensures OwnsNothing(e)
  {
  }

  // ---------------------------------------------------------- in every reachable state

  /**
   Agreement: before closing, whenever a base is owed under some ack - retained,
   inside a candidate, or waiting behind an exact stream - the slot's one
   authority carries that same ack.
   */
  lemma AuthoritiesAgree(e: Endpoint)
    requires Reachable(e) && !e.closing && OwedBase(e).Some?
    ensures GT.Single(e.green)
    ensures GT.Owed(e.green).Some? && GT.Owed(e.green).value.ack == OwedBase(e).value.ack
  {
    ReachableInv(e);
  }

  /**
   Lane exclusion and freshness in every reachable state: what is live names the
   latest generation and the retained ack, and - although work is reused by leaf
   identity alone - was also created under the retained ack.
   */
  lemma LanesNeverStale(e: Endpoint)
    requires Reachable(e)
    ensures LT.Occupied(e.lanes) <= 1
    ensures LT.LiveCommand(e.lanes).Some? ==>
      && e.retained.Some? && LT.LiveCommand(e.lanes).value.baseAck == e.retained.value.ack
      && LT.LiveCommand(e.lanes).value.generation == e.lanes.lastHot
    ensures e.lanes.sidecar.Some? ==>
      && e.retained.Some? && e.lanes.sidecar.value.command.baseAck == e.retained.value.ack
      && e.lanes.sidecar.value.command.generation == e.lanes.lastHot
    ensures LT.Origin(e.lanes).Some? ==> e.retained.Some? && LT.Origin(e.lanes).value == e.retained.value.ack
    ensures LT.Increasing(e.lanes.published)
    ensures e.active.Some? ==> LT.Quiet(e.lanes)
  {
    ReachableInv(e);
  }

  /**
   Credit safety in every reachable state: Commit is out and a delivery awaited
   only for a sealed target, always for the ack the endpoint itself expects; a
   stream whose sealing failed never gets past the End packet's credit.
   */
  lemma CommitOnlyWhenSealed(e: Endpoint, left: nat, reply: ActiveReply)
    requires Reachable(e) && e.active.Some? && e.active.value.Publishing?
    ensures var s := e.active.value.streaming;
      && (s.phase.AwaitCommitReceipt? || s.phase.AwaitCommitHost?
          || s.phase.AwaitRecursiveGreenDelivery? || s.phase.AwaitDeliveryReceipt? ==>
            s.sealed.Some? && s.stream.None? && s.expectedAck == Some(ExpectedAck(s.context)))
      && (s.phase.NeedBegin? || s.phase.NeedPacket? ==> s.stream.Some? && s.sealed.None? && s.expectedAck.None?)
      && (s.phase.NeedCommit? && s.sealed.None? ==> AdvanceActive(e, left, reply) == Return(e, PollError(InvalidState)))
  {
    ReachableInv(e);
  }
}
