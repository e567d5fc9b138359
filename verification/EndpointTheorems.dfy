/**
 What every operation of the endpoint keeps: the transaction's shape, a single
 recursive-Green authority that agrees with the base owed, fresh and exclusive
 lanes, and the fate of every engine resource.
 */
module EndpointTheorems {
  import opened Engine
  import opened Candidate
  import opened CandidateTheorems
  import opened CandidateEdges
  import opened EndpointOps
  import P = StreamProtocol
  import G = RecursiveGreen
  import GT = RecursiveGreenTheorems
  import L = Lanes
  import LT = LanesTheorems
  import LP = LanePoll

  // ------------------------------------------------------------------- invariant

  /** Before closing, the slot's single authority carries the ack of the base owed. */
  ghost predicate Agrees(e: Endpoint) {
    !e.closing && OwedBase(e).Some? ==>
      GT.Owed(e.green).Some? && GT.Owed(e.green).value.ack == OwedBase(e).value.ack
  }

  /** At most one lane is occupied, nothing in it is stale, and a candidate keeps the lanes quiet. */
  ghost predicate LanesInv(e: Endpoint) {
    && LT.Inv(e.lanes) && LT.Fresh(e.lanes, RetainedAck(e))
    && (e.active.Some? || (e.closing && e.cleanup.None?) ==> LT.Quiet(e.lanes))
  }

  ghost predicate Inv(e: Endpoint) {
    Shape(e) && GT.Single(e.green) && Agrees(e) && LanesInv(e)
  }

  /** Where `id` is: owned by the transaction, the slot or a lane, or released by one of them. */
  function Fate(e: Endpoint, id: nat): nat {
    FateHere(e, id) + (GT.Owned(e.green, id) + e.green.released[id]) + LT.Fate(e.lanes, id)
  }

  lemma NewInv()
    ensures Inv(New) && (forall id: nat :: Fate(New, id) == 0)
  {
  }

  /** One operation keeps the invariant and every fate; a success that neither delivers nor closes keeps both bases. */
  ghost predicate Steps(e: Endpoint, e': Endpoint, ok: bool, minted: nat, id: nat) {
    && Inv(e')
    && Fate(e', id) == Fate(e, id) + minted
    && (ok && !e'.closing ==> OwedBase(e') == OwedBase(e) && GT.Owed(e'.green) == GT.Owed(e.green))
  }

  /** What an operation did to the lanes, as far as the invariant is concerned. */
  ghost predicate LanesStep(e: Endpoint, e': Endpoint, minted: nat, id: nat) {
    LanesInv(e') && LT.Fate(e'.lanes, id) == LT.Fate(e.lanes, id) + minted
  }

  lemma Compose(e: Endpoint, e': Endpoint, ok: bool, here: nat, green: nat, lane: nat, id: nat)
    requires Inv(e) && Keeps(e, e', ok, here, id) && e'.closing == e.closing
    requires GT.Keeps(e.green, e'.green, green, id)
    requires LanesStep(e, e', lane, id)
    ensures Steps(e, e', ok, here + green + lane, id)
  {
    hide Shape, LT.Inv, LT.Fresh, LT.Quiet, FateHere, LT.Fate, GT.Owned, GT.Single, LanesInv;
  }

  lemma SlotUntouched(s: G.Slot, id: nat)
    requires GT.Single(s)
    ensures GT.Keeps(s, s, 0, id)
  {
  }

  /** With no base retained, a fresh lane is a quiet one. */
  lemma NoBaseMeansQuiet(l: L.Lanes)
    requires LT.Fresh(l, None)
    ensures LT.Quiet(l)
  {
  }

  /** Quiet lanes stay fresh whatever happens to the base. */
  lemma QuietLanesStep(e: Endpoint, e': Endpoint, id: nat)
    requires LanesInv(e) && LT.Quiet(e.lanes) && e'.lanes == e.lanes
    ensures LanesStep(e, e', 0, id)
  {
    LT.QuietIsFresh(e.lanes, RetainedAck(e), RetainedAck(e'));
  }

  lemma CancelledLanesStep(e: Endpoint, e': Endpoint, id: nat)
    requires LanesInv(e) && e'.lanes == L.CancelAll(e.lanes)
    ensures LanesStep(e, e', 0, id)
  {
    hide L.CancelAll;
    LT.CancelAllQuiets(e.lanes, id);
    LT.NothingNewStaysFresh(e.lanes, e'.lanes, RetainedAck(e));
    LT.QuietIsFresh(e'.lanes, RetainedAck(e), RetainedAck(e'));
  }

  // ---------------------------------------------------------------- starting, credit

  lemma StartSteps(e: Endpoint, context: Context, admitted: bool, id: nat)
    requires Inv(e)
    ensures Steps(e, Start(e, context, admitted).endpoint, true, 0, id)
  {
    hide Start, Shape, Keeps, LanesInv, LanesStep, L.CancelAll, G.StartClean, GT.Keeps, Steps;
    var e' := Start(e, context, admitted).endpoint;
    StartKeeps(e, context, admitted, id);
    SlotUntouched(e.green, id);
    GreenStartKeeps(e.green, context, id);
    if e' == e {
      Unmoved(e, id);
    } else {
      CancelledLanesStep(e, e', id);
      Compose(e, e', true, 0, 0, 0, id);
    }
  }

  lemma Unmoved(e: Endpoint, id: nat)
    requires Inv(e)
    ensures Steps(e, e, true, 0, id) && Steps(e, e, false, 0, id)
  {
  }

  lemma GreenStartKeeps(s: G.Slot, context: Context, id: nat)
    requires GT.Single(s)
    ensures GT.Keeps(s, G.StartClean(s, G.Target(context.source, context.profile)).slot, 0, id)
  {
    GT.StartKeeps(s, GT.OpStartClean(G.Target(context.source, context.profile)), id);
  }

  /** Resources an incremental start makes the engine create: the slot's adoption job. */
  function MintedStart(e: Endpoint, context: Context, reply: IncrementalReply, id: nat): nat {
    if e.retained.None? || StartIncremental(e, context, reply).endpoint.green == e.green then 0
    else
      var op := GT.OpStartIncremental(e.retained.value.ack, G.Target(context.source, context.profile), reply.green);
      GT.Minted(e.green, op, id)
  }

  /** The resources a failed fallback drops with the cleanup it overwrites. */
  function Lost(e: Endpoint, context: Context, reply: IncrementalReply, id: nat): nat {
    if Overwrites(e, context, reply) then HoldsPending(e.cleanup, id) else 0
  }

  lemma GreenIncrementalKeeps(e: Endpoint, e': Endpoint, ack: Ack, context: Context, reply: G.StartReply, id: nat)
    requires GT.Single(e.green) && GreenStarted(e, e', ack, context, reply)
    ensures var op := GT.OpStartIncremental(ack, G.Target(context.source, context.profile), reply);
      GT.Keeps(e.green, e'.green, if e'.green == e.green then 0 else GT.Minted(e.green, op, id), id)
  {
    hide G.StartIncremental, GT.Minted, GT.Keeps;
    SlotUntouched(e.green, id);
    GT.StartKeeps(e.green, GT.OpStartIncremental(ack, G.Target(context.source, context.profile), reply), id);
  }

  lemma StartIncrementalSteps(e: Endpoint, context: Context, reply: IncrementalReply, id: nat)
    requires Inv(e)
    ensures var r := StartIncremental(e, context, reply);
      && Inv(r.endpoint)
      && Fate(r.endpoint, id) + Lost(e, context, reply, id) == Fate(e, id) + MintedStart(e, context, reply, id)
      && (r.outcome.Ok? && !r.endpoint.closing ==>
            OwedBase(r.endpoint) == OwedBase(e) && GT.Owed(r.endpoint.green) == GT.Owed(e.green))
  {
    hide StartIncremental, Shape, LanesInv, L.CancelAll, G.StartIncremental, GT.Minted, FateHere, GT.Owned, LT.Fate, GT.Single,
      GreenStarted, GT.Owed, OwedBase, Overwrites;
    var e' := StartIncremental(e, context, reply).endpoint;
    StartIncrementalStarts(e, context, reply, id);
    SlotUntouched(e.green, id);
    if e.retained.Some? && e'.green != e.green {
      GreenIncrementalKeeps(e, e', e.retained.value.ack, context, reply.green, id);
    }
    if e' != e {
      CancelledLanesStep(e, e', id);
    }
  }

  lemma CreditSteps(e: Endpoint, credit: P.Credit, event: nat, adoptOk: bool, id: nat)
    requires Inv(e) && !Delivers(e, credit)
    ensures Steps(e, AcceptCredit(e, credit, event, adoptOk).endpoint, true, 0, id)
  {
    hide AcceptCredit, Shape, Keeps, LanesInv, LanesStep, GT.Keeps, Steps;
    Unmoved(e, id);
    if e.active.Some? && e.active.value.Publishing? {
      var e' := AcceptCredit(e, credit, event, adoptOk).endpoint;
      CreditKeeps(e, credit, event, adoptOk, id);
      SlotUntouched(e.green, id);
      ActiveIsQuiet(e);
      QuietLanesStep(e, e', id);
      Compose(e, e', true, 0, 0, 0, id);
    } else {
      CreditNeedsStream(e, credit, event, adoptOk);
    }
  }

  predicate Delivers(e: Endpoint, credit: P.Credit) {
    && e.active.Some? && e.active.value.Publishing?
    && e.active.value.streaming.phase.AwaitDeliveryReceipt? && credit.DeliveryCredit?
  }

  lemma CreditNeedsStream(e: Endpoint, credit: P.Credit, event: nat, adoptOk: bool)
    requires e.active.None? || !e.active.value.Publishing?
    ensures AcceptCredit(e, credit, event, adoptOk).endpoint == e
  {
  }

  lemma ActiveIsQuiet(e: Endpoint)
    requires Inv(e) && (e.active.Some? || e.retained.None?)
    ensures LT.Quiet(e.lanes)
  {
    if e.active.None? {
      NoBaseMeansQuiet(e.lanes);
    }
  }

  // --------------------------------------------------------------- delivery, cancel

  /**
   A delivery keeps the invariant and every fate: after it the endpoint owes the
   new target and the slot's authority carries the same new ack.
   */
  lemma DeliverySteps(e: Endpoint, adoptOk: bool, id: nat)
    requires Inv(e)
    ensures var r := FinishDelivery(e, adoptOk);
      && Inv(r.endpoint) && Fate(r.endpoint, id) == Fate(e, id)
      && (r.outcome.Err? ==> r.endpoint == e)
      && (r.outcome.Ok? ==> && OwedBase(r.endpoint).Some? && GT.Owed(r.endpoint.green).Some?
                            && GT.Owed(r.endpoint.green).value.ack == OwedBase(r.endpoint).value.ack)
  {
    hide FinishDelivery, Shape, LanesInv, G.CommitDelivery, FateHere, GT.Owned, LT.Fate, GT.Single, GT.Owed, GT.Authorities;
    DeliveryIsAtomic(e, adoptOk, id);
    var r := FinishDelivery(e, adoptOk);
    if r.outcome.Ok? {
      var ack := ExpectedAck(e.active.value.streaming.context);
      ActiveIsQuiet(e);
      QuietLanesStep(e, r.endpoint, id);
      GT.CommitConserves(e.green, ack, id);
      CommitOwes(e.green, ack);
    }
  }

  lemma CommitOwes(s: G.Slot, ack: Ack)
    requires GT.Single(s) && G.CommitDelivery(s, ack).outcome.Ok?
    ensures GT.Owed(G.CommitDelivery(s, ack).slot).Some?
    ensures GT.Owed(G.CommitDelivery(s, ack).slot).value.ack == ack
  {
    GT.CommitReplacesAuthority(s, ack, 0);
  }

  lemma CancelSteps(e: Endpoint, id: nat)
    requires Inv(e)
    ensures Steps(e, Cancel(e).endpoint, Cancel(e).outcome.Ok?, 0, id)
  {
    hide Cancel, Shape, Keeps, LanesInv, LanesStep, G.RequestCancel, L.CancelAll, GT.Keeps, Steps;
    var e' := Cancel(e).endpoint;
    CandidateTheorems.CancelKeeps(e, id);
    GT.CancelKeeps(e.green, id);
    CancelledLanesStep(e, e', id);
    Compose(e, e', Cancel(e).outcome.Ok?, 0, 0, 0, id);
  }

  lemma CancelForSourceFactsSteps(e: Endpoint, id: nat)
    requires Inv(e)
    ensures Steps(e, CancelKeepingBullet(e).endpoint, CancelKeepingBullet(e).outcome.Ok?, 0, id)
  {
    hide CancelKeepingBullet, Shape, Keeps, LanesInv, LanesStep, G.RequestCancel, L.CancelAll, GT.Keeps, Steps;
    var r := CancelKeepingBullet(e);
    CancelKeepingBulletKeeps(e, id);
    GT.CancelKeeps(e.green, id);
    CancelledLanesStep(e, r.endpoint, id);
    Compose(e, r.endpoint, r.outcome.Ok?, 0, 0, 0, id);
  }

  /** Neither the rolling plan nor a lane cancellation touches the transaction or the slot. */
  lemma ElsewhereSteps(e: Endpoint, bullet: Option<nat>, id: nat)
    requires Inv(e)
    ensures Steps(e, e.(bullet := bullet), true, 0, id)
    ensures Steps(e, e.(lanes := L.CancelAll(e.lanes)), true, 0, id)
  {
    hide Shape, Keeps, L.CancelAll, GT.Keeps, Steps, LT.Inv, LT.Fresh, LT.Quiet, LT.Fate;
    SlotUntouched(e.green, id);
    OnlyElsewhere(e, e.(bullet := bullet), id);
    Compose(e, e.(bullet := bullet), true, 0, 0, 0, id);
    OnlyElsewhere(e, e.(lanes := L.CancelAll(e.lanes)), id);
    CancelledLanesStep(e, e.(lanes := L.CancelAll(e.lanes)), id);
    Compose(e, e.(lanes := L.CancelAll(e.lanes)), true, 0, 0, 0, id);
  }

  lemma PrepareBulletSteps(e: Endpoint, reply: PrepareReply, id: nat)
    requires Inv(e)
    ensures Steps(e, PrepareBullet(e, reply).endpoint, true, 0, id)
  {
    hide Inv, Steps;
    ElsewhereSteps(e, PrepareBullet(e, reply).endpoint.bullet, id);
    assert PrepareBullet(e, reply).endpoint == e.(bullet := PrepareBullet(e, reply).endpoint.bullet);
  }

  lemma CancelForEditSteps(e: Endpoint, detachOk: bool, id: nat)
    requires Inv(e)
    ensures Steps(e, CancelForEdit(e, detachOk).endpoint, CancelForEdit(e, detachOk).outcome.Ok?, 0, id)
  {
    hide CancelForEdit, Shape, Keeps, LanesInv, LanesStep, G.RequestCancel, L.CancelAll, GT.Keeps, Steps;
    var e' := CancelForEdit(e, detachOk).endpoint;
    CancelForEditKeeps(e, detachOk, id);
    GT.CancelKeeps(e.green, id);
    CancelledLanesStep(e, e', id);
    Compose(e, e', CancelForEdit(e, detachOk).outcome.Ok?, 0, 0, 0, id);
  }

  lemma TakeDeliverySteps(e: Endpoint, id: nat)
    requires Inv(e)
    ensures Steps(e, TakeDelivery(e).endpoint, true, 0, id) && TakeDelivery(e).outcome.Ok?
    ensures TakeDelivery(e).outcome == Ok(false) ==> TakeDelivery(e).endpoint == e
  {
    hide TakeDelivery, Shape, Keeps, LanesInv, LanesStep, GT.Keeps, Steps;
    var e' := TakeDelivery(e).endpoint;
    Unmoved(e, id);
    TakeDeliveryKeeps(e, id);
    if e' != e {
      TakesOnlyActive(e);
      SlotUntouched(e.green, id);
      ActiveIsQuiet(e);
      QuietLanesStep(e, e', id);
      Compose(e, e', true, 0, 0, 0, id);
    }
  }

  lemma TakesOnlyActive(e: Endpoint)
    requires TakeDelivery(e).endpoint != e
    ensures e.active.Some?
  {
  }

  lemma PhaseSteps(e: Endpoint, s: Streaming, phase: P.StreamPhase, id: nat)
    requires Inv(e) && e.active == Some(Publishing(s)) && PhaseShape(s.(phase := phase))
    ensures Steps(e, At(e, s.(phase := phase)), true, 0, id)
  {
    hide Shape, Keeps, LanesInv, LanesStep, GT.Keeps, Steps;
    MovedStreamKeeps(e, s, s.(phase := phase), id);
    SlotUntouched(e.green, id);
    ActiveIsQuiet(e);
    QuietLanesStep(e, At(e, s.(phase := phase)), id);
    Compose(e, At(e, s.(phase := phase)), true, 0, 0, 0, id);
  }

  lemma StepsChain(e: Endpoint, m: Endpoint, n: Endpoint, ok: bool, first: nat, second: nat, id: nat)
    requires Steps(e, m, true, first, id) && Steps(m, n, ok, second, id) && (m.closing ==> n.closing)
    ensures Steps(e, n, ok, first + second, id)
  {
  }

  lemma HostPollSteps(e: Endpoint, ticket: nat, sameOffer: bool, phase: P.HostPhase, result: P.HostResult, resumeOk: bool, id: nat)
    requires Inv(e)
    ensures var r := HostPoll(e, ticket, sameOffer, phase, result, resumeOk); Steps(e, r.endpoint, r.outcome.Ok?, 0, id)
  {
    hide Cancel, TakeDelivery, Shape, Steps;
    Unmoved(e, id);
    if e.active.Some? && e.active.value.Publishing? {
      var s := e.active.value.streaming;
      PublishingShape(e, s);
      if P.ExactTicket(s.phase, ticket, sameOffer, phase) {
        if result.Rejected? {
          CancelSteps(e, id);
        } else if s.phase.AwaitPacketHost? {
          PhaseSteps(e, s, if s.phase.end then P.NeedCommit else P.NeedPacket, id);
        } else {
          PhaseSteps(e, s, P.AwaitRecursiveGreenDelivery, id);
          var m := At(e, s.(phase := P.AwaitRecursiveGreenDelivery));
          StepsInv(e, m, true, 0, id);
          TakeDeliverySteps(m, id);
          DeliveryKeepsClosing(m);
          StepsChain(e, m, TakeDelivery(m).endpoint, true, 0, 0, id);
        }
      }
    }
  }

  lemma DeliveryKeepsClosing(e: Endpoint)
    ensures TakeDelivery(e).endpoint.closing == e.closing
  {
  }

  lemma StepsInv(e: Endpoint, e': Endpoint, ok: bool, minted: nat, id: nat)
    requires Steps(e, e', ok, minted, id)
    ensures Inv(e')
  {
  }
}
