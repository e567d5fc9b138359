/**
 The edges of a candidate transaction: how it starts, how it is delivered, and
 how closing hands its owners over.
 */
module CandidateEdges {
  import opened Engine
  import opened Candidate
  import opened CandidateTheorems
  import P = StreamProtocol
  import G = RecursiveGreen
  import L = Lanes

  lemma StartKeeps(e: Endpoint, context: Context, admitted: bool, id: nat)
    requires Shape(e)
    ensures var r := Start(e, context, admitted);
      && Keeps(e, r.endpoint, true, 0, id) && r.endpoint.closing == e.closing
      && (|| r.endpoint == e
          || (&& r.endpoint.lanes == L.CancelAll(e.lanes)
              && r.endpoint.green == G.StartClean(e.green, G.Target(context.source, context.profile)).slot))
  {
    hide L.CancelAll, G.StartClean;
  }

  // --------------------------------------------------------- starting incrementally

  /** Would this start reach `activate_exact_clean_fallback`? */
  predicate TakesFallback(e: Endpoint, context: Context, reply: IncrementalReply) {
    && !e.closing && e.active.None? && reply.admitted && reply.descriptorOk
    && e.retained.Some? && e.retained.value.restart.Some?
    && e.retained.value.ack.hostRevision < context.generation
    && (if e.bullet.Some? && reply.bulletMatches then !reply.bulletJob
        else || e.retained.value.restart.value.kind.ExactBaseOnly?
             || (e.retained.value.restart.value.kind.Ordinary? && reply.crop.CropFallback?))
  }

  /** A failed fallback over a pending cleanup drops that cleanup on the floor. */
  predicate Overwrites(e: Endpoint, context: Context, reply: IncrementalReply) {
    e.cleanup.Some? && TakesFallback(e, context, reply) && !reply.fallbackOk
  }

  /** What one incremental start does to the transaction. */
  ghost predicate StartsFrom(e: Endpoint, r: Result<()>, lost: nat, id: nat) {
    && Shape(r.endpoint) && SameAuthority(e, r.endpoint)
    && FateHere(r.endpoint, id) + lost == FateHere(e, id)
    && (r.outcome.Ok? ==> OwedBase(r.endpoint) == OwedBase(e))
    && r.endpoint.closing == e.closing
  }

  /** The slot is untouched or was started towards the same target. */
  predicate GreenStarted(e: Endpoint, e': Endpoint, baseAck: Ack, context: Context, reply: G.StartReply) {
    e'.green == e.green
    || e'.green == G.StartIncremental(e.green, baseAck, G.Target(context.source, context.profile), reply).slot
  }

  lemma ActivateFallbackStarts(e: Endpoint, context: Context, base: Base, reply: IncrementalReply, id: nat)
    requires Shape(e) && !e.closing && e.active.None? && e.retained == Some(base)
    requires base.restart.Some? && Newer(context, base.ack)
    requires e.cleanup.Some? ==> !e.cleanup.value.ExactStreamAndRestore?
    ensures var r := ActivateFallback(e.(retained := None, bullet := None), context, base, reply);
      && StartsFrom(e, r, if reply.fallbackOk then 0 else HoldsPending(e.cleanup, id), id)
      && GreenStarted(e, r.endpoint, base.ack, context, reply.green)
      && r.endpoint.lanes == e.lanes
  {
    hide G.StartIncremental;
  }

  lemma RestartStarts(e: Endpoint, context: Context, reply: IncrementalReply, id: nat)
    requires Shape(e) && !e.closing && e.active.None? && e.bullet.None?
    requires e.retained.Some? && e.retained.value.restart.Some? && Newer(context, e.retained.value.ack)
    ensures var r := StartFromRestart(e, context, reply);
      var kind := e.retained.value.restart.value.kind;
      var fallback := kind.ExactBaseOnly? || (kind.Ordinary? && reply.crop.CropFallback?);
      && StartsFrom(e, r, if fallback && !reply.fallbackOk then HoldsPending(e.cleanup, id) else 0, id)
      && GreenStarted(e, r.endpoint, e.retained.value.ack, context, reply.green)
      && r.endpoint.lanes == e.lanes
  {
    hide G.StartIncremental, ActivateFallback, G.OwnsBaseAuthority;
    ActivateFallbackStarts(e, context, e.retained.value, reply, id);
    assert e.(bullet := None) == e;
  }

  /**
   An incremental start keeps the shape and the base it took. It accounts for
   every resource except exactly the cleanup that a failed fallback overwrites.
   */
  lemma StartIncrementalStarts(e: Endpoint, context: Context, reply: IncrementalReply, id: nat)
    requires Shape(e)
    ensures var r := StartIncremental(e, context, reply);
      && StartsFrom(e, r, if Overwrites(e, context, reply) then HoldsPending(e.cleanup, id) else 0, id)
      && (r.endpoint.lanes == L.CancelAll(e.lanes) || r.endpoint == e)
      && (|| r.endpoint.green == e.green
          || (e.retained.Some? && GreenStarted(e, r.endpoint, e.retained.value.ack, context, reply.green)))
  {
    hide G.StartIncremental, ActivateFallback, StartFromRestart, L.CancelAll;
    if !e.closing && e.active.None? && reply.admitted && e.retained.Some? && e.retained.value.restart.Some?
       && Newer(context, e.retained.value.ack) {
      var quiet := e.(lanes := L.CancelAll(e.lanes));
      var plain := quiet.(bullet := None);
      RestartStarts(plain, context, reply, id);
      ActivateFallbackStarts(quiet, context, e.retained.value, reply, id);
    }
  }

  /** The fate of every resource survives an incremental start if and only if no cleanup is overwritten. */
  lemma StartIncrementalConservesIff(e: Endpoint, context: Context, reply: IncrementalReply)
    requires Shape(e)
    ensures (forall id: nat :: FateHere(StartIncremental(e, context, reply).endpoint, id) == FateHere(e, id))
       <==> !Overwrites(e, context, reply)
  {
    hide StartIncremental, FateHere, Shape;
    forall id: nat
      ensures FateHere(StartIncremental(e, context, reply).endpoint, id)
              + (if Overwrites(e, context, reply) then HoldsPending(e.cleanup, id) else 0) == FateHere(e, id)
    {
      StartIncrementalStarts(e, context, reply, id);
    }
    if Overwrites(e, context, reply) {
      var c := e.cleanup.value;
      var id := match c
        case CloseOne(_, handle, _) => handle.id
        case CloseTwo(_, _, _, _, other, _) => other.id
        case ExactStreamAndRestore(stream, _, _, _) => stream.handle.id;
      assert HoldsPending(e.cleanup, id) > 0;
    }
  }

  // ----------------------------------------------------------------------- delivery

  /**
   A delivery is all or nothing: on failure nothing moves; on success the sealed
   target is retained under the expected ack, the slot commits under the same
   ack, the superseded base alone goes to cleanup, and the host revision rises
   strictly above that of the base it replaces, on both publication paths.
   */
  lemma DeliveryIsAtomic(e: Endpoint, adoptOk: bool, id: nat)
    requires Shape(e)
    ensures var r := FinishDelivery(e, adoptOk);
      && (r.outcome.Err? ==> r.endpoint == e)
      && (r.outcome.Ok? ==>
            && e.active.Some? && e.active.value.Publishing?
            && var s := e.active.value.streaming;
               var ack := ExpectedAck(s.context);
            && s.sealed.Some? && s.expectedAck == Some(ack)
            && r.endpoint == e.(active := None, bullet := None, cleanup := r.endpoint.cleanup,
                                retained := Some(Base(s.sealed.value, ack, s.next)),
                                green := G.CommitDelivery(e.green, ack).slot)
            && G.CommitDelivery(e.green, ack).outcome.Ok?
            && (OwedBase(e).Some? ==> && OwedBase(e).value.ack.hostRevision < ack.hostRevision
                                      && r.endpoint.cleanup == Close(RetainedPublication, OwedBase(e).value.publication))
            && (OwedBase(e).None? ==> r.endpoint.cleanup.None?)
            && Shape(r.endpoint) && FateHere(r.endpoint, id) == FateHere(e, id))
  {
    hide G.CommitDelivery, G.ReadyFor;
  }

  // ------------------------------------------------------------------------- closing

  /** What scheduling finds: the shape, except that a closing endpoint may still hold owners. */
  ghost predicate Closable(e: Endpoint) {
    Shape(e.(closing := false)) && (e.cleanup.Some? ==> Shape(e))
  }

  lemma CommitCancelled(green: G.Slot)
    ensures G.RequestCancel(G.BeginClose(green)) == G.BeginClose(green)
  {
  }

  /** Scheduling never fails, hands every owner to cleanup, and drops nothing. */
  lemma ScheduleCloseKeeps(e: Endpoint, id: nat)
    requires Closable(e)
    ensures var r := ScheduleClose(e);
      && r.outcome.Ok?
      && Shape(r.endpoint) && SameAuthority(e, r.endpoint) && FateHere(r.endpoint, id) == FateHere(e, id)
      && (!e.closing ==> r.endpoint == e)
      && r.endpoint.closing == e.closing
      && r.endpoint.green == (if e.closing then G.BeginClose(e.green) else e.green)
      && r.endpoint.lanes == (if e.closing && e.cleanup.None? then L.CancelAll(e.lanes) else e.lanes)
  {
    hide G.BeginClose, L.CancelAll, G.RequestCancel, Cancel, HoldsActive, ActiveBase, ActiveShape;
    CommitCancelled(e.green);
    CancelTwice(e.lanes, e.green);
    if e.closing && e.cleanup.None? && e.active.Some? {
      var m := e.(green := G.BeginClose(e.green), lanes := L.CancelAll(e.lanes));
      ClosingCancel(m, id);
    }
  }

  lemma ClosingCancel(e: Endpoint, id: nat)
    requires Shape(e.(closing := false)) && e.cleanup.None? && e.active.Some?
    ensures var r := Cancel(e);
      && r.outcome.Ok? && r.endpoint.active.None? && r.endpoint.closing == e.closing
      && Shape(r.endpoint.(closing := false)) && (r.endpoint.cleanup.Some? ==> Shape(r.endpoint))
      && OwedBase(r.endpoint) == OwedBase(e) && FateHere(r.endpoint, id) == FateHere(e, id)
      && r.endpoint.green == G.RequestCancel(e.green) && r.endpoint.lanes == L.CancelAll(e.lanes)
  {
    var open := e.(closing := false);
    CancelKeeps(open, id);
    CancelIgnoresClosing(e);
    hide Cancel;
    assert Cancel(e).endpoint == Cancel(open).endpoint.(closing := e.closing);
  }

  lemma CancelIgnoresClosing(e: Endpoint)
    ensures Cancel(e).endpoint == Cancel(e.(closing := false)).endpoint.(closing := e.closing)
    ensures Cancel(e).outcome == Cancel(e.(closing := false)).outcome
  {
    hide L.CancelAll, G.RequestCancel;
  }
}
