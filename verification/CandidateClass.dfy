/**
 The endpoint as the bridge holds it: a candidate, a cleanup and a retained base
 that methods take and replace in place. Each method is proved against the
 function of the same name in Candidate or EndpointOps.
 */
module CandidateObject {
  import opened Engine
  import opened Candidate
  import opened EndpointOps
  import opened EndpointTheorems
  import opened EndpointPolling
  import opened EndpointClosing
  import opened EndpointGuarantees
  import opened EndpointDraining
  import opened CandidateTheorems
  import P = StreamProtocol
  import G = RecursiveGreen
  import GT = RecursiveGreenTheorems
  import L = Lanes
  import LP = LanePoll

  /** `usize::MAX`, the fuel of an emergency close. */
  const UNBOUNDED_FUEL: nat := 0xFFFF_FFFF_FFFF_FFFF

  /** How one loop iteration leaves the object: go on, or return to the caller. */
  datatype Move = GoOn(spent: nat) | Stop(result: PollResult)

  function Moved(e: Endpoint, m: Move): Advance {
    match m
    case GoOn(spent) => Again(e, spent)
    case Stop(result) => Return(e, result)
  }

  /**
   What every public method upholds for an endpoint in its invariant and an engine
   within its contract: the invariant, the fate of every resource, and - on a success
   that neither delivers nor closes - the base owed and the slot's authority.
   */
  ghost predicate Upholds(before: Endpoint, op: Op, after: Endpoint, ok: bool) {
    Inv(before) && Legal(before, op) ==>
      && Inv(after)
      && (forall id: nat :: Fate(after, id) + Dropped(before, op, id) == Fate(before, id) + Minted(before, op, id))
      && (ok && KeepsBases(before, op) && !after.closing ==>
            OwedBase(after) == OwedBase(before) && GT.Owed(after.green) == GT.Owed(before.green))
  }

  lemma OperationUpholds(e: Endpoint, op: Op)
    ensures Upholds(e, op, EndpointOps.Apply(e, op).endpoint, EndpointOps.Apply(e, op).ok)
  {
    hide Inv, Legal, Fate, Dropped, Minted, KeepsBases, OwedBase, GT.Owed, EndpointOps.Apply;
    if Inv(e) && Legal(e, op) {
      forall id: nat
        ensures OpKeeps(e, op, id)
      {
        OpSteps(e, op, id);
      }
      assert OpKeeps(e, op, 0);
      forall id: nat
        ensures Fate(EndpointOps.Apply(e, op).endpoint, id) + Dropped(e, op, id) == Fate(e, id) + Minted(e, op, id)
      {
        assert OpKeeps(e, op, id);
      }
    }
  }

  /** What an engine can see of the endpoint: everything but the history of releases. */
  function Visible(e: Endpoint): Endpoint {
    e.(released := multiset{})
  }

  class CandidateEndpoint {
    var active: Option<Active>
    var cleanup: Option<Cleanup>
    var retained: Option<Base>
    var green: G.Slot
    var bullet: Option<nat>
    var lanes: L.Lanes
    var closing: bool
    ghost var released: multiset<nat>

    ghost function View(): Endpoint
      reads this
    {
      Endpoint(active, cleanup, retained, green, bullet, lanes, closing, released)
    }

    constructor ()
      ensures View() == New && Inv(View())
    {
      active := None;
      cleanup := None;
      retained := None;
      green := G.Empty;
      bullet := None;
      lanes := L.Idle;
      closing := false;
      released := multiset{};
      new;
      NewInv();
    }

    method TakeActive() returns (taken: Option<Active>)
      modifies this`active
      ensures taken == old(active) && active == None
    {
      taken := active;
      active := None;
    }

    method RestoreExactBase(base: Base) returns (r: Outcome<()>)
      modifies this`cleanup, this`retained
      ensures Result(View(), r) == Candidate.RestoreExactBase(old(View()), base)
    {
      if base.restart.None? || retained.Some? {
        cleanup := Close(RetainedPublication, base.publication);
        return Err(InvalidState);
      }
      retained := Some(base);
      return Ok(());
    }

    // ----------------------------------------------------------------- starting

    method Start(context: Context, admitted: bool) returns (r: Outcome<()>)
      modifies this
      ensures Result(View(), r) == Candidate.Start(old(View()), context, admitted)
      ensures Upholds(old(View()), OpStart(context, admitted), View(), r.Ok?)
    {
      hide Upholds;
      OperationUpholds(View(), OpStart(context, admitted));
      if closing || active.Some? {
        return Err(Busy);
      }
      if !admitted {
        return Err(InvalidAuthority);
      }
      var initial := retained.None? && green.installed.None? && green.pending.None?;
      bullet := None;
      lanes := L.CancelAll(lanes);
      active := Some(Parsing(context, initial));
      var started := G.StartClean(green, G.Target(context.source, context.profile));
      green := started.slot;
      return if started.outcome.Ok? then Ok(()) else Err(started.outcome.error);
    }

    method StartGreen(baseAck: Ack, context: Context, reply: G.StartReply) returns (r: Outcome<()>)
      modifies this`green
      ensures Result(View(), r) == Candidate.StartGreen(old(View()), baseAck, context, reply)
    {
      var started := G.StartIncremental(green, baseAck, G.Target(context.source, context.profile), reply);
      green := started.slot;
      return if started.outcome.Ok? then Ok(()) else Err(started.outcome.error);
    }

    method ActivateFallback(context: Context, base: Base, reply: IncrementalReply) returns (r: Outcome<()>)
      modifies this
      ensures Result(View(), r) == Candidate.ActivateFallback(old(View()), context, base, reply)
    {
      if !reply.fallbackOk {
        cleanup := Close(RetainedPublication, base.publication);
        return Err(EngineFailure);
      }
      active := Some(ParsingExactFallback(context, base));
      r := StartGreen(base.ack, context, reply.green);
    }

    method StartFromRestart(context: Context, reply: IncrementalReply) returns (r: Outcome<()>)
      requires retained.Some? && retained.value.restart.Some?
      modifies this
      ensures Result(View(), r) == Candidate.StartFromRestart(old(View()), context, reply)
    {
      var base := retained.value;
      var restart := base.restart.value;
      if restart.kind.ByRecursiveGreen? {
        if !G.OwnsBaseAuthority(green, base.ack) {
          return Err(InvalidAuthority);
        }
        if !reply.crop.CropStarted? {
          return Err(EngineFailure);
        }
        retained := None;
        active := Some(AwaitingGreen(context, base));
        r := StartGreen(base.ack, context, reply.green);
      } else if restart.kind.ExactBaseOnly? || (restart.kind.Ordinary? && reply.crop.CropFallback?) {
        retained := None;
        r := ActivateFallback(context, base, reply);
      } else if reply.crop.CropStarted? {
        var held := base.(restart := None);
        retained := None;
        active := Some(if restart.kind.Leading? then ParsingExact(context, restart, held)
                       else ParsingOrdinaryExact(context, restart, held));
        r := StartGreen(base.ack, context, reply.green);
      } else {
        if reply.crop.CropConsumedRestart? {
          retained := Some(base.(restart := None));
        }
        return Err(EngineFailure);
      }
    }

    method StartIncremental(context: Context, reply: IncrementalReply) returns (r: Outcome<()>)
      modifies this
      ensures Result(View(), r) == Candidate.StartIncremental(old(View()), context, reply)
      ensures Upholds(old(View()), OpStartIncremental(context, reply), View(), r.Ok?)
    {
      hide Upholds, Candidate.StartIncremental;
      OperationUpholds(View(), OpStartIncremental(context, reply));
      r := StartFromBase(context, reply);
    }

    method StartFromBase(context: Context, reply: IncrementalReply) returns (r: Outcome<()>)
      modifies this
      ensures Result(View(), r) == Candidate.StartIncremental(old(View()), context, reply)
    {
      if closing || active.Some? {
        return Err(Busy);
      }
      if !reply.admitted {
        return Err(InvalidAuthority);
      }
      lanes := L.CancelAll(lanes);
      if retained.None? || retained.value.restart.None? {
        return Err(InvalidState);
      }
      if !reply.descriptorOk {
        return Err(EngineFailure);
      }
      if retained.value.ack.hostRevision >= context.generation {
        return Err(InvalidAuthority);
      }
      var plan := bullet;
      bullet := None;
      if plan.None? || !reply.bulletMatches {
        r := StartFromRestart(context, reply);
        return;
      }
      var base := retained.value;
      retained := None;
      if !reply.bulletJob {
        r := ActivateFallback(context, base, reply);
        return;
      }
      active := Some(ParsingBulletLocal(context, plan.value, base));
      r := StartGreen(base.ack, context, reply.green);
    }

    // ---------------------------------------------------------------- cancelling

    method CancelStreaming(s: Streaming) returns (r: Outcome<()>)
      requires active == Some(Publishing(s))
      modifies this
      ensures Result(View(), r) == Candidate.CancelStreaming(old(View()), s)
    {
      if s.stream.Some? == s.sealed.Some? {
        return Err(InvalidState);
      }
      active := None;
      if s.superseded.Some? && s.recovery.Some? {
        retained := Some(Base(s.superseded.value, s.recovery.value.ack, Some(s.recovery.value.restart)));
      }
      if s.stream.Some? {
        var stream := s.stream.value;
        if s.superseded.None? && s.recovery.Some? {
          cleanup := Some(ExactStreamAndRestore(stream, false, None, s.recovery));
        } else if s.superseded.Some? && s.recovery.None? {
          cleanup := ClosePair(StreamAndRetained, stream.handle, s.superseded.value);
        } else {
          cleanup := Close(SnapshotStream, stream.handle);
        }
        return Ok(());
      }
      var target := s.sealed.value;
      if s.superseded.Some? && s.recovery.None? {
        cleanup := ClosePair(RetainedPair, target, s.superseded.value);
        return Ok(());
      }
      cleanup := Close(RetainedPublication, target);
      return if s.superseded.None? && s.recovery.Some? then Err(InvalidState) else Ok(());
    }

    method CancelActive() returns (r: Outcome<()>)
      requires active.Some?
      modifies this
      ensures Result(View(), r) == Candidate.CancelActive(old(View()))
    {
      if active.value.Publishing? {
        r := CancelStreaming(active.value.streaming);
        return;
      }
      var taken := TakeActive();
      match taken.value {
      case Parsing(_, _) => return Ok(());
      case Building(_, writer, _) =>
        cleanup := Close(Writer, writer);
        return Ok(());
      case ParsingExact(_, job, base) => r := RestoreExactBase(base.(restart := Some(job)));
      case ParsingOrdinaryExact(_, job, base) => r := RestoreExactBase(base.(restart := Some(job)));
      case AwaitingGreen(_, base) => r := RestoreExactBase(base);
      case ParsingBulletLocal(_, plan, base) =>
        bullet := Some(plan);
        r := RestoreExactBase(base);
      case ParsingExactFallback(_, base) => r := RestoreExactBase(base);
      case BuildingExactFallback(_, writer, base, _) => r := RestoreThenClose(base, writer);
      case BuildingExact(_, writer, base, _, _, _) => r := RestoreThenClose(base, writer);
      }
    }

    method RestoreThenClose(base: Base, writer: Resource) returns (r: Outcome<()>)
      requires active.None?
      modifies this`cleanup, this`retained
      ensures Result(View(), r) == Candidate.RestoreThenClose(old(View()), base, writer)
    {
      r := RestoreExactBase(base);
      if r.Ok? {
        cleanup := Close(Writer, writer);
      }
    }

    method CancelKeepingBullet() returns (r: Outcome<()>)
      modifies this
      ensures Result(View(), r) == Candidate.CancelKeepingBullet(old(View()))
    {
      lanes := L.CancelAll(lanes);
      green := G.RequestCancel(green);
      if cleanup.Some? {
        if active.Some? && !active.value.Parsing? {
          return Err(InvalidState);
        }
        active := None;
        return Ok(());
      }
      if active.None? {
        return Ok(());
      }
      r := CancelActive();
    }

    method Cancel() returns (r: Outcome<()>)
      modifies this
      ensures Result(View(), r) == Candidate.Cancel(old(View()))
      ensures Upholds(old(View()), OpCancel, View(), r.Ok?)
    {
      hide Upholds;
      OperationUpholds(View(), OpCancel);
      r := CancelKeepingBullet();
      bullet := None;
    }

    method CancelForEdit(detachOk: bool) returns (r: Outcome<()>)
      modifies this
      ensures Result(View(), r) == Candidate.CancelForEdit(old(View()), detachOk)
      ensures Upholds(old(View()), OpCancelForEdit(detachOk), View(), r.Ok?)
    {
      hide Upholds, Candidate.CancelForEdit;
      OperationUpholds(View(), OpCancelForEdit(detachOk));
      r := DetachOrCancel(detachOk);
    }

    method DetachOrCancel(detachOk: bool) returns (r: Outcome<()>)
      modifies this
      ensures Result(View(), r) == Candidate.CancelForEdit(old(View()), detachOk)
    {
      lanes := L.CancelAll(lanes);
      green := G.RequestCancel(green);
      if cleanup.Some? {
        if active.None? && retained.Some? {
          return Ok(());
        }
        bullet := None;
        return Err(InvalidState);
      }
      if active.Some? && active.value.Publishing? && CanDetach(active.value.streaming) {
        var s := active.value.streaming;
        var stream := s.stream.value;
        if !detachOk || stream.base.None? {
          bullet := None;
          return Err(EngineFailure);
        }
        active := None;
        r := RestoreExactBase(Base(stream.base.value, s.recovery.value.ack, Some(s.recovery.value.restart)));
        if r.Ok? {
          cleanup := Close(SnapshotStream, stream.handle);
        }
        return;
      }
      r := CancelKeepingBullet();
      if r.Err? || (bullet.Some? && retained.None?) {
        bullet := None;
      }
    }

    /** `cancel_for_source_facts_after_edit`: the rolling plan survives. */
    method CancelForSourceFacts() returns (r: Outcome<()>)
      modifies this
      ensures Result(View(), r) == Candidate.CancelKeepingBullet(old(View()))
      ensures Upholds(old(View()), OpCancelForSourceFacts, View(), r.Ok?)
    {
      hide Upholds;
      OperationUpholds(View(), OpCancelForSourceFacts);
      r := CancelKeepingBullet();
    }

    method PrepareBullet(reply: PrepareReply) returns (r: Outcome<bool>)
      modifies this`bullet
      ensures Result(View(), r) == Candidate.PrepareBullet(old(View()), reply)
      ensures Upholds(old(View()), OpPrepareBullet(reply), View(), r.Ok?)
    {
      hide Upholds;
      OperationUpholds(View(), OpPrepareBullet(reply));
      var previous := bullet;
      bullet := None;
      if closing || active.Some? {
        return Err(Busy);
      }
      if !reply.valid {
        return Err(InvalidAuthority);
      }
      if previous.Some? && reply.remainsInside {
        bullet := previous;
        return Ok(true);
      }
      if retained.None? || reply.plan.None? {
        return Ok(false);
      }
      bullet := reply.plan;
      return Ok(true);
    }

    // ------------------------------------------------------------ credits, delivery

    method TakeDelivery() returns (r: Outcome<bool>)
      modifies this`active
      ensures Result(View(), r) == Candidate.TakeDelivery(old(View()))
    {
      if active.None? || !active.value.Publishing? || active.value.streaming.phase != P.AwaitRecursiveGreenDelivery {
        return Ok(false);
      }
      var s := active.value.streaming;
      if s.expectedAck.None? {
        return Err(InvalidState);
      }
      if !G.ReadyFor(green, s.expectedAck.value) {
        return Ok(false);
      }
      active := Some(Publishing(s.(phase := P.AwaitDeliveryReceipt)));
      return Ok(true);
    }

    method FinishDelivery(adoptOk: bool) returns (r: Outcome<()>)
      modifies this
      ensures Result(View(), r) == Candidate.FinishDelivery(old(View()), adoptOk)
    {
      if active.None? || !active.value.Publishing? {
        return Err(InvalidState);
      }
      var s := active.value.streaming;
      if closing || s.phase != P.AwaitDeliveryReceipt || cleanup.Some? || s.stream.Some? || s.expectedAck.None? {
        return Err(InvalidState);
      }
      var ack := s.expectedAck.value;
      if (retained.Some? && ack.hostRevision <= retained.value.ack.hostRevision) || !G.ReadyFor(green, ack) {
        return Err(InvalidAuthority);
      }
      if (retained.Some? && s.superseded.Some?) || s.sealed.None? {
        return Err(InvalidState);
      }
      if s.reuses {
        if !s.mode.ExactBaseDelta? || s.superseded.None? {
          return Err(InvalidState);
        }
        if !adoptOk {
          return Err(EngineFailure);
        }
      }
      var committed := G.CommitDelivery(green, ack);
      if committed.outcome.Err? {
        return Err(committed.outcome.error);
      }
      green := committed.slot;
      bullet := None;
      active := None;
      var previous := if retained.Some? then Some(retained.value.publication) else s.superseded;
      retained := Some(Base(s.sealed.value, ack, s.next));
      if previous.Some? {
        cleanup := Close(RetainedPublication, previous.value);
      }
      return Ok(());
    }

    method AcceptCredit(credit: P.Credit, event: nat, adoptOk: bool) returns (r: Outcome<()>)
      modifies this
      ensures Result(View(), r) == Candidate.AcceptCredit(old(View()), credit, event, adoptOk)
      ensures Upholds(old(View()), OpCredit(credit, event, adoptOk), View(), r.Ok?)
    {
      hide Upholds;
      OperationUpholds(View(), OpCredit(credit, event, adoptOk));
      if active.None? || !active.value.Publishing? {
        return Err(InvalidState);
      }
      var s := active.value.streaming;
      if s.phase.AwaitDeliveryReceipt? && credit.DeliveryCredit? {
        r := FinishDelivery(adoptOk);
        return;
      }
      var phase := P.AcceptCredit(s.phase, credit, event);
      if phase.Err? {
        return Err(phase.error);
      }
      active := Some(Publishing(s.(phase := phase.value)));
      return Ok(());
    }

    method HostPoll(ticket: nat, sameOffer: bool, phase: P.HostPhase, result: P.HostResult, resumeOk: bool)
      returns (r: Outcome<bool>)
      modifies this
      ensures Result(View(), r) == Candidate.HostPoll(old(View()), ticket, sameOffer, phase, result, resumeOk)
      ensures Upholds(old(View()), OpHostPoll(ticket, sameOffer, phase, result, resumeOk), View(), r.Ok?)
    {
      hide Upholds, Candidate.Cancel, Candidate.TakeDelivery;
      OperationUpholds(View(), OpHostPoll(ticket, sameOffer, phase, result, resumeOk));
      if active.None? || !active.value.Publishing? {
        return Err(InvalidState);
      }
      var s := active.value.streaming;
      if !P.ExactTicket(s.phase, ticket, sameOffer, phase) {
        return Err(InvalidState);
      }
      if result.Rejected? {
        var cancelled := Cancel();
        return if cancelled.Ok? then Ok(false) else Err(cancelled.error);
      }
      if s.phase.AwaitPacketHost? && result.PacketCredited? && result.next == s.phase.next {
        if !resumeOk {
          return Err(EngineFailure);
        }
        active := Some(Publishing(s.(phase := if s.phase.end then P.NeedCommit else P.NeedPacket)));
        return Ok(false);
      }
      if s.phase.AwaitCommitHost? && result.Committed? && s.expectedAck == Some(result.ack) {
        active := Some(Publishing(s.(phase := P.AwaitRecursiveGreenDelivery)));
        r := TakeDelivery();
        return;
      }
      return Err(InvalidState);
    }

    // -------------------------------------------------------------------- advancing

    method Abort(pending: Option<Cleanup>, error: Error) returns (m: Move)
      modifies this`active, this`cleanup
      ensures Moved(View(), m) == Candidate.Abort(old(View()), pending, error)
    {
      active := None;
      cleanup := pending;
      return Stop(PollError(error));
    }

    method Decline(context: Context, base: Base, fallbackOk: bool, left: nat) returns (m: Move)
      modifies this`active, this`cleanup
      ensures Moved(View(), m) == Candidate.Decline(old(View()), context, base, fallbackOk, left)
    {
      if !fallbackOk {
        m := Abort(Close(RetainedPublication, base.publication), EngineFailure);
        return;
      }
      active := Some(ParsingExactFallback(context, base));
      return Stop(Pending(left));
    }

    method AdvanceParsing(context: Context, initial: bool, reply: ActiveReply) returns (m: Move)
      modifies this`active, this`cleanup
      ensures Moved(View(), m) == Candidate.AdvanceParsing(old(View()), context, initial, reply)
    {
      if reply.More? {
        return Stop(Pending(reply.spent));
      }
      if !reply.Done? {
        return Stop(PollError(EngineFailure));
      }
      if !reply.ok {
        m := Abort(None, EngineFailure);
      } else if initial && !G.InitialCleanReady(green, context.source, context.profile) {
        m := Abort(None, InvalidAuthority);
      } else {
        var restart := if initial then Some(Restart(ByRecursiveGreen, context.generation)) else reply.next;
        active := Some(Building(context, reply.handle, restart));
        return GoOn(reply.spent);
      }
    }

    method AdvanceBuilding(context: Context, next: Option<Restart>, reply: ActiveReply) returns (m: Move)
      modifies this`active, this`cleanup
      ensures Moved(View(), m) == Candidate.AdvanceBuilding(old(View()), context, next, reply)
    {
      if reply.More? {
        active := Some(Building(context, reply.handle, next));
        return Stop(Pending(reply.spent));
      }
      if !reply.Done? {
        return Stop(PollError(EngineFailure));
      }
      if reply.publish.Published? {
        active := Some(FreshStream(context, Stream(reply.handle, None), FullSnapshot, next, None, None, reply.reuses));
        return GoOn(reply.spent);
      }
      m := Abort(Close(if reply.publish.OfferFailed? then SnapshotStream else Publication, reply.handle), EngineFailure);
    }

    method AdvanceCrop(context: Context, job: Restart, base: Base, left: nat, reply: ActiveReply) returns (m: Move)
      modifies this`active, this`cleanup
      ensures Moved(View(), m) == Candidate.AdvanceCrop(old(View()), context, job, base, left, reply)
    {
      var whole := base.(restart := Some(job));
      if reply.Declined? {
        m := Decline(context, whole, reply.fallbackOk, left);
      } else if reply.More? {
        return Stop(Pending(reply.spent));
      } else if !reply.Done? {
        return Stop(PollError(EngineFailure));
      } else if !reply.ok || reply.next.None? {
        m := Abort(Close(RetainedPublication, base.publication), EngineFailure);
      } else {
        active := Some(BuildingExact(context, reply.handle, whole, reply.next.value, LegacyBlocks, Reuse));
        return GoOn(reply.spent);
      }
    }

    method AdvanceBullet(context: Context, plan: nat, base: Base, left: nat, reply: ActiveReply) returns (m: Move)
      modifies this`active, this`cleanup, this`bullet
      ensures Moved(View(), m) == Candidate.AdvanceBullet(old(View()), context, plan, base, left, reply)
    {
      if reply.More? {
        return Stop(Pending(reply.spent));
      }
      bullet := None;
      if !reply.Done? {
        m := Decline(context, base, reply.Declined? && reply.fallbackOk, left);
      } else if !reply.matches {
        m := Decline(context, base, reply.ok, left);
      } else if !reply.ok || reply.next.None? {
        m := Abort(Close(RetainedPublication, base.publication), EngineFailure);
      } else {
        bullet := Some(plan);
        active := Some(BuildingExact(context, reply.handle, base, reply.next.value, LegacyBlocks, Reuse));
        return GoOn(reply.spent);
      }
    }

    method AdvanceFallbackParse(context: Context, base: Base, reply: ActiveReply) returns (m: Move)
      modifies this`active, this`cleanup
      ensures Moved(View(), m) == Candidate.AdvanceFallbackParse(old(View()), context, base, reply)
    {
      if reply.More? {
        return Stop(Pending(reply.spent));
      }
      if !reply.Done? {
        return Stop(PollError(EngineFailure));
      }
      if !reply.ok {
        m := Abort(Close(RetainedPublication, base.publication), EngineFailure);
        return;
      }
      var byGreen := G.IncrementalCleanReady(green, context.source, context.profile);
      if !(if byGreen then reply.matches else reply.splice) {
        active := Some(BuildingExactFallback(context, reply.handle, base, reply.next));
        return GoOn(reply.spent);
      }
      if reply.next.None? {
        m := Abort(Close(RetainedPublication, base.publication), InvalidState);
        return;
      }
      var path := if byGreen then GreenWholeRole else LegacyBlocks;
      active := Some(BuildingExact(context, reply.handle, base, reply.next.value, path, Reuse));
      return GoOn(reply.spent);
    }

    method AdvanceFallbackBuild(context: Context, base: Base, next: Option<Restart>, reply: ActiveReply) returns (m: Move)
      modifies this
      ensures Moved(View(), m) == Candidate.AdvanceFallbackBuild(old(View()), context, base, next, reply)
    {
      if reply.More? {
        active := Some(BuildingExactFallback(context, reply.handle, base, next));
        return Stop(Pending(reply.spent));
      }
      if !reply.Done? {
        return Stop(PollError(EngineFailure));
      }
      if reply.publish.DescriptorFailed? || reply.publish.StreamFailed? {
        m := Abort(ClosePair(ExactPublications, reply.handle, base.publication), EngineFailure);
      } else if base.restart.None? {
        m := Abort(ClosePair(StreamAndRetained, reply.handle, base.publication), InvalidState);
      } else if reply.publish.OfferFailed? {
        m := RestoreAfterFailure(base, Close(SnapshotStream, reply.handle));
      } else {
        active := Some(FreshStream(context, Stream(reply.handle, None), FullSnapshot, next, Some(base.publication),
                                   Some(Recovery(base.ack, base.restart.value)), reply.reuses));
        return GoOn(reply.spent);
      }
    }

    /** A target that failed to publish is closed and its base goes back to `retained`. */
    method RestoreAfterFailure(base: Base, target: Option<Cleanup>) returns (m: Move)
      modifies this
      ensures var restored := Candidate.RestoreExactBase(old(View()).(active := None), base);
        Moved(View(), m) == if restored.outcome.Err? then Return(restored.endpoint, PollError(restored.outcome.error))
                            else Return(restored.endpoint.(cleanup := target), PollError(EngineFailure))
    {
      active := None;
      var restored := RestoreExactBase(base);
      if restored.Err? {
        return Stop(PollError(restored.error));
      }
      cleanup := target;
      return Stop(PollError(EngineFailure));
    }

    method AdvanceExactBuild(context: Context, base: Base, nextRestart: Restart, path: Path, transport: Transport,
                             reply: ActiveReply) returns (m: Move)
      modifies this
      ensures Moved(View(), m) == Candidate.AdvanceExactBuild(old(View()), context, base, nextRestart, path, transport, reply)
    {
      if path.LegacyBlocks? && G.OwnsBaseAuthority(green, base.ack) {
        return Stop(PollError(InvalidState));
      }
      if reply.More? {
        active := Some(BuildingExact(context, reply.handle, base, nextRestart, path, transport));
        return Stop(Pending(reply.spent));
      }
      if !reply.Done? {
        return Stop(PollError(EngineFailure));
      }
      var both := ClosePair(ExactPublications, reply.handle, base.publication);
      if reply.publish.DescriptorFailed? {
        m := Abort(both, EngineFailure);
        return;
      }
      if base.restart.None? {
        m := Abort(both, InvalidState);
        return;
      }
      if path.GreenSplice? && !G.ReadyUpdateFor(green, base.ack, context.source) {
        m := Abort(both, InvalidAuthority);
        return;
      }
      var delivered := if path.GreenSplice? then PublicationPath(reply.segments) else path;
      if transport.Replace? && !delivered.GreenSplice? {
        m := Abort(both, InvalidState);
        return;
      }
      if reply.publish.StreamFailed? {
        m := RestoreAfterFailure(base, Close(Publication, reply.handle));
        return;
      }
      var stream := Stream(reply.handle, Some(base.publication));
      var recovery := Some(Recovery(base.ack, base.restart.value));
      if reply.publish.OfferFailed? {
        m := Abort(Some(ExactStreamAndRestore(stream, false, None, recovery)), EngineFailure);
        return;
      }
      active := Some(FreshStream(context, stream, ExactBaseDelta, Some(nextRestart), None, recovery, reply.reuses));
      return GoOn(reply.spent);
    }

    method SealStream(first: nat, count: nat, spent: nat, seal: SealReply) returns (m: Move)
      requires active.Some? && active.value.Publishing? && active.value.streaming.stream.Some?
      modifies this`active
      ensures Moved(View(), m) == Candidate.SealStream(old(View()), old(active.value.streaming), first, count, spent, seal)
    {
      var s := active.value.streaming;
      var stream := s.stream.value;
      // Until the target is sealed, the filled End packet stays behind.
      active := Some(Publishing(s.(unsent := Some(UnsentEnd(first, count)))));
      if seal.RecordsDiffer? {
        return Stop(PollError(InvalidAuthority));
      }
      if s.sealed.Some? {
        return Stop(PollError(InvalidState));
      }
      if s.mode.ExactBaseDelta? {
        if s.superseded.Some? {
          return Stop(PollError(InvalidState));
        }
        if stream.base.None? || seal.DetachFailed? {
          return Stop(PollError(EngineFailure));
        }
        s := s.(superseded := stream.base, stream := Some(stream.(base := None)));
        active := Some(Publishing(s.(unsent := Some(UnsentEnd(first, count)))));
      }
      if !seal.Sealed? {
        return Stop(PollError(EngineFailure));
      }
      active := Some(Publishing(s.(stream := None, sealed := Some(stream.handle), expectedAck := Some(ExpectedAck(s.context)),
                                   phase := P.AwaitPacketReceipt(first, count, true))));
      return Stop(Event(spent));
    }

    method AdvanceStream(reply: ActiveReply) returns (m: Move)
      requires active.Some? && active.value.Publishing?
      modifies this`active
      ensures Moved(View(), m) == Candidate.AdvanceStream(old(View()), old(active.value.streaming), reply)
    {
      var s := active.value.streaming;
      match s.phase {
      case NeedBegin =>
        active := Some(Publishing(s.(phase := P.AwaitBeginReceipt)));
        return Stop(Event(0));
      case NeedCommit =>
        if s.expectedAck.None? {
          return Stop(PollError(InvalidState));
        }
        active := Some(Publishing(s.(phase := P.AwaitCommitReceipt)));
        return Stop(Event(0));
      case NeedPacket =>
        if s.unsent.Some? {
          var end := s.unsent.value;
          active := Some(Publishing(s.(phase := P.AwaitPacketReceipt(end.first, end.count, true), unsent := None)));
          return Stop(Event(0));
        }
        if s.stream.None? {
          return Stop(PollError(InvalidState));
        }
        if reply.Failed? || reply.Declined? || reply.Done? {
          return Stop(PollError(EngineFailure));
        }
        s := s.(stream := Some(s.stream.value.(handle := reply.handle)));
        active := Some(Publishing(s));
        if reply.More? {
          return Stop(Pending(reply.spent));
        }
        if reply.Packet? {
          active := Some(Publishing(s.(phase := P.AwaitPacketReceipt(reply.first, reply.count, false))));
          return Stop(Event(reply.spent));
        }
        m := SealStream(reply.first, reply.count, reply.spent, reply.seal);
      case _ =>
        return Stop(Pending(0));
      }
    }

    method AdvanceActive(left: nat, reply: ActiveReply) returns (m: Move)
      requires active.Some?
      modifies this
      ensures Moved(View(), m) == Candidate.AdvanceActive(old(View()), left, reply)
    {
      hide Candidate.AdvanceParsing, Candidate.AdvanceBuilding, Candidate.AdvanceCrop, Candidate.AdvanceBullet,
        Candidate.AdvanceFallbackParse, Candidate.AdvanceFallbackBuild, Candidate.AdvanceExactBuild, Candidate.AdvanceStream;
      match active.value {
      case Parsing(c, initial) => m := AdvanceParsing(c, initial, reply);
      case Building(c, _, next) => m := AdvanceBuilding(c, next, reply);
      case ParsingExact(c, job, base) => m := AdvanceCrop(c, job, base, left, reply);
      case ParsingOrdinaryExact(c, job, base) => m := AdvanceCrop(c, job, base, left, reply);
      case AwaitingGreen(_, _) => return Stop(PollError(InvalidState));
      case ParsingBulletLocal(c, plan, base) => m := AdvanceBullet(c, plan, base, left, reply);
      case ParsingExactFallback(c, base) => m := AdvanceFallbackParse(c, base, reply);
      case BuildingExactFallback(c, _, base, next) => m := AdvanceFallbackBuild(c, base, next, reply);
      case BuildingExact(c, _, base, next, path, transport) => m := AdvanceExactBuild(c, base, next, path, transport, reply);
      case Publishing(_) => m := AdvanceStream(reply);
      }
    }

    /** The candidate loop of `poll`: engine answers are consumed one per iteration. */
    method PollCandidate(fuel: nat, replies: seq<ActiveReply>) returns (result: PollResult)
      modifies this
      ensures (View(), result) == AdvanceLoop(old(View()), fuel, 0, replies)
    {
      hide Candidate.AdvanceActive;
      var transitions := 0;
      var i := 0;
      while transitions < fuel && i < |replies|
        invariant i <= |replies|
        invariant AdvanceLoop(old(View()), fuel, 0, replies) == AdvanceLoop(View(), fuel, transitions, replies[i..])
        decreases |replies| - i
      {
        if active.None? {
          return PollError(InvalidState);
        }
        var m := AdvanceActive(fuel - transitions, replies[i]);
        assert replies[i..][1..] == replies[i + 1..];
        match m {
        case GoOn(spent) =>
          transitions := transitions + spent;
          i := i + 1;
        case Stop(Pending(spent)) => return Pending(transitions + spent);
        case Stop(Event(spent)) => return Event(transitions + spent);
        case Stop(PollError(error)) => return PollError(error);
        }
      }
      return Pending(transitions);
    }

    method Preempt(reply: PreemptReply) returns (r: Outcome<bool>)
      modifies this
      ensures Result(View(), r) == Candidate.Preempt(old(View()), reply)
    {
      if active.None? || ParkedExact(active.value).None? {
        return Ok(false);
      }
      var parked := ParkedExact(active.value).value;
      var base := parked.base;
      var context := parked.context;
      var update := G.ReadyUpdateFor(green, base.ack, context.source);
      var clean := parked.toClean && G.CleanReadyForBase(green, base.ack, context.source, context.profile);
      if !update && !clean {
        return Ok(false);
      }
      if !reply.certified || base.restart.None? {
        r := AbortPreempt(base, InvalidAuthority);
        return;
      }
      if clean {
        if !reply.cleanJob {
          r := AbortPreempt(base, EngineFailure);
          return;
        }
        active := Some(ParsingExactFallback(context, base));
        return Ok(true);
      }
      if reply.transport.Err? || reply.writer.None? {
        r := AbortPreempt(base, EngineFailure);
        return;
      }
      var next := Restart(ByRecursiveGreen, context.generation);
      active := Some(BuildingExact(context, reply.writer.value, base, next, GreenSplice, reply.transport.value));
      return Ok(true);
    }

    method AbortPreempt(base: Base, error: Error) returns (r: Outcome<bool>)
      modifies this
      ensures Result(View(), r) == Candidate.AbortPreempt(old(View()), base, error)
    {
      active := None;
      green := G.RequestCancel(green);
      cleanup := Close(RetainedPublication, base.publication);
      return Err(error);
    }

    // ---------------------------------------------------------------------- polling

    method PollIdle(fuel: nat, reply: PollReply) returns (result: PollResult)
      modifies this
      ensures Answer(View(), result) == EndpointOps.PollIdle(old(View()), fuel, reply)
    {
      if green.cleanup != [] {
        var polled := G.PollCleanup(green, fuel, reply.greenCleanup);
        green := polled.slot;
        return if polled.outcome.Ok? then Pending(polled.outcome.value) else PollError(polled.outcome.error);
      }
      var ack := if retained.Some? then Some(retained.value.ack) else None;
      var lane := LP.Poll(lanes, fuel, ack, reply.lane);
      lanes := lane.lanes;
      return if lane.outcome.Ok? then Pending(lane.outcome.value) else PollError(lane.outcome.error);
    }

    method Poll(fuel: nat, reply: PollReply) returns (result: PollResult)
      modifies this
      ensures Answer(View(), result) == EndpointOps.Poll(old(View()), fuel, reply)
      ensures Upholds(old(View()), OpPoll(fuel, reply), View(), !result.PollError?)
    {
      hide Upholds;
      OperationUpholds(View(), OpPoll(fuel, reply));
      hide G.PollTarget, G.PollCleanup, LP.Poll, Candidate.PollCleanup, Candidate.Preempt, Candidate.TakeDelivery, AdvanceLoop,
        EndpointOps.PollIdle;
      if fuel == 0 {
        return PollError(InvalidState);
      }
      if cleanup.Some? {
        var complete := PollCleanup(fuel, reply.cleanup);
        return if complete.Err? then PollError(complete.error) else Pending(if complete.value then 1 else fuel);
      }
      if G.TargetWorkPending(green) {
        var polled := G.PollTarget(green, fuel, reply.target);
        green := polled.slot;
        if polled.outcome.Err? {
          return PollError(polled.outcome.error);
        }
        var event := TakeDelivery();
        if event.Err? {
          return PollError(event.error);
        }
        return if event.value then Event(polled.outcome.value) else Pending(polled.outcome.value);
      }
      ghost var before := View();
      var event := TakeDelivery();
      UntakenDelivery(before);
      if event.Err? {
        return PollError(event.error);
      }
      if event.value {
        return Event(0);
      }
      var preempted := Preempt(reply.preempt);
      UnpreemptedPoll(before, reply.preempt);
      if preempted.Err? {
        return PollError(preempted.error);
      }
      if preempted.value {
        return Pending(1);
      }
      if active.None? {
        result := PollIdle(fuel, reply);
      } else {
        result := PollCandidate(fuel, reply.active);
      }
    }

    // ---------------------------------------------------------------- cleanup, closing

    method ScheduleClose() returns (r: Outcome<bool>)
      modifies this
      ensures Result(View(), r) == Candidate.ScheduleClose(old(View()))
    {
      hide Upholds, Candidate.Cancel;
      if !closing {
        return Ok(cleanup.Some? || G.HasWork(green));
      }
      green := G.BeginClose(green);
      if cleanup.Some? {
        return Ok(true);
      }
      lanes := L.CancelAll(lanes);
      if active.Some? {
        var cancelled := Cancel();
        if cancelled.Err? {
          return Err(cancelled.error);
        }
        if cleanup.Some? {
          return Ok(true);
        }
      }
      if retained.Some? {
        cleanup := Close(RetainedPublication, retained.value.publication);
        retained := None;
      }
      return Ok(cleanup.Some? || G.HasWork(green));
    }

    method BeginClose() returns (r: Outcome<()>)
      modifies this
      ensures Result(View(), r) == Candidate.BeginClose(old(View()))
      ensures Upholds(old(View()), OpBeginClose, View(), r.Ok?)
    {
      hide Upholds, Candidate.ScheduleClose;
      OperationUpholds(View(), OpBeginClose);
      closing := true;
      lanes := lanes.(unavailable := None);
      bullet := None;
      var scheduled := ScheduleClose();
      return if scheduled.Ok? then Ok(()) else Err(scheduled.error);
    }

    method PollCandidateCleanup(fuel: nat, reply: CleanupReply) returns (complete: Outcome<bool>)
      requires cleanup.Some? && fuel > 0
      modifies this
      ensures Polled(View(), complete) == Candidate.PollCandidateCleanup(old(View()), fuel, reply)
    {
      match cleanup.value {
      case CloseOne(kind, handle, begun) =>
        match PollPart(handle, begun, fuel, reply.release) {
        case PartFailed(started) =>
          cleanup := Some(CloseOne(kind, handle, started || begun));
          return Err(EngineFailure);
        case PartWaiting(left) =>
          cleanup := Some(CloseOne(kind, left, true));
          return Ok(false);
        case PartDone =>
          cleanup := None;
          released := released + multiset{handle.id};
          return Ok(true);
        }
      case CloseTwo(_, _, _, _, _, _) => complete := PollPair(fuel, reply.release);
      case ExactStreamAndRestore(_, _, _, _) => complete := PollRestore(fuel, reply);
      }
    }

    method PollPair(fuel: nat, reply: ReleaseReply) returns (complete: Outcome<bool>)
      requires cleanup.Some? && cleanup.value.CloseTwo? && fuel > 0
      modifies this
      ensures Polled(View(), complete) == PollCloseTwo(old(View()), old(cleanup.value), fuel, reply)
    {
      var c := cleanup.value;
      if !c.targetComplete {
        match PollPart(c.target, c.targetBegun, fuel, reply) {
        case PartFailed(started) =>
          cleanup := Some(CloseTwo(c.pair, c.target, started || c.targetBegun, false, c.other, c.otherBegun));
          return Err(EngineFailure);
        case PartWaiting(left) =>
          cleanup := Some(CloseTwo(c.pair, left, true, false, c.other, c.otherBegun));
        case PartDone =>
          cleanup := Some(CloseTwo(c.pair, c.target, c.targetBegun, true, c.other, c.otherBegun));
          released := released + multiset{c.target.id};
        }
        return Ok(false);
      }
      match PollPart(c.other, c.otherBegun, fuel, reply) {
      case PartFailed(started) =>
        cleanup := Some(CloseTwo(c.pair, c.target, c.targetBegun, true, c.other, started || c.otherBegun));
        return Err(EngineFailure);
      case PartWaiting(left) =>
        cleanup := Some(CloseTwo(c.pair, c.target, c.targetBegun, true, left, true));
        return Ok(false);
      case PartDone =>
        cleanup := None;
        released := released + multiset{c.other.id};
        return Ok(true);
      }
    }

    method PollRestore(fuel: nat, reply: CleanupReply) returns (complete: Outcome<bool>)
      requires cleanup.Some? && cleanup.value.ExactStreamAndRestore? && fuel > 0
      modifies this
      ensures Polled(View(), complete) == PollExactRestore(old(View()), old(cleanup.value), fuel, reply)
    {
      var c := cleanup.value;
      var stream, base, begun, remaining := c.stream, c.base, c.streamBegun, fuel;
      if base.None? {
        if !reply.detachOk || stream.base.None? {
          return Err(EngineFailure);
        }
        base := stream.base;
        stream := stream.(base := None);
        cleanup := Some(ExactStreamAndRestore(stream, begun, base, c.recovery));
        remaining := remaining - 1;
        if remaining == 0 {
          return Ok(false);
        }
      }
      match PollPart(stream.handle, begun, remaining, reply.release) {
      case PartFailed(started) =>
        cleanup := Some(ExactStreamAndRestore(stream, started || begun, base, c.recovery));
        return Err(EngineFailure);
      case PartWaiting(left) =>
        cleanup := Some(ExactStreamAndRestore(stream.(handle := left), true, base, c.recovery));
        return Ok(false);
      case PartDone =>
        cleanup := None;
        released := released + multiset{stream.handle.id};
        if c.recovery.None? {
          return Err(InvalidState);
        }
        if retained.Some? {
          cleanup := Close(RetainedPublication, base.value);
          return Err(InvalidState);
        }
        retained := Some(Base(base.value, c.recovery.value.ack, Some(c.recovery.value.restart)));
        return Ok(true);
      }
    }

    method PollLaneCleanup(fuel: nat, reply: CleanupReply) returns (r: Outcome<bool>)
      requires fuel > 0
      modifies this
      ensures Result(View(), r) == Candidate.PollLaneCleanup(old(View()), fuel, reply)
    {
      hide PollLanes, Candidate.ScheduleClose, CleanupPending;
      var polled := PollLanes(lanes, fuel, retained.Some?, reply);
      lanes := polled.lanes;
      if polled.outcome.Err? {
        return Err(polled.outcome.error);
      }
      if polled.outcome.value > 0 {
        return Ok(false);
      }
      var scheduled := ScheduleClose();
      if scheduled.Err? {
        return scheduled;
      }
      if scheduled.value {
        return Ok(false);
      }
      var pending := HasCleanup();
      return Ok(!pending);
    }

    method HasCleanup() returns (pending: bool)
      ensures pending == CleanupPending(View())
    {
      return || cleanup.Some? || G.HasWork(green)
             || (lanes.hot.Some? && (lanes.hot.value.Cancelling? || lanes.hot.value.Releasing?))
             || (lanes.viewport.Some? && lanes.viewport.value.Draining?)
             || (closing && (|| active.Some? || retained.Some? || green.installed.Some?
                             || lanes.viewport.Some? || lanes.hot.Some? || lanes.sidecar.Some?));
    }

    method PollCleanup(fuel: nat, reply: CleanupReply) returns (r: Outcome<bool>)
      modifies this
      ensures Result(View(), r) == Candidate.PollCleanup(old(View()), fuel, reply)
      ensures Upholds(old(View()), OpPollCleanup(fuel, reply), View(), r.Ok?)
    {
      hide Upholds;
      OperationUpholds(View(), OpPollCleanup(fuel, reply));
      hide G.PollCleanup, G.BeginClose, Candidate.PollCandidateCleanup, Candidate.PollLaneCleanup, Candidate.ScheduleClose;
      if fuel == 0 {
        return Err(InvalidState);
      }
      if green.cleanup != [] {
        var polled := G.PollCleanup(green, fuel, reply.green);
        green := polled.slot;
        if polled.outcome.Err? {
          return Err(polled.outcome.error);
        }
        if closing {
          green := G.BeginClose(green);
        }
        if green.cleanup != [] || cleanup.Some? {
          return Ok(false);
        }
      }
      if cleanup.None? {
        r := PollLaneCleanup(fuel, reply);
        return;
      }
      var complete := PollCandidateCleanup(fuel, reply);
      if complete.Err? || !complete.value {
        return complete;
      }
      var scheduled := ScheduleClose();
      return if scheduled.Err? then scheduled else Ok(!scheduled.value);
    }

    /**
     `emergency_close`: poll cleanup while any is pending. The loop ends with any
     engine within its contract; with one that reports no error no poll fails, and
     then nothing is owned any more.
     */
    method EmergencyClose(engine: Endpoint -> CleanupReply) returns (failed: bool)
      requires Inv(View())
      requires forall e: Endpoint :: Settling(e) && CleanupPending(e) ==> Answers(e, UNBOUNDED_FUEL, engine(Visible(e)))
      modifies this
      ensures Inv(View()) && closing
      ensures !failed ==> OwnsNothing(View())
      ensures (forall e: Endpoint :: Settling(e) && CleanupPending(e) ==> Untroubled(engine(Visible(e)))) ==> !failed
    {
      hide Inv, Candidate.BeginClose, Candidate.PollCleanup, CleanupPending, Answers, Debt, Untroubled, Upholds;
      BeginCloseSteps(View(), 0);
      var begun := BeginClose();
      failed := false;
      var pending := HasCleanup();
      while pending
        invariant Inv(View()) && closing && pending == CleanupPending(View()) && !failed
        decreases Debt(View())
      {
        ghost var before := View();
        var reply := engine(Endpoint(active, cleanup, retained, green, bullet, lanes, closing, multiset{}));
        CleanupPollPays(before, UNBOUNDED_FUEL, reply);
        AnswersSteps(before, reply);
        if Untroubled(reply) {
          CleanupPollSucceeds(before, UNBOUNDED_FUEL, reply);
        }
        var complete := PollCleanup(UNBOUNDED_FUEL, reply);
        if complete.Err? {
          failed := true;
          pending := HasCleanup();
          break;
        }
        pending := HasCleanup();
      }
      if !failed {
        ClosedOwnsNothing(View());
      }
    }
  }

  lemma AnswersSteps(e: Endpoint, reply: CleanupReply)
    requires Settling(e) && Answers(e, UNBOUNDED_FUEL, reply)
    ensures Inv(Candidate.PollCleanup(e, UNBOUNDED_FUEL, reply).endpoint)
    ensures Candidate.PollCleanup(e, UNBOUNDED_FUEL, reply).endpoint.closing == e.closing
  {
    hide Inv, Candidate.PollCleanup, LegalPollCleanup;
    PollCleanupSteps(e, UNBOUNDED_FUEL, reply, 0);
  }

  lemma UntakenDelivery(e: Endpoint)
    ensures Candidate.TakeDelivery(e).outcome == Ok(false) ==> Candidate.TakeDelivery(e).endpoint == e
  {
  }

  lemma UnpreemptedPoll(e: Endpoint, reply: PreemptReply)
    ensures Candidate.Preempt(e, reply).outcome == Ok(false) ==> Candidate.Preempt(e, reply).endpoint == e
  {
  }
}
