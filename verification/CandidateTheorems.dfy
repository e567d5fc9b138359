/**
 What each candidate operation keeps: the shape of the transaction, the base it
 owes, and the fate of every candidate resource. The recursive-Green slot and the
 lanes are untouched by these operations or handled in EndpointTheorems.
 */
module CandidateTheorems {
  import opened Engine
  import opened Candidate
  import P = StreamProtocol
  import G = RecursiveGreen
  import L = Lanes

  // ------------------------------------------------------------------- ownership

  function HoldsBase(b: Base, id: nat): nat {
    Holds(b.publication, id)
  }

  function HoldsStreaming(s: Streaming, id: nat): nat {
    (if s.stream.Some? then Holds(s.stream.value.handle, id) + HoldsOption(s.stream.value.base, id) else 0)
    + HoldsOption(s.sealed, id) + HoldsOption(s.superseded, id)
  }

  function HoldsActive(a: Active, id: nat): nat {
    match a
    case Parsing(_, _) => 0
    case Building(_, writer, _) => Holds(writer, id)
    case ParsingExact(_, _, base) => HoldsBase(base, id)
    case ParsingOrdinaryExact(_, _, base) => HoldsBase(base, id)
    case AwaitingGreen(_, base) => HoldsBase(base, id)
    case ParsingBulletLocal(_, _, base) => HoldsBase(base, id)
    case ParsingExactFallback(_, base) => HoldsBase(base, id)
    case BuildingExactFallback(_, writer, base, _) => Holds(writer, id) + HoldsBase(base, id)
    case BuildingExact(_, writer, base, _, _, _) => Holds(writer, id) + HoldsBase(base, id)
    case Publishing(s) => HoldsStreaming(s, id)
  }

  function HoldsCleanup(c: Cleanup, id: nat): nat {
    match c
    case CloseOne(_, handle, _) => Holds(handle, id)
    case CloseTwo(_, target, _, complete, other, _) => (if complete then 0 else Holds(target, id)) + Holds(other, id)
    case ExactStreamAndRestore(stream, _, base, _) =>
      Holds(stream.handle, id) + HoldsOption(stream.base, id) + HoldsOption(base, id)
  }

  /** Places of the transaction that own `id`. */
  function OwnedHere(e: Endpoint, id: nat): nat {
    (if e.active.Some? then HoldsActive(e.active.value, id) else 0)
    + (if e.cleanup.Some? then HoldsCleanup(e.cleanup.value, id) else 0)
    + (if e.retained.Some? then HoldsBase(e.retained.value, id) else 0)
  }

  function FateHere(e: Endpoint, id: nat): nat {
    OwnedHere(e, id) + e.released[id]
  }

  // ---------------------------------------------------------------- the base owed

  /** The base a running candidate would give back, with its restart authority. */
  function ActiveBase(a: Active): Option<Base> {
    match a
    case Parsing(_, _) => None
    case Building(_, _, _) => None
    case ParsingExact(_, job, base) => Some(base.(restart := Some(job)))
    case ParsingOrdinaryExact(_, job, base) => Some(base.(restart := Some(job)))
    case AwaitingGreen(_, base) => Some(base)
    case ParsingBulletLocal(_, _, base) => Some(base)
    case ParsingExactFallback(_, base) => Some(base)
    case BuildingExactFallback(_, _, base, _) => Some(base)
    case BuildingExact(_, _, base, _, _, _) => Some(base)
    case Publishing(s) =>
      if s.recovery.None? then None
      else RecoveredBase(if s.superseded.Some? then s.superseded else if s.stream.Some? then s.stream.value.base else None,
                         s.recovery.value)
  }

  function RecoveredBase(publication: Option<Resource>, recovery: Recovery): Option<Base> {
    if publication.None? then None else Some(Base(publication.value, recovery.ack, Some(recovery.restart)))
  }

  function CleanupBase(c: Cleanup): Option<Base> {
    if !c.ExactStreamAndRestore? || c.recovery.None? then None
    else RecoveredBase(if c.base.Some? then c.base else c.stream.base, c.recovery.value)
  }

  /** The base the endpoint owes its caller, wherever the transaction keeps it. */
  function OwedBase(e: Endpoint): Option<Base> {
    if e.retained.Some? then e.retained
    else if e.active.Some? && ActiveBase(e.active.value).Some? then ActiveBase(e.active.value)
    else if e.cleanup.Some? then CleanupBase(e.cleanup.value)
    else None
  }

  // --------------------------------------------------------------------- its shape

  predicate Newer(c: Context, ack: Ack) {
    ack.hostRevision < c.generation
  }

  /** An open stream never waits for a commit; a sealed one has sent its End packet. */
  predicate PhaseShape(s: Streaming) {
    && (s.unsent.Some? ==> s.stream.Some? && s.phase.NeedPacket?)
    && (if s.stream.Some? then
          && !s.phase.AwaitCommitReceipt? && !s.phase.AwaitCommitHost?
          && !s.phase.AwaitRecursiveGreenDelivery? && !s.phase.AwaitDeliveryReceipt?
        else
          || (s.phase.AwaitPacketReceipt? && s.phase.end) || (s.phase.AwaitPacketHost? && s.phase.end)
          || s.phase.NeedCommit? || s.phase.AwaitCommitReceipt? || s.phase.AwaitCommitHost?
          || s.phase.AwaitRecursiveGreenDelivery? || s.phase.AwaitDeliveryReceipt?)
  }

  /** A target is streaming or sealed; recovery is held exactly with the base it recovers. */
  predicate StreamShape(s: Streaming) {
    var inStream := s.stream.Some? && s.stream.value.base.Some?;
    && (s.stream.Some? <==> s.sealed.None?)
    && (s.recovery.Some? <==> s.superseded.Some? || inStream)
    && !(s.superseded.Some? && inStream)
    && (s.mode.ExactBaseDelta? ==> s.recovery.Some?)
    && (s.mode.FullSnapshot? ==> !inStream)
    && (s.recovery.Some? ==> Newer(s.context, s.recovery.value.ack))
    && s.expectedAck == (if s.sealed.Some? then Some(ExpectedAck(s.context)) else None)
    && PhaseShape(s)
  }

  predicate ActiveShape(a: Active) {
    match a
    case ParsingExact(c, _, base) => base.restart.None? && Newer(c, base.ack)
    case ParsingOrdinaryExact(c, _, base) => base.restart.None? && Newer(c, base.ack)
    case AwaitingGreen(c, base) => base.restart.Some? && Newer(c, base.ack)
    case ParsingBulletLocal(c, _, base) => base.restart.Some? && Newer(c, base.ack)
    case ParsingExactFallback(c, base) => base.restart.Some? && Newer(c, base.ack)
    case BuildingExactFallback(c, _, base, _) => base.restart.Some? && Newer(c, base.ack)
    case BuildingExact(c, _, base, _, _, _) => base.restart.Some? && Newer(c, base.ack)
    case Publishing(s) => StreamShape(s)
    case _ => true
  }

  /** Only a candidate that was just started can meet a cleanup still pending. */
  predicate JustStarted(a: Active) {
    a.Parsing? || a.ParsingExact? || a.ParsingOrdinaryExact? || a.AwaitingGreen? || a.ParsingBulletLocal?
    || a.ParsingExactFallback?
  }

  predicate CleanupShape(c: Cleanup) {
    c.ExactStreamAndRestore? ==> c.recovery.Some? && (c.stream.base.Some? <==> c.base.None?)
  }

  predicate Shape(e: Endpoint) {
    && (e.active.Some? ==> ActiveShape(e.active.value))
    && (e.active.Some? && ActiveBase(e.active.value).Some? ==> e.retained.None?)
    && (e.cleanup.Some? ==> CleanupShape(e.cleanup.value))
    && (e.cleanup.Some? && e.active.Some? ==> JustStarted(e.active.value))
    && (e.cleanup.Some? && e.cleanup.value.ExactStreamAndRestore? ==>
          e.retained.None? && (e.active.Some? ==> e.active.value.Parsing?))
    && (e.closing && e.cleanup.None? ==> e.active.None? && e.retained.None?)
  }

  /** The base of `e'`, if any, is the one `e` owed, under the same acknowledgement. */
  predicate SameAuthority(e: Endpoint, e': Endpoint) {
    OwedBase(e').Some? ==> OwedBase(e).Some? && OwedBase(e').value.ack == OwedBase(e).value.ack
  }

  /**
   One candidate step: the shape holds, every resource keeps its fate, no new
   authority appears, and a successful step owes exactly the same base.
   */
  ghost predicate Keeps(e: Endpoint, e': Endpoint, ok: bool, minted: nat, id: nat) {
    && Shape(e') && SameAuthority(e, e')
    && FateHere(e', id) == FateHere(e, id) + minted
    && (ok ==> OwedBase(e') == OwedBase(e))
  }

  // --------------------------------------------------------------------- advancing

  predicate Succeeds(a: Advance) {
    a.Again? || !a.result.PollError?
  }

  function AdvanceSpent(a: Advance): nat {
    if a.Again? then a.spent else if a.result.PollError? then 0 else a.result.spent
  }

  /** Engine contract for one iteration: no more than the fuel, and the polled object stays itself. */
  predicate LegalAdvance(a: Active, left: nat, reply: ActiveReply) {
    var own := match a
      case Building(_, writer, _) => Some(writer.id)
      case BuildingExactFallback(_, writer, _, _) => Some(writer.id)
      case BuildingExact(_, writer, _, _, _, _) => Some(writer.id)
      case Publishing(s) => if s.stream.Some? then Some(s.stream.value.handle.id) else None
      case _ => None;
    match reply
    case Failed => true
    case Declined(_) => true
    case More(spent, handle) => spent <= left && (own.Some? ==> handle.id == own.value)
    case Done(spent, _, handle, _, _, _, _, _, _) => spent <= left && (own.Some? ==> handle.id == own.value)
    case Packet(spent, _, _, handle) => spent <= left && (own.Some? ==> handle.id == own.value)
    case EndPacket(spent, _, _, _, handle) => spent <= left && (own.Some? ==> handle.id == own.value)
  }

  predicate IsBuilding(a: Active) {
    a.Building? || a.BuildingExactFallback? || a.BuildingExact?
  }

  /** A writer is minted exactly when a parse phase goes on to a build phase. */
  function MintedAdvance(e: Endpoint, left: nat, reply: ActiveReply, id: nat): nat
    requires e.active.Some?
  {
    var a := AdvanceActive(e, left, reply);
    if a.Again? && !IsBuilding(e.active.value) && reply.Done? then Holds(reply.handle, id) else 0
  }

  ghost predicate AdvanceKeeps(e: Endpoint, left: nat, reply: ActiveReply, id: nat)
    requires e.active.Some?
  {
    var a := AdvanceActive(e, left, reply);
    && Keeps(e, a.endpoint, Succeeds(a), MintedAdvance(e, left, reply, id), id)
    && AdvanceSpent(a) <= left
    && a.endpoint.green == e.green && a.endpoint.lanes == e.lanes && a.endpoint.closing == e.closing
    && (a.Again? ==> a.endpoint.active.Some? && a.endpoint.cleanup.None?)
  }

  lemma CropKeeps(e: Endpoint, left: nat, reply: ActiveReply, id: nat)
    requires Shape(e) && e.cleanup.None? && e.active.Some? && LegalAdvance(e.active.value, left, reply)
    requires e.active.value.ParsingExact? || e.active.value.ParsingOrdinaryExact?
    ensures AdvanceKeeps(e, left, reply, id)
  {
    hide AdvanceParsing, AdvanceBuilding, AdvanceBullet, AdvanceFallbackParse, AdvanceFallbackBuild, AdvanceExactBuild, AdvanceStream;
  }

  lemma ParsingKeeps(e: Endpoint, left: nat, reply: ActiveReply, id: nat)
    requires Shape(e) && e.cleanup.None? && e.active.Some? && LegalAdvance(e.active.value, left, reply)
    requires e.active.value.Parsing?
    ensures AdvanceKeeps(e, left, reply, id)
  {
    hide AdvanceBuilding, AdvanceCrop, AdvanceBullet, AdvanceFallbackParse, AdvanceFallbackBuild, AdvanceExactBuild, AdvanceStream, G.InitialCleanReady;
  }

  lemma BulletKeeps(e: Endpoint, left: nat, reply: ActiveReply, id: nat)
    requires Shape(e) && e.cleanup.None? && e.active.Some? && LegalAdvance(e.active.value, left, reply)
    requires e.active.value.ParsingBulletLocal?
    ensures AdvanceKeeps(e, left, reply, id)
  {
    hide AdvanceParsing, AdvanceBuilding, AdvanceCrop, AdvanceFallbackParse, AdvanceFallbackBuild, AdvanceExactBuild, AdvanceStream;
  }

  lemma FallbackParseKeeps(e: Endpoint, left: nat, reply: ActiveReply, id: nat)
    requires Shape(e) && e.cleanup.None? && e.active.Some? && LegalAdvance(e.active.value, left, reply)
    requires e.active.value.ParsingExactFallback?
    ensures AdvanceKeeps(e, left, reply, id)
  {
    hide AdvanceParsing, AdvanceBuilding, AdvanceCrop, AdvanceBullet, AdvanceFallbackBuild, AdvanceExactBuild, AdvanceStream, G.IncrementalCleanReady;
  }

  lemma BuildingKeeps(e: Endpoint, left: nat, reply: ActiveReply, id: nat)
    requires Shape(e) && e.cleanup.None? && e.active.Some? && LegalAdvance(e.active.value, left, reply)
    requires e.active.value.Building?
    ensures AdvanceKeeps(e, left, reply, id)
  {
    hide AdvanceParsing, AdvanceCrop, AdvanceBullet, AdvanceFallbackParse, AdvanceFallbackBuild, AdvanceExactBuild, AdvanceStream;
  }

  lemma FallbackBuildKeeps(e: Endpoint, left: nat, reply: ActiveReply, id: nat)
    requires Shape(e) && e.cleanup.None? && e.active.Some? && LegalAdvance(e.active.value, left, reply)
    requires e.active.value.BuildingExactFallback?
    ensures AdvanceKeeps(e, left, reply, id)
  {
    hide AdvanceParsing, AdvanceBuilding, AdvanceCrop, AdvanceBullet, AdvanceFallbackParse, AdvanceExactBuild, AdvanceStream;
  }

  /** Target and base are closed together; nothing is owed any more. */
  lemma ClosedTogether(e: Endpoint, target: Resource, id: nat)
    requires Shape(e) && e.cleanup.None? && e.active.Some? && e.active.value.BuildingExact?
    requires target.id == e.active.value.writer.id
    ensures Keeps(e, e.(active := None, cleanup := ClosePair(ExactPublications, target, e.active.value.base.publication)), false, 0, id)
  {
  }

  /** The stream could not start: the base is retained again and the target closed. */
  lemma RestoredBeforeStream(e: Endpoint, target: Resource, id: nat)
    requires Shape(e) && e.cleanup.None? && e.active.Some? && e.active.value.BuildingExact?
    requires target.id == e.active.value.writer.id
    ensures var restored := RestoreExactBase(e.(active := None), e.active.value.base);
      restored.outcome.Ok? && Keeps(e, restored.endpoint.(cleanup := Close(Publication, target)), false, 0, id)
  {
  }

  /** The stream owns the base, to be published or to be closed with the base given back. */
  lemma StreamTakesBase(e: Endpoint, target: Resource, reuses: bool, id: nat)
    requires Shape(e) && e.cleanup.None? && e.active.Some? && e.active.value.BuildingExact?
    requires target.id == e.active.value.writer.id
    ensures var BuildingExact(context, _, base, next, _, _) := e.active.value;
      base.restart.Some? &&
      var stream := Stream(target, Some(base.publication));
      var recovery := Some(Recovery(base.ack, base.restart.value));
      var started := FreshStream(context, stream, ExactBaseDelta, Some(next), None, recovery, reuses);
      && Keeps(e, e.(active := Some(started)), true, 0, id)
      && Keeps(e, e.(active := None, cleanup := Some(ExactStreamAndRestore(stream, false, None, recovery))), false, 0, id)
  {
  }

  /** A finished exact build: its base goes into the stream, back to `retained`, or to cleanup with the target. */
  lemma ExactPublishKeeps(e: Endpoint, left: nat, reply: ActiveReply, id: nat)
    requires Shape(e) && e.cleanup.None? && e.active.Some? && LegalAdvance(e.active.value, left, reply)
    requires e.active.value.BuildingExact? && reply.Done?
    ensures AdvanceKeeps(e, left, reply, id)
  {
    hide AdvanceParsing, AdvanceBuilding, AdvanceCrop, AdvanceBullet, AdvanceFallbackParse, AdvanceFallbackBuild, AdvanceStream,
      G.OwnsBaseAuthority, G.ReadyUpdateFor, PublicationPath, Keeps, Shape;
    UnmovedKeeps(e, id);
    ClosedTogether(e, reply.handle, id);
    RestoredBeforeStream(e, reply.handle, id);
    StreamTakesBase(e, reply.handle, reply.reuses, id);
  }

  lemma BuildingExactKeeps(e: Endpoint, left: nat, reply: ActiveReply, id: nat)
    requires Shape(e) && e.cleanup.None? && e.active.Some? && LegalAdvance(e.active.value, left, reply)
    requires e.active.value.BuildingExact?
    ensures AdvanceKeeps(e, left, reply, id)
  {
    hide AdvanceParsing, AdvanceBuilding, AdvanceCrop, AdvanceBullet, AdvanceFallbackParse, AdvanceFallbackBuild, AdvanceStream,
      G.OwnsBaseAuthority, G.ReadyUpdateFor;
    if reply.Done? {
      ExactPublishKeeps(e, left, reply, id);
    }
  }

  /** Sealing on success, before it is known which base moved. */
  lemma SealedKeeps(e: Endpoint, s: Streaming, s': Streaming, id: nat)
    requires Shape(e) && e.active == Some(Publishing(s)) && s.stream.Some?
    requires StreamShape(s') && s'.recovery == s.recovery && HoldsStreaming(s', id) == HoldsStreaming(s, id)
    requires ActiveBase(Publishing(s')) == ActiveBase(Publishing(s))
    ensures Keeps(e, At(e, s'), true, 0, id)
  {
    hide StreamShape, HoldsStreaming;
  }

  lemma SealKeeps(e: Endpoint, s: Streaming, left: nat, reply: ActiveReply, id: nat)
    requires Shape(e) && e.cleanup.None? && e.active == Some(Publishing(s)) && LegalAdvance(e.active.value, left, reply)
    requires s.phase.NeedPacket? && s.stream.Some? && s.unsent.None? && reply.EndPacket?
    ensures var polled := s.(stream := Some(s.stream.value.(handle := reply.handle)));
      var a := SealStream(At(e, polled), polled, reply.first, reply.count, reply.spent, reply.seal);
      && Keeps(e, a.endpoint, Succeeds(a), 0, id)
      && a.Return? && AdvanceSpent(a) <= left
      && a.endpoint.green == e.green && a.endpoint.lanes == e.lanes && a.endpoint.closing == e.closing
  {
    hide Keeps, Shape;
    PublishingShape(e, s);
    var polled := s.(stream := Some(s.stream.value.(handle := reply.handle)));
    var a := SealStream(At(e, polled), polled, reply.first, reply.count, reply.spent, reply.seal);
    var s' := a.endpoint.active.value.streaming;
    SealedKeeps(e, s, s', id);
    KeepsWeakens(e, At(e, s'), 0, id);
    assert a.endpoint == At(e, s');
  }

  /** `s'` differs from `s` in its phase and in how far its stream has been polled. */
  predicate StreamMoved(s: Streaming, s': Streaming) {
    && s' == s.(phase := s'.phase, stream := s'.stream, unsent := s'.unsent)
    && (s.stream.Some? <==> s'.stream.Some?)
    && (s.stream.Some? ==> s'.stream.value.handle.id == s.stream.value.handle.id && s'.stream.value.base == s.stream.value.base)
  }

  lemma MovedStreamKeeps(e: Endpoint, s: Streaming, s': Streaming, id: nat)
    requires Shape(e) && e.active == Some(Publishing(s)) && StreamMoved(s, s') && PhaseShape(s')
    ensures Keeps(e, At(e, s'), true, 0, id)
  {
  }

  lemma PublishingKeeps(e: Endpoint, left: nat, reply: ActiveReply, id: nat)
    requires Shape(e) && e.cleanup.None? && e.active.Some? && LegalAdvance(e.active.value, left, reply)
    requires e.active.value.Publishing?
    ensures AdvanceKeeps(e, left, reply, id)
  {
    hide AdvanceParsing, AdvanceBuilding, AdvanceCrop, AdvanceBullet, AdvanceFallbackParse, AdvanceFallbackBuild,
      AdvanceExactBuild, SealStream, Keeps, Shape;
    var s := e.active.value.streaming;
    var a := AdvanceStream(e, s, reply);
    UnmovedKeeps(e, id);
    PublishingShape(e, s);
    if s.phase.NeedPacket? && s.stream.Some? && s.unsent.None? && reply.EndPacket? {
      SealKeeps(e, s, left, reply, id);
    } else if Succeeds(a) && a.endpoint != e {
      var s' := a.endpoint.active.value.streaming;
      assert StreamMoved(s, s');
      MovedStreamKeeps(e, s, s', id);
    }
  }

  lemma UnmovedKeeps(e: Endpoint, id: nat)
    requires Shape(e)
    ensures Keeps(e, e, true, 0, id) && Keeps(e, e, false, 0, id)
  {
  }

  lemma PublishingShape(e: Endpoint, s: Streaming)
    requires Shape(e) && e.active == Some(Publishing(s))
    ensures StreamShape(s) && e.cleanup.None? && !e.closing
    ensures s.recovery.Some? ==> e.retained.None?
  {
  }

  lemma ActiveKeeps(e: Endpoint, left: nat, reply: ActiveReply, id: nat)
    requires Shape(e) && e.cleanup.None? && e.active.Some? && LegalAdvance(e.active.value, left, reply)
    ensures AdvanceKeeps(e, left, reply, id)
  {
    hide LegalAdvance, Shape, Keeps;
    match e.active.value
    case Parsing(_, _) => ParsingKeeps(e, left, reply, id);
    case ParsingExact(_, _, _) => CropKeeps(e, left, reply, id);
    case ParsingOrdinaryExact(_, _, _) => CropKeeps(e, left, reply, id);
    case AwaitingGreen(_, _) => UnmovedKeeps(e, id);
    case ParsingBulletLocal(_, _, _) => BulletKeeps(e, left, reply, id);
    case ParsingExactFallback(_, _) => FallbackParseKeeps(e, left, reply, id);
    case Building(_, _, _) => BuildingKeeps(e, left, reply, id);
    case BuildingExactFallback(_, _, _, _) => FallbackBuildKeeps(e, left, reply, id);
    case BuildingExact(_, _, _, _, _, _) => BuildingExactKeeps(e, left, reply, id);
    case Publishing(_) => PublishingKeeps(e, left, reply, id);
  }

  lemma KeepsChains(e: Endpoint, m: Endpoint, n: Endpoint, ok: bool, first: nat, second: nat, id: nat)
    requires Keeps(e, m, true, first, id) && Keeps(m, n, ok, second, id)
    ensures Keeps(e, n, ok, first + second, id)
  {
  }

  predicate LegalLoop(e: Endpoint, fuel: nat, spent: nat, replies: seq<ActiveReply>)
    decreases |replies|
  {
    spent >= fuel || replies == [] || e.active.None? ||
    (&& LegalAdvance(e.active.value, fuel - spent, replies[0])
     && var a := AdvanceActive(e, fuel - spent, replies[0]);
        a.Again? ==> LegalLoop(a.endpoint, fuel, spent + a.spent, replies[1..]))
  }

  function MintedLoop(e: Endpoint, fuel: nat, spent: nat, replies: seq<ActiveReply>, id: nat): nat
    decreases |replies|
  {
    if spent >= fuel || replies == [] || e.active.None? then 0
    else
      var a := AdvanceActive(e, fuel - spent, replies[0]);
      MintedAdvance(e, fuel - spent, replies[0], id)
      + (if a.Again? then MintedLoop(a.endpoint, fuel, spent + a.spent, replies[1..], id) else 0)
  }

  /** The candidate loop stays within its fuel and keeps what every iteration keeps. */
  lemma {:induction false} LoopKeeps(e: Endpoint, fuel: nat, spent: nat, replies: seq<ActiveReply>, id: nat)
    requires Shape(e) && e.cleanup.None? && e.active.Some? && spent <= fuel && LegalLoop(e, fuel, spent, replies)
    ensures var (e', r) := AdvanceLoop(e, fuel, spent, replies);
      && Keeps(e, e', !r.PollError?, MintedLoop(e, fuel, spent, replies, id), id)
      && e'.green == e.green && e'.lanes == e.lanes && e'.closing == e.closing
      && (!r.PollError? ==> r.spent <= fuel)
    decreases |replies|
  {
    hide AdvanceActive, LegalAdvance, MintedAdvance, Keeps, Shape;
    UnmovedKeeps(e, id);
    if spent < fuel && replies != [] {
      var a := AdvanceActive(e, fuel - spent, replies[0]);
      ActiveKeeps(e, fuel - spent, replies[0], id);
      KeepsShape(e, a.endpoint, Succeeds(a), MintedAdvance(e, fuel - spent, replies[0], id), id);
      if a.Again? {
        LoopKeeps(a.endpoint, fuel, spent + a.spent, replies[1..], id);
        var (e', r) := AdvanceLoop(a.endpoint, fuel, spent + a.spent, replies[1..]);
        KeepsChains(e, a.endpoint, e', !r.PollError?, MintedAdvance(e, fuel - spent, replies[0], id),
                    MintedLoop(a.endpoint, fuel, spent + a.spent, replies[1..], id), id);
      }
    }
  }

  lemma KeepsShape(e: Endpoint, e': Endpoint, ok: bool, minted: nat, id: nat)
    requires Keeps(e, e', ok, minted, id)
    ensures Shape(e')
  {
  }

  // --------------------------------------------------------- preemption, delivery

  function MintedPreempt(e: Endpoint, reply: PreemptReply, id: nat): nat {
    var r := Preempt(e, reply);
    if r.outcome == Ok(true) && r.endpoint.active.value.BuildingExact? then HoldsOption(reply.writer, id) else 0
  }

  lemma PreemptKeeps(e: Endpoint, reply: PreemptReply, id: nat)
    requires Shape(e) && e.cleanup.None?
    ensures var r := Preempt(e, reply);
      && Keeps(e, r.endpoint, r.outcome.Ok?, MintedPreempt(e, reply, id), id)
      && r.endpoint.green == (if r.outcome.Ok? then e.green else G.RequestCancel(e.green))
      && r.endpoint.lanes == e.lanes && r.endpoint.closing == e.closing
      && (r.outcome == Ok(false) ==> r.endpoint == e)
  {
    hide G.ReadyUpdateFor, G.CleanReadyForBase, G.RequestCancel;
  }

  lemma TakeDeliveryKeeps(e: Endpoint, id: nat)
    requires Shape(e)
    ensures var r := TakeDelivery(e);
      && Keeps(e, r.endpoint, true, 0, id) && r.outcome.Ok?
      && r.endpoint.green == e.green && r.endpoint.lanes == e.lanes && r.endpoint.closing == e.closing
      && (r.outcome == Ok(false) ==> r.endpoint == e)
  {
    hide G.ReadyFor, Keeps, Shape;
    UnmovedKeeps(e, id);
    if e.active.Some? && e.active.value.Publishing? {
      var s := e.active.value.streaming;
      PublishingShape(e, s);
      if TakeDelivery(e).endpoint != e {
        MovedStreamKeeps(e, s, s.(phase := P.AwaitDeliveryReceipt), id);
      }
    }
  }

  /** Host credits and polls, short of rejection and delivery, only move the phase. */
  lemma CreditKeeps(e: Endpoint, credit: P.Credit, event: nat, adoptOk: bool, id: nat)
    requires Shape(e)
    requires e.active.Some? && e.active.value.Publishing?
    requires !(e.active.value.streaming.phase.AwaitDeliveryReceipt? && credit.DeliveryCredit?)
    ensures var r := AcceptCredit(e, credit, event, adoptOk);
      && Keeps(e, r.endpoint, true, 0, id)
      && r.endpoint.green == e.green && r.endpoint.lanes == e.lanes && r.endpoint.closing == e.closing
  {
    hide Keeps, Shape;
    UnmovedKeeps(e, id);
    var s := e.active.value.streaming;
    PublishingShape(e, s);
    var phase := P.AcceptCredit(s.phase, credit, event);
    if phase.Ok? {
      MovedStreamKeeps(e, s, s.(phase := phase.value), id);
    }
  }

  // ------------------------------------------------------------------- cancelling

  lemma CancelStreamingKeeps(e: Endpoint, s: Streaming, id: nat)
    requires Shape(e) && e.active == Some(Publishing(s))
    ensures var r := CancelStreaming(e, s);
      && Keeps(e, r.endpoint, true, 0, id) && r.outcome.Ok? && r.endpoint.active.None?
      && r.endpoint.green == e.green && r.endpoint.lanes == e.lanes && r.endpoint.closing == e.closing
  {
  }

  lemma CancelActiveKeeps(e: Endpoint, id: nat)
    requires Shape(e) && e.active.Some? && e.cleanup.None?
    ensures var r := CancelActive(e);
      && Keeps(e, r.endpoint, true, 0, id) && r.outcome.Ok? && r.endpoint.active.None?
      && r.endpoint.green == e.green && r.endpoint.lanes == e.lanes && r.endpoint.closing == e.closing
  {
    hide CancelStreaming;
    if e.active.value.Publishing? {
      CancelStreamingKeeps(e, e.active.value.streaming, id);
    }
  }

  /** The transaction never looks at the lanes, the slot or the rolling plan for what it owns. */
  lemma OnlyElsewhere(e: Endpoint, e': Endpoint, id: nat)
    requires Shape(e)
    requires e' == e.(green := e'.green, lanes := e'.lanes, bullet := e'.bullet)
    ensures Keeps(e, e', true, 0, id)
  {
  }

  /**
   Cancel succeeds in every state the endpoint can be in, except when a candidate
   beyond plain parsing was started over a cleanup that is still pending; it
   leaves no candidate active and owes the same base.
   */
  lemma CancelKeeps(e: Endpoint, id: nat)
    requires Shape(e)
    ensures var r := Cancel(e);
      && Keeps(e, r.endpoint, r.outcome.Ok?, 0, id)
      && (r.outcome.Ok? <==> e.cleanup.None? || e.active.None? || e.active.value.Parsing?)
      && (r.outcome.Ok? ==> r.endpoint.active.None?)
      && r.endpoint.green == G.RequestCancel(e.green) && r.endpoint.lanes == L.CancelAll(e.lanes)
      && r.endpoint.closing == e.closing
  {
    CancelKeepingBulletKeeps(e, id);
    var r := CancelKeepingBullet(e);
    hide CancelKeepingBullet, Shape, Keeps;
    KeepsShape(e, r.endpoint, r.outcome.Ok?, 0, id);
    OnlyElsewhere(r.endpoint, r.endpoint.(bullet := None), id);
    KeepsElsewhere(e, r.endpoint, r.endpoint.(bullet := None), r.outcome.Ok?, 0, id);
  }

  lemma KeepsElsewhere(e: Endpoint, m: Endpoint, n: Endpoint, ok: bool, minted: nat, id: nat)
    requires Keeps(e, m, ok, minted, id) && Keeps(m, n, true, 0, id)
    ensures Keeps(e, n, ok, minted, id)
  {
  }

  lemma CancelKeepingBulletKeeps(e: Endpoint, id: nat)
    requires Shape(e)
    ensures var r := CancelKeepingBullet(e);
      && Keeps(e, r.endpoint, r.outcome.Ok?, 0, id)
      && (r.outcome.Ok? <==> e.cleanup.None? || e.active.None? || e.active.value.Parsing?)
      && (r.outcome.Ok? ==> r.endpoint.active.None?)
      && r.endpoint.green == G.RequestCancel(e.green) && r.endpoint.lanes == L.CancelAll(e.lanes)
      && r.endpoint.closing == e.closing
  {
    hide CancelActive, G.RequestCancel, L.CancelAll;
    var m := e.(lanes := L.CancelAll(e.lanes), green := G.RequestCancel(e.green));
    if e.cleanup.None? && e.active.Some? {
      CancelActiveKeeps(m, id);
    }
  }

  lemma DetachKeeps(e: Endpoint, s: Streaming, id: nat)
    requires Shape(e) && e.active == Some(Publishing(s)) && CanDetach(s)
    ensures s.stream.value.base.Some?
    ensures var base := Base(s.stream.value.base.value, s.recovery.value.ack, Some(s.recovery.value.restart));
      var r := RestoreExactBase(e.(active := None), base);
      r.outcome.Ok? && Keeps(e, r.endpoint.(cleanup := Close(SnapshotStream, s.stream.value.handle)), true, 0, id)
  {
  }

  lemma CancelForEditKeeps(e: Endpoint, detachOk: bool, id: nat)
    requires Shape(e)
    ensures var r := CancelForEdit(e, detachOk);
      && Keeps(e, r.endpoint, r.outcome.Ok?, 0, id)
      && r.endpoint.green == G.RequestCancel(e.green) && r.endpoint.lanes == L.CancelAll(e.lanes)
      && r.endpoint.closing == e.closing
  {
    hide CancelKeepingBullet, G.RequestCancel, L.CancelAll, Keeps, Shape;
    var m := e.(lanes := L.CancelAll(e.lanes), green := G.RequestCancel(e.green));
    OnlyElsewhere(e, m, id);
    OnlyElsewhere(e, m.(bullet := None), id);
    KeepsShape(e, m, true, 0, id);
    KeepsWeakens(e, m.(bullet := None), 0, id);
    if m.cleanup.None? && m.active.Some? && m.active.value.Publishing? && CanDetach(m.active.value.streaming) {
      var s := m.active.value.streaming;
      DetachKeeps(m, s, id);
      KeepsChains(e, m, CancelForEdit(e, true).endpoint, true, 0, 0, id);
    } else if m.cleanup.None? {
      var r := CancelKeepingBullet(m);
      CancelTwice(e.lanes, e.green);
      CancelKeepingBulletKeeps(m, id);
      KeepsShape(m, r.endpoint, r.outcome.Ok?, 0, id);
      OnlyElsewhere(r.endpoint, r.endpoint.(bullet := None), id);
      KeepsElsewhere(m, r.endpoint, r.endpoint.(bullet := None), r.outcome.Ok?, 0, id);
      KeepsChains(e, m, r.endpoint, r.outcome.Ok?, 0, 0, id);
      KeepsChains(e, m, r.endpoint.(bullet := None), r.outcome.Ok?, 0, 0, id);
    }
  }

  lemma KeepsWeakens(e: Endpoint, e': Endpoint, minted: nat, id: nat)
    requires Keeps(e, e', true, minted, id)
    ensures Keeps(e, e', false, minted, id)
  {
  }

  lemma CancelTwice(lanes: L.Lanes, green: G.Slot)
    ensures L.CancelAll(L.CancelAll(lanes)) == L.CancelAll(lanes)
    ensures G.RequestCancel(G.RequestCancel(green)) == G.RequestCancel(green)
  {
  }

  // ---------------------------------------------------------------------- cleanup

  /** Engine contract for the part of the cleanup that a poll works on. */
  predicate LegalClose(c: Cleanup, fuel: nat, reply: CleanupReply) {
    match c
    case CloseOne(_, handle, begun) => LegalPart(handle, begun, fuel, reply.release)
    case CloseTwo(_, target, begun, complete, other, otherBegun) =>
      if complete then LegalPart(other, otherBegun, fuel, reply.release) else LegalPart(target, begun, fuel, reply.release)
    case ExactStreamAndRestore(stream, begun, base, _) =>
      LegalPart(stream.handle, begun, if base.Some? || fuel == 0 then fuel else fuel - 1, reply.release)
  }

  /** Like `Keeps`, but the shape's closing clause waits for the next scheduling. */
  ghost predicate KeepsWhileClosing(e: Endpoint, e': Endpoint, id: nat) {
    && Shape(e'.(closing := false)) && (e'.cleanup.Some? ==> Shape(e'))
    && OwedBase(e') == OwedBase(e) && FateHere(e', id) == FateHere(e, id)
    && e'.green == e.green && e'.lanes == e.lanes && e'.closing == e.closing && e'.active == e.active
  }

  /** A cleanup poll completes the cleanup, or leaves one behind; it fails only with the engine. */
  ghost predicate CleanupKeeps(e: Endpoint, p: Polled, id: nat) {
    && KeepsWhileClosing(e, p.endpoint, id)
    && (p.complete == Ok(true) <==> p.endpoint.cleanup.None?)
    && (p.complete.Err? ==> p.complete.error == EngineFailure)
  }

  lemma PartKeepsId(r: Resource, begun: bool, fuel: nat, reply: ReleaseReply)
    requires fuel > 0
    ensures PollPart(r, begun, fuel, reply).PartWaiting? ==> PollPart(r, begun, fuel, reply).handle.id == r.id
  {
  }

  function HoldsPending(c: Option<Cleanup>, id: nat): nat {
    if c.Some? then HoldsCleanup(c.value, id) else 0
  }

  /** Replacing a plain close by what is left of it. */
  lemma ClosePlain(e: Endpoint, c: Option<Cleanup>, released: multiset<nat>, id: nat)
    requires Shape(e) && e.cleanup.Some? && !e.cleanup.value.ExactStreamAndRestore?
    requires c.Some? ==> !c.value.ExactStreamAndRestore?
    requires HoldsPending(c, id) + released[id] == HoldsPending(e.cleanup, id) + e.released[id]
    ensures KeepsWhileClosing(e, e.(cleanup := c, released := released), id)
  {
  }

  lemma CloseOneKeeps(e: Endpoint, fuel: nat, reply: ReleaseReply, id: nat)
    requires Shape(e) && e.cleanup.Some? && e.cleanup.value.CloseOne? && fuel > 0
    ensures CleanupKeeps(e, PollCloseOne(e, e.cleanup.value, fuel, reply), id)
  {
    hide PollPart, Shape, KeepsWhileClosing;
    var c := e.cleanup.value;
    PartKeepsId(c.handle, c.begun, fuel, reply);
    assert (e.released + multiset{c.handle.id})[id] == e.released[id] + Holds(c.handle, id);
    var e' := PollCloseOne(e, c, fuel, reply).endpoint;
    ClosePlain(e, e'.cleanup, e'.released, id);
    assert e' == e.(cleanup := e'.cleanup, released := e'.released);
  }

  lemma CloseTwoKeeps(e: Endpoint, fuel: nat, reply: ReleaseReply, id: nat)
    requires Shape(e) && e.cleanup.Some? && e.cleanup.value.CloseTwo? && fuel > 0
    ensures CleanupKeeps(e, PollCloseTwo(e, e.cleanup.value, fuel, reply), id)
  {
    hide PollPart, Shape, KeepsWhileClosing;
    var c := e.cleanup.value;
    PartKeepsId(c.target, c.targetBegun, fuel, reply);
    PartKeepsId(c.other, c.otherBegun, fuel, reply);
    assert (e.released + multiset{c.target.id})[id] == e.released[id] + Holds(c.target, id);
    assert (e.released + multiset{c.other.id})[id] == e.released[id] + Holds(c.other, id);
    var e' := PollCloseTwo(e, c, fuel, reply).endpoint;
    ClosePlain(e, e'.cleanup, e'.released, id);
    assert e' == e.(cleanup := e'.cleanup, released := e'.released);
  }

  lemma RestoreWaits(e: Endpoint, c: Cleanup, id: nat)
    requires Shape(e) && e.cleanup.Some? && e.cleanup.value.ExactStreamAndRestore?
    requires c.ExactStreamAndRestore? && CleanupShape(c) && CleanupBase(c) == CleanupBase(e.cleanup.value)
    requires HoldsCleanup(c, id) == HoldsCleanup(e.cleanup.value, id)
    ensures KeepsWhileClosing(e, e.(cleanup := Some(c)), id)
  {
  }

  /** The stream has closed: its base is retained again, exactly as it was taken. */
  lemma RestoreDone(e: Endpoint, base: Resource, id: nat)
    requires Shape(e) && e.cleanup.Some? && e.cleanup.value.ExactStreamAndRestore?
    requires Some(base) == (if e.cleanup.value.base.Some? then e.cleanup.value.base else e.cleanup.value.stream.base)
    ensures var c := e.cleanup.value;
      var closed := e.(cleanup := None, released := e.released + multiset{c.stream.handle.id});
      KeepsWhileClosing(e, Restored(closed, base, c.recovery.value), id)
  {
    var handle := e.cleanup.value.stream.handle;
    assert (e.released + multiset{handle.id})[id] == e.released[id] + Holds(handle, id);
  }

  lemma RestoreShape(e: Endpoint)
    requires Shape(e) && e.cleanup.Some? && e.cleanup.value.ExactStreamAndRestore?
    ensures e.retained.None? && CleanupShape(e.cleanup.value)
  {
  }

  lemma RestoreKeeps(e: Endpoint, fuel: nat, reply: CleanupReply, id: nat)
    requires Shape(e) && e.cleanup.Some? && e.cleanup.value.ExactStreamAndRestore? && fuel > 0
    ensures CleanupKeeps(e, PollExactRestore(e, e.cleanup.value, fuel, reply), id)
  {
    hide PollPart, Shape, KeepsWhileClosing;
    var c := e.cleanup.value;
    RestoreShape(e);
    PartKeepsId(c.stream.handle, c.streamBegun, fuel, reply.release);
    if fuel > 1 {
      PartKeepsId(c.stream.handle, c.streamBegun, fuel - 1, reply.release);
    }
    var p := PollExactRestore(e, c, fuel, reply);
    if p.endpoint.cleanup.Some? {
      RestoreWaits(e, p.endpoint.cleanup.value, id);
      assert p.endpoint == e.(cleanup := p.endpoint.cleanup);
    } else {
      RestoreDone(e, p.endpoint.retained.value.publication, id);
    }
  }

  lemma CandidateCleanupKeeps(e: Endpoint, fuel: nat, reply: CleanupReply, id: nat)
    requires Shape(e) && e.cleanup.Some? && fuel > 0
    ensures CleanupKeeps(e, PollCandidateCleanup(e, fuel, reply), id)
  {
    hide PollCloseOne, PollCloseTwo, PollExactRestore, Shape, CleanupKeeps;
    match e.cleanup.value
    case CloseOne(_, _, _) => CloseOneKeeps(e, fuel, reply.release, id);
    case CloseTwo(_, _, _, _, _, _) => CloseTwoKeeps(e, fuel, reply.release, id);
    case ExactStreamAndRestore(_, _, _, _) => RestoreKeeps(e, fuel, reply, id);
  }
}
