/**
 The candidate transaction of the endpoint: an edit takes the retained base and
 runs it through parsing, building and streaming; it ends in a delivery, which
 swaps the base, or in a cancel, which gives the base back.

 Engine answers are parameters. A target object keeps one identity while it is a
 writer, a publication, a snapshot stream and a sealed publication.
 */
module Candidate {
  import opened Engine
  import opened StreamProtocol
  import G = RecursiveGreen
  import L = Lanes

  datatype RestartKind = Leading | Ordinary | ByRecursiveGreen | ExactBaseOnly

  /** Parser authority to restart from the base; move-only, named by its token. */
  datatype Restart = Restart(kind: RestartKind, token: nat)

  datatype Base = Base(publication: Resource, ack: Ack, restart: Option<Restart>)

  datatype Recovery = Recovery(ack: Ack, restart: Restart)

  /** What the transaction publishes: generation, target source and profile. */
  datatype Context = Context(generation: nat, publication: nat, source: Source, ackSource: Source, profile: nat)

  function ExpectedAck(c: Context): Ack {
    Ack(c.publication, c.generation, c.ackSource, c.profile)
  }

  /** A snapshot stream; an exact-base stream owns its base until End or cancel. */
  datatype Stream = Stream(handle: Resource, base: Option<Resource>)

  datatype Mode = FullSnapshot | ExactBaseDelta

  datatype Streaming = Streaming(
    stream: Option<Stream>,
    sealed: Option<Resource>,
    mode: Mode,
    context: Context,
    phase: StreamPhase,
    expectedAck: Option<Ack>,
    next: Option<Restart>,
    superseded: Option<Resource>,
    recovery: Option<Recovery>,
    reuses: bool,
    unsent: Option<UnsentEnd>)

  /** An End packet that was filled while sealing failed; the next poll still sends it. */
  datatype UnsentEnd = UnsentEnd(first: nat, count: nat)

  datatype Path = LegacyBlocks | GreenSplice | GreenWholeRole

  datatype Transport = Reuse | Replace

  datatype Active =
    | Parsing(context: Context, initial: bool)
    | Building(context: Context, writer: Resource, next: Option<Restart>)
    | ParsingExact(context: Context, job: Restart, base: Base)
    | ParsingOrdinaryExact(context: Context, job: Restart, base: Base)
    | AwaitingGreen(context: Context, base: Base)
    | ParsingBulletLocal(context: Context, plan: nat, base: Base)
    | ParsingExactFallback(context: Context, base: Base)
    | BuildingExactFallback(context: Context, writer: Resource, base: Base, next: Option<Restart>)
    | BuildingExact(context: Context, writer: Resource, base: Base, nextRestart: Restart, path: Path, transport: Transport)
    | Publishing(streaming: Streaming)

  datatype SingleKind = Writer | Publication | SnapshotStream | RetainedPublication

  datatype PairKind = ExactPublications | RetainedPair | StreamAndRetained

  datatype Cleanup =
    | CloseOne(kind: SingleKind, handle: Resource, begun: bool)
    | CloseTwo(pair: PairKind, target: Resource, targetBegun: bool, targetComplete: bool, other: Resource, otherBegun: bool)
    | ExactStreamAndRestore(stream: Stream, streamBegun: bool, base: Option<Resource>, recovery: Option<Recovery>)

  /** `released` is the history of completed releases of candidate resources. */
  datatype Endpoint = Endpoint(
    active: Option<Active>,
    cleanup: Option<Cleanup>,
    retained: Option<Base>,
    green: G.Slot,
    bullet: Option<nat>,
    lanes: L.Lanes,
    closing: bool,
    released: multiset<nat>)

  const New: Endpoint := Endpoint(None, None, None, G.Empty, None, L.Idle, false, multiset{})

  datatype Result<+T> = Result(endpoint: Endpoint, outcome: Outcome<T>)

  function RetainedAck(e: Endpoint): Option<Ack> {
    if e.retained.Some? then Some(e.retained.value.ack) else None
  }

  function Close(kind: SingleKind, handle: Resource): Option<Cleanup> {
    Some(CloseOne(kind, handle, false))
  }

  function ClosePair(pair: PairKind, target: Resource, other: Resource): Option<Cleanup> {
    Some(CloseTwo(pair, target, false, false, other, false))
  }

  /** `restore_exact_base`: only a base with restart authority returns to `retained`. */
  function RestoreExactBase(e: Endpoint, base: Base): Result<()> {
    if base.restart.None? || e.retained.Some? then
      Result(e.(cleanup := Close(RetainedPublication, base.publication)), Err(InvalidState))
    else Result(e.(retained := Some(base)), Ok(()))
  }

  // ------------------------------------------------------------------- starting

  /** `start`: a full parse; `admitted` is the source's validation of the completion. */
  function Start(e: Endpoint, context: Context, admitted: bool): Result<()> {
    if e.closing || e.active.Some? then Result(e, Err(Busy))
    else if !admitted then Result(e, Err(InvalidAuthority))
    else
      var initial := e.retained.None? && e.green.installed.None? && e.green.pending.None?;
      var green := G.StartClean(e.green, G.Target(context.source, context.profile));
      Result(e.(bullet := None, lanes := L.CancelAll(e.lanes),
                active := Some(Parsing(context, initial)), green := green.slot),
             if green.outcome.Ok? then Ok(()) else Err(green.outcome.error))
  }

  /** How the parser crop for a restart turned out. */
  datatype CropReply = CropStarted | CropFallback | CropRefused | CropConsumedRestart

  /**
   Engine answers while starting incrementally: admission, whether a rolling
   list plan still matches and its job starts, the crop, whether an exact clean
   fallback can begin, and the recursive-Green start.
   */
  datatype IncrementalReply = IncrementalReply(
    admitted: bool, descriptorOk: bool, bulletMatches: bool, bulletJob: bool,
    crop: CropReply, fallbackOk: bool, green: G.StartReply)

  function StartGreen(e: Endpoint, baseAck: Ack, context: Context, reply: G.StartReply): Result<()> {
    var green := G.StartIncremental(e.green, baseAck, G.Target(context.source, context.profile), reply);
    Result(e.(green := green.slot), if green.outcome.Ok? then Ok(()) else Err(green.outcome.error))
  }

  /** `activate_exact_clean_fallback`: note that a failure overwrites any pending cleanup. */
  function ActivateFallback(e: Endpoint, context: Context, base: Base, reply: IncrementalReply): Result<()> {
    if !reply.fallbackOk then
      Result(e.(cleanup := Close(RetainedPublication, base.publication)), Err(EngineFailure))
    else
      StartGreen(e.(active := Some(ParsingExactFallback(context, base))), base.ack, context, reply.green)
  }

  function StartIncremental(e: Endpoint, context: Context, reply: IncrementalReply): Result<()> {
    if e.closing || e.active.Some? then Result(e, Err(Busy))
    else if !reply.admitted then Result(e, Err(InvalidAuthority))
    else
      var e := e.(lanes := L.CancelAll(e.lanes));
      if e.retained.None? || e.retained.value.restart.None? then Result(e, Err(InvalidState))
      else if !reply.descriptorOk then Result(e, Err(EngineFailure))
      else if e.retained.value.ack.hostRevision >= context.generation then Result(e, Err(InvalidAuthority))
      else if e.bullet.Some? && reply.bulletMatches then
        var base := e.retained.value;
        var taken := e.(retained := None, bullet := None);
        if !reply.bulletJob then ActivateFallback(taken, context, base, reply)
        else
          StartGreen(taken.(active := Some(ParsingBulletLocal(context, e.bullet.value, base))), base.ack, context, reply.green)
      else StartFromRestart(e.(bullet := None), context, reply)
  }

  function StartFromRestart(e: Endpoint, context: Context, reply: IncrementalReply): Result<()>
    requires e.retained.Some? && e.retained.value.restart.Some?
  {
    var base := e.retained.value;
    var restart := base.restart.value;
    var taken := e.(retained := None);
    var held := base.(restart := None);
    match restart.kind
    case ExactBaseOnly => ActivateFallback(taken, context, base, reply)
    case ByRecursiveGreen =>
      if !G.OwnsBaseAuthority(e.green, base.ack) then Result(e, Err(InvalidAuthority))
      else if !reply.crop.CropStarted? then Result(e, Err(EngineFailure))
      else StartGreen(taken.(active := Some(AwaitingGreen(context, base))), base.ack, context, reply.green)
    case Leading =>
      if reply.crop.CropStarted? then
        StartGreen(taken.(active := Some(ParsingExact(context, restart, held))), base.ack, context, reply.green)
      else if reply.crop.CropConsumedRestart? then Result(e.(retained := Some(held)), Err(EngineFailure))
      else Result(e, Err(EngineFailure))
    case Ordinary =>
      if reply.crop.CropFallback? then ActivateFallback(taken, context, base, reply)
      else if reply.crop.CropStarted? then
        StartGreen(taken.(active := Some(ParsingOrdinaryExact(context, restart, held))), base.ack, context, reply.green)
      else if reply.crop.CropConsumedRestart? then Result(e.(retained := Some(held)), Err(EngineFailure))
      else Result(e, Err(EngineFailure))
  }

  // ---------------------------------------------------------- advancing a candidate

  datatype PublishFailure = Published | DescriptorFailed | StreamFailed | OfferFailed

  /**
   Engine answer to one iteration of the candidate loop. `handle` is the polled
   or freshly minted writer; `next` is the target's own restart authority.
   */
  datatype ActiveReply =
    | Failed
    | More(spent: nat, handle: Resource)
    | Declined(fallbackOk: bool)
    | Done(spent: nat, ok: bool, handle: Resource, next: Option<Restart>, matches: bool, splice: bool,
           publish: PublishFailure, segments: nat, reuses: bool)
    | Packet(spent: nat, first: nat, count: nat, handle: Resource)
    | EndPacket(spent: nat, first: nat, count: nat, seal: SealReply, handle: Resource)

  /** How sealing the target at its End frame turns out. */
  datatype SealReply = Sealed | RecordsDiffer | DetachFailed | SealFailed

  datatype PollResult = Pending(spent: nat) | Event(spent: nat) | PollError(error: Error)

  /** One loop iteration: go on with the fuel left, or return to the caller. */
  datatype Advance = Again(endpoint: Endpoint, spent: nat) | Return(endpoint: Endpoint, result: PollResult)

  function Abort(e: Endpoint, cleanup: Option<Cleanup>, error: Error): Advance {
    Return(e.(active := None, cleanup := cleanup), PollError(error))
  }

  function CloseBase(e: Endpoint, base: Base, error: Error): Advance {
    Abort(e, Close(RetainedPublication, base.publication), error)
  }

  function Go(e: Endpoint, active: Active, spent: nat): Advance {
    Again(e.(active := Some(active)), spent)
  }

  /** Semantic decline: the crop gives its restart back and a clean parse takes over. */
  function Decline(e: Endpoint, context: Context, base: Base, fallbackOk: bool, left: nat): Advance {
    if !fallbackOk then CloseBase(e, base, EngineFailure)
    else Return(e.(active := Some(ParsingExactFallback(context, base))), Pending(left))
  }

  function AdvanceParsing(e: Endpoint, context: Context, initial: bool, reply: ActiveReply): Advance {
    match reply
    case More(spent, _) => Return(e, Pending(spent))
    case Done(spent, ok, handle, next, _, _, _, _, _) =>
      if !ok then Abort(e, None, EngineFailure)
      else if initial && !G.InitialCleanReady(e.green, context.source, context.profile) then Abort(e, None, InvalidAuthority)
      else
        var restart := if initial then Some(Restart(ByRecursiveGreen, context.generation)) else next;
        Go(e, Building(context, handle, restart), spent)
    case _ => Return(e, PollError(EngineFailure))
  }

  function FreshStream(context: Context, stream: Stream, mode: Mode, next: Option<Restart>,
                       superseded: Option<Resource>, recovery: Option<Recovery>, reuses: bool): Active {
    Publishing(Streaming(Some(stream), None, mode, context, NeedBegin, None, next, superseded, recovery, reuses, None))
  }

  function AdvanceBuilding(e: Endpoint, context: Context, next: Option<Restart>, reply: ActiveReply): Advance {
    match reply
    case More(spent, handle) => Return(e.(active := Some(Building(context, handle, next))), Pending(spent))
    case Done(spent, _, handle, _, _, _, publish, _, reuses) =>
      (match publish
       case Published => Go(e, FreshStream(context, Stream(handle, None), FullSnapshot, next, None, None, reuses), spent)
       case OfferFailed => Abort(e, Close(SnapshotStream, handle), EngineFailure)
       case _ => Abort(e, Close(Publication, handle), EngineFailure))
    case _ => Return(e, PollError(EngineFailure))
  }

  /** Both crop parsers: the job holds the base's restart until it ends. */
  function AdvanceCrop(e: Endpoint, context: Context, job: Restart, base: Base, left: nat, reply: ActiveReply): Advance {
    var whole := base.(restart := Some(job));
    match reply
    case Declined(fallbackOk) => Decline(e, context, whole, fallbackOk, left)
    case More(spent, _) => Return(e, Pending(spent))
    case Done(spent, ok, handle, next, _, _, _, _, _) =>
      if !ok || next.None? then CloseBase(e, whole, EngineFailure)
      else Go(e, BuildingExact(context, handle, whole, next.value, LegacyBlocks, Reuse), spent)
    case _ => Return(e, PollError(EngineFailure))
  }

  /** `Done` with `matches` means the local terminal could become a candidate input. */
  function AdvanceBullet(e: Endpoint, context: Context, plan: nat, base: Base, left: nat, reply: ActiveReply): Advance {
    match reply
    case More(spent, _) => Return(e, Pending(spent))
    case Done(spent, ok, handle, next, matches, _, _, _, _) =>
      if !matches then Decline(e.(bullet := None), context, base, ok, left)
      else if !ok || next.None? then CloseBase(e.(bullet := None), base, EngineFailure)
      else Go(e.(bullet := Some(plan)), BuildingExact(context, handle, base, next.value, LegacyBlocks, Reuse), spent)
    case Declined(fallbackOk) => Decline(e.(bullet := None), context, base, fallbackOk, left)
    case _ => Decline(e.(bullet := None), context, base, false, left)
  }

  function AdvanceFallbackParse(e: Endpoint, context: Context, base: Base, reply: ActiveReply): Advance {
    match reply
    case More(spent, _) => Return(e, Pending(spent))
    case Done(spent, ok, handle, next, matches, splice, _, _, _) =>
      if !ok then CloseBase(e, base, EngineFailure)
      else
        var green := G.IncrementalCleanReady(e.green, context.source, context.profile);
        if (green && matches) || (!green && splice) then
          if next.None? then CloseBase(e, base, InvalidState)
          else
            var path := if green then GreenWholeRole else LegacyBlocks;
            Go(e, BuildingExact(context, handle, base, next.value, path, Reuse), spent)
        else Go(e, BuildingExactFallback(context, handle, base, next), spent)
    case _ => Return(e, PollError(EngineFailure))
  }

  function AdvanceFallbackBuild(e: Endpoint, context: Context, base: Base, next: Option<Restart>, reply: ActiveReply): Advance {
    match reply
    case More(spent, handle) => Return(e.(active := Some(BuildingExactFallback(context, handle, base, next))), Pending(spent))
    case Done(spent, _, handle, _, _, _, publish, _, reuses) =>
      if publish.DescriptorFailed? || publish.StreamFailed? then
        Abort(e, ClosePair(ExactPublications, handle, base.publication), EngineFailure)
      else if base.restart.None? then Abort(e, ClosePair(StreamAndRetained, handle, base.publication), InvalidState)
      else if publish.OfferFailed? then
        var restored := RestoreExactBase(e.(active := None), base);
        if restored.outcome.Err? then Return(restored.endpoint, PollError(restored.outcome.error))
        else Return(restored.endpoint.(cleanup := Close(SnapshotStream, handle)), PollError(EngineFailure))
      else
        Go(e, FreshStream(context, Stream(handle, None), FullSnapshot, next, Some(base.publication),
                          Some(Recovery(base.ack, base.restart.value)), reuses), spent)
    case _ => Return(e, PollError(EngineFailure))
  }

  const MAX_SPLICE_SEGMENTS: nat := 256

  /** `recursive_green_publication_path`; the engine fixes the numeric bound. */
  function PublicationPath(segments: nat): Path {
    if 0 < segments <= MAX_SPLICE_SEGMENTS then GreenSplice else GreenWholeRole
  }

  function AdvanceExactBuild(e: Endpoint, context: Context, base: Base, nextRestart: Restart, path: Path,
                             transport: Transport, reply: ActiveReply): Advance
  {
    if path.LegacyBlocks? && G.OwnsBaseAuthority(e.green, base.ack) then Return(e, PollError(InvalidState))
    else
      match reply
      case More(spent, handle) =>
        Return(e.(active := Some(BuildingExact(context, handle, base, nextRestart, path, transport))), Pending(spent))
      case Done(spent, _, handle, _, _, _, publish, segments, reuses) =>
        var both := ClosePair(ExactPublications, handle, base.publication);
        if publish.DescriptorFailed? then Abort(e, both, EngineFailure)
        else if base.restart.None? then Abort(e, both, InvalidState)
        else if path.GreenSplice? && !G.ReadyUpdateFor(e.green, base.ack, context.source) then Abort(e, both, InvalidAuthority)
        else
          var delivered := if path.GreenSplice? then PublicationPath(segments) else path;
          if transport.Replace? && !delivered.GreenSplice? then Abort(e, both, InvalidState)
          else if publish.StreamFailed? then
            var restored := RestoreExactBase(e.(active := None), base);
            if restored.outcome.Err? then Return(restored.endpoint, PollError(restored.outcome.error))
            else Return(restored.endpoint.(cleanup := Close(Publication, handle)), PollError(EngineFailure))
          else
            var stream := Stream(handle, Some(base.publication));
            var recovery := Some(Recovery(base.ack, base.restart.value));
            if publish.OfferFailed? then
              Abort(e, Some(ExactStreamAndRestore(stream, false, None, recovery)), EngineFailure)
            else Go(e, FreshStream(context, stream, ExactBaseDelta, Some(nextRestart), None, recovery, reuses), spent)
      case _ => Return(e, PollError(EngineFailure))
  }

  // ------------------------------------------------------------------- streaming

  function At(e: Endpoint, s: Streaming): Endpoint {
    e.(active := Some(Publishing(s)))
  }

  /** A failed seal leaves the filled End packet behind. */
  function SealFails(e: Endpoint, s: Streaming, first: nat, count: nat, error: Error): Advance {
    Return(At(e, s.(unsent := Some(UnsentEnd(first, count)))), PollError(error))
  }

  /**
   `finish_frame_stream`: the End frame seals the target. An exact stream first
   gives up its base; if sealing then fails, the base stays split off.
   */
  function SealStream(e: Endpoint, s: Streaming, first: nat, count: nat, spent: nat, seal: SealReply): Advance
    requires s.stream.Some?
  {
    var stream := s.stream.value;
    if seal.RecordsDiffer? then SealFails(e, s, first, count, InvalidAuthority)
    else if s.sealed.Some? then SealFails(e, s, first, count, InvalidState)
    else if s.mode.ExactBaseDelta? && s.superseded.Some? then SealFails(e, s, first, count, InvalidState)
    else if s.mode.ExactBaseDelta? && (stream.base.None? || seal.DetachFailed?) then SealFails(e, s, first, count, EngineFailure)
    else
      var split := if s.mode.ExactBaseDelta?
                   then s.(superseded := stream.base, stream := Some(stream.(base := None))) else s;
      if !seal.Sealed? then SealFails(e, split, first, count, EngineFailure)
      else
        Return(At(e, split.(stream := None, sealed := Some(stream.handle), expectedAck := Some(ExpectedAck(s.context)),
                            phase := AwaitPacketReceipt(first, count, true))), Event(spent))
  }

  function AdvanceStream(e: Endpoint, s: Streaming, reply: ActiveReply): Advance {
    match s.phase
    case NeedBegin => Return(At(e, s.(phase := AwaitBeginReceipt)), Event(0))
    case NeedCommit =>
      if s.expectedAck.None? then Return(e, PollError(InvalidState))
      else Return(At(e, s.(phase := AwaitCommitReceipt)), Event(0))
    case NeedPacket =>
      if s.unsent.Some? then
        var end := s.unsent.value;
        Return(At(e, s.(phase := AwaitPacketReceipt(end.first, end.count, true), unsent := None)), Event(0))
      else if s.stream.None? then Return(e, PollError(InvalidState))
      else
        (match reply
         case More(spent, handle) => Return(At(e, s.(stream := Some(s.stream.value.(handle := handle)))), Pending(spent))
         case Packet(spent, first, count, handle) =>
           Return(At(e, s.(stream := Some(s.stream.value.(handle := handle)),
                           phase := AwaitPacketReceipt(first, count, false))), Event(spent))
         case EndPacket(spent, first, count, seal, handle) =>
           var polled := s.(stream := Some(s.stream.value.(handle := handle)));
           SealStream(At(e, polled), polled, first, count, spent, seal)
         case _ => Return(e, PollError(EngineFailure)))
    case _ => Return(e, Pending(0))
  }

  /** One iteration of the candidate loop in `poll`, with `left` fuel. */
  function AdvanceActive(e: Endpoint, left: nat, reply: ActiveReply): Advance
    requires e.active.Some?
  {
    match e.active.value
    case Parsing(c, initial) => AdvanceParsing(e, c, initial, reply)
    case Building(c, _, next) => AdvanceBuilding(e, c, next, reply)
    case ParsingExact(c, job, base) => AdvanceCrop(e, c, job, base, left, reply)
    case ParsingOrdinaryExact(c, job, base) => AdvanceCrop(e, c, job, base, left, reply)
    case AwaitingGreen(_, _) => Return(e, PollError(InvalidState))
    case ParsingBulletLocal(c, plan, base) => AdvanceBullet(e, c, plan, base, left, reply)
    case ParsingExactFallback(c, base) => AdvanceFallbackParse(e, c, base, reply)
    case BuildingExactFallback(c, _, base, next) => AdvanceFallbackBuild(e, c, base, next, reply)
    case BuildingExact(c, _, base, next, path, transport) => AdvanceExactBuild(e, c, base, next, path, transport, reply)
    case Publishing(s) => AdvanceStream(e, s, reply)
  }

  /** The candidate loop of `poll`: `spent` so far out of `fuel`. */
  function AdvanceLoop(e: Endpoint, fuel: nat, spent: nat, replies: seq<ActiveReply>): (Endpoint, PollResult)
    decreases |replies|
  {
    if spent >= fuel || replies == [] then (e, Pending(spent))
    else if e.active.None? then (e, PollError(InvalidState))
    else
      match AdvanceActive(e, fuel - spent, replies[0])
      case Again(e', more) => AdvanceLoop(e', fuel, spent + more, replies[1..])
      case Return(e', Pending(more)) => (e', Pending(spent + more))
      case Return(e', Event(more)) => (e', Event(spent + more))
      case Return(e', PollError(error)) => (e', PollError(error))
  }

  // ------------------------------------------------- recursive-Green preemption

  /** Engine answers while preempting: certification, the clean job or the writer, reference match. */
  datatype PreemptReply = PreemptReply(certified: bool, cleanJob: bool, transport: Outcome<Transport>, writer: Option<Resource>)

  /** A parked exact candidate: base (with its restart back), context, and may it turn clean. */
  datatype Parked = Parked(context: Context, base: Base, toClean: bool)

  function ParkedExact(a: Active): Option<Parked> {
    match a
    case ParsingExact(c, job, base) => Some(Parked(c, base.(restart := Some(job)), true))
    case ParsingOrdinaryExact(c, job, base) => Some(Parked(c, base.(restart := Some(job)), true))
    case AwaitingGreen(c, base) => Some(Parked(c, base, true))
    case ParsingExactFallback(c, base) => Some(Parked(c, base, false))
    case _ => None
  }

  function AbortPreempt(e: Endpoint, base: Base, error: Error): Result<bool> {
    Result(e.(active := None, green := G.RequestCancel(e.green), cleanup := Close(RetainedPublication, base.publication)), Err(error))
  }

  function Preempt(e: Endpoint, reply: PreemptReply): Result<bool> {
    if e.active.None? || ParkedExact(e.active.value).None? then Result(e, Ok(false))
    else
      var Parked(context, base, toClean) := ParkedExact(e.active.value).value;
      var update := G.ReadyUpdateFor(e.green, base.ack, context.source);
      var clean := G.CleanReadyForBase(e.green, base.ack, context.source, context.profile) && toClean;
      if !update && !clean then Result(e, Ok(false))
      else if !reply.certified || base.restart.None? then AbortPreempt(e, base, InvalidAuthority)
      else if clean then
        if !reply.cleanJob then AbortPreempt(e, base, EngineFailure)
        else Result(e.(active := Some(ParsingExactFallback(context, base))), Ok(true))
      else if reply.transport.Err? || reply.writer.None? then AbortPreempt(e, base, EngineFailure)
      else
        var next := Restart(ByRecursiveGreen, context.generation);
        Result(e.(active := Some(BuildingExact(context, reply.writer.value, base, next, GreenSplice, reply.transport.value))), Ok(true))
  }

  // ------------------------------------------------------------------- delivery

  /** `take_recursive_green_delivery_event`: `true` when the delivery event goes out. */
  function TakeDelivery(e: Endpoint): Result<bool> {
    if e.active.None? || !e.active.value.Publishing? then Result(e, Ok(false))
    else
      var s := e.active.value.streaming;
      if s.phase != AwaitRecursiveGreenDelivery then Result(e, Ok(false))
      else if s.expectedAck.None? then Result(e, Err(InvalidState))
      else if !G.ReadyFor(e.green, s.expectedAck.value) then Result(e, Ok(false))
      else Result(At(e, s.(phase := AwaitDeliveryReceipt)), Ok(true))
  }

  /** `finish_delivery`; `adoptOk` answers the reference-resolver hand-over. */
  function FinishDelivery(e: Endpoint, adoptOk: bool): Result<()> {
    if e.active.None? || !e.active.value.Publishing? then Result(e, Err(InvalidState))
    else
      var s := e.active.value.streaming;
      if e.closing || s.phase != AwaitDeliveryReceipt || e.cleanup.Some? || s.stream.Some? || s.expectedAck.None? then
        Result(e, Err(InvalidState))
      else
        var ack := s.expectedAck.value;
        if (e.retained.Some? && ack.hostRevision <= e.retained.value.ack.hostRevision) || !G.ReadyFor(e.green, ack) then
          Result(e, Err(InvalidAuthority))
        else if (e.retained.Some? && s.superseded.Some?) || s.sealed.None? then Result(e, Err(InvalidState))
        else if s.reuses && (!s.mode.ExactBaseDelta? || s.superseded.None?) then Result(e, Err(InvalidState))
        else if s.reuses && !adoptOk then Result(e, Err(EngineFailure))
        else
          var green := G.CommitDelivery(e.green, ack);
          if green.outcome.Err? then Result(e, Err(green.outcome.error))
          else
            var previous := if e.retained.Some? then Some(e.retained.value.publication) else s.superseded;
            Result(e.(active := None, bullet := None, green := green.slot,
                      retained := Some(Base(s.sealed.value, ack, s.next)),
                      cleanup := if previous.Some? then Close(RetainedPublication, previous.value) else None), Ok(()))
  }

  function AcceptCredit(e: Endpoint, credit: Credit, event: nat, adoptOk: bool): Result<()> {
    if e.active.None? || !e.active.value.Publishing? then Result(e, Err(InvalidState))
    else
      var s := e.active.value.streaming;
      if s.phase.AwaitDeliveryReceipt? && credit.DeliveryCredit? then FinishDelivery(e, adoptOk)
      else
        match StreamProtocol.AcceptCredit(s.phase, credit, event)
        case Ok(phase) => Result(At(e, s.(phase := phase)), Ok(()))
        case Err(error) => Result(e, Err(error))
  }

  /** `handle_host_poll`; `sameOffer` compares offer ids, `resumeOk` answers a producer resume. */
  function HostPoll(e: Endpoint, ticket: nat, sameOffer: bool, phase: HostPhase, result: HostResult, resumeOk: bool): Result<bool> {
    if e.active.None? || !e.active.value.Publishing? then Result(e, Err(InvalidState))
    else
      var s := e.active.value.streaming;
      if !ExactTicket(s.phase, ticket, sameOffer, phase) then Result(e, Err(InvalidState))
      else if result.Rejected? then
        var cancelled := Cancel(e);
        Result(cancelled.endpoint, if cancelled.outcome.Ok? then Ok(false) else Err(cancelled.outcome.error))
      else if s.phase.AwaitPacketHost? && result.PacketCredited? && result.next == s.phase.next then
        if !resumeOk then Result(e, Err(EngineFailure))
        else Result(At(e, s.(phase := if s.phase.end then NeedCommit else NeedPacket)), Ok(false))
      else if s.phase.AwaitCommitHost? && result.Committed? && s.expectedAck == Some(result.ack) then
        TakeDelivery(At(e, s.(phase := AwaitRecursiveGreenDelivery)))
      else Result(e, Err(InvalidState))
  }

  // ------------------------------------------------------------------ cancelling

  function Restored(e: Endpoint, publication: Resource, recovery: Recovery): Endpoint {
    e.(retained := Some(Base(publication, recovery.ack, Some(recovery.restart))))
  }

  function CancelStreaming(e: Endpoint, s: Streaming): Result<()> {
    var idle := e.(active := None);
    if s.stream.Some? && s.sealed.None? then
      var stream := s.stream.value;
      if s.superseded.Some? && s.recovery.Some? then
        Result(Restored(idle, s.superseded.value, s.recovery.value).(cleanup := Close(SnapshotStream, stream.handle)), Ok(()))
      else if s.recovery.Some? then
        Result(idle.(cleanup := Some(ExactStreamAndRestore(stream, false, None, s.recovery))), Ok(()))
      else if s.superseded.Some? then
        Result(idle.(cleanup := ClosePair(StreamAndRetained, stream.handle, s.superseded.value)), Ok(()))
      else Result(idle.(cleanup := Close(SnapshotStream, stream.handle)), Ok(()))
    else if s.stream.None? && s.sealed.Some? then
      var target := s.sealed.value;
      if s.superseded.Some? && s.recovery.Some? then
        Result(Restored(idle, s.superseded.value, s.recovery.value).(cleanup := Close(RetainedPublication, target)), Ok(()))
      else if s.superseded.Some? then
        Result(idle.(cleanup := ClosePair(RetainedPair, target, s.superseded.value)), Ok(()))
      else if s.recovery.None? then Result(idle.(cleanup := Close(RetainedPublication, target)), Ok(()))
      else Result(idle.(cleanup := Close(RetainedPublication, target)), Err(InvalidState))
    else Result(e, Err(InvalidState))
  }

  function RestoreThenClose(e: Endpoint, base: Base, writer: Resource): Result<()> {
    var restored := RestoreExactBase(e.(active := None), base);
    if restored.outcome.Err? then restored
    else restored.(endpoint := restored.endpoint.(cleanup := Close(Writer, writer)))
  }

  function CancelActive(e: Endpoint): Result<()>
    requires e.active.Some?
  {
    var idle := e.(active := None);
    match e.active.value
    case Parsing(_, _) => Result(idle, Ok(()))
    case Building(_, writer, _) => Result(idle.(cleanup := Close(Writer, writer)), Ok(()))
    case ParsingExact(_, job, base) => RestoreExactBase(idle, base.(restart := Some(job)))
    case ParsingOrdinaryExact(_, job, base) => RestoreExactBase(idle, base.(restart := Some(job)))
    case AwaitingGreen(_, base) => RestoreExactBase(idle, base)
    case ParsingBulletLocal(_, plan, base) => RestoreExactBase(idle.(bullet := Some(plan)), base)
    case ParsingExactFallback(_, base) => RestoreExactBase(idle, base)
    case BuildingExactFallback(_, writer, base, _) => RestoreThenClose(e, base, writer)
    case BuildingExact(_, writer, base, _, _, _) => RestoreThenClose(e, base, writer)
    case Publishing(s) => CancelStreaming(e, s)
  }

  /** `cancel_preserving_bullet_list_local_edit`. */
  function CancelKeepingBullet(e: Endpoint): Result<()> {
    var e := e.(lanes := L.CancelAll(e.lanes), green := G.RequestCancel(e.green));
    if e.cleanup.Some? then
      if e.active.None? || e.active.value.Parsing? then Result(e.(active := None), Ok(()))
      else Result(e, Err(InvalidState))
    else if e.active.None? then Result(e, Ok(()))
    else CancelActive(e)
  }

  function Cancel(e: Endpoint): Result<()> {
    var r := CancelKeepingBullet(e);
    r.(endpoint := r.endpoint.(bullet := None))
  }

  /** `cancel_for_edit`: like cancel, but an exact stream gives its base back at once. */
  function CancelForEdit(e: Endpoint, detachOk: bool): Result<()> {
    var e := e.(lanes := L.CancelAll(e.lanes), green := G.RequestCancel(e.green));
    if e.cleanup.Some? then
      if e.active.None? && e.retained.Some? then Result(e, Ok(()))
      else Result(e.(bullet := None), Err(InvalidState))
    else if e.active.Some? && e.active.value.Publishing? && CanDetach(e.active.value.streaming) then
      var s := e.active.value.streaming;
      var stream := s.stream.value;
      if !detachOk || stream.base.None? then Result(e.(bullet := None), Err(EngineFailure))
      else
        var base := Base(stream.base.value, s.recovery.value.ack, Some(s.recovery.value.restart));
        var restored := RestoreExactBase(e.(active := None), base);
        if restored.outcome.Err? then restored
        else restored.(endpoint := restored.endpoint.(cleanup := Close(SnapshotStream, stream.handle)))
    else
      var r := CancelKeepingBullet(e);
      if r.outcome.Err? || (r.endpoint.bullet.Some? && r.endpoint.retained.None?)
      then r.(endpoint := r.endpoint.(bullet := None)) else r
  }

  predicate CanDetach(s: Streaming) {
    s.stream.Some? && s.sealed.None? && s.superseded.None? && s.recovery.Some?
  }

  // ------------------------------------------------------------ the rolling list plan

  /**
   Engine answers while preparing a local list edit: are the ranges valid, does
   the edit remain inside the rolling plan, and which new plan could be made.
   */
  datatype PrepareReply = PrepareReply(valid: bool, remainsInside: bool, plan: Option<nat>)

  /** `prepare_bullet_list_local_edit`: anything but success invalidates the rolling plan. */
  function PrepareBullet(e: Endpoint, reply: PrepareReply): Result<bool> {
    var dropped := e.(bullet := None);
    if e.closing || e.active.Some? then Result(dropped, Err(Busy))
    else if !reply.valid then Result(dropped, Err(InvalidAuthority))
    else if e.bullet.Some? && reply.remainsInside then Result(e, Ok(true))
    else if e.retained.None? || reply.plan.None? then Result(dropped, Ok(false))
    else Result(e.(bullet := reply.plan), Ok(true))
  }

  // --------------------------------------------------------------------- cleanup

  /** One bounded poll of a resource being closed. */
  datatype Part = PartFailed(begun: bool) | PartWaiting(handle: Resource) | PartDone

  function PollPart(r: Resource, begun: bool, fuel: nat, reply: ReleaseReply): Part
    requires fuel > 0
  {
    if !begun && reply == ReleaseReply.Failed(true) then PartFailed(false)
    else if !begun && fuel == 1 then PartWaiting(r)
    else if reply.Failed? then PartFailed(true)
    else
      var left := WorkLeft(r, reply);
      if left > 0 then PartWaiting(r.(work := left)) else PartDone
  }

  predicate LegalPart(r: Resource, begun: bool, fuel: nat, reply: ReleaseReply) {
    fuel > 0 ==> LegalRelease(r, if begun then fuel else fuel - 1, reply)
  }

  /** Engine answers during one cleanup poll. */
  datatype CleanupReply = CleanupReply(
    green: ReleaseReply, release: ReleaseReply, detachOk: bool,
    views: seq<L.ViewReply>, hots: seq<L.HotReply>)

  datatype Polled = Polled(endpoint: Endpoint, complete: Outcome<bool>)

  function PollCloseOne(e: Endpoint, c: Cleanup, fuel: nat, reply: ReleaseReply): Polled
    requires c.CloseOne? && fuel > 0
  {
    match PollPart(c.handle, c.begun, fuel, reply)
    case PartFailed(begun) => Polled(e.(cleanup := Some(CloseOne(c.kind, c.handle, begun || c.begun))), Err(EngineFailure))
    case PartWaiting(handle) => Polled(e.(cleanup := Some(CloseOne(c.kind, handle, true))), Ok(false))
    case PartDone => Polled(e.(cleanup := None, released := e.released + multiset{c.handle.id}), Ok(true))
  }

  function PollCloseTwo(e: Endpoint, c: Cleanup, fuel: nat, reply: ReleaseReply): Polled
    requires c.CloseTwo? && fuel > 0
  {
    if !c.targetComplete then
      match PollPart(c.target, c.targetBegun, fuel, reply)
      case PartFailed(begun) => Polled(e.(cleanup := Some(c.(targetBegun := begun || c.targetBegun))), Err(EngineFailure))
      case PartWaiting(handle) => Polled(e.(cleanup := Some(c.(target := handle, targetBegun := true))), Ok(false))
      case PartDone =>
        Polled(e.(cleanup := Some(c.(targetComplete := true)), released := e.released + multiset{c.target.id}), Ok(false))
    else
      match PollPart(c.other, c.otherBegun, fuel, reply)
      case PartFailed(begun) => Polled(e.(cleanup := Some(c.(otherBegun := begun || c.otherBegun))), Err(EngineFailure))
      case PartWaiting(handle) => Polled(e.(cleanup := Some(c.(other := handle, otherBegun := true))), Ok(false))
      case PartDone => Polled(e.(cleanup := None, released := e.released + multiset{c.other.id}), Ok(true))
  }

  /** The stream first gives its base up, then closes; only then is the base retained again. */
  function PollExactRestore(e: Endpoint, c: Cleanup, fuel: nat, reply: CleanupReply): Polled
    requires c.ExactStreamAndRestore? && fuel > 0
  {
    if c.base.None? && (!reply.detachOk || c.stream.base.None?) then Polled(e, Err(EngineFailure))
    else
      var detached := if c.base.Some? then c else ExactStreamAndRestore(c.stream.(base := None), c.streamBegun, c.stream.base, c.recovery);
      var left := if c.base.Some? then fuel else fuel - 1;
      if left == 0 then Polled(e.(cleanup := Some(detached)), Ok(false))
      else
        var stream := detached.stream;
        match PollPart(stream.handle, c.streamBegun, left, reply.release)
        case PartFailed(begun) => Polled(e.(cleanup := Some(detached.(streamBegun := begun || c.streamBegun))), Err(EngineFailure))
        case PartWaiting(handle) =>
          Polled(e.(cleanup := Some(detached.(stream := stream.(handle := handle), streamBegun := true))), Ok(false))
        case PartDone =>
          var closed := e.(cleanup := None, released := e.released + multiset{stream.handle.id});
          if c.recovery.None? then Polled(closed, Err(InvalidState))
          else if e.retained.Some? then
            Polled(closed.(cleanup := Close(RetainedPublication, detached.base.value)), Err(InvalidState))
          else Polled(Restored(closed, detached.base.value, c.recovery.value), Ok(true))
  }

  function PollCandidateCleanup(e: Endpoint, fuel: nat, reply: CleanupReply): Polled
    requires e.cleanup.Some? && fuel > 0
  {
    match e.cleanup.value
    case CloseOne(_, _, _) => PollCloseOne(e, e.cleanup.value, fuel, reply.release)
    case CloseTwo(_, _, _, _, _, _) => PollCloseTwo(e, e.cleanup.value, fuel, reply.release)
    case ExactStreamAndRestore(_, _, _, _) => PollExactRestore(e, e.cleanup.value, fuel, reply)
  }

  predicate CleanupPending(e: Endpoint) {
    || e.cleanup.Some?
    || G.HasWork(e.green)
    || (e.lanes.hot.Some? && (e.lanes.hot.value.Cancelling? || e.lanes.hot.value.Releasing?))
    || (e.lanes.viewport.Some? && e.lanes.viewport.value.Draining?)
    || (e.closing && (|| e.active.Some? || e.retained.Some? || e.green.installed.Some?
                      || e.lanes.viewport.Some? || e.lanes.hot.Some? || e.lanes.sidecar.Some?))
  }

  /** `schedule_close_cleanup`: while closing, hand every owner to cleanup. */
  function ScheduleClose(e: Endpoint): Result<bool> {
    if !e.closing then Result(e, Ok(e.cleanup.Some? || G.HasWork(e.green)))
    else
      var e := e.(green := G.BeginClose(e.green));
      if e.cleanup.Some? then Result(e, Ok(true))
      else
        var e := e.(lanes := L.CancelAll(e.lanes));
        var cancelled := if e.active.Some? then Cancel(e) else Result(e, Ok(()));
        if cancelled.outcome.Err? then Result(cancelled.endpoint, Err(cancelled.outcome.error))
        else if cancelled.endpoint.cleanup.Some? then Result(cancelled.endpoint, Ok(true))
        else
          var e := cancelled.endpoint;
          var e := if e.retained.None? then e
                   else e.(retained := None, cleanup := Close(RetainedPublication, e.retained.value.publication));
          Result(e, Ok(e.cleanup.Some? || G.HasWork(e.green)))
  }

  function BeginClose(e: Endpoint): Result<()> {
    var r := ScheduleClose(e.(closing := true, lanes := e.lanes.(unavailable := None), bullet := None));
    Result(r.endpoint, if r.outcome.Ok? then Ok(()) else Err(r.outcome.error))
  }

  /** The lanes' turn in a cleanup poll: `Ok(1)` while one of them still has poll work. */
  function PollLanes(l: L.Lanes, fuel: nat, hasBase: bool, reply: CleanupReply): L.LaneStep {
    var view := if L.ViewHasWork(l) then L.PollViewport(l, fuel, hasBase, reply.views) else L.LaneStep(l, Ok(0));
    if view.outcome.Err? then view
    else if L.ViewHasWork(view.lanes) then L.LaneStep(view.lanes, Ok(1))
    else
      var hot := if L.HotHasWork(view.lanes) then L.PollHot(view.lanes, fuel, hasBase, reply.hots)
                 else L.LaneStep(view.lanes, Ok(0));
      if hot.outcome.Err? then hot else L.LaneStep(hot.lanes, Ok(if L.HotHasWork(hot.lanes) then 1 else 0))
  }

  /** Without candidate cleanup, a cleanup poll drains the lanes and then schedules more closing. */
  function PollLaneCleanup(e: Endpoint, fuel: nat, reply: CleanupReply): Result<bool>
    requires fuel > 0
  {
    var polled := PollLanes(e.lanes, fuel, e.retained.Some?, reply);
    var e := e.(lanes := polled.lanes);
    if polled.outcome.Err? then Result(e, Err(polled.outcome.error))
    else if polled.outcome.value > 0 then Result(e, Ok(false))
    else
      var scheduled := ScheduleClose(e);
      if scheduled.outcome.Err? then scheduled
      else if scheduled.outcome.value then Result(scheduled.endpoint, Ok(false))
      else Result(scheduled.endpoint, Ok(!CleanupPending(scheduled.endpoint)))
  }

  function PollCleanup(e: Endpoint, fuel: nat, reply: CleanupReply): Result<bool> {
    if fuel == 0 then Result(e, Err(InvalidState))
    else if e.green.cleanup != [] then
      var polled := G.PollCleanup(e.green, fuel, reply.green);
      var e := e.(green := if e.closing && polled.outcome.Ok? then G.BeginClose(polled.slot) else polled.slot);
      if polled.outcome.Err? then Result(e, Err(polled.outcome.error))
      else if e.green.cleanup != [] || e.cleanup.Some? then Result(e, Ok(false))
      else PollLaneCleanup(e, fuel, reply)
    else PollOwnCleanup(e, fuel, reply)
  }

  function PollOwnCleanup(e: Endpoint, fuel: nat, reply: CleanupReply): Result<bool>
    requires fuel > 0
  {
    if e.cleanup.None? then PollLaneCleanup(e, fuel, reply)
    else
      var polled := PollCandidateCleanup(e, fuel, reply);
      if polled.complete.Err? then Result(polled.endpoint, Err(polled.complete.error))
      else if !polled.complete.value then Result(polled.endpoint, Ok(false))
      else
        var scheduled := ScheduleClose(polled.endpoint);
        if scheduled.outcome.Err? then scheduled
        else Result(scheduled.endpoint, Ok(!scheduled.outcome.value))
  }
}
