/**
 The recursive-Green authority slot: one base session that moves between the
 installed place, pending target work and the cleanup queue.

 `Slot` and the functions on it specify the slot; the class
 `RecursiveGreenEndpointSlot` in RecursiveGreenClass.dfy updates it in place.
 */
module RecursiveGreen {
  import opened Engine

  datatype Session = Session(handle: Resource, source: Source, profile: nat)

  datatype Installed = Installed(ack: Ack, session: Session)

  datatype Origin = Initial | IncrementalFallback

  /** Source and profile that a clean plan, build or adoption works towards. */
  datatype Target = Target(source: Source, profile: nat)

  datatype Build = Build(handle: Resource, target: Target)

  /** An adoption owns its base session until it completes or is cancelled. */
  datatype AdoptionJob = AdoptionJob(handle: Resource, base: Session, target: Target)

  datatype Pending =
    | CleanPlan(plan: Option<Target>, base: Option<Installed>, origin: Origin)
    | CleanBuild(build: Build, base: Option<Installed>, origin: Origin)
    | Adoption(baseAck: Ack, adoption: AdoptionJob)
    | CancellingAdoption(baseAck: Ack, adoption: AdoptionJob, begun: bool)
    | ReadyClean(target: Session, base: Option<Installed>, origin: Origin)
    | ReadyUpdate(baseAck: Ack, target: Session, updateBase: Session)

  datatype Cleanup =
    | ReleaseSession(session: Session, begun: bool)
    | CancelBuild(build: Build, restore: Option<Installed>, begun: bool)
    | CancelAdoption(adoption: AdoptionJob, restoreAck: Ack, begun: bool)

  datatype Receipt = Receipt(localAdoptions: nat, cleanFallbacks: nat)

  /** `released` is the history of every resource whose release has completed. */
  datatype Slot = Slot(
    installed: Option<Installed>,
    pending: Option<Pending>,
    cleanup: seq<Cleanup>,
    receipt: Receipt,
    released: multiset<nat>)

  datatype Step = Step(slot: Slot, outcome: Outcome<nat>)

  const Empty: Slot := Slot(None, None, [], Receipt(0, 0), multiset{})

  const MAXIMUM_RECEIPT: nat := 0xFFFF_FFFF_FFFF_FFFF

  function SaturatingIncrement(n: nat): nat {
    if n >= MAXIMUM_RECEIPT then MAXIMUM_RECEIPT else n + 1
  }

  // ---------------------------------------------------------------- queries

  predicate Matches(session: Session, ack: Ack) {
    session.source == ack.source && session.profile == ack.profile
  }

  predicate TargetWorkPending(s: Slot) {
    s.pending.Some? && !s.pending.value.ReadyClean? && !s.pending.value.ReadyUpdate?
  }

  predicate HasWork(s: Slot) {
    s.pending.Some? || s.cleanup != []
  }

  predicate ReadyFor(s: Slot, ack: Ack) {
    && s.pending.Some?
    && (s.pending.value.ReadyClean? || s.pending.value.ReadyUpdate?)
    && Matches(s.pending.value.target, ack)
  }

  predicate ReadyUpdateFor(s: Slot, baseAck: Ack, target: Source) {
    && s.pending.Some? && s.pending.value.ReadyUpdate?
    && s.pending.value.baseAck == baseAck
    && s.pending.value.target.source == target
  }

  predicate CleanReadyForBase(s: Slot, baseAck: Ack, target: Source, profile: nat) {
    && s.pending.Some? && s.pending.value.ReadyClean?
    && s.pending.value.origin == IncrementalFallback
    && s.pending.value.base.Some? && s.pending.value.base.value.ack == baseAck
    && s.pending.value.target.source == target
    && s.pending.value.target.profile == profile
  }

  predicate IncrementalCleanReady(s: Slot, target: Source, profile: nat) {
    && s.pending.Some? && s.pending.value.ReadyClean?
    && s.pending.value.origin == IncrementalFallback
    && s.pending.value.target.source == target
    && s.pending.value.target.profile == profile
  }

  predicate InitialCleanReady(s: Slot, target: Source, profile: nat) {
    && s.pending.Some? && s.pending.value.ReadyClean?
    && s.pending.value.origin == Initial && s.pending.value.base.None?
    && s.pending.value.target.source == target
    && s.pending.value.target.profile == profile
  }

  /** The base a pending target would give back. */
  function PendingBase(p: Pending): Option<Installed> {
    match p
    case CleanPlan(_, base, _) => base
    case CleanBuild(_, base, _) => base
    case Adoption(ack, job) => Some(Installed(ack, job.base))
    case CancellingAdoption(ack, job, _) => Some(Installed(ack, job.base))
    case ReadyClean(_, base, _) => base
    case ReadyUpdate(ack, _, base) => Some(Installed(ack, base))
  }

  predicate OwnsBaseAuthority(s: Slot, ack: Ack) {
    || (s.installed.Some? && s.installed.value.ack == ack)
    || (s.pending.Some? && PendingBase(s.pending.value).Some?
        && PendingBase(s.pending.value).value.ack == ack)
  }

  // ------------------------------------------------------------- operations

  predicate CannotStart(s: Slot) {
    s.pending.Some? || (s.cleanup != [] && s.installed.None?)
  }

  function StartClean(s: Slot, target: Target): Step {
    if CannotStart(s) then Step(s, Err(Busy))
    else
      var origin := if s.installed.Some? then IncrementalFallback else Initial;
      Step(s.(installed := None, pending := Some(CleanPlan(Some(target), s.installed, origin))), Ok(0))
  }

  /**
   Engine answers while starting incrementally: can a clean plan be made, can
   the target source be leased, and does local adoption begin (with which job).
   */
  datatype StartReply = StartReply(planOk: bool, leaseOk: bool, adoption: Option<Resource>)

  predicate AdoptableBase(installed: Installed, baseAck: Ack, profile: nat) {
    && installed.ack == baseAck
    && installed.session.source.revision == baseAck.source.revision
    && installed.session.profile == profile
  }

  function StartIncremental(s: Slot, baseAck: Ack, target: Target, reply: StartReply): Step {
    var fallback := CleanPlan(Some(target), s.installed, IncrementalFallback);
    if CannotStart(s) then Step(s, Err(Busy))
    else if s.installed.None? || !AdoptableBase(s.installed.value, baseAck, target.profile) then
      if !reply.planOk then Step(s, Err(EngineFailure))
      else Step(s.(installed := None, pending := Some(fallback)), Ok(0))
    else if !reply.leaseOk then Step(s, Err(EngineFailure))
    else if reply.adoption.Some? then
      var job := AdoptionJob(reply.adoption.value, s.installed.value.session, target);
      Step(s.(installed := None, pending := Some(Adoption(baseAck, job))), Ok(0))
    else if !reply.planOk then Step(s, Err(EngineFailure))
    else Step(s.(installed := None, pending := Some(fallback)), Ok(0))
  }

  datatype PollStatus = More | Complete | FallbackRequired | Cancelled

  /**
   Engine answer to one target poll. `handle` is the job's handle afterwards
   (freshly minted when a plan begins to build); `release` and `planSource`, the
   source a clean plan could lease, are read only while an adoption is cancelled.
   */
  datatype TargetReply =
    | TargetFailed
    | TargetReply(spent: nat, status: PollStatus, handle: Resource, release: ReleaseReply, planSource: Option<Source>)

  /** Contract of the engine for a target poll of `s` with `fuel`. */
  predicate LegalTarget(s: Slot, fuel: nat, reply: TargetReply) {
    reply.TargetReply? && s.pending.Some? ==>
      match s.pending.value
      case CleanBuild(build, _, _) => reply.spent <= fuel && reply.handle.id == build.handle.id
      case Adoption(_, job) => reply.spent <= fuel && reply.handle.id == job.handle.id
      case CancellingAdoption(_, job, begun) =>
        LegalRelease(job.handle, if begun || fuel == 0 then fuel else fuel - 1, reply.release)
      case _ => true
  }

  function PollTarget(s: Slot, fuel: nat, reply: TargetReply): Step {
    if fuel == 0 || !TargetWorkPending(s) then Step(s, Ok(0))
    else
      match s.pending.value
      case CleanPlan(plan, base, origin) =>
        if plan.None? then Step(s, Err(InvalidState))
        else if reply.TargetFailed? then
          Step(s.(pending := Some(CleanPlan(None, base, origin))), Err(EngineFailure))
        else Step(s.(pending := Some(CleanBuild(Build(reply.handle, plan.value), base, origin))), Ok(1))
      case CleanBuild(build, base, origin) =>
        if reply.TargetFailed? then Step(s, Err(EngineFailure))
        else if reply.status.Complete? then
          var target := Session(reply.handle, build.target.source, build.target.profile);
          Step(s.(pending := Some(ReadyClean(target, base, origin))), Ok(reply.spent))
        else Step(s.(pending := Some(CleanBuild(build.(handle := reply.handle), base, origin))), Ok(reply.spent))
      case Adoption(ack, job) => PollAdoption(s, ack, job, reply)
      case CancellingAdoption(ack, job, begun) => PollFallbackCancel(s, ack, job, begun, fuel, reply)
      case _ => Step(s, Ok(0))
  }

  function PollAdoption(s: Slot, ack: Ack, job: AdoptionJob, reply: TargetReply): Step {
    if reply.TargetFailed? then Step(s, Err(EngineFailure))
    else
      var job' := job.(handle := reply.handle);
      match reply.status
      case More => Step(s.(pending := Some(Adoption(ack, job'))), Ok(reply.spent))
      case Complete =>
        var target := Session(reply.handle, job.target.source, job.target.profile);
        Step(s.(pending := Some(ReadyUpdate(ack, target, job.base))), Ok(reply.spent))
      case FallbackRequired =>
        Step(s.(pending := Some(CancellingAdoption(ack, job', false))), Ok(reply.spent))
      case Cancelled => Step(s.(pending := Some(Adoption(ack, job'))), Err(InvalidState))
  }

  function PollFallbackCancel(s: Slot, ack: Ack, job: AdoptionJob, begun: bool, fuel: nat, reply: TargetReply): Step {
    if reply.TargetFailed? || (!begun && reply.release == Failed(true)) then Step(s, Err(EngineFailure))
    else if !begun && fuel == 1 then Step(s.(pending := Some(CancellingAdoption(ack, job, true))), Ok(1))
    else
      var left := WorkLeft(job.handle, reply.release);
      var job' := job.(handle := job.handle.(work := left));
      var waiting := s.(pending := Some(CancellingAdoption(ack, job', true)));
      if reply.release.Failed? then Step(waiting, Err(EngineFailure))
      else if left > 0 then Step(waiting, Ok(fuel))
      else if reply.planSource.None? then Step(waiting, Err(EngineFailure))
      else
        var target := Target(reply.planSource.value, ack.profile);
        var plan := CleanPlan(Some(target), Some(Installed(ack, job.base)), IncrementalFallback);
        Step(s.(pending := Some(plan), released := s.released + multiset{job.handle.id}), Ok(fuel))
  }

  function CommitDelivery(s: Slot, ack: Ack): Step {
    if !ReadyFor(s, ack) || s.installed.Some? then Step(s, Err(InvalidAuthority))
    else
      var installed := Some(Installed(ack, s.pending.value.target));
      match s.pending.value
      case ReadyClean(target, base, origin) =>
        var queue := if base.Some? then s.cleanup + [ReleaseSession(base.value.session, false)] else s.cleanup;
        var receipt := if origin == IncrementalFallback
                       then s.receipt.(cleanFallbacks := SaturatingIncrement(s.receipt.cleanFallbacks))
                       else s.receipt;
        Step(s.(installed := installed, pending := None, cleanup := queue, receipt := receipt), Ok(0))
      case ReadyUpdate(baseAck, target, base) =>
        if baseAck.hostRevision >= ack.hostRevision then Step(s, Err(InvalidAuthority))
        else
          Step(s.(installed := installed, pending := None,
                  cleanup := s.cleanup + [ReleaseSession(base, false)],
                  receipt := s.receipt.(localAdoptions := SaturatingIncrement(s.receipt.localAdoptions))), Ok(0))
      case _ => Step(s, Err(InvalidState))
  }

  function RequestCancel(s: Slot): Slot {
    if s.pending.None? then s
    else
      var idle := s.(pending := None);
      match s.pending.value
      case CleanPlan(_, base, _) => idle.(installed := base)
      case CleanBuild(build, base, _) => idle.(cleanup := s.cleanup + [CancelBuild(build, base, false)])
      case Adoption(ack, job) => idle.(cleanup := s.cleanup + [CancelAdoption(job, ack, false)])
      case CancellingAdoption(ack, job, begun) => idle.(cleanup := s.cleanup + [CancelAdoption(job, ack, begun)])
      case ReadyClean(target, base, _) =>
        idle.(installed := base, cleanup := s.cleanup + [ReleaseSession(target, false)])
      case ReadyUpdate(ack, target, base) =>
        idle.(installed := Some(Installed(ack, base)), cleanup := s.cleanup + [ReleaseSession(target, false)])
  }

  function BeginClose(s: Slot): Slot {
    var idle := RequestCancel(s);
    if idle.installed.None? then idle
    else idle.(installed := None, cleanup := idle.cleanup + [ReleaseSession(idle.installed.value.session, false)])
  }

  function Handle(c: Cleanup): Resource {
    match c
    case ReleaseSession(session, _) => session.handle
    case CancelBuild(build, _, _) => build.handle
    case CancelAdoption(job, _, _) => job.handle
  }

  function WithWork(c: Cleanup, work: nat): Cleanup {
    match c
    case ReleaseSession(session, begun) => ReleaseSession(session.(handle := session.handle.(work := work)), begun)
    case CancelBuild(build, restore, begun) => CancelBuild(build.(handle := build.handle.(work := work)), restore, begun)
    case CancelAdoption(job, ack, begun) => CancelAdoption(job.(handle := job.handle.(work := work)), ack, begun)
  }

  /** The base a queued cleanup reinstalls when it completes. */
  function Restores(c: Cleanup): Option<Installed> {
    match c
    case ReleaseSession(_, _) => None
    case CancelBuild(_, restore, _) => restore
    case CancelAdoption(job, ack, _) => Some(Installed(ack, job.base))
  }

  predicate LegalCleanup(s: Slot, fuel: nat, reply: ReleaseReply) {
    s.cleanup != [] && fuel > 0 ==>
      LegalRelease(Handle(s.cleanup[0]), if s.cleanup[0].begun then fuel else fuel - 1, reply)
  }

  function PollCleanup(s: Slot, fuel: nat, reply: ReleaseReply): Step {
    if fuel == 0 || s.cleanup == [] then Step(s, Ok(0))
    else
      var head := s.cleanup[0];
      var begun := s.(cleanup := s.cleanup[0 := head.(begun := true)]);
      if !head.begun && reply == Failed(true) then Step(s, Err(EngineFailure))
      else if !head.begun && fuel == 1 then Step(begun, Ok(1))
      else if reply.Failed? then Step(begun, Err(EngineFailure))
      else
        var left := WorkLeft(Handle(head), reply);
        var polled := WithWork(head.(begun := true), left);
        if left > 0 then Step(s.(cleanup := s.cleanup[0 := polled]), Ok(fuel))
        else if s.installed.Some? && (head.CancelAdoption? || Restores(head).Some?) then
          Step(s.(cleanup := s.cleanup[0 := polled]), Err(InvalidState))
        else
          Step(s.(installed := if Restores(head).Some? then Restores(head) else s.installed,
                  cleanup := s.cleanup[1..],
                  released := s.released + multiset{Handle(head).id}), Ok(fuel))
  }
}
