/**
 The two late-inline lanes of the endpoint: the hot-inline job with its credited
 sidecar, and the viewport inline batch. They preempt one another, are
 cancellable at any point, and drain their engine roots under a fuel grant.

 `Lanes` and the functions here specify them; LanesClass.dfy updates the same
 fields in place with the source's fuel loops.
 */
module Lanes {
  import opened Engine

  // ------------------------------------------------------------------ hot lane

  datatype Command = Command(generation: nat, baseAck: Ack)

  datatype DemandKind = NeedsResolver | Direct | Unsupported

  /** A resolved demand: what was asked, and which leaf it resolved to. */
  datatype Demand = Demand(command: Command, identity: nat, kind: DemandKind)

  /** `origin` is history: the base under which the job at work, or its result, was created. */
  datatype HotState =
    | Awaiting(demand: Demand)
    | Running(command: Command, identity: nat, job: Resource, origin: Ack)
    | Ready(command: Command, identity: nat, root: Option<Resource>, origin: Ack)
    | Cancelling(job: Resource, begun: bool, replacement: Option<Demand>)
    | Releasing(held: Resource, begun: bool, replacement: Option<Demand>)

  datatype Sidecar = Sidecar(command: Command, root: Option<Resource>, origin: Ack)

  // ------------------------------------------------------------- viewport lane

  datatype ViewCommand = ViewCommand(generation: nat, baseAck: Ack, maximumTransitions: nat)

  datatype RootRelease = RootRelease(root: Resource, begun: bool)

  /** Leaves are `Some(root)` when authoritative and `None` when unsupported. */
  datatype Batch = Batch(
    command: ViewCommand,
    pending: nat,
    resolver: bool,
    active: Option<Resource>,
    ready: seq<Option<Resource>>,
    total: nat)

  datatype ViewCleanup = ViewCleanup(
    job: Option<Resource>,
    abortBegun: bool,
    ready: seq<Option<Resource>>,
    prepared: seq<Option<Resource>>,
    child: Option<Option<Resource>>,
    releasing: Option<RootRelease>,
    replacement: Option<Demand>)

  datatype ViewState =
    | BatchRunning(batch: Batch)
    | BatchReady(batch: Batch)
    | Streaming(command: ViewCommand, prepared: seq<Option<Resource>>, child: Option<Option<Resource>>,
                releasing: Option<RootRelease>, begun: bool)
    | Draining(cleanup: ViewCleanup)

  /** `released` and `published` are histories: completed releases, sidecar generations. */
  datatype Lanes = Lanes(
    viewport: Option<ViewState>,
    unavailable: Option<nat>,
    lastViewport: nat,
    hot: Option<HotState>,
    sidecar: Option<Sidecar>,
    lastHot: nat,
    released: multiset<nat>,
    published: seq<nat>)

  const Idle: Lanes := Lanes(None, None, 0, None, None, 0, multiset{}, [])

  datatype LaneStep = LaneStep(lanes: Lanes, outcome: Outcome<nat>)

  // -------------------------------------------------------------- cancellation

  function BatchCleanup(b: Batch): ViewCleanup {
    ViewCleanup(b.active, false, b.ready, [], None, None, None)
  }

  function IntoCleanup(v: ViewState): ViewCleanup {
    match v
    case BatchRunning(batch) => BatchCleanup(batch)
    case BatchReady(batch) => BatchCleanup(batch.(active := None))
    case Streaming(_, prepared, child, releasing, _) =>
      ViewCleanup(None, false, [], prepared, child, releasing, None)
    case Draining(cleanup) => cleanup
  }

  function CancelViewport(l: Lanes): Lanes {
    if l.viewport.None? then l
    else l.(viewport := Some(Draining(IntoCleanup(l.viewport.value).(replacement := None))))
  }

  /** The source asserts that no hot state is overwritten here. */
  function ScheduleRootRelease(l: Lanes, root: Option<Resource>): Lanes {
    if root.Some? then l.(hot := Some(Releasing(root.value, false, None))) else l
  }

  function CancelSidecar(l: Lanes): Lanes {
    if l.sidecar.None? then l else ScheduleRootRelease(l.(sidecar := None), l.sidecar.value.root)
  }

  function CancelHotState(h: HotState): Option<HotState> {
    match h
    case Awaiting(_) => None
    case Running(_, _, job, _) => Some(Cancelling(job, false, None))
    case Ready(_, _, root, _) => if root.Some? then Some(Releasing(root.value, false, None)) else None
    case Cancelling(job, begun, _) => Some(Cancelling(job, begun, None))
    case Releasing(root, begun, _) => Some(Releasing(root, begun, None))
  }

  /** `cancel_hot_inline`: every lane lets go of its demand and starts draining. */
  function CancelAll(l: Lanes): Lanes {
    var l' := CancelSidecar(CancelViewport(l.(unavailable := None)));
    if l'.hot.None? then l' else l'.(hot := CancelHotState(l'.hot.value))
  }

  function CancelPresentation(l: Lanes): Lanes {
    CancelViewport(l.(unavailable := None))
  }

  // ------------------------------------------------------------------ requests

  /** `stage_resolved_hot_inline`; `start` is the job the engine mints, if it can. */
  function Stage(d: Demand, start: Option<Resource>): Outcome<HotState> {
    match d.kind
    case NeedsResolver => Ok(Awaiting(d))
    case Unsupported => Ok(Ready(d.command, d.identity, None, d.command.baseAck))
    case Direct => if start.Some? then Ok(Running(d.command, d.identity, start.value, d.command.baseAck)) else Err(EngineFailure)
  }

  function StageInto(l: Lanes, d: Demand, start: Option<Resource>): LaneStep {
    match Stage(d, start)
    case Ok(state) => LaneStep(l.(hot := Some(state)), Ok(0))
    case Err(e) => LaneStep(l.(hot := None), Err(e))
  }

  function InstallLatest(l: Lanes, d: Demand, start: Option<Resource>): LaneStep {
    if l.hot.None? then StageInto(l, d, start)
    else
      match l.hot.value
      case Awaiting(current) =>
        if current.identity == d.identity then LaneStep(l.(hot := Some(Awaiting(d))), Ok(0))
        else StageInto(l, d, start)
      case Running(_, identity, job, origin) =>
        if identity == d.identity then LaneStep(l.(hot := Some(Running(d.command, identity, job, origin))), Ok(0))
        else LaneStep(l.(hot := Some(Cancelling(job, false, Some(d)))), Ok(0))
      case Ready(_, identity, root, origin) =>
        if identity == d.identity then LaneStep(l.(hot := Some(Ready(d.command, identity, root, origin))), Ok(0))
        else if root.Some? then LaneStep(l.(hot := Some(Releasing(root.value, false, Some(d)))), Ok(0))
        else StageInto(l, d, start)
      case Cancelling(job, begun, _) => LaneStep(l.(hot := Some(Cancelling(job, begun, Some(d)))), Ok(0))
      case Releasing(root, begun, _) => LaneStep(l.(hot := Some(Releasing(root, begun, Some(d)))), Ok(0))
  }

  function InstallPreemptingViewport(l: Lanes, d: Demand, start: Option<Resource>): LaneStep {
    if l.viewport.None? then InstallLatest(l.(unavailable := None), d, start)
    else if l.hot.Some? then LaneStep(l, Err(InvalidState))
    else
      var cleanup := IntoCleanup(l.viewport.value).(replacement := Some(d));
      LaneStep(l.(unavailable := None, viewport := Some(Draining(cleanup))), Ok(0))
  }

  /**
   Lane part of `request_hot_inline`. `retained` is the base the endpoint holds;
   a streaming viewport whose Begin has gone out refuses preemption.
   */
  function RequestHot(l: Lanes, retained: Option<Ack>, d: Demand, start: Option<Resource>): LaneStep {
    if l.viewport.Some? && l.viewport.value.Streaming? && l.viewport.value.begun then LaneStep(l, Err(Busy))
    else if d.command.generation == 0 || d.command.generation <= l.lastHot then LaneStep(l, Err(InvalidAuthority))
    else if retained.None? then LaneStep(l, Err(InvalidState))
    else if retained.value != d.command.baseAck then LaneStep(l, Err(InvalidAuthority))
    else
      var installed := InstallPreemptingViewport(CancelSidecar(l), d, start);
      if installed.outcome.Err? then installed
      else installed.(lanes := installed.lanes.(lastHot := d.command.generation))
  }

  /** Lane part of `request_viewport_inline_batch`; `spent` is the admission query's own work. */
  function RequestViewport(l: Lanes, retained: Option<Ack>, c: ViewCommand, leaves: nat, spent: nat): LaneStep {
    if l.viewport.Some? || l.unavailable.Some? || l.hot.Some? || l.sidecar.Some? then LaneStep(l, Err(Busy))
    else if c.generation == 0 || c.generation <= l.lastViewport then LaneStep(l, Err(InvalidAuthority))
    else if retained.None? then LaneStep(l, Err(InvalidState))
    else if retained.value != c.baseAck then LaneStep(l, Err(InvalidAuthority))
    else if spent > c.maximumTransitions then LaneStep(l, Err(EngineFailure))
    else
      LaneStep(l.(viewport := Some(BatchRunning(Batch(c, leaves, false, None, [], spent))),
                  lastViewport := c.generation), Ok(0))
  }

  // --------------------------------------------------------------- hot polling

  /**
   Engine answer to one hot-lane iteration. `job` is the polled job afterwards;
   `root` is its completed output (`None` when unsupported) and `valid` says
   whether that output still matches the command; `start` is a newly minted job.
   */
  datatype HotReply =
    | HotFailed
    | HotReply(spent: nat, done: bool, valid: bool, job: Resource, root: Option<Resource>,
               release: ReleaseReply, start: Option<Resource>)

  predicate LegalHot(h: HotState, left: nat, reply: HotReply) {
    reply.HotReply? && left > 0 ==>
      match h
      case Awaiting(_) => reply.spent <= left
      case Running(_, _, job, _) =>
        && reply.spent <= left
        && reply.job.id == job.id
        && (reply.root.Some? ==> reply.root.value.id == job.id)
      case Ready(_, _, _, _) => true
      case Cancelling(job, begun, _) => LegalRelease(job, if begun then left else left - 1, reply.release)
      case Releasing(root, begun, _) => LegalRelease(root, if begun then left else left - 1, reply.release)
  }

  /** What one loop iteration did: it spent fuel, and either goes on or returns. */
  datatype Turn = Turn(lanes: Lanes, spent: nat, again: bool, failure: Option<Error>)

  function Stop(l: Lanes, spent: nat): Turn {
    Turn(l, spent, false, None)
  }

  function Fail(l: Lanes, e: Error): Turn {
    Turn(l, 0, false, Some(e))
  }

  /** After a job or root is gone, its replacement (if any) takes the lane. */
  function StageReplacement(l: Lanes, spent: nat, replacement: Option<Demand>, start: Option<Resource>): Turn {
    if replacement.None? then Turn(l.(hot := None), spent, true, None)
    else
      var staged := StageInto(l, replacement.value, start);
      if staged.outcome.Err? then Fail(staged.lanes, staged.outcome.error) else Turn(staged.lanes, spent, true, None)
  }

  function HotAwaiting(l: Lanes, d: Demand, left: nat, hasBase: bool, reply: HotReply): Turn {
    if !hasBase then Fail(l, InvalidAuthority)
    else if reply.HotFailed? then Fail(l, EngineFailure)
    else if reply.spent > left then Fail(l, InvalidState)
    else if !reply.done || reply.spent == left then Stop(l, reply.spent)
    else
      // The resolver is ready: start whatever the demand names.
      var state := if d.kind.Unsupported? then Some(Ready(d.command, d.identity, None, d.command.baseAck))
                   else if reply.start.Some? then Some(Running(d.command, d.identity, reply.start.value, d.command.baseAck))
                   else None;
      if state.None? then Fail(l.(hot := None), EngineFailure)
      else Turn(l.(hot := state), reply.spent + 1, true, None)
  }

  function HotRunning(l: Lanes, c: Command, identity: nat, job: Resource, origin: Ack, left: nat, reply: HotReply): Turn {
    if reply.HotFailed? then Fail(l, EngineFailure)
    else if !reply.done then
      if reply.spent > left then Fail(l, InvalidState)
      else Stop(l.(hot := Some(Running(c, identity, reply.job, origin))), reply.spent)
    else if reply.root.None? then
      var gone := l.released + multiset{job.id};
      if !reply.valid then Fail(l.(hot := None, released := gone), InvalidAuthority)
      else Stop(l.(hot := Some(Ready(c, identity, None, origin)), released := gone), reply.spent)
    else if !reply.valid then Fail(l.(hot := Some(Releasing(reply.root.value, false, None))), InvalidAuthority)
    else Stop(l.(hot := Some(Ready(c, identity, reply.root, origin))), reply.spent)
  }

  /** A job being cancelled, or a root being released, before `replacement` may start. */
  function DrainState(isJob: bool, r: Resource, begun: bool, replacement: Option<Demand>): HotState {
    if isJob then Cancelling(r, begun, replacement) else Releasing(r, begun, replacement)
  }

  function HotDrain(l: Lanes, isJob: bool, r: Resource, begun: bool, replacement: Option<Demand>,
                    left: nat, reply: HotReply): Turn
    requires left > 0
  {
    var started := l.(hot := Some(DrainState(isJob, r, true, replacement)));
    if reply.HotFailed? || (!begun && reply.release == Failed(true)) then Fail(l, EngineFailure)
    else if !begun && left == 1 then Stop(started, 1)
    else if reply.release.Failed? then Fail(started, EngineFailure)
    else
      var spent := (if begun then 0 else 1) + reply.release.spent;
      var work := WorkLeft(r, reply.release);
      if spent > left then Fail(started, InvalidState)
      else if work > 0 then
        Stop(l.(hot := Some(DrainState(isJob, r.(work := work), true, replacement))), spent)
      else StageReplacement(l.(released := l.released + multiset{r.id}), spent, replacement, reply.start)
  }

  /** One iteration of the `poll_hot_inline` loop with `left` fuel. */
  function HotTurn(l: Lanes, left: nat, hasBase: bool, reply: HotReply): Turn
    requires left > 0
  {
    if l.hot.None? then Stop(l, 0)
    else
      match l.hot.value
      case Awaiting(d) => HotAwaiting(l, d, left, hasBase, reply)
      case Running(c, identity, job, origin) => HotRunning(l, c, identity, job, origin, left, reply)
      case Ready(_, _, _, _) => Stop(l, 0)
      case Cancelling(job, begun, replacement) => HotDrain(l, true, job, begun, replacement, left, reply)
      case Releasing(root, begun, replacement) => HotDrain(l, false, root, begun, replacement, left, reply)
  }

  /** `poll_hot_inline`: iterate while fuel and engine answers last. */
  function PollHot(l: Lanes, fuel: nat, hasBase: bool, replies: seq<HotReply>): LaneStep
    decreases |replies|
  {
    if fuel == 0 || replies == [] then LaneStep(l, Ok(0))
    else
      var turn := HotTurn(l, fuel, hasBase, replies[0]);
      if turn.failure.Some? then LaneStep(turn.lanes, Err(turn.failure.value))
      else if !turn.again || turn.spent >= fuel then LaneStep(turn.lanes, Ok(turn.spent))
      else
        var rest := PollHot(turn.lanes, fuel - turn.spent, hasBase, replies[1..]);
        if rest.outcome.Err? then rest else LaneStep(rest.lanes, Ok(turn.spent + rest.outcome.value))
  }

  // ----------------------------------------------------------- viewport polling

  /** Engine answers to one viewport iteration, in the order the source asks. */
  datatype ViewReply = ViewReply(
    resolverOk: bool, resolverSpent: nat, resolverReady: bool,
    start: Option<Resource>,
    jobOk: bool, jobSpent: nat, jobDone: bool, job: Resource, root: Option<Resource>,
    valid: bool, overLimit: bool,
    abort: ReleaseReply, release: ReleaseReply)

  /** `install_viewport_unavailable_cleanup`; a second pending notice would lose the batch. */
  function Unavailable(l: Lanes, b: Batch, spent: nat): Turn {
    if l.unavailable.Some? then Fail(l.(viewport := None), InvalidState)
    else
      Stop(l.(unavailable := Some(b.command.generation), viewport := Some(Draining(BatchCleanup(b)))), spent)
  }

  function Min(a: nat, b: nat): nat {
    if a <= b then a else b
  }

  /** The batch's reference resolver: none yet, so spend command budget on it first. */
  function ViewResolve(l: Lanes, b: Batch, left: nat, hasBase: bool, reply: ViewReply): Turn {
    if b.total > b.command.maximumTransitions then Fail(l.(viewport := None), InvalidState)
    else if b.total == b.command.maximumTransitions then Unavailable(l, b, 1)
    else if !hasBase || !reply.resolverOk then
      Fail(l.(viewport := None), if hasBase then EngineFailure else InvalidState)
    else
      var b' := b.(total := b.total + reply.resolverSpent);
      if reply.resolverSpent > left || b'.total > b.command.maximumTransitions then
        Fail(l.(viewport := Some(Draining(BatchCleanup(b')))), InvalidState)
      else if !reply.resolverReady then Stop(l.(viewport := Some(BatchRunning(b'))), reply.resolverSpent)
      else if reply.resolverSpent == left then
        Stop(l.(viewport := Some(BatchRunning(b'.(resolver := true)))), reply.resolverSpent)
      else ViewStart(l, b'.(resolver := true), left, reply.resolverSpent, reply)
  }

  /** The next leaf becomes the active job. */
  function ViewStart(l: Lanes, b: Batch, left: nat, spent: nat, reply: ViewReply): Turn {
    if b.total == b.command.maximumTransitions then Unavailable(l, b, spent + 1)
    else if b.pending == 0 then Fail(l.(viewport := None), InvalidState)
    else if reply.start.None? then Unavailable(l, b.(pending := b.pending - 1), spent + 1)
    else ViewPollJob(l, b.(pending := b.pending - 1, active := reply.start), left, spent, reply)
  }

  function ViewPollJob(l: Lanes, b: Batch, left: nat, spent: nat, reply: ViewReply): Turn {
    if b.total > b.command.maximumTransitions then Fail(l.(viewport := None), InvalidState)
    else if b.total == b.command.maximumTransitions then Unavailable(l, b, spent + 1)
    else if !reply.jobOk then Unavailable(l, b, spent + 1)
    else
      var b' := b.(total := b.total + reply.jobSpent);
      var spent' := spent + reply.jobSpent;
      if spent' > left || b'.total > b.command.maximumTransitions then
        Fail(l.(viewport := Some(Draining(BatchCleanup(b')))), InvalidState)
      else if !reply.jobDone then Stop(l.(viewport := Some(BatchRunning(b'.(active := Some(reply.job))))), spent')
      else ViewFinishLeaf(l, b', spent', reply)
  }

  function ViewFinishLeaf(l: Lanes, b: Batch, spent: nat, reply: ViewReply): Turn {
    var gone := if reply.root.None? && b.active.Some? then l.released + multiset{b.active.value.id} else l.released;
    var l' := l.(released := gone);
    var b' := b.(active := None, ready := b.ready + [reply.root]);
    if !reply.valid then Fail(l'.(viewport := Some(Draining(BatchCleanup(b')))), InvalidAuthority)
    else if reply.overLimit then Unavailable(l', b', spent)
    else if b'.pending == 0 then Stop(l'.(viewport := Some(BatchReady(b'))), spent)
    else Turn(l'.(viewport := Some(BatchRunning(b'))), spent, true, None)
  }

  function ViewRunning(l: Lanes, b: Batch, left: nat, hasBase: bool, reply: ViewReply): Turn {
    if b.active.None? && b.pending == 0 then Stop(l.(viewport := Some(BatchReady(b))), 0)
    else if b.active.Some? then ViewPollJob(l, b, left, 0, reply)
    else if !b.resolver then ViewResolve(l, b, left, hasBase, reply)
    else ViewStart(l, b, left, 0, reply)
  }

  // Draining: abort the job, release the current root, drop the child, then pop
  // prepared children and ready leaves; each unsupported one costs a transition.

  /** `taken` unsupported leaves popped off the end, then possibly one root. */
  datatype Popped = Popped(rest: seq<Option<Resource>>, spent: nat, root: Option<Resource>)

  function PopLeaves(leaves: seq<Option<Resource>>, left: nat): Popped
    decreases |leaves|
  {
    if left == 0 || leaves == [] then Popped(leaves, 0, None)
    else
      var last := leaves[|leaves| - 1];
      var rest := leaves[..|leaves| - 1];
      if last.Some? then Popped(rest, 0, last)
      else
        var more := PopLeaves(rest, left - 1);
        more.(spent := more.spent + 1)
  }

  function DrainAt(l: Lanes, c: ViewCleanup): Lanes {
    l.(viewport := Some(Draining(c)))
  }

  function DrainJob(l: Lanes, c: ViewCleanup, left: nat, reply: ViewReply): Turn
    requires left > 0
  {
    if c.job.None? then DrainRelease(l, c, left, 0, reply)
    else
      var first := if c.abortBegun then 0 else 1;
      if !c.abortBegun && reply.abort == Failed(true) then Fail(DrainAt(l, c), EngineFailure)
      else if !c.abortBegun && left == 1 then Stop(DrainAt(l, c.(abortBegun := true)), 1)
      else if reply.abort.Failed? then Fail(DrainAt(l, c.(abortBegun := true)), EngineFailure)
      else
        var spent := first + reply.abort.spent;
        var work := WorkLeft(c.job.value, reply.abort);
        if work > 0 then
          Stop(DrainAt(l, c.(abortBegun := true, job := Some(c.job.value.(work := work)))), spent)
        else
          var l' := l.(released := l.released + multiset{c.job.value.id});
          DrainRelease(l', c.(job := None, abortBegun := false), left, spent, reply)
  }

  function DrainRelease(l: Lanes, c: ViewCleanup, left: nat, spent: nat, reply: ViewReply): Turn {
    if c.releasing.None? then DrainChild(l, c, left, spent, reply)
    else
      var r := c.releasing.value;
      var begun := c.(releasing := Some(r.(begun := true)));
      var first := if r.begun then 0 else 1;
      if !r.begun && reply.release == Failed(true) then Fail(DrainAt(l, c), EngineFailure)
      else if !r.begun && spent + 1 == left then Stop(DrainAt(l, begun), spent + 1)
      else if spent + first > left then Fail(DrainAt(l, begun), Overdrawn)
      else if reply.release.Failed? then Fail(DrainAt(l, begun), EngineFailure)
      else
        var spent' := spent + first + reply.release.spent;
        var work := WorkLeft(r.root, reply.release);
        if work > 0 then Stop(DrainAt(l, c.(releasing := Some(RootRelease(r.root.(work := work), true)))), spent')
        else
          var l' := l.(released := l.released + multiset{r.root.id});
          DrainChild(l', c.(releasing := None), left, spent', reply)
  }

  function DrainChild(l: Lanes, c: ViewCleanup, left: nat, spent: nat, reply: ViewReply): Turn {
    if c.child.None? then DrainPrepared(l, c, left, spent, reply)
    else if c.child.value.Some? then
      Turn(DrainAt(l, c.(child := None, releasing := Some(RootRelease(c.child.value.value, false)))), spent, true, None)
    else DrainPrepared(l, c.(child := None), left, spent + 1, reply)
  }

  function DrainPrepared(l: Lanes, c: ViewCleanup, left: nat, spent: nat, reply: ViewReply): Turn {
    if spent > left then Fail(DrainAt(l, c), Overdrawn)
    else
      var popped := PopLeaves(c.prepared, left - spent);
      var c' := c.(prepared := popped.rest);
      var spent' := spent + popped.spent;
      if popped.root.Some? then
        Turn(DrainAt(l, c'.(releasing := Some(RootRelease(popped.root.value, false)))), spent', true, None)
      else DrainReady(l, c', left, spent', reply)
  }

  function DrainReady(l: Lanes, c: ViewCleanup, left: nat, spent: nat, reply: ViewReply): Turn {
    if spent > left then Fail(DrainAt(l, c), Overdrawn)
    else
      var popped := PopLeaves(c.ready, left - spent);
      var c' := c.(ready := popped.rest);
      var spent' := spent + popped.spent;
      if popped.root.Some? then
        Turn(DrainAt(l, c'.(releasing := Some(RootRelease(popped.root.value, false)))), spent', true, None)
      else if popped.rest == [] && spent' < left then DrainFinish(l, c', spent', reply)
      else Turn(DrainAt(l, c'), spent', true, None)
  }

  function DrainFinish(l: Lanes, c: ViewCleanup, spent: nat, reply: ViewReply): Turn {
    if c.prepared != [] || c.child.Some? then Fail(DrainAt(l, c), InvalidState)
    else if c.replacement.None? then Stop(l.(viewport := None), spent)
    else if l.hot.Some? then Fail(l.(viewport := None), InvalidState)
    else
      var staged := StageInto(l.(viewport := None), c.replacement.value, reply.start);
      if staged.outcome.Err? then Fail(staged.lanes, staged.outcome.error) else Stop(staged.lanes, spent)
  }

  predicate LegalAbort(c: ViewCleanup, left: nat, reply: ViewReply) {
    && (c.job.Some? && left > 0 ==>
          LegalRelease(c.job.value, if c.abortBegun then left else left - 1, reply.abort))
    && (c.releasing.Some? && left > 0 ==>
          LegalRelease(c.releasing.value.root, if c.releasing.value.begun then left else left - 1, reply.release))
  }

  /** Engine contract: every poll keeps within the fuel the source passes it. */
  predicate LegalView(v: ViewState, left: nat, reply: ViewReply) {
    match v
    case BatchRunning(b) =>
      var budget := if b.total <= b.command.maximumTransitions then b.command.maximumTransitions - b.total else 0;
      var resolving := b.active.None? && !b.resolver;
      var before := if resolving then reply.resolverSpent else 0;
      && (resolving ==> reply.resolverSpent <= Min(left, budget))
      && (before <= Min(left, budget) ==> reply.jobSpent <= Min(left - before, budget - before))
      && (b.active.Some? ==> reply.job.id == b.active.value.id
                             && (reply.root.Some? ==> reply.root.value.id == b.active.value.id))
      && (b.active.None? && reply.start.Some? ==>
            reply.job.id == reply.start.value.id
            && (reply.root.Some? ==> reply.root.value.id == reply.start.value.id))
    case Draining(c) => LegalAbort(c, left, reply)
    case _ => true
  }

  /** One iteration of the `poll_viewport_inline_batch` loop. */
  function ViewTurn(l: Lanes, left: nat, hasBase: bool, reply: ViewReply): Turn
    requires left > 0
  {
    if l.viewport.None? then Stop(l, 0)
    else
      match l.viewport.value
      case BatchRunning(b) => ViewRunning(l, b, left, hasBase, reply)
      case Draining(c) => DrainJob(l, c, left, reply)
      case _ => Stop(l, 0)
  }

  function ViewLoop(l: Lanes, fuel: nat, hasBase: bool, replies: seq<ViewReply>): LaneStep
    decreases |replies|
  {
    if fuel == 0 || replies == [] then LaneStep(l, Ok(0))
    else
      var turn := ViewTurn(l, fuel, hasBase, replies[0]);
      if turn.failure.Some? then LaneStep(turn.lanes, Err(turn.failure.value))
      else if !turn.again || turn.spent >= fuel then LaneStep(turn.lanes, Ok(turn.spent))
      else
        var rest := ViewLoop(turn.lanes, fuel - turn.spent, hasBase, replies[1..]);
        if rest.outcome.Err? then rest else LaneStep(rest.lanes, Ok(turn.spent + rest.outcome.value))
  }

  /**
   `poll_viewport_inline_batch`, which refuses an empty grant. A batch that turns
   unavailable counts as one transition even if nothing was spent on it.
   */
  function PollViewport(l: Lanes, fuel: nat, hasBase: bool, replies: seq<ViewReply>): LaneStep {
    if fuel == 0 then LaneStep(l, Err(InvalidState))
    else
      var s := ViewLoop(l, fuel, hasBase, replies);
      if s.outcome == Ok(0) && l.unavailable.None? && s.lanes.unavailable.Some? then LaneStep(s.lanes, Ok(1)) else s
  }

  // ------------------------------------------------------- sidecar and streaming

  /** `take_hot_inline_ready` followed by `begin_hot_inline_sidecar`; `encoderOk` is the engine's answer. */
  function BeginSidecar(l: Lanes, retained: Option<Ack>, encoderOk: bool): LaneStep {
    if l.hot.None? || !l.hot.value.Ready? then LaneStep(l, Ok(0))
    else
      var ready := l.hot.value;
      var taken := l.(hot := None);
      if l.sidecar.Some? then LaneStep(taken, Err(Busy))
      else if retained.None? || retained.value != ready.command.baseAck then
        LaneStep(ScheduleRootRelease(taken, ready.root), Err(InvalidAuthority))
      else if !encoderOk then LaneStep(ScheduleRootRelease(taken, ready.root), Err(EngineFailure))
      else
        LaneStep(taken.(sidecar := Some(Sidecar(ready.command, ready.root, ready.origin)),
                        published := l.published + [ready.command.generation]), Ok(0))
  }

  /** `finish_hot_inline_delivery`: the delivered sidecar's root is scheduled for release. */
  function FinishSidecar(l: Lanes): LaneStep {
    if l.sidecar.None? then LaneStep(l, Err(InvalidState)) else LaneStep(CancelSidecar(l), Ok(0))
  }

  /** `prepare_viewport_presentation` on a ready batch; a failure drains it. */
  function PrepareStream(l: Lanes, retained: Option<Ack>, failure: Option<bool>): LaneStep {
    if l.viewport.None? || !l.viewport.value.BatchReady? then LaneStep(l, Ok(0))
    else
      var b := l.viewport.value.batch;
      var drained := l.(viewport := Some(Draining(BatchCleanup(b.(active := None)))));
      if retained.None? || retained.value != b.command.baseAck then LaneStep(drained, Err(InvalidAuthority))
      else if failure.None? then
        LaneStep(l.(viewport := Some(Streaming(b.command, Reverse(b.ready), None, None, false))), Ok(0))
      else if failure.value && l.unavailable.None? then
        LaneStep(drained.(unavailable := Some(b.command.generation)), Ok(1))
      else if failure.value then LaneStep(l.(viewport := None), Err(InvalidState))
      else LaneStep(drained, Err(EngineFailure))
  }

  /** Leaves are prepared by popping, so the prepared list is reversed. */
  function Reverse(leaves: seq<Option<Resource>>): seq<Option<Resource>>
    decreases |leaves|
  {
    if leaves == [] then [] else [leaves[|leaves| - 1]] + Reverse(leaves[..|leaves| - 1])
  }

  /**
   One resource-moving step of the viewport stream: release the current root, or
   activate the next child, or retire the child whose End frame was appended.
   */
  function StreamTurn(l: Lanes, left: nat, childEnds: bool, release: ReleaseReply): Turn {
    if l.viewport.None? || !l.viewport.value.Streaming? then Stop(l, 0)
    else
      var v := l.viewport.value;
      if v.releasing.Some? then
        var r := v.releasing.value;
        var first := if r.begun then 0 else 1;
        if left == 0 then Stop(l, 0)
        else if !r.begun && release == Failed(true) then Fail(l, EngineFailure)
        else if !r.begun && left == 1 then Stop(l.(viewport := Some(v.(releasing := Some(r.(begun := true))))), 1)
        else if release.Failed? then Fail(l.(viewport := Some(v.(releasing := Some(r.(begun := true))))), EngineFailure)
        else
          var work := WorkLeft(r.root, release);
          var spent := first + release.spent;
          if work > 0 then
            Stop(l.(viewport := Some(v.(releasing := Some(RootRelease(r.root.(work := work), true))))), spent)
          else
            Turn(l.(viewport := Some(v.(releasing := None)), released := l.released + multiset{r.root.id}), spent, true, None)
      else if v.child.Some? then
        if !childEnds then Stop(l, 0)
        else if v.child.value.Some? then
          Turn(l.(viewport := Some(v.(child := None, releasing := Some(RootRelease(v.child.value.value, false))))), 0, true, None)
        else Turn(l.(viewport := Some(v.(child := None))), 0, true, None)
      else if v.prepared == [] then Stop(l, 0)
      else
        var last := |v.prepared| - 1;
        Turn(l.(viewport := Some(v.(prepared := v.prepared[..last], child := Some(v.prepared[last])))), 0, true, None)
  }

  predicate LegalStream(l: Lanes, left: nat, release: ReleaseReply) {
    l.viewport.Some? && l.viewport.value.Streaming? && l.viewport.value.releasing.Some? && left > 0 ==>
      var r := l.viewport.value.releasing.value;
      LegalRelease(r.root, if r.begun then left else left - 1, release)
  }

  /** The Begin event leaves: from here the stream refuses hot preemption. */
  function StreamBegins(l: Lanes): Lanes {
    if l.viewport.Some? && l.viewport.value.Streaming? then l.(viewport := Some(l.viewport.value.(begun := true))) else l
  }

  /** `finish_viewport_presentation_delivery`: only a fully drained stream may finish. */
  function FinishStream(l: Lanes): LaneStep {
    if l.viewport.None? || !l.viewport.value.Streaming? then LaneStep(l, Err(InvalidState))
    else
      var v := l.viewport.value;
      if v.child.Some? || v.prepared != [] || v.releasing.Some? then LaneStep(l, Err(InvalidState))
      else LaneStep(l.(viewport := None), Ok(0))
  }

  function TakeUnavailable(l: Lanes): Lanes {
    if l.viewport.None? then l.(unavailable := None) else l
  }

  /** `viewport_inline_batch_has_poll_work`. */
  predicate ViewHasWork(l: Lanes) {
    l.viewport.Some? && (l.viewport.value.BatchRunning? || l.viewport.value.Draining?)
  }

  predicate HotHasWork(l: Lanes) {
    l.hot.Some? && !l.hot.value.Ready?
  }
}
