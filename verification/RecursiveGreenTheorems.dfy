/**
 What every run of the recursive-Green slot keeps: a single authority, exact
 conservation of engine resources, the same base until a delivery commits, and
 a bounded drain once closing begins.
 */
module RecursiveGreenTheorems {
  import opened Engine
  import opened RecursiveGreen

  // ------------------------------------------------------- state observations

  predicate IsAuthority(c: Cleanup) {
    c.CancelBuild? || c.CancelAdoption?
  }

  function QueueAuthorities(q: seq<Cleanup>): nat {
    if q == [] then 0 else (if IsAuthority(q[0]) then 1 else 0) + QueueAuthorities(q[1..])
  }

  /** Installed session, pending work and queued builds or adoptions, together. */
  function Authorities(s: Slot): nat {
    (if s.installed.Some? then 1 else 0) + (if s.pending.Some? then 1 else 0) + QueueAuthorities(s.cleanup)
  }

  ghost predicate Single(s: Slot) {
    Authorities(s) <= 1
  }

  function HoldsInstalled(base: Option<Installed>, id: nat): nat {
    if base.Some? then Holds(base.value.session.handle, id) else 0
  }

  function HoldsPending(p: Pending, id: nat): nat {
    match p
    case CleanPlan(_, base, _) => HoldsInstalled(base, id)
    case CleanBuild(build, base, _) => Holds(build.handle, id) + HoldsInstalled(base, id)
    case Adoption(_, job) => Holds(job.handle, id) + Holds(job.base.handle, id)
    case CancellingAdoption(_, job, _) => Holds(job.handle, id) + Holds(job.base.handle, id)
    case ReadyClean(target, base, _) => Holds(target.handle, id) + HoldsInstalled(base, id)
    case ReadyUpdate(_, target, base) => Holds(target.handle, id) + Holds(base.handle, id)
  }

  function HoldsCleanup(c: Cleanup, id: nat): nat {
    Holds(Handle(c), id) + HoldsInstalled(Restores(c), id)
  }

  function HoldsQueue(q: seq<Cleanup>, id: nat): nat {
    if q == [] then 0 else HoldsCleanup(q[0], id) + HoldsQueue(q[1..], id)
  }

  /** How many places of the slot own the resource `id`. */
  function Owned(s: Slot, id: nat): nat {
    HoldsInstalled(s.installed, id)
    + (if s.pending.Some? then HoldsPending(s.pending.value, id) else 0)
    + HoldsQueue(s.cleanup, id)
  }

  function QueueBase(q: seq<Cleanup>): Option<Installed> {
    if q == [] then None
    else if Restores(q[0]).Some? then Restores(q[0])
    else QueueBase(q[1..])
  }

  /** The base authority the slot answers for, wherever it currently lives. */
  function Owed(s: Slot): Option<Installed> {
    if s.installed.Some? then s.installed
    else if s.pending.Some? then PendingBase(s.pending.value)
    else QueueBase(s.cleanup)
  }

  // ------------------------------------------------------------------- queue

  lemma {:induction false} QueueAppend(q: seq<Cleanup>, c: Cleanup, id: nat)
    ensures QueueAuthorities(q + [c]) == QueueAuthorities(q) + (if IsAuthority(c) then 1 else 0)
    ensures HoldsQueue(q + [c], id) == HoldsQueue(q, id) + HoldsCleanup(c, id)
    ensures QueueAuthorities(q) == 0 ==> QueueBase(q + [c]) == Restores(c)
    ensures QueueDebt(q + [c]) == QueueDebt(q) + CleanupDebt(c)
  {
    if q == [] {
      assert q + [c] == [c];
    } else {
      QueueAppend(q[1..], c, id);
      assert (q + [c])[1..] == q[1..] + [c];
    }
  }

  lemma {:induction false} IdleQueueHasNoBase(q: seq<Cleanup>)
    requires QueueAuthorities(q) == 0
    ensures QueueBase(q) == None
  {
    if q != [] {
      IdleQueueHasNoBase(q[1..]);
    }
  }

  // --------------------------------------------------------------- operations

  datatype Op =
    | OpStartClean(target: Target)
    | OpStartIncremental(baseAck: Ack, target: Target, start: StartReply)
    | OpPollTarget(fuel: nat, poll: TargetReply)
    | OpCommit(ack: Ack)
    | OpCancel
    | OpBeginClose
    | OpPollCleanup(fuel: nat, release: ReleaseReply)

  function Apply(s: Slot, op: Op): Step {
    match op
    case OpStartClean(target) => StartClean(s, target)
    case OpStartIncremental(ack, target, reply) => StartIncremental(s, ack, target, reply)
    case OpPollTarget(fuel, reply) => PollTarget(s, fuel, reply)
    case OpCommit(ack) => CommitDelivery(s, ack)
    case OpCancel => Step(RequestCancel(s), Ok(0))
    case OpBeginClose => Step(BeginClose(s), Ok(0))
    case OpPollCleanup(fuel, reply) => PollCleanup(s, fuel, reply)
  }

  predicate Legal(s: Slot, op: Op) {
    match op
    case OpPollTarget(fuel, reply) => LegalTarget(s, fuel, reply)
    case OpPollCleanup(fuel, reply) => LegalCleanup(s, fuel, reply)
    case _ => true
  }

  /** Resources the engine creates during `op`. */
  function Minted(s: Slot, op: Op, id: nat): nat {
    match op
    case OpStartIncremental(ack, target, reply) =>
      if Apply(s, op).slot.pending.Some? && !s.pending.Some? && Apply(s, op).slot.pending.value.Adoption?
      then HoldsOption(reply.adoption, id) else 0
    case OpPollTarget(fuel, reply) =>
      if fuel > 0 && s.pending.Some? && s.pending.value.CleanPlan? && s.pending.value.plan.Some? && reply.TargetReply?
      then Holds(reply.handle, id) else 0
    case _ => 0
  }

  function Run(s: Slot, ops: seq<Op>): Slot
    decreases |ops|
  {
    if ops == [] then s else Run(Apply(s, ops[0]).slot, ops[1..])
  }

  predicate LegalRun(s: Slot, ops: seq<Op>)
    decreases |ops|
  {
    ops == [] || (Legal(s, ops[0]) && LegalRun(Apply(s, ops[0]).slot, ops[1..]))
  }

  function MintedRun(s: Slot, ops: seq<Op>, id: nat): nat
    decreases |ops|
  {
    if ops == [] then 0 else Minted(s, ops[0], id) + MintedRun(Apply(s, ops[0]).slot, ops[1..], id)
  }

  predicate Reachable(s: Slot, ops: seq<Op>) {
    LegalRun(Empty, ops) && s == Run(Empty, ops)
  }

  // ------------------------------------------------- what one operation keeps

  /** One step keeps the authority single, the base owed, and every resource owned or released. */
  ghost predicate Keeps(s: Slot, s': Slot, minted: nat, id: nat) {
    && Single(s')
    && Owed(s') == Owed(s)
    && Owned(s', id) + s'.released[id] == Owned(s, id) + s.released[id] + minted
  }

  lemma StartKeeps(s: Slot, op: Op, id: nat)
    requires Single(s) && (op.OpStartClean? || op.OpStartIncremental?)
    ensures Keeps(s, Apply(s, op).slot, Minted(s, op, id), id)
  {
    if s.installed.None? && s.pending.None? && s.cleanup == [] {
      assert QueueBase(s.cleanup) == None;
    }
  }

  lemma PollAdoptionKeeps(s: Slot, fuel: nat, reply: TargetReply, id: nat)
    requires Single(s) && LegalTarget(s, fuel, reply)
    requires s.pending.Some? && (s.pending.value.Adoption? || s.pending.value.CancellingAdoption?)
    ensures Keeps(s, PollTarget(s, fuel, reply).slot, 0, id)
  {
    hide QueueAuthorities, QueueBase, HoldsQueue;
  }

  lemma PollTargetKeeps(s: Slot, fuel: nat, reply: TargetReply, id: nat)
    requires Single(s) && LegalTarget(s, fuel, reply)
    ensures Keeps(s, PollTarget(s, fuel, reply).slot, Minted(s, OpPollTarget(fuel, reply), id), id)
  {
    hide PollAdoption, PollFallbackCancel;
    if s.pending.Some? && (s.pending.value.Adoption? || s.pending.value.CancellingAdoption?) {
      PollAdoptionKeeps(s, fuel, reply, id);
    }
  }

  lemma CancelKeeps(s: Slot, id: nat)
    requires Single(s)
    ensures Keeps(s, RequestCancel(s), 0, id)
  {
    if s.pending.Some? {
      IdleQueueHasNoBase(s.cleanup);
      match s.pending.value
      case CleanPlan(_, _, _) =>
      case CleanBuild(build, base, _) => QueueAppend(s.cleanup, CancelBuild(build, base, false), id);
      case Adoption(ack, job) => QueueAppend(s.cleanup, CancelAdoption(job, ack, false), id);
      case CancellingAdoption(ack, job, begun) => QueueAppend(s.cleanup, CancelAdoption(job, ack, begun), id);
      case ReadyClean(target, _, _) => QueueAppend(s.cleanup, ReleaseSession(target, false), id);
      case ReadyUpdate(_, target, _) => QueueAppend(s.cleanup, ReleaseSession(target, false), id);
    }
  }

  lemma CleanupKeeps(s: Slot, fuel: nat, reply: ReleaseReply, id: nat)
    requires Single(s)
    ensures Keeps(s, PollCleanup(s, fuel, reply).slot, 0, id)
  {
    if fuel > 0 && s.cleanup != [] {
      var s' := PollCleanup(s, fuel, reply).slot;
      if s'.cleanup != s.cleanup[1..] {
        assert s'.cleanup[1..] == s.cleanup[1..];
      } else if IsAuthority(s.cleanup[0]) {
        IdleQueueHasNoBase(s.cleanup[1..]);
      }
    }
  }

  /** Closing keeps the authority single and every resource accounted for; it gives up the base. */
  lemma CloseConserves(s: Slot, id: nat)
    requires Single(s)
    ensures Single(BeginClose(s))
    ensures Owned(BeginClose(s), id) == Owned(s, id) && BeginClose(s).released == s.released
    ensures BeginClose(s).installed.None? && BeginClose(s).pending.None?
  {
    CancelKeeps(s, id);
    var idle := RequestCancel(s);
    if idle.installed.Some? {
      QueueAppend(idle.cleanup, ReleaseSession(idle.installed.value.session, false), id);
    }
  }

  lemma CommitConserves(s: Slot, ack: Ack, id: nat)
    requires Single(s)
    ensures Single(CommitDelivery(s, ack).slot)
    ensures Owned(CommitDelivery(s, ack).slot, id) == Owned(s, id)
    ensures CommitDelivery(s, ack).slot.released == s.released
    ensures CommitDelivery(s, ack).outcome.Err? ==> CommitDelivery(s, ack).slot == s
  {
    if CommitDelivery(s, ack).outcome.Ok? {
      match s.pending.value
      case ReadyClean(_, base, _) =>
        if base.Some? { QueueAppend(s.cleanup, ReleaseSession(base.value.session, false), id); }
      case ReadyUpdate(_, _, base) => QueueAppend(s.cleanup, ReleaseSession(base, false), id);
    }
  }

  lemma StepConserves(s: Slot, op: Op, id: nat)
    requires Single(s) && Legal(s, op)
    ensures Single(Apply(s, op).slot)
    ensures Owned(Apply(s, op).slot, id) + Apply(s, op).slot.released[id]
         == Owned(s, id) + s.released[id] + Minted(s, op, id)
    ensures KeepsBase(op) ==> Owed(Apply(s, op).slot) == Owed(s)
  {
    match op
    case OpStartClean(_) => StartKeeps(s, op, id);
    case OpStartIncremental(_, _, _) => StartKeeps(s, op, id);
    case OpPollTarget(fuel, reply) => PollTargetKeeps(s, fuel, reply, id);
    case OpCommit(ack) => CommitConserves(s, ack, id);
    case OpCancel => CancelKeeps(s, id);
    case OpBeginClose => CloseConserves(s, id);
    case OpPollCleanup(fuel, reply) => CleanupKeeps(s, fuel, reply, id);
  }

  // --------------------------------------------------------- whole-run results

  lemma {:induction false} RunConserves(s: Slot, ops: seq<Op>, id: nat)
    requires Single(s) && LegalRun(s, ops)
    ensures Single(Run(s, ops))
    ensures Owned(Run(s, ops), id) + Run(s, ops).released[id]
         == Owned(s, id) + s.released[id] + MintedRun(s, ops, id)
    decreases |ops|
  {
    if ops != [] {
      StepConserves(s, ops[0], id);
      RunConserves(Apply(s, ops[0]).slot, ops[1..], id);
    }
  }

  /**
   In every reachable state the authority has one owner, so cleanup never finds
   a session already installed: a cleanup poll fails only when the engine does.
   */
  lemma SingleAuthority(s: Slot, ops: seq<Op>, fuel: nat, reply: ReleaseReply)
    requires Reachable(s, ops) && LegalCleanup(s, fuel, reply)
    ensures Single(s)
    ensures PollCleanup(s, fuel, reply).outcome != Err(InvalidState)
    ensures PollCleanup(s, fuel, reply).outcome.Err? ==> reply.Failed?
  {
    RunConserves(Empty, ops, 0);
  }

  /**
   Over every run from an empty slot, failures included, each session the engine
   minted once is in exactly one place: owned by one owner, or released once.
   */
  lemma EachSessionHasOneFate(ops: seq<Op>, id: nat)
    requires LegalRun(Empty, ops)
    requires MintedRun(Empty, ops, id) <= 1
    ensures Owned(Run(Empty, ops), id) + Run(Empty, ops).released[id] == MintedRun(Empty, ops, id)
    ensures Owned(Run(Empty, ops), id) <= 1
    ensures Run(Empty, ops).released[id] <= 1
  {
    RunConserves(Empty, ops, id);
  }

  predicate KeepsBase(op: Op) {
    !op.OpCommit? && !op.OpBeginClose?
  }

  lemma {:induction false} RunKeepsOwed(s: Slot, ops: seq<Op>)
    requires Single(s) && LegalRun(s, ops)
    requires forall i :: 0 <= i < |ops| ==> KeepsBase(ops[i])
    ensures Owed(Run(s, ops)) == Owed(s)
    decreases |ops|
  {
    if ops != [] {
      assert KeepsBase(ops[0]);
      StepConserves(s, ops[0], 0);
      assert forall i :: 0 <= i < |ops[1..]| ==> KeepsBase(ops[1..][i]);
      RunKeepsOwed(Apply(s, ops[0]).slot, ops[1..]);
    }
  }

  /**
   Rollback: whatever is started, polled, cancelled and drained short of a
   commit, a slot that ends idle has exactly the base it began with installed,
   and everything minted on the way has been released.
   */
  lemma IdleAgainMeansRolledBack(s: Slot, ops: seq<Op>, id: nat)
    requires s.pending.None? && s.cleanup == []
    requires LegalRun(s, ops)
    requires forall i :: 0 <= i < |ops| ==> KeepsBase(ops[i])
    requires Run(s, ops).pending.None? && Run(s, ops).cleanup == []
    ensures Run(s, ops).installed == s.installed
    ensures Run(s, ops).released[id] == s.released[id] + MintedRun(s, ops, id)
  {
    RunKeepsOwed(s, ops);
    RunConserves(s, ops, id);
  }

  /**
   A successful commit installs the ready target under the delivered ack and
   queues the superseded base for release, once; an adopted update must carry a
   strictly newer host revision than its base.
   */
  lemma CommitReplacesAuthority(s: Slot, ack: Ack, id: nat)
    requires Single(s)
    requires CommitDelivery(s, ack).outcome.Ok?
    ensures var s' := CommitDelivery(s, ack).slot;
      && Owed(s') == Some(Installed(ack, s.pending.value.target))
      && Matches(s'.installed.value.session, ack)
      && s'.pending.None?
      && (Owed(s).None? ==> s'.cleanup == s.cleanup)
      && (Owed(s).Some? ==> s'.cleanup == s.cleanup + [ReleaseSession(Owed(s).value.session, false)])
      && (s.pending.value.ReadyUpdate? ==> s.pending.value.baseAck.hostRevision < ack.hostRevision)
      && Owned(s', id) == Owned(s, id)
  {
    CommitConserves(s, ack, id);
  }

  // ------------------------------------------------------------------- closing

  function BaseDebt(base: Option<Installed>): nat {
    if base.Some? then base.value.session.handle.work + 3 else 0
  }

  function CleanupDebt(c: Cleanup): nat {
    Handle(c).work + (if c.begun then 1 else 2) + BaseDebt(Restores(c))
  }

  function QueueDebt(q: seq<Cleanup>): nat {
    if q == [] then 0 else CleanupDebt(q[0]) + QueueDebt(q[1..])
  }

  function PendingDebt(p: Pending): nat {
    var own := match p
      case CleanPlan(_, _, _) => 0
      case CleanBuild(build, _, _) => build.handle.work
      case Adoption(_, job) => job.handle.work
      case CancellingAdoption(_, job, _) => job.handle.work
      case ReadyClean(target, _, _) => target.handle.work
      case ReadyUpdate(_, target, _) => target.handle.work;
    own + 3 + BaseDebt(PendingBase(p))
  }

  /** Bounds the cleanup polls a close still needs. */
  function Debt(s: Slot): nat {
    BaseDebt(s.installed) + (if s.pending.Some? then PendingDebt(s.pending.value) else 0) + QueueDebt(s.cleanup)
  }

  lemma CancelNeverAddsDebt(s: Slot)
    ensures Debt(RequestCancel(s)) <= Debt(s)
    ensures s.pending.Some? ==> Debt(RequestCancel(s)) < Debt(s)
  {
    if s.pending.Some? {
      match s.pending.value
      case CleanPlan(_, _, _) =>
      case CleanBuild(build, base, _) => QueueAppend(s.cleanup, CancelBuild(build, base, false), 0);
      case Adoption(ack, job) => QueueAppend(s.cleanup, CancelAdoption(job, ack, false), 0);
      case CancellingAdoption(ack, job, begun) => QueueAppend(s.cleanup, CancelAdoption(job, ack, begun), 0);
      case ReadyClean(target, _, _) => QueueAppend(s.cleanup, ReleaseSession(target, false), 0);
      case ReadyUpdate(_, target, _) => QueueAppend(s.cleanup, ReleaseSession(target, false), 0);
    }
  }

  lemma CloseNeverAddsDebt(s: Slot)
    requires Single(s)
    ensures Debt(BeginClose(s)) <= Debt(s)
    ensures s.installed.Some? || s.pending.Some? ==> Debt(BeginClose(s)) < Debt(s)
  {
    CancelNeverAddsDebt(s);
    var idle := RequestCancel(s);
    if idle.installed.Some? {
      QueueAppend(idle.cleanup, ReleaseSession(idle.installed.value.session, false), 0);
    }
  }

  lemma CleanupPollPaysDebt(s: Slot, fuel: nat, reply: ReleaseReply)
    requires s.cleanup != [] && fuel > 0 && LegalCleanup(s, fuel, reply)
    requires PollCleanup(s, fuel, reply).outcome.Ok?
    ensures Debt(PollCleanup(s, fuel, reply).slot) < Debt(s)
  {
    var s' := PollCleanup(s, fuel, reply).slot;
    assert s'.cleanup != s.cleanup[1..] ==> s'.cleanup[1..] == s.cleanup[1..];
  }
}
