/**
 What every run of the inline lanes keeps: at most one lane is occupied, no late
 result is stale, no fuel grant or command budget is overrun, the defensive
 InvalidState branches are dead, and every engine root has exactly one fate.
 */
module LanesTheorems {
  import opened Engine
  import opened Lanes

  // --------------------------------------------------------------- observations

  function Bit(b: bool): nat {
    if b then 1 else 0
  }

  function Occupied(l: Lanes): nat {
    Bit(l.viewport.Some?) + Bit(l.hot.Some?) + Bit(l.sidecar.Some?)
  }

  /** A drain holds at most one of an aborting job, a releasing root and a child. */
  predicate OneOwner(c: ViewCleanup) {
    Bit(c.job.Some?) + Bit(c.releasing.Some?) + Bit(c.child.Some?) <= 1
  }

  predicate ViewInv(v: ViewState) {
    match v
    case BatchRunning(b) => b.total <= b.command.maximumTransitions && (!b.resolver ==> b.ready == [] && b.active.None?)
    case BatchReady(b) => b.total <= b.command.maximumTransitions && b.active.None?
    case Streaming(_, _, child, releasing, _) => child.None? || releasing.None?
    case Draining(c) => OneOwner(c)
  }

  /** The base under which the hot job, result or sidecar now held was created. */
  function Origin(l: Lanes): Option<Ack> {
    if l.hot.Some? && (l.hot.value.Running? || l.hot.value.Ready?) then Some(l.hot.value.origin)
    else if l.sidecar.Some? then Some(l.sidecar.value.origin)
    else None
  }

  /** Work reused for a later command was created under that command's own base. */
  predicate Provenance(l: Lanes) {
    && (l.hot.Some? && (l.hot.value.Running? || l.hot.value.Ready?) ==> l.hot.value.origin == l.hot.value.command.baseAck)
    && (l.sidecar.Some? ==> l.sidecar.value.origin == l.sidecar.value.command.baseAck)
  }

  predicate Inv(l: Lanes) {
    && Occupied(l) <= 1 && Provenance(l)
    && (l.viewport.Some? ==> ViewInv(l.viewport.value))
    && (l.unavailable.Some? ==> l.viewport.None? || l.viewport.value.Draining?)
  }

  function HotCommand(h: HotState): Option<Command> {
    match h
    case Awaiting(d) => Some(d.command)
    case Running(c, _, _, _) => Some(c)
    case Ready(c, _, _, _) => Some(c)
    case Cancelling(_, _, r) => if r.Some? then Some(r.value.command) else None
    case Releasing(_, _, r) => if r.Some? then Some(r.value.command) else None
  }

  /** The demand that may still become a sidecar: in the hot lane, or waiting behind a drain. */
  function LiveCommand(l: Lanes): Option<Command> {
    if l.hot.Some? then HotCommand(l.hot.value)
    else if l.viewport.Some? && l.viewport.value.Draining? && l.viewport.value.cleanup.replacement.Some?
    then Some(l.viewport.value.cleanup.replacement.value.command)
    else None
  }

  /** Base ack of a batch or stream that has not begun to drain. */
  function ViewBase(v: ViewState): Option<Ack> {
    match v
    case BatchRunning(b) => Some(b.command.baseAck)
    case BatchReady(b) => Some(b.command.baseAck)
    case Streaming(c, _, _, _, _) => Some(c.baseAck)
    case Draining(_) => None
  }

  predicate Increasing(xs: seq<nat>) {
    forall i, j :: 0 <= i < j < |xs| ==> xs[i] < xs[j]
  }

  predicate Below(xs: seq<nat>, bound: nat) {
    forall i :: 0 <= i < |xs| ==> xs[i] < bound
  }

  /** Nothing live is stale: latest generation, current base, never published before. */
  predicate Fresh(l: Lanes, retained: Option<Ack>) {
    && Increasing(l.published) && Below(l.published, l.lastHot + 1)
    && (LiveCommand(l).Some? ==>
          && LiveCommand(l).value.generation == l.lastHot
          && retained == Some(LiveCommand(l).value.baseAck)
          && Below(l.published, l.lastHot))
    && (l.sidecar.Some? ==>
          l.sidecar.value.command.generation == l.lastHot && retained == Some(l.sidecar.value.command.baseAck))
    && (l.viewport.Some? && ViewBase(l.viewport.value).Some? ==> retained == ViewBase(l.viewport.value))
  }

  /** No demand, sidecar or undrained batch is left that depends on the base. */
  predicate Quiet(l: Lanes) {
    && LiveCommand(l).None? && l.sidecar.None?
    && (l.viewport.Some? ==> l.viewport.value.Draining?)
  }

  function HoldsHot(h: HotState, id: nat): nat {
    match h
    case Awaiting(_) => 0
    case Running(_, _, job, _) => Holds(job, id)
    case Ready(_, _, root, _) => HoldsOption(root, id)
    case Cancelling(job, _, _) => Holds(job, id)
    case Releasing(root, _, _) => Holds(root, id)
  }

  function HoldsLeaves(leaves: seq<Option<Resource>>, id: nat): nat
    decreases |leaves|
  {
    if leaves == [] then 0
    else HoldsLeaves(leaves[..|leaves| - 1], id) + HoldsOption(leaves[|leaves| - 1], id)
  }

  function HoldsRelease(r: Option<RootRelease>, id: nat): nat {
    if r.Some? then Holds(r.value.root, id) else 0
  }

  function HoldsChild(c: Option<Option<Resource>>, id: nat): nat {
    if c.Some? then HoldsOption(c.value, id) else 0
  }

  function HoldsDrain(c: ViewCleanup, id: nat): nat {
    HoldsOption(c.job, id) + HoldsLeaves(c.ready, id) + HoldsLeaves(c.prepared, id)
    + HoldsChild(c.child, id) + HoldsRelease(c.releasing, id)
  }

  function HoldsView(v: ViewState, id: nat): nat {
    match v
    case BatchRunning(b) => HoldsOption(b.active, id) + HoldsLeaves(b.ready, id)
    case BatchReady(b) => HoldsLeaves(b.ready, id)
    case Streaming(_, prepared, child, releasing, _) =>
      HoldsLeaves(prepared, id) + HoldsChild(child, id) + HoldsRelease(releasing, id)
    case Draining(c) => HoldsDrain(c, id)
  }

  function OwnedLane(l: Lanes, id: nat): nat {
    (if l.viewport.Some? then HoldsView(l.viewport.value, id) else 0)
    + (if l.hot.Some? then HoldsHot(l.hot.value, id) else 0)
    + (if l.sidecar.Some? then HoldsOption(l.sidecar.value.root, id) else 0)
  }

  /** Owned or released: the fate of `id` so far. */
  function Fate(l: Lanes, id: nat): nat {
    OwnedLane(l, id) + l.released[id]
  }

  // ------------------------------------------------------------------ leaf lists

  lemma {:induction false} ReverseHolds(leaves: seq<Option<Resource>>, id: nat)
    ensures HoldsLeaves(Reverse(leaves), id) == HoldsLeaves(leaves, id)
    decreases |leaves|
  {
    if leaves != [] {
      var last := |leaves| - 1;
      ReverseHolds(leaves[..last], id);
      ConsHolds(leaves[last], Reverse(leaves[..last]), id);
    }
  }

  lemma {:induction false} ConsHolds(x: Option<Resource>, leaves: seq<Option<Resource>>, id: nat)
    ensures HoldsLeaves([x] + leaves, id) == HoldsOption(x, id) + HoldsLeaves(leaves, id)
    decreases |leaves|
  {
    if leaves == [] {
      assert [x] + leaves == [x];
      assert [x][..0] == [];
    } else {
      var last := |leaves| - 1;
      ConsHolds(x, leaves[..last], id);
      assert ([x] + leaves)[..last + 1] == [x] + leaves[..last];
    }
  }

  lemma {:induction false} PopHolds(leaves: seq<Option<Resource>>, left: nat, id: nat)
    ensures var p := PopLeaves(leaves, left);
      && p.spent <= left
      && HoldsLeaves(p.rest, id) + HoldsOption(p.root, id) == HoldsLeaves(leaves, id)
      && (p.root.None? && p.rest != [] ==> p.spent == left)
      && (p.spent == 0 && p.root.None? && left > 0 ==> leaves == [])
      && |p.rest| + p.spent + Bit(p.root.Some?) == |leaves|
    decreases |leaves|
  {
    if left != 0 && leaves != [] && leaves[|leaves| - 1].None? {
      PopHolds(leaves[..|leaves| - 1], left - 1, id);
    }
  }

  // ----------------------------------------------------------------- hot polling

  /** `l'` holds no demand, sidecar or batch base that `l` did not hold. */
  predicate NothingNew(l: Lanes, l': Lanes) {
    && l'.lastHot == l.lastHot && l'.published == l.published
    && (LiveCommand(l').Some? ==> LiveCommand(l') == LiveCommand(l))
    && (l'.sidecar.Some? ==> l'.sidecar == l.sidecar)
    && (l'.viewport.Some? && ViewBase(l'.viewport.value).Some? ==>
          l.viewport.Some? && ViewBase(l.viewport.value) == ViewBase(l'.viewport.value))
  }

  lemma NothingNewStaysFresh(l: Lanes, l': Lanes, retained: Option<Ack>)
    requires Fresh(l, retained) && NothingNew(l, l')
    ensures Fresh(l', retained)
  {
  }

  lemma NothingNewAtAll(l: Lanes)
    ensures NothingNew(l, l)
  {
  }

  lemma NothingNewChains(l: Lanes, m: Lanes, n: Lanes, hasBase: bool)
    requires NothingNew(l, m)
    requires l.viewport.Some? && ViewBase(l.viewport.value).Some? ==> hasBase
    ensures m.viewport.Some? && ViewBase(m.viewport.value).Some? ==> hasBase
    ensures NothingNew(m, n) ==> NothingNew(l, n)
  {
  }

  /**
   A legal turn keeps the invariant and the fate of every resource, brings
   nothing new, stays within its fuel and takes no defensive branch.
   */
  ghost predicate GoodTurn(l: Lanes, t: Turn, left: nat, minted: nat, id: nat) {
    && Inv(t.lanes) && NothingNew(l, t.lanes)
    && t.spent <= left
    && Fate(t.lanes, id) == Fate(l, id) + minted
    && (t.failure.Some? ==> t.failure.value == EngineFailure || t.failure.value == InvalidAuthority)
  }

  predicate BecameRunning(l: Lanes, l': Lanes) {
    (l.hot.Some? ==> !l.hot.value.Running?) && l'.hot.Some? && l'.hot.value.Running?
  }

  function MintedJob(l: Lanes, l': Lanes, id: nat): nat {
    if BecameRunning(l, l') then Holds(l'.hot.value.job, id) else 0
  }

  lemma StageReplacementGood(l: Lanes, isJob: bool, r: Resource, begun: bool, replacement: Option<Demand>,
                             left: nat, spent: nat, start: Option<Resource>, id: nat)
    requires Inv(l) && spent <= left
    requires l.hot == Some(DrainState(isJob, r, begun, replacement))
    ensures var t := StageReplacement(l.(released := l.released + multiset{r.id}), spent, replacement, start);
      GoodTurn(l, t, left, MintedJob(l, t.lanes, id), id)
  {
    assert (l.released + multiset{r.id})[id] == l.released[id] + Holds(r, id);
  }

  lemma HotDrainGood(l: Lanes, isJob: bool, r: Resource, begun: bool, replacement: Option<Demand>,
                     left: nat, reply: HotReply, id: nat)
    requires Inv(l) && left > 0
    requires l.hot == Some(DrainState(isJob, r, begun, replacement)) && LegalHot(l.hot.value, left, reply)
    ensures var t := HotDrain(l, isJob, r, begun, replacement, left, reply);
      GoodTurn(l, t, left, MintedJob(l, t.lanes, id), id)
  {
    hide StageReplacement;
    if reply.HotReply? && reply.release.Progress? && WorkLeft(r, reply.release) == 0 && (begun || left > 1) {
      StageReplacementGood(l, isJob, r, begun, replacement, left, (if begun then 0 else 1) + reply.release.spent,
                           reply.start, id);
    }
  }

  lemma HotTurnGood(l: Lanes, left: nat, hasBase: bool, reply: HotReply, id: nat)
    requires Inv(l) && left > 0
    requires l.hot.Some? ==> LegalHot(l.hot.value, left, reply)
    ensures var t := HotTurn(l, left, hasBase, reply); GoodTurn(l, t, left, MintedJob(l, t.lanes, id), id)
  {
    hide HotDrain;
    if l.hot.Some? {
      match l.hot.value
      case Cancelling(job, begun, replacement) =>
        HotDrainGood(l, true, job, begun, replacement, left, reply, id);
      case Releasing(root, begun, replacement) =>
        HotDrainGood(l, false, root, begun, replacement, left, reply, id);
      case _ =>
    }
  }

  // ------------------------------------------------------------ viewport polling

  function At(l: Lanes, b: Batch): Lanes {
    l.(viewport := Some(BatchRunning(b)))
  }

  predicate LegalLeaf(b: Batch, left: nat, spent: nat, reply: ViewReply) {
    && spent + reply.jobSpent <= left
    && (b.total <= b.command.maximumTransitions ==> b.total + reply.jobSpent <= b.command.maximumTransitions)
    && (b.active.Some? ==> reply.job.id == b.active.value.id
                           && (reply.root.Some? ==> reply.root.value.id == b.active.value.id))
  }

  lemma UnavailableGood(l: Lanes, b: Batch, left: nat, spent: nat, id: nat)
    requires Inv(At(l, b)) && spent <= left
    ensures GoodTurn(At(l, b), Unavailable(l, b, spent), left, 0, id)
  {
    assert HoldsLeaves([], id) == 0;
  }

  /** The finished leaf joins the ready ones; without a root its job is simply gone. */
  lemma LeafReadyHolds(b: Batch, root: Option<Resource>, released: multiset<nat>, id: nat)
    requires b.active.Some? && (root.Some? ==> root.value.id == b.active.value.id)
    ensures var gone := if root.None? then released + multiset{b.active.value.id} else released;
      HoldsLeaves(b.ready + [root], id) + gone[id] == HoldsOption(b.active, id) + HoldsLeaves(b.ready, id) + released[id]
  {
    var ready := b.ready + [root];
    assert ready[..|ready| - 1] == b.ready;
    assert (released + multiset{b.active.value.id})[id] == released[id] + Holds(b.active.value, id);
  }

  lemma FinishLeafGood(l: Lanes, b: Batch, left: nat, spent: nat, reply: ViewReply, id: nat)
    requires Inv(At(l, b)) && spent <= left && left > 0 && b.resolver
    requires b.active.Some? && (reply.root.Some? ==> reply.root.value.id == b.active.value.id)
    ensures GoodTurn(At(l, b), ViewFinishLeaf(l, b, spent, reply), left, 0, id)
  {
    hide Unavailable, HoldsHot;
    LeafReadyHolds(b, reply.root, l.released, id);
    assert HoldsLeaves([], id) == 0;
    hide HoldsLeaves;
    var b' := b.(active := None, ready := b.ready + [reply.root]);
    var gone := if reply.root.None? then l.released + multiset{b.active.value.id} else l.released;
    if reply.valid && reply.overLimit {
      UnavailableGood(l.(released := gone), b', left, spent, id);
    }
  }

  lemma PollJobGood(l: Lanes, b: Batch, left: nat, spent: nat, reply: ViewReply, id: nat)
    requires Inv(At(l, b)) && spent < left && b.resolver && b.active.Some?
    requires LegalLeaf(b, left, spent, reply)
    ensures GoodTurn(At(l, b), ViewPollJob(l, b, left, spent, reply), left, 0, id)
  {
    hide ViewFinishLeaf, Unavailable;
    if b.total == b.command.maximumTransitions || !reply.jobOk {
      UnavailableGood(l, b, left, spent + 1, id);
    } else if reply.jobDone {
      FinishLeafGood(l, b.(total := b.total + reply.jobSpent), left, spent + reply.jobSpent, reply, id);
    }
  }

  /** The leaf job minted when the batch pops its next leaf. */
  function MintedLeaf(b: Batch, reply: ViewReply, id: nat): nat {
    if b.total < b.command.maximumTransitions && b.pending > 0 then HoldsOption(reply.start, id) else 0
  }

  lemma StartGood(l: Lanes, b: Batch, left: nat, spent: nat, reply: ViewReply, id: nat)
    requires Inv(At(l, b)) && spent < left && b.resolver && b.active.None? && b.pending > 0
    requires LegalLeaf(b.(active := reply.start), left, spent, reply)
    ensures GoodTurn(At(l, b), ViewStart(l, b, left, spent, reply), left, MintedLeaf(b, reply, id), id)
  {
    hide ViewPollJob, Unavailable;
    if b.total == b.command.maximumTransitions {
      UnavailableGood(l, b, left, spent + 1, id);
    } else if reply.start.None? {
      UnavailableGood(l, b.(pending := b.pending - 1), left, spent + 1, id);
    } else {
      PollJobGood(l, b.(pending := b.pending - 1, active := reply.start), left, spent, reply, id);
    }
  }

  function MintedRunning(b: Batch, left: nat, reply: ViewReply, id: nat): nat {
    if b.active.Some? || b.pending == 0 then 0
    else if b.resolver then MintedLeaf(b, reply, id)
    else if b.total < b.command.maximumTransitions && reply.resolverOk && reply.resolverReady && reply.resolverSpent < left
    then MintedLeaf(b.(total := b.total + reply.resolverSpent), reply, id)
    else 0
  }

  lemma RunningGood(l: Lanes, b: Batch, left: nat, reply: ViewReply, id: nat)
    requires Inv(l) && left > 0
    requires l.viewport == Some(BatchRunning(b)) && LegalView(l.viewport.value, left, reply)
    ensures GoodTurn(l, ViewRunning(l, b, left, true, reply), left, MintedRunning(b, left, reply, id), id)
  {
    hide ViewPollJob, ViewStart, Unavailable;
    assert l == At(l, b);
    assert HoldsLeaves([], id) == 0;
    if b.active.Some? {
      PollJobGood(l, b, left, 0, reply, id);
    } else if b.pending > 0 && b.resolver {
      StartGood(l, b, left, 0, reply, id);
    } else if b.pending > 0 {
      var b' := b.(total := b.total + reply.resolverSpent, resolver := true);
      if b.total == b.command.maximumTransitions {
        UnavailableGood(l, b, left, 1, id);
      } else if reply.resolverOk && reply.resolverReady && reply.resolverSpent < left {
        assert At(l, b') == l.(viewport := Some(BatchRunning(b')));
        StartGood(l, b', left, reply.resolverSpent, reply, id);
      }
    }
  }

  // -------------------------------------------------------------------- draining

  ghost predicate DrainReadyToPop(l: Lanes, c: ViewCleanup) {
    c.job.None? && c.releasing.None? && c.child.None? && Inv(DrainAt(l, c))
  }

  lemma DrainFinishGood(l: Lanes, c: ViewCleanup, left: nat, spent: nat, reply: ViewReply, id: nat)
    requires DrainReadyToPop(l, c) && spent <= left
    requires c.prepared == [] && c.ready == []
    ensures var t := DrainFinish(l, c, spent, reply);
      GoodTurn(DrainAt(l, c), t, left, MintedJob(DrainAt(l, c), t.lanes, id), id)
  {
    assert HoldsLeaves([], id) == 0;
  }

  lemma DrainReadyGood(l: Lanes, c: ViewCleanup, left: nat, spent: nat, reply: ViewReply, id: nat)
    requires DrainReadyToPop(l, c) && spent <= left
    requires c.prepared == [] || spent == left
    ensures var t := DrainReady(l, c, left, spent, reply);
      GoodTurn(DrainAt(l, c), t, left, MintedJob(DrainAt(l, c), t.lanes, id), id)
  {
    hide DrainFinish;
    PopHolds(c.ready, left - spent, id);
    var popped := PopLeaves(c.ready, left - spent);
    if popped.root.None? && popped.rest == [] && spent + popped.spent < left {
      DrainFinishGood(l, c.(ready := []), left, spent + popped.spent, reply, id);
    }
  }

  lemma DrainPreparedGood(l: Lanes, c: ViewCleanup, left: nat, spent: nat, reply: ViewReply, id: nat)
    requires DrainReadyToPop(l, c) && spent <= left
    ensures var t := DrainPrepared(l, c, left, spent, reply);
      GoodTurn(DrainAt(l, c), t, left, MintedJob(DrainAt(l, c), t.lanes, id), id)
  {
    hide DrainReady;
    PopHolds(c.prepared, left - spent, id);
    var popped := PopLeaves(c.prepared, left - spent);
    if popped.root.None? {
      DrainReadyGood(l, c.(prepared := popped.rest), left, spent + popped.spent, reply, id);
    }
  }

  lemma DrainChildGood(l: Lanes, c: ViewCleanup, left: nat, spent: nat, reply: ViewReply, id: nat)
    requires c.job.None? && c.releasing.None? && Inv(DrainAt(l, c))
    requires spent + Bit(c.child.Some?) <= left
    ensures var t := DrainChild(l, c, left, spent, reply);
      GoodTurn(DrainAt(l, c), t, left, MintedJob(DrainAt(l, c), t.lanes, id), id)
  {
    hide DrainPrepared;
    if c.child.None? {
      DrainPreparedGood(l, c, left, spent, reply, id);
    } else if c.child.value.None? {
      DrainPreparedGood(l, c.(child := None), left, spent + 1, reply, id);
    }
  }

  /** The drain's current root is gone: the turn goes on with the child and the leaves. */
  lemma RootGoneGood(l: Lanes, c: ViewCleanup, left: nat, spent: nat, reply: ViewReply, id: nat)
    requires c.job.None? && c.releasing.Some? && Inv(DrainAt(l, c)) && spent <= left
    ensures var t := DrainChild(l.(released := l.released + multiset{c.releasing.value.root.id}),
                                c.(releasing := None), left, spent, reply);
      GoodTurn(DrainAt(l, c), t, left, MintedJob(DrainAt(l, c), t.lanes, id), id)
  {
    hide DrainChild, HoldsLeaves;
    var root := c.releasing.value.root;
    var l' := l.(released := l.released + multiset{root.id});
    assert l'.released[id] == l.released[id] + Holds(root, id);
    DrainChildGood(l', c.(releasing := None), left, spent, reply, id);
  }

  lemma DrainReleaseGood(l: Lanes, c: ViewCleanup, left: nat, spent: nat, reply: ViewReply, id: nat)
    requires c.job.None? && Inv(DrainAt(l, c)) && left > 0
    requires LegalAbort(c, left, reply)
    requires spent <= left && (c.releasing.Some? || c.child.Some? ==> spent == 0)
    ensures var t := DrainRelease(l, c, left, spent, reply);
      GoodTurn(DrainAt(l, c), t, left, MintedJob(DrainAt(l, c), t.lanes, id), id)
  {
    hide DrainChild, HoldsLeaves;
    if c.releasing.None? {
      DrainChildGood(l, c, left, spent, reply, id);
    } else {
      var r := c.releasing.value;
      if reply.release.Progress? && WorkLeft(r.root, reply.release) == 0 && (r.begun || left > 1) {
        RootGoneGood(l, c, left, Bit(!r.begun) + reply.release.spent, reply, id);
      }
    }
  }

  lemma DrainJobGood(l: Lanes, c: ViewCleanup, left: nat, reply: ViewReply, id: nat)
    requires Inv(DrainAt(l, c)) && left > 0 && LegalAbort(c, left, reply)
    ensures var t := DrainJob(l, c, left, reply);
      GoodTurn(DrainAt(l, c), t, left, MintedJob(DrainAt(l, c), t.lanes, id), id)
  {
    hide DrainRelease, HoldsLeaves, HoldsHot, HotCommand;
    if c.job.None? {
      DrainReleaseGood(l, c, left, 0, reply, id);
    } else if reply.abort.Progress? && WorkLeft(c.job.value, reply.abort) == 0 && (c.abortBegun || left > 1) {
      var l' := l.(released := l.released + multiset{c.job.value.id});
      assert l'.released[id] == l.released[id] + Holds(c.job.value, id);
      DrainReleaseGood(l', c.(job := None, abortBegun := false), left, Bit(!c.abortBegun) + reply.abort.spent, reply, id);
    }
  }

  function MintedView(l: Lanes, left: nat, hasBase: bool, reply: ViewReply, id: nat): nat
    requires left > 0
  {
    if l.viewport.Some? && l.viewport.value.BatchRunning? then MintedRunning(l.viewport.value.batch, left, reply, id)
    else MintedJob(l, ViewTurn(l, left, hasBase, reply).lanes, id)
  }

  lemma ViewTurnGood(l: Lanes, left: nat, hasBase: bool, reply: ViewReply, id: nat)
    requires Inv(l) && left > 0
    requires l.viewport.Some? ==> LegalView(l.viewport.value, left, reply)
    requires l.viewport.Some? && l.viewport.value.BatchRunning? ==> hasBase
    ensures GoodTurn(l, ViewTurn(l, left, hasBase, reply), left, MintedView(l, left, hasBase, reply, id), id)
  {
    if l.viewport.Some? {
      match l.viewport.value
      case BatchRunning(b) => RunningGood(l, b, left, reply, id);
      case Draining(c) =>
        assert l == DrainAt(l, c);
        DrainJobGood(l, c, left, reply, id);
      case _ =>
    }
  }

  // ----------------------------------------------------------- whole fuel grants

  predicate LegalHotLoop(l: Lanes, fuel: nat, hasBase: bool, replies: seq<HotReply>)
    decreases |replies|
  {
    fuel == 0 || replies == [] ||
    (&& (l.hot.Some? ==> LegalHot(l.hot.value, fuel, replies[0]))
     && var t := HotTurn(l, fuel, hasBase, replies[0]);
        t.again && t.failure.None? && t.spent < fuel ==> LegalHotLoop(t.lanes, fuel - t.spent, hasBase, replies[1..]))
  }

  predicate LegalViewLoop(l: Lanes, fuel: nat, hasBase: bool, replies: seq<ViewReply>)
    decreases |replies|
  {
    fuel == 0 || replies == [] ||
    (&& (l.viewport.Some? ==> LegalView(l.viewport.value, fuel, replies[0]))
     && var t := ViewTurn(l, fuel, hasBase, replies[0]);
        t.again && t.failure.None? && t.spent < fuel ==> LegalViewLoop(t.lanes, fuel - t.spent, hasBase, replies[1..]))
  }

  function MintedHotLoop(l: Lanes, fuel: nat, hasBase: bool, replies: seq<HotReply>, id: nat): nat
    decreases |replies|
  {
    if fuel == 0 || replies == [] then 0
    else
      var t := HotTurn(l, fuel, hasBase, replies[0]);
      MintedJob(l, t.lanes, id)
      + (if t.again && t.failure.None? && t.spent < fuel
         then MintedHotLoop(t.lanes, fuel - t.spent, hasBase, replies[1..], id) else 0)
  }

  function MintedViewLoop(l: Lanes, fuel: nat, hasBase: bool, replies: seq<ViewReply>, id: nat): nat
    decreases |replies|
  {
    if fuel == 0 || replies == [] then 0
    else
      var t := ViewTurn(l, fuel, hasBase, replies[0]);
      MintedView(l, fuel, hasBase, replies[0], id)
      + (if t.again && t.failure.None? && t.spent < fuel
         then MintedViewLoop(t.lanes, fuel - t.spent, hasBase, replies[1..], id) else 0)
  }

  /** A poll keeps everything and reports no more than its grant; it fails only when the engine does. */
  ghost predicate GoodPoll(l: Lanes, s: LaneStep, fuel: nat, minted: nat, id: nat) {
    && Inv(s.lanes) && NothingNew(l, s.lanes)
    && Fate(s.lanes, id) == Fate(l, id) + minted
    && (s.outcome.Ok? ==> s.outcome.value <= fuel)
    && (s.outcome.Err? ==> s.outcome.error == EngineFailure || s.outcome.error == InvalidAuthority)
  }

  /**
   Hot-lane fuel: over every sequence of legal engine answers, one poll spends
   at most its grant and never takes a defensive branch.
   */
  lemma {:induction false} HotPollWithinGrant(l: Lanes, fuel: nat, hasBase: bool, replies: seq<HotReply>, id: nat)
    requires Inv(l) && LegalHotLoop(l, fuel, hasBase, replies)
    ensures GoodPoll(l, PollHot(l, fuel, hasBase, replies), fuel,
                     MintedHotLoop(l, fuel, hasBase, replies, id), id)
    decreases |replies|
  {
    hide HotTurn, MintedJob, LegalHot, Inv, Fate, NothingNew;
    NothingNewAtAll(l);
    if fuel != 0 && replies != [] {
      HotTurnGood(l, fuel, hasBase, replies[0], id);
      var t := HotTurn(l, fuel, hasBase, replies[0]);
      NothingNewChains(l, t.lanes, PollHot(l, fuel, hasBase, replies).lanes, true);
      if t.again && t.failure.None? && t.spent < fuel {
        HotPollWithinGrant(t.lanes, fuel - t.spent, hasBase, replies[1..], id);
      }
    }
  }

  lemma {:induction false} ViewLoopWithinGrant(l: Lanes, fuel: nat, hasBase: bool, replies: seq<ViewReply>, id: nat)
    requires Inv(l) && fuel > 0 && LegalViewLoop(l, fuel, hasBase, replies)
    requires l.viewport.Some? && ViewBase(l.viewport.value).Some? ==> hasBase
    ensures GoodPoll(l, ViewLoop(l, fuel, hasBase, replies), fuel,
                     MintedViewLoop(l, fuel, hasBase, replies, id), id)
    decreases |replies|
  {
    hide ViewTurn, MintedView, LegalView, Inv, Fate, NothingNew;
    NothingNewAtAll(l);
    if replies != [] {
      ViewTurnGood(l, fuel, hasBase, replies[0], id);
      var t := ViewTurn(l, fuel, hasBase, replies[0]);
      NothingNewChains(l, t.lanes, ViewLoop(l, fuel, hasBase, replies).lanes, hasBase);
      if t.again && t.failure.None? && t.spent < fuel {
        ViewLoopWithinGrant(t.lanes, fuel - t.spent, hasBase, replies[1..], id);
      }
    }
  }

  /**
   Viewport fuel and budget: one poll spends at most its grant, the batch never
   passes its command's transition limit (part of `Inv`), and draining never
   subtracts more fuel than it has.
   */
  lemma ViewPollWithinGrant(l: Lanes, fuel: nat, hasBase: bool, replies: seq<ViewReply>, id: nat)
    requires Inv(l) && fuel > 0 && LegalViewLoop(l, fuel, hasBase, replies)
    requires l.viewport.Some? && ViewBase(l.viewport.value).Some? ==> hasBase
    ensures GoodPoll(l, PollViewport(l, fuel, hasBase, replies), fuel,
                     MintedViewLoop(l, fuel, hasBase, replies, id), id)
  {
    hide ViewLoop, LegalViewLoop, MintedViewLoop, Inv, Fate, NothingNew;
    ViewLoopWithinGrant(l, fuel, hasBase, replies, id);
  }

  // ---------------------------------------------------------- the other operations

  /** A successful or failed lane operation keeps the invariant, freshness and every fate. */
  ghost predicate GoodStep(l: Lanes, l': Lanes, retained: Option<Ack>, minted: nat, id: nat) {
    Inv(l') && Fresh(l', retained) && Fate(l', id) == Fate(l, id) + minted
  }

  /** Cancelling leaves nothing that depends on the base, and loses no resource. */
  lemma CancelAllQuiets(l: Lanes, id: nat)
    requires Inv(l)
    ensures Inv(CancelAll(l)) && Quiet(CancelAll(l)) && NothingNew(l, CancelAll(l))
    ensures Fate(CancelAll(l), id) == Fate(l, id)
    ensures CancelAll(l).unavailable.None?
  {
    assert HoldsLeaves([], id) == 0;
  }

  lemma CancelPresentationGood(l: Lanes, retained: Option<Ack>, id: nat)
    requires Inv(l) && Fresh(l, retained)
    ensures GoodStep(l, CancelPresentation(l), retained, 0, id)
  {
    assert HoldsLeaves([], id) == 0;
    NothingNewStaysFresh(l, CancelPresentation(l), retained);
  }

  lemma CancelSidecarGood(l: Lanes, retained: Option<Ack>, id: nat)
    requires Inv(l) && Fresh(l, retained)
    ensures GoodStep(l, CancelSidecar(l), retained, 0, id) && NothingNew(l, CancelSidecar(l))
    ensures CancelSidecar(l).sidecar.None?
    ensures l.sidecar.Some? ==> LiveCommand(CancelSidecar(l)).None?
    ensures MintedJob(CancelSidecar(l), l, id) == 0
  {
    NothingNewStaysFresh(l, CancelSidecar(l), retained);
  }

  /** A quiet lane is fresh under whatever base the endpoint holds next. */
  lemma QuietIsFresh(l: Lanes, before: Option<Ack>, after: Option<Ack>)
    requires Quiet(l) && Fresh(l, before)
    ensures Fresh(l, after)
  {
  }

  /** A new demand names the base of the one it replaces; both name the retained base. */
  predicate SameBase(l: Lanes, d: Demand) {
    LiveCommand(l).Some? ==> LiveCommand(l).value.baseAck == d.command.baseAck
  }

  /** Installing a demand makes it the live one, or the engine failed and nothing is live. */
  ghost predicate Installs(l: Lanes, r: LaneStep, d: Demand, id: nat) {
    && Inv(r.lanes)
    && Fate(r.lanes, id) == Fate(l, id) + MintedJob(l, r.lanes, id)
    && r.lanes.sidecar.None? && r.lanes.lastHot == l.lastHot && r.lanes.published == l.published
    && (r.outcome.Ok? ==> LiveCommand(r.lanes) == Some(d.command))
    && (r.outcome.Err? ==> LiveCommand(r.lanes).None? && r.outcome.error == EngineFailure)
    && (r.lanes.viewport.Some? ==> r.lanes.viewport.value.Draining?)
  }

  lemma InstallLatestGood(l: Lanes, d: Demand, start: Option<Resource>, id: nat)
    requires Inv(l) && l.sidecar.None? && l.viewport.None? && SameBase(l, d)
    ensures Installs(l, InstallLatest(l.(unavailable := None), d, start), d, id)
  {
  }

  lemma InstallGood(l: Lanes, d: Demand, start: Option<Resource>, id: nat)
    requires Inv(l) && l.sidecar.None? && SameBase(l, d)
    ensures Installs(l, InstallPreemptingViewport(l, d, start), d, id)
  {
    hide InstallLatest;
    if l.viewport.None? {
      InstallLatestGood(l, d, start, id);
    } else {
      assert HoldsLeaves([], id) == 0;
    }
  }

  /**
   A hot request is refused for a stated reason or wins the lane: the only
   failure after admission is the engine's, and the accepted generation becomes
   the latest one.
   */
  lemma RequestHotGood(l: Lanes, retained: Option<Ack>, d: Demand, start: Option<Resource>, id: nat)
    requires Inv(l) && Fresh(l, retained)
    ensures var r := RequestHot(l, retained, d, start);
      && GoodStep(l, r.lanes, retained, MintedJob(CancelSidecar(l), r.lanes, id), id)
      && (r.outcome.Ok? ==> r.lanes.lastHot == d.command.generation > l.lastHot && LiveCommand(r.lanes) == Some(d.command))
      && (r.outcome == Err(InvalidState) ==> retained.None?)
  {
    hide InstallPreemptingViewport, CancelSidecar;
    CancelSidecarGood(l, retained, id);
    if retained == Some(d.command.baseAck) {
      InstallGood(CancelSidecar(l), d, start, id);
    }
  }

  lemma RequestViewportGood(l: Lanes, retained: Option<Ack>, c: ViewCommand, leaves: nat, spent: nat, id: nat)
    requires Inv(l) && Fresh(l, retained)
    ensures GoodStep(l, RequestViewport(l, retained, c, leaves, spent).lanes, retained, 0, id)
  {
    assert HoldsLeaves([], id) == 0;
  }

  /**
   Publication: a ready result always names the current base, so a sidecar fails
   to begin only when its encoder does, and each published generation is strictly
   greater than every earlier one.
   */
  lemma BeginSidecarGood(l: Lanes, retained: Option<Ack>, encoderOk: bool, id: nat)
    requires Inv(l) && Fresh(l, retained)
    ensures var r := BeginSidecar(l, retained, encoderOk);
      && GoodStep(l, r.lanes, retained, 0, id)
      && (r.outcome.Err? ==> !encoderOk && r.outcome.error == EngineFailure)
      && Increasing(r.lanes.published)
  {
  }

  lemma FinishSidecarGood(l: Lanes, retained: Option<Ack>, id: nat)
    requires Inv(l) && Fresh(l, retained)
    ensures GoodStep(l, FinishSidecar(l).lanes, retained, 0, id)
  {
    CancelSidecarGood(l, retained, id);
  }

  lemma PrepareStreamGood(l: Lanes, retained: Option<Ack>, failure: Option<bool>, id: nat)
    requires Inv(l) && Fresh(l, retained)
    ensures var r := PrepareStream(l, retained, failure);
      && GoodStep(l, r.lanes, retained, 0, id)
      && (r.outcome.Err? ==> failure.Some? && r.outcome.error == EngineFailure)
  {
    assert HoldsLeaves([], id) == 0;
    if l.viewport.Some? && l.viewport.value.BatchReady? {
      ReverseHolds(l.viewport.value.batch.ready, id);
    }
    NothingNewStaysFresh(l, PrepareStream(l, retained, failure).lanes, retained);
  }

  lemma StreamReleaseGood(l: Lanes, left: nat, childEnds: bool, release: ReleaseReply, id: nat)
    requires Inv(l) && LegalStream(l, left, release)
    requires l.viewport.Some? && l.viewport.value.Streaming? && l.viewport.value.releasing.Some?
    ensures GoodTurn(l, StreamTurn(l, left, childEnds, release), left, 0, id)
  {
    hide HoldsLeaves, HoldsHot;
    var root := l.viewport.value.releasing.value.root;
    assert (l.released + multiset{root.id})[id] == l.released[id] + Holds(root, id);
  }

  lemma StreamTurnGood(l: Lanes, left: nat, childEnds: bool, release: ReleaseReply, id: nat)
    requires Inv(l) && LegalStream(l, left, release)
    ensures GoodTurn(l, StreamTurn(l, left, childEnds, release), left, 0, id)
  {
    hide HoldsHot;
    if l.viewport.Some? && l.viewport.value.Streaming? && l.viewport.value.releasing.Some? {
      StreamReleaseGood(l, left, childEnds, release, id);
    }
  }

  lemma StreamEdgesGood(l: Lanes, retained: Option<Ack>, id: nat)
    requires Inv(l) && Fresh(l, retained)
    ensures GoodStep(l, StreamBegins(l), retained, 0, id)
    ensures GoodStep(l, FinishStream(l).lanes, retained, 0, id)
    ensures GoodStep(l, TakeUnavailable(l), retained, 0, id)
  {
    assert HoldsLeaves([], id) == 0;
    NothingNewStaysFresh(l, StreamBegins(l), retained);
    NothingNewStaysFresh(l, FinishStream(l).lanes, retained);
    NothingNewStaysFresh(l, TakeUnavailable(l), retained);
  }
}
