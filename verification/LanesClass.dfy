/**
 The inline lanes as the endpoint holds them: fields taken and replaced inside
 fuel loops. Each method is proved against the function of the same name in Lanes.
 */
module LanesObject {
  import opened Engine
  import opened Lanes
  import Spec = Lanes
  import LT = LanesTheorems

  class InlineLanes {
    var viewport: Option<ViewState>
    var unavailable: Option<nat>
    var lastViewport: nat
    var hot: Option<HotState>
    var sidecar: Option<Sidecar>
    var lastHot: nat
    ghost var released: multiset<nat>
    ghost var published: seq<nat>

    ghost function View(): Lanes
      reads this
    {
      Lanes(viewport, unavailable, lastViewport, hot, sidecar, lastHot, released, published)
    }

    constructor ()
      ensures View() == Idle
    {
      viewport, unavailable, lastViewport := None, None, 0;
      hot, sidecar, lastHot := None, None, 0;
      released, published := multiset{}, [];
    }

    // ---------------------------------------------------------------- cancellation

    method CancelViewport()
      modifies this`viewport
      ensures View() == Spec.CancelViewport(old(View()))
    {
      if viewport.Some? {
        viewport := Some(Draining(IntoCleanup(viewport.value).(replacement := None)));
      }
    }

    method CancelSidecar()
      modifies this`sidecar, this`hot
      ensures View() == Spec.CancelSidecar(old(View()))
    {
      if sidecar.Some? {
        var root := sidecar.value.root;
        sidecar := None;
        if root.Some? {
          hot := Some(Releasing(root.value, false, None));
        }
      }
    }

    method CancelAll()
      modifies this`unavailable, this`viewport, this`sidecar, this`hot
      ensures View() == Spec.CancelAll(old(View()))
      ensures LT.Inv(old(View())) ==>
        && LT.Inv(View()) && LT.Quiet(View()) && LT.NothingNew(old(View()), View())
        && forall id: nat :: LT.Fate(View(), id) == LT.Fate(old(View()), id)
    {
      hide LT.Inv, LT.Quiet, LT.NothingNew, LT.Fate;
      ghost var before := View();
      forall id: nat | LT.Inv(before)
        ensures LT.Fate(Spec.CancelAll(before), id) == LT.Fate(before, id)
      {
        LT.CancelAllQuiets(before, id);
      }
      if LT.Inv(before) {
        LT.CancelAllQuiets(before, 0);
      }
      unavailable := None;
      CancelViewport();
      CancelSidecar();
      if hot.Some? {
        match hot.value {
        case Awaiting(_) => hot := None;
        case Running(_, _, job, _) => hot := Some(Cancelling(job, false, None));
        case Ready(_, _, root, _) => hot := if root.Some? then Some(Releasing(root.value, false, None)) else None;
        case Cancelling(job, begun, _) => hot := Some(Cancelling(job, begun, None));
        case Releasing(root, begun, _) => hot := Some(Releasing(root, begun, None));
        }
      }
    }

    // -------------------------------------------------------------------- requests

    method StageInto(d: Demand, start: Option<Resource>) returns (r: Outcome<nat>)
      modifies this`hot
      ensures LaneStep(View(), r) == Spec.StageInto(old(View()), d, start)
    {
      if d.kind.Direct? && start.None? {
        hot := None;
        return Err(EngineFailure);
      }
      hot := Some(match d.kind
                  case NeedsResolver => Awaiting(d)
                  case Unsupported => Ready(d.command, d.identity, None, d.command.baseAck)
                  case Direct => Running(d.command, d.identity, start.value, d.command.baseAck));
      return Ok(0);
    }

    /** Latest wins: the same leaf keeps its work, another leaf replaces it after a drain. */
    method InstallLatest(d: Demand, start: Option<Resource>) returns (r: Outcome<nat>)
      modifies this`hot
      ensures LaneStep(View(), r) == Spec.InstallLatest(old(View()), d, start)
    {
      if hot.None? {
        r := StageInto(d, start);
        return;
      }
      match hot.value {
      case Awaiting(current) =>
        if current.identity == d.identity {
          hot := Some(Awaiting(d));
        } else {
          r := StageInto(d, start);
          return;
        }
      case Running(_, identity, job, origin) =>
        hot := Some(if identity == d.identity then Running(d.command, identity, job, origin) else Cancelling(job, false, Some(d)));
      case Ready(_, identity, root, origin) =>
        if identity == d.identity {
          hot := Some(Ready(d.command, identity, root, origin));
        } else if root.Some? {
          hot := Some(Releasing(root.value, false, Some(d)));
        } else {
          r := StageInto(d, start);
          return;
        }
      case Cancelling(job, begun, _) => hot := Some(Cancelling(job, begun, Some(d)));
      case Releasing(root, begun, _) => hot := Some(Releasing(root, begun, Some(d)));
      }
      return Ok(0);
    }

    method RequestHot(retained: Option<Ack>, d: Demand, start: Option<Resource>) returns (r: Outcome<nat>)
      modifies this
      ensures LaneStep(View(), r) == Spec.RequestHot(old(View()), retained, d, start)
      ensures LT.Inv(old(View())) && LT.Fresh(old(View()), retained) ==>
        && LT.Inv(View()) && LT.Fresh(View(), retained)
        && (r.Ok? ==> lastHot == d.command.generation > old(lastHot) && LT.LiveCommand(View()) == Some(d.command))
    {
      hide LT.Inv, LT.Fresh, LT.LiveCommand, LT.Fate;
      if LT.Inv(View()) && LT.Fresh(View(), retained) {
        LT.RequestHotGood(View(), retained, d, start, 0);
      }
      if viewport.Some? && viewport.value.Streaming? && viewport.value.begun {
        return Err(Busy);
      }
      if d.command.generation == 0 || d.command.generation <= lastHot {
        return Err(InvalidAuthority);
      }
      if retained.None? {
        return Err(InvalidState);
      }
      if retained.value != d.command.baseAck {
        return Err(InvalidAuthority);
      }
      CancelSidecar();
      if viewport.None? {
        unavailable := None;
        r := InstallLatest(d, start);
        if r.Err? {
          return;
        }
      } else {
        if hot.Some? {
          return Err(InvalidState);
        }
        unavailable := None;
        viewport := Some(Draining(IntoCleanup(viewport.value).(replacement := Some(d))));
      }
      lastHot := d.command.generation;
      return Ok(0);
    }

    // ----------------------------------------------------------------- hot polling

    method DrainHot(isJob: bool, held: Resource, begun: bool, replacement: Option<Demand>, left: nat, reply: HotReply)
      returns (t: Motion)
      requires left > 0 && hot == Some(DrainState(isJob, held, begun, replacement))
      modifies this`hot, this`released
      ensures Moved(View(), t) == HotDrain(old(View()), isJob, held, begun, replacement, left, reply)
    {
      if reply.HotFailed? || (!begun && reply.release == Failed(true)) {
        return Failure(EngineFailure);
      }
      hot := Some(DrainState(isJob, held, true, replacement));
      var spent := if begun then 0 else 1;
      if spent == left {
        return Return(spent);
      }
      if reply.release.Failed? {
        return Failure(EngineFailure);
      }
      spent := spent + reply.release.spent;
      if spent > left {
        return Failure(InvalidState);
      }
      var work := WorkLeft(held, reply.release);
      if work > 0 {
        hot := Some(DrainState(isJob, held.(work := work), true, replacement));
        return Return(spent);
      }
      released := released + multiset{held.id};
      if replacement.None? {
        hot := None;
        return Continue(spent);
      }
      var staged := StageInto(replacement.value, reply.start);
      return if staged.Err? then Failure(staged.error) else Continue(spent);
    }

    method TurnHot(left: nat, hasBase: bool, reply: HotReply) returns (t: Motion)
      requires left > 0
      modifies this`hot, this`released
      ensures Moved(View(), t) == HotTurn(old(View()), left, hasBase, reply)
    {
      if hot.None? || hot.value.Ready? {
        return Return(0);
      }
      match hot.value {
      case Awaiting(d) =>
        if !hasBase {
          return Failure(InvalidAuthority);
        }
        if reply.HotFailed? {
          return Failure(EngineFailure);
        }
        if reply.spent > left {
          return Failure(InvalidState);
        }
        if !reply.done || reply.spent == left {
          return Return(reply.spent);
        }
        if d.kind.Unsupported? {
          hot := Some(Ready(d.command, d.identity, None, d.command.baseAck));
        } else if reply.start.Some? {
          hot := Some(Running(d.command, d.identity, reply.start.value, d.command.baseAck));
        } else {
          hot := None;
          return Failure(EngineFailure);
        }
        return Continue(reply.spent + 1);
      case Running(command, identity, job, origin) =>
        if reply.HotFailed? {
          return Failure(EngineFailure);
        }
        if !reply.done {
          if reply.spent > left {
            return Failure(InvalidState);
          }
          hot := Some(Running(command, identity, reply.job, origin));
          return Return(reply.spent);
        }
        if reply.root.None? {
          released := released + multiset{job.id};
        }
        if !reply.valid {
          hot := if reply.root.Some? then Some(Releasing(reply.root.value, false, None)) else None;
          return Failure(InvalidAuthority);
        }
        hot := Some(Ready(command, identity, reply.root, origin));
        return Return(reply.spent);
      case Cancelling(job, begun, replacement) => t := DrainHot(true, job, begun, replacement, left, reply);
      case Releasing(root, begun, replacement) => t := DrainHot(false, root, begun, replacement, left, reply);
      }
    }

    /** `poll_hot_inline`: one engine answer per iteration of the fuel loop. */
    method PollHot(fuel: nat, hasBase: bool, replies: seq<HotReply>) returns (r: Outcome<nat>)
      modifies this`hot, this`released
      ensures LaneStep(View(), r) == Spec.PollHot(old(View()), fuel, hasBase, replies)
      ensures LT.Inv(old(View())) && LT.LegalHotLoop(old(View()), fuel, hasBase, replies) ==>
        forall id: nat :: LT.GoodPoll(old(View()), LaneStep(View(), r), fuel,
                                      LT.MintedHotLoop(old(View()), fuel, hasBase, replies, id), id)
    {
      hide HotTurn, LT.GoodPoll, LT.MintedHotLoop, LT.LegalHotLoop, LT.Inv;
      ghost var start := View();
      forall id: nat | LT.Inv(start) && LT.LegalHotLoop(start, fuel, hasBase, replies)
        ensures LT.GoodPoll(start, Spec.PollHot(start, fuel, hasBase, replies), fuel,
                            LT.MintedHotLoop(start, fuel, hasBase, replies, id), id)
      {
        LT.HotPollWithinGrant(start, fuel, hasBase, replies, id);
      }
      var transitions, i := 0, 0;
      while transitions < fuel && i < |replies|
        invariant i <= |replies|
        invariant Spec.PollHot(old(View()), fuel, hasBase, replies)
               == Ahead(transitions, Spec.PollHot(View(), if transitions < fuel then fuel - transitions else 0, hasBase, replies[i..]))
        decreases |replies| - i
      {
        ghost var before := View();
        var t := TurnHot(fuel - transitions, hasBase, replies[i]);
        assert Moved(View(), t) == HotTurn(before, fuel - transitions, hasBase, replies[i..][0]);
        assert replies[i..][1..] == replies[i + 1..];
        match t {
        case Failure(error) => return Err(error);
        case Return(spent) => return Ok(transitions + spent);
        case Continue(spent) =>
          transitions := transitions + spent;
          i := i + 1;
        }
      }
      return Ok(transitions);
    }

    // ------------------------------------------------------------- viewport polling

    method InstallUnavailable(b: Batch, spent: nat) returns (t: Motion)
      modifies this`viewport, this`unavailable
      ensures Moved(View(), t) == Unavailable(old(View()), b, spent)
    {
      if unavailable.Some? {
        viewport := None;
        return Failure(InvalidState);
      }
      unavailable := Some(b.command.generation);
      viewport := Some(Draining(BatchCleanup(b)));
      return Return(spent);
    }

    method RunBatch(batch: Batch, left: nat, hasBase: bool, reply: ViewReply) returns (t: Motion)
      requires left > 0
      modifies this`viewport, this`unavailable, this`released
      ensures Moved(View(), t) == ViewRunning(old(View()), batch, left, hasBase, reply)
    {
      var b, spent := batch, 0;
      if b.active.None? && b.pending == 0 {
        viewport := Some(BatchReady(b));
        return Return(0);
      }
      if b.active.None? && !b.resolver {
        if b.total > b.command.maximumTransitions {
          viewport := None;
          return Failure(InvalidState);
        }
        if b.total == b.command.maximumTransitions {
          t := InstallUnavailable(b, 1);
          return;
        }
        if !hasBase || !reply.resolverOk {
          viewport := None;
          return Failure(if hasBase then EngineFailure else InvalidState);
        }
        spent := reply.resolverSpent;
        b := b.(total := b.total + spent);
        if spent > left || b.total > b.command.maximumTransitions {
          viewport := Some(Draining(BatchCleanup(b)));
          return Failure(InvalidState);
        }
        if !reply.resolverReady {
          viewport := Some(BatchRunning(b));
          return Return(spent);
        }
        b := b.(resolver := true);
        if spent == left {
          viewport := Some(BatchRunning(b));
          return Return(spent);
        }
      }
      if b.active.None? {
        if b.total == b.command.maximumTransitions {
          t := InstallUnavailable(b, spent + 1);
          return;
        }
        b := b.(pending := b.pending - 1);
        if reply.start.None? {
          t := InstallUnavailable(b, spent + 1);
          return;
        }
        b := b.(active := reply.start);
      }
      t := RunLeaf(b, left, spent, reply);
    }

    method RunLeaf(batch: Batch, left: nat, before: nat, reply: ViewReply) returns (t: Motion)
      modifies this`viewport, this`unavailable, this`released
      ensures Moved(View(), t) == ViewPollJob(old(View()), batch, left, before, reply)
    {
      var b := batch;
      if b.total > b.command.maximumTransitions {
        viewport := None;
        return Failure(InvalidState);
      }
      if b.total == b.command.maximumTransitions || !reply.jobOk {
        t := InstallUnavailable(b, before + 1);
        return;
      }
      b := b.(total := b.total + reply.jobSpent);
      var spent := before + reply.jobSpent;
      if spent > left || b.total > b.command.maximumTransitions {
        viewport := Some(Draining(BatchCleanup(b)));
        return Failure(InvalidState);
      }
      if !reply.jobDone {
        viewport := Some(BatchRunning(b.(active := Some(reply.job))));
        return Return(spent);
      }
      if reply.root.None? && b.active.Some? {
        released := released + multiset{b.active.value.id};
      }
      b := b.(active := None, ready := b.ready + [reply.root]);
      if !reply.valid {
        viewport := Some(Draining(BatchCleanup(b)));
        return Failure(InvalidAuthority);
      }
      if reply.overLimit {
        t := InstallUnavailable(b, spent);
        return;
      }
      viewport := Some(if b.pending == 0 then BatchReady(b) else BatchRunning(b));
      return if b.pending == 0 then Return(spent) else Continue(spent);
    }

    /** Pops unsupported leaves at one transition each until fuel or leaves run out, or a root turns up. */
    method Pop(leaves: seq<Option<Resource>>, left: nat) returns (rest: seq<Option<Resource>>, spent: nat, root: Option<Resource>)
      ensures Popped(rest, spent, root) == PopLeaves(leaves, left)
    {
      rest, spent, root := leaves, 0, None;
      while spent < left && rest != [] && root.None?
        invariant spent <= left && |rest| <= |leaves|
        invariant root.None? ==> PopLeaves(leaves, left) == Later(spent, PopLeaves(rest, left - spent))
        invariant root.Some? ==> PopLeaves(leaves, left) == Popped(rest, spent, root)
        decreases |rest|, root.None?
      {
        var last := rest[|rest| - 1];
        rest := rest[..|rest| - 1];
        if last.Some? {
          root := last;
        } else {
          spent := spent + 1;
        }
      }
    }

    method DrainBatch(cleanup: ViewCleanup, left: nat, reply: ViewReply) returns (t: Motion)
      requires left > 0 && viewport == Some(Draining(cleanup))
      modifies this`viewport, this`hot, this`released
      ensures Moved(View(), t) == DrainJob(old(View()), cleanup, left, reply)
    {
      hide DrainRelease;
      var c, spent := cleanup, 0;
      if c.job.Some? {
        if !c.abortBegun {
          if reply.abort == Failed(true) {
            return Failure(EngineFailure);
          }
          c := c.(abortBegun := true);
          spent := 1;
          if spent == left {
            viewport := Some(Draining(c));
            return Return(spent);
          }
        }
        if reply.abort.Failed? {
          viewport := Some(Draining(c));
          return Failure(EngineFailure);
        }
        spent := spent + reply.abort.spent;
        var work := WorkLeft(c.job.value, reply.abort);
        if work > 0 {
          viewport := Some(Draining(c.(job := Some(c.job.value.(work := work)))));
          return Return(spent);
        }
        released := released + multiset{c.job.value.id};
        c := c.(job := None, abortBegun := false);
      }
      t := ReleaseCurrent(c, left, spent, reply);
    }

    method ReleaseCurrent(cleanup: ViewCleanup, left: nat, before: nat, reply: ViewReply) returns (t: Motion)
      modifies this`viewport, this`hot, this`released
      ensures Moved(View(), t) == DrainRelease(old(View()), cleanup, left, before, reply)
    {
      hide DrainChild;
      var c, spent := cleanup, before;
      if c.releasing.Some? {
        var r := c.releasing.value;
        var begun := Some(Draining(c.(releasing := Some(r.(begun := true)))));
        if !r.begun {
          if reply.release == Failed(true) {
            viewport := Some(Draining(c));
            return Failure(EngineFailure);
          }
          spent := spent + 1;
          if spent == left {
            viewport := begun;
            return Return(spent);
          }
        }
        if spent > left || reply.release.Failed? {
          viewport := begun;
          return Failure(if spent > left then Overdrawn else EngineFailure);
        }
        spent := spent + reply.release.spent;
        var work := WorkLeft(r.root, reply.release);
        if work > 0 {
          viewport := Some(Draining(c.(releasing := Some(RootRelease(r.root.(work := work), true)))));
          return Return(spent);
        }
        released := released + multiset{r.root.id};
        c := c.(releasing := None);
      }
      t := DropChild(c, left, spent, reply);
    }

    method DropChild(cleanup: ViewCleanup, left: nat, before: nat, reply: ViewReply) returns (t: Motion)
      modifies this`viewport, this`hot
      ensures Moved(View(), t) == DrainChild(old(View()), cleanup, left, before, reply)
    {
      hide DrainReady, PopLeaves;
      var c, spent := cleanup, before;
      if c.child.Some? {
        var root := c.child.value;
        c := c.(child := None);
        if root.Some? {
          viewport := Some(Draining(c.(releasing := Some(RootRelease(root.value, false)))));
          return Continue(spent);
        }
        spent := spent + 1;
      }
      if spent > left {
        viewport := Some(Draining(c));
        return Failure(Overdrawn);
      }
      var prepared, popped, first := Pop(c.prepared, left - spent);
      c := c.(prepared := prepared);
      spent := spent + popped;
      if first.Some? {
        viewport := Some(Draining(c.(releasing := Some(RootRelease(first.value, false)))));
        return Continue(spent);
      }
      t := DropReady(c, left, spent, reply);
    }

    method DropReady(cleanup: ViewCleanup, left: nat, before: nat, reply: ViewReply) returns (t: Motion)
      modifies this`viewport, this`hot
      ensures Moved(View(), t) == DrainReady(old(View()), cleanup, left, before, reply)
    {
      hide DrainFinish, PopLeaves;
      var c, spent := cleanup, before;
      if spent > left {
        viewport := Some(Draining(c));
        return Failure(Overdrawn);
      }
      var ready, more, second := Pop(c.ready, left - spent);
      c := c.(ready := ready);
      spent := spent + more;
      if second.Some? {
        viewport := Some(Draining(c.(releasing := Some(RootRelease(second.value, false)))));
        return Continue(spent);
      }
      if ready == [] && spent < left {
        t := FinishDrain(c, spent, reply);
        return;
      }
      viewport := Some(Draining(c));
      return Continue(spent);
    }

    method FinishDrain(c: ViewCleanup, spent: nat, reply: ViewReply) returns (t: Motion)
      modifies this`viewport, this`hot
      ensures Moved(View(), t) == DrainFinish(old(View()), c, spent, reply)
    {
      if c.prepared != [] || c.child.Some? {
        viewport := Some(Draining(c));
        return Failure(InvalidState);
      }
      viewport := None;
      if c.replacement.None? {
        return Return(spent);
      }
      if hot.Some? {
        return Failure(InvalidState);
      }
      var staged := StageInto(c.replacement.value, reply.start);
      return if staged.Err? then Failure(staged.error) else Return(spent);
    }

    method TurnViewport(left: nat, hasBase: bool, reply: ViewReply) returns (t: Motion)
      requires left > 0
      modifies this`viewport, this`unavailable, this`hot, this`released
      ensures Moved(View(), t) == ViewTurn(old(View()), left, hasBase, reply)
    {
      hide ViewRunning, DrainJob;
      if viewport.None? || viewport.value.BatchReady? || viewport.value.Streaming? {
        return Return(0);
      }
      match viewport.value {
      case BatchRunning(b) => t := RunBatch(b, left, hasBase, reply);
      case Draining(c) => t := DrainBatch(c, left, reply);
      }
    }

    /** `poll_viewport_inline_batch`. */
    method PollViewport(fuel: nat, hasBase: bool, replies: seq<ViewReply>) returns (r: Outcome<nat>)
      modifies this`viewport, this`unavailable, this`hot, this`released
      ensures LaneStep(View(), r) == Spec.PollViewport(old(View()), fuel, hasBase, replies)
      ensures LT.Inv(old(View())) && fuel > 0 && LT.LegalViewLoop(old(View()), fuel, hasBase, replies)
              && (old(viewport).Some? && LT.ViewBase(old(viewport).value).Some? ==> hasBase) ==>
        forall id: nat :: LT.GoodPoll(old(View()), LaneStep(View(), r), fuel,
                                      LT.MintedViewLoop(old(View()), fuel, hasBase, replies, id), id)
    {
      hide ViewTurn, LT.GoodPoll, LT.MintedViewLoop, LT.LegalViewLoop, LT.Inv, LT.ViewBase;
      ghost var start := View();
      forall id: nat | LT.Inv(start) && fuel > 0 && LT.LegalViewLoop(start, fuel, hasBase, replies)
                       && (start.viewport.Some? && LT.ViewBase(start.viewport.value).Some? ==> hasBase)
        ensures LT.GoodPoll(start, Spec.PollViewport(start, fuel, hasBase, replies), fuel,
                            LT.MintedViewLoop(start, fuel, hasBase, replies, id), id)
      {
        LT.ViewPollWithinGrant(start, fuel, hasBase, replies, id);
      }
      if fuel == 0 {
        return Err(InvalidState);
      }
      var noticed := unavailable.Some?;
      var transitions: nat, i := 0, 0;
      while transitions < fuel && i < |replies|
        invariant i <= |replies|
        invariant ViewLoop(old(View()), fuel, hasBase, replies)
               == Ahead(transitions, ViewLoop(View(), if transitions < fuel then fuel - transitions else 0, hasBase, replies[i..]))
        decreases |replies| - i
      {
        ghost var before := View();
        var t := TurnViewport(fuel - transitions, hasBase, replies[i]);
        assert Moved(View(), t) == ViewTurn(before, fuel - transitions, hasBase, replies[i..][0]);
        assert replies[i..][1..] == replies[i + 1..];
        if t.Failure? {
          return Err(t.error);
        }
        transitions := transitions + t.spent;
        i := i + 1;
        if t.Return? {
          break;
        }
      }
      assert ViewLoop(old(View()), fuel, hasBase, replies) == LaneStep(View(), Ok(transitions));
      if transitions == 0 && !noticed && unavailable.Some? {
        transitions := 1;
      }
      return Ok(transitions);
    }
  }

  function Later(spent: nat, p: Popped): Popped {
    p.(spent := spent + p.spent)
  }

  /** How one loop iteration leaves the object. */
  datatype Motion = Continue(spent: nat) | Return(spent: nat) | Failure(error: Error)

  function Moved(l: Lanes, t: Motion): Turn {
    match t
    case Continue(spent) => Turn(l, spent, true, None)
    case Return(spent) => Stop(l, spent)
    case Failure(error) => Fail(l, error)
  }

  /** A poll that had already spent `spent` before `step`. */
  function Ahead(spent: nat, step: LaneStep): LaneStep {
    if step.outcome.Err? then step else LaneStep(step.lanes, Ok(spent + step.outcome.value))
  }
}
