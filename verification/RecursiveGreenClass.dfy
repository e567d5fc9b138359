/**
 The recursive-Green slot as the endpoint holds it: fields updated in place,
 each method proved against the function of the same name in RecursiveGreen.
 */
module RecursiveGreenObject {
  import opened Engine
  import opened RecursiveGreen

  class RecursiveGreenEndpointSlot {
    var installed: Option<Installed>
    var pending: Option<Pending>
    var cleanup: seq<Cleanup>
    var receipt: Receipt
    ghost var released: multiset<nat>

    ghost function View(): Slot
      reads this
    {
      Slot(installed, pending, cleanup, receipt, released)
    }

    constructor ()
      ensures View() == Empty
    {
      installed := None;
      pending := None;
      cleanup := [];
      receipt := Receipt(0, 0);
      released := multiset{};
    }

    method TakeInstalled() returns (taken: Option<Installed>)
      modifies this`installed
      ensures taken == old(installed) && installed == None
    {
      taken := installed;
      installed := None;
    }

    method StartClean(target: Target) returns (r: Outcome<nat>)
      modifies this
      ensures Step(View(), r) == RecursiveGreen.StartClean(old(View()), target)
    {
      if pending.Some? || (cleanup != [] && installed.None?) {
        return Err(Busy);
      }
      var origin := if installed.Some? then IncrementalFallback else Initial;
      var base := TakeInstalled();
      pending := Some(CleanPlan(Some(target), base, origin));
      return Ok(0);
    }

    method StartIncremental(baseAck: Ack, target: Target, reply: StartReply) returns (r: Outcome<nat>)
      modifies this
      ensures Step(View(), r) == RecursiveGreen.StartIncremental(old(View()), baseAck, target, reply)
    {
      if pending.Some? || (cleanup != [] && installed.None?) {
        return Err(Busy);
      }
      if installed.None? {
        if !reply.planOk {
          return Err(EngineFailure);
        }
        pending := Some(CleanPlan(Some(target), None, IncrementalFallback));
        return Ok(0);
      }
      if installed.value.ack != baseAck
         || installed.value.session.source.revision != baseAck.source.revision
         || installed.value.session.profile != target.profile
      {
        if !reply.planOk {
          return Err(EngineFailure);
        }
        var mismatched := TakeInstalled();
        pending := Some(CleanPlan(Some(target), mismatched, IncrementalFallback));
        return Ok(0);
      }
      if !reply.leaseOk {
        return Err(EngineFailure);
      }
      var base := TakeInstalled();
      if reply.adoption.Some? {
        pending := Some(Adoption(baseAck, AdoptionJob(reply.adoption.value, base.value.session, target)));
      } else {
        // Adoption declined and gave its base session back.
        var returned := Installed(baseAck, base.value.session);
        if !reply.planOk {
          installed := Some(returned);
          return Err(EngineFailure);
        }
        pending := Some(CleanPlan(Some(target), Some(returned), IncrementalFallback));
      }
      return Ok(0);
    }

    method PollTarget(fuel: nat, reply: TargetReply) returns (r: Outcome<nat>)
      modifies this
      ensures Step(View(), r) == RecursiveGreen.PollTarget(old(View()), fuel, reply)
    {
      if fuel == 0 || !(pending.Some? && !pending.value.ReadyClean? && !pending.value.ReadyUpdate?) {
        return Ok(0);
      }
      match pending.value {
      case CleanPlan(plan, base, origin) =>
        if plan.None? {
          return Err(InvalidState);
        }
        if reply.TargetFailed? {
          pending := Some(CleanPlan(None, base, origin));
          return Err(EngineFailure);
        }
        pending := Some(CleanBuild(Build(reply.handle, plan.value), base, origin));
        return Ok(1);
      case CleanBuild(build, base, origin) =>
        if reply.TargetFailed? {
          return Err(EngineFailure);
        }
        if reply.status == Complete {
          var target := Session(reply.handle, build.target.source, build.target.profile);
          pending := Some(ReadyClean(target, base, origin));
        } else {
          pending := Some(CleanBuild(build.(handle := reply.handle), base, origin));
        }
        return Ok(reply.spent);
      case Adoption(_, _) =>
        r := PollAdoption(reply);
      case CancellingAdoption(_, _, _) =>
        r := PollFallbackCancel(fuel, reply);
      }
    }

    method PollAdoption(reply: TargetReply) returns (r: Outcome<nat>)
      requires pending.Some? && pending.value.Adoption?
      modifies this
      ensures Step(View(), r)
           == RecursiveGreen.PollAdoption(old(View()), old(pending.value.baseAck), old(pending.value.adoption), reply)
    {
      if reply.TargetFailed? {
        return Err(EngineFailure);
      }
      var Adoption(ack, job) := pending.value;
      pending := Some(Adoption(ack, job.(handle := reply.handle)));
      match reply.status {
      case More =>
      case Complete =>
        pending := Some(ReadyUpdate(ack, Session(reply.handle, job.target.source, job.target.profile), job.base));
      case FallbackRequired =>
        pending := Some(CancellingAdoption(ack, job.(handle := reply.handle), false));
      case Cancelled =>
        return Err(InvalidState);
      }
      return Ok(reply.spent);
    }

    method PollFallbackCancel(fuel: nat, reply: TargetReply) returns (r: Outcome<nat>)
      requires pending.Some? && pending.value.CancellingAdoption?
      modifies this
      ensures Step(View(), r)
           == RecursiveGreen.PollFallbackCancel(old(View()), old(pending.value.baseAck),
                                                old(pending.value.adoption), old(pending.value.begun), fuel, reply)
    {
      if reply.TargetFailed? {
        return Err(EngineFailure);
      }
      var CancellingAdoption(ack, job, begun) := pending.value;
      if !begun {
        if reply.release == Failed(true) {
          return Err(EngineFailure);
        }
        pending := Some(CancellingAdoption(ack, job, true));
        if fuel == 1 {
          return Ok(1);
        }
      }
      if reply.release.Failed? {
        pending := Some(CancellingAdoption(ack, job, true));
        return Err(EngineFailure);
      }
      var left := WorkLeft(job.handle, reply.release);
      pending := Some(CancellingAdoption(ack, job.(handle := job.handle.(work := left)), true));
      if left == 0 {
        if reply.planSource.None? {
          return Err(EngineFailure);
        }
        released := released + multiset{job.handle.id};
        pending := Some(CleanPlan(Some(Target(reply.planSource.value, ack.profile)),
                                  Some(Installed(ack, job.base)), IncrementalFallback));
      }
      return Ok(fuel);
    }

    method CommitDelivery(ack: Ack) returns (r: Outcome<nat>)
      modifies this
      ensures Step(View(), r) == RecursiveGreen.CommitDelivery(old(View()), ack)
    {
      if !(pending.Some? && (pending.value.ReadyClean? || pending.value.ReadyUpdate?) && Matches(pending.value.target, ack))
         || installed.Some?
      {
        return Err(InvalidAuthority);
      }
      var ready := pending.value;
      match ready {
      case ReadyUpdate(baseAck, target, base) =>
        if baseAck.hostRevision >= ack.hostRevision {
          return Err(InvalidAuthority);
        }
        cleanup := cleanup + [ReleaseSession(base, false)];
        receipt := receipt.(localAdoptions := SaturatingIncrement(receipt.localAdoptions));
      case ReadyClean(target, base, origin) =>
        if base.Some? {
          cleanup := cleanup + [ReleaseSession(base.value.session, false)];
        }
        if origin == IncrementalFallback {
          receipt := receipt.(cleanFallbacks := SaturatingIncrement(receipt.cleanFallbacks));
        }
      }
      pending := None;
      installed := Some(Installed(ack, ready.target));
      return Ok(0);
    }

    method RequestCancelPending()
      modifies this
      ensures View() == RequestCancel(old(View()))
    {
      if pending.None? {
        return;
      }
      var taken := pending.value;
      pending := None;
      match taken
      case CleanPlan(_, base, _) =>
        installed := base;
      case CleanBuild(build, base, _) =>
        cleanup := cleanup + [CancelBuild(build, base, false)];
      case Adoption(ack, job) =>
        cleanup := cleanup + [CancelAdoption(job, ack, false)];
      case CancellingAdoption(ack, job, begun) =>
        cleanup := cleanup + [CancelAdoption(job, ack, begun)];
      case ReadyClean(target, base, _) =>
        installed := base;
        cleanup := cleanup + [ReleaseSession(target, false)];
      case ReadyUpdate(ack, target, base) =>
        installed := Some(Installed(ack, base));
        cleanup := cleanup + [ReleaseSession(target, false)];
    }

    method BeginClose()
      modifies this
      ensures View() == RecursiveGreen.BeginClose(old(View()))
    {
      RequestCancelPending();
      if installed.Some? {
        cleanup := cleanup + [ReleaseSession(installed.value.session, false)];
        installed := None;
      }
    }

    method PollCleanup(fuel: nat, reply: ReleaseReply) returns (r: Outcome<nat>)
      modifies this
      ensures Step(View(), r) == RecursiveGreen.PollCleanup(old(View()), fuel, reply)
    {
      if fuel == 0 || cleanup == [] {
        return Ok(0);
      }
      if !cleanup[0].begun {
        if reply == Failed(true) {
          return Err(EngineFailure);
        }
        cleanup := cleanup[0 := cleanup[0].(begun := true)];
        if fuel == 1 {
          return Ok(1);
        }
      }
      if reply.Failed? {
        assert cleanup == cleanup[0 := cleanup[0].(begun := true)];
        return Err(EngineFailure);
      }
      var head := cleanup[0];
      var left := WorkLeft(Handle(head), reply);
      cleanup := cleanup[0 := WithWork(head, left)];
      if left == 0 {
        match head {
        case ReleaseSession(_, _) =>
        case CancelBuild(_, restore, _) =>
          if installed.Some? && restore.Some? {
            return Err(InvalidState);
          }
          if restore.Some? {
            installed := restore;
          }
        case CancelAdoption(job, ack, _) =>
          if installed.Some? {
            return Err(InvalidState);
          }
          installed := Some(Installed(ack, job.base));
        }
        cleanup := cleanup[1..];
        released := released + multiset{Handle(head).id};
      }
      return Ok(fuel);
    }
  }
}
