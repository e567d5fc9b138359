/**
 Where the endpoint does not meet the obvious promise, and exactly when: a delta
 that closes the base it should have kept, a legacy path that waits for a queued
 cleanup, and a cancel that fails over a pending cleanup. EndpointWitnesses has a
 run from a new endpoint to each of them.
 */
module EndpointFindings {
  import opened Engine
  import opened Candidate
  import opened CandidateTheorems
  import opened CandidateEdges
  import opened EndpointOps
  import opened EndpointTheorems
  import opened EndpointPolling
  import opened EndpointGuarantees
  import G = RecursiveGreen
  import GT = RecursiveGreenTheorems
  import L = Lanes
  import LT = LanesTheorems

  /**
   A reference-replacing recursive-Green delta that fails to take shape closes
   its base with the target instead of restoring it; it goes on if and only if
   the segment count is in the wire's range.
   */
  lemma ReplacementNeedsSegments(e: Endpoint, left: nat, reply: ActiveReply)
    requires Shape(e) && e.cleanup.None? && e.active.Some? && e.active.value.BuildingExact?
    requires e.active.value.path.GreenSplice? && e.active.value.transport.Replace?
    requires G.ReadyUpdateFor(e.green, e.active.value.base.ack, e.active.value.context.source)
    requires reply.Done? && reply.publish.Published?
    ensures AdvanceActive(e, left, reply).Again? <==> 0 < reply.segments <= MAX_SPLICE_SEGMENTS
    ensures OwedBase(AdvanceActive(e, left, reply).endpoint).Some? <==> 0 < reply.segments <= MAX_SPLICE_SEGMENTS
  {
    hide G.ReadyUpdateFor;
  }

  /**
   While the slot holds the base it agrees with - installed, or under pending
   work - an exact build on the legacy block path is refused and stays as it is. It
   goes on exactly when a queued cleanup still has to give that base back.
   */
  lemma LegacyDeltaRefusedIff(e: Endpoint, left: nat, reply: ActiveReply)
    requires Inv(e) && e.active.Some? && e.active.value.BuildingExact? && e.active.value.path.LegacyBlocks?
    ensures AdvanceActive(e, left, reply) == Return(e, PollError(InvalidState)) <==> GT.QueueBase(e.green.cleanup).None?
    ensures G.OwnsBaseAuthority(e.green, e.active.value.base.ack) <==> GT.QueueBase(e.green.cleanup).None?
  {
    BuildingIsOpen(e);
    assert OwedBase(e) == Some(e.active.value.base);
    SettledQueueRestoresNothing(e.green);
  }

  lemma SettledQueueRestoresNothing(s: G.Slot)
    requires GT.Single(s)
    ensures s.installed.Some? || s.pending.Some? ==> GT.QueueBase(s.cleanup).None?
  {
    if s.installed.Some? || s.pending.Some? {
      GT.IdleQueueHasNoBase(s.cleanup);
    }
  }

  lemma BuildingIsOpen(e: Endpoint)
    requires Shape(e) && e.active.Some? && e.active.value.BuildingExact?
    ensures e.cleanup.None? && !e.closing && e.retained.None?
  {
  }

  /** Cancel fails exactly when a candidate past plain parsing sits on a pending cleanup; the base stays owed. */
  lemma CancelFailsIff(e: Endpoint, id: nat)
    requires Inv(e)
    ensures Cancel(e).outcome.Err? <==> e.cleanup.Some? && e.active.Some? && !e.active.value.Parsing?
    ensures Fate(Cancel(e).endpoint, id) == Fate(e, id)
  {
    hide Cancel, Fate, Inv;
    InvParts(e);
    CandidateTheorems.CancelKeeps(e, id);
    CancelSteps(e, id);
  }

  /** Everything a run made the engine create has been released once nothing is owned any more. */
  lemma ClosedRunReleasesAll(ops: seq<Op>, id: nat)
    requires LegalRun(New, ops) && OwnsNothing(Run(New, ops))
    ensures Released(Run(New, ops), id) + DroppedRun(New, ops, id) == MintedRun(New, ops, id)
  {
    hide LegalRun, Run, MintedRun, DroppedRun, Fate, Released;
    NewInv();
    RunSteps(New, ops, id);
    NothingOwnedMeansReleased(Run(New, ops), id);
  }
}
