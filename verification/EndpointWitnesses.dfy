/**
 Runs from a new endpoint to the places where it does not meet the obvious promise:
 all of them start with one or two delivered documents.
 */
module EndpointWitnesses {
  import opened Engine
  import opened Candidate
  import opened CandidateTheorems
  import opened CandidateEdges
  import opened EndpointOps
  import opened EndpointTheorems
  import opened EndpointPolling
  import opened EndpointRuns
  import opened EndpointGuarantees
  import opened EndpointDelivery
  import P = StreamProtocol
  import G = RecursiveGreen
  import GT = RecursiveGreenTheorems
  import L = Lanes
  import LT = LanesTheorems
  import LP = LanePoll

  const Text: Source := Source(1, 1, 1, 1)

  function Edit(generation: nat): Context {
    Context(generation, generation, Text, Text, 1)
  }

  function AckOf(generation: nat): Ack {
    Ack(generation, generation, Text, 1)
  }

  const FirstDocument: Snapshot := Snapshot(Edit(1), Resource(11, 0), Resource(12, 0), None)
  const SecondDocument: Snapshot := Snapshot(Edit(2), Resource(21, 0), Resource(22, 0), Some(Restart(ExactBaseOnly, 2)))

  function SessionOf(id: nat): G.Session {
    G.Session(Resource(id, 0), Text, 1)
  }

  /** One document delivered: publication 12 retained, session 11 installed. */
  const One: Endpoint :=
    New.(retained := Some(Base(Resource(12, 0), AckOf(1), Some(Restart(ByRecursiveGreen, 1)))),
         green := G.Empty.(installed := Some(G.Installed(AckOf(1), SessionOf(11)))))

  /** A second one delivered: publication 12 and session 11 are on their way out. */
  const Two: Endpoint :=
    New.(retained := Some(Base(Resource(22, 0), AckOf(2), Some(Restart(ExactBaseOnly, 2)))),
         cleanup := Close(RetainedPublication, Resource(12, 0)),
         green := G.Slot(Some(G.Installed(AckOf(2), SessionOf(21))), None, [G.ReleaseSession(SessionOf(11), false)],
                         G.Receipt(0, 1), multiset{}))

  lemma FirstDelivery()
    ensures CanTake(New, FirstDocument) && AfterSnapshot(New, FirstDocument) == One
  {
  }

  lemma SecondDelivery()
    ensures CanTake(One, SecondDocument) && AfterSnapshot(One, SecondDocument) == Two
  {
  }

  /** Two deliveries in one run of a new endpoint. */
  lemma DeliveredDocumentsAreReachable()
    ensures Reachable(One) && Reachable(Two)
  {
    hide Reachable, CanTake, AfterSnapshot;
    NewIsReachable();
    FirstDelivery();
    DeliveryIsReachable(New, FirstDocument);
    SecondDelivery();
    DeliveryIsReachable(One, SecondDocument);
  }

  // ----------------------------------------------------------------- the failed fallback

  /** An incremental start whose exact clean fallback begins or not. */
  function StartReply(fallbackOk: bool, adoption: Option<Resource>): IncrementalReply {
    IncrementalReply(true, true, false, false, CropStarted, fallbackOk, G.StartReply(true, true, adoption))
  }

  /**
   Starting over a pending cleanup can lose it: after two deliveries publication
   12 is still being released; a failed fallback leaves it owned by nobody.
   */
  lemma FailedFallbackDropsCleanup()
    ensures Reachable(Two) && Overwrites(Two, Edit(3), StartReply(false, None))
    ensures Fate(Two, 12) == 1
    ensures Fate(StartIncremental(Two, Edit(3), StartReply(false, None)).endpoint, 12) == 0
  {
    hide Reachable;
    DeliveredDocumentsAreReachable();
    assert GT.HoldsQueue([], 12) == 0;
    var q := Two.green.cleanup;
    assert q[1..] == [];
  }

  /** An edit over that cleanup cannot be cancelled while it is pending. */
  lemma CancelCanFail()
    ensures var m := StartIncremental(Two, Edit(3), StartReply(true, None));
      Reachable(m.endpoint) && m.outcome.Ok? && Cancel(m.endpoint).outcome == Err(InvalidState)
  {
    DeliveredDocumentsAreReachable();
    hide Reachable;
    ReachableNext(Two, OpStartIncremental(Edit(3), StartReply(true, None)));
  }

  // --------------------------------------------------------------------- the failed seal

  const Open: Endpoint := Streams(New, FirstDocument, false, P.NeedPacket)

  function Unsealed(phase: P.StreamPhase, unsent: Option<UnsentEnd>): Endpoint {
    New.(active := Some(Publishing(StreamOf(New, FirstDocument, false, phase).(unsent := unsent))), green := ReadySlot(New, FirstDocument))
  }

  const Kept: Endpoint := Unsealed(P.NeedPacket, Some(UnsentEnd(0, 1)))

  lemma SealFails()
    ensures Legal(Open, OpPoll(1, Ask(G.TargetFailed, [EndPacket(0, 0, 1, SealFailed, Resource(12, 0))])))
    ensures Apply(Open, OpPoll(1, Ask(G.TargetFailed, [EndPacket(0, 0, 1, SealFailed, Resource(12, 0))]))) == Applied(Kept, false)
  {
    hide LegalPollCleanup, PollCleanup, LP.LegalPoll, LP.Poll, AdvanceLoop, LegalLoop;
    LoopReturns(Open, 1, EndPacket(0, 0, 1, SealFailed, Resource(12, 0)), Kept, PollError(EngineFailure));
  }

  lemma EndIsStillSent()
    ensures Legal(Kept, OpPoll(1, Ask(G.TargetFailed, [ActiveReply.Failed])))
    ensures Apply(Kept, OpPoll(1, Ask(G.TargetFailed, [ActiveReply.Failed])))
         == Applied(Unsealed(P.AwaitPacketReceipt(0, 1, true), None), true)
  {
    hide LegalPollCleanup, PollCleanup, LP.LegalPoll, LP.Poll, AdvanceLoop, LegalLoop;
    LoopReturns(Kept, 1, ActiveReply.Failed, Unsealed(P.AwaitPacketReceipt(0, 1, true), None), Event(0));
  }

  lemma EndIsCredited()
    ensures Apply(Unsealed(P.AwaitPacketReceipt(0, 1, true), None), OpCredit(P.PacketCredit(0, 1, true), 0, true)).endpoint
         == Unsealed(P.AwaitPacketHost(0, 1, true), None)
    ensures Apply(Unsealed(P.AwaitPacketHost(0, 1, true), None),
                  OpHostPoll(0, true, P.HostPacketCredit, P.PacketCredited(0, 1), true)).endpoint
         == Unsealed(P.NeedCommit, None)
  {
    hide Cancel;
  }

  /** A stream whose seal failed sends and has credited its End packet, and is stuck before the commit. */
  lemma FailedSealReachesNeedCommit()
    ensures Reachable(Unsealed(P.NeedCommit, None))
    ensures Unsealed(P.NeedCommit, None).active.value.streaming.sealed.None?
    ensures AdvanceActive(Unsealed(P.NeedCommit, None), 1, ActiveReply.Failed)
         == Return(Unsealed(P.NeedCommit, None), PollError(InvalidState))
  {
    hide Reachable, Legal, Apply;
    var receipt, host := Unsealed(P.AwaitPacketReceipt(0, 1, true), None), Unsealed(P.AwaitPacketHost(0, 1, true), None);
    NewIsReachable();
    FirstDelivery();
    DeliveryIsReachable(New, FirstDocument);
    SealFails();
    ReachableNext(Open, OpPoll(1, Ask(G.TargetFailed, [EndPacket(0, 0, 1, SealFailed, Resource(12, 0))])));
    EndIsStillSent();
    ReachableNext(Kept, OpPoll(1, Ask(G.TargetFailed, [ActiveReply.Failed])));
    EndIsCredited();
    OnlyPollsAskTheEngine(receipt, OpCredit(P.PacketCredit(0, 1, true), 0, true));
    ReachableNext(receipt, OpCredit(P.PacketCredit(0, 1, true), 0, true));
    OnlyPollsAskTheEngine(host, OpHostPoll(0, true, P.HostPacketCredit, P.PacketCredited(0, 1), true));
    ReachableNext(host, OpHostPoll(0, true, P.HostPacketCredit, P.PacketCredited(0, 1), true));
  }

  // ---------------------------------------------------------- the replacing splice

  /** An edit of the first document waits for an adoption of its session (resource 31). */
  const Waiting: Endpoint :=
    One.(retained := None, active := Some(AwaitingGreen(Edit(2), One.retained.value)),
         green := G.Empty.(pending := Some(G.Adoption(AckOf(1), G.AdoptionJob(Resource(31, 0), SessionOf(11), G.Target(Text, 1))))))

  const Adopted: Endpoint :=
    Waiting.(green := G.Empty.(pending := Some(G.ReadyUpdate(AckOf(1), SessionOf(31), SessionOf(11)))))

  /** The adopted update takes the edit over, replacing references, with writer 32. */
  const Splicing: Endpoint :=
    Adopted.(active := Some(BuildingExact(Edit(2), Resource(32, 0), One.retained.value, Restart(ByRecursiveGreen, 2), GreenSplice, Replace)))

  const TakeOver: PollReply :=
    Ask(G.TargetFailed, []).(preempt := PreemptReply(true, true, Ok(Replace), Some(Resource(32, 0))))

  lemma EditIsAdopted()
    ensures Apply(One, OpStartIncremental(Edit(2), StartReply(true, Some(Resource(31, 0))))) == Applied(Waiting, true)
    ensures Legal(Waiting, OpPoll(1, Ask(TargetStep(G.Complete, Resource(31, 0)), [])))
    ensures Apply(Waiting, OpPoll(1, Ask(TargetStep(G.Complete, Resource(31, 0)), []))) == Applied(Adopted, true)
  {
    hide LegalPollCleanup, PollCleanup, LP.LegalPoll, LP.Poll, AdvanceLoop, LegalLoop, PollActive;
  }

  lemma UpdateTakesOver()
    ensures Legal(Adopted, OpPoll(1, TakeOver)) && Apply(Adopted, OpPoll(1, TakeOver)) == Applied(Splicing, true)
  {
    hide LegalPollCleanup, PollCleanup, LP.LegalPoll, LP.Poll;
  }

  /** A reachable replacing splice; without a segment it closes its base, with one it goes on. */
  lemma ReplacementCanLoseBase()
    ensures Reachable(Splicing) && OwedBase(Splicing) == One.retained
    ensures var none := Done(0, true, Resource(32, 0), None, false, false, Published, 0, false);
      OwedBase(AdvanceActive(Splicing, 1, none).endpoint).None? && AdvanceActive(Splicing, 1, none.(segments := 1)).Again?
  {
    hide Reachable, Legal, Apply;
    DeliveredDocumentsAreReachable();
    EditIsAdopted();
    OnlyPollsAskTheEngine(One, OpStartIncremental(Edit(2), StartReply(true, Some(Resource(31, 0)))));
    ReachableNext(One, OpStartIncremental(Edit(2), StartReply(true, Some(Resource(31, 0)))));
    ReachableNext(Waiting, OpPoll(1, Ask(TargetStep(G.Complete, Resource(31, 0)), [])));
    UpdateTakesOver();
    ReachableNext(Adopted, OpPoll(1, TakeOver));
  }

  // -------------------------------------------------------------- the legacy delta

  const Releases: CleanupReply := CleanupReply(Progress(0), Progress(0), true, [], [])

  /** The second document with everything of the first released. */
  const Settled: Endpoint :=
    Two.(cleanup := None, released := multiset{12}, green := Two.green.(cleanup := [], released := multiset{11}))

  const HalfSettled: Endpoint := Two.(green := Settled.green)

  lemma SecondDocumentSettles()
    ensures Legal(Two, OpPollCleanup(2, Releases)) && Apply(Two, OpPollCleanup(2, Releases)).endpoint == HalfSettled
    ensures Legal(HalfSettled, OpPollCleanup(2, Releases)) && Apply(HalfSettled, OpPollCleanup(2, Releases)).endpoint == Settled
  {
    hide LegalLanes, PollLaneCleanup;
    assert Two.green.cleanup[1..] == [];
  }

  lemma SettledIsReachable()
    ensures Reachable(Settled)
  {
    hide Reachable, Legal, Apply;
    DeliveredDocumentsAreReachable();
    SecondDocumentSettles();
    ReachableNext(Two, OpPollCleanup(2, Releases));
    ReachableNext(HalfSettled, OpPollCleanup(2, Releases));
  }

  /** An edit of the settled document that is cancelled at once leaves the endpoint exactly as it was. */
  lemma SomeEditIsCancelled()
    ensures var m := StartIncremental(Settled, Edit(3), StartReply(true, None));
      && Reachable(Settled) && m.outcome.Ok? && m.endpoint.retained.None? && m.endpoint.green.installed.None?
      && Cancel(m.endpoint) == Result(Settled, Ok(()))
  {
    SettledIsReachable();
    hide Reachable;
  }

  /** An edit with an adoption (resource 41) was cancelled: its base is retained, its session waits in the queue. */
  const Queued: Endpoint :=
    Settled.(green := Settled.green.(installed := None, cleanup :=
      [G.CancelAdoption(G.AdoptionJob(Resource(41, 0), SessionOf(21), G.Target(Text, 1)), AckOf(2), false)]))

  const Editing: Endpoint :=
    Settled.(retained := None, active := Some(ParsingExactFallback(Edit(3), Settled.retained.value)),
             green := Settled.green.(installed := None, pending := Some(
               G.Adoption(AckOf(2), G.AdoptionJob(Resource(41, 0), SessionOf(21), G.Target(Text, 1))))))

  /** A second edit starts while the slot is busy. */
  const Legacy: Endpoint := Queued.(retained := None, active := Some(ParsingExactFallback(Edit(3), Settled.retained.value)))

  lemma SlotIsBusy()
    ensures Apply(Settled, OpStartIncremental(Edit(3), StartReply(true, Some(Resource(41, 0))))) == Applied(Editing, true)
    ensures Apply(Editing, OpCancel) == Applied(Queued, true)
    ensures Apply(Queued, OpStartIncremental(Edit(3), StartReply(true, None))) == Applied(Legacy, false)
  {
  }

  const Restarted: Restart := Restart(Ordinary, 3)

  function BuildingLegacy(): Endpoint {
    Legacy.(active := Some(BuildingExact(Edit(3), Resource(42, 0), Settled.retained.value, Restarted, LegacyBlocks, Reuse)))
  }

  function StreamingLegacy(phase: P.StreamPhase): Endpoint {
    Legacy.(active := Some(Publishing(Streaming(Some(Stream(Resource(42, 0), Some(Resource(22, 0)))), None, ExactBaseDelta, Edit(3), phase,
                                                None, Some(Restarted), None,
                                                Some(Recovery(AckOf(2), Restart(ExactBaseOnly, 2))), false, None))))
  }

  const Spliced: ActiveReply := Done(0, true, Resource(42, 0), Some(Restarted), false, true, Published, 1, false)

  lemma LegacyPoll()
    ensures var op := OpPoll(1, Ask(G.TargetFailed, [Spliced, Spliced, Spliced]));
      Legal(Legacy, op) && Apply(Legacy, op) == Applied(StreamingLegacy(P.AwaitBeginReceipt), true)
  {
    hide LegalPollCleanup, PollCleanup, LP.LegalPoll, LP.Poll, AdvanceLoop, LegalLoop;
    LoopSteps(Legacy, 1, [Spliced, Spliced, Spliced], BuildingLegacy(), StreamingLegacy(P.NeedBegin),
              StreamingLegacy(P.AwaitBeginReceipt));
  }

  /** So a legacy-block delta does stream: while a cancelled adoption still has to give the slot's session back. */
  lemma LegacyDeltaCanStream()
    ensures Reachable(StreamingLegacy(P.AwaitBeginReceipt))
    ensures !G.OwnsBaseAuthority(Legacy.green, AckOf(2)) && GT.QueueBase(Legacy.green.cleanup).Some?
  {
    hide Reachable, Legal, Apply;
    SettledIsReachable();
    SlotIsBusy();
    OnlyPollsAskTheEngine(Settled, OpStartIncremental(Edit(3), StartReply(true, Some(Resource(41, 0)))));
    ReachableNext(Settled, OpStartIncremental(Edit(3), StartReply(true, Some(Resource(41, 0)))));
    OnlyPollsAskTheEngine(Editing, OpCancel);
    ReachableNext(Editing, OpCancel);
    OnlyPollsAskTheEngine(Queued, OpStartIncremental(Edit(3), StartReply(true, None)));
    ReachableNext(Queued, OpStartIncremental(Edit(3), StartReply(true, None)));
    LegacyPoll();
    ReachableNext(Legacy, OpPoll(1, Ask(G.TargetFailed, [Spliced, Spliced, Spliced])));
  }

  // ------------------------------------------------------------------- the rolling plan

  const Planned: PrepareReply := PrepareReply(true, false, Some(7))

  const RollingStart: IncrementalReply := StartReply(true, None).(bulletMatches := true, bulletJob := true)

  /** A prepared list plan carries the next edit into the local list phase. */
  lemma LocalListPhaseIsReachable()
    ensures var e := StartIncremental(Settled.(bullet := Some(7)), Edit(3), RollingStart).endpoint;
      Reachable(e) && e.active == Some(ParsingBulletLocal(Edit(3), 7, Settled.retained.value))
  {
    SettledIsReachable();
    hide Reachable;
    ReachableNext(Settled, OpPrepareBullet(Planned));
    ReachableNext(Settled.(bullet := Some(7)), OpStartIncremental(Edit(3), RollingStart));
  }
}
