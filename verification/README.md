# Verified model of the v3 parser endpoint

This project models the parser endpoint of the native v3 Comrak bridge
(`legacy/native_v3_comrak_bridge`) in Dafny 4.11 and proves what the endpoint
promises over all of its runs. `dafny verify dfyconfig.toml` checks everything.

An edit takes the retained base publication and runs it through parsing, building
and streaming to a host over a credited packet protocol. It ends in a delivery,
which swaps the base, or in a cancel, which must give exactly that base back. Beside
it, a recursive-Green slot moves one authority session between three places, two
late-inline lanes preempt one another, and registries hand out generation-checked
handles for endpoints and hosts.

## How it is modelled

- The engine and parser crates are not part of this model. Their move-only objects
  are `Engine.Resource`s: an identity and an amount of release work. Every engine
  answer is a parameter of the operation that asks for it. The only assumptions
  about answers are the `Legal...` predicates: a poll spends at most its fuel and
  moves while work is left, a polled object stays itself, a cancelled job gives its
  base back, and an encoder or producer yields well-formed frames.
- Code that updates fields is a class whose methods are proved equal, field by
  field, to specification functions on values (`RecursiveGreenClass`,
  `LanesClass`, `CandidateClass`, `PacketClass`, `RegistryClass`, `ViewportClass`,
  `LineIndex`); the properties are proved about those functions and, through them,
  about the methods, whose contracts carry the endpoint's and the lanes' invariants as
  well. A loop over engine calls takes the answers as a sequence.
- A state may carry histories the code does not keep: completed releases, published
  generations, packets sent, handles issued. The code never reads them.
- Conservation is stated by counting: for every identity, owners plus completed
  releases equals creations.
- `Debt` measures in `RecursiveGreenTheorems`, `LanesClosing` and `EndpointClosing`
  bound how many cleanup polls a drain can still take. `EndpointDraining` shows that
  none of them fails unless the engine reports an error.

| files | part of the endpoint |
|---|---|
| `Engine`, `StreamProtocol` | shared values; phases, credits and host polls of a stream |
| `RecursiveGreen*` | the authority slot |
| `Lanes*`, `LanePoll` | hot-inline and viewport lanes |
| `Candidate*`, `Endpoint*` | the candidate transaction and the endpoint as a whole |
| `Packet*`, `StreamRefinement`, `StreamRuns` | packet builder and packet stream, and how it refines the candidate's stream over whole runs |
| `SlotTable`, `Registry*` | both registries, sequentially and interleaved |
| `Viewport*` | viewport stream accounting |
| `Splice`, `LineIndex`, `Ranges` | splice windows, line index, range normalization and escapes |

## What the proofs found

Each of the endpoint's cases below has a run from a new endpoint in
`EndpointWitnesses`.

- `start_incremental` accepts a new edit while a cleanup is pending. If its exact
  clean fallback then fails, the pending cleanup is overwritten and its owner is
  lost (`FailedFallbackDropsCleanup`); `StartIncrementalConservesIff` says exactly
  when.
- A recursive-Green splice that replaces references and has no segment, or more than
  the wire allows, closes its base together with the target
  (`ReplacementNeedsSegments`).
- Because slot and base always agree, an exact build on the legacy block path is
  refused by every poll while the slot holds its base, installed or under pending
  work. It streams exactly while a queued cleanup, such as a cancelled adoption, still
  has to give that base back (`LegacyDeltaRefusedIff`, `LegacyDeltaCanStream`).
- `cancel` fails exactly when a candidate past plain parsing was started over a
  pending cleanup (`CancelFailsIff`); by then the lanes and the slot's target have
  already been cancelled.
- If sealing at the End frame fails, the next poll still sends the End packet; the
  stream then stops at `NeedCommit` and can only be cancelled
  (`CommitOnlyWhenSealed`).
- The registry's headroom for recovery assumes that a recovery replaces a resident
  endpoint, which `create_recovery` does not ask. A recovery without one can take the
  room of another document (`RecoveryWithoutPredecessorTakesHeadroom`);
  `RecoveryFailsExactly` says when a recovery fails, and `RecoveryFindsRoom` what a
  caller can check beforehand.
- The registry's comment speaks of waiting for the endpoint lock; the code only tries
  it, and the model follows the code.

## Model

| member | source | states |
|---|---|---|
| `EndpointGuarantees.CancelledEditRestoresBase` | legacy/native_v3_comrak_bridge/src/v3_candidate_endpoint.rs:6829-7099 | an incremental start, any successful operations short of a delivery, a successful cancel and a complete drain leave exactly the publication, ack and restart authority the edit took, and the slot's session as before |
| `EndpointGuarantees.CancelThenDrainRestores` | legacy/native_v3_comrak_bridge/src/v3_candidate_endpoint.rs:7292-7346 | from any invariant state, a successful cancel and any complete drain retain exactly the base that was owed, also when it sat inside an exact stream or was split off at End; the drain is bounded |
| `EndpointGuarantees.CancelIsRollback` | legacy/native_v3_comrak_bridge/src/v3_candidate_endpoint.rs:6823-7099 | any successful run from idle to idle short of a delivery ends with the same retained base and the same installed session, and has released everything it made, once |
| `EndpointGuarantees.EachResourceHasOneFate` | legacy/native_v3_comrak_bridge/src/v3_candidate_endpoint.rs:1560-7829 | over every run, failures included, a resource minted once is owned in exactly one place or released exactly once, unless the one overwriting start dropped it |
| `EndpointDraining.CloseAlwaysDrains` | legacy/native_v3_comrak_bridge/src/v3_candidate_endpoint.rs:7668-7707 | with an engine that reports no error, begin_close succeeds in every invariant state, no cleanup poll fails, polling takes at most as many polls as the debt, and when none is pending nothing is owned |
| `EndpointDraining.CloseEndsOwningNothing` | legacy/native_v3_comrak_bridge/src/v3_candidate_endpoint.rs:7668-7683 | whatever error-free engine serves it, a close owns nothing after as many polls as its debt |
| `EndpointDraining.CancelAlwaysRestores` | legacy/native_v3_comrak_bridge/src/v3_candidate_endpoint.rs:6823-7346 | after a successful cancel in any invariant state, any error-free engine drains the endpoint to exactly the base that was owed and the slot's session |
| `EndpointDraining.CleanupPollSucceeds` | legacy/native_v3_comrak_bridge/src/v3_candidate_endpoint.rs:7101-7346 | a cleanup poll of a draining endpoint fails only with the engine: every defensive branch of slot, candidate, lanes and scheduling is dead |
| `EndpointDraining.EagerNeverFails` | legacy/native_v3_comrak_bridge/src/v3_candidate_endpoint.rs:7101-7346 | error-free engines within the contract exist: releasing as fast as fuel allows answers every draining endpoint |
| `EndpointGuarantees.DrainsWhenAllSucceed` | legacy/native_v3_comrak_bridge/src/v3_candidate_endpoint.rs:7668-7707 | begin_close succeeds in every invariant state; successful cleanup polls end within the debt, and when none is pending nothing is owned |
| `EndpointGuarantees.DrainIsBounded` | legacy/native_v3_comrak_bridge/src/v3_candidate_endpoint.rs:7101-7346 | however fuel is sliced, a drain takes no more polls than the debt it began with, and keeps the base owed when not closing |
| `EndpointGuarantees.AuthoritiesAgree` | legacy/native_v3_comrak_bridge/src/v3_candidate_endpoint.rs:7738-7829 | before closing, whenever a base is owed under an ack, the slot's single authority carries that ack |
| `EndpointGuarantees.LanesNeverStale` | legacy/native_v3_comrak_bridge/src/v3_candidate_endpoint.rs:2852-2909 | in every reachable state at most one lane is occupied, every live demand and sidecar has the latest accepted generation and the retained ack, the job or root behind it was created under that very ack although reuse compares leaves only, and published generations strictly increase |
| `EndpointGuarantees.CommitOnlyWhenSealed` | legacy/native_v3_comrak_bridge/src/v3_candidate_endpoint.rs:6336-6380 | commit and delivery phases exist only for a sealed target with the expected ack; a stream whose seal failed never gets past NeedCommit |
| `EndpointGuarantees.OpSteps` | legacy/native_v3_comrak_bridge/src/v3_candidate_endpoint.rs:1560-7829 | every public operation, rolling-plan preparation and the lane cancel included, failed or not, keeps the invariant, the fate of every resource and (on success) both bases |
| `EndpointGuarantees.RunSteps` | legacy/native_v3_comrak_bridge/src/v3_candidate_endpoint.rs:1560-7829 | the same over whole runs |
| `EndpointCredits.DeliveryFollowsExactAck` | legacy/native_v3_comrak_bridge/src/v3_candidate_endpoint.rs:6708-6795 | over every operation, a stream becomes deliverable only through a host poll for its own ticket that commits exactly the expected ack |
| `EndpointCredits.HostPollConfirms` | legacy/native_v3_comrak_bridge/src/v3_candidate_endpoint.rs:6708-6795 | a host poll confirms only in AwaitCommitHost, for the same ticket and offer, with the expected ack |
| `EndpointRuns.PollStaysWithinFuel` | legacy/native_v3_comrak_bridge/src/v3_candidate_endpoint.rs:4842-5013 | every endpoint poll keeps the invariant and reports at most its granted transitions, whichever branch serves it |
| `EndpointRuns.PollGreenKeeps` | legacy/native_v3_comrak_bridge/src/v3_candidate_endpoint.rs:4856-4865 | the target branch of poll: within fuel, and a completed target may release the delivery event |
| `EndpointRuns.PollIdleKeeps` | legacy/native_v3_comrak_bridge/src/v3_candidate_endpoint.rs:4875-5013 | the branches without a candidate: slot cleanup, then the lanes, within fuel and with nothing stale |
| `EndpointRuns.PollActiveKeeps` | legacy/native_v3_comrak_bridge/src/v3_candidate_endpoint.rs:4872-5021 | preemption and the candidate loop: within fuel, same base on success |
| `EndpointPolling.PollCleanupSteps` | legacy/native_v3_comrak_bridge/src/v3_candidate_endpoint.rs:7101-7346 | a cleanup poll keeps the invariant, every fate, and both bases while not closing |
| `EndpointPolling.BeginCloseSteps` | legacy/native_v3_comrak_bridge/src/v3_candidate_endpoint.rs:7668-7674 | begin_close never fails on an invariant state and drops nothing |
| `EndpointPolling.ScheduleSteps` | legacy/native_v3_comrak_bridge/src/v3_candidate_endpoint.rs:7685-7707 | scheduling re-establishes the invariant of a closing endpoint |
| `EndpointClosing.CleanupPollPays` | legacy/native_v3_comrak_bridge/src/v3_candidate_endpoint.rs:7101-7346 | every successful cleanup poll of a draining endpoint with cleanup pending strictly lowers the debt |
| `EndpointClosing.CandidateCleanupPays` | legacy/native_v3_comrak_bridge/src/v3_candidate_endpoint.rs:7141-7318 | every successful poll of the candidate cleanup strictly lowers its debt, re-retaining a base included |
| `EndpointClosing.ScheduleAddsNoDebt` | legacy/native_v3_comrak_bridge/src/v3_candidate_endpoint.rs:7685-7707 | handing owners to cleanup never adds debt, and lowers it when the slot held a session or pending work |
| `EndpointTheorems.StartIncrementalSteps` | legacy/native_v3_comrak_bridge/src/v3_candidate_endpoint.rs:1782-2484 | an incremental start keeps the invariant and accounts for every resource except the cleanup a failed fallback overwrites |
| `EndpointTheorems.StartSteps` | legacy/native_v3_comrak_bridge/src/v3_candidate_endpoint.rs:1718-1780 | a full start keeps the invariant, every fate and both bases, even when the slot reports Busy |
| `EndpointTheorems.DeliverySteps` | legacy/native_v3_comrak_bridge/src/v3_candidate_endpoint.rs:7738-7829 | a delivery keeps the invariant and every fate and leaves slot and retained base under one new ack |
| `EndpointTheorems.HostPollSteps` | legacy/native_v3_comrak_bridge/src/v3_candidate_endpoint.rs:6708-6795 | host polls, rejection included, keep the invariant, every fate and both bases |
| `EndpointTheorems.CreditSteps` | legacy/native_v3_comrak_bridge/src/v3_candidate_endpoint.rs:6336-6380 | credits short of delivery keep the invariant and both bases |
| `EndpointTheorems.CancelSteps` | legacy/native_v3_comrak_bridge/src/v3_candidate_endpoint.rs:6823-7099 | cancel keeps the invariant, every fate and, on success, both bases |
| `EndpointTheorems.CancelForEditSteps` | legacy/native_v3_comrak_bridge/src/v3_candidate_endpoint.rs:1648-1710 | cancel_for_edit keeps the invariant, every fate and, on success, both bases |
| `EndpointTheorems.CancelForSourceFactsSteps` | legacy/native_v3_comrak_bridge/src/v3_candidate_endpoint.rs:1712-1716 | a cancel that keeps the rolling plan keeps the invariant, every fate and, on success, both bases |
| `EndpointTheorems.PrepareBulletSteps` | legacy/native_v3_comrak_bridge/src/v3_candidate_endpoint.rs:1567-1640 | preparing a rolling list plan moves no owner, whatever the scan answers |
| `EndpointTheorems.ElsewhereSteps` | legacy/native_v3_comrak_bridge/src/v3_candidate_endpoint.rs:1560-1562 | discarding the plan, and cancelling the lanes alone, keep the invariant, every fate and both bases |
| `CandidateEdges.DeliveryIsAtomic` | legacy/native_v3_comrak_bridge/src/v3_candidate_endpoint.rs:7738-7829 | on failure nothing moves; on success target and slot change under one ack, only the superseded base goes to cleanup, and the host revision strictly rises on both publication paths |
| `CandidateEdges.StartIncrementalConservesIff` | legacy/native_v3_comrak_bridge/src/v3_candidate_endpoint.rs:2451-2484 | the fate of every resource survives an incremental start if and only if no failed fallback meets a pending cleanup |
| `CandidateEdges.StartIncrementalStarts` | legacy/native_v3_comrak_bridge/src/v3_candidate_endpoint.rs:1782-2484 | the base moves into the candidate unchanged on success; lanes are cancelled; only an overwritten cleanup is lost |
| `CandidateEdges.StartKeeps` | legacy/native_v3_comrak_bridge/src/v3_candidate_endpoint.rs:1718-1780 | a full start touches neither base nor cleanup |
| `CandidateEdges.ScheduleCloseKeeps` | legacy/native_v3_comrak_bridge/src/v3_candidate_endpoint.rs:7685-7707 | scheduling a close never fails, hands every owner to cleanup and drops nothing |
| `CandidateTheorems.ActiveKeeps` | legacy/native_v3_comrak_bridge/src/v3_candidate_endpoint.rs:5015-6334 | one iteration in any of the ten phases keeps the transaction's shape, the base owed (on success), every fate, and its fuel |
| `CandidateTheorems.LoopKeeps` | legacy/native_v3_comrak_bridge/src/v3_candidate_endpoint.rs:5015-6334 | the whole candidate loop keeps the same and stays within its fuel |
| `CandidateTheorems.CropKeeps` | legacy/native_v3_comrak_bridge/src/v3_candidate_endpoint.rs:5198-5376 | crop parsers hold the base's restart until they end, and give it back on decline |
| `CandidateTheorems.BuildingExactKeeps` | legacy/native_v3_comrak_bridge/src/v3_candidate_endpoint.rs:5993-6299 | an exact build moves its base into the stream or, when streaming cannot start, restores or closes it with the target |
| `CandidateTheorems.SealKeeps` | legacy/native_v3_comrak_bridge/src/v3_candidate_endpoint_candidate.rs:1024-1112 | sealing at End keeps the base owed whether it succeeds, fails before or after the base was split off |
| `CandidateTheorems.PreemptKeeps` | legacy/native_v3_comrak_bridge/src/v3_candidate_endpoint.rs:4560-4840 | a ready slot target takes over a parked exact candidate with the same base |
| `CandidateTheorems.CancelKeeps` | legacy/native_v3_comrak_bridge/src/v3_candidate_endpoint.rs:6823-7099 | cancel succeeds exactly unless a candidate past plain parsing sits on a pending cleanup, leaves no candidate, and owes the same base |
| `CandidateTheorems.CancelStreamingKeeps` | legacy/native_v3_comrak_bridge/src/v3_candidate_endpoint.rs:6993-7097 | all stream, seal and base combinations that can occur are cancelled without loss |
| `CandidateTheorems.CancelForEditKeeps` | legacy/native_v3_comrak_bridge/src/v3_candidate_endpoint.rs:1648-1710 | detaching an exact stream's base at once is also a rollback |
| `CandidateTheorems.RestoreKeeps` | legacy/native_v3_comrak_bridge/src/v3_candidate_endpoint.rs:7292-7346 | closing an exact stream first takes its base, then closes, then retains that base again |
| `CandidateTheorems.CandidateCleanupKeeps` | legacy/native_v3_comrak_bridge/src/v3_candidate_endpoint.rs:7141-7346 | every cleanup shape releases each owner once and fails only with the engine |
| `CandidateTheorems.TakeDeliveryKeeps` | legacy/native_v3_comrak_bridge/src/v3_candidate_endpoint.rs:7716-7736 | the delivery event never fails for want of an expected ack |
| `EndpointFindings.ReplacementNeedsSegments` | legacy/native_v3_comrak_bridge/src/v3_candidate_endpoint.rs:6114-6232 | a reference-replacing splice goes on, and keeps its base, if and only if its segment count is in range |
| `EndpointFindings.LegacyDeltaRefusedIff` | legacy/native_v3_comrak_bridge/src/v3_candidate_endpoint.rs:6002-6015 | a legacy-block exact build is refused, and stays as it is, if and only if no queued cleanup still has to give the slot's base back |
| `EndpointFindings.CancelFailsIff` | legacy/native_v3_comrak_bridge/src/v3_candidate_endpoint.rs:6832-6840 | cancel fails if and only if a non-parsing candidate sits on a pending cleanup; nothing is lost either way |
| `EndpointFindings.ClosedRunReleasesAll` | legacy/native_v3_comrak_bridge/src/v3_candidate_endpoint.rs:7676-7683 | when a run ends owning nothing, all it minted has been released, less what was dropped |
| `EndpointWitnesses.DeliveredDocumentsAreReachable` | legacy/native_v3_comrak_bridge/src/v3_candidate_endpoint.rs:7738-7829 | a run of a new endpoint delivers one document and then another over it |
| `EndpointWitnesses.FailedFallbackDropsCleanup` | legacy/native_v3_comrak_bridge/src/v3_candidate_endpoint.rs:2451-2484 | at a delivered document reached from a new endpoint, a failed fallback loses the publication still being released |
| `EndpointWitnesses.CancelCanFail` | legacy/native_v3_comrak_bridge/src/v3_candidate_endpoint.rs:6832-6840 | a reachable edit over a pending cleanup cannot be cancelled |
| `EndpointWitnesses.FailedSealReachesNeedCommit` | legacy/native_v3_comrak_bridge/src/v3_candidate_endpoint_candidate.rs:1024-1112 | a run from a new endpoint whose seal fails: the End packet is still sent and credited, and every later poll is refused at NeedCommit |
| `EndpointWitnesses.ReplacementCanLoseBase` | legacy/native_v3_comrak_bridge/src/v3_candidate_endpoint.rs:6114-6232 | a reachable replacing splice that owns no base any more after an answer without segments, and goes on with one segment |
| `EndpointWitnesses.SomeEditIsCancelled` | legacy/native_v3_comrak_bridge/src/v3_candidate_endpoint.rs:6829-7099 | at a reachable settled document an edit starts, takes base and session, and cancel gives the very same endpoint back |
| `EndpointWitnesses.LegacyDeltaCanStream` | legacy/native_v3_comrak_bridge/src/v3_candidate_endpoint.rs:6002-6015 | a run from a new endpoint in which a legacy-block delta reaches its Begin event while a cancelled adoption is queued |
| `EndpointWitnesses.LocalListPhaseIsReachable` | legacy/native_v3_comrak_bridge/src/v3_candidate_endpoint.rs:1567-1640 | a prepared rolling plan takes a reachable document into the local list phase |
| `EndpointDelivery.EveryIdleEndpointCanDeliver` | legacy/native_v3_comrak_bridge/src/v3_candidate_endpoint.rs:1718-7829 | every idle endpoint with empty lanes can start, build, stream, commit and deliver any newer snapshot, ending with it retained and installed under its ack |
| `CandidateObject.CandidateEndpoint.Start` | legacy/native_v3_comrak_bridge/src/v3_candidate_endpoint.rs:1718-1780 | start, field by field: the fields end exactly as the specification function of the old state says; from an invariant state the invariant, every fate and (on success short of delivery or close) both bases are upheld |
| `CandidateObject.CandidateEndpoint.StartIncremental` | legacy/native_v3_comrak_bridge/src/v3_candidate_endpoint.rs:1782-2449 | start_incremental, taking the base and the rolling plan: the fields end exactly as the specification function of the old state says; from an invariant state the invariant, every fate and (on success short of delivery or close) both bases are upheld |
| `CandidateObject.CandidateEndpoint.ActivateFallback` | legacy/native_v3_comrak_bridge/src/v3_candidate_endpoint.rs:2451-2484 | a failed fallback replaces the cleanup field: the fields end exactly as the specification function of the old state says |
| `CandidateObject.CandidateEndpoint.Cancel` | legacy/native_v3_comrak_bridge/src/v3_candidate_endpoint.rs:6823-6827 | cancel: the fields end exactly as the specification function of the old state says; from an invariant state the invariant, every fate and (on success short of delivery or close) both bases are upheld |
| `CandidateObject.CandidateEndpoint.CancelForSourceFacts` | legacy/native_v3_comrak_bridge/src/v3_candidate_endpoint.rs:1712-1716 | cancel_for_source_facts_after_edit: the fields end exactly as the specification function of the old state says; from an invariant state the invariant, every fate and (on success short of delivery or close) both bases are upheld |
| `CandidateObject.CandidateEndpoint.PrepareBullet` | legacy/native_v3_comrak_bridge/src/v3_candidate_endpoint.rs:1567-1640 | prepare_bullet_list_local_edit: the fields end exactly as the specification function of the old state says; from an invariant state the invariant, every fate and (on success short of delivery or close) both bases are upheld |
| `CandidateObject.CandidateEndpoint.CancelActive` | legacy/native_v3_comrak_bridge/src/v3_candidate_endpoint.rs:6841-7097 | cancellation of each phase: the fields end exactly as the specification function of the old state says |
| `CandidateObject.CandidateEndpoint.CancelForEdit` | legacy/native_v3_comrak_bridge/src/v3_candidate_endpoint.rs:1648-1710 | cancel_for_edit: the fields end exactly as the specification function of the old state says; from an invariant state the invariant, every fate and (on success short of delivery or close) both bases are upheld |
| `CandidateObject.CandidateEndpoint.FinishDelivery` | legacy/native_v3_comrak_bridge/src/v3_candidate_endpoint.rs:7738-7829 | finish_delivery: the fields end exactly as the specification function of the old state says |
| `CandidateObject.CandidateEndpoint.AcceptCredit` | legacy/native_v3_comrak_bridge/src/v3_candidate_endpoint.rs:6336-6380 | accept_credit: the fields end exactly as the specification function of the old state says; from an invariant state the invariant, every fate and (on success short of delivery or close) both bases are upheld |
| `CandidateObject.CandidateEndpoint.HostPoll` | legacy/native_v3_comrak_bridge/src/v3_candidate_endpoint.rs:6708-6795 | handle_host_poll: the fields end exactly as the specification function of the old state says; from an invariant state the invariant, every fate and (on success short of delivery or close) both bases are upheld |
| `CandidateObject.CandidateEndpoint.Preempt` | legacy/native_v3_comrak_bridge/src/v3_candidate_endpoint.rs:4560-4840 | preemption by a ready slot target: the fields end exactly as the specification function of the old state says |
| `CandidateObject.CandidateEndpoint.AdvanceActive` | legacy/native_v3_comrak_bridge/src/v3_candidate_endpoint.rs:5015-6334 | one iteration of the candidate loop: the fields end exactly as the specification function of the old state says |
| `CandidateObject.CandidateEndpoint.PollCandidate` | legacy/native_v3_comrak_bridge/src/v3_candidate_endpoint.rs:5015-6334 | the candidate's fuel loop: the fields end exactly as the specification function of the old state says |
| `CandidateObject.CandidateEndpoint.Poll` | legacy/native_v3_comrak_bridge/src/v3_candidate_endpoint.rs:4842-5013 | poll: the fields end exactly as the specification function of the old state says; from an invariant state the invariant, every fate and (on success short of delivery or close) both bases are upheld |
| `CandidateObject.CandidateEndpoint.ScheduleClose` | legacy/native_v3_comrak_bridge/src/v3_candidate_endpoint.rs:7685-7707 | schedule_close_cleanup: the fields end exactly as the specification function of the old state says |
| `CandidateObject.CandidateEndpoint.PollCleanup` | legacy/native_v3_comrak_bridge/src/v3_candidate_endpoint.rs:7101-7346 | poll_cleanup: the fields end exactly as the specification function of the old state says; from an invariant state the invariant, every fate and (on success short of delivery or close) both bases are upheld |
| `CandidateObject.CandidateEndpoint.BeginClose` | legacy/native_v3_comrak_bridge/src/v3_candidate_endpoint.rs:7668-7674 | begin_close: the fields end exactly as the specification function of the old state says; from an invariant state the invariant, every fate and (on success short of delivery or close) both bases are upheld |
| `CandidateObject.CandidateEndpoint.EmergencyClose` | legacy/native_v3_comrak_bridge/src/v3_candidate_endpoint.rs:7676-7683 | with an engine that keeps its contract the loop terminates and unless a poll failed nothing is owned; with one that reports no error no poll fails |
| `RecursiveGreenTheorems.SingleAuthority` | legacy/native_v3_comrak_bridge/src/v3_candidate_endpoint_recursive_green.rs:653-752 | in every reachable state installed + pending + queued authorities is at most one, so a cleanup poll never finds a session installed and fails only with the engine |
| `RecursiveGreenTheorems.EachSessionHasOneFate` | legacy/native_v3_comrak_bridge/src/v3_candidate_endpoint_recursive_green.rs:106-752 | over every run each minted session is owned once or released once |
| `RecursiveGreenTheorems.IdleAgainMeansRolledBack` | legacy/native_v3_comrak_bridge/src/v3_candidate_endpoint_recursive_green.rs:561-752 | any run from idle to idle short of a commit reinstalls exactly the base and releases everything minted |
| `RecursiveGreenTheorems.CommitReplacesAuthority` | legacy/native_v3_comrak_bridge/src/v3_candidate_endpoint_recursive_green.rs:459-535 | a commit installs the ready target under the delivered ack, queues the old base once, and an adopted update is strictly newer |
| `RecursiveGreenTheorems.StartKeeps` | legacy/native_v3_comrak_bridge/src/v3_candidate_endpoint_recursive_green.rs:106-202 | starts keep the authority single, the base owed and every session |
| `RecursiveGreenTheorems.PollTargetKeeps` | legacy/native_v3_comrak_bridge/src/v3_candidate_endpoint_recursive_green.rs:223-355 | target polls, fallback and cancelled adoption included, keep the same |
| `RecursiveGreenTheorems.CancelKeeps` | legacy/native_v3_comrak_bridge/src/v3_candidate_endpoint_recursive_green.rs:561-635 | cancelling any pending work keeps the base owed and every session |
| `RecursiveGreenTheorems.CleanupKeeps` | legacy/native_v3_comrak_bridge/src/v3_candidate_endpoint_recursive_green.rs:653-752 | cleanup reinstalls the base it owes and releases each handle once |
| `RecursiveGreenTheorems.CloseConserves` | legacy/native_v3_comrak_bridge/src/v3_candidate_endpoint_recursive_green.rs:637-651 | closing leaves nothing installed or pending and loses nothing |
| `RecursiveGreenTheorems.CommitConserves` | legacy/native_v3_comrak_bridge/src/v3_candidate_endpoint_recursive_green.rs:459-535 | a refused commit changes nothing; an accepted one loses nothing |
| `RecursiveGreenTheorems.CleanupPollPaysDebt` | legacy/native_v3_comrak_bridge/src/v3_candidate_endpoint_recursive_green.rs:653-752 | every successful cleanup poll strictly lowers the slot's debt, reinstalling a base included |
| `RecursiveGreenTheorems.CloseNeverAddsDebt` | legacy/native_v3_comrak_bridge/src/v3_candidate_endpoint_recursive_green.rs:637-651 | closing never adds debt and lowers it when a session is installed or pending |
| `RecursiveGreenObject.RecursiveGreenEndpointSlot.StartClean` | legacy/native_v3_comrak_bridge/src/v3_candidate_endpoint_recursive_green.rs:106-123 | the slot's fields and result are the specification function of the old slot |
| `RecursiveGreenObject.RecursiveGreenEndpointSlot.StartIncremental` | legacy/native_v3_comrak_bridge/src/v3_candidate_endpoint_recursive_green.rs:125-202 | the slot's fields and result are the specification function of the old slot |
| `RecursiveGreenObject.RecursiveGreenEndpointSlot.PollTarget` | legacy/native_v3_comrak_bridge/src/v3_candidate_endpoint_recursive_green.rs:223-355 | the slot's fields and result are the specification function of the old slot |
| `RecursiveGreenObject.RecursiveGreenEndpointSlot.CommitDelivery` | legacy/native_v3_comrak_bridge/src/v3_candidate_endpoint_recursive_green.rs:459-535 | the slot's fields and result are the specification function of the old slot |
| `RecursiveGreenObject.RecursiveGreenEndpointSlot.RequestCancelPending` | legacy/native_v3_comrak_bridge/src/v3_candidate_endpoint_recursive_green.rs:561-635 | the slot's fields and result are the specification function of the old slot |
| `RecursiveGreenObject.RecursiveGreenEndpointSlot.BeginClose` | legacy/native_v3_comrak_bridge/src/v3_candidate_endpoint_recursive_green.rs:637-651 | the slot's fields and result are the specification function of the old slot |
| `RecursiveGreenObject.RecursiveGreenEndpointSlot.PollCleanup` | legacy/native_v3_comrak_bridge/src/v3_candidate_endpoint_recursive_green.rs:653-752 | the slot's fields and result are the specification function of the old slot |
| `LanesTheorems.HotPollWithinGrant` | legacy/native_v3_comrak_bridge/src/v3_candidate_endpoint.rs:3485-4090 | one hot poll spends at most its grant, takes no defensive branch, brings nothing new and loses no root |
| `LanesTheorems.ViewPollWithinGrant` | legacy/native_v3_comrak_bridge/src/v3_candidate_endpoint.rs:4092-4554 | one viewport poll spends at most its grant, never passes the command's transition limit, never overdraws while draining, and loses no root |
| `LanesTheorems.RequestHotGood` | legacy/native_v3_comrak_bridge/src/v3_candidate_endpoint.rs:2852-2909 | an admitted hot request becomes the live demand with the latest generation or the engine failed; the InvalidState preemption branch is dead |
| `LanesTheorems.RequestViewportGood` | legacy/native_v3_comrak_bridge/src/v3_candidate_endpoint.rs:2486-2502 | a viewport request is admitted only into empty lanes and stays fresh |
| `LanesTheorems.InstallGood` | legacy/native_v3_comrak_bridge/src/v3_candidate_endpoint.rs:2827-2850 | preempting a viewport never overwrites another owner |
| `LanesTheorems.InstallLatestGood` | legacy/native_v3_comrak_bridge/src/v3_candidate_endpoint.rs:3271-3362 | latest wins: same leaf keeps its job, another leaf waits behind the drain |
| `LanesTheorems.CancelAllQuiets` | legacy/native_v3_comrak_bridge/src/v3_candidate_endpoint.rs:3364-3435 | cancelling leaves no demand, sidecar or undrained batch and loses no root |
| `LanesTheorems.BeginSidecarGood` | legacy/native_v3_comrak_bridge/src/v3_candidate_endpoint_hot_inline.rs:67-93 | a sidecar begins for the current base only, fails only with its encoder, and its generation is greater than every earlier one |
| `LanesTheorems.FinishSidecarGood` | legacy/native_v3_comrak_bridge/src/v3_candidate_endpoint.rs:6692-6706 | a delivered sidecar's root is scheduled for release once |
| `LanesTheorems.PrepareStreamGood` | legacy/native_v3_comrak_bridge/src/v3_candidate_endpoint.rs:4898-4944 | a ready batch always names the current base; a failed preparation drains it |
| `LanesTheorems.StreamTurnGood` | legacy/native_v3_comrak_bridge/src/v3_candidate_endpoint_viewport.rs:801-868 | releasing and activating children keeps the lanes' invariant and every root |
| `LanesTheorems.ViewTurnGood` | legacy/native_v3_comrak_bridge/src/v3_candidate_endpoint.rs:4101-4551 | one iteration of the viewport loop |
| `LanesTheorems.HotTurnGood` | legacy/native_v3_comrak_bridge/src/v3_candidate_endpoint.rs:3485-4090 | one iteration of the hot loop |
| `LanePoll.PollWithin` | legacy/native_v3_comrak_bridge/src/v3_candidate_endpoint.rs:4879-5012 | the whole lane branch of poll: within the grant, fails only with the engine, publishes nothing stale, loses no root |
| `LanesUntroubled.ViewLoopSucceeds` | legacy/native_v3_comrak_bridge/src/v3_candidate_endpoint.rs:4092-4554 | a draining viewport lane fails only with the engine |
| `LanesUntroubled.HotLoopSucceeds` | legacy/native_v3_comrak_bridge/src/v3_candidate_endpoint.rs:3485-4090 | a draining hot lane fails only with the engine |
| `LanesClosing.ViewTurnPaysDebt` | legacy/native_v3_comrak_bridge/src/v3_candidate_endpoint.rs:4398-4551 | every successful drain turn of the viewport lane strictly lowers its debt |
| `LanesClosing.HotTurnPaysDebt` | legacy/native_v3_comrak_bridge/src/v3_candidate_endpoint.rs:3485-4090 | every successful drain turn of the hot lane strictly lowers its debt |
| `LanesObject.InlineLanes.PollHot` | legacy/native_v3_comrak_bridge/src/v3_candidate_endpoint.rs:3485-4090 | the hot fuel loop ends exactly as the specification says, for every sequence of answers; it keeps the lanes' invariant, its grant and every root |
| `LanesObject.InlineLanes.PollViewport` | legacy/native_v3_comrak_bridge/src/v3_candidate_endpoint.rs:4092-4554 | the viewport fuel loop ends exactly as the specification says; it keeps the lanes' invariant, its grant and every root |
| `LanesObject.InlineLanes.Pop` | legacy/native_v3_comrak_bridge/src/v3_candidate_endpoint.rs:4488-4508 | the popping loop takes unsupported leaves at one transition each until a root, the fuel or the leaves run out |
| `LanesObject.InlineLanes.RequestHot` | legacy/native_v3_comrak_bridge/src/v3_candidate_endpoint.rs:2852-3269 | the lane part of a hot request: fields as specified, invariant and freshness kept |
| `LanesObject.InlineLanes.CancelAll` | legacy/native_v3_comrak_bridge/src/v3_candidate_endpoint.rs:3364-3435 | cancel_hot_inline over all lanes: fields as specified, quiet afterwards, no root lost |
| `PacketTheorems.PacketsAreTheGreedySplit` | legacy/native_v3_comrak_bridge/src/v3_candidate_endpoint_candidate.rs:831-1022 | at any point of any run and fuel slicing, the packets sent are the first packets of the greedy split, within every limit, with contiguous ordinals |
| `PacketTheorems.PacketsDoNotDependOnFuel` | legacy/native_v3_comrak_bridge/src/v3_candidate_endpoint_candidate.rs:831-942 | two runs over the same items send the very same packets |
| `PacketTheorems.CommitCountsEveryFrame` | legacy/native_v3_comrak_bridge/src/v3_candidate_endpoint_candidate.rs:1024-1112 | when commit is ready the packets concatenate to exactly the producer's frames, all are credited, and the count is theirs |
| `PacketTheorems.ProducerResumesAfterFullCredit` | legacy/native_v3_comrak_bridge/src/v3_candidate_endpoint_candidate.rs:915-939 | every producer resume found all frames produced before it credited |
| `PacketTheorems.OneEventOutstanding` | legacy/native_v3_comrak_bridge/src/v3_candidate_endpoint_candidate.rs:799-829 | over every run from any point, events sent and receipts taken balance up to one, and so do packets and host credits: between two events there is a receipt, between two packets a host credit |
| `PacketTheorems.PollPacketKeeps` | legacy/native_v3_comrak_bridge/src/v3_candidate_endpoint_candidate.rs:831-942 | a packet poll keeps the invariant, stays within fuel and fails only with the engine |
| `PacketTheorems.OpKeeps` | legacy/native_v3_comrak_bridge/src/v3_candidate_endpoint.rs:6336-6380 | polls, credits and host polls keep the packet invariant |
| `StreamRefinement.PollRefines` | legacy/native_v3_comrak_bridge/src/v3_candidate_endpoint_candidate.rs:799-942 | a frame-level packet poll is a poll of the candidate transaction: same event, same fuel, same outcome, and the two views stay mirrored, a failed seal and its unsent End packet included |
| `StreamRefinement.CreditRefines` | legacy/native_v3_comrak_bridge/src/v3_candidate_endpoint.rs:6336-6380 | receipts move the frame-level and the ownership view alike |
| `StreamRefinement.HostCreditRefines` | legacy/native_v3_comrak_bridge/src/v3_candidate_endpoint.rs:6708-6775 | packet credits of the host move both views alike |
| `StreamRuns.EndpointFollows` | legacy/native_v3_comrak_bridge/src/v3_candidate_endpoint_candidate.rs:799-942 | over every run of a frame stream short of its commit, the endpoint that carries it follows by its own polls, credits and host polls and stays its mirror |
| `StreamRuns.EndpointAnnouncesTheSplit` | legacy/native_v3_comrak_bridge/src/v3_candidate_endpoint_candidate.rs:831-1022 | over the same runs, whenever the endpoint waits for a packet's receipt, first and count are those of the packet of the greedy split whose turn it is |
| `StreamRuns.FreshStreamCarries` | legacy/native_v3_comrak_bridge/src/v3_candidate_endpoint.rs:6260-6299 | every candidate that just became a stream carries whatever its producer will yield |
| `Packets.SplitIsGreedyAndLossless` | legacy/native_v3_comrak_bridge/src/v3_candidate_endpoint.rs:7832-7945 | the split loses, repeats and reorders nothing and every packet is non-empty and within the three limits |
| `Packets.GreedyIsUnique` | legacy/native_v3_comrak_bridge/src/v3_candidate_endpoint.rs:7845-7879 | only one cutting into maximal packets exists |
| `Packets.SaturatedIsMaximal` | legacy/native_v3_comrak_bridge/src/v3_candidate_endpoint.rs:7940-7945 | a saturated packet accepts no further frame |
| `PacketObject.PacketBuilder.CanAccept` | legacy/native_v3_comrak_bridge/src/v3_candidate_endpoint.rs:7833-7879 | the cached totals decide exactly whether one more frame keeps every limit |
| `PacketObject.PacketBuilder.Push` | legacy/native_v3_comrak_bridge/src/v3_candidate_endpoint.rs:7881-7926 | a frame is refused exactly when its ordinals do not carry on; otherwise it is appended and the totals stay right |
| `PacketObject.PacketBuilder.IsClosed` | legacy/native_v3_comrak_bridge/src/v3_candidate_endpoint.rs:7928-7945 | end or saturation, from the cached totals |
| `PacketObject.StreamingCandidate.PollPacket` | legacy/native_v3_comrak_bridge/src/v3_candidate_endpoint_candidate.rs:831-942 | the packet loop ends exactly as the specification says |
| `PacketObject.StreamingCandidate.AppendFrame` | legacy/native_v3_comrak_bridge/src/v3_candidate_endpoint_candidate.rs:944-1022 | append_frame with its checks, ordinals and sealing |
| `PacketObject.StreamingCandidate.TakePacket` | legacy/native_v3_comrak_bridge/src/v3_candidate_endpoint_candidate.rs:1114-1136 | the packet leaves and an empty builder takes its place |
| `PacketObject.StreamingCandidate.HostPoll` | legacy/native_v3_comrak_bridge/src/v3_candidate_endpoint.rs:6748-6775 | a packet credit moves the phase and resumes a parked producer |
| `RegistryRuns.HandlesNeverAlias` | legacy/native_v3_comrak_bridge/src/v3_registry.rs:235-287 | over every run all issued handles are distinct, a handle validates exactly while issued and not retired, and residents, free list and exhausted slots partition the table |
| `RegistryRuns.RetiredStaysStale` | legacy/native_v3_comrak_bridge/src/v3_registry.rs:331-349 | a retired handle is stale for ever, also at the last generation |
| `RegistryHeadroom.RecoveryFailsExactly` | legacy/native_v3_comrak_bridge/src/v3_registry.rs:235-287 | over every run a recovery fails exactly when residents and exhausted slots fill the table; with at most two endpoints each, that is when twice the holders less the single holders plus the exhausted slots reach twice the limit |
| `RegistryHeadroom.RecoveryFindsRoom` | legacy/native_v3_comrak_bridge/src/v3_registry.rs:15-23 | over every run ending with at most two endpoints each, no exhausted slot and no more holders than the fresh limit, a document holding one endpoint can create its replacement |
| `RegistryHeadroom.HoldersStayWithinFreshLimit` | legacy/native_v3_comrak_bridge/src/v3_registry.rs:15-23 | over every run whose recoveries replace a resident endpoint, no more documents hold endpoints than the fresh limit |
| `RegistryHeadroom.RecoveryAlwaysFindsRoom` | legacy/native_v3_comrak_bridge/src/v3_registry.rs:15-23 | over every such run, fresh creations unrestricted, ending with at most two endpoints each and no exhausted slot, a document holding one endpoint can create its replacement |
| `RegistryHeadroom.RecoveryWithoutPredecessorTakesHeadroom` | legacy/native_v3_comrak_bridge/src/v3_registry.rs:132-140 | a run in which a recovery without a resident predecessor leaves two documents with one endpoint each and no room to replace one of them |
| `SlotTable.FreshAdmissionFindsASlot` | legacy/native_v3_comrak_bridge/src/v3_registry.rs:289-306 | whenever can_admit_fresh holds, exhausted slots or not, the slot-table check cannot fail |
| `SlotTable.FreshFailsIff` | legacy/native_v3_comrak_bridge/src/v3_registry.rs:235-287 | a fresh insert fails exactly when admission refuses it |
| `SlotTable.RecoveryFailsIff` | legacy/native_v3_comrak_bridge/src/v3_registry.rs:246-248 | a recovery fails exactly when residents and exhausted slots fill the table |
| `SlotTable.HostFailsIff` | legacy/native_v3_comrak_bridge/src/v3_host_registry.rs:95-140 | the host registry refuses exactly when residents and exhausted slots reach its limit |
| `SlotTable.SlotsAreConserved` | legacy/native_v3_comrak_bridge/src/v3_registry.rs:331-349 | residents + free + exhausted = slots |
| `SlotTable.PlaceKeeps` | legacy/native_v3_comrak_bridge/src/v3_registry.rs:251-287 | placing pops the free list or grows the table and keeps the table's invariant |
| `SlotTable.VacateKeeps` | legacy/native_v3_comrak_bridge/src/v3_registry.rs:331-349 | recycling pushes the slot or retires it for good and keeps the table's invariant |
| `RegistryLeases.VacatedOnlyWithoutLeases` | legacy/native_v3_comrak_bridge/src/v3_registry.rs:169-233 | over every interleaving a slot is vacated only when no other thread holds a lease on its endpoint |
| `RegistryLeases.OneOperationPerEndpoint` | legacy/native_v3_comrak_bridge/src/v3_registry.rs:144-156 | over every interleaving at most one operation runs on an endpoint |
| `RegistryLeases.NoDeadlock` | legacy/native_v3_comrak_bridge/src/v3_registry.rs:308-316 | a thread inside the registry gives it back in its next step, whatever endpoint locks others hold; everyone else moves or waits for it alone |
| `RegistryLeases.LeaseKeepsHandleValid` | legacy/native_v3_comrak_bridge/src/v3_registry.rs:176-199 | a leased handle stays valid, so remove's second validation and pointer check never fail |
| `RegistryLeases.NextKeeps` | legacy/native_v3_comrak_bridge/src/v3_registry.rs:144-233 | every step of every thread keeps the lease invariant |
| `RegistryObject.RegistryState.ValidateHandle` | legacy/native_v3_comrak_bridge/src/v3_registry.rs:319-329 | a handle validates exactly while it is issued and not retired |
| `RegistryObject.RegistryState.Place` | legacy/native_v3_comrak_bridge/src/v3_registry.rs:251-287 | the handle returned was never issued before; failure is exactly an empty free list and a full table |
| `RegistryObject.RegistryState.Vacate` | legacy/native_v3_comrak_bridge/src/v3_registry.rs:331-349 | the handle retires, the slot's generation moves on or is spent |
| `RegistryObject.EndpointRegistry.Open` | legacy/native_v3_comrak_bridge/src/v3_registry.rs:103-121 | limits outside the advertised range are refused |
| `RegistryObject.EndpointRegistry.CreateFresh` | legacy/native_v3_comrak_bridge/src/v3_registry.rs:128-130 | refused exactly by admission, never by a full table |
| `RegistryObject.EndpointRegistry.CreateRecovery` | legacy/native_v3_comrak_bridge/src/v3_registry.rs:132-140 | refused exactly when residents and exhausted slots fill the table |
| `RegistryObject.EndpointRegistry.EmergencyDestroy` | legacy/native_v3_comrak_bridge/src/v3_registry.rs:213-233 | succeeds exactly for a live handle without leases and retires it |
| `RegistryObject.HostRegistry.Open` | legacy/native_v3_comrak_bridge/src/v3_host_registry.rs:76-89 | limits outside the advertised range are refused |
| `RegistryObject.HostRegistry.Create` | legacy/native_v3_comrak_bridge/src/v3_host_registry.rs:95-140 | refused exactly when residents and exhausted slots reach the limit |
| `ViewportTheorems.StreamMeetsItsOffer` | legacy/native_v3_comrak_bridge/src/v3_candidate_endpoint_viewport.rs:734-1012 | for any leaves, streaming never fails, sends children in directory order, and ends with 2*leaves + nodes + 3 frames and leaves + nodes records as declared |
| `ViewportTheorems.FinishSucceeds` | legacy/native_v3_comrak_bridge/src/v3_candidate_endpoint_viewport.rs:1188-1202 | the End frame's equalities hold on every legal run |
| `ViewportTheorems.ActivateKeeps` | legacy/native_v3_comrak_bridge/src/v3_candidate_endpoint_viewport.rs:830-860 | the child popped is always the one the directory lists next |
| `ViewportStream.Prepare` | legacy/native_v3_comrak_bridge/src/v3_candidate_endpoint_viewport.rs:91-338 | popping and reversing yield the directory in leaf order, a stack whose top is the first child, and exact totals |
| `ViewportObject.StreamingViewportPresentation.SendAll` | legacy/native_v3_comrak_bridge/src/v3_candidate_endpoint_viewport.rs:734-1012 | the stream loop ends exactly as the specification says |
| `ViewportObject.StreamingViewportPresentation.AppendChildFrame` | legacy/native_v3_comrak_bridge/src/v3_candidate_endpoint_viewport.rs:1014-1132 | append_child_frame with its ordinal, node and End checks |
| `Splice.PlanExactSplice` | legacy/native_v3_comrak_bridge/src/v3_candidate_endpoint_candidate.rs:292-539 | selects exactly the one selectable pair of windows, or declines because there is none |
| `Splice.SelectedWindowsAreSound` | legacy/native_v3_comrak_bridge/src/v3_candidate_endpoint_candidate.rs:292-539 | outside its windows base and target text are identical; the windows cover the change and hold at most 256 plain entries |
| `Splice.ReusedDefinitionsStay` | legacy/native_v3_comrak_bridge/src/v3_candidate_endpoint_candidate.rs:436-450 | every reused definition has the same text at the same absolute place in the target |
| `Splice.LeafIndexAt` | legacy/native_v3_comrak_bridge/src/v3_candidate_endpoint_candidate.rs:541-560 | the binary search finds the unique leaf holding the probed byte exactly when there is one |
| `Splice.WindowIsPlain` | legacy/native_v3_comrak_bridge/src/v3_candidate_endpoint_candidate.rs:399-435 | the walk over a window finds any definition or unsupported block |
| `Splice.TilesCover` | legacy/native_v3_comrak_bridge/src/v3_candidate_endpoint_candidate.rs:310-324 | locating a block of a tiled base never fails |
| `LineIndex.LineIndex.constructor` | legacy/native_v3_comrak_bridge/src/parser.rs:18-27 | one pass indexes exactly zero and the byte after each newline |
| `LineIndex.LineIndex.LineStart` | legacy/native_v3_comrak_bridge/src/parser.rs:29-38 | an existing line starts where newline scanning finds it, on a character boundary |
| `LineIndex.LineIndex.LineEndWithBreak` | legacy/native_v3_comrak_bridge/src/parser.rs:57-63 | an existing line ends where scanning from its start ends |
| `LineIndex.LineIndex.LineEndContent` | legacy/native_v3_comrak_bridge/src/parser.rs:40-55 | the content ends before the newline, on a character boundary |
| `LineIndex.LineIndex.ColumnStart` | legacy/native_v3_comrak_bridge/src/parser.rs:70-85 | the last character boundary at or before the column |
| `LineIndex.LineIndex.ColumnEnd` | legacy/native_v3_comrak_bridge/src/parser.rs:87-103 | the first character boundary at or after the column's end |
| `LineIndex.LineIndex.SourceposToRange` | legacy/native_v3_comrak_bridge/src/parser.rs:779-807 | every position maps to an ordered in-bounds range cut between characters |
| `LineIndex.LineIndex.FullLineRange` | legacy/native_v3_comrak_bridge/src/parser.rs:811-827 | the indexed whole-line range equals the scanned one |
| `LineIndex.IndexedLineEnds` | legacy/native_v3_comrak_bridge/src/source_ranges.rs:66-74 | the index and end_of_line agree on every line |
| `LineIndex.AfterAscii` | legacy/native_v3_comrak_bridge/src/parser.rs:18-27 | in text well formed by RFC 3629 a character starts after every ASCII byte |
| `Ranges.NormalizeRanges` | legacy/native_v3_comrak_bridge/src/source_ranges.rs:17-47 | clamp, filter, sort and one pass compute the normalization |
| `Ranges.NormalizeIsSound` | legacy/native_v3_comrak_bridge/src/source_ranges.rs:17-47 | the result is sorted, disjoint, in bounds, made of clamped inputs, and every dropped non-empty range overlaps a kept one |
| `Ranges.NormalizeIsIdempotent` | legacy/native_v3_comrak_bridge/src/source_ranges.rs:17-47 | normalizing twice is normalizing once, and normalized ranges stay as they are |
| `Ranges.CollectEscapeMarkers` | legacy/native_v3_comrak_bridge/src/marker_mapping.rs:165-203 | over normalized exclusions the two-cursor scan marks exactly what a plain scan of every offset and exclusion marks |
| `Ranges.MarkersAreExact` | legacy/native_v3_comrak_bridge/src/marker_mapping.rs:165-203 | marked are exactly the escaped punctuation bytes outside every exclusion |
| `Ranges.MarkersAreNormalized` | legacy/native_v3_comrak_bridge/src/marker_mapping.rs:208-208 | the markers are already normalized |
| `Ranges.IsEscapedAt` | legacy/native_v3_comrak_bridge/src/marker_mapping.rs:280-295 | counting backslashes backwards decides escaping |
| `Ranges.OddRunIsEscaped` | legacy/native_v3_comrak_bridge/src/marker_mapping.rs:280-295 | an odd backslash run is exactly being escaped when read forwards, as section 2.4 of the CommonMark specification reads |

## Left out

- The engine and parser crates, BLAKE3 digests, wire byte layouts, the session endpoint and the FFI layer: not part of this model.
- Allocation failure, mutex poisoning and jobs that overspend their fuel: excluded by the engine contract.
- Validation of completions, descriptors and commands against the current source: one admission answer per operation, since each is a conjunction of equalities.
- The choice of inline leaf fences in `request_hot_inline` and of viewport rows: a resolved demand and a leaf count stand for them.
- Phases of the sidecar and viewport streams inside the lanes: `StreamProtocol` and `PacketStream` describe one credited stream; in endpoint runs a lane's stream may be rejected or delivered at any time, which includes every order the phases allow.
- `PacketStream` and `Candidate` describe the same candidate stream as frames and as owners; `StreamRuns` relates them over whole runs up to the commit offer, the commit and delivery steps are in `Candidate` alone.
- Packing of the viewport stream's own frames: the greedy packing theorem is for the candidate stream; the sidecar stream is its case without replay demands.
- The numeric bound on splice segments is fixed by the engine crate; 256 stands for it and no proof depends on the value.
- 32-bit casts of byte offsets in the range and line helpers: texts are taken to be shorter than 4 GiB.
- Token marker ranges (bold, italic, code, strikethrough), the HTML entity scan, block marker ranges, JSON payloads and AST walking: tied to Comrak or easy.
- `Ranges.Sort` is an insertion sort standing for the library's stable sort by the same key.
- RegistryObject.EndpointRegistry.EmergencyDestroy: takes the number of leases as an argument; the interleaved account of leases is in `RegistryLeases`, where `remove` is modelled as well.
- CandidateObject.CandidateEndpoint.EmergencyClose: a poll that fails with the engine ends the loop early, as in the source; what a later attempt would do is not modelled.
- Liveness of an incremental edit under every fair engine: not stated, it depends on the parser's own progress; that a delivery can always be reached is `EveryIdleEndpointCanDeliver`.
