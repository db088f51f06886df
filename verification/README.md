# Verified model of the vehicle-event platform's application layer

The project models, in Dafny, the state machines and algorithms between the cameras and the
event store, and proves what they promise.

* **Durable finalization.** `OutboxDisk` and `OutboxProtocol` model the outbox directory, its
  unflushed operations, the remote deliveries and a crash between any two system calls as a
  transition system; `OutboxCapacity` says how much a crash can leave behind.
  `FinalizationOutbox` is the outbox object, each of whose system calls is one step of it.
  `OutboxCodec` and `EntryNames` are the entry format and the file names. `Finalization` is the
  finalizer that freezes one event per track, and `DurableFinalization` puts finalizer and disk
  together. `FinalizationUnits` holds what passes between them.
* **Reading plates.** `EditDistance`, `PlateClusters`, `PlateConsensus` and `PlateAggregation`
  take the readings of a track to one plate; `PlateNormalization` is the position-aware corrector
  and `DatasetEvaluation` the accuracy over a data set.
* **Scheduling frames.** `Scheduler` is the fair latest-frame scheduler; `SchedulerFairness` holds
  bounded waiting and the bound on Jain's index.
* **Fan-out.** `Realtime` is the hub with its bounded subscriptions and replay history;
  `LiveMonitor` the rings of live frames for the most recently fed cameras.
* **Controllers.** `EventWorker` with `EventOrder`, `TrainingRuns`, `Supervisor` and
  `TrackLifecycle`.

What cannot be seen from the code is an argument: clocks, the answers of launchers, repositories,
brokers and finalizers, which system call fails, what a crash keeps, and in which order concurrent
operations take their turns. Scores are reals. SHA-256 and event ids are taken as injective, the
event codec and base64 as round trips, and a JSON text as its tree.

`dafny verify dfyconfig.toml` checks the whole project.

## Where the code and its documentation disagree

* `docs/CAMERA_PIPELINE.md:48-51` says that an entry's directory is flushed before its track is
  marked finalized. `finalization_outbox.py:433-438` returns on an existing entry without a flush.
  When the flush of an earlier attempt failed, the retry succeeds although a crash can still lose
  the rename. The model follows the code. `OutboxProtocol.AckExistingIsDurableIff` gives the exact
  condition and `OutboxProtocol.FailedFlushThenRetryLosesTheEvent` a losing run;
  `DurableFinalization.SmoothRunsLoseNothing` shows that nothing else can lose an event.
* `docs/CAMERA_PIPELINE.md:68-69` calls the limits hard bounds. They are while the process runs
  (`OutboxProtocol.CapacityHolds`). A crash keeps them exactly when the flushed entries and the
  unflushed renames together are within them (`OutboxCapacity.CrashKeepsLimitsIff`), so always
  when no removal waits for a flush (`OutboxCapacity.FlushedRemovalsKeepLimits`), and not in
  `OutboxCapacity.LostRemovalOverfills`; the next start refuses such a directory.

## What holds under a condition

* The frozen unit of a track is keyed by its event id, and so by its event type. Attempts stage
  identical bytes exactly while the type stays the same (`Finalization.FrozenIffSameType`); an
  attempt whose commit was uncertain, followed by a change of direction, leaves two events for one
  track (`Finalization.ChangedDirectionDuplicates`).
* No call meets a different entry under its event id over an outbox that was empty at first
  (`Finalization.NeverMismatched`). After a restart it does exactly when an earlier process left one
  that is not delivered yet and differs (`DurableFinalization.MismatchIff`). A video file seen again
  gives its tracks the same ids and new creation times, so it does exactly when the clock has moved
  (`DurableFinalization.RerunMismatchesIff`), until the delivery (`DurableFinalization.EntryBlocksOthers`).
* Two events of one tracker id are separated by a reopened stream or by the timeout
  (`TrackLifecycle.EventsAreApart`); while epochs only grow, which the pipeline does not check, by the
  timeout (`TrackLifecycle.GrowingEpochsLeaveTheTimeout`).
* Per-camera order in the event worker is promised within a batch (`docs/EVENTS.md:249-253`).
  Across batches it holds exactly as long as no batch leaves an earlier pending message of the
  camera behind (`EventOrder.BatchKeepsOrderIff`); `EventOrder.LaterBatchOvertakes` is a run in
  which one does.
* A compare-and-swap on timestamps, which is all that `ports.py` promises for training runs, is
  enough exactly when clock readings strictly increase or the repository makes the file
  repository's additional checks (`TrainingRuns.SafeIff`, `TrainingRuns.CanceledThenOverwritten`).
* A receiver that waits on an empty queue takes the front without looking at the gap again. The
  event is in its place exactly when no more events arrived before it ran than the queue holds
  (`Realtime.WokenReceiverIsInPlaceIff`); otherwise it precedes the gap that it should follow
  (`Realtime.OvertakenReceiver`).
* An idle training run can be taken up exactly unless it was left submitting without a remote job
  (`TrainingRuns.IdleRunIsStuckIff`), which can happen (`TrainingRuns.HalfSubmittedHappens`).

## Model

| member | source | states |
|---|---|---|
| OutboxProtocol.StepKeepsInv | src/vehicle_intelligence/infrastructure/finalization_outbox.py:415-493 | every step of staging, scanning, delivery, removal, failure, crash and restart keeps the invariant: entries intact, only delivered entries touched since the last flush, deliveries backed by stored media, staged events safe, limits kept |
| OutboxProtocol.StepKeepsDisk | src/vehicle_intelligence/infrastructure/finalization_outbox.py:448-460 | every step keeps the directory equal to its flushed base plus the unflushed operations, all entries flushed and under their own names, and touches only delivered entries of the base |
| OutboxProtocol.StepKeepsStaged | src/vehicle_intelligence/infrastructure/finalization_outbox.py:127-143 | after every step a staged event is delivered or its entry is on the flushed disk |
| OutboxProtocol.StepKeepsHolder | src/vehicle_intelligence/infrastructure/finalization_outbox.py:448-460 | what the holder of the directory lock relies on between its system calls still holds after every step |
| OutboxProtocol.StepKeepsMedia | src/vehicle_intelligence/infrastructure/finalization_outbox.py:300-310 | a delivery in flight has stored exactly the media it counts |
| OutboxProtocol.StepKeepsDeletable | src/vehicle_intelligence/infrastructure/finalization_outbox.py:310-311 | an entry may be removed only once its event was published after all its media |
| OutboxProtocol.StepKeepsLimits | src/vehicle_intelligence/infrastructure/finalization_outbox.py:439-446 | entry count and bytes stay within the limits over every step of a running outbox |
| OutboxProtocol.RunKeepsInv | src/vehicle_intelligence/infrastructure/finalization_outbox.py:127-162 | the invariant holds after every run and staged events stay staged |
| OutboxProtocol.StagedEventsSurvive | src/vehicle_intelligence/infrastructure/finalization_outbox.py:300-311 | crash safety: in every reachable state a staged event is published after its media, or its intact entry is in the directory now and after any crash |
| OutboxProtocol.EntriesLeaveAfterPublish | src/vehicle_intelligence/infrastructure/finalization_outbox.py:707-729 | while the process runs an entry leaves the directory only after its event was published after all its media |
| OutboxProtocol.RecoveryFindsIntactEntries | src/vehicle_intelligence/infrastructure/finalization_outbox.py:313-329 | whatever a crash leaves, every entry is fully flushed and carries its own name |
| OutboxProtocol.CapacityHolds | src/vehicle_intelligence/infrastructure/finalization_outbox.py:439-446 | entry count and bytes are within the limits in every reachable state of a running outbox |
| OutboxProtocol.AckExistingIsDurableIff | src/vehicle_intelligence/infrastructure/finalization_outbox.py:429-438 | acknowledging an existing entry is crash-safe exactly when its rename is not still unflushed or the event was already delivered |
| OutboxProtocol.FailedFlushThenRetryLosesTheEvent | src/vehicle_intelligence/infrastructure/finalization_outbox.py:448-460 | a reachable run in which `stage` returned on an existing entry and the crash loses the event: the directory flush of the first attempt had failed |
| OutboxProtocol.FlushConfirms | src/vehicle_intelligence/infrastructure/finalization_outbox.py:749-756 | after one directory flush such an acknowledgement holds for good: over every further run and any crash the event is delivered or its intact entry is there |
| OutboxCapacity.CrashKeepsLimitsIff | src/vehicle_intelligence/infrastructure/finalization_outbox.py:439-446 | over every reachable state: every crash leaves at most the maximum number of entries exactly when the flushed entries and the unflushed renames together are at most that many, and at most the maximum bytes exactly when the footprint is: every unflushed removal ignored, every entry at its largest |
| OutboxCapacity.FlushedRemovalsKeepLimits | src/vehicle_intelligence/infrastructure/finalization_outbox.py:720-727 | while no removal waits for a flush, no crash of a running outbox leaves it beyond its limits |
| OutboxCapacity.CrashStaysBelow | src/vehicle_intelligence/infrastructure/finalization_outbox.py:439-446 | whatever a crash keeps lies within the footprint |
| OutboxCapacity.CrashReaches | src/vehicle_intelligence/infrastructure/finalization_outbox.py:439-446 | some crash leaves all of the footprint |
| OutboxCapacity.FootprintNames | src/vehicle_intelligence/infrastructure/finalization_outbox.py:439-446 | the names of the footprint are those on the disk and those an unflushed rename puts there |
| OutboxCapacity.RunKeepsFresh | src/vehicle_intelligence/infrastructure/finalization_outbox.py:428-453 | over every run an unflushed rename met no entry of its name |
| OutboxCapacity.LostRemovalOverfills | src/vehicle_intelligence/infrastructure/finalization_outbox.py:439-446 | a reachable crash that loses an unflushed removal but keeps a later rename leaves more entries than the limit |
| OutboxProtocol.BytesSplit | src/vehicle_intelligence/infrastructure/finalization_outbox.py:439 | the byte total does not depend on the order in which entries are summed |
| OutboxDisk.UntouchedIsUnchanged | src/vehicle_intelligence/infrastructure/finalization_outbox.py:749-756 | a name no unflushed operation touches is the same after any crash |
| OutboxDisk.CrashKeepsEntriesIntact | src/vehicle_intelligence/infrastructure/finalization_outbox.py:448-452 | keeping any subset of the unflushed operations leaves only flushed entries under their own names |
| OutboxDisk.KeepingNothing | src/vehicle_intelligence/infrastructure/finalization_outbox.py:749-756 | a crash that keeps no unflushed operation gives back the flushed directory |
| FinalizationOutbox.FilesystemOutbox.Perform | src/vehicle_intelligence/infrastructure/finalization_outbox.py:415-493 | each system call or remote effect of the object is one enabled step, so its states are reachable ones |
| FinalizationOutbox.FilesystemOutbox.InNameOrder | src/vehicle_intelligence/infrastructure/finalization_outbox.py:480-485 | the listing is complete, without repetitions and sorted by file name |
| FinalizationOutbox.FilesystemOutbox.SortedIsChronological | src/vehicle_intelligence/infrastructure/finalization_outbox.py:480-485 | of two listed entries the earlier one in the listing is the earlier one in time, or at one instant the one of the smaller digest |
| FinalizationOutbox.FilesystemOutbox.EntryPathsLocked | src/vehicle_intelligence/infrastructure/finalization_outbox.py:466-493 | removes abandoned temporary files, flushes, and lists exactly the entries; a scan loses no entry |
| FinalizationOutbox.FilesystemOutbox.FindEvent | src/vehicle_intelligence/infrastructure/finalization_outbox.py:428-432 | finds the first listed entry of the event, or none exactly when there is none |
| FinalizationOutbox.FilesystemOutbox.Usage | src/vehicle_intelligence/infrastructure/finalization_outbox.py:439 | the counted bytes and entries are those of the directory |
| FinalizationOutbox.ListingIsTotal | src/vehicle_intelligence/infrastructure/finalization_outbox.py:439 | summing over a listing without repetitions gives the bytes of the directory |
| FinalizationOutbox.FilesystemOutbox.WriteTemporary | src/vehicle_intelligence/infrastructure/finalization_outbox.py:448-459 | a temporary file is written and flushed, or the entries are unchanged and the lock is free |
| FinalizationOutbox.FilesystemOutbox.Commit | src/vehicle_intelligence/infrastructure/finalization_outbox.py:451-456 | rename and flush: on success the document is staged; a failed flush leaves the entry renamed |
| FinalizationOutbox.FilesystemOutbox.StageNew | src/vehicle_intelligence/infrastructure/finalization_outbox.py:439-460 | the capacity refusals are exact and change nothing; success stages the document |
| FinalizationOutbox.FilesystemOutbox.StageSync | src/vehicle_intelligence/infrastructure/finalization_outbox.py:415-460 | all outcomes of staging, also while an entry is being delivered: too large, existing, mismatch, full by entries or bytes, staged, retryable, each with its exact condition and effect |
| FinalizationOutbox.FilesystemOutbox.StageAll | src/vehicle_intelligence/infrastructure/finalization_outbox.py:415-460 | stage calls lose and change no entry; whatever is new is theirs |
| FinalizationOutbox.FilesystemOutbox.SendMedia | src/vehicle_intelligence/infrastructure/finalization_outbox.py:300-309 | media go out one by one in order, whoever holds the directory lock; what was sent is a prefix of the script |
| FinalizationOutbox.FilesystemOutbox.Deliver | src/vehicle_intelligence/infrastructure/finalization_outbox.py:300-311 | media, publish, removal, with stage calls before, during and after the sending: the entry goes only after the whole script was sent, the other entries stay, and integrity failures cannot arise |
| FinalizationOutbox.FilesystemOutbox.RemoveEntrySync | src/vehicle_intelligence/infrastructure/finalization_outbox.py:707-729 | removes the delivered entry if it is unchanged; a missing entry is fine, a changed one is corruption |
| FinalizationOutbox.FilesystemOutbox.DeliverInOrder | src/vehicle_intelligence/infrastructure/finalization_outbox.py:150-162 | stops at the first failure, with stage calls between and during the deliveries: earlier scripts are complete and their entries gone unless staged again, later entries untouched and nothing of theirs sent |
| FinalizationOutbox.FilesystemOutbox.ReplayOnce | src/vehicle_intelligence/infrastructure/finalization_outbox.py:145-162 | a replay pass delivers the entries of its scan in name order and never past a failed earlier one, whatever is staged meanwhile |
| FinalizationOutbox.FilesystemOutbox.Initialize | src/vehicle_intelligence/infrastructure/finalization_outbox.py:313-333 | after a start the directory is flushed, within the limits and made of intact entries; otherwise the refusal names the reason |
| EntryNames.FileNameOrder | src/vehicle_intelligence/infrastructure/finalization_outbox.py:669-677 | file names sort chronologically, then by digest, and differ for different instants or digests |
| EntryNames.PaddedOrder | src/vehicle_intelligence/infrastructure/finalization_outbox.py:672-676 | equal-width zero-padded numbers sort as numbers |
| EntryNames.TimestampOrder | src/vehicle_intelligence/infrastructure/finalization_outbox.py:671-676 | the timestamp text sorts as time and determines the instant |
| EntryNames.LessIsTotal | src/vehicle_intelligence/infrastructure/finalization_outbox.py:480-485 | names are totally ordered |
| EntryNames.LessIsTransitive | src/vehicle_intelligence/infrastructure/finalization_outbox.py:480-485 | the name order is transitive |
| OutboxCodec.DecodeMedia | src/vehicle_intelligence/infrastructure/finalization_outbox.py:556-606 | a media list is accepted exactly when every item is valid, no field repeats and the fields are those the event references; the result is the decoded items in order |
| OutboxCodec.EncodeAcceptsIff | src/vehicle_intelligence/infrastructure/finalization_outbox.py:618-651 | encoding accepts exactly the units of this camera that carry the media of exactly the event's references under their own keys |
| OutboxCodec.EncodedLoads | src/vehicle_intelligence/infrastructure/finalization_outbox.py:525-554 | whatever encoding accepts, the stricter reader accepts, returning the same event and the same media sorted by field |
| OutboxCodec.LoadedCouldBeStaged | src/vehicle_intelligence/infrastructure/finalization_outbox.py:525-554 | what the strict reader accepts is this camera's, sits under its own name and could have been staged |
| OutboxCodec.EncodingIsInjective | src/vehicle_intelligence/infrastructure/finalization_outbox.py:618-651 | equal documents come from the same event and media |
| OutboxCodec.EncodingIgnoresOrder | src/vehicle_intelligence/infrastructure/finalization_outbox.py:625-639 | the bytes do not depend on the order of the media |
| OutboxCodec.ItemRoundTrip | src/vehicle_intelligence/infrastructure/finalization_outbox.py:628-638 | an encoded item is accepted back exactly when it is deliverable, and decodes to itself |
| OutboxCodec.SortedPermutes | src/vehicle_intelligence/infrastructure/finalization_outbox.py:625 | sorting the media loses and adds nothing |
| OutboxCodec.SortedIsOrdered | src/vehicle_intelligence/infrastructure/finalization_outbox.py:625 | the sorted media ascend by reference field |
| Finalization.FrozenUnit | src/vehicle_intelligence/application/finalization.py:140-146 | the unit a call stages is the one every earlier attempt of the process with its id staged |
| Finalization.ActKeepsInv | src/vehicle_intelligence/application/finalization.py:83-150 | every call, delivery and growth of a track keeps the invariant of the frozen units |
| Finalization.FrozenIffSameType | src/vehicle_intelligence/application/finalization.py:140-146 | two attempts for one track stage identical bytes exactly when they carry the same event type, over every run |
| Finalization.OwnEntryAgrees | src/vehicle_intelligence/application/finalization.py:140-146 | over an outbox whose entries are all its own, a call never finds a different entry under its event id |
| Finalization.NeverMismatched | src/vehicle_intelligence/application/finalization.py:205-235 | in every run of a process over an outbox that was empty at first, no attempt meets an entry that does not match its event id |
| Finalization.FinalizedIffStaged | src/vehicle_intelligence/application/finalization.py:222-235 | a track is finalized exactly when one of its stagings succeeded, and that one was its last |
| Finalization.ChangedDirectionDuplicates | src/vehicle_intelligence/application/finalization.py:87-90 | a durable attempt that raised, then a changed direction, then a success leave two entries for one track |
| Finalization.VehicleEventFinalizer.Stage | src/vehicle_intelligence/application/finalization.py:213-226 | `stage` mismatches exactly when it looks and finds a different entry of the same id; otherwise it is durable unless it fails before the commit |
| Finalization.VehicleEventFinalizer.Freeze | src/vehicle_intelligence/application/finalization.py:140-145 | the pending unit of the id, or a new one frozen now |
| Finalization.VehicleEventFinalizer.StageAndFinalize | src/vehicle_intelligence/application/finalization.py:205-235 | the track is marked and the unit unfrozen exactly on success, whether or not the caller was canceled |
| Finalization.VehicleEventFinalizer.FinalizeTrack | src/vehicle_intelligence/application/finalization.py:83-150 | one call is one step of the runs; the outcome tells already finalized, finished, failed and canceled apart |
| DurableFinalization.FinalizedTrackIsSafeIff | src/vehicle_intelligence/application/finalization.py:205-235 | finalizer and disk together, over every run with crashes and restarts: a finalized track has one document staged for good; it is safe against any crash exactly when it is delivered or on the flushed disk, and it is safe unless it was acknowledged as an existing entry whose rename was not flushed |
| DurableFinalization.SmoothRunsLoseNothing | src/vehicle_intelligence/application/finalization.py:222-235 | while no flush of a rename has failed, the document of every track that any process ever marked finalized is safe |
| DurableFinalization.SafeIff | src/vehicle_intelligence/infrastructure/finalization_outbox.py:448-460 | a document survives every crash exactly when it is delivered or intact on the flushed disk |
| DurableFinalization.MoveKeepsInv | src/vehicle_intelligence/application/finalization.py:205-235 | every disk step, start and end of a call, growth of a track and crash keeps: what was marked finalized was acknowledged; every entry was left by an earlier process or staged by this one |
| DurableFinalization.MismatchIff | src/vehicle_intelligence/infrastructure/finalization_outbox.py:428-438 | over every run with crashes and restarts: a call is refused because of the entry under its event id exactly when the first such entry was left by an earlier process and differs from the call's own document; never when no earlier process left an event of that id |
| DurableFinalization.EntryBlocksOthers | src/vehicle_intelligence/infrastructure/finalization_outbox.py:428-438 | over every run without a crash: until an entry is delivered, no track is marked finalized with another document of the same event id |
| DurableFinalization.RerunMismatchesIff | src/vehicle_intelligence/infrastructure/finalization_outbox.py:433-437 | tracks that are seen a second time, as when a recording is processed twice: the event of a finalized but undelivered track is refused exactly when the clock reads differently |
| DurableFinalization.SmoothRunIsFlushed | src/vehicle_intelligence/infrastructure/finalization_outbox.py:448-460 | without a failed flush of a rename only the entry being committed waits for a flush |
| EditDistance.TwoRowDistance | src/vehicle_intelligence/application/reid.py:285-303 | the two-row program computes the recursive Levenshtein distance |
| EditDistance.SwappingDistance | src/vehicle_intelligence/application/voting.py:14-29 | the program that swaps its arguments computes the same distance |
| EditDistance.TextSimilarity | src/vehicle_intelligence/application/reid.py:285-303 | the similarity is 1 minus the relative distance, lies in [0, 1], and is 0 for two empty texts |
| DatasetEvaluation.Accuracies | src/vehicle_intelligence/application/dataset_evaluation.py:93-122 | character accuracy equals its unclamped formula and lies in [0, 1]; it is 1 exactly when every prediction is right |
| EditDistance.Symmetric | src/vehicle_intelligence/application/voting.py:14-29 | the distance is symmetric |
| EditDistance.Bounds | src/vehicle_intelligence/application/voting.py:14-29 | the distance lies between the length difference and the longer length |
| EditDistance.ZeroIffEqual | src/vehicle_intelligence/application/voting.py:14-29 | the distance is zero exactly for equal texts |
| EditDistance.Triangle | src/vehicle_intelligence/application/voting.py:14-29 | the triangle inequality |
| EditDistance.DistanceIsShortestChain | src/vehicle_intelligence/application/voting.py:14-29 | the distance is the length of the shortest chain of single-character edits |
| EditDistance.ChainsAreNoShorter | src/vehicle_intelligence/application/voting.py:14-29 | no chain of edits is shorter than the distance |
| EditDistance.ShortestChain | src/vehicle_intelligence/application/voting.py:14-29 | a chain of exactly that many edits exists |
| DatasetEvaluation.DistanceWithinLength | src/vehicle_intelligence/application/dataset_evaluation.py:93-122 | the summed distance never exceeds the summed denominator, so the clamp at 0 never acts |
| PlateClusters.HalvingKeepsForest | src/vehicle_intelligence/application/voting.py:84-88 | one halving step keeps the forest acyclic and every root |
| PlateClusters.Find | src/vehicle_intelligence/application/voting.py:84-88 | `find` terminates and returns the root, changing no root |
| PlateClusters.LinkingKeepsForest | src/vehicle_intelligence/application/voting.py:90-93 | linking two roots keeps the forest and merges exactly the two trees |
| PlateClusters.Union | src/vehicle_intelligence/application/voting.py:90-93 | `union` merges exactly the trees of its arguments |
| PlateClusters.MergeNearPairs | src/vehicle_intelligence/application/voting.py:95-104 | after the double loop every near pair shares a root and every index is connected to its root |
| PlateClusters.WalkKeepsRoot | src/vehicle_intelligence/application/voting.py:95-104 | a walk through near pairs never leaves its root |
| PlateClusters.RootsAreComponents | src/vehicle_intelligence/application/voting.py:95-104 | equal roots are exactly connectedness |
| PlateClusters.Clusters | src/vehicle_intelligence/application/voting.py:81-108 | the clusters are exactly the connected components, each index in one of them, members and clusters in order |
| PlateClusters.ComponentsAreUnique | src/vehicle_intelligence/application/voting.py:81-108 | there is one way to list the components in order |
| PlateConsensus.CountVotes | src/vehicle_intelligence/application/voting.py:148-151 | the tally holds every character read at the position with its whole weight, in order of first appearance |
| PlateConsensus.Leader | src/vehicle_intelligence/application/voting.py:148-152 | the winning character has the most weight; ties go to the one read first |
| PlateConsensus.TargetLength | src/vehicle_intelligence/application/voting.py:142-143 | the most frequent length; ties go to the longest |
| PlateConsensus.CharacterConsensus | src/vehicle_intelligence/application/voting.py:141-157 | the consensus leads every position of the texts of target length, and agreement is the mean share |
| PlateConsensus.LeaderIsUnique | src/vehicle_intelligence/application/voting.py:152 | a position has one leader |
| PlateConsensus.ConsensusIsUnique | src/vehicle_intelligence/application/voting.py:141-157 | the same votes have one consensus |
| PlateConsensus.MajorityWins | src/vehicle_intelligence/application/voting.py:141-157 | a text with more than half of the weight of target length is the consensus |
| PlateConsensus.FullAgreementIff | src/vehicle_intelligence/application/voting.py:153-157 | agreement lies in [0, 1] and is 1 exactly when every vote with weight reads the consensus |
| PlateConsensus.ClusterScoreBounds | src/vehicle_intelligence/application/voting.py:110-139 | the weighted mean of components in [0, 1] stays in [0, 1] |
| PlateConsensus.DotIsMonotone | src/vehicle_intelligence/application/voting.py:138-139 | a better component never lowers the score |
| PlateConsensus.ConfidenceBounds | src/vehicle_intelligence/application/voting.py:60-62 | support and agreement only raise the evidence, by at most 15% of what is missing, so only the upper clamp can act |
| PlateAggregation.ScoreBounds | src/vehicle_intelligence/application/voting.py:110-139 | a cluster's score lies in [0, 1] |
| PlateAggregation.PlateOf | src/vehicle_intelligence/application/voting.py:51-58 | the consensus when it normalizes, otherwise the first most reliable reading when that does, otherwise nothing |
| PlateAggregation.MostReliable | src/vehicle_intelligence/application/voting.py:55 | the first reading of greatest reliability |
| PlateAggregation.Representative | src/vehicle_intelligence/application/voting.py:63-69 | the quoted reading is the first one that is nearest to the plate and, among those, most reliable |
| PlateAggregation.BestCluster | src/vehicle_intelligence/application/voting.py:49-50 | the first cluster of greatest score, then size |
| PlateAggregation.Candidate | src/vehicle_intelligence/application/voting.py:51-79 | the plate is the one the votes of the cluster decide, the quotation the representative reading, the corrections those of the plate or else of the quoted reading, the confidence the raised and capped score; without a candidate neither consensus nor most reliable reading is a plate |
| PlateAggregation.Aggregate | src/vehicle_intelligence/application/voting.py:37-79 | the candidate is that of the first best-scored connected component of the useful readings; no useful reading, no candidate |
| PlateAggregation.AggregateIsDetermined | src/vehicle_intelligence/application/voting.py:37-79 | the useful readings determine the whole candidate, ties included |
| PlateAggregation.YieldIsUnique | src/vehicle_intelligence/application/voting.py:51-79 | a cluster determines its candidate |
| PlateAggregation.WinnerIsUnique | src/vehicle_intelligence/application/voting.py:48-50 | the readings determine the winning cluster |
| PlateAggregation.MajorityIsThePlate | src/vehicle_intelligence/application/voting.py:51-58 | a text with more than half of the weight of consensus length decides the plate of the cluster, if it is a plate at all |
| PlateAggregation.ConfidenceIsBounded | src/vehicle_intelligence/application/voting.py:60-74 | the confidence lies in [0, 0.999] and is at least the score of the cluster unless capped |
| PlateAggregation.AggregateConfidence | src/vehicle_intelligence/application/voting.py:60-74 | with scores in [0, 1] the confidence of the returned candidate lies in [0, 0.999] |
| PlateAggregation.CandidateIsStable | src/vehicle_intelligence/application/voting.py:71-79 | normalizing a candidate's text again gives the same plate without corrections |
| PlateNormalization.CoercePositions | src/vehicle_intelligence/application/normalization.py:159-186 | succeeds exactly when every position can be coerced; changes and records exactly the needed corrections in place |
| PlateNormalization.StructuralCandidate | src/vehicle_intelligence/application/normalization.py:134-156 | finds the reading of one layout exactly when there is one |
| PlateNormalization.StructuralCandidates | src/vehicle_intelligence/application/normalization.py:130-157 | lists exactly the layout readings of the text |
| PlateNormalization.ReadingIsUnique | src/vehicle_intelligence/application/normalization.py:134-156 | a layout admits at most one reading of a text |
| PlateNormalization.Winner | src/vehicle_intelligence/application/normalization.py:84-91 | no reading of any layout is preferred to the winner |
| PlateNormalization.BestIsUnique | src/vehicle_intelligence/application/normalization.py:84-91 | the preferred reading is unique |
| PlateNormalization.Normalize | src/vehicle_intelligence/application/normalization.py:66-103 | the result is the best reading, formatted, or the partial text, or invalid; complete and valid exactly when a reading exists |
| PlateNormalization.ResultIsUnique | src/vehicle_intelligence/application/normalization.py:66-103 | a text has one normalization result |
| PlateNormalization.CorrectionsAreSound | src/vehicle_intelligence/application/normalization.py:81-103 | replaying the corrections on the cleaned text yields the plate, at ascending positions, and no reading needs fewer |
| PlateNormalization.ReplayDifferences | src/vehicle_intelligence/application/normalization.py:177-185 | applying recorded corrections in order rebuilds the corrected text |
| PlateNormalization.WinnerWinsAgain | src/vehicle_intelligence/application/normalization.py:81-91 | the winning plate is its own best reading, also when one- and two-character series compete |
| PlateNormalization.Projection | src/vehicle_intelligence/application/normalization.py:66-128 | normalizing a valid result's text again gives the same texts without corrections, partial ones included |
| Scheduler.SubmitKeepsInv | src/vehicle_intelligence/application/gpu_scheduler.py:65-85 | `submit` keeps ring, bounds, order, freshness and counters |
| Scheduler.VisitKeepsInv | src/vehicle_intelligence/application/gpu_scheduler.py:131-149 | one turn of the pop loop keeps them |
| Scheduler.UnregisterKeepsInv | src/vehicle_intelligence/application/gpu_scheduler.py:112-117 | `unregister` keeps them |
| Scheduler.SubmitBalances | src/vehicle_intelligence/application/gpu_scheduler.py:76-82 | what arrived at a camera is what left followed by what waits, after a submission |
| Scheduler.VisitBalances | src/vehicle_intelligence/application/gpu_scheduler.py:139-148 | the same after a visit |
| Scheduler.VisitCounts | src/vehicle_intelligence/application/gpu_scheduler.py:139-148 | the counters agree with the history and balance after a visit |
| Scheduler.VisitDecreasesPending | src/vehicle_intelligence/application/gpu_scheduler.py:133-148 | each turn of the pop loop takes at least one waiting frame |
| Scheduler.BatchKeepsInv | src/vehicle_intelligence/application/gpu_scheduler.py:131-149 | a whole batch keeps the invariant |
| Scheduler.BatchIsFresh | src/vehicle_intelligence/application/gpu_scheduler.py:131-149 | a batch fits, is counted and holds no stale frame |
| Scheduler.ShortBatchMeansAllEmpty | src/vehicle_intelligence/application/gpu_scheduler.py:131-149 | a batch with room to spare means that nothing waits |
| Scheduler.BatchIsTheEmissions | src/vehicle_intelligence/application/gpu_scheduler.py:142-146 | per camera the history of emissions grows by exactly the batch |
| Scheduler.EmittedInSubmissionOrder | src/vehicle_intelligence/application/gpu_scheduler.py:65-149 | per camera the emitted frames are a subsequence of the submitted ones |
| Scheduler.PendingSplits | src/vehicle_intelligence/application/gpu_scheduler.py:159-160 | the pending total does not depend on the order of the cameras |
| Scheduler.FairLatestFrameScheduler.SubmitFrame | src/vehicle_intelligence/application/gpu_scheduler.py:65-85 | capacity is refused exactly for a new camera in a full table, without effect; otherwise the oldest frames make room |
| Scheduler.FairLatestFrameScheduler.DropStale | src/vehicle_intelligence/application/gpu_scheduler.py:139-141 | drops exactly the stale front of a queue |
| Scheduler.FairLatestFrameScheduler.VisitHead | src/vehicle_intelligence/application/gpu_scheduler.py:134-148 | one turn of the pop loop |
| Scheduler.FairLatestFrameScheduler.PopLocked | src/vehicle_intelligence/application/gpu_scheduler.py:131-149 | the pop loop computes the batch of the specification |
| Scheduler.FairLatestFrameScheduler.Pop | src/vehicle_intelligence/application/gpu_scheduler.py:87-90 | the batch is fresh, fits, and is short only when nothing waits |
| Scheduler.FairLatestFrameScheduler.Forget | src/vehicle_intelligence/application/gpu_scheduler.py:112-117 | `unregister` removes the camera from queue and ring and tells how many frames it discarded |
| Scheduler.FairLatestFrameScheduler.TakeSnapshot | src/vehicle_intelligence/application/gpu_scheduler.py:119-129 | submitted = emitted + dropped oldest + dropped stale + pending + discarded by `unregister` |
| SchedulerFairness.RunKeepsInv | src/vehicle_intelligence/application/gpu_scheduler.py:65-149 | the invariant holds over every sequence of submissions, batches and removals |
| SchedulerFairness.BoundedWaiting | src/vehicle_intelligence/application/gpu_scheduler.py:131-154 | while b stays backlogged no camera is served more than once more often than b |
| SchedulerFairness.VisitKeepsLead | src/vehicle_intelligence/application/gpu_scheduler.py:131-154 | one visit keeps the lead of a over b at one, and at zero while a stands before b |
| SchedulerFairness.JainAtMostOne | scripts/benchmark_edge_capacity.py:71-76 | Jain's index of counts with non-zero sum is at most 1, with equality exactly for equal counts |
| SchedulerFairness.JainLowerBound | scripts/benchmark_edge_capacity.py:71-76 | counts that differ by at most one and are at least m have an index of at least 1 - 1/(4m^2) |
| SchedulerFairness.FairnessBound | scripts/benchmark_edge_capacity.py:71-76 | backlogged cameras served at least m times each have an index of at least 1 - 1/(4m^2) |
| Realtime.RealtimeSubscription.MarkGap | src/vehicle_intelligence/application/realtime.py:89-100 | gaps merge: first reason, summed drops, latest id |
| Realtime.RealtimeSubscription.MakeRoom | src/vehicle_intelligence/application/realtime.py:82-85 | a full queue loses exactly its oldest event, which the gap counts |
| Realtime.RealtimeSubscription.Offer | src/vehicle_intelligence/application/realtime.py:78-87 | an open subscription takes every event; queue and pending gap stay in step with the consumer's position, and deliveries in place stay so |
| Realtime.RealtimeSubscription.TakeGap | src/vehicle_intelligence/application/realtime.py:105-107 | reporting the gap moves the consumer's position over exactly the lost events |
| Realtime.RealtimeSubscription.TakeFront | src/vehicle_intelligence/application/realtime.py:108-114 | the front of the queue is the event at the consumer's position, advanced by the drops nobody has reported |
| Realtime.RealtimeSubscription.Receive | src/vehicle_intelligence/application/realtime.py:102-114 | without waiting: a pending gap goes before any newer event; an event is the one at the consumer's position; a timeout while open means it is at the end |
| Realtime.RealtimeSubscription.OfferAll | src/vehicle_intelligence/application/realtime.py:78-87 | of the events offered to an empty queue all but the newest `capacity` are dropped and counted |
| Realtime.RealtimeSubscription.ReceiveAsleep | src/vehicle_intelligence/application/realtime.py:105-114 | a receiver that slept while events arrived gets the oldest one still queued; counts stay exact, and with distinct ids it is in its place exactly when the queue could hold all that arrived |
| Realtime.RealtimeSubscription.Close | src/vehicle_intelligence/application/realtime.py:116-122 | closing leaves only the closing mark |
| Realtime.GapsNameExactlyTheMissing | src/vehicle_intelligence/application/realtime.py:78-114 | filling each gap with the next lost events rebuilds the stream up to the position, so gaps name exactly what is missing, in order |
| Realtime.WokenReceiverIsInPlaceIff | src/vehicle_intelligence/application/realtime.py:105-114 | for every stream, every list of distinct arriving events and every capacity: what the woken receiver is given is in its place exactly when the queue is unbounded or no more events arrived than it holds |
| Realtime.OvertakenReceiver | src/vehicle_intelligence/application/realtime.py:105-114 | a run in which it is not: two events arrive at a queue for one, and the second is delivered before the gap for the first |
| Realtime.RealtimeHub.Remember | src/vehicle_intelligence/application/realtime.py:184-189 | the history stays the end of the stream, without repeated ids, mirrored by its id set |
| Realtime.RealtimeHub.FeedNext | src/vehicle_intelligence/application/realtime.py:193-196 | one turn of the fan-out moves one subscription forward and leaves the others |
| Realtime.RealtimeHub.Distribute | src/vehicle_intelligence/application/realtime.py:191-196 | after the fan-out every subscription has seen the event; the counts are the open subscriptions and the full ones among them |
| Realtime.RealtimeHub.Publish | src/vehicle_intelligence/application/realtime.py:170-202 | an event is accepted exactly when no retained event has its id; every open subscription has then been offered the stream from its start, and the counters grow by the open subscriptions and by the full ones |
| Realtime.RealtimeHub.Replay | src/vehicle_intelligence/application/realtime.py:156-163 | replays exactly the retained events after the resume point |
| Realtime.RealtimeHub.Resume | src/vehicle_intelligence/application/realtime.py:144-163 | a resumed subscription is offered exactly the retained events after its id, or told by a gap that they are gone |
| Realtime.RealtimeHub.Subscribe | src/vehicle_intelligence/application/realtime.py:138-163 | a new subscription joins the stream where it resumed; the others are untouched |
| Realtime.RealtimeHub.Unsubscribe | src/vehicle_intelligence/application/realtime.py:165-168 | the subscription is closed and forgotten |
| Realtime.AcceptingKeepsIdsSpaced | src/vehicle_intelligence/application/realtime.py:177-189 | an id can be accepted again only after as many other events as the history retains |
| LiveMonitor.FeedingMovesToTheEnd | src/vehicle_intelligence/application/live_monitor.py:112-120 | the table's order is the most recently fed cameras, and the evicted one is the first of it |
| LiveMonitor.BufferedIff | src/vehicle_intelligence/application/live_monitor.py:113-120 | a camera has a ring exactly when it was fed and fewer others than the maximum were fed since |
| LiveMonitor.RetainedIff | src/vehicle_intelligence/application/live_monitor.py:117-125 | a sequence is kept exactly when it is the camera's, fewer later frames of it than the ring holds came in, and the camera kept its ring ever since |
| LiveMonitor.RetainedInOrder | src/vehicle_intelligence/application/live_monitor.py:121-125 | kept sequences ascend and the ones after each are all later frames of the camera |
| LiveMonitor.FeedKeepsTable | src/vehicle_intelligence/application/live_monitor.py:109-128 | one ingest keeps table and rings equal to what the log prescribes |
| LiveMonitor.FeedConserves | src/vehicle_intelligence/application/live_monitor.py:113-126 | frames received are frames evicted plus frames buffered |
| LiveMonitor.LiveMonitorService.Ingest | src/vehicle_intelligence/application/live_monitor.py:109-128 | sequences are consecutive; rings, order and counters follow the log |
| LiveMonitor.LiveMonitorService.FrameOf | src/vehicle_intelligence/application/live_monitor.py:159-163 | `frame` finds a sequence exactly when it is kept, with the packet it was received with |
| EventWorker.RunOnceKeepsInv | src/vehicle_intelligence/application/event_worker.py:115-163 | a batch loses no message, acknowledges only what was saved and post-processed, dead-letters only what does not decode |
| EventWorker.RunKeepsInv | src/vehicle_intelligence/application/event_worker.py:91-163 | over every run with redelivery each message is waiting, pending, acknowledged or dead-lettered, and acknowledged events are in the repository |
| EventWorker.AcknowledgedArePrefix | src/vehicle_intelligence/application/event_worker.py:140-159 | the acknowledged messages of a camera are a prefix of its decodable messages, each processed without error |
| EventWorker.NothingAfterAFailure | src/vehicle_intelligence/application/event_worker.py:145-148 | after a camera's first failure its later messages are not started and stay pending |
| EventWorker.CleanBatchSettles | src/vehicle_intelligence/application/event_worker.py:115-163 | without failures every message of a batch is acknowledged or dead-lettered |
| EventOrder.BatchKeepsOrderIff | src/vehicle_intelligence/application/event_worker.py:115-163 | across batches: whatever may fail in it, a batch keeps a camera's acknowledgements in publication order exactly when it leaves no earlier pending message of the camera behind one it holds |
| EventOrder.CarefulRunKeepsOrder | src/vehicle_intelligence/application/event_worker.py:115-163 | over every run of batches that leave nothing behind, the acknowledged messages of a camera are in publication order |
| EventOrder.OrderIsKept | src/vehicle_intelligence/application/event_worker.py:138-159 | such a batch keeps the order under every combination of failures |
| EventOrder.LeftBehind | src/vehicle_intelligence/application/event_worker.py:138-159 | otherwise one failing save lets the later message be acknowledged while the earlier one stays pending |
| EventOrder.PrecedingIsAcknowledged | src/vehicle_intelligence/application/event_worker.py:140-154 | what precedes an acknowledged message of its camera in the batch is acknowledged too |
| EventOrder.LaterBatchOvertakes | src/vehicle_intelligence/application/event_worker.py:115-163 | a run from the empty stream that breaks it: the first message fails, the next read acknowledges the second |
| EventWorker.VehicleEventWorker.ProcessEvent | src/vehicle_intelligence/application/event_worker.py:179-236 | an event id is inserted once; the message is done exactly when save and policies succeed; created events are counted as they enter the repository |
| EventWorker.VehicleEventWorker.GroupByCamera | src/vehicle_intelligence/application/event_worker.py:129-136 | groups are the decodable messages by camera in order; the rest is dead-lettered up to the first call that raises |
| EventWorker.VehicleEventWorker.ProcessGroups | src/vehicle_intelligence/application/event_worker.py:138-154 | any interleaving of the camera groups gives the same repository, finished messages and acknowledgements |
| EventWorker.VehicleEventWorker.Read | src/vehicle_intelligence/application/event_worker.py:118-128 | stale pending messages are read again when a reclaim is due and there are any, otherwise new ones |
| EventWorker.VehicleEventWorker.RunBatch | src/vehicle_intelligence/application/event_worker.py:115-163 | one `run_once` is one step of the runs |
| TrainingRuns.SafeIff | src/vehicle_intelligence/application/model_training.py:308-463 | terminal runs are never written again and the remote job is submitted at most once under every interleaving, exactly when the repository checks transitions and advancing timestamps or clock readings strictly increase |
| TrainingRuns.SafeWhenGuarded | src/vehicle_intelligence/application/model_training.py:308-463 | the safe half, for one run and its continuation |
| TrainingRuns.CanceledThenOverwritten | src/vehicle_intelligence/application/model_training.py:308-352 | with a bare compare-and-swap and a standing clock a submission is saved over a cancellation |
| TrainingRuns.TerminalStays | src/vehicle_intelligence/application/model_training.py:325-463 | a terminal run stays as it is over every continuation |
| TrainingRuns.StepKeepsOneSubmit | src/vehicle_intelligence/application/model_training.py:325-338 | every step keeps the at-most-one submission |
| TrainingRuns.StepKeepsVersions | src/vehicle_intelligence/application/model_training.py:336-351 | with increasing readings a timestamp names one version of the run |
| TrainingRuns.AcceptedFromActive | src/vehicle_intelligence/infrastructure/training/model_training_files.py:108-124 | an accepted save was decided on an active run |
| TrainingRuns.IdleRunIsStuckIff | src/vehicle_intelligence/application/model_training.py:308-463 | in every state of every run: an active run with nothing in flight can be neither submitted, canceled, refreshed nor failed exactly when it is submitting without a remote job; then only loading the repository again moves it, and fails it |
| TrainingRuns.EvidenceStays | src/vehicle_intelligence/infrastructure/training/model_training_files.py:119-120 | over every run the immutable evidence stays, and a scheduled or running run has a remote job |
| TrainingRuns.HalfSubmittedHappens | src/vehicle_intelligence/application/model_training.py:352-372 | such a run is reachable: the remote call raises and saving the failure does too |
| TrainingRuns.FileModelTrainingRunRepository.Create | src/vehicle_intelligence/infrastructure/training/model_training_files.py:85-106 | history and concurrent runs stay within their limits; each refusal, a completed model of that name and version among them, happens exactly under its condition |
| TrainingRuns.FileModelTrainingRunRepository.Save | src/vehicle_intelligence/infrastructure/training/model_training_files.py:108-124 | a save is accepted exactly when it meets the current timestamp, an allowed transition, unchanged evidence and an advanced timestamp |
| Supervisor.BackoffIsMonotone | src/vehicle_intelligence/application/supervisor.py:205-212 | backoff never shrinks with more failures and lies between base and maximum |
| Supervisor.Convergence | src/vehicle_intelligence/application/supervisor.py:169-203 | over cycles that each start as many as they may, from nothing, exactly the first min(|desired|, k * limit) cameras run |
| Supervisor.CyclesCount | src/vehicle_intelligence/application/supervisor.py:169-203 | over such cycles from any running cameras their number grows by the limit until all run |
| Supervisor.ConvergeFromNothing | src/vehicle_intelligence/application/supervisor.py:127-203 | k calls of the reconciliation of a new supervisor, without failures and with room for all enabled cameras, leave exactly the first min(|desired|, k * limit) running |
| Supervisor.FirstOnes | src/vehicle_intelligence/application/supervisor.py:173-194 | the start loop takes the first candidates in id order |
| Supervisor.SortedIds | src/vehicle_intelligence/application/supervisor.py:173 | cameras are considered in ascending id order, each once |
| Supervisor.CameraSupervisor.ScheduleFailure | src/vehicle_intelligence/application/supervisor.py:205-216 | a failure counts and sets the timer by the backoff |
| Supervisor.CameraSupervisor.StartOne | src/vehicle_intelligence/application/supervisor.py:181-202 | a start clears the timer; a failed start schedules a retry |
| Supervisor.CameraSupervisor.StartWorkers | src/vehicle_intelligence/application/supervisor.py:169-203 | at most the limit is started, only candidates past their timer, in id order; without failures exactly the first ones |
| Supervisor.CameraSupervisor.StopOutdated | src/vehicle_intelligence/application/supervisor.py:137-151 | a worker of an old revision or a removed camera is stopped; if its camera is still enabled its timer is set to zero, otherwise the timers stay; its failures are forgotten unless the camera is disabled |
| Supervisor.CameraSupervisor.Sweep | src/vehicle_intelligence/application/supervisor.py:135-167 | every worker that stays is wanted in its revision and running; every one that exited waits for its backoff |
| Supervisor.CameraSupervisor.EnsureInferenceService | src/vehicle_intelligence/application/supervisor.py:244-288 | workers run only beside a running service: when it exited all are stopped and no start is tried before its backoff is over |
| Supervisor.CameraSupervisor.PruneTimers | src/vehicle_intelligence/application/supervisor.py:131-133 | timers of cameras that are no longer enabled go, and their failure counts with them |
| Supervisor.CameraSupervisor.ReconcileWorkers | src/vehicle_intelligence/application/supervisor.py:129-203 | one cycle, however it ends: every worker is an earlier one, unchanged, or was started now, and each start was wanted, within the limit and past its timer; when it reached the starts no exited worker is left; in calm no timer is left and every worker is wanted in its revision |
| Supervisor.CameraSupervisor.ReconcileOnce | src/vehicle_intelligence/application/supervisor.py:127-203 | one cycle with the service, however it ends: starts as above; without a running service it fails and no worker runs; success means that the service runs; in calm it is one of the converging cycles and leaves a state from which the next one is |
| Supervisor.CameraSupervisor.Converge | src/vehicle_intelligence/application/supervisor.py:127-203 | repeated calls without failures from a steady state start as many cameras as they may until all run |
| TrackLifecycle.NoSecondEvent | src/vehicle_intelligence/application/pipeline.py:295-299 | between two events of one tracker id the stream was reopened or the id had gone unseen for the timeout |
| TrackLifecycle.NotReleasedStaysSent | src/vehicle_intelligence/application/pipeline.py:881-900 | until then the id stays resting, or live with its event sent |
| TrackLifecycle.VehiclePipeline.TablesAreDisjoint | src/vehicle_intelligence/application/pipeline.py:881-890 | no key is both active and completed |
| TrackLifecycle.VehiclePipeline.ExpireCompleted | src/vehicle_intelligence/application/pipeline.py:892-900 | exactly the ids unseen for the timeout are released |
| TrackLifecycle.VehiclePipeline.FinalizeTrack | src/vehicle_intelligence/application/pipeline.py:881-890 | a finalized track moves to the resting ids; a failed finalization leaves it active |
| TrackLifecycle.VehiclePipeline.FinalizeTimedOut | src/vehicle_intelligence/application/pipeline.py:859-871 | on success exactly the tracks seen within the timeout stay |
| TrackLifecycle.VehiclePipeline.ChangeEpoch | src/vehicle_intelligence/application/pipeline.py:506-525 | a new epoch finalizes every track first and clears both tables |
| TrackLifecycle.VehiclePipeline.See | src/vehicle_intelligence/application/pipeline.py:295-308 | a resting id is only noted; another visible one is tracked |
| TrackLifecycle.VehiclePipeline.ProcessVehicleFrame | src/vehicle_intelligence/application/pipeline.py:281-328 | resting ids are noted at the frame's time, and so is every id it shows; nothing else is logged but finalizations; crossing tracks leave the active ones |
| TrackLifecycle.VehiclePipeline.ProcessPlate | src/vehicle_intelligence/application/pipeline.py:353-418 | without a vehicle detector: an id is noted, and finalized as soon as it crosses; then it rests from the frame's time |
| TrackLifecycle.VehiclePipeline.ProcessPlateFrame | src/vehicle_intelligence/application/pipeline.py:330-365 | the same for a frame without a vehicle detector, whose ids are processed one after the other up to the first failure |
| TrackLifecycle.VehiclePipeline.ProcessItem | src/vehicle_intelligence/application/pipeline.py:168-190 | an item adds to the log its tick; when its epoch is new, finalizations of the epoch before and then the reopened stream; then sightings of ids it reports and finalizations of its own epoch; when it succeeds, every id it shows has been noted; the epoch after it is the one the log tells |
| TrackLifecycle.EventsAreApart | src/vehicle_intelligence/application/pipeline.py:168-190 | in terms of the items: between two events of one tracker id an item reopened the stream, after the first and before the second even when it shares an item with one of them, or a later item arrived at least the timeout after one that reported the id, with no item between showing it |
| TrackLifecycle.GrowingEpochsLeaveTheTimeout | src/vehicle_intelligence/application/pipeline.py:295-299 | while epochs only grow, as a camera stream counts them, only that timeout can separate two events of one tracker id |
| TrackLifecycle.VehiclePipeline.Run | src/vehicle_intelligence/application/pipeline.py:162-213 | the log consists of one segment per item; any two events of one tracker id are so apart in the items; a run whose final finalization succeeds ends without an active track |

## Left out

- Realtime.RealtimeSubscription.Receive: a receive that does not sleep. Realtime.RealtimeSubscription.ReceiveAsleep is the one that sleeps while events arrive; after an overtaking the counts stay exact, but the order of the deliveries is only as stated there. Closing a subscription discards queued events without a gap, as in the source, so the position law ends there.
- Realtime.RealtimeHub.Publish: timestamps and the snapshot of the statistics.
- EventWorker.VehicleEventWorker.ProcessEvent: the realtime announcement after post-processing and the policy counters, which never decide an acknowledgement.
- EventWorker.VehicleEventWorker.ProcessGroups: the bound on concurrently running groups; any interleaving at message granularity is allowed.
- PlateConsensus.ConfidenceBounds: `exp` and the cube root are arguments with their ranges; rounding of floats is not modelled.
- PlateNormalization.Normalize: ASCII texts; upper-casing of other scripts and the constant confidence attached to each correction are left out.
- FinalizationOutbox.FilesystemOutbox.ReplayOnce: the wake-up task, delivery timeouts and the remembered fatal error around it; within the protocol an integrity failure cannot arise, so the flag is never set. A stage call is one turn here; its single system calls interleave with deliveries in OutboxProtocol. Permissions, owners, link counts, symbolic links and lock files are left out.
- OutboxProtocol.StagedEventsSurvive: one namespace of one camera; foreign files in the directory and a reduced limit after a restart are not modelled.
- Finalization.VehicleEventFinalizer.FinalizeTrack: the branch without an outbox, in which a retry builds a new event with a new creation time, and the event status derived from the plate.
- Supervisor.CameraSupervisor.ReconcileOnce: health records and the counters of the statistics; only whether writing them raises matters.
- TrackLifecycle.VehiclePipeline.Run: one run of a new pipeline, since a run closes its source. Detection, cropping and scoring of a frame are left out; a sighting says whether the box is visible and whether the track crosses the line; without a vehicle detector only ids that a plate matches are sightings.
- LiveMonitor.LiveMonitorService.Ingest: until `close`, which clears the rings without counting them as evicted; snapshots, reconnecting and receive times are left out.
- TrainingRuns.SafeIff: one run; runs do not share state beyond the limits of TrainingRuns.FileModelTrainingRunRepository.Create. Submission arguments and the start and finish times of a run are left out.
- Scheduler.FairLatestFrameScheduler.Pop: `wait_batch` waits, with the lock released, for other locked steps and then pops; its waiting times are left out. Every locked step keeps the invariant, so it holds whenever the lock is free.
- Weighted re-identification scores and verdicts: a weighted mean like that of PlateConsensus.ClusterScoreBounds, followed by threshold tests.
- Expected calibration error and release gates: sums and threshold tests over records.
- Matching plate detections to tracks by overlap of boxes: one maximum over a list.
- Direction geometry, action claims, circuit breaker, retention and the services that only store and list: easy or not decidable from the code alone.
- Detectors, trackers, OCR, image scoring, HTTP routers, configuration checks and logging.
