# Verified model of the rental assistant's protocols

This project models, in Dafny, the parts of the rental-assistant repository that are protocols,
state machines or exact computations, and proves what they guarantee.

| files | what they model |
|---|---|
| `RunnerPool`, `RunnerSteps`, `GraphRuntime` | the pool of event-loop runners of the agent graph: quarantine, heartbeat, rotation, publication. `RunnerPool` is the state machine, every locked section one step and steps of all threads interleaving; `RunnerSteps` says what each step does to the fields; `GraphRuntime` is the mutated objects, proved against it |
| `BackupPaths`, `BackupDisk`, `BackupPermissions` | member names, the sorted order, a file tree with its system calls, and the order in which permissions are set |
| `BackupStaging`, `BackupCreate`, `BackupArchive`, `Extraction`, `BackupManifest`, `BackupRestore`, `BackupFields`, `ArchiveFields` | the backup from source directories to the restored target: staging, manifest, archive, bounded extraction, verification, swap with rollback, and the round trip; the last two say on the fields of sources and archives what is taken, accepted and given back |
| `Percentile`, `Bootstrap` | the nearest-rank percentile and the bootstrap interval over an arbitrary stream of indices |
| `GateInputs`, `GateMetrics`, `Lifecycle`, `LifecycleEvents`, `GateChecks`, `PairedGate`, `GateTheorems`, `GateTotals`, `GateFields`, `GateOutcomes`, `GateIntervals`, `GateWitness` | the promotion gate: what it reads, what it counts, its 23 checks, the voiding pass, the outcome, and what each outcome guarantees |
| `TurnLifecycle` | one chat request under every combination of failures |
| `Erasure` | the privacy erasure over stores that may fail in any way |
| `ListingRegistry` | the registry of recommended listings and the write-back of a turn |
| `RunDriver`, `FixtureReplay` | the budgeted, resumable run loops and the fixture queue |
| `BraceScanner` | the extraction of objects from malformed text |
| `Prelude` | `Option` and `Result` |

Failures, clocks, randomness and other processes are parameters: a statement for all of them covers
every behaviour. A method is proved against a specification function or states its result outright;
the lemmas are about those functions.

Where the code does not do what its documentation suggests, the code is modelled and the exact
condition is proved:

- The pool can lose its last runner if a heartbeat is answered before the rotation takes its lock
  (`CapacityCanBeLost`), and even in ordered runs it can refuse work while a runner is available
  (`OrderedRunCanStall`).
- A file name with a backslash is backed up without complaint and refused by every restore
  (`BackupRoundTrip`).
- A directory that the backup process may not list is backed up as an empty one, without an error. The
  same happens to a directory it did copy but, not being root, may not list in its own copy, which has
  the modes of the source (`BackupCanLoseFiles`, and exactly when in `BackupRoundTrip`).
- The audit does not see specialist model calls of a run whose lifecycle is not a list
  (`ModelCallCanBeHidden`), so that a round can be promoted over any of them
  (`PromoteOverModelCalls`, and exactly when in `PromotedWithoutModelCallsIff`).
- The voiding pass can turn a measured regression into an unmeasurable hold
  (`RegressionCanBeHidden`, `RegressionIsHiddenIff`); a negative confidence turns the interval round
  (`NegativeConfidenceReverses`).
- An erasure that answers "forgotten" leaves every checkpoint thread that no conversation lists.
  Deleting a conversation while the deletion of its thread fails makes such a thread, and an erasure
  with checkpointing switched off makes one of every thread (`CompleteMeansEmpty`, `MakesOrphanIff`,
  `ForgottenThreadStays`).
- An erasure whose fence is not taken down locks out every later one (`FenceIsUpIff`,
  `OneCleanAttemptCompletes`).
- A fixture file that declares no record is not a closed world: unless the run is offline, every call
  reaches the live tool (`LiveIffNothingDeclared`).
- Only live mode looks at the cap before a unit; that offline sessions keep it too is because their
  calls have no price (`SessionKeepsCapIff`, `FreeRunSpendsNothing`).
- A telemetry record can say 200 for a request that a failing after-request hook turned into a 500
  (`RecordCanBeWrong`, and exactly when in `Request.Serve`).
- The brace scanner needs no hypothesis about its text: also where the running depth goes negative it
  returns exactly the blocks whose depth comes back to zero for the first time
  (`RescueIndividualObjects`).

## Model

| member | source | states |
|---|---|---|
| `RunnerPool.PoolIsBoundedAndLoopBound` | app/app.py:150-211 | In every interleaving from start-up at most two runners and two graphs exist, the published graph is the active runner's own (none without an active runner), and all submissions to a loop are of the one graph built on it. |
| `RunnerPool.StepIsSafe` | app/app.py:110-211 | Each single step of any thread keeps the safety invariant; runners are never removed and a runner's graph, once set, is never replaced. |
| `RunnerPool.RunIsSafe` | app/app.py:110-211 | The same over runs of any length. |
| `RunnerPool.StepKeepsCapacityIff` | app/app.py:123-190 | "No runner active implies every runner is held back or about to be restored" survives a step exactly when the step is not a rotation away from a runner that has already recovered, with no other runner to turn to. |
| `RunnerPool.OrderedRunKeepsCapacity` | app/app.py:123-190 | If every heartbeat is answered after its own rotation, capacity is never lost in any run. |
| `RunnerPool.NextRecoveryRestores` | app/app.py:137-164 | In an ordered run without lost heartbeats, whenever no runner is active, the pending work of any one runner makes it active with its own graph. |
| `RunnerPool.CapacityCanBeLost` | app/app.py:167-190 | A concrete run from start-up, without the ordering, that ends with no active runner, an available one, and nothing pending for it. |
| `RunnerPool.StepKeepsLeavingIff` | app/app.py:157-190 | "A quarantined active runner is about to be rotated away" survives a step exactly when the step does not install a runner that was quarantined again meanwhile. |
| `RunnerPool.OrderedRunCanStall` | app/app.py:157-190 | A concrete ordered run after which the pool refuses work although a runner would take it. |
| `RunnerSteps.EnsureIs` | app/app.py:288-341 | On the fields: exactly when a graph is built, for which runner, what is published and held, and that the tools once constructed stay even if the graph is not. |
| `RunnerSteps.RotationIs` | app/app.py:172-190 | On the fields: the first other runner not quarantined takes over with its own graph; without one a fresh runner if there are fewer than two, else none. |
| `RunnerSteps.RecoveryIs` | app/app.py:157-164 | On the fields: a recovered runner takes over with its own graph exactly if none is active, and changes nothing else. |
| `RunnerSteps.CallsAre` | app/app.py:114-147 | On the fields: a call is accepted exactly by a runner not quarantined; a passed deadline quarantines it and owes one heartbeat and one rotation, only the first time. |
| `RunnerSteps.AnswerIs` | app/app.py:137-144 | On the fields: an answered heartbeat clears the flag and owes the callback. |
| `RunnerSteps.ToolsStayForGood` | app/app.py:302-314 | Over any run the tool registry, once set, stays set. |
| `GraphRuntime.AgentRuntime.EnsureAgentRuntime` | app/app.py:288-341 | The locked section, on the mutated objects, is the step EnsureRuntime, whether building the tools or the graph fails; which graph is returned and exactly when it raises. |
| `GraphRuntime.AgentRuntime.SubmitCall` | app/app.py:114-121 | Submission goes to the graph's own runner and is refused exactly when that runner is quarantined. |
| `GraphRuntime.AgentRuntime.QuarantineOwner` | app/app.py:123-147 | Quarantining on a passed deadline is the step AbandonCall; a second caller is told not to rotate. |
| `GraphRuntime.AgentRuntime.FindStandby` | app/app.py:176-180 | The search returns the first other runner of the list that takes work, or none. |
| `GraphRuntime.AgentRuntime.PickStandby` | app/app.py:176-183 | That runner, or a fresh one appended while there is room, or none. |
| `GraphRuntime.AgentRuntime.RotateFrom` | app/app.py:172-190 | The locked rotation is the step RotateAway. |
| `GraphRuntime.AgentRuntime.HeartbeatAnswered` | app/app.py:137-144 | Clearing the flag is the step AnswerProbe. |
| `GraphRuntime.AgentRuntime.OnRunnerRecovered` | app/app.py:157-164 | The recovery callback is the step RestoreRunner. |
| `BackupPaths.SafeNameIff` | deploy/runtime_backup.py:487-494 | A member name is accepted as path p exactly when p is a legal relative path and the name is p joined, with any slashes appended: "a" and "a/" are one key and nothing leads upwards. |
| `BackupPaths.SafeNameOfJoin` | deploy/runtime_backup.py:487-494 | Of the names a POSIX tree can hold, exactly those with a backslash are refused. |
| `BackupPaths.JoinIsInjective` | deploy/runtime_backup.py:514-517 | Two legal paths with the same key are the same path. |
| `BackupPaths.ListingIsTopDown` | deploy/runtime_backup.py:300-312 | A part-wise sorted listing names every directory before anything beneath it, and nothing twice. |
| `BackupPaths.SortPaths` | deploy/runtime_backup.py:300-312 | Sorting a set of paths gives the unique ascending listing. |
| `Extraction.CreatableIffFits` | deploy/runtime_backup.py:525-536 | After n fitting entries, the next can be created exclusively exactly when it repeats no entry, lies above none and below no file. |
| `Extraction.PlacedPaths` | deploy/runtime_backup.py:525-536 | The tree made by the first n entries holds those entries and the directories above them, and nothing else. |
| `Extraction.PlacedEntry` | deploy/runtime_backup.py:515-544 | No entry is overwritten by a later one. |
| `Extraction.CopyMember` | deploy/runtime_backup.py:535-542 | The chunk loop, with reads of any length, ends having written exactly the member's size, or all there was of a truncated member. |
| `Extraction.AdmitMember` | deploy/runtime_backup.py:511-524 | The checks before a member touches the disk, in their order, accept exactly the members that pass all of them. |
| `Extraction.ExtractMember` | deploy/runtime_backup.py:525-544 | One member is created exactly when its path is free below directories and its bytes are all there; a refused one leaves everything else in place. |
| `Extraction.ExtractNext` | deploy/runtime_backup.py:510-544 | One round of the loop succeeds exactly when its member is in order, and keeps the seen keys, byte total and mode map exact. |
| `Extraction.SafeExtract` | deploy/runtime_backup.py:497-549 | Extraction succeeds exactly on archives all of whose members are in order, leaving exactly those members; otherwise it stops at the first bad member, leaving exactly those before it and, of a truncated one, what there was of it. Bytes written never exceed the limit, at any write, nor members processed theirs. |
| `ArchiveFields.SafeNameIs` | deploy/runtime_backup.py:487-494 | A member name stands for a path exactly if it is the path's parts joined by slashes with any slashes appended, at least one part, none of them empty, "." or "..", and no backslash. |
| `ArchiveFields.ExtractableIs` | deploy/runtime_backup.py:497-549 | The archives that are extracted, member by member and in pairs: within the counts, all bytes there, no path twice, and nothing below a file or above an earlier entry. |
| `BackupManifest.ManifestPathOfJoin` | deploy/runtime_backup.py:552-559 | The joined name of a legal path under a head is a valid manifest path for that head. |
| `BackupManifest.LoadAndVerifyManifest` | deploy/runtime_backup.py:585-667 | Verification accepts exactly the trees whose layout, file set, sizes, digests, databases and directory roots match their manifest. |
| `BackupManifest.ReadRows` | deploy/runtime_backup.py:607-627 | The first row loop accepts exactly when every row is well formed and none is for the path of an earlier one, and collects their paths. |
| `BackupManifest.CompareContents` | deploy/runtime_backup.py:637-642 | The second row loop accepts exactly when every file has its recorded size and digest. |
| `BackupManifest.CheckRows` | deploy/runtime_backup.py:607-642 | The row loops accept exactly when every row is well formed, describes its file, no path repeats, and the rows are the payload's files. |
| `BackupManifest.CheckDatabases` | deploy/runtime_backup.py:644-653 | Accepts exactly distinct listed databases that are payload files and pass the quick check. |
| `BackupManifest.CheckRoots` | deploy/runtime_backup.py:655-666 | Accepts exactly distinct listed roots that are directories. |
| `BackupManifest.VerifiedPayloadIsTheRecordedOne` | deploy/runtime_backup.py:629-642 | Two verified trees with the same manifest bytes have the same payload files, of the same sizes and digests; two versions of a file are the same bytes or a collision of SHA-256. |
| `ArchiveFields.VerifiedIs` | deploy/runtime_backup.py:585-667 | The trees that pass verification, on the manifest's own values: the two names at the top, each file below payload in exactly one row with its size and digest, the databases and roots among them. |
| `BackupPermissions.SortIsSorted` | deploy/runtime_backup.py:686-689 | The stable sort by the key is a reordering into files first, then deepest directories first. |
| `BackupPermissions.NothingBeneathIsLater` | deploy/runtime_backup.py:686-690 | Whatever follows a directory in that order does not lie beneath it. |
| `BackupPermissions.ApplyModes` | deploy/runtime_backup.py:686-690 | Every mode is set and no chmod is refused: at each one every directory above the path is still searchable, however restrictive the modes. |
| `BackupRestore.CollectModes` | deploy/runtime_backup.py:674-685 | One entry for each archived path below the payload that exists, with its permission bits and kind. |
| `BackupRestore.Parent.StageAndSwap` | deploy/runtime_backup.py:727-758 | The swap with rollback, with a fault switch at every call: when it succeeds, what it leaves, and that nothing is lost. |
| `BackupRestore.Parent.RestorePayload` | deploy/runtime_backup.py:711-758 | Whichever call fails, a non-empty old tree is intact at the target or under the previous name; on success the target is the payload and the returned name is exactly where the old tree went; without overwrite a non-empty target is untouched. The target is missing afterwards exactly when both the install and the rollback rename fail. |
| `BackupRestore.VerifyArchive` | deploy/runtime_backup.py:811-841 | Extraction, verification and staged modes together accept exactly the restorable archives and give their restored tree. |
| `BackupRestore.RestoreBackup` | deploy/runtime_backup.py:761-857 | A refused archive or target changes nothing; an accepted one ends as exactly its payload unless a call of the swap fails. |
| `BackupArchive.ArchiveRows` | deploy/runtime_backup.py:272-289 | One row for each file of the listing, with its size and digest, in order. |
| `BackupArchive.WriteTar` | deploy/runtime_backup.py:300-315 | One member for each path of the listing, in order. |
| `BackupArchive.RowsAreTheFiles` | deploy/runtime_backup.py:272-289 | Every file has its row and every row its file. |
| `BackupArchive.RowsAreDistinct` | deploy/runtime_backup.py:272-289 | No two rows name the same path. |
| `BackupArchive.EntriesFit` | deploy/runtime_backup.py:308-314 | Listed in that order, every member of a staged tree can be created: exclusive creation never fires. |
| `BackupArchive.ArchiveExtractableIff` | deploy/runtime_backup.py:497-549 | The archive of a tree extracts exactly when no name has a backslash and it is within the limits. |
| `BackupArchive.ArchiveExtractsToStaging` | deploy/runtime_backup.py:497-549 | It then extracts to the staged tree with private modes. |
| `BackupArchive.StagedIsVerifiedIff` | deploy/runtime_backup.py:585-667 | The extracted staging tree verifies exactly when its manifest is within the size limit. |
| `BackupArchive.ArchiveRoundTrip` | deploy/runtime_backup.py:761-857 | An archive of a staged tree is restorable exactly under those three conditions, and then restores the staged payload with its permission bits. |
| `BackupStaging.CollectExcluded` | deploy/runtime_backup.py:408-413 | The loop collects the excluded paths ExcludedFiles (which they are: BackupFields.ExcludedIs). |
| `BackupFields.ExcludedIs` | deploy/runtime_backup.py:408-413 | A path is excluded exactly if it stands in the directory of a database and its last part is the database's file name, or that name with "-wal", "-shm" or "-journal". |
| `BackupStaging.CopyChild` | deploy/runtime_backup.py:237-263 | One child is copied, skipped because excluded, or refused: as a link or special entry, or because the process may not look at it or read it. |
| `BackupStaging.VisitDirectory` | deploy/runtime_backup.py:229-263 | One directory of the walk: accepted exactly when none of its children is refused. |
| `BackupStaging.CopyDirectory` | deploy/runtime_backup.py:217-269 | For every top-down order of the walk, which passes over directories it may not list: the copy is refused exactly when the walk comes to an entry that is refused, and otherwise is what it comes to, with the modes of the source and without the excluded files. |
| `BackupCreate.CreateBackup` | deploy/runtime_backup.py:357-464 | A backup is created exactly when labels are valid and distinct, there is a source, the database images pass, nothing the walks come to is refused, and what is found of the copy can be opened; it is the archive of the staged sources as far as they are found. |
| `BackupStaging.SourcesAreStaged` | deploy/runtime_backup.py:415-461 | What create stages satisfies everything the archive round trip needs. |
| `BackupStaging.StagingIsLegalIff` | deploy/runtime_backup.py:415-461 | The staging tree has only legal names exactly when no copied name has a backslash. |
| `BackupCreate.FoundIsStaged` | deploy/runtime_backup.py:272-315 | What rglob finds of the staged copy is the staging of exactly those source entries below directories that may be listed. |
| `BackupCreate.CanOpenAllIff` | deploy/runtime_backup.py:272-315 | Everything found can be opened exactly when the modes of the sources allow it. |
| `BackupCreate.BackupRoundTrip` | deploy/runtime_backup.py:357-857 | The round trip: a fresh backup is restorable exactly when no archived name has a backslash, the archive is within the limits and the manifest within its size; the restored tree is then what was found of every source tree without the excluded files and every database image, and nothing else; it is the whole of every source exactly when nothing lies below a directory that the process may not list, where it stands or in the copy. |
| `BackupFields.RestoredIs` | deploy/runtime_backup.py:357-857 | What a backup gives back, on the sources' fields: every image under its label, and of a directory source exactly the entries below directories that could be listed that are no database and no side file of one, with their bytes and permission bits; no excluded file is in the restored tree. |
| `BackupFields.CreatableIs` | deploy/runtime_backup.py:357-464 | When a backup is created, on the fields: labels well formed and distinct, some source, images that pass, every entry the walk comes to no link, not special and readable, and its copy openable. |
| `BackupCreate.BackupCanLoseFiles` | deploy/runtime_backup.py:225-315 | Two concrete sources that are backed up without an error and without a file: it lies in a directory of another user that only its owner may list, or in one that only its group may list. Of the second, root loses nothing. |
| `Percentile.SortIsSorted` | evaluation/run_benchmark.py:2201 | Sorting gives an ascending permutation. |
| `Percentile.Rank` | evaluation/run_benchmark.py:2205-2210 | The clamped rank is always an index of the sample. |
| `Percentile.PercentileIsObserved` | evaluation/run_benchmark.py:2194-2210 | The percentile is a value of the sample, and absent exactly for an empty one. |
| `Percentile.PercentileIsMonotone` | evaluation/run_benchmark.py:2194-2210 | It is monotone in the fraction, for every fraction. |
| `Percentile.PercentileIgnoresOrder` | evaluation/run_benchmark.py:2194-2210 | It is the same for every permutation of the sample. |
| `Percentile.PercentileIsNearestRank` | evaluation/run_benchmark.py:2194-2210 | At least ceil(p*n) values are at or below it and fewer than that many strictly below. |
| `Percentile.PercentileStandsAt` | evaluation/run_benchmark.py:2194-2210 | At any fraction the percentile is a sample value with fewer than p*n values below it and at least p*n at or below, and the least or greatest value beyond the ends. |
| `Percentile.AggregateIsWithin` | evaluation/paired_gate.py:395-405 | Mean and median lie within any bounds of the sample. |
| `Percentile.AggregateIs` | evaluation/paired_gate.py:395-405 | The mean times the size is the sum; the median is midway between the two middle values of the sorted sample and splits it in halves. |
| `Percentile.SumAppends` | evaluation/paired_gate.py:395-405 | The sum element by element. |
| `Percentile.SumIgnoresOrder` | evaluation/paired_gate.py:395-405 | The sum is the same for every order of the values. |
| `Percentile.MedianSplitsSample` | evaluation/paired_gate.py:395 | At least half of the values are at or below the median and at most half strictly below it. |
| `Percentile.MedianIgnoresOrder` | evaluation/paired_gate.py:375 | The median is the same for every order of the values. |
| `Bootstrap.BootstrapCi` | evaluation/paired_gate.py:378-410 | The draw loop, for any stream of indices, computes the percentile interval; there is none exactly for fewer than two values or no resample. |
| `Bootstrap.DrawIs` | evaluation/paired_gate.py:391-399 | Draw k is the statistic of a resample of the same size, value i of it the sample's at the stream's index k*n + i. |
| `Bootstrap.IntervalIs` | evaluation/paired_gate.py:399-410 | Low and high stand among the draws at the fractions (1 - confidence)/2 and 1 minus that, counted; the point is the statistic of the sample. |
| `Bootstrap.IntervalIsWithinSample` | evaluation/paired_gate.py:378-410 | Low, high and point lie between the least and greatest sample value; low <= high for every non-negative confidence and high <= low for every non-positive one. |
| `Bootstrap.NegativeConfidenceReverses` | evaluation/paired_gate.py:400-406 | A concrete sample and stream where a negative confidence turns the interval round. |
| `Lifecycle.GroupedIsTraces` | evaluation/paired_gate.py:539-544 | The dictionary built event by event holds, for each task, exactly its events in order. |
| `Lifecycle.LifecycleAudit` | evaluation/paired_gate.py:529-593 | The audit's loops compute how many specialist tasks there are, the total of each status, which are refused, and the specialist calls. |
| `LifecycleEvents.AuditAcceptsIff` | evaluation/paired_gate.py:560-586 | Event by event: a task is accepted exactly if it is planned once, ended once, started at most once and unless skipped, has one specialist's role and one given parent throughout, and no call count missing or negative. |
| `LifecycleEvents.EventsAre` | evaluation/paired_gate.py:533-551 | The events audited are exactly the object entries of the lifecycle lists, each under its run, plan and task. |
| `LifecycleEvents.TasksIff` | evaluation/paired_gate.py:533-560 | There is a task exactly if some entry is an object. |
| `LifecycleEvents.MalformedIff` | evaluation/paired_gate.py:539-541 | Malformed entries are reported exactly if some list holds an entry that is no object. |
| `LifecycleEvents.ToolCallsIff` | evaluation/paired_gate.py:545-551 | Tool calls are reported exactly if a run with a lifecycle list holds one of a specialist. |
| `LifecycleEvents.ModelCallsIff` | evaluation/paired_gate.py:552-557 | Model calls are reported exactly if a run with a lifecycle list holds one of a specialist. |
| `Lifecycle.AuditTasks` | evaluation/paired_gate.py:560-586 | Summing the status counts task by task, in any order, gives the totals over all events. |
| `Lifecycle.SummarizeLifecycle` | evaluation/run_benchmark.py:871-916 | The summariser's direct counting gives the same totals and exactly the unbalanced tasks; it raises exactly on an entry that is no object. |
| `Lifecycle.TasksAreConserved` | evaluation/paired_gate.py:529-593 | With no refused task, over any number of runs: planned = tasks = completed + failed + skipped, and completed + failed <= started <= planned. |
| `Lifecycle.SummaryAgreesWithAudit` | evaluation/run_benchmark.py:894-916 | Beside equal task counts and totals (AuditTasks, SummarizeLifecycle): each task only the audit refuses is wrongly attributed, and a clean audit of any task makes the summary balanced. |
| `Lifecycle.NoModelCallIff` | evaluation/paired_gate.py:533-557 | The audit reports no specialist model call exactly when the runs that have a lifecycle list contain none. |
| `Lifecycle.ModelCallCanBeHidden` | evaluation/paired_gate.py:536-538 | A run whose lifecycle is not a list hides its specialist model call from the audit. |
| `GateChecks.Checks.SetOutcome` | evaluation/paired_gate.py:443-451 | The first row of that name is overwritten unless it is a BLOCK. |
| `GateChecks.Checks.Find` | evaluation/paired_gate.py:440-441 | The first row of that name. |
| `GateChecks.Checks.VoidDependentChecks` | evaluation/paired_gate.py:1079-1091 | The voiding loop is the pass over the six dependent checks. |
| `GateChecks.OutcomeIff` | evaluation/paired_gate.py:488-508 | Which rows make BLOCK, HOLD_REGRESSION and PROMOTE; exit code 0 exactly for PROMOTE. |
| `GateOutcomes.OutcomeIs` | evaluation/paired_gate.py:488-508 | On the rows: BLOCK for any BLOCK, else HOLD_REGRESSION for a plain hold of another check than identity_binding, else HOLD_UNMEASURABLE for anything held or unmeasurable, else PROMOTE; exit codes 3, 4, 2, 0. |
| `GateOutcomes.ReasonsAre` | evaluation/paired_gate.py:453-486 | Which rows each of the four lists of a report names, row by row. |
| `GateChecks.ModuloOfflineIff` | evaluation/paired_gate.py:510-526 | The offline signal holds exactly without BLOCK and hold reasons; with no unmeasurable prerequisite it is PROMOTE. |
| `GateOutcomes.ModuloOfflineIs` | evaluation/paired_gate.py:510-526 | On the rows: the offline signal holds exactly if no outcome is BLOCK, HOLD, VACUOUS or LOW_POWER. |
| `GateChecks.HoldReasonsSplit` | evaluation/paired_gate.py:453-486 | Hold reasons are, as multisets, the measured and the unmeasured ones together. |
| `GateChecks.HoldReasonsAreDisjoint` | evaluation/paired_gate.py:453-486 | With distinct names, every reason is in exactly one of the two. |
| `GateChecks.VoidedAt` | evaluation/paired_gate.py:1079-1091 | What the pass does to each row. |
| `GateOutcomes.VoidedIs` | evaluation/paired_gate.py:1079-1091 | With the six checks named: a row becomes VACUOUS unless it is BLOCK or unmeasurable, every other row stays. |
| `GateOutcomes.FinalIs` | evaluation/paired_gate.py:1079-1095 | The pass is made exactly if every pair was answered and too many answers are the same. |
| `GateChecks.VoidingKeepsReasons` | evaluation/paired_gate.py:1079-1091 | The pass clears no BLOCK, drops no hold reason and adds exactly the checks it voids. |
| `GateChecks.VoidingChangesOutcomeIff` | evaluation/paired_gate.py:1079-1091 | BLOCK stays; a measured regression survives exactly when it lies outside the six; nothing becomes PROMOTE. |
| `GateMetrics.IndexRuns` | evaluation/paired_gate.py:167-175 | The last run of each key, and a duplicate for each repetition. |
| `GateMetrics.NoDuplicatesIff` | evaluation/paired_gate.py:167-175 | No duplicate is reported exactly when all keys differ. |
| `GateMetrics.IndexedIsTheRun` | evaluation/paired_gate.py:167-175 | With distinct keys the index returns exactly the run of the key. |
| `GateMetrics.MeasurementGaps` | evaluation/paired_gate.py:229-287 | The number of required measurements missing or unusable. |
| `GateMetrics.NoGapsIff` | evaluation/paired_gate.py:229-287 | There is none in the runs exactly when every run is complete. |
| `GateMetrics.SecurityViolations` | evaluation/paired_gate.py:596-623 | The violations, in the order they are collected. |
| `GateMetrics.NoViolationIff` | evaluation/paired_gate.py:596-623 | There is none exactly when the summary lists none and every run is clean. |
| `GateMetrics.CountAnswers` | evaluation/paired_gate.py:320-328 | How many pairs are comparable and how many identical. |
| `GateMetrics.PairedLatencyDiffs` | evaluation/paired_gate.py:363-375 | The median difference of every case, over its repeats. |
| `GateIntervals.CaseMediansAre` | evaluation/paired_gate.py:363-375 | Each case with a difference is named once, and its value is the median of candidate minus baseline over its pairs with both latencies. |
| `GateIntervals.RoundIntervalIs` | evaluation/paired_gate.py:860-866 | The interval of a round, over those medians: none for fewer than two cases or no resample, else the point is their mean and the ends are counted among the draws of the mean. |
| `PairedGate.EvaluatePair` | evaluation/paired_gate.py:663-1095 | The 23 checks in order, the voiding pass, and the outcome folded from them, for any order of the pairs and any stream of random indices. |
| `PairedGate.MakeChecks` | evaluation/paired_gate.py:680-1078 | The sequence of insertions builds exactly the specified rows. |
| `GateTheorems.GateRowsAreDistinct` | evaluation/paired_gate.py:680-1078 | The 23 checks have distinct names. |
| `GateTheorems.BlockIffViolation` | evaluation/paired_gate.py:776-785 | The round is BLOCK exactly when the candidate shows a violation. |
| `GateTheorems.FinalKeepsReasons` | evaluation/paired_gate.py:1079-1095 | In every round the pass keeps BLOCK and hold reasons, and each final reason is measured or unmeasured, not both. |
| `GateTheorems.RegressionIsHiddenIff` | evaluation/paired_gate.py:1079-1095 | A round goes from HOLD_REGRESSION to HOLD_UNMEASURABLE exactly when too many answers are identical, nothing is blocked, and every measured regression is in one of the six checks. |
| `GateTheorems.PromoteIff` | evaluation/paired_gate.py:663-1095 | The exact condition of PROMOTE and of exit code 0. |
| `GateFields.PromotedIs` | evaluation/paired_gate.py:663-1095 | PROMOTE and exit code 0 exactly if, on the fields of summaries, runs and interval: every one of the 23 conditions holds, each written out without the gate's own predicates. |
| `GateFields.IdentityRowsAre` | evaluation/paired_gate.py:682-774 | The first six rows, each PROMOTE or HOLD by its fields: no load error; architectures, modes and specialists; configuration, repeats, selection and case ids; equal distinct keys of at least min_pairs; no measurement missing; one non-empty commit, clean in both. |
| `GateFields.GuardRowsAre` | evaluation/paired_gate.py:776-794 | BLOCK exactly if the candidate shows a violation; the existing gates hold exactly if gate_passed and slo_ok are true in both summaries. |
| `GateFields.QualityRowsAre` | evaluation/paired_gate.py:801-858 | The five quality rows as inequalities between totals over the paired runs, and no baseline pass lost. |
| `GateFields.ResourceRowsAre` | evaluation/paired_gate.py:860-972 | The five resource rows: enough distinct repeats, else LOW_POWER; the interval's high end and the 95th percentiles within their allowances; call, failure and cost totals within theirs. |
| `GateFields.SafetyRowsAre` | evaluation/paired_gate.py:974-1055 | The four safety rows on the fields: the lifecycle, BLOCK for a failed constraint of the kind, unmeasurable offline, else held unless the flag is observed and a constraint of the kind is present. |
| `GateFields.DistinctRowIs` | evaluation/paired_gate.py:1054-1078 | The last row: held without pairs or with an answer missing, VACUOUS above the allowed share of equal answers. |
| `GateFields.ReadingsAre` | evaluation/paired_gate.py:184-226 | What every quantity is of one run, field by field, with 0 for what is missing. |
| `GateFields.FailuresAre` | evaluation/paired_gate.py:184-226 | A tool call failed unless its success is true. |
| `GateTheorems.OfflineIsNeverPromoted` | evaluation/paired_gate.py:771-774 | With offline_execution unset or true no input reaches PROMOTE or exit code 0. |
| `GateTheorems.PromoteIsSound` | evaluation/paired_gate.py:663-1095 | PROMOTE implies, of the two run lists: no duplicates, equal key sets of at least min_pairs, complete measurements, every baseline pass kept, no pair over its LLM-call allowance, every task trace balanced and attributed, no model call in runs with a lifecycle list, no violation, and at most the allowed share of identical answers. |
| `GateTheorems.PromotedWithoutModelCallsIff` | evaluation/paired_gate.py:533-557 | A promoted candidate made no specialist model call in any run exactly when the runs whose lifecycle is not a list made none. |
| `GateTheorems.SlowEverywhereIsNeverPromoted` | evaluation/paired_gate.py:860-910 | A candidate slower than the allowance on every case is not promoted, whatever the random indices. |
| `GateTotals.MetricsAreTotals` | evaluation/paired_gate.py:184-226 | The aggregated metrics are plain totals over the runs aggregated. |
| `GateTotals.PairedRunsAreAll` | evaluation/paired_gate.py:803-806 | With distinct keys and equal key sets the paired runs are a permutation of all the runs. |
| `GateTotals.TotalIgnoresOrder` | evaluation/paired_gate.py:184-226 | Totals are the same for every order of the runs. |
| `GateTotals.PromotedTotals` | evaluation/paired_gate.py:801-972 | PROMOTE implies, over the full run lists in any order: completed tasks, passes, the constraint, grounding and source rates, LLM calls, tool calls, tool failures, cost and the p95 latency, all within their thresholds. |
| `GateWitness.PromoteIsReachable` | evaluation/paired_gate.py:663-1095 | A concrete round, declared not offline, that reaches PROMOTE for every stream of random indices: the conditions can all be met. |
| `GateWitness.PromoteOverModelCalls` | evaluation/paired_gate.py:533-557 | For any model calls of specialists, a round that is promoted with a candidate run that made them: its lifecycle is not a list. |
| `GateWitness.RegressionCanBeHidden` | evaluation/paired_gate.py:1079-1095 | A round, all of whose 23 rows the gate makes, with a failed pair that HOLD_REGRESSION would report and that ends as HOLD_UNMEASURABLE. |
| `TurnLifecycle.Request.Emit` | app/app.py:1016-1099 | At most one record; the flag is set only once the record is out, and setting it may fail on its own. |
| `TurnLifecycle.Request.EmitBoundary` | app/app.py:1227-1266 | The boundary record is written only if none was. |
| `TurnLifecycle.Request.RunTurn` | app/app.py:1721-2005 | From the open turn: exactly when it is cancelled, raises, or answers with which status; what the stored turn becomes; what its record says; that a failed turn discards its session slice. |
| `TurnLifecycle.Request.Serve` | app/app.py:1190-1222 | For every combination of failures: exactly one record, none if its emission fails; on the fields, which status is returned, which outcome is recorded, what the stored turn becomes and when the session is discarded; the recorded status is the returned one exactly when no after-request hook fails or the response was a 500 anyway. |
| `TurnLifecycle.Request.Judge` | app/app.py:1863-1931 | The turn is failed exactly when the agent, a guard or the snapshot failed, and a crash exactly when something raised, was blocked or could not be serialized or saved. |
| `TurnLifecycle.RecordCanBeWrong` | app/app.py:1190-1201 | A concrete request whose only record says 200 and whose client gets a 500. |
| `Erasure.UserStores.DeleteThread` | app/app.py:1431-1457 | One thread is deleted and verified; success exactly when nothing is left and nothing was raised. |
| `Erasure.UserStores.DeleteThreads` | app/app.py:3973-3981 | The loop over the listed conversations, in any order. |
| `Erasure.UserStores.ForgetMe` | app/app.py:3917-4075 | One attempt is the specified change of all stores; the fence is up afterwards exactly if it was before or taking it down failed. |
| `Erasure.WhatGoes` | app/app.py:3945-4046 | What an admitted attempt leaves of each store, on the stores: memory and threads go whatever becomes of the other; then rows and favorites, credentials, slices, each only once what is before it is gone. |
| `Erasure.WhatIsAnswered` | app/app.py:3917-4075 | Which failures are answered as partial, which crash the request, and when it is refused. |
| `Erasure.UserStores.DeleteConversation` | app/app.py:3736-3745 | The row goes first, then the slice, then the thread; what became of the thread is not looked at, and a slice that raises leaves it. |
| `Erasure.UserStores.ClearConversation` | app/app.py:3893-3901 | The slice and the thread go, the row stays. |
| `Erasure.UserStores.ClearHistory` | app/app.py:3902-3905 | All rows first, then their threads, then the slices. |
| `Erasure.AttemptsAreInOrder` | app/app.py:3945-4046 | Over any sequence of attempts with any failures: rows go only once memory is gone, credentials only once the rows are, hot slices last, the session only once all is empty; nothing ever comes back. |
| `Erasure.MakesOrphanIff` | app/app.py:3735-4000 | No request removes a thread that no conversation lists, and exactly which requests leave one: an erasure with checkpointing off, or a deletion of conversations whose threads are not deleted with them; clearing one conversation never does. |
| `Erasure.CompleteMeansEmpty` | app/app.py:4047-4072 | "forgotten" implies every layer is empty but the threads; of these exactly the ones no conversation listed before stay, and with checkpointing off all of them. |
| `Erasure.OrphansStay` | app/app.py:3735-4075 | Over any sequence of erasures, deletions and clearings: unlisted threads never go, and erasures with checkpointing on make none. |
| `Erasure.FenceIsUpIff` | app/app.py:3922-4075 | The fence is up exactly if it was up before or one attempt failed to take its own down: no other request ever takes it down. |
| `Erasure.OneCleanAttemptCompletes` | app/app.py:3917-4075 | After any such sequence one attempt without failures completes exactly if no attempt left its fence up, and leaves nothing but the unlisted threads; otherwise every further attempt is refused. |
| `Erasure.ForgottenThreadStays` | app/app.py:3735-3745 | A concrete run: one conversation deleted while the deletion of its thread fails; the erasure then answers "forgotten" and the thread is still there. |
| `ListingRegistry.TrailingSlashIsTheSame` | app/app.py:2290-2300 | A trailing slash does not make another listing. |
| `ListingRegistry.StoredKeyIsTheSame` | app/app.py:2331-2345 | A stored entry has the key of the recommendation it came from. |
| `ListingRegistry.KeyIs` | app/app.py:2289-2300 | The key case by case: the url, else the address with the digits of the price, else none. |
| `ListingRegistry.StripIs` | app/app.py:2289-2300 | What is stripped is white space at both ends, and all of it. |
| `ListingRegistry.LowerIs` | app/app.py:2289-2300 | Capital number i becomes letter number i, and nothing else changes. |
| `ListingRegistry.ConsiderOne` | app/app.py:2319-2346 | One round of the loop: skip, stop at the cap, or append with the next index. |
| `ListingRegistry.MergeRecommendedRegistry` | app/app.py:2303-2347 | The loop over local list, seen keys and highest index computes the merge; stopping early at the cap changes nothing. |
| `ListingRegistry.MergeSplits` | app/app.py:2303-2347 | merge(merge(e, r1), r2) = merge(e, r1 ++ r2). |
| `ListingRegistry.ExistingIsPrefix` | app/app.py:2303-2347 | Existing entries stay an unchanged prefix and the cap is respected. |
| `ListingRegistry.AppendedAreFresh` | app/app.py:2327-2346 | Every new index is above all earlier ones and every new key differs from all others. |
| `ListingRegistry.AppendedIsRecommended` | app/app.py:2319-2346 | Every appended entry is one of the recommendations, not excluded and not unknown, with its fields, added to the merge of the ones before it. |
| `ListingRegistry.RecommendedIsRegistered` | app/app.py:2319-2346 | No verified recommendation is lost while there is room. |
| `ListingRegistry.MergeIsIdempotent` | app/app.py:2303-2347 | Merging the same recommendations again changes nothing. |
| `ListingRegistry.Session.WriteBackTurn` | app/app.py:2664-2724 | Dropped turns and history together are the old history and this turn; at most ten stay; the registry is merged. |
| `ListingRegistry.Session.WriteBackAll` | app/app.py:2664-2724 | Over a whole conversation no turn is lost between history and what was dropped, and the registry is one merge of everything recommended. |
| `RunDriver.TryUnit` | evaluation/run_benchmark.py:2681-2715 | One unit: skipped if done, refused if the cap could be exceeded, else executed and accounted. |
| `RunDriver.UnitIs` | evaluation/run_benchmark.py:2681-2715 | A unit not done is executed exactly if offline, the first, or cost * (completed + 1) <= cap * completed; then the run stops exactly on refused credentials that matter or a cost above the cap. |
| `RunDriver.NoRunWasUnaffordable` | evaluation/run_benchmark.py:2686-2688 | Over any plan: no live run was started that, at the average cost so far, went over the cap. |
| `RunDriver.PlanAt` | evaluation/run_benchmark.py:2680-2683 | The unit at every position of a plan: repeats outermost, then the cases in order. |
| `RunDriver.AblationHas` | evaluation/run_ablation.py:488-501 | Which units an ablation holds: which configurations, and the retrieval study at least three repeats. |
| `RunDriver.AblationOrder` | evaluation/run_ablation.py:274-280 | The order of the configurations. |
| `RunDriver.RunBenchmark` | evaluation/run_benchmark.py:2680-2716 | The nested loops, left at a stop, are the fold over the whole plan. |
| `RunDriver.Ablation.DriveConfig` | evaluation/run_ablation.py:219-262 | One configuration on the shared budget is the fold over its plan. |
| `RunDriver.Ablation.RunStudy` | evaluation/run_ablation.py:274-280 | A study stops at the configuration that hit the cap. |
| `RunDriver.Ablation.Run` | evaluation/run_ablation.py:491-501 | Both studies are one fold over the concatenated plans: the second is not begun after a stop. |
| `RunDriver.NothingAfterStop` | evaluation/run_benchmark.py:2680-2716 | Nothing starts after a stop. |
| `RunDriver.StepKeepsCapIff` | evaluation/run_benchmark.py:2686-2715 | For any costs, live or not: one unit keeps spending within the cap and the last run exactly when the mode is live, the unit is skipped, or the cap is not exceeded yet. |
| `RunDriver.RunKeepsCap` | evaluation/run_benchmark.py:2658-2716 | In live mode spending never exceeds the cap by more than the last run, from any such state, with any plan. |
| `RunDriver.SessionKeepsCapIff` | evaluation/run_benchmark.py:2658-2716 | A resumed session keeps it exactly when it is live, the cap is not exceeded yet, or everything is done. |
| `RunDriver.ResumedRunIsOnTrack` | evaluation/run_benchmark.py:2658-2716 | A resumed run executes each unit at most once and in the plan's order; unless it stops, exactly the plan without repetitions. |
| `RunDriver.SessionsAreSafe` | evaluation/run_benchmark.py:2650-2716 | Over any sequence of resumed invocations, each with its own selection, mode and cap: no unit is executed twice, the checkpoint is what the executed runs add up to, and spending exceeds the largest cap so far by at most one run; offline nothing is spent. |
| `RunDriver.SessionsFollowThePlan` | evaluation/run_benchmark.py:2650-2716 | If all have one selection: its order is kept, and an invocation that is not stopped, or that is offline on a budget not exceeded, completes it. |
| `RunDriver.ResumeAblation` | evaluation/run_ablation.py:463-501 | Invocations of the ablation on the checkpoint of the one before are such a sequence of sessions: every unit of their plan at most once, and all of them once an invocation is not stopped. |
| `RunDriver.FreeRunSpendsNothing` | evaluation/run_benchmark.py:2686-2715 | Offline, where every call is to a model without a price, a plan spends nothing, and is stopped exactly when the cap was already exceeded and something is left to do. |
| `FixtureReplay.LoadFixtureQueue` | evaluation/run_benchmark.py:212-232 | The queue built item by item. |
| `FixtureReplay.LoadedIs` | evaluation/run_benchmark.py:212-232 | It holds each tool's records in order, and no tool without a record. |
| `FixtureReplay.RecordsAre` | evaluation/run_benchmark.py:212-232 | Which items are records of a tool: those that name it; "unknown" also those that name none. |
| `FixtureReplay.PatchedTools.NextResult` | evaluation/run_benchmark.py:1338-1364 | One call: next record, last record again, denied, canned or live. |
| `FixtureReplay.RecordsAreConserved` | evaluation/run_benchmark.py:1338-1350 | Records left plus min(calls, declared) equals declared, for any calls. |
| `FixtureReplay.RepliesAreRecorded` | evaluation/run_benchmark.py:1338-1359 | The i-th call to a bound tool gets record min(i, declared); every other call is denied. |
| `FixtureReplay.LiveIffNothingDeclared` | evaluation/run_benchmark.py:235-241 | For every file loaded, all calls and both modes: the reply is live exactly if the case declares no record and the run is not offline, and canned exactly if it declares none and is offline. |
| `FixtureReplay.ReportIsTrue` | evaluation/run_benchmark.py:277-283 | The unserved count is what is still queued, and "served" means every bound tool was called. |
| `BraceScanner.BlocksAreExact` | fine_tuning/generate_data.py:284-318 | The spans are exactly the top-level blocks, disjoint and in text order. |
| `BraceScanner.RescueIndividualObjects` | fine_tuning/generate_data.py:284-318 | On every text, also with unbalanced braces, the candidates are exactly those blocks. |
| `BraceScanner.ScanInvertsJoin` | fine_tuning/generate_data.py:284-318 | Scanning balanced objects between brace-free separators returns precisely those objects. |

## Left out

- RunnerPool.StepIsSafe: quarantining a runner and queueing its heartbeat are one step, and a rotation is placed at the moment it reads the standby's flag; no other thread can observe a state in between that these would change.
- RunnerPool.NextRecoveryRestores: a heartbeat that is never answered (a loop that never becomes responsive again) is excluded by hypothesis; loops are never closed and their threads never die.
- BackupStaging.CopyDirectory: the detection of writers that change a file while it is copied is not modelled; the directory a source stands in may be searched; ownership and modification times are not kept in the model.
- BackupCreate.CreateBackup: sources are staged in the order of the arguments, not sorted by label (only the order of two manifest lists depends on it); parsing LABEL=PATH, the checks of the output path, and publishing the archive by a hard link are left out.
- BackupManifest.LoadAndVerifyManifest: JSON is a codec with a lawful round trip and SHA-256 and the SQLite quick check are functions; the checks of the manifest's JSON types belong to that codec. gzip and age encryption are the identity.
- BackupRestore.Parent.RestorePayload: the target's parent directory is a map from names; another process may put something at the target once, while the payload is staged.
- PairedGate.EvaluatePair: report texts, the median interval, the tool-sequence comparison and the per-pair rows are reporting only and left out; list entries that are not objects, on which the gate raises, and lists of another type are read as empty; latencies, costs and ratios are reals.
- GateMetrics.IndexRuns: case ids and repeats come in as what str() and int() make of their JSON values; the text of numbers and lists is not computed.
- GateTheorems.PromoteIsSound: states the absence of specialist model calls only for runs that have a lifecycle list, because the code looks at no others (GateWitness.PromoteOverModelCalls).
- Bootstrap.BootstrapCi: random.Random is an arbitrary stream of indices, and fmean and median are exact.
- TurnLifecycle.Request.Serve: the exits before a turn is opened (validation, replay, busy, erasure in progress), headers, texts and the background worker are left out; a store operation is atomic.
- Erasure.UserStores.ForgetMe: the death of the process in the middle of an attempt is the same as failing deletions and a fence that stays up; counts and error names in the response are left out.
- ListingRegistry.Session.WriteBackTurn: preferences, search criteria, result contexts and the rolling-summary worker are left out, and so are list entries that are not dictionaries, which are skipped; white space and letter case are those of ASCII.
- RunDriver.SessionsAreSafe: every invocation ends by itself; a crash before its checkpoint is saved (after each run in the benchmark, after each study in the ablation), after which units can be executed twice, is outside it.
- FixtureReplay.PatchedTools.NextResult: the payload of a result and the recording of evidence are left out.
- BraceScanner.RescueIndividualObjects: json.loads and the validation of an example are one arbitrary function.
- Routing, CORS, cookies, rate limits, the language model, the tools, LangGraph and the user interface: foreign calls and plumbing.
- evaluation/report.py, evaluation/results_package.py, evaluation/rescore.py, evaluation/cache_snapshot.py, evaluation/memory_eval.py and the training scripts: report writing, or case splits that one branch settles.
