# Verification of herdr-routines' persisted state machines

herdr-routines is an unattended scheduler. What it must get right survives the process that wrote it: a pipeline's
`state.json`, the audit ledger, the run history, the runner's checkout, the claim store, the local branches. This
project models those seven machines in Dafny and proves what each keeps over every run: across crashes, relaunches,
concurrent processes and any number of nights. Everything outside the programs (git, `gh`, agents, clocks, systemd) is
an input that may answer anything.

`dafny verify dfyconfig.toml` checks the whole project.

| file | what it models |
|---|---|
| `Findings.dfy`, `AuditCycles.dfy`, `FindingsFiles.dfy` | the audit findings ledger, its cycles, its two files (`findings.py`) |
| `History.dfy`, `HistoryCodec.dfy` | the append-only run history, its rotation, the folds over it (`history.py`); a codec that meets its assumptions |
| `Schedule.dfy` | what is due, what was missed (`schedule.py`, `digest.py`) |
| `CommitChecks.dfy`, `SelfUpdate.dfy` | the commit gate and the nightly self-update (`gates.py`, `self_update.py`) |
| `Claims.dfy` | the claim store and concurrent pickers (`claims.py`, `pick_feature.py`) |
| `BranchGc.dfy` | deleting stale branches (`gc.py`) |
| `ReviewScan.dfy` | choosing pull requests to review (`review_scan.py`, attempt counting in `auto_fix.py`) |
| `StageSessions.dfy` | the stage table and the session check (`pipeline_stages.py`, `pipeline_watchdog.py`) |
| `PipelineState.dfy`, `PipelineMachine.dfy`, `PipelineSafety.dfy`, `PipelineAnswers.dfy`, `PipelineRun.dfy`, `PipelineExamples.dfy` | the crash-resumable pipeline (`pipeline_run.py`), and launches of it |
| `Watchdog.dfy`, `WatchedRun.dfy` | the stall watchdog and its one resume (`pipeline_watchdog.py`); a run and its watchdog together |
| `Common.dfy`, `Sequences.dfy`, `Sorting.dfy`, `Json.dfy`, `Git.dfy` | what they share |

How the models are built:

- Code that loops or updates in place is a method with loop invariants, proved against a declarative predicate or a
  specification function; what the source promises is then proved about that function, or over runs of it.
- A test that decides something (past its deadline, dead, releasable, a rise, validated) is a predicate, and a lemma
  beside it says in fields and numbers alone when it holds (`PartialMeans`, `DeadRunsAreActedOn`, `PicksNeedARelease`,
  `ListedBySeverity`, `UpdatedMeans` and their like).
- A crash is any prefix of a run. The pipeline is a machine over events; `PipelineRun.Pipeline.Run` is the imperative
  launch whose every effect is an enabled event of that machine, so the lemmas about all logs hold of all its launches.
  Each event is logged with the world of its launch, and must say what that world answered (`PipelineAnswers.Truthful`).
- The lock around the claim store is a state machine over single steps of any number of processes, each of which may
  die at any step; the transactions are proved serializable.
- `croniter` is a function to the next firing that is strictly after its argument and constant between firings; the
  local clock is an arbitrary function of time, so it may repeat values. Git is an acyclic ancestry relation.

Where the code and its documentation disagree, the code is modelled:

- `validate_stage_sessions` matches ids with `^ses_[A-Za-z0-9]{20,}$`, whose `$` also accepts one trailing newline, and
  a negative `current_stage` slices the stage table from the back (`StageSessions.RealId`, `StageSessions.Reached`).
- A stale claim whose id is no number makes `int()` raise, so the whole transaction is dropped and, while the PR query
  answers, no later pick succeeds (`Claims.UnparsableClaimBlocksPicking`).
- `self_update`'s "never re-attempt a commit already rejected" holds only for the last rejected one
  (`SelfUpdate.OnlyTheLastRejectionIsRemembered`), and a run killed after its merge leaves a commit that the next night
  takes for up to date (`SelfUpdate.KilledAfterMergeReadsUpToDate`).
- An append to the history cut off anywhere in its line, be it only the newline, costs the next record too
  (`History.TornTailSwallows`).
- A resume's "original budget" is measured to the current deadline when the launch record carries none
  (`Watchdog.BudgetGrowsWithoutALaunchDeadline`), and the resume cap does not count a launch whose document rewrite
  failed (`Watchdog.ResumesAreBounded`, `Watchdog.NoCapHoldsWithoutRewrites`).
- `run_pipeline` documents that it never raises, but its commit of `current_stage` is outside any handler, the gates'
  handlers catch no `OSError`, and nor does the report's writer: `PipelineRun.RaisesMeans` is the exact condition, and
  `PipelineExamples.ACommitThatFails` such launches.

## Model

| member | source | states |
|---|---|---|
| `Findings.DiffFindings` | src/herdr_routines/findings.py:227-261 | each current finding lands in exactly one of new, regressed, unchanged; with an open entry it is in regressed if and only if its severity went from low to medium or high, or from medium to high; open entries not reported are resolved, every list strictly ordered |
| `Findings.ClassifyAll` | src/herdr_routines/findings.py:240-249 | the classification loop puts every finding in its list, once, and in regressed exactly on a rise from the open entry's severity |
| `Findings.DiffDetermined` | src/herdr_routines/findings.py:227-261 | two ledgers that classify the findings alike have the same diff, in the same order |
| `Findings.ListedBySeverity` | src/herdr_routines/findings.py:240-249 | new: no open entry; regressed: an open entry and a rise, in severities written out; unchanged: an open entry and none |
| `Findings.MostSevereFirst` | src/herdr_routines/findings.py:124-132 | in an ordered list none comes before one more severe; among equals the order is location, kind, id |
| `Findings.CurrentIsTheLast` | src/herdr_routines/findings.py:235-238 | of several reported findings with an id the last counts |
| `Findings.PoolIsOwed` | src/herdr_routines/findings.py:264-272 | the dispatch pool is exactly the reported findings still owed a fix, most severe first, without repeats |
| `Findings.PoolInLedgerTerms` | src/herdr_routines/findings.py:264-272 | a reported finding is in the pool if and only if it has no open entry, its severity rose, or its entry is queued |
| `Findings.PoolDetermined` | src/herdr_routines/findings.py:264-272 | the pool depends on the ledger only through what is owed |
| `Findings.ApplyDiff` | src/herdr_routines/findings.py:275-334 | after the three-list fold every id is where its own automaton puts it and nothing else changed |
| `Findings.MarkHandedOff` | src/herdr_routines/findings.py:337-345 | only the named existing entries change, and only `queued` |
| `Findings.PruneLedger` | src/herdr_routines/findings.py:348-359 | only resolved entries with a parseable stamp before the cutoff go |
| `Findings.PrunedWhenOld` | src/herdr_routines/findings.py:348-359 | an entry goes if and only if it is resolved, its stamp parses, and that is more than the retention, in days of 24 hours, ago |
| `AuditCycles.RunCycle` | src/herdr_routines/findings.py:227-359 | diff, fold, prune and hand-off compose to one step per id |
| `AuditCycles.FoldOfDiff` | src/herdr_routines/findings.py:295-326 | on a real diff the fold sees each reported finding exactly once |
| `AuditCycles.ReportedEntryIsAsReported` | src/herdr_routines/findings.py:295-320 | after a cycle a reported finding's entry is open with what was reported, first seen as before, and queued if asked or if it was open and queued |
| `AuditCycles.UnreportedEntryIsResolved` | src/herdr_routines/findings.py:321-326 | an open entry not reported is resolved now, with everything else kept; any other is left alone |
| `AuditCycles.QueuedImpliesOpen` | src/herdr_routines/findings.py:302-326 | over every run of cycles a queued entry is open |
| `AuditCycles.StaysQueued` | src/herdr_routines/findings.py:295-326 | a queued finding stays queued while it is reported and nobody takes it |
| `AuditCycles.DebtStaysInPool` | src/herdr_routines/findings.py:264-320 | a queued finding is in every later dispatch pool until handed off or gone from the report |
| `AuditCycles.DebtIsTakenOn` | src/herdr_routines/findings.py:288-320 | a finding the caller queues is queued after the cycle unless a worker took it |
| `AuditCycles.SettledUntilBack` | src/herdr_routines/findings.py:337-345 | a handed-off entry stays unqueued over any cycles until the finding comes back |
| `AuditCycles.HandedOffReturnsOnlyByComingBack` | src/herdr_routines/findings.py:337-345 | once handed off, a finding is pooled again only after its severity rose above that of its open entry, or it was reported with its entry resolved or gone |
| `AuditCycles.AttemptsCounted` | src/herdr_routines/findings.py:297-303 | over any cycles an entry's attempts grow by exactly the cycles that reported and dispatched it; `first_seen` never moves |
| `AuditCycles.AttemptsSinceCreation` | src/herdr_routines/findings.py:297-303 | attempts equal the dispatched reports since creation, through every resolve and reappear |
| `AuditCycles.FoldSpendsDispatched` | src/herdr_routines/findings.py:284-303 | one fold raises the ledger's total attempts, over its own ids, by exactly the dispatched ids in the report |
| `AuditCycles.TotalShifts` | src/herdr_routines/findings.py:297-303 | a pointwise rise of attempts on some ids sums to their number |
| `AuditCycles.TotalOfAbsent` | src/herdr_routines/findings.py:297-303 | ids without an entry add no attempts |
| `AuditCycles.PruningIsInvisible` | src/herdr_routines/findings.py:348-359 | a ledger and its pruned form give the same diff and the same pool for every report |
| `AuditCycles.RediffIsQuiet` | src/herdr_routines/findings.py:227-334 | re-diffing the folded report yields nothing new, regressed or resolved |
| `FindingsFiles.LoadManifest` | src/herdr_routines/findings.py:175-221 | None exactly on an unverifiable document; else one finding per id, the first of its highest severity, strictly ordered, repeated ids listed once |
| `FindingsFiles.CollapseAll` | src/herdr_routines/findings.py:203-216 | the collapsing loop keeps the best finding per id and fails on any malformed element |
| `FindingsFiles.ParseAllMeans` | src/herdr_routines/findings.py:205-208 | a manifest parses exactly when every element does, element by element |
| `FindingsFiles.WhenAnElementParses` | src/herdr_routines/findings.py:138-172 | an element is a finding if and only if its texts are there, its severity is one of the three words, and an id of its own is a text, not blank, within 128 characters |
| `FindingsFiles.WhatAnElementParsesTo` | src/herdr_routines/findings.py:138-172 | each text is read under its own name, each severity by its own word, the id is its own or made from check, kind and location |
| `FindingsFiles.HeaderMeans` | src/herdr_routines/findings.py:190-202 | what the header must be for the elements to be read at all |
| `FindingsFiles.KeptIsMostSevere` | src/herdr_routines/findings.py:209-216 | the finding kept for an id is outdone by no more severe one, and is the first of its severity |
| `FindingsFiles.OrderMattersOnlyOnClashes` | src/herdr_routines/findings.py:209-216 | the manifest is independent of the report's order if and only if no id has two different most severe findings |
| `FindingsFiles.LoadLedger` | src/herdr_routines/findings.py:469-503 | the loading loop computes `ParseLedger`: corrupt on any bad entry, version, runs or updated |
| `FindingsFiles.LedgerRoundTrip` | src/herdr_routines/findings.py:393-503 | saving and loading returns the ledger if and only if it is well formed |
| `FindingsFiles.EntryRoundTrip` | src/herdr_routines/findings.py:393-466 | an entry survives saving exactly when its texts are non-empty and its attempts not negative |
| `FindingsFiles.SavedEntryReads` | src/herdr_routines/findings.py:393-414 | each field of an entry is saved under its own name |
| `FindingsFiles.SavedEntryWords` | src/herdr_routines/findings.py:393-414 | severity and state are saved in their own words |
| `FindingsFiles.LoadedIsWellFormed` | src/herdr_routines/findings.py:417-503 | whatever loads is well formed |
| `FindingsFiles.ManifestIsReportable` | src/herdr_routines/findings.py:138-221 | a loaded manifest's findings have unique ids and a kind and location |
| `FindingsFiles.CycleKeepsWellFormed` | src/herdr_routines/findings.py:275-359 | diff, fold, prune and hand-off over a loaded report keep the ledger well formed |
| `History.HistoryDir.Append` | src/herdr_routines/history.py:218-223 | the live file gains one line; on a clean file the contents gain exactly the record, for any record that is written |
| `History.HistoryDir.AppendCut` | src/herdr_routines/history.py:218-223 | a cut-off append leaves the first characters of its line |
| `History.TornTailSwallows` | src/herdr_routines/history.py:218-223 | an append cut off after any number of characters: the next one adds exactly its record if and only if the file is empty or ends in a newline; otherwise both records are lost and the contents stay those before the cut |
| `History.MissingNewlineLosesBoth` | src/herdr_routines/history.py:218-223 | with only the newline missing, a record that read back is lost to the next append, and so is the next |
| `History.HistoryDir.MaybeRotate` | src/herdr_routines/history.py:265-316 | rotates exactly when over a threshold and the name is free; nothing readable is lost, also when killed between rename and touch |
| `History.ThresholdMeans` | src/herdr_routines/history.py:319-330 | over the threshold: the text is longer than allowed, or its oldest readable record, or else the file, is older than the days allowed |
| `History.HistoryDir.RolledNames` | src/herdr_routines/history.py:247-251 | the sorted names are the rolls in the order they were made |
| `History.HistoryDir.ReadAll` | src/herdr_routines/history.py:226-244 | returns the rolls in order, then the live file |
| `History.HistoryDir.PerformAll` | src/herdr_routines/history.py:218-316 | after each of any operations the live file is complete lines and a tail of cut-off pieces, and reads as what is kept |
| `History.FileNamesSorted` | src/herdr_routines/history.py:254-262 | rolls made at increasing seconds have increasing names |
| `History.FilesHold` | src/herdr_routines/history.py:254-262 | each roll's name still leads to its own text: no later roll overwrote it |
| `History.ShelfGrows` | src/herdr_routines/history.py:304-314 | a roll whose name is free is newer than all others, and moves the live records behind theirs |
| `History.Replay` | src/herdr_routines/history.py:218-316 | any interleaving of appends, appends cut off after any number of characters, rotations under a non-decreasing clock, and crashes reads back the appended records in order, without those cut off and those that an unended tail swallows; with none cut off, exactly the appended ones |
| `History.NothingTornNothingLost` | src/herdr_routines/history.py:218-316 | when no append is cut off every record is kept, rotations or not |
| `History.LineBehind` | src/herdr_routines/history.py:218-223 | a whole line is a record if nothing unended is before it, and none otherwise |
| `HistoryCodec.AssumptionsCanBeMet` | src/herdr_routines/history.py:178-188 | there are a codec and stamps that meet all the history's assumptions, for every record whose extras are plain |
| `HistoryCodec.CodeIsUnique` | src/herdr_routines/history.py:178-188 | different records have different codes, whatever nested values they carry |
| `HistoryCodec.DebrisIsNoLine` | src/herdr_routines/history.py:226-244 | a line cut short, or several run together, is no line of that codec |
| `HistoryCodec.TwoRecordsLost` | src/herdr_routines/history.py:218-223 | a concrete record with its newline missing and one appended behind it: one read back, none does |
| `History.LastScheduledTerminalRun` | src/herdr_routines/history.py:380-405 | the one-pass loop with its set equals the last terminal record that is neither off-schedule nor after an off-schedule latest `running` |
| `History.OnlyCronRunsMoveTheSchedule` | src/herdr_routines/history.py:375-405 | a record moves the schedule if and only if it ends a run (done, failed, skipped, missed, interrupted) and neither it nor its run's latest `running` record names another trigger than the cron |
| `History.OffScheduleRunsAreInvisible` | src/herdr_routines/history.py:375-405 | an off-schedule run, however interleaved, does not change the last scheduled terminal record |
| `History.ScanRuns` | src/herdr_routines/history.py:431-439 | finds the latest `running` record and the run ids with a terminal record |
| `History.OpenRunMeans` | src/herdr_routines/history.py:425-449 | the open run is the latest `running` record, if no record ends its run |
| `History.FindStaleRunning` | src/herdr_routines/history.py:425-449 | returns the open run exactly when it is past its timeout and margin |
| `History.IsCurrentlyRunning` | src/herdr_routines/history.py:452-470 | holds exactly for an open run within its timeout and margin |
| `History.InFlightMeans` | src/herdr_routines/history.py:452-470 | in flight: an open run, at most its timeout and five minutes old |
| `Schedule.OccurrencesSince` | src/herdr_routines/schedule.py:59-89 | the loop with its seen set computes `Occurrences` |
| `Schedule.OccurrencesExact` | src/herdr_routines/schedule.py:59-89 | the window `(since, now]` holds exactly the firings in it whose local time no earlier firing of the window shows |
| `Schedule.OccurrencesIncrease` | src/herdr_routines/schedule.py:80-89 | occurrences strictly increase and lie in the window |
| `Schedule.OccurrencesPrefixMonotone` | src/herdr_routines/schedule.py:59-89 | windows with the same start grow only at the end |
| `Schedule.RepeatedWallAcrossWindows` | src/herdr_routines/schedule.py:69-77 | the dedupe is per window: a window starting between two equal local times acts on the second |
| `Schedule.DecideAccounts` | src/herdr_routines/schedule.py:92-141 | nothing is due exactly when the cron fired nowhere between the last scheduled end, or else the first sight of the job, and now; otherwise the last occurrence of that window, run if and only if at most the grace minutes ago |
| `Schedule.DecideMeans` | src/herdr_routines/schedule.py:92-141 | on the history: what is due is the last occurrence since the last scheduled end, and it is missed if and only if it is past its minutes of grace |
| `Schedule.SkippedAreAllOthers` | src/herdr_routines/schedule.py:115-126 | 1 + skipped is the whole window; first and last skipped are the first firing and the last before the one acted on |
| `Schedule.OffScheduleRunsDoNotMoveTheSchedule` | src/herdr_routines/schedule.py:92-113 | erasing a whole off-schedule run from a log interleaved with other jobs changes no decision |
| `Schedule.OccurrencesActedOnIncrease` | src/herdr_routines/schedule.py:92-141 | if every Due is answered by a scheduled terminal record stamped at or after its tick, acted occurrences strictly increase and windows never overlap |
| `Schedule.MissedRuns` | src/herdr_routines/digest.py:104-158 | one row per enabled, seen, not running cron job that `decide` calls MISSED, with the same occurrence, in config order |
| `Schedule.MissedRun` | src/herdr_routines/digest.py:126-157 | one job's turn: a row exactly when flagged |
| `Schedule.RowMeans` | src/herdr_routines/digest.py:126-157 | a job has a row if and only if it is enabled, has a cron, was seen, has no run in flight and its last occurrence is past the grace; the row says which, how late, and what ended last |
| `CommitChecks.EvaluateCommitChecks` | src/herdr_routines/gates.py:158-197 | passes if and only if there are checks, none pending, every conclusion accepted |
| `CommitChecks.VerdictInWords` | src/herdr_routines/gates.py:130-197 | the gate passes if and only if there are checks and each is COMPLETED, or not PENDING where only a state is given, and concluded SUCCESS, SKIPPED or NEUTRAL |
| `CommitChecks.NormalisedMeans` | src/herdr_routines/gates.py:130-140 | what is compared is the text between the blanks around it, in capitals |
| `CommitChecks.VerdictIgnoresCase` | src/herdr_routines/gates.py:130-151 | the verdict is the same for the lower-case and the upper-case API shape |
| `CommitChecks.NormalisedUpper` | src/herdr_routines/gates.py:130-140 | normalising does not depend on the casing of the token |
| `SelfUpdate.Runner.WaitForTickLock` | src/herdr_routines/self_update.py:447-467 | acquires exactly if some try within the bound finds the lock free, sleeping once per failed try before |
| `SelfUpdate.Runner.FastForwardTo` | src/herdr_routines/self_update.py:255-270 | HEAD moves only to the gated commit and only forward; a no-op when HEAD contains it |
| `SelfUpdate.Runner.RolledBackTo` | src/herdr_routines/self_update.py:494-538 | HEAD goes back unless the reset is refused; the commit is remembered either way, unless the run dies before or while writing it |
| `SelfUpdate.Runner.SelfUpdate` | src/herdr_routines/self_update.py:656-879 | exactly when each status is reported, what is notified, and where HEAD and the rejected commit end, wherever the run dies; `updated` only if validation passed without losing a job against the baseline, `rolled_back` only if it failed or lost one |
| `SelfUpdate.Runner.Deploy` | src/herdr_routines/self_update.py:797-879 | the same from the merge on, in the job counts before and after |
| `SelfUpdate.HeadMovesOntoGatedDescendant` | src/herdr_routines/self_update.py:768-816 | HEAD moves only to a descendant whose checks that night were there, none pending and all accepted, and that is not the rejected one, even when git stops answering or the run is killed |
| `SelfUpdate.StatusTellsTheTruth` | src/herdr_routines/self_update.py:809-879 | `updated` exactly when HEAD ends on a new commit whose validation passed with no fewer jobs than the baseline; other statuses leave HEAD unless a reset was refused, git did not answer or the run was killed after its merge; the third-SHA branch needs an unanswered read |
| `SelfUpdate.UpdatedMeans` | src/herdr_routines/self_update.py:656-879 | `updated` is reported if and only if lock, host, origin, checks, merge, validation and job counts are all as listed, and the run lives |
| `SelfUpdate.DroppedJobsRollBack` | src/herdr_routines/self_update.py:845-861 | a landed commit that fails validation or loses a job is rolled back and recorded, HEAD back unless the reset was refused |
| `SelfUpdate.QuietMeans` | src/herdr_routines/self_update.py:700-796 | the nights that stop before the merge, which cover all that do: deferred, refused or up to date, by which condition, with HEAD and the rejected commit left alone |
| `SelfUpdate.NoMergeMeans` | src/herdr_routines/self_update.py:797-844 | an attempted merge that cannot move HEAD: up to date when HEAD has the commit, refused when the two have parted or git will not |
| `SelfUpdate.LoudNights` | src/herdr_routines/self_update.py:656-879 | a night notifies if and only if it updated, rolled back or refused, or found the lock held all the time outside a dry run |
| `SelfUpdate.FreeMeans` | src/herdr_routines/self_update.py:447-467 | the lock is had if and only if it is free at once or, outside a dry run, at some five-second mark within the wait |
| `SelfUpdate.HeadNeverGoesBack` | src/herdr_routines/self_update.py:255-282 | over any nights HEAD only moves up the ancestry |
| `SelfUpdate.HeadIsValidated` | src/herdr_routines/self_update.py:845-879 | whatever runs after any nights ran from the start, or is the CI-accepted commit of the last night that moved HEAD; some night validated and reported it if and only if that night was answered, lived past its merge, and validation passed with no fewer jobs than the baseline |
| `SelfUpdate.OnlyTheLastMoveVouches` | src/herdr_routines/self_update.py:845-879 | a night that validated the commit HEAD is on is the last one that moved HEAD |
| `SelfUpdate.KilledAfterMergeReadsUpToDate` | src/herdr_routines/self_update.py:747-760 | a run killed between its merge and its verdict leaves a commit neither validated nor rejected, and the next night reports up_to_date |
| `SelfUpdate.RejectedCommitIsNotRetried` | src/herdr_routines/self_update.py:744-766 | while origin stays on the rejected commit no night moves HEAD or reports updated or up_to_date, killed or not |
| `SelfUpdate.OnRejectedOnlyIfResetRefused` | src/herdr_routines/self_update.py:748-758 | HEAD is the recorded rejected commit only after a refused reset |
| `SelfUpdate.OnlyTheLastRejectionIsRemembered` | src/herdr_routines/self_update.py:427-444 | a failing green commit is tried again if and only if it is not the last one rejected |
| `SelfUpdate.SameCommitRejectedTwice` | src/herdr_routines/self_update.py:427-444 | origin at a, b, a again: the same commit is rolled back twice |
| `SelfUpdate.RejectedTwice` | src/herdr_routines/self_update.py:427-444 | three concrete nights, at a, b and a, with a rolled back twice |
| `Claims.SelectsTheBest` | src/herdr_routines/pick_feature.py:127-157 | the selection is eligible, none eligible is before it, and it is empty exactly when none is eligible |
| `Claims.Claims.ReclaimStale` | src/herdr_routines/pick_feature.py:387-429 | releases exactly the claims at least 12 hours old, with the PR query answered, a numeric id that no open PR has and no run in flight for it; the others stay with their times; raises exactly on a claim as old with no numeric id, the query answered |
| `Claims.ClaimsFile.SelectAndClaim` | src/herdr_routines/pick_feature.py:443-527 | marked: reclaim, select and claim as one transaction, saved only if changed, dropped if it raised; unmarked: nothing written; a picked issue is open, behind no open PR of the pipeline, and unclaimed or held by a claim that could be released |
| `Claims.ExclusiveStep` | src/herdr_routines/claims.py:116-139 | every step keeps that only the lock holder is inside and that what it read is what the store says |
| `Claims.Serializable` | src/herdr_routines/claims.py:83-139 | for any interleaving and crashes the store equals the saved transactions run one after the other, as every unlocked reader sees |
| `Claims.DamageLosesClaims` | src/herdr_routines/claims.py:107-114 | a store damaged by hand loses its claims, so an issue is picked twice without a release |
| `Claims.HeldUntilReleased` | src/herdr_routines/pick_feature.py:424-428 | a claim keeps its time until a transaction releases it |
| `Claims.PicksAreSeparatedByARelease` | src/herdr_routines/pick_feature.py:387-429 | between two picks of an issue some transaction, at least 12 hours after the first claim, has the PR query answered without its number and no run in flight for it |
| `Claims.PicksNeedARelease` | src/herdr_routines/pick_feature.py:387-429 | between two picks of an issue some transaction releases the first claim, which is held until then |
| `Claims.PickMeans` | src/herdr_routines/pick_feature.py:127-157 | what is picked may be, and nothing that may be has a higher priority, or the same and a lower id |
| `Claims.NothingMeans` | src/herdr_routines/pick_feature.py:443-527 | when nothing is picked and nothing raised, no issue may be picked |
| `Claims.PickedIsUnclaimed` | src/herdr_routines/pick_feature.py:470-522 | a picked issue was claimed by nobody, and is claimed afterwards |
| `Claims.UnparsableClaimBlocksPicking` | src/herdr_routines/pick_feature.py:424-426 | a stale claim with a non-numeric id makes every later transaction raise while the query answers |
| `BranchGc.MergedPrFor` | src/herdr_routines/gc.py:483-511 | returns the first PR of the name whose head covers the tip |
| `BranchGc.MergedIsSafe` | src/herdr_routines/gc.py:514-528 | a merged branch's commits are on base or in a merged PR of its name |
| `BranchGc.MergedMeans` | src/herdr_routines/gc.py:483-528 | merged: git says base has the tip, or a merged PR of the name ended on it or on a known commit that has it |
| `BranchGc.Repo.CollectRows` | src/herdr_routines/gc.py:561-591 | one row per branch, in order, with its merge, worktree and age |
| `BranchGc.Repo.Collect` | src/herdr_routines/gc.py:881-898 | looks for uncommitted work, removes the worktree, deletes the branch; a dirty worktree is never touched |
| `BranchGc.Repo.DeleteAll` | src/herdr_routines/gc.py:876-898 | every chosen branch meets its fate, exactly the deleted ones go, dirty worktrees stay |
| `BranchGc.Repo.RunGcDelete` | src/herdr_routines/gc.py:795-929 | exit codes and lists for a failed listing, nothing to do, a missing `--yes`, and a run |
| `BranchGc.EligibleRow` | src/herdr_routines/gc.py:59-73 | an eligible row is of a listed branch, collectible, and not retained |
| `BranchGc.AgeMeans` | src/herdr_routines/gc.py:450-480 | the age counts from the PR's merge, else from the stamp in the name, else from the last commit |
| `BranchGc.CollectibleMeans` | src/herdr_routines/gc.py:53-73 | a merged branch may go if no age is asked for or its known age is that many days; an unmerged one if its directory is gone |
| `BranchGc.RetainedMeans` | src/herdr_routines/gc.py:308-320 | a pipeline branch stays while unmerged, under an open PR or with a run in flight |
| `BranchGc.DeletedIsSafe` | src/herdr_routines/gc.py:795-898 | no work is lost: a deleted branch is merged, old enough, clean and not a needed pipeline branch; `--force` adds only unmerged non-pipeline branches with no worktree directory |
| `BranchGc.FateMeans` | src/herdr_routines/gc.py:881-898 | deleted if and only if git deletes it and its worktree, if any, was listed, is clean or gone, and goes; skipped as dirty exactly on uncommitted work |
| `BranchGc.OldMergedIsDeleted` | src/herdr_routines/gc.py:795-898 | a listed, merged branch old enough, and no pipeline branch still needed, is deleted, unless its worktree is dirty or git refuses |
| `BranchGc.FatesPartition` | src/herdr_routines/gc.py:881-898 | deleted, failed and dirty partition the chosen |
| `BranchGc.SummaryAccountsForEligible` | src/herdr_routines/gc.py:859-912 | the four lists of the summary are exactly the branches dry-run counts as eligible, each once |
| `ReviewScan.Scan` | src/herdr_routines/review_scan.py:121-160 | None on a failed search; else eligible and skipped targets, one per key, each list sorted |
| `ReviewScan.EnumeratesOnce` | src/herdr_routines/review_scan.py:133-144 | every well-numbered result is enumerated exactly once under its key |
| `ReviewScan.SkippedFor` | src/herdr_routines/review_scan.py:104-118 | why a result is skipped, in order: another author, a routine's branch unless asked for, a fork |
| `ReviewScan.OlderMeans` | src/herdr_routines/review_scan.py:153-154 | the earlier created goes first, then the earlier updated, then the lower key |
| `ReviewScan.DecimalReadsBack` | src/herdr_routines/review_scan.py:133-144 | the number in a target's key reads back |
| `ReviewScan.ApplyAttemptBudget` | src/herdr_routines/review_scan.py:195-214 | splits by attempts below the budget, in order |
| `ReviewScan.ApplyMarkerGuard` | src/herdr_routines/review_scan.py:163-192 | splits by a trusted marker, an unread PR kept, reading exactly the given bodies |
| `ReviewScan.MarkedMeans` | src/herdr_routines/review_scan.py:163-192 | a PR is marked if and only if its bodies were read and one by a named, trusted author has the marker in it |
| `ReviewScan.Classify` | src/herdr_routines/review_scan.py:251-315 | scan, budget, marker on the cap's window, cap, with the rows in order |
| `ReviewScan.OldestAreDispatched` | src/herdr_routines/review_scan.py:217-226 | at most the cap is dispatched, oldest first, none created later than one left over, and nothing is left over below the cap |
| `ReviewScan.DispatchedIsEligible` | src/herdr_routines/review_scan.py:251-315 | whatever is dispatched came from the search, by the author if searched so, from no routine's branch unless asked for, from no fork, and has attempts left |
| `ReviewScan.RowsSayWhy` | src/herdr_routines/review_scan.py:251-315 | every row is of a target of the search, and its reason, in the PR's own fields, holds of that target |
| `ReviewScan.EveryTargetOnce` | src/herdr_routines/review_scan.py:251-315 | every enumerated target appears exactly once across rows and dispatchable |
| `ReviewScan.MarkedIsDispatchedOnlyByPromotion` | src/herdr_routines/review_scan.py:294-305 | no marked PR is dispatched if and only if none promoted from past the window is marked |
| `ReviewScan.MarkedMovesUp` | src/herdr_routines/review_scan.py:294-305 | with room for one, the newer of two reviewed PRs takes the place of the older skipped for its marker |
| `ReviewScan.MarkedIsDispatched` | src/herdr_routines/review_scan.py:294-305 | two concrete PRs, both marked: with room for one, the newer is dispatched |
| `ReviewScan.AttemptCountForTarget` | src/herdr_routines/auto_fix.py:1054-1068 | counts exactly the records of the target whose agent may have posted |
| `ReviewScan.WhatCosts` | src/herdr_routines/auto_fix.py:1041-1068 | an attempt is a record of the target that is done or interrupted, or failed for one of the five reasons listed or an unsettled status |
| `ReviewScan.RunConsumesOne` | src/herdr_routines/tick.py:4990-5111 | whatever a target's run appends counts for that target only, at most once, and only if the agent settled |
| `ReviewScan.CycleConsumes` | src/herdr_routines/tick.py:4731-4814 | one occurrence consumes at most one attempt of a target and none of a target out of budget |
| `ReviewScan.AttemptsStayWithinBudget` | src/herdr_routines/auto_fix.py:1041-1068 | over any cycles, each the selector's choice run target by target with deaths anywhere, no target consumes more than its budget and no attempt is given back |
| `StageSessions.ValidateStageSessions` | src/herdr_routines/pipeline_watchdog.py:139-205 | no issue exactly when ids are genuine, distinct but stage 7's after stage 4's, and every independent stage reached has its own |
| `StageSessions.FirstReuse` | src/herdr_routines/pipeline_watchdog.py:173-183 | the `seen` loop refuses exactly the repetitions the stage table does not allow |
| `StageSessions.RepeatsAllowed` | src/herdr_routines/pipeline_watchdog.py:173-183 | the one repetition allowed is key 7 after key 4 |
| `StageSessions.FirstNotGenuine` | src/herdr_routines/pipeline_watchdog.py:158-164 | every id is well formed and carries no placeholder word |
| `StageSessions.GenuineMeans` | src/herdr_routines/pipeline_watchdog.py:109-164 | an id is genuine if and only if it is `ses_` and at least twenty letters or digits, up to one newline, with none of the eight placeholder words in it in any case |
| `StageSessions.FirstUnrecorded` | src/herdr_routines/pipeline_watchdog.py:185-204 | every independent stage reached is recorded under its own key |
| `StageSessions.StagesAskedFor` | src/herdr_routines/pipeline_watchdog.py:185-204 | which keys a run at a stage must have on record, at any stage, negative ones too |
| `StageSessions.OrderMattersOnlyForTheShared` | src/herdr_routines/pipeline_watchdog.py:139-205 | acceptance is the order-blind condition on the ids and, if the ids of 4 and 7 are equal, key 4 listed first |
| `StageSessions.SortedKeysDecideAlike` | src/herdr_routines/pipeline_prepare.py:386-394 | on keys sorted as they are written to disk, acceptance is the order-blind condition |
| `StageSessions.SortedListing` | src/herdr_routines/pipeline_prepare.py:386-394 | any sessions can be listed with their keys sorted |
| `StageSessions.ReversedKeysAreRefused` | src/herdr_routines/pipeline_watchdog.py:173-183 | the same ids listed 7 before 4 are refused |
| `StageSessions.TableSays` | src/herdr_routines/pipeline_stages.py:85-149 | the independent stages are 1 to 4 and 6 |
| `PipelineState.ReadPayload` | src/herdr_routines/pipeline_run.py:239-322 | reading a written document back gives the same state |
| `PipelineState.ReadIsWellRead` | src/herdr_routines/pipeline_run.py:239-289 | what is read has normalised paths and no empty optional text |
| `PipelineState.ReadMeans` | src/herdr_routines/pipeline_run.py:239-289 | each field is read under its own key |
| `PipelineState.WhenItReads` | src/herdr_routines/pipeline_run.py:239-289 | a document reads if and only if it names its worktree, its branch and its spec |
| `PipelineState.PayloadKeepsTheRest` | src/herdr_routines/pipeline_run.py:291-322 | a write keeps every key the loop does not own and every artifact but the spec |
| `PipelineState.PayloadIsStable` | src/herdr_routines/pipeline_run.py:291-322 | a second write of the same state changes nothing |
| `PipelineState.ReadPrepared` | src/herdr_routines/pipeline_prepare.py:266-297 | the prepared document reads as a run at stage 0 with nothing recorded |
| `PipelineState.ReadResumed` | src/herdr_routines/pipeline_watchdog.py:765-772 | the watchdog's rewrite changes only the deadline the loop reads |
| `PipelineMachine.SoundStep` | src/herdr_routines/pipeline_run.py:1955-2133 | every event keeps the invariant between disk, memory and the place in the loop |
| `PipelineMachine.RunsAreSound` | src/herdr_routines/pipeline_run.py:1856-2133 | the invariant holds after every sequence of launches, crashes and rewrites |
| `PipelineMachine.PrOnRecordAndOkOnlyAtTheEnd` | src/herdr_routines/pipeline_run.py:1996-2018 | from stage 5 on a PR is on record, also for gates 6, 7 and CI; `ok` is reported only at stage 7 |
| `PipelineMachine.StageNeverDecreasesOrSkips` | src/herdr_routines/pipeline_run.py:1955-2133 | across launches, crashes and rewrites the stage never decreases or skips, and a base commit never changes once written |
| `PipelineMachine.StageMeansGatesPassed` | src/herdr_routines/pipeline_run.py:2078-2133 | `current_stage == k` on disk means the log has a passing verdict of gates 1 to k, in order (`StageMeansGatesAnswered` says what the gates answered) |
| `PipelineMachine.LastStep` | src/herdr_routines/pipeline_run.py:925-937 | one event moves the stage by one at most, from a passed gate, and only adds bases |
| `PipelineSafety.PushOnlyCheckedWork` | src/herdr_routines/pipeline_run.py:1297-1395 | a push comes after a CI check that exited 0, then named tests kept, then the issue done twice, with no launch, check or fix round in between (`PushIsBackedByAnswers` says what was observed) |
| `PipelineSafety.FixRoundsAreBounded` | src/herdr_routines/pipeline_run.py:1146-1237 | one launch has at most two fix rounds and one check more, and no round starts past the deadline |
| `PipelineSafety.CommittedStagesAreProven` | src/herdr_routines/pipeline_run.py:2119-2133 | every document committed at stage k passes the session check at k |
| `PipelineSafety.GoodIdsPass` | src/herdr_routines/pipeline_run.py:1598-1614 | recording a well-formed id that no other stage has keeps the ids fit for the check |
| `PipelineSafety.OnlyBadIdsAreRefused` | src/herdr_routines/pipeline_run.py:2119-2133 | past its gate a stage is refused its commit if and only if some id on disk is malformed or wrongly shared: over any run, no session it needs is missing |
| `PipelineSafety.TheCheckIsOrderBlind` | src/herdr_routines/pipeline_run.py:2119-2133 | the check before the commit, on the sorted listing of the ids held, accepts exactly when the machine may advance |
| `PipelineSafety.GoodIdsAreNeverRefused` | src/herdr_routines/pipeline_run.py:1598-1614 | over any run whose recorded ids are well formed and shared by 4 and 7 at most, no stage that passed its gate is refused its commit |
| `PipelineSafety.DiskIsRecorded` | src/herdr_routines/pipeline_run.py:1598-1614 | every session on disk was recorded by some event of the run under its stage |
| `PipelineSafety.RestOfTheDocumentIsKept` | src/herdr_routines/pipeline_run.py:291-329 | over any run the keys the loop does not own and every artifact but the spec stay as prepared |
| `PipelineAnswers.PushIsBackedByAnswers` | src/herdr_routines/pipeline_run.py:1297-1395 | before any push, the last CI check of that launch exited 0, every named test defined at the recorded stage-4 base was defined at HEAD, and git showed the issue done, both times it was asked; in that order with nothing redone in between |
| `PipelineAnswers.StageMeansGatesAnswered` | src/herdr_routines/pipeline_run.py:2078-2133 | `current_stage == k` on disk means that, in order, gates 1 to k each answered some launch that they pass |
| `PipelineAnswers.AdvanceIsBackedByAnswer` | src/herdr_routines/pipeline_run.py:2078-2133 | the launch that commits a stage is one to which that stage's gate answered that it passes |
| `PipelineAnswers.RunsHeard` | src/herdr_routines/pipeline_run.py:1297-1395 | at every place in the bookkeeping and past a gate, what the process relies on is what its launch was answered |
| `PipelineRun.Pipeline.Run` | src/herdr_routines/pipeline_run.py:1856-2167 | a launch ends with a report, or with an error that escapes, and which one, its outcome and the stage it leaves on disk are those of the state it found; it reports partial if and only if time ran out on it, spelled out in the clock and the recorded deadline; all it did is a run of the machine, told truthfully by its one world |
| `PipelineRun.RaisesMeans` | src/herdr_routines/pipeline_run.py:1856-2167 | an error escapes a launch, against "never raises", if and only if the report cannot be written or, at a stage reached, the gate or gate CI meets an error its handlers do not catch, or the gate and the session check pass and the commit of `current_stage` fails |
| `PipelineRun.HandledWritesAreReported` | src/herdr_routines/pipeline_run.py:1991-2071 | a failed write of a base, a session or the PR number is reported as failed and leaves the stage on disk |
| `PipelineRun.EscapeArrives` | src/herdr_routines/pipeline_run.py:2119-2150 | where an error escapes is the last stage on disk: the one before, or stage 5 itself when gate CI raises behind its commit |
| `PipelineRun.OkMeans` | src/herdr_routines/pipeline_run.py:1955-2167 | a launch comes out ok if and only if every stage from the one after the stage found up to 7 starts in time, does its work, passes its gate and the session check and is committed, and the report is written |
| `PipelineRun.PartialMeans` | src/herdr_routines/pipeline_run.py:1955-2018 | a launch comes out partial if and only if the report is written and, at some stage reached with all before it going, the deadline is at or before its start, or it is stage 5, its spec reads, the preflight succeeds and a fix round would start at or after the deadline |
| `PipelineRun.FailedMeans` | src/herdr_routines/pipeline_run.py:1955-2167 | it comes out failed if and only if the report is written, no error escapes, not every stage goes and time does not run out |
| `PipelineRun.AgentStageGoes` | src/herdr_routines/pipeline_run.py:1978-2133 | all that a stage with an agent takes to go, in the answers of the world and the document |
| `PipelineRun.PrStageGoes` | src/herdr_routines/pipeline_run.py:1297-1413 | all that stage 5 takes, down to the named tests, both readings of the issue, the push and the PR number |
| `PipelineRun.AgentStageEscapes` | src/herdr_routines/pipeline_run.py:2075-2133 | all that it takes for an error to escape from a stage with an agent |
| `PipelineRun.PrStageEscapes` | src/herdr_routines/pipeline_run.py:2075-2150 | and from stage 5, where gate CI may raise behind the commit |
| `PipelineRun.Pipeline.RunStage` | src/herdr_routines/pipeline_run.py:1955-2133 | one turn of the loop: it goes on with the same fate, or ends the launch as that fate says with the stage on disk that it says; partial if and only if time runs out at this stage |
| `PipelineRun.Pipeline.FinishStage` | src/herdr_routines/pipeline_run.py:1991-2133 | a started stage goes on if and only if its work, its gate, the session check and its commit succeed, leaving exactly its own results; otherwise the launch ends, reported or by an error that escapes |
| `PipelineRun.Pipeline.Finish` | src/herdr_routines/pipeline_run.py:1892-1918 | the outcome is reported exactly when the report can be written |
| `PipelineRun.Pipeline.Work` | src/herdr_routines/pipeline_run.py:1978-2059 | the work succeeds exactly when the spec reads, the base is recorded, and the agent or the PR step delivers; every event is what the world answered, and a failure leaves the stage on disk |
| `PipelineRun.Pipeline.WorkOfAgent` | src/herdr_routines/pipeline_run.py:1991-2059 | the base first where one is needed, then the agent, its session and the sweep |
| `PipelineRun.Pipeline.RecordStageBase` | src/herdr_routines/pipeline_run.py:925-937 | a base is recorded once and kept by a relaunch; nothing changes when it cannot be read or written |
| `PipelineRun.Pipeline.RunAgent` | src/herdr_routines/pipeline_run.py:1506-1614 | delivers exactly when the agent settles with a session id that can be written, and is then on record |
| `PipelineRun.Pipeline.RunPrStage` | src/herdr_routines/pipeline_run.py:1996-2018 | a PR number is recorded exactly when the bookkeeping and the opening succeed; partial exactly when a fix round came too late |
| `PipelineRun.Pipeline.FixCi` | src/herdr_routines/pipeline_run.py:1146-1237 | green exactly when some check among three exits 0 after rounds that all settled in time; partial exactly when a round came too late; each logged exit code is the one received |
| `PipelineRun.Pipeline.FixFrom` | src/herdr_routines/pipeline_run.py:1174-1237 | the loop over the fix rounds: where it stands after each, and how it comes out |
| `PipelineRun.Pipeline.CheckAndFix` | src/herdr_routines/pipeline_run.py:1174-1237 | one turn of the fix loop: goes round again exactly on a red check that a timely round settled, and otherwise settles how the loop comes out |
| `PipelineRun.GreenMeans` | src/herdr_routines/pipeline_run.py:1174-1237 | what green means, without the loop |
| `PipelineRun.FixesInWords` | src/herdr_routines/pipeline_run.py:1174-1237 | a red check is fixed if the command was there, the round starts before the deadline, the implementer's session is on record and the round settles |
| `PipelineRun.GreenInWords` | src/herdr_routines/pipeline_run.py:1174-1237 | green: check 0, 1 or 2 exits 0 and every check before it was fixed |
| `PipelineRun.LateInWords` | src/herdr_routines/pipeline_run.py:1174-1237 | too late: check 0 or 1 is red, all before it were fixed, and its round would start at or after the deadline |
| `PipelineRun.Pipeline.CloseTheIssue` | src/herdr_routines/pipeline_run.py:1331-1351 | closes exactly when the named tests of the recorded base are at HEAD and the issue is committed as done, logging both answers as read |
| `PipelineRun.Pipeline.OpenThePr` | src/herdr_routines/pipeline_run.py:1354-1413 | refuses when the issue is not done, then pushes, then opens and records the number, logging each answer as read; a failure leaves the document as it was |
| `PipelineRun.Pipeline.Judge` | src/herdr_routines/pipeline_run.py:2078-2133 | commits the stage exactly when the gate answered that it passes, the session check accepts and the write works; an error escapes exactly from the gate, that write or gate CI; otherwise the document is as it was |
| `PipelineRun.Pipeline.JudgeGate` | src/herdr_routines/pipeline_run.py:2075-2114 | the logged verdict is the gate's answer, failed when the base it compares with is missing; no verdict when the gate's error escapes |
| `PipelineRun.NamedTestChanges` | src/herdr_routines/pipeline_run.py:1025-1035 | removed are the named tests of the base missing at HEAD, edited those whose definitions differ |
| `PipelineExamples.ALaunchThatGoes` | src/herdr_routines/pipeline_run.py:1955-2167 | a prepared document and answers under which all stages go |
| `PipelineExamples.ACommitThatFails` | src/herdr_routines/pipeline_run.py:2133 | for each stage: the same launch with that stage's commit failing ends without a report, the stage before it on disk |
| `PipelineExamples.OneLaunch` | src/herdr_routines/pipeline_run.py:1856-2167 | the loop takes such a document from stage 0 to stage 7 in one launch |
| `Watchdog.RecordedPipelineDeadlines` | src/herdr_routines/pipeline_watchdog.py:288-306 | maps each run to the deadline of its last `running` record that carries one |
| `Watchdog.Watched.Reap` | src/herdr_routines/pipeline_watchdog.py:848-976 | what one sweep does, and where each death of the sweep leaves the run; a live sweep that sees the unit inactive and can list the panes leaves a run in flight alone if and only if it is not dead by the clock |
| `Watchdog.DeadRunsAreActedOn` | src/herdr_routines/pipeline_watchdog.py:398-443 | a live sweep acts on a run if and only if it is the named one, unreported, with a deadline on record, its unit inactive, its panes listed, and either the host booted over 60 s after the last state write or it is over 1800 s past the deadline with a stale heartbeat; else nothing changes |
| `Watchdog.ResumeMeans` | src/herdr_routines/pipeline_watchdog.py:617-675 | a dead run may be resumed if and only if its document names a repository and a report, its counter is below the cap and its launch record leaves it time; it gets that time again from now, and one more on the counter |
| `Watchdog.DeadlineMeans` | src/herdr_routines/pipeline_watchdog.py:288-354 | the deadline judged by is that of the last `running` record that carries one, else the document's |
| `Watchdog.FirstRunningMeans` | src/herdr_routines/pipeline_watchdog.py:645-653 | the launch record is the earliest `running` record of the run |
| `Watchdog.Watched.Resume` | src/herdr_routines/pipeline_watchdog.py:706-845 | history, then document, then launch, then the report of a failed launch |
| `Watchdog.StepPays` | src/herdr_routines/pipeline_watchdog.py:640-675 | every launch is on the counter or had a failed rewrite, every count is for a launch or a sweep that died before it, and the counter never passes the cap; a terminal action reports, and nothing follows a report |
| `Watchdog.LaunchesAreAccounted` | src/herdr_routines/pipeline_watchdog.py:706-976 | over any interleaving, whatever fails or dies: counter at the end + launches with a failed rewrite = counter at first + launches + counts wasted by deaths; the counter stays within the cap; one acting sweep at most comes on top of the launches |
| `Watchdog.ResumesAreBounded` | src/herdr_routines/pipeline_watchdog.py:706-976 | the launches stay within what the counter left below the cap if and only if those with a failed rewrite are no more than what it leaves at last and the counts wasted; they never exceed it by more than the failed rewrites |
| `Watchdog.AtMostCapResumesAndOneMore` | src/herdr_routines/pipeline_watchdog.py:637-644 | from a prepared document, if the rewrites of the sweeps that did anything worked: at most `cap` launches and one acting sweep more |
| `Watchdog.PreparedStartsClean` | src/herdr_routines/pipeline_prepare.py:266-297 | a prepared document is fresh for the pipeline's invariants and has its resume counter at 0 |
| `Watchdog.FailedRewritesResumeForever` | src/herdr_routines/pipeline_watchdog.py:769-772 | when no rewrite works every sweep resumes again, and none is paid for |
| `Watchdog.NoCapHoldsWithoutRewrites` | src/herdr_routines/pipeline_watchdog.py:769-772 | from any resumable run there are such sweeps of any number, so no cap holds |
| `Watchdog.ResumeGrantsOriginalBudget` | src/herdr_routines/pipeline_watchdog.py:645-675 | a resume grants the launch record's budget from now; later sweeps use the deadline it recorded, which is the document's if rewritten |
| `Watchdog.LaunchRecordStays` | src/herdr_routines/pipeline_watchdog.py:645-653 | over a whole run the launch record stays the first one |
| `Watchdog.BudgetGrowsWithoutALaunchDeadline` | src/herdr_routines/pipeline_watchdog.py:656-661 | the next budget is the same exactly when the launch record carries its deadline or no time passed |
| `Watchdog.DeadlinesStayAgreed` | src/herdr_routines/pipeline_watchdog.py:733-772 | history and document keep naming the same deadline while rewrites follow appends |
| `Watchdog.ProcessLeavesTheCounterAlone` | src/herdr_routines/pipeline_run.py:291-329 | a process launched after the last rewrite leaves everything the watchdog reads alone |
| `WatchedRun.LivesAreTraces` | src/herdr_routines/pipeline_watchdog.py:848-976 | the life of a run, with every effect of its process, is one of the watchdog's traces |
| `WatchedRun.LivesAreRuns` | src/herdr_routines/pipeline_run.py:1856-2167 | and one of the pipeline's logs, with the watchdog's rewrites in it |
| `WatchedRun.LaunchesAreGranted` | src/herdr_routines/pipeline_watchdog.py:706-845 | every launch of the pipeline is the first or one that a resume granted |
| `WatchedRun.PerLaunch` | src/herdr_routines/pipeline_run.py:1146-1237 | all launches before the last had two fix rounds and three checks each at most |
| `WatchedRun.AWholeRunIsBounded` | src/herdr_routines/pipeline_watchdog.py:637-644 | over a whole run, whatever dies: at most cap + 1 launches, two fix rounds and three CI checks for each, plus those of resumes whose rewrite failed |

## Left out

- Calls of git, `gh`, `systemctl`, `herdr` and `opencode`, prompts, panes and notification texts: their answers are inputs; a notification is only counted as sent.
- JSON text, regular expressions for specs and PR bodies, YAML, time zones and ISO stamps: the models work on parsed values, with `str(Path(x))` and the history line codec as uninterpreted functions of stated properties.
- In the watchdog, a report or a history record that cannot be written: such a sweep ends like a death there.
- Two processes of one pipeline run alive at once, a rewrite under a live process, or a launch by hand: the watchdog acts only when the unit is dead, and it alone launches again.
- The order of keys in `stage_sessions` inside the pipeline machine: it uses the order-blind check, equal to the ordered one on keys as they are written to disk, sorted (`TheCheckIsOrderBlind`).
- Gates 1, 2, 3, 6, 7 and `run_gate5` themselves, `gate3_test_names` and `_flip_issue`: their verdicts are inputs of the loop.
- The fallback model inside `_prompt_with_fallback`: it changes which agent settles, not what the loop does with it.
- `find_orphans` and the orphan sweep of `gc`: only the number of its failures enters the exit code. `branch_worktrees` is its result.
- The branches and worktrees of `gc` do not move between listing and deletion.
- `consecutive_base_gate_failures` and `last_terminal_run`: easy folds.
- `load_ledger`'s file handling, `save_ledger`, and the reading of `self-update.json`: the parsed content is the state.
- Characters outside ASCII in `upper()` and `lower()`, and file sizes in bytes against characters.
- Replay: that what the programs write is one line that reads back, and that a line cut short or several run together are no JSON object, are assumptions about the codec (`History.Faithful`, `History.OneObjectPerLine`), which `HistoryCodec.AssumptionsCanBeMet` shows can be met.
- `strftime`: that roll stamps of a later second sort later is an assumption of the history (`History.Monotone`).
- An operator moving HEAD or the state file between two self-update nights, and `gc` outside a git repository.
- `tick.py`: that a due job is answered by a terminal record before the next reading of the log is an assumption of `OccurrencesActedOnIncrease`.
- OccurrencesExact: nothing is claimed across two windows, because the dedupe is per window.
- A save of the claims that raises `OSError` is the `Crash` event at that point: nothing is saved and the lock is given up.
- AttemptsStayWithinBudget: assumes nobody but the tick writes records with a `target_key` for the job, and takes the worktrees and agents of a target's run as answers.
- Serializable: assumes the store is not edited by hand, because a damaged store loses its claims (`DamageLosesClaims`).
- Watched.Resume: the history record keeps the run id, deadline and counter only, not the unit name or report path, which no fold here reads.
