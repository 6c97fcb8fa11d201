# Stewarr verification

A Dafny model of the parts of Stewarr where a mistake destroys data or loses work, with proofs of what they promise:

- **The durable task scheduler** (`internal/tasks/manager.go`). Every operation is a function on the persisted record
  (`SchedulerSpec.dfy`); the class `Manager` (`Manager.dfy`) updates its fields step by step as the original does, and
  each of its methods is proved to compute that function. What an operation means for a trigger, an intent or a
  workflow is then stated on the records themselves, without those functions (`SchedulerOutcomes.dfy`,
  `SubmissionOutcomes.dfy`, `AdmissionOrder.dfy`, `CrashOutcomes.dfy`, `WorkflowDeadlines.dfy`). A run is a sequence
  of submissions, scheduler rounds, runner starts, finishes, workflow advances and crashes (`SchedulerRuns.dfy`); the
  theorems hold in every state of every run.
- **The removal journal** on top of it (`internal/httpui/scheduled_removal.go`, `removal_execution.go`): journal first,
  then submit; mark as started, then mutate; reconcile journal and scheduler after a restart.
- **Hardlink topology** (`internal/filetopology/topology.go`, `internal/inventory/storage_views.go`,
  `internal/removal/plan.go`). The reference machine is a file system as `unlink` sees it (POSIX.1-2017, System
  Interfaces, unlink): directory entries, inodes, true link counts that may include links nobody scanned. The
  estimators and the indexed search are proved equal to what they stand for.
- **Targeted reconciliation** (`internal/inventory/reconcile_targeted.go`, `internal/store/files.go`): refreshing only
  what a mutation touched, in memory and in the tables, against a full walk and a wholesale replacement.
- **The cleanup planner** (`internal/cleanup/plan.go`): eligibility, ranking, fair shares, season order, and that a
  plan reaches its target whenever its candidates can.
- **The device registry** (`SyncDeviceRegistry` in `internal/config/config.go`).

`dafny verify dfyconfig.toml` checks everything. Files build on one another in this order: `TaskTypes`,
`SchedulerSpec`, `SchedulerLookup`, `SchedulerInvariants`, `SchedulerRecovery`, `Resources`, `SchedulerRound`,
`SchedulerTiming`, `SchedulerHistory`, `SchedulerOutcomes`, `SubmissionOutcomes`, `WorkflowChains`, `SchedulerRuns`,
`SchedulerTheorems`, `SchedulerGuarantees`, `AdmissionOrder`, `WakeGuarantee`, `CoverageGuarantee`, `CrashOutcomes`,
`RetryLog`, `WorkflowDeadlines`, `Manager`, `SchedulerRecords`, `SchedulerHeld`, `SchedulerOverlap`, `RemovalJournal`,
`RemovalUrgency`, `RemovalRecovery`; `FileTopology`, `ReclaimEstimate`, `Unlinking`, `PhysicalMatch`, `RemovalPlan`,
`StorageViews`, `TargetedRefresh`, `TopologyStore`, `TopologyDelta`, `StoredTopology`, `TargetedReconcile`;
`CleanupCandidates`, `FairShare`, `SeasonOrder`, `CleanupPlan`, `PlannedBytes`, `PackPlan`; `DeviceRegistry`; with
`SetSums`, `Sorting` and `PathOrder` as helpers.

## What the proofs found

- **A restart can hold dangling trigger ids.** What is persisted drops the records of non-durable triggers but keeps
  their ids inside intents and executions that survive, and the scheduler follows those ids without a check. The next
  process is sound exactly when no surviving list mixed durable with non-durable triggers at the crash
  (`RestartClosedIff`, `StepReferences`), and such a crash is reachable in three steps: a manual run waits, its periodic
  tick joins it, the process dies (`UnsafeCrashIsReachable`).
- **One execution per task and key**, which the design document of the scheduler lists as its second guarantee, is not
  enforced by the scheduler itself: a second execution of the same key can be admitted beside a running one exactly
  when the claims of the task do not exclude each other (`OverlapIffClaimsAllow`). Two rounds are enough: a periodic
  task without resources takes longer than its interval, and the next tick, which the running execution does not cover,
  is admitted beside it (`OverlapIsReachable`).
- The first attempt's retry delay is not capped by the maximum (`RetryDelayClosedForm`), an interruption counts as an
  attempt (`InterruptionIsAnAttempt`), and an intent with a deadline but no earliest time waits until its deadline
  (`DeadlineAloneWaits`).
- The patch of the media tables deletes by kind and source id only. It equals a wholesale replacement exactly when no
  claim that stays shares both with a republished owner, which two instances of one service type can violate
  (`PatchIsReplacementIff`). The guards of the targeted reconciliation do not notice: two instances hold a file each
  under the same movie id, the file of the first is removed, every guard passes, and the claim of the second is gone
  from the database while memory keeps it (`SharedIdIsReachable`).
- The targeted refresh equals a full walk exactly when every path that lost a name of its file was affected
  (`SpliceIsWalkIff`); when only requested paths were unlinked this always holds.
- The bytes of a cleanup plan are sums of estimates made one action at a time. They are freed together whatever the
  files weigh exactly if no two actions each hold every link of one file (`PromiseKeptForAllSizesIff`), and then a plan
  that reaches its need on paper reaches its target on the disk (`PlanReachesTarget`). Path-disjoint actions always
  keep the promise. Two seasons that were downloaded as one pack do not, if the pack holds a file of neither: each
  season is offered with the whole pack, the file counts twice (`PackIsPromisedTwice`), and a plan that needs one byte
  more than is there still claims to reach it (`PackPlanFallsShort`).
- The walk records allocated blocks as a file's size, the removal plan its logical length. The estimate and the plan
  agree where those agree.

## Model

| member | source | states |
|---|---|---|
| SchedulerManager.Manager.SubmitRequest | internal/tasks/manager.go:228-254 | A trigger is accepted only together with its persisted record, and then a running execution that covers it takes it, or else the intent of its key, raised to its priority, coverage, dates and payload; if it cannot be stored or is rejected, memory and store are exactly as before |
| SchedulerManager.Manager.SubmitLocked | internal/tasks/manager.go:256-325 | Attaches to a covering compatible execution, else joins the pending intent of its key, else opens one; unknown tasks and manual runs that need a payload are refused |
| SubmissionOutcomes.SubmitTakesIn | internal/tasks/manager.go:256-325 | A request is refused only for an unknown task or a manual run that takes none; otherwise its record is what was asked for, and it joins a running execution of its key that covers it, or, only if there is none, the intent of its key, which owes it the higher priority and coverage, the later earliest time, the earlier deadline and the newest payload |
| SchedulerManager.Manager.FindCompatible | internal/tasks/manager.go:283-298 | Finds a running execution the request may join, and none only if there is none, in whatever order the running set is visited |
| SchedulerInvariants.SubmitKeeps | internal/tasks/manager.go:256-325 | No submission loses or doubles a trigger or leaves an id without a record |
| CoverageGuarantee.CoverageHolds | internal/tasks/manager.go:256-325 | In every state of a run after a request was accepted, crashes included, every intent and every running execution that holds its trigger covers at least what the request asked for |
| SchedulerManager.Manager.LatestTriggerForKey | internal/tasks/manager.go:997-1015 | Returns the newest record of a task and key, and none only if there is none |
| SubmissionOutcomes.LastIsLatest | internal/tasks/manager.go:997-1015 | As long as the clock does not go back, the trigger submitted last is the one that a lookup of its task and key finds |
| SchedulerManager.Manager.CreatePeriodicTriggers | internal/tasks/manager.go:459-478 | Every registered periodic task is visited; the due ones submit one trigger and move to their next point |
| SchedulerTiming.NextDueIsFirstFuturePoint | internal/tasks/manager.go:459-478 | However long the downtime, the next due time is the first point of the schedule's own grid after now |
| SubmissionOutcomes.TickSubmits | internal/tasks/manager.go:459-478 | A due schedule submits one request that has to cover the due time and is not kept over a restart, and moves past now; one that is not due submits nothing |
| SchedulerManager.Manager.CreateWorkflowTriggers | internal/tasks/manager.go:1078-1125 | Every workflow instance is visited and submits its current step when ready and not in flight |
| SubmissionOutcomes.StepSubmitted | internal/tasks/manager.go:1078-1125 | A step whose time has come submits one durable request in the name of its instance, at the raised priority once the deadline has passed; an unknown task sets the instance to attention |
| SchedulerManager.Manager.PreemptForPriority | internal/tasks/manager.go:825-840 | Exactly the interruptible executions that block higher mutation work are asked to stop, and nothing else changes |
| RemovalUrgency.PreemptsWhatStands | internal/tasks/manager.go:825-840 | An execution is asked to stop exactly if it is interruptible and waiting mutation work of higher priority claims one of its resources in a way that excludes it |
| RemovalUrgency.RoundPreempts | internal/tasks/manager.go:383-402 | What stands in the way of mutation work that waits when a round begins is asked to stop in that round |
| SchedulerManager.Manager.NextReadyIntent | internal/tasks/manager.go:524-566 | Returns the first ready intent in priority order whose resources are free, and none only if there is none; only intents passed over are marked as waiting |
| SchedulerManager.Manager.InOrderOf | internal/tasks/manager.go:542-552 | The ready intents sorted by aged priority, age and number, none lost |
| AdmissionOrder.MutationGoesFirst | internal/tasks/manager.go:580-589 | Mutation work goes before all work of lower priority, however long that has waited |
| AdmissionOrder.WaitingOvertakes | internal/tasks/manager.go:580-589 | Below mutation work nothing starves: an intent goes before every one created later by as many minutes as its priority is higher |
| AdmissionOrder.PriorityHolds | internal/tasks/manager.go:580-589 | Until it has waited that long, work of higher priority goes first |
| AdmissionOrder.ReadyWhen | internal/tasks/manager.go:533-539 | An intent is ready when its earliest time or its deadline has come, whichever is first, and at once if it has neither |
| AdmissionOrder.CandidateWhen | internal/tasks/manager.go:524-566 | An intent can be admitted exactly if it is ready and no running execution claims one of its resources in a way that excludes it |
| SchedulerManager.Manager.AdmitReady | internal/tasks/manager.go:480-522 | Admits intents one at a time, each the first in order at its turn, until no ready intent without conflict is left |
| SchedulerManager.Manager.StartExecution | internal/tasks/manager.go:487-519 | The chosen intent becomes a running execution that carries all its triggers and holds its claims |
| AdmissionOrder.AdmissionStarts | internal/tasks/manager.go:487-519 | The execution is what the intent was, started now, with the claims of its task; intents of unregistered tasks are dropped and no other changes |
| AdmissionOrder.AdmissionMoves | internal/tasks/manager.go:487-566 | The triggers of the admitted intent run, those of dropped intents need attention, a trigger marked as waiting waits for a running execution, and no other record changes |
| AdmissionOrder.ApartInRuns | internal/tasks/manager.go:480-522 | In no state of any run do two running executions claim one resource unless both share it |
| SchedulerRound.RoundKeeps | internal/tasks/manager.go:383-402 | A whole round keeps every trigger in exactly one place, the table in step with the running set, and running claims compatible |
| SchedulerManager.Manager.Round | internal/tasks/manager.go:383-402 | One loop turn keeps the invariant, ends persisted, and asks for a wake-up that is never 0 at an unmoved clock and never later than the next intent, schedule or workflow |
| SchedulerManager.Manager.NextWakeDelay | internal/tasks/manager.go:842-894 | The delay is 0 exactly if something can be done now, otherwise the time to the earliest point at which something becomes possible, or no timer if there is none |
| SchedulerTiming.RoundLeavesNothingUrgent | internal/tasks/manager.go:383-402 | After a round at a fixed clock no ready unblocked intent, overdue schedule or due workflow is left |
| WakeGuarantee.RoundLeavesNothingPossible | internal/tasks/manager.go:383-402 | After a round at a fixed clock no intent whose date has come is free to run, no schedule is due and no workflow step has come |
| WakeGuarantee.WakesInTime | internal/tasks/manager.go:842-894 | The timer is 0 exactly if something can be done now; otherwise nothing can be done before it fires and some date comes when it does; without a timer nothing ever becomes possible by itself |
| SchedulerManager.Manager.FinishExecution | internal/tasks/manager.go:615-702 | The execution ends by its outcome, its claims are given back, and the result is persisted; each trigger it carried waits again for the next attempt, with the priority, coverage and delay it is owed, or has ended as fulfilled, failed or needing attention; each workflow moves on, stops or stays |
| SchedulerRound.FinishSound | internal/tasks/manager.go:615-702 | Finishing keeps the invariant whatever the outcome: no claim leaks, no trigger is lost |
| SchedulerOutcomes.FinishDisposes | internal/tasks/manager.go:643-674 | A retryable failure below the last attempt leaves every carried trigger pending in the one intent of its key, for an attempt one higher and not before the backoff of the policy; any other failure ends it as failed, a success as fulfilled, an interruption as needing attention or as pending after the interruption delay |
| SchedulerOutcomes.FinishAnswers | internal/tasks/manager.go:659-674 | A success moves on every workflow instance whose current step it ran and no other; a failure that is not retried sets every instance that asked for it to attention |
| SchedulerOutcomes.FinishLeavesOthers | internal/tasks/manager.go:615-702 | A trigger the execution did not carry keeps its record, except that the queued trigger of an instance that moved on is cancelled |
| SchedulerOutcomes.FinishRecords | internal/tasks/manager.go:621-642 | How the execution ended and when is on record; of an execution that history drops the ended triggers go with it, and no other execution changes |
| RetryLog.LoggedIffWaiting | internal/tasks/manager.go:652-653 | A failed execution counts as retried exactly if its triggers are pending afterwards |
| RetryLog.LoggedWasRetried | internal/tasks/manager.go:652-653 | Over a whole run, every retry counted against the policy did put its triggers back into the queue |
| SchedulerManager.Manager.RequeueExecution | internal/tasks/manager.go:718-748 | The triggers return to the intent of their key, merged with what already waits there, for a later attempt |
| SchedulerHistory.InterruptionIsAnAttempt | internal/tasks/manager.go:718-748 | An interrupted execution waits again with a higher attempt number, and if that was the last the policy allows, a failure is then not retried |
| SchedulerHistory.DeadlineAloneWaits | internal/tasks/manager.go:524-541 | An intent opened with a deadline and no earliest time is ready exactly from its deadline on |
| SchedulerInvariants.RequeueKeeps | internal/tasks/manager.go:718-748 | Requeueing moves every trigger of the execution to one intent and leaves all others where they are |
| SchedulerManager.Manager.DelayFor | internal/tasks/manager.go:704-716 | The loop computes the retry delay of the policy |
| SchedulerTiming.RetryDelayClosedForm | internal/tasks/manager.go:704-716 | The delay is the initial delay doubled once per earlier attempt, capped at the maximum except on the first attempt, one minute without an initial delay, and always positive |
| SchedulerManager.Manager.TrimHistory | internal/tasks/manager.go:1225-1246 | Removes just enough of the oldest completed executions, and only triggers that have ended |
| SchedulerInvariants.ForgetKeeps | internal/tasks/manager.go:1225-1246 | Trimming history never takes a trigger that is still waiting or running |
| SchedulerOutcomes.HistoryIsBounded | internal/tasks/manager.go:1225-1246 | After every finish at most 500 executions are on record, or only running ones |
| SchedulerOutcomes.OldestGoFirst | internal/tasks/manager.go:1225-1246 | What history drops ended no later than what has ended and stays |
| SchedulerManager.Manager.ResourceConflict | internal/tasks/manager.go:750-764 | Reads conflicts off the resource table |
| Resources.ConflictsIff | internal/tasks/manager.go:750-764 | The table reports a conflict exactly if a running execution holds a conflicting claim |
| SchedulerManager.Manager.AcquireResources | internal/tasks/manager.go:766-779 | Enters the claims of an execution into the table |
| Resources.AcquireMirrors | internal/tasks/manager.go:766-779 | After acquiring, the table is exactly the image of the running executions' claims |
| Resources.AcquireCompatible | internal/tasks/manager.go:766-779 | Admitting without a reported conflict leaves no two running executions with conflicting claims |
| SchedulerManager.Manager.ReleaseResources | internal/tasks/manager.go:781-796 | Takes the claims of an execution out of the table |
| Resources.ReleaseMirrors | internal/tasks/manager.go:781-796 | After releasing, the table is the image of the remaining executions' claims: nothing leaks and nothing of others is dropped |
| SchedulerManager.Manager.AdvanceWorkflow | internal/tasks/manager.go:1039-1076 | Advancing opens or restarts the instance: its quiet period begins anew, its deadline stands unless this opens it, and its queued trigger is cancelled and leaves its intent; if it cannot be stored, memory and store are as before |
| WorkflowDeadlines.StepDates | internal/tasks/manager.go:1039-1076 | No step but an advance, and no crash, moves the dates of an instance; an advance moves the earliest time, and the deadline only if the instance was not under way |
| WorkflowDeadlines.DeadlineOfOpening | internal/tasks/manager.go:1062-1064 | In every state of every run the deadline of an instance is that of the advance that opened it, however many advances follow |
| WorkflowDeadlines.DueByDeadline | internal/tasks/manager.go:1099-1125 | However many advances follow, a round at or after the opening advance plus its maximum delay finds the current step in flight or submits it |
| WorkflowDeadlines.QuietUntilReady | internal/tasks/manager.go:1099-1108 | Before the quiet period is over, or the previous step has finished, a round leaves the instance alone unless its deadline has come |
| SchedulerManager.Manager.CancelWorkflowTrigger | internal/tasks/manager.go:1297-1319 | A queued trigger leaves its intent and ends; a running or ended one is left alone |
| SchedulerInvariants.CancelKeeps | internal/tasks/manager.go:1297-1319 | Cancelling one trigger keeps all others where they are and leaves no empty intent |
| SchedulerManager.Manager.SatisfyWorkflows | internal/tasks/manager.go:1127-1149 | A successful execution moves on every instance whose current step it ran, unless it started too early |
| SchedulerTheorems.SucceededWorkflowHasChain | internal/tasks/manager.go:1039-1149 | In every run, a succeeded instance has a chain of successful executions of its steps in order, the first started no earlier than its latest advance, each next no earlier than the previous one finished |
| SchedulerManager.Manager.Persist | internal/tasks/manager.go:1248-1295 | The store holds durable and ended triggers and the intents with a durable trigger |
| SchedulerManager.Manager.RecoverInterrupted | internal/tasks/manager.go:1193-1223 | Executions cut short are ended; retryable ones with a durable trigger are queued again, the others need attention |
| CrashOutcomes.RecoverOneMeans | internal/tasks/manager.go:1193-1223 | All triggers of cut-short work go back to the queue if its task takes it up and one of them is durable; otherwise the durable ones need attention and the others are interrupted |
| CrashOutcomes.CrashMeans | internal/tasks/manager.go:1193-1295 | In every reachable state a crash leaves ended triggers as they are, drops the others that are not durable, keeps queued durable ones in their intent, and makes running durable ones wait for a later attempt or need attention, as their task says |
| SchedulerManager.Manager.RegisterAll | internal/tasks/manager.go:157-199 | A first registration starts a schedule, a later one keeps its due time |
| CrashOutcomes.SchedulesGoOn | internal/tasks/manager.go:157-199 | A schedule goes on where it was, and a new one starts one interval from now |
| SchedulerManager.Manager.constructor | internal/tasks/manager.go:93-137 | A process starts from the stored record with its interrupted work recovered and nothing running |
| SchedulerRecovery.RestartKeeps | internal/tasks/manager.go:93-137 | After a crash at any step boundary every surviving trigger is in exactly the intent its record names or has ended, and nothing is live |
| SchedulerRecovery.RestartClosedIff | internal/tasks/manager.go:1193-1295 | The next process can follow every id it holds if and only if no surviving list mixed durable with non-durable triggers |
| SchedulerRuns.StepConsistent | internal/tasks/manager.go:228-1319 | No operation and no crash breaks the scheduler's invariant, and disk never lags behind memory between operations |
| SchedulerGuarantees.HeldExactlyOnce | internal/tasks/manager.go:256-325 | A trigger that has not ended is in exactly one pending intent or running execution, under its own key; one that has ended is in none |
| SchedulerGuarantees.StartedIsOnDisk | internal/tasks/manager.go:383-402 | Write-ahead admission: whatever is running is on disk as unfinished, with its durable triggers |
| SchedulerGuarantees.OverlapIffClaimsAllow | internal/tasks/manager.go:480-566 | A second execution of a running key can be admitted if and only if the task's claims do not exclude each other |
| SchedulerOverlap.OverlapIsReachable | internal/tasks/manager.go:459-522 | A concrete run of two rounds ends with two running executions of one task and key |
| SchedulerGuarantees.SelfExcludingRunsAlone | internal/tasks/manager.go:480-566 | A task whose claims exclude each other has at most one running execution |
| SchedulerGuarantees.StepReferences | internal/tasks/manager.go:1273-1295 | All ids held keep their records over every step, exactly when no crash strikes while a surviving list is mixed |
| SchedulerGuarantees.ReferencesHoldInRuns | internal/tasks/manager.go:1273-1295 | Over a whole run with safe crashes every id held has its record |
| SchedulerGuarantees.UnsafeCrashIsReachable | internal/tasks/manager.go:1273-1295 | A concrete three-step run ends with an intent that names a trigger without a record |
| SchedulerTheorems.AttemptsIncrease | internal/tasks/manager.go:718-748 | Successive admissions of one trigger carry strictly increasing attempt numbers, across restarts too |
| SchedulerTheorems.RetriesStayWithinPolicy | internal/tasks/manager.go:652-653 | Over any run, retryable failures requeue a trigger at most one time fewer than the task allows attempts |
| SchedulerTheorems.RunnerStartsAtMostOnce | internal/tasks/manager.go:591-613 | For a task that asks for attention and has no retries, no trigger's runner is started twice over any run with crashes at any step boundary |
| SchedulerRecords.StepExtends | internal/tasks/manager.go:256-325 | No step changes the task or key of a record, and records of a task arise only when that task is submitted |
| SchedulerHeld.StepHeldAt | internal/tasks/manager.go:1273-1295 | Under a key that only durable requests use, no step and no crash loses the record of a trigger that an intent or a running execution holds, whatever happens to other lists |
| RemovalRecovery.RemovalServer.ExecuteRemoval | internal/httpui/removal_execution.go:186-203 | A removal is journaled before it is submitted; an accepted one is on disk with a live trigger and waits as urgent work that is ready at once, unless this very removal is already known to the scheduler; a rejected one leaves the scheduler untouched and is journaled as failed if that can be written |
| RemovalRecovery.ExecutionIsSteps | internal/httpui/removal_execution.go:186-203 | What accepting a removal does is the step Accept and then the step Schedule of the journaled system |
| RemovalUrgency.RemovalUrges | internal/httpui/removal_execution.go:196-196 | Handing over a removal leaves a durable intent of its key that has at least the priority of mutations and names the removal, or its own running execution takes it; if nothing of it was known, the intent is ready at once |
| RemovalUrgency.RemovalsAreUrgent | internal/httpui/removal_execution.go:186-203 | In every run, with any crashes, a removal that the scheduler takes, at first or again after a restart, waits with the priority of mutations and ready at once |
| RemovalUrgency.RemovalPreempts | internal/tasks/manager.go:825-840 | Interruptible work of lower priority that shares a resource with such a removal is asked to stop in the next round |
| RemovalRecovery.RemovalServer.RecoverScheduledRemovals | internal/httpui/scheduled_removal.go:35-94 | Every removal gets the outcome its status and newest trigger call for, and ends settled or queued with a live trigger; consistency work is asked for exactly if some removal that is not a dry run was started, or was queued and has turned out to have ended; the whole is a path of Recover steps and a Resume of the journaled system |
| RemovalRecovery.RemovalServer.RecoverEvent | internal/httpui/scheduled_removal.go:41-81 | One in-flight removal is settled, left to the scheduler or submitted again as urgent work, and the others keep their records |
| RemovalRecovery.RecoversIsStep | internal/httpui/scheduled_removal.go:41-81 | What recovering one event does is the step Recover of the journaled system |
| RemovalJournal.OperationKeyInjective | internal/httpui/scheduled_removal.go:48-48 | Two removals never share a coalescing key |
| RemovalJournal.MutateKeeps | internal/httpui/removal_execution.go:393-417 | After a mutation of a removal no other execution can come to mutate it, whatever lists of other tasks a crash has struck |
| RemovalJournal.RemovalMutatesAtMostOnce | internal/httpui/removal_execution.go:393-417 | In no run, with any crash at any step boundary, do two executions mutate for the same journaled removal |
| RemovalJournal.RecoverySettlesOrQueues | internal/httpui/scheduled_removal.go:35-94 | In every run, after any crash, when recovery is over each removal is settled or queued with a trigger that has not ended |
| FileTopology.New | internal/filetopology/topology.go:45-79 | The index answers exactly what the lists say: paths by identity, by owner and by torrent, owners and torrents by path; the names of a file are listed once each, in order |
| FileTopology.SamePhysicalPaths | internal/filetopology/topology.go:103-115 | Returns exactly the other known names of the same physical file |
| FileTopology.TorrentMediaPhysicalMatch | internal/filetopology/topology.go:171-198 | Matches exactly if torrent and media share a physical file; a negative answer is known only if every fact was |
| FileTopology.PathsHardlinked | internal/filetopology/topology.go:205-237 | True exactly if two different paths of the lists are links of one file; a negative answer is known only if every fact was |
| FileTopology.TorrentMediaHardlink | internal/filetopology/topology.go:130-165 | The same for a torrent and a media item |
| PhysicalMatch.SharesMeans | internal/filetopology/topology.go:171-198 | A match is one inode on the disk that was walked, and where every identity is known no match means that there is none |
| PhysicalMatch.HardlinkedMeans | internal/filetopology/topology.go:205-237 | A hardlink is two entries of one inode with more than one link, and where every link count is known a negative answer means that there is none |
| StorageViews.CandidateMedia | internal/inventory/storage_views.go:206-225 | Lists exactly the current media that own a name of one of the torrent's files |
| StorageViews.MatchIsCandidate | internal/inventory/storage_views.go:202-225 | No media that shares a file with the torrent is outside of the candidates |
| StorageViews.BackedMedia | internal/inventory/storage_views.go:154-175 | Asking only the candidates finds exactly the media that asking the whole library would find |
| ReclaimEstimate.EstimateOf | internal/filetopology/topology.go:243-283 | The estimate counts each physical file once: reclaimable if all its links are selected, shared otherwise, with the number of selected paths that stay shared and of those that are unknown |
| ReclaimEstimate.EstimateConserves | internal/filetopology/topology.go:271-281 | Total bytes are reclaimable bytes plus shared bytes |
| ReclaimEstimate.ReclaimableMonotone | internal/filetopology/topology.go:239-283 | Selecting more paths never frees less |
| ReclaimEstimate.ReclaimableSuperadditive | internal/filetopology/topology.go:239-283 | Actions on disjoint paths together free at least the sum of what they free alone |
| Unlinking.ReclaimableIsFreed | internal/filetopology/topology.go:239-283 | The estimate is exactly what unlinking the paths one at a time frees, in any order, and every order leaves the same disk |
| Unlinking.DescribedIsConsistent | internal/filetopology/topology.go:239-283 | Current facts about a file system agree on each physical file and count no more names than links |
| RemovalPlan.GroupCandidates | internal/removal/plan.go:91-151 | Every candidate is listed with what stat said and filed under its physical file with the known and the selected names; files without identity are counted apart |
| RemovalPlan.FinalLinks | internal/removal/plan.go:158-180 | The files whose last link goes are added up in total and per device, and missing links are noticed |
| RemovalPlan.Build | internal/removal/plan.go:84-196 | The plan's reclaimable bytes are the estimate of the selected paths and the sum of its impacts; the impacts are what each device loses, ascending; the warning shows exactly if a link was not among the candidates; every candidate is listed with what stat said of it, selected ones first and then by path |
| RemovalPlan.AnonymousAdds | internal/removal/plan.go:91-151 | Selected files without identity count at their size each time they are listed |
| RemovalPlan.PlanIsFreed | internal/removal/plan.go:153-176 | Unlinking the selected paths in any order frees exactly the plan's reclaimable bytes |
| RemovalPlan.PlanIsEstimate | internal/removal/plan.go:82-176 | The estimate from the last walk and the plan from fresh facts agree while the disk is the same |
| TargetedRefresh.RefreshTargetedPaths | internal/inventory/reconcile_targeted.go:360-408 | Refuses unknown paths, stat failures, irregular files and changed identities, and names the path it was for; otherwise every affected path is gone or still the file it was, and exactly those that are there are restated as answered |
| TargetedRefresh.NoTrouble | internal/inventory/reconcile_targeted.go:385-400 | When files only disappear no answer is a reason to refuse |
| TargetedRefresh.RequestedCovers | internal/inventory/reconcile_targeted.go:370-383 | Every path that lost a name of its file through a requested path is affected |
| TargetedRefresh.SpliceIsWalkIff | internal/inventory/reconcile_targeted.go:237-244 | After unlinking any paths, the spliced list is the full walk of the new disk if and only if every path that lost a name of its file was affected |
| TargetedRefresh.TargetedIsFullWalk | internal/inventory/reconcile.go:249-313 | If only requested paths were unlinked, dropping and restating the affected paths gives the full walk of the new disk, link counts included |
| TargetedReconcile.MediaRefChangesWithinScope | internal/inventory/reconcile_targeted.go:433-454 | Passes exactly if republishing the owners changes no path outside of the affected ones |
| TargetedReconcile.ProjectUnmanaged | internal/inventory/reconcile_targeted.go:456-478 | Lists exactly the files that no media item and no torrent claims, each with the bytes that unlinking it frees on the disk as stated and beside them the bytes its other links keep |
| TargetedReconcile.RemovedCovered | internal/inventory/reconcile_targeted.go:202-212 | Passes exactly if every removed torrent had files and all of them are affected |
| TargetedReconcile.InventoryUnchanged | internal/inventory/reconcile_targeted.go:213-223 | Passes exactly if every current torrent had files, all under its save path |
| TargetedReconcile.KeepTorrents | internal/inventory/reconcile_targeted.go:224-235 | Keeps the files of torrents that are still there and refuses if a dropped one lies outside of the affected paths |
| TargetedReconcile.Guard | internal/inventory/reconcile_targeted.go:28-235 | The guards pass if and only if the scope accounts for every change |
| TargetedReconcile.SoundMeans | internal/inventory/reconcile_targeted.go:28-235 | A scope that passes names known paths that are regular or gone, leaves no owner ambiguous, covers the files of every removed torrent, and finds files of every torrent still reported |
| TargetedReconcile.ClaimsUnchanged | internal/inventory/reconcile_targeted.go:178-235 | When the guards pass, a file outside of the affected paths is claimed exactly as before |
| TargetedReconcile.VouchedChanges | internal/inventory/reconcile_targeted.go:304-320 | When the guards pass, the delta is the difference between the old and the new topology in all four projections |
| TargetedReconcile.Service.ReconcileTargeted | internal/inventory/reconcile_targeted.go:28-358 | Publishes if and only if the scope is sound, the generation stood still and the database took the delta, and then the unmanaged files are listed with their true amounts; otherwise memory is untouched |
| TargetedReconcile.PublishedMeans | internal/inventory/reconcile_targeted.go:178-258 | What is published holds the answered claims of the scoped owners and the former claims of all others, and exactly the torrents, with their files, that are still reported and were not removed |
| TargetedReconcile.PublishedIsMirroredIff | internal/inventory/reconcile_targeted.go:304-320 | After a targeted publication the database holds the topology in memory exactly if kind and source id identify the republished owners |
| TopologyStore.Store.PublishReconciliation | internal/store/files.go:179-200 | Replaces all tables by the rows of the topology, or changes nothing if a key repeats |
| TopologyStore.Store.PublishReconciliationDelta | internal/store/files.go:228-404 | Deletes and inserts exactly the rows of the delta, or changes nothing if a statement fails |
| StoredTopology.StoredIsLoaded | internal/store/files.go:445-530 | What was stored wholesale is what is loaded: every file, unmanaged file, torrent file and media file with its parts, each field from its own column, and nothing else |
| TopologyDelta.PatchIsReplacementIff | internal/store/files.go:228-404 | Patching tables that mirrored the old topology equals replacing them wholesale by the new one if and only if no claim that stays shares kind and source id with a republished owner |
| TopologyDelta.SharedIdIsLost | internal/store/files.go:291-311 | A claim that stays but shares kind and source id is deleted by the patch and not put back |
| TargetedReconcile.SharedIdIsReachable | internal/inventory/reconcile_targeted.go:304-320 | Two instances know a movie by the same id and the file of one is removed: the scope passes every guard, and the delta it publishes takes the claim of the other out of the database, where a wholesale replacement keeps it |
| CleanupCandidates.Classify | internal/cleanup/plan.go:122-224 | The loops build exactly the two tiers whose meaning the next five rows state, and collect the hashes of every torrent bound to listed media |
| CleanupCandidates.MediaTierSafe | internal/cleanup/plan.go:125-196 | A media action offers an item or season that is not protected with exactly the current torrents hardlinked to it, none of them protected, for what it and they free together |
| CleanupCandidates.MediaOffered | internal/cleanup/plan.go:125-196 | Every item or season that may go is offered: not protected, no bound torrent protected, and its own bytes, or with bound torrents those of the bundle, known and not nothing |
| CleanupCandidates.TorrentTierMembers | internal/cleanup/plan.go:198-221 | The torrents offered alone are exactly the eligible ones |
| CleanupCandidates.TorrentOfferedIff | internal/cleanup/plan.go:198-221 | A torrent is offered alone if and only if it is not protected, its bytes are known and not nothing, and while current it is proven not hardlinked and bound to no listed media |
| CleanupCandidates.NeverSplitsABundle | internal/cleanup/plan.go:198-216 | A current torrent is offered alone only if it is proven not hardlinked and no listed media, offered or vetoed, stands on its files |
| CleanupPlan.FilterExcluded | internal/cleanup/plan.go:231-243 | Leaves out exactly the actions that an excluded key names |
| CleanupPlan.KeyNamesIff | internal/cleanup/plan.go:68-80 | A key names a torrent by hash and service, a media item by kind, service and id, and a season by its number as well |
| CleanupPlan.Rank | internal/cleanup/plan.go:258-268 | Merges both tiers in stable order of comparable value |
| CleanupPlan.RankedByWorth | internal/cleanup/plan.go:245-268 | The ranking goes by worth, least first: media at their value, torrents at theirs on the scale that the setting gives, where 50 compares them directly |
| CleanupPlan.RankedSplits | internal/cleanup/plan.go:245-268 | The ranked list is the sorted torrents and the sorted media interleaved: splitting it gives both back |
| CleanupPlan.Baseline | internal/cleanup/plan.go:485-498 | Takes the shortest prefix of the ranking that reaches the need, its torrents for good and its media as bytes |
| FairShare.FairMediaShare | internal/cleanup/plan.go:292-352 | From every service its lowest-value candidates in order, at least its share or all it has; together the target or everything; and for any shares that are not negative less than the target, or the sum of the shares if that is more, plus the largest candidates of the services |
| FairShare.CheapestOfEachOnce | internal/cleanup/plan.go:292-352 | No candidate is taken twice |
| FairShare.CheapestMeans | internal/cleanup/plan.go:292-352 | Of one service, what stays is worth no less than what goes |
| FairShare.BackfillOf | internal/cleanup/plan.go:337-350 | Whatever prefix of the leftovers is added, each service still gives a lowest-value prefix that includes its share |
| FairShare.FloorIsProportional | internal/cleanup/plan.go:327-327 | Shares rounded down exactly are never negative and never exceed the target together, so the bound is then the target |
| SeasonOrder.EnforceSeasonOrder | internal/cleanup/plan.go:367-389 | In place and in any order of the shows, each show's actions become its own actions stably sorted by season number, in the positions the show had |
| SeasonOrder.ReorderedInOrder | internal/cleanup/plan.go:354-389 | Within a show no later season comes before an earlier one |
| SeasonOrder.ReorderedPermutes | internal/cleanup/plan.go:354-389 | The list is permuted: no action is lost or doubled |
| CleanupPlan.NeedIsLeast | internal/cleanup/plan.go:463-466 | The need is the least number of bytes whose removal brings usage to the target |
| CleanupPlan.SelectionReaches | internal/cleanup/plan.go:485-508 | Whatever shares were computed, the selection reaches the need if all candidates together can |
| CleanupPlan.SelectionOnce | internal/cleanup/plan.go:485-503 | No eligible candidate is selected twice |
| CleanupPlan.Build | internal/cleanup/plan.go:417-511 | Space that others hold is set aside on both sides and never leads to an action by itself, and the percentage is that of the usable bytes; no actions within the target or without reliable facts; otherwise the exact need, actions from the eligible ones at most once each and none that an excluded key names, at least the need or everything eligible, and the seasons of a show ascending |
| PlannedBytes.PromiseAccount | internal/inventory/storage_views.go:243-262 | The bytes promised by actions estimated alone and the bytes freed by all of them differ by exactly what is promised more than once and what is freed only together |
| PlannedBytes.PromiseKeptIff | internal/inventory/storage_views.go:243-262 | The promise is kept if and only if no more is promised twice than is freed only together |
| PlannedBytes.DisjointNothingTwice | internal/filetopology/topology.go:239-283 | Actions without a common path promise no file twice |
| PlannedBytes.SelectedBytesAreFreed | internal/cleanup/plan.go:505-508 | The selected bytes of a plan are freed by unlinking all its paths, in any order, if no file is taken by two of its actions |
| PlannedBytes.PromiseKeptForAllSizesIff | internal/inventory/storage_views.go:243-262 | The promise is kept for every assignment of file sizes if and only if no file is taken by two actions |
| PlannedBytes.PlanReachesTarget | internal/cleanup/plan.go:463-508 | A plan that meets its need on paper frees its selected bytes and brings the disk within the target, in any order of unlinking, if no file is taken by two of its actions |
| PackPlan.PackIsPromisedTwice | internal/inventory/seasons.go:129-158 | Two seasons hardlinked to one pack that holds a file of neither: both bundles are offered at the estimate of their paths, and together they promise that file's bytes more than unlinking everything frees |
| PackPlan.PackPlanFallsShort | internal/cleanup/plan.go:485-508 | Any selection made from that show for one byte more than it holds meets its need on paper and not on the disk |
| DeviceRegistry.NextId | internal/config/config.go:555-562 | Returns the least positive id not in use, at most one more than the ids in use |
| DeviceRegistry.SyncDeviceRegistry | internal/config/config.go:534-580 | Ends with exactly the live devices, keeps the ids of survivors, gives each new device an id no other device has and no greater than the number of live devices, keeps ids distinct, and reports a change exactly if the registry was not settled, so a second call reports none |

## Left out

- Manager.Round: a failed write at the end of a round or of a finish is only logged by the original; runs with crashes assume that write succeeded. The failure of Submit and AdvanceWorkflow to persist is modelled with its rollback. A round is taken on a workflow set in which every unfinished instance has a current step, which fails only when a definition got shorter between two processes.
- RemovalMutatesAtMostOnce: is about the setup the program makes: task ids hold no NUL character, removals are never retried or scheduled, and only removals submit the removal task. Where a crash leaves another task with a dangling id, the original panics when it follows it, which is a further crash; the model also covers going on.
- Runs: the removal a runner works on is read off its execution's key; the history id in the payload is the same one, because every submission writes both from one id.
- FairMediaShare: the floating-point share is an arbitrary rounding function.
- FloorIsProportional: is about the exact floor; that floating-point shares add up to at most the target is not claimed, and FairMediaShare bounds the excess for whatever they add up to.
- NextDueIsFirstFuturePoint: durations and times are unbounded integers; 64-bit overflow of durations is not modelled.
- SubmitLocked: the sequence number is unbounded; its wrap-around at 64 bits is not modelled.
- Build: sizes are taken as given; that the walk counts blocks and the plan counts logical bytes is not modelled. Owners, labels and warning texts of the listed files are left out.
- KeyOf: an action key is a structured value instead of a formatted string, so a separator inside a service id is not modelled.
- RecoverScheduledRemovals: the workflow advance and the full reconciliation scope it queues at the end are left to its caller; payload bytes are reduced to whether the command is complete.
- ReconcileTargeted: the recomputed values and estimates published with the topology, a missing database, and the row timestamps are left out; the order of the file list is an arbitrary order instead of the lower-case path; the answers of the media services are an arbitrary list of claims, and the full reconciliation that follows a promotion is not modelled.
- PublishReconciliation: the media and torrent projections, which both publications replace as a whole, and the update timestamps are left out.
- PublishReconciliationDelta: the same, and the scope entry it clears.
- EstimateOf: paths are taken as cleaned and torrent hashes as lower case throughout.
- BackedMedia: the season lists and former items that are updated beside the matches are left out, as are the file, season and bundle estimates, which apply the estimate to a union of paths.
- Scheduler causes, warnings, error texts, metrics and status snapshots: read by people only.
- Preflight checks: run before the runner under no lock; their result is part of the outcome.
- Stopping the process gracefully, waiting for a trigger and change notifications.
- Registration after start-up: a crash step carries the definitions known while recovering and those registered afterwards.
- A scheduler without a store.
- `sort.Slice` stands as a stable sort; where the original leaves ties open the order chosen here is one of those it allows. Maps are visited in any order.
- Walking directories, `Statfs`, `os.Stat`, SQLite and JSON: replaced by arbitrary answers, tables and values. Modification times.
- Concurrent publication by full, targeted and inline reconciliations beyond the generation checks of the targeted one.
- Inline inventory deltas, HTTP handlers and clients, templates, sessions, and the valuation formulas: values are given numbers.
- "Succeeded" is not permanent for a workflow: a trigger of an earlier step that fails later sets the instance to attention.
