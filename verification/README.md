# Trinity-RFT coordination core: a verified model

Trinity-RFT trains language models with an *explorer* that generates rollouts and a *trainer* that consumes them.
This project models the parts that coordinate the two, and five algorithms beside them, and proves what they promise
over every input and every interleaving. An atomic step of the model is a stretch of the source between two suspension
points (`await`) at which something else can touch the modelled state.

* **Rollout scheduling and batch lifecycle.** `SchedulerModel` gives the steps of the scheduler as functions on values,
  `Scheduler` the mutable object whose methods are proved to make exactly those steps, and `SchedulerMachine` every
  interleaving of them. `RunnerInvariant`, `PlaceInvariant`, `ProgressInvariant` (with `Tally`), `TrackingInvariant` and
  `DeliveryInvariant` hold the parts of one invariant, put together in `SchedulerTheorems`; `TaskReports` says what the
  emitted results tell, `WaitTargets` how many a wait asks for, and `RestartSafety` when restarting runners is safe.
  `DispatchOrder`, `QueueOrder` and `BatchOrder` are about the order of service; `BatchLifecycle`,
  `RolloutCoordinator`, `Delivery`, `ExactDelivery` and `FailedFinalize` about finalizing, aborting and handing
  experiences to the pipeline exactly once. `SubTasks`, `RunResults`, `WorkflowRunner` and
  `RunWithRetry` cover what happens inside one sub-task.
* **Weight synchronization.** `Rendezvous` is the two-party protocol on a condition variable, with the transfer as a
  barrier; `PullSync` the pulling side with any number of explorers; `Synchronizer` the object both sides call; and
  `Staleness` and `RoundProgress` both loops on top of the rendezvous.
* **Explorer and trainer bookkeeping.** `ExplorerModel`, `ExplorerLoop`, `Explorer`, `Trainer`.
* **Reading several tasksets.** `TasksetSchedule`, `TasksetScheduler`, on the generic `Iteration`.
* **Stand-alone algorithms.** `FrozenLake` and `FrozenLakeTheorems` (depth-bounded search), `StreamFormat` and
  `StreamSaver` (streaming safetensors writer), `ExperienceModel`, `ExperiencePayload`, `ExperienceRoundTrip` and
  `ExperienceCodec` (serialization), `ArgumentSplitter`, `Metrics` and `MetricsHierarchy`.

`Common`, `Decimal` and `Bytes` hold shared vocabulary.

## What the code does not promise

Some statements one would expect are false of the code. The model keeps the code as it is and states exactly when they
hold, in most cases with an instance:

* Restarts that a cleanup starts on a runner that is already restarting, or whose future another cleanup of the batch has
  cancelled and that is still unwinding, make two sub-tasks share it (`OverlappingRestartsShareARunner`,
  `OverlappingCleanupsShareARunner`, `RestartIsSafeIff`).
* An abort that completes between two finalize calls makes them disagree (`AbortCanSplitFinalizeCalls`,
  `FinalizeAgreementIff`).
* A finalize that times out after some results were drained can never be repeated successfully (`BatchCanBeSpoiled`,
  `TimeoutIsHarmlessIff`).
* A trainer's timer that fires just after the explorer succeeded leaves the explorer alone at the transfer (`TimeoutRace`),
  and an explorer's timer just after the trainer succeeded fails an assertion (`TimeoutCrash`, `TimeoutIsSafeIff`); a
  timed-out pull leaves its request behind for ever (`TimeoutLeavesRequest`, `RequestIsTruthfulIff`).
* A retried sub-task can return an earlier attempt's experiences with a later attempt's status
  (`TimeoutAfterPartialSuccess`, `PayloadMatchesStatusIff`).
* In the fully asynchronous style an eval batch can be left behind (`AsyncEvalLeftBehind`, `EvalsDrainedIff`).
* A batch larger than an epoch loses count of the epochs (`EpochAgreesIff`).
* The frozen-lake check is not "true iff within max_steps" as its docstring says (`DocumentedIff`,
  `CorridorIsMisjudged`, `ShorterPathIsHidden`).
* A header longer than announced overwrites data (`DataSurvivesIff`).
* A single-turn experience comes back as a multi-turn one, and an empty dict of multi-modal inputs as none
  (`UnchangedIff`).
* A metric key that spells out `:mean` behind a name ending in a suffix changes its meaning when aggregated twice
  (`RunByRunAgreesIff`).

## Model

| member | source | states |
|---|---|---|
| `BatchOrder.BeforeIsStrictWeakOrder` | trinity/explorer/scheduler.py:207-218 | the sort keys of batch ids are irreflexive, transitive and transitive in their ties, so sorting by them is meaningful whatever the ids are |
| `BatchOrder.EvalBatchesFollowTheirStep` | trinity/explorer/scheduler.py:207-218 | the eval batch "n/name" is served after train batch n and before train batch n + 1 |
| `BatchOrder.SortBatchIds` | trinity/explorer/scheduler.py:344 | the sorted queue keys: every batch once, none behind one it must precede |
| `SubTasks.SplitTiles` | trinity/explorer/scheduler.py:563-580 | the pieces of a task tile its runs: no gap, no overlap, each within the limit, none empty |
| `SubTasks.RunIdsAreUnique` | trinity/explorer/scheduler.py:572-577 | two runs of one task share a run id only if they are the same run of the same piece |
| `Scheduler.Scheduler.constructor` | trinity/explorer/scheduler.py:228-273 | a scheduler starts with every runner idle and empty tables |
| `Scheduler.Scheduler.Schedule` | trinity/explorer/scheduler.py:548-561 | the whole new state after scheduling a list of tasks; nothing for an empty list |
| `Scheduler.Scheduler.SplitAndSubmitTasks` | trinity/explorer/scheduler.py:563-580 | the loop over the tasks equals adding them one by one to queue and wrapper table |
| `Scheduler.Scheduler.SplitTask` | trinity/explorer/scheduler.py:571-577 | the splitting loop yields exactly the tiling pieces |
| `Scheduler.Scheduler.SubmitTask` | trinity/explorer/scheduler.py:565-580 | one task: its wrapper, its sub-task count and its pieces put in front of the queue |
| `Scheduler.Scheduler.SchedulePendingTasks` | trinity/explorer/scheduler.py:339-366 | a pass is a sequence of dispatches in which no batch of strictly smaller key has work when another is served, and it ends only without idle runners or without work |
| `Scheduler.Scheduler.ServeAll` | trinity/explorer/scheduler.py:344-366 | the loop over the sorted keys: each dispatch respects the priorities, and no work is left while a runner is idle |
| `Scheduler.Scheduler.ServeBatch` | trinity/explorer/scheduler.py:347-366 | one batch is served until its queue or the idle runners run out, and an empty queue is deleted |
| `Scheduler.Scheduler.StartNext` | trinity/explorer/scheduler.py:348-363 | popping a sub-task and a runner, and recording the shared running state under the runner, the future and the batch |
| `Scheduler.Scheduler.TaskDoneCallback` | trinity/explorer/scheduler.py:368-397 | the whole new state for completion, failure and cancellation with and without restart; a restart is requested exactly on failure |
| `Scheduler.Scheduler.ForgetFuture` | trinity/explorer/scheduler.py:394-397 | the future leaves its batch, and an empty set leaves the table |
| `Scheduler.Scheduler.AccumulateTaskResult` | trinity/explorer/scheduler.py:399-408 | counters, payload list and first error of the wrapper after one sub-task result; all other wrappers unchanged |
| `Scheduler.Scheduler.EmitTaskResult` | trinity/explorer/scheduler.py:427-439 | a wrapper is emitted at most once, under its batch and task id |
| `Scheduler.Scheduler.EmitPartialTasksForBatch` | trinity/explorer/scheduler.py:458-465 | every incomplete wrapper with a completed run and no earlier emission is emitted, the others are not |
| `Scheduler.Scheduler.CollectIncompleteTasks` | trinity/explorer/scheduler.py:448-456 | the wrappers with a queued sub-task or a tracked running future |
| `Scheduler.Scheduler.MarkRunningTasksForCleanup` | trinity/explorer/scheduler.py:481-487 | the restart flag is written to the records of the batch's futures, wherever they are shared |
| `Scheduler.Scheduler.ClearTimeoutTasks` | trinity/explorer/scheduler.py:467-479 | queue, running set and task count of the batch disappear; the futures are returned for cancellation |
| `Scheduler.Scheduler.CleanupBatch` | trinity/explorer/scheduler.py:598-611 | cleanup up to its suspension: partial emission, marking, clearing, in this order |
| `Scheduler.Scheduler.RunnerRestarted` | trinity/explorer/scheduler.py:291-303 | after a restart the runner is idle and its busy record is gone |
| `Scheduler.Scheduler.DrainBatchPayloadResults` | trinity/explorer/scheduler.py:674-698 | all cached results of the batch are returned and removed |
| `Scheduler.Scheduler.DiscardCompletedResults` | trinity/explorer/scheduler.py:441-446 | cached results and task count of the batch are dropped |
| `RunnerInvariant.PoolIsPartitioned` | trinity/explorer/scheduler.py:291-308 | in every run whatsoever, overlapping restarts included, each created runner is idle or busy and never both |
| `RunnerInvariant.OwnedStepIff` | trinity/explorer/scheduler.py:291-303 | of all steps only the end of a restart can leave a live future without its runner, and it does exactly when the restarted runner has a live future |
| `RunnerInvariant.OwnedThroughout` | trinity/explorer/scheduler.py:291-303 | hence in every run whose restarts end on runners without live futures, each live future occupies a runner whose record is its own |
| `RunnerInvariant.RunnerConservation` | trinity/explorer/scheduler.py:291-308 | completions, failures, cancellations, cleanups and restarts keep the pool exclusive as long as a cleanup starts restarts only on runners without a live future and without another restart in flight |
| `RunnerInvariant.NoRunnerRunsTwice` | trinity/explorer/scheduler.py:352-363 | from start-up on, in every such run: idle or busy and never both, each live future on a runner whose record is its own, no two on the same runner |
| `RestartSafety.RestartIsSafeIff` | trinity/explorer/scheduler.py:613-619 | at the start of a cleanup's restarts: no continuation whose other cleanups start restarts with the same care can give a runner two sub-tasks, exactly when none of the runners has a live future or another restart in flight |
| `RestartSafety.RestartsOnlyOwnBatch` | trinity/explorer/scheduler.py:613-619 | a cleanup restarts a runner with a live sub-task exactly when that sub-task is one of its batch, and no idle runner |
| `RestartSafety.CrashRestartIsSafe` | trinity/explorer/scheduler.py:377-379 | the restart after a crash always starts that way |
| `RestartSafety.OverlappingRestartsShareARunner` | trinity/explorer/scheduler.py:305-308 | a run from start-up: a runner crashes, its batch is cleaned up while it restarts, and the second restart frees it under a newly dispatched sub-task |
| `RestartSafety.OverlappingCleanupsShareARunner` | trinity/explorer/scheduler.py:598-619 | a run from start-up with a single restart: of two overlapping cleanups of one batch the second does not wait for the future the first cancelled |
| `PlaceInvariant.EndKeepsPlaces` | trinity/explorer/scheduler.py:368-397 | a future that ends moves its sub-task from running to finished or dropped; every other sub-task stays where it is |
| `ProgressInvariant.SubTaskConservation` | trinity/explorer/scheduler.py:563-580 | for every task wrapper: finished + queued + live + dropped sub-tasks equals the number it was split into, and completed runs never exceed its total |
| `ProgressInvariant.FinishKeepsProgress` | trinity/explorer/scheduler.py:399-408 | accumulating a result moves both counters by the right amount and keeps them within what was planned |
| `TrackingInvariant.CallbackFindsItsFuture` | trinity/explorer/scheduler.py:394-395 | set.remove in the done-callback always finds the future it removes |
| `DeliveryInvariant.EmitKeepsResults` | trinity/explorer/scheduler.py:427-439 | a new result is the only one for its task and none of its payloads was handed out before |
| `DeliveryInvariant.ChunkIsNew` | trinity/explorer/scheduler.py:674-698 | a drained chunk has no repetitions and contains nothing handed out before |
| `DeliveryInvariant.FullChunkIsComplete` | trinity/explorer/scheduler.py:674-698 | if every task of the batch has a full result, the chunk holds every payload its sub-tasks returned |
| `DeliveryInvariant.HandedTaskIsMissing` | trinity/explorer/scheduler.py:674-698 | a task whose result was handed out has none cached any more |
| `TaskReports.LedgerStep` | trinity/explorer/scheduler.py:399-439 | every step keeps the books: a wrapper stands for the task as scheduled, its counters, payloads and first error are what its sub-tasks reported, in order |
| `TaskReports.EmissionTells` | trinity/explorer/scheduler.py:410-439 | whatever emits a result: its runs are the sum of the runs reported so far, its total the runs scheduled, its payloads those of the sub-tasks that returned one, and its message that all runs completed exactly when the two are equal, otherwise the first error a short sub-task reported, or that runs were cancelled without one |
| `TaskReports.CachedResultsTell` | trinity/explorer/scheduler.py:410-439 | in every state reached from start-up a cached result that no cleanup emitted early tells what all sub-tasks of its task reported |
| `TaskReports.CleanupEmitsPartial` | trinity/explorer/scheduler.py:448-465 | a cleanup that keeps partial results emits every task of the batch with a completed run, a queued or running sub-task and no earlier emission, and its result says what was reported so far |
| `WaitTargets.TargetIsScheduled` | trinity/explorer/scheduler.py:548-624 | in every run the number of results a wait asks for is the number of tasks scheduled under the batch and neither cleared nor discarded since |
| `SchedulerTheorems.InvStep` | trinity/explorer/scheduler.py:339-619 | every atomic step of the scheduler, in any order, keeps the whole invariant |
| `SchedulerTheorems.RunKeepsInv` | trinity/explorer/scheduler.py:339-619 | the invariant holds after every run, however restarts overlap |
| `SchedulerTheorems.ReachableStates` | trinity/explorer/scheduler.py:368-439 | in every state reached from start-up: counters balance, a cached result is full or marked partial, and no payload is handed out twice |
| `DispatchOrder.SubmitAppends` | trinity/explorer/scheduler.py:563-580 | appendleft and extendleft, read from the end that pop() serves, append the new sub-tasks behind the queued ones |
| `DispatchOrder.DispatchServesHead` | trinity/explorer/scheduler.py:347-349 | pop() serves the head of that queue and leaves its tail; other batches are untouched |
| `DispatchOrder.SubmissionIsSorted` | trinity/explorer/scheduler.py:563-580 | within a batch sub-tasks are ordered by task index, then by first run id |
| `DispatchOrder.PassIsRun` | trinity/explorer/scheduler.py:339-366 | a dispatch pass is a run of the scheduler machine, so every invariant applies to it |
| `QueueOrder.EventKeepsSorted` | trinity/explorer/scheduler.py:343-580 | every step keeps every queue in the order of task index and first run id |
| `QueueOrder.DispatchedInOrder` | trinity/explorer/scheduler.py:343-349 | from start-up on, every dispatched sub-task comes before all that stay queued in its batch, by task index and then first run id, and no batch of a strictly smaller key has work |
| `WorkflowRunner.WorkflowRunner.AggregateRunResults` | trinity/explorer/workflow_runner.py:167-191 | status and experiences gathered from the results: completed runs, first error, experiences of finished runs only |
| `WorkflowRunner.WorkflowRunner.SequentialRun` | trinity/explorer/workflow_runner.py:320-338 | all runs in order, or up to and including the first failure without partial collection |
| `WorkflowRunner.WorkflowRunner.RunUntilFailure` | trinity/explorer/workflow_runner.py:229-248 | the waiting loop: results of different runs in any order of completion; fewer than all only if one failed |
| `WorkflowRunner.WorkflowRunner.RunParallelRuns` | trinity/explorer/workflow_runner.py:193-250 | both parallel forms: the result is the aggregate of results of different runs, all of them in order with partial collection |
| `RunResults.ExecutedStopsAtFailure` | trinity/explorer/workflow_runner.py:328-337 | without partial collection a sequential execution makes the runs up to the first failure and no more, with it all of them |
| `RunResults.ExperienceOrigin` | trinity/explorer/workflow_runner.py:272-274 | every experience gathered comes from a finished run and carries run_id_base plus that run's index |
| `RunResults.ExperienceKept` | trinity/explorer/workflow_runner.py:177-183 | no experience of a finished run is lost |
| `RunResults.ExperiencesLaidOut` | trinity/explorer/workflow_runner.py:177-183 | the experiences lie result by result in the order of the results, each run's in its order and once, and there is nothing else |
| `RunResults.EachRunsBodies` | trinity/explorer/workflow_runner.py:177-183 | under each run's id lie exactly the experiences that run returned, in order and with multiplicity |
| `RunResults.CompletedCounts` | trinity/explorer/workflow_runner.py:175-183 | the completed runs are the finished results, counted |
| `RunResults.StatusMessage` | trinity/explorer/workflow_runner.py:184-191 | the message is the error of the first failed result, put as a partial success exactly when some run finished |
| `RunResults.StatusIsHonest` | trinity/explorer/workflow_runner.py:167-191 | completed runs never exceed total runs; success is reported exactly when every run was made and finished; there is a message exactly when a run failed |
| `RunResults.RunIdsIdentifyRuns` | trinity/explorer/workflow_runner.py:272-274 | across all sub-tasks of a task, delivered experiences carry run ids below the repeat count and share one only if they come from the same run |
| `RunWithRetry.RunTask` | trinity/explorer/workflow_runner.py:375-437 | a train sub-task hands over all its experiences, an evaluation none; the status changes exactly when runs completed without an experience, and then to none completed |
| `RunWithRetry.SuccessDelivers` | trinity/explorer/scheduler.py:140-156 | the first successful attempt of a train sub-task decides: under each run's id exactly what that run returned is handed over, with as many completed runs as finished, whatever later attempts would do |
| `RunWithRetry.AggregatesAreFaithful` | trinity/explorer/workflow_runner.py:167-191 | a status without completed runs comes with no experiences |
| `RunWithRetry.RunWithRetry` | trinity/explorer/scheduler.py:106-195 | the first attempt that completes all its runs, or some with partial collection, ends the loop with exactly its status and payload; a cancellation before it ends it without a result; otherwise all attempts are made and the last status and the last returned payload remain |
| `RunWithRetry.SuccessSettles` | trinity/explorer/scheduler.py:140-164 | the same of the specification: nothing behind the first success matters |
| `RunWithRetry.AllAreMade` | trinity/explorer/scheduler.py:140-195 | without a success every attempt is made |
| `RunWithRetry.RetryResult` | trinity/explorer/scheduler.py:140-195 | the status is that of the last attempt made, the payload that of the last attempt that returned |
| `RunWithRetry.PayloadMatchesStatusIff` | trinity/explorer/scheduler.py:140-195 | "no completed runs means no experiences" holds of the result exactly unless the last attempt timed out or broke down after an earlier one returned experiences |
| `RunWithRetry.OneAttemptDelivers` | trinity/explorer/scheduler.py:140-195 | what is handed over is the payload of a single attempt, whatever the others did |
| `RunWithRetry.PartialCollectionIsNeverStale` | trinity/explorer/scheduler.py:157-163 | with partial collection that never happens |
| `RunWithRetry.TimeoutAfterPartialSuccess` | trinity/explorer/scheduler.py:166-191 | without it, a timeout after a partial success reports nothing completed and still hands over experiences |
| `RolloutCoordinator.BatchState.constructor` | trinity/explorer/rollout_coordinator.py:33-50 | a new batch is pending, without statuses and without a result |
| `RolloutCoordinator.RolloutCoordinator.SubmitBatch` | trinity/explorer/rollout_coordinator.py:109-135 | an active batch id is refused; otherwise a new state is registered, running if it has tasks |
| `RolloutCoordinator.RolloutCoordinator.GetExistingFinalResult` | trinity/explorer/rollout_coordinator.py:236-244 | a stored result is returned again, an aborted batch gets its result built, an active one has none |
| `RolloutCoordinator.RolloutCoordinator.TakeTrainResults` | trinity/explorer/rollout_coordinator.py:255-276 | the checks on the drained statuses: timeout errors leave the batch as it was, success stores the statuses and moves to finalizing |
| `RolloutCoordinator.RolloutCoordinator.RestoreActive` | trinity/explorer/rollout_coordinator.py:281-283 | a failed pipeline or cleanup restores the active phase |
| `RolloutCoordinator.RolloutCoordinator.FinishBatch` | trinity/explorer/rollout_coordinator.py:287-297 | the batch is finalized with the built result and leaves the table |
| `RolloutCoordinator.RolloutCoordinator.FinishEval` | trinity/explorer/rollout_coordinator.py:157-177 | eval statuses fill the missing positions, then the batch is finalized |
| `RolloutCoordinator.RolloutCoordinator.BeginAbort` | trinity/explorer/rollout_coordinator.py:179-193 | nothing to abort for unknown or terminal batches |
| `RolloutCoordinator.RolloutCoordinator.CompleteAbort` | trinity/explorer/rollout_coordinator.py:194-204 | the batch is aborted with a result built without pipeline metrics and leaves the table |
| `RolloutCoordinator.RolloutCoordinator.BuildBatchResult` | trinity/explorer/rollout_coordinator.py:314-346 | pipeline metrics, aggregated status metrics and the number of finished tasks |
| `BatchLifecycle.FinalizedCounts` | trinity/explorer/rollout_coordinator.py:264-274 | a train batch that goes through reports exactly the expected tasks without a minimum, and between one and all of them with one |
| `BatchLifecycle.TrainDrainDecides` | trinity/explorer/rollout_coordinator.py:255-276 | what a train finalize does with the drained statuses, case by case: a timeout leaves the batch, otherwise they are its statuses and the rest is cleaned up exactly when some are missing |
| `BatchLifecycle.BuiltReports` | trinity/explorer/rollout_coordinator.py:314-346 | a built result has the number of finished tasks, also under the count key of its kind, the aggregated status metrics, and behind them what the pipeline reported |
| `BatchLifecycle.PhaseAlwaysTells` | trinity/explorer/rollout_coordinator.py:137-204 | in every run the phase of a registered batch tells whether a finalize call is past its checks; so a failed finalize leaves it as submitted and it can always be aborted |
| `BatchLifecycle.CountKeyOf` | trinity/explorer/rollout_coordinator.py:348-353 | the count is reported under one key for train batches, and for an eval batch under its taskset, whatever the step |
| `BatchLifecycle.EvalFinalizeReports` | trinity/explorer/rollout_coordinator.py:157-177 | an eval finalize keeps the earlier statuses, fills the positions behind them with the drained ones, and reports as many finished tasks as there are then; a first finalize as many as were drained |
| `BatchLifecycle.FinalizeAgreementIff` | trinity/explorer/rollout_coordinator.py:137-204 | once a finalize call has returned, all later ones return the same exactly when no abort is suspended, or nobody waits any more, or the abort would build the same result |
| `BatchLifecycle.FinalizeAgreement` | trinity/explorer/rollout_coordinator.py:236-297 | without an abort in flight when the first finalize returns, all finalize calls on the batch return the same result |
| `BatchLifecycle.AbortCanSplitFinalizeCalls` | trinity/explorer/rollout_coordinator.py:179-204 | two finalize calls that return different results, with an abort completing between them |
| `Delivery.SysInvStep` | trinity/explorer/rollout_coordinator.py:206-212 | scheduler and batch lifecycle together: every step, drain, finalize, failed finalize or abort keeps the joint invariant |
| `Delivery.AtMostOnce` | trinity/explorer/rollout_coordinator.py:246-297 | over any interleaving every payload reaches process_experiences at most once |
| `Delivery.CompleteDrainDeliversEverything` | trinity/explorer/scheduler.py:685-698 | a complete drain of a batch without early emissions hands over every payload and nothing of the batch is left or lost |
| `ExactDelivery.ExactlyOnce` | trinity/explorer/rollout_coordinator.py:246-297 | whenever a train batch stands finalized with all its tasks and without early emissions, every payload its sub-tasks returned has been processed exactly once, with or without a minimum and whatever finalize calls failed before; without a minimum it never stands finalized with fewer tasks |
| `ExactDelivery.ProcessedRunIds` | trinity/explorer/workflow_runner.py:272-274 | of everything processed, two experiences of one task share a run id only if they come from the same sub-task, and there from one run of one of its attempts, the one whose results made up what was handed over; ids lie below the repeat count, under any retries |
| `ExactDelivery.RunTaskMakesAttempt` | trinity/explorer/workflow_runner.py:375-437 | whatever goes through run_task for results of different runs of a sub-task is such an attempt |
| `FailedFinalize.TimeoutIsHarmlessIff` | trinity/explorer/rollout_coordinator.py:255-271 | a finalize that times out leaves everything but its lock as it was exactly when it had collected nothing, and otherwise spoils the batch |
| `FailedFinalize.SpoiledBatchIsNeverFinalized` | trinity/explorer/rollout_coordinator.py:264-271 | once a task's result was drained by a finalize that failed, no later finalize without a minimum can go through |
| `FailedFinalize.TimeoutAfterPartialDrainSpoils` | trinity/explorer/rollout_coordinator.py:264-271 | so a finalize that times out after collecting something is never followed by a finalized batch or a processed payload |
| `FailedFinalize.BatchCanBeSpoiled` | trinity/explorer/rollout_coordinator.py:264-271 | a run from submission in which that happens |
| `Synchronizer.Synchronizer.SetExplorerStatus` | trinity/manager/synchronizer.py:174-200 | the counts after a status change, or the failing assertion; stopping notifies |
| `Synchronizer.Synchronizer.SyncFailed` | trinity/manager/synchronizer.py:398-408 | the "not ready" answer of either side |
| `Synchronizer.Synchronizer.TrainerReady` | trinity/manager/synchronizer.py:418-455 | the trainer's stretch from taking the lock to its wait or return |
| `Synchronizer.Synchronizer.TrainerResumes` | trinity/manager/synchronizer.py:433-455 | the trainer's stretch after its wait |
| `Synchronizer.Synchronizer.ExplorerReady` | trinity/manager/synchronizer.py:439-455 | the explorer's stretch from taking the lock to its wait or return |
| `Synchronizer.Synchronizer.ExplorerResumes` | trinity/manager/synchronizer.py:452-455 | the explorer's stretch after its wait |
| `Synchronizer.Synchronizer.ExplorerRequiresSync` | trinity/manager/synchronizer.py:202-204 | whether some explorer is counted as requesting |
| `Synchronizer.Synchronizer.WaitNewModelStateDict` | trinity/manager/synchronizer.py:320-346 | the pulling explorer's stretch from taking the lock to its wait or return |
| `Synchronizer.Synchronizer.NewModelStateDict` | trinity/manager/synchronizer.py:343-346 | the same call after its wait |
| `Rendezvous.PairInvStep` | trinity/manager/synchronizer.py:381-457 | every step of the two calls, the transfer barrier, stops, harmless timeouts and foreign notifications keep the rendezvous invariant |
| `Rendezvous.RendezvousAgreement` | trinity/manager/synchronizer.py:381-457 | in every run with harmless timeouts the k-th trainer call and the k-th explorer call return the same version, and no assertion fails |
| `Rendezvous.SuccessReturnsTrainerStep` | trinity/manager/synchronizer.py:421-455 | that version is the trainer's step at its call, and nobody passes the barrier alone |
| `Rendezvous.FailureMeansPeerStopped` | trinity/manager/synchronizer.py:398-455 | None is answered only when the peer has stopped or on the caller's own timeout |
| `Rendezvous.StatusesAreResetBeforeNextCall` | trinity/manager/synchronizer.py:436-454 | whoever is about to call finds both requests cleared, except the one of a peer already waiting |
| `Rendezvous.NoMutualWait` | trinity/manager/synchronizer.py:423-452 | both sides never wait together, and a sleeper whose condition holds has been woken |
| `Rendezvous.BothCallsComplete` | trinity/manager/synchronizer.py:381-457 | once both have called, finitely many of their own steps bring both through, whichever got the lock first |
| `Rendezvous.TimeoutIsSafeIff` | trinity/manager/synchronizer.py:456-457 | a timeout is safe exactly when the peer has not returned successfully yet; otherwise the trainer's leaves the explorer alone at the barrier, and the explorer's fails an assertion of the status change |
| `Rendezvous.TimeoutRace` | trinity/manager/synchronizer.py:456-457 | a run from the start: a timer that fires just after the peer succeeded leaves the peer alone at the barrier |
| `Rendezvous.TimeoutCrash` | trinity/manager/synchronizer.py:180-195 | a run from the start: the explorer's timer fires just after the trainer succeeded, and the explorer's call fails an assertion |
| `PullSync.PullingIsSafe` | trinity/manager/synchronizer.py:320-346 | any number of explorers, any interleaving, timeouts included: no assertion fails, every explorer is counted once under its own status, nobody is answered with an older version, and an unchanged version is answered only after a notification without news or once the trainer has stopped |
| `PullSync.RunLosesNoWakeup` | trinity/manager/synchronizer.py:206-224 | an explorer that sleeps unwoken knows the newest version and the trainer has not stopped |
| `PullSync.RequestIsTruthfulIff` | trinity/manager/synchronizer.py:202-204 | from start-up on explorer_requires_sync answers yes exactly when an explorer waits or some wait so far has timed out, so it is right exactly while one waits or none has timed out |
| `PullSync.TimeoutLeavesRequest` | trinity/manager/synchronizer.py:335-345 | a run from start-up that leaves a request nobody is waiting for |
| `Staleness.WorldInvStep` | trinity/explorer/explorer.py:392-408 | explorer loop, trainer loop and rendezvous together: every step keeps the joint invariant |
| `Staleness.BoundedStaleness` | trinity/explorer/explorer.py:392-408 | in the fixed style with equal intervals I and offset o every rollout of batch s uses version I * max(0, floor((s-1-o)/I)), so its lag lies between 0 and o + I - 1 |
| `Staleness.NoDeadlock` | trinity/trainer/trainer.py:104-127 | in every reachable state one of the loops or the transfer can go on |
| `RoundProgress.RoundsComplete` | trinity/explorer/explorer.py:392-408 | from every reachable state more than 2 * offset + 3 * interval + 10 steps of the two loops, whichever they are, complete the current sync on both sides, two more for each foreign notification |
| `Staleness.WaitingExplorerIsServed` | trinity/trainer/trainer.py:205-211 | while the explorer sleeps, everything it submitted is in the buffer, enough for the trainer to reach its sync |
| `Explorer.Explorer.constructor` | trinity/explorer/explorer.py:36-95 | a start or restart at the saved step |
| `Explorer.Explorer.ExploreStep` | trinity/explorer/explorer.py:318-357 | the bookkeeping at each suspension (draining the oldest batch at capacity, submitting) and at the end, and the orderly stop |
| `Explorer.Explorer.Eval` | trinity/explorer/explorer.py:413-447 | one batch a taskset is queued and submitted under the current step |
| `Explorer.Explorer.FinishEvalStep` | trinity/explorer/explorer.py:529-556 | exactly the run of evals of that step at the head of the queue is finalized |
| `Explorer.Explorer.FinishStepRange` | trinity/explorer/explorer.py:503-507 | train batch and evals, step by step |
| `Explorer.Explorer.FinishCurrentSteps` | trinity/explorer/explorer.py:359-362 | everything up to the current step |
| `Explorer.Explorer.SaveCheckpoint` | trinity/explorer/explorer.py:479-484 | the step and the scheduler position that are saved |
| `Explorer.Explorer.NeedSync` | trinity/explorer/explorer.py:392-408 | when a sync is due, and that a sync step finishes everything first |
| `ExplorerModel.EvalsDrainedIff` | trinity/explorer/explorer.py:534-544 | finish_current_steps leaves no eval behind exactly when none is older than the unfinished steps |
| `ExplorerModel.FinishEvalsTakesHeadRun` | trinity/explorer/explorer.py:529-556 | exactly the evals of the step at the head of the queue are finalized, in order, and the rest is kept; step 0 or none means the current step |
| `ExplorerLoop.EventKeepsBooks` | trinity/explorer/explorer.py:318-408 | every stretch of the loop between two suspensions keeps the bookkeeping invariant |
| `ExplorerLoop.FinalizationDiscipline` | trinity/explorer/explorer.py:318-362 | at every suspension train batches are finalized once each in increasing order without gaps; the batch being drained, the in-flight deque and the batch being submitted are exactly last_monitored_step+1..explore_step_num, within the limit; outside the fully asynchronous style no finalized step leaves an eval behind and checkpoints are at finalized steps |
| `ExplorerLoop.CheckpointsWhenDue` | trinity/explorer/explorer.py:318-501 | start-up, every sync, the watcher and the end each leave exactly one checkpoint, of the state they leave; nothing else does |
| `ExplorerLoop.DequeAtLoop` | trinity/explorer/explorer.py:318-357 | between the iterations of the fully asynchronous loop the deque is exactly last_monitored_step+1..explore_step_num |
| `ExplorerLoop.ShutDownIsRun` | trinity/explorer/explorer.py:503-507 | finishing everything step by step, with suspensions in between, comes to finishing it in one go |
| `ExplorerLoop.EverythingIsFinalizedAtStop` | trinity/explorer/explorer.py:321-332 | at the end every submitted train batch is finalized, and outside the fully asynchronous style every eval |
| `ExplorerLoop.StopLeavesOldEvals` | trinity/explorer/explorer.py:534-537 | an eval older than the unfinished steps at the head of the queue blocks all of them |
| `ExplorerLoop.AsyncEvalLeftBehind` | trinity/explorer/explorer.py:339-348 | a fully asynchronous run that ends with an eval batch submitted and never finalized |
| `Trainer.Trainer.NeedSync` | trinity/trainer/trainer.py:205-220 | when a sync is due in the step-driven and the explorer-driven styles |
| `Trainer.Trainer.SyncWeight` | trinity/trainer/trainer.py:226-257 | the attempt that is recorded, skipped only when a collective sync is not ready, and that the step counts as synchronized either way |
| `Trainer.Trainer.Poll` | trinity/trainer/trainer.py:113-116 | one turn of the waiting loop does with the explorer's answer what the specification says |
| `Trainer.Trainer.WaitForSamples` | trinity/trainer/trainer.py:111-117 | the waiting loop heeds the answers one after the other |
| `Trainer.Trainer.FinishStep` | trinity/trainer/trainer.py:120-151 | after a step, in either style: synchronized exactly when due, step-driven at multiples of the interval, explorer-driven when asked, a due checkpoint standing in for the sync |
| `Trainer.Trainer.Train` | trinity/trainer/trainer.py:104-176 | a whole run: syncs at exactly the multiples of the interval, or for exactly the requests of the explorer; the saves are the multiples of the save interval plus the final one |
| `Trainer.StepDrivenSyncs` | trinity/trainer/trainer.py:104-151 | step-driven, whatever the explorer answers: one sync behind each multiple of the interval and no other, a collective one taken exactly when the peer is ready then |
| `Trainer.ExplorerDrivenSyncs` | trinity/trainer/trainer.py:104-151 | explorer-driven: with collective transfer one sync for every positive answer, in order; otherwise exactly the steps asked at are synchronized, once each and in order, and none is skipped; the last one counts as synchronized |
| `Trainer.ServedNext` | trinity/trainer/trainer.py:205-220 | one more answer is served by one more sync exactly when it asks for one that is not there yet |
| `Trainer.WaitsIgnored` | trinity/trainer/trainer.py:111-117 | step-driven, a wait changes nothing once a multiple of the interval counts as synchronized |
| `Trainer.MultiplesComplete` | trinity/trainer/trainer.py:205-211 | every multiple in the range is there, in increasing order |
| `TasksetScheduler.BuildBase` | trinity/buffer/task_scheduler.py:146-151 | the flat list holds taskset i exactly len(i) times |
| `TasksetScheduler.TasksetScheduler.constructor` | trinity/buffer/task_scheduler.py:104-161 | a restart at the saved step is in its proper epoch with that epoch's order |
| `TasksetScheduler.TasksetScheduler.CutBatch` | trinity/buffer/task_scheduler.py:203-215 | the ids of the next batch, and the epoch and order left behind |
| `TasksetScheduler.TasksetScheduler.ReadTasks` | trinity/buffer/task_scheduler.py:217-224 | each counted taskset is read once and its tasks are marked with it |
| `TasksetScheduler.TasksetScheduler.Read` | trinity/buffer/task_scheduler.py:184-227 | refused exactly at the last step; otherwise the batch holds as many tasks of each taskset as its draws ask for, and the place is kept |
| `TasksetSchedule.EpochPlace` | trinity/buffer/task_scheduler.py:163-179 | epoch e occupies places e*N..(e+1)*N of the schedule |
| `TasksetSchedule.EachEpochDrawsEveryTaskset` | trinity/buffer/task_scheduler.py:163-179 | each completed epoch draws taskset i exactly len(i) times |
| `TasksetSchedule.CounterKeepsDraws` | trinity/buffer/task_scheduler.py:217 | counting the ids loses only their order |
| `TasksetSchedule.ReadsInTurn` | trinity/buffer/task_scheduler.py:217-224 | each counted taskset is read once, in order, and each read goes on where the earlier ones left the readers |
| `TasksetSchedule.BatchMatchesDraws` | trinity/buffer/task_scheduler.py:217-224 | the tasks of a batch come from the tasksets drawn, each as often as drawn |
| `TasksetSchedule.NextIsPlaced` | trinity/buffer/task_scheduler.py:203-215 | epoch == step*B div N and orders == build_orders(epoch) after every read, for B <= N |
| `TasksetSchedule.CutFollowsSchedule` | trinity/buffer/task_scheduler.py:203-215 | a read draws exactly the next B entries of the schedule |
| `TasksetSchedule.ScheduleIsEpochConcatenation` | trinity/buffer/task_scheduler.py:184-227 | the first k reads draw exactly the first k*B entries of the epochs laid end to end |
| `TasksetSchedule.ResumeEquivalence` | trinity/buffer/task_scheduler.py:104-161 | a scheduler rebuilt from a saved step and saved reader states continues with exactly the batches of the uninterrupted one |
| `TasksetSchedule.StopsWithinABatch` | trinity/buffer/task_scheduler.py:156-161 | without total_steps the reads stop with less than one batch of draws left |
| `TasksetSchedule.ConfigureFailsIff` | trinity/buffer/task_scheduler.py:146-161 | the constructor fails exactly when there is no task at all |
| `TasksetSchedule.EpochAgreesIff` | trinity/buffer/task_scheduler.py:153-154 | the running epoch equals the one a restart computes after every number of reads exactly when B <= N |
| `Iteration.OutputCompose` | trinity/buffer/task_scheduler.py:184-227 | repeated reads compose: reading j + k times is reading j times and then k times |
| `FrozenLake.LookAround` | examples/agentscope_frozenlake/utils.py:97-105 | the loop over the four directions: whether a goal is seen, and what is pushed |
| `FrozenLake.FirstStartIsFirst` | examples/agentscope_frozenlake/utils.py:85-87 | the search starts at the first "S" in row-major order |
| `FrozenLake.IsValid` | examples/agentscope_frozenlake/utils.py:73-106 | the search terminates on every rectangular board of at least the maximum size and computes the specified depth-bounded search of the part within it, on a square board of that size the search the theorems below are about; a board without start is an error |
| `FrozenLake.CropDecides` | examples/agentscope_frozenlake/utils.py:88-106 | with the start within the maximum size only the part of the board within it matters, so the theorems below apply to that part |
| `FrozenLakeTheorems.ValidMeansGoalWithinOneMore` | examples/agentscope_frozenlake/utils.py:88-106 | True implies a hole-free walk on the board to a goal of at most max_steps + 1 moves |
| `FrozenLakeTheorems.NeverCutOff` | examples/agentscope_frozenlake/utils.py:89-95 | an undiscovered entry is never deeper than the number of discovered cells |
| `FrozenLakeTheorems.DfsFailsClosed` | examples/agentscope_frozenlake/utils.py:88-106 | a failed search has discovered a set that cannot be left and shows no goal |
| `FrozenLakeTheorems.ExactForLargeBounds` | examples/agentscope_frozenlake/utils.py:73-106 | for max_steps of at least the number of open cells minus one (size*size is always enough) the answer is exactly whether a goal can be reached |
| `FrozenLakeTheorems.OpenAtMostAll` | examples/agentscope_frozenlake/utils.py:73-106 | there are at most size*size open cells |
| `FrozenLakeTheorems.CorridorIsMisjudged` | examples/agentscope_frozenlake/utils.py:89-103 | a family of boards whose goal is m + 1 moves away and that the bound m accepts |
| `FrozenLakeTheorems.DocumentedIff` | examples/agentscope_frozenlake/utils.py:73-83 | "True iff within max_steps" holds of every board with k open cells exactly when max_steps is negative or at least k |
| `FrozenLakeTheorems.ShorterPathIsHidden` | examples/agentscope_frozenlake/utils.py:89-106 | a board with a path of max_steps moves that the search rejects |
| `Bytes.UnpackPack64` | trinity/utils/stream_saver.py:241 | struct.unpack("<Q") undoes struct.pack("<Q") |
| `Bytes.PackUnpack64` | trinity/utils/stream_saver.py:241 | and the other way round: eight bytes are the packed form of the number they stand for |
| `Bytes.PlaceValue` | trinity/utils/stream_saver.py:241 | little-endian: byte i counts 256 to the power i |
| `StreamFormat.PlannedIsWritten` | trinity/utils/stream_saver.py:135-158 | if the iterator yields the announced names, dtypes and shapes in order, the measured header is the written header |
| `StreamFormat.PutExisting` | trinity/utils/stream_saver.py:220-230 | a name written twice keeps its place in the header and gets the later entry |
| `StreamFormat.OffsetsContiguous` | trinity/utils/stream_saver.py:220-230 | data_offsets start at 0, leave no gap and end with the data |
| `StreamFormat.SlicesOfWritten` | trinity/utils/stream_saver.py:204-232 | slicing the data by the recorded offsets gives every tensor back |
| `StreamFormat.StreamingRoundTrip` | trinity/utils/stream_saver.py:195-242 | header within the reserved space, and the loaded file is exactly the streamed tensors |
| `StreamFormat.DataSurvivesIff` | trinity/utils/stream_saver.py:234-242 | writing the header back leaves the data alone, whatever the data, exactly when the header fits the reserved space |
| `StreamSaver.File.Write` | trinity/utils/stream_saver.py:207-242 | an in-place write at the file position |
| `StreamSaver.NormalizeStateDictMeta` | trinity/utils/stream_saver.py:108-119 | all dtypes mapped, or the first unsupported one |
| `StreamSaver.NormalizeFails` | trinity/utils/stream_saver.py:83-105 | the first unsupported dtype decides |
| `StreamSaver.ComputeExactHeaderSize` | trinity/utils/stream_saver.py:135-158 | the length of the planned header rounded up to eight |
| `StreamSaver.StreamOne` | trinity/utils/stream_saver.py:220-230 | one tensor: its bytes at the end, its entry in the header |
| `StreamSaver.StreamTensors` | trinity/utils/stream_saver.py:211-232 | the writing loop, or the error of the first unsupported tensor |
| `StreamSaver.SeekBack` | trinity/utils/stream_saver.py:234-242 | the seek-back write yields the specified file image |
| `StreamSaver.WriteHeader` | trinity/utils/stream_saver.py:234-242 | length and padded header written over the reserved space |
| `StreamSaver.SaveStreaming` | trinity/utils/stream_saver.py:161-242 | the content of the file left behind, or the error |
| `StreamSaver.SaveThenLoad` | trinity/utils/stream_saver.py:161-242 | saving distinct tensors under truthful metadata and loading gives back names, dtypes, shapes and bytes in order |
| `ExperienceModel.ConstructKeepsIff` | trinity/common/experience.py:180-299 | the constructor leaves fields alone exactly when there is an action mask, or chosen and rejected with prompt_length == len(tokens); what it returns is of that kind |
| `ExperienceModel.SingleTurnMask` | trinity/common/experience.py:208-223 | a single-turn experience is what was given plus an action mask: a one for each token behind the prompt, or a zero for each log probability when the prompt was truncated |
| `ExperienceModel.OtherKinds` | trinity/common/experience.py:208-227 | with an action mask everything is kept; a comparison gets all its tokens as its prompt; both need tokens |
| `ExperienceModel.SingleTurnRefusedIff` | trinity/common/experience.py:216-225 | when a single-turn experience is refused |
| `ExperienceModel.KeysInjective` | trinity/common/experience.py:376-390 | no two entries of the tensor table share a key, whatever the multi-modal names |
| `ExperiencePayload.CustomRoundTrip` | trinity/common/experience.py:316-343 | custom fields survive the textual dtype |
| `ExperiencePayload.FrameRoundTrip` | trinity/common/experience.py:396-431 | magic, version and two little-endian lengths delimit the two parts exactly |
| `ExperiencePayload.UnframeIff` | trinity/common/experience.py:413-431 | a new-style payload is taken apart exactly when it has a whole head of the version written; another version is refused as such |
| `ExperiencePayload.FrameOfPartsIff` | trinity/common/experience.py:396-431 | what is taken apart is the frame of its parts exactly when it is as long as its head announces |
| `ExperienceRoundTrip.PutOneAt` | trinity/common/experience.py:367-390 | writing one experience sets exactly its own entries |
| `ExperienceRoundTrip.TableAt` | trinity/common/experience.py:356-392 | the tensor table holds, entry by entry, what the experiences hold |
| `ExperienceRoundTrip.RoundTrip` | trinity/common/experience.py:345-468 | deserialize_many(serialize_many(xs)) has the same number, order and fields, up to empty multi-modal inputs; the experience type is worked out anew |
| `ExperienceRoundTrip.SingleRoundTrip` | trinity/common/experience.py:301-313 | one experience through serialize and deserialize; any other payload size is refused |
| `ExperienceRoundTrip.UnchangedIff` | trinity/common/experience.py:208-227 | a constructed experience comes back unchanged from its payload exactly when it is not single-turn and has no empty multi-modal inputs |
| `ExperienceRoundTrip.FieldsUnchangedIff` | trinity/common/experience.py:458-464 | its fields come back unchanged from its payload exactly when it has no empty multi-modal inputs, and nothing else ever differs |
| `ExperienceCodec.SerializeMany` | trinity/common/experience.py:345-402 | the loops that fill metadata and tensor table produce the specified payload |
| `ExperienceCodec.AddTensors` | trinity/common/experience.py:367-390 | one experience's tensors enter the table under their keys |
| `ExperienceCodec.DeserializeMany` | trinity/common/experience.py:404-468 | the specified experiences, or the error of the first step that fails; old payloads go to the legacy reader |
| `ExperienceCodec.RestoreItems` | trinity/common/experience.py:436-468 | experiences in order, or the first error |
| `ExperienceCodec.RestoreInputs` | trinity/common/experience.py:458-464 | multi-modal inputs in order, or a missing tensor |
| `ExperienceCodec.RestoreItem` | trinity/common/experience.py:437-466 | one experience rebuilt through the constructor |
| `ExperienceCodec.Serialize` | trinity/common/experience.py:301-303 | a single experience is a batch of one |
| `ExperienceCodec.Deserialize` | trinity/common/experience.py:305-313 | a payload of any other number than one is an error |
| `ArgumentSplitter.Track` | examples/grpo_toolcall/get_toolace_data.py:63-80 | the three depth counters after a character outside quotes |
| `ArgumentSplitter.StripTrims` | examples/grpo_toolcall/get_toolace_data.py:82-88 | stripping takes away white space at both ends, all of it, and nothing else |
| `ArgumentSplitter.ScanCounts` | examples/grpo_toolcall/get_toolace_data.py:49-80 | the scan keeps for each kind of bracket the opened minus the closed ones outside quotes, and the open quote |
| `ArgumentSplitter.CutsIff` | examples/grpo_toolcall/get_toolace_data.py:81-82 | a comma separates arguments exactly outside quotes and behind balanced brackets of every kind |
| `ArgumentSplitter.SplitTopLevelArgs` | examples/grpo_toolcall/get_toolace_data.py:39-90 | the scan returns the trimmed pieces between top-level commas, without an empty last one |
| `ArgumentSplitter.PiecesAreProper` | examples/grpo_toolcall/get_toolace_data.py:49-85 | on any input every cut is outside quotes with all three depths zero, and nothing but the cutting commas is lost |
| `ArgumentSplitter.PiecesOfJoin` | examples/grpo_toolcall/get_toolace_data.py:49-85 | pieces without a top-level comma that end closed are found again in their join |
| `ArgumentSplitter.SplitInvertsJoinIff` | examples/grpo_toolcall/get_toolace_data.py:39-90 | splitting a comma-join returns the list exactly when no argument holds a top-level comma, all but the last are closed, all are trimmed and the last is not empty |
| `ArgumentSplitter.SplitInvertsSpacedJoin` | examples/grpo_toolcall/get_toolace_data.py:81-88 | white space after the commas makes no difference |
| `Metrics.ParseSuffixed` | trinity/utils/metrics.py:72-87 | a name with an aggregation suffix is parsed into both, whatever the name |
| `Metrics.StableIff` | trinity/utils/metrics.py:62-68 | a canonical key is read like the original exactly unless ":mean" was spelled out behind a name that ends in a suffix |
| `Metrics.UnstableShape` | trinity/utils/metrics.py:72-87 | what such keys look like |
| `Metrics.GroupMetricsByCanonicalKey` | trinity/utils/metrics.py:56-69 | the nested loops group all numbers by canonical key in order |
| `Metrics.AggregateRunLevelMetrics` | trinity/utils/metrics.py:182-211 | one aggregate a canonical key |
| `Metrics.SumHasEach` | trinity/utils/metrics.py:27-32 | SUM has every number exactly once |
| `Metrics.MeanTimesCount` | trinity/utils/metrics.py:203-205 | MEAN times the number of numbers is SUM |
| `Metrics.OneOfThem` | trinity/utils/metrics.py:27-32 | MAX, MIN and LAST are among the numbers and are the largest, smallest and last |
| `MetricsHierarchy.GroupFor` | trinity/utils/metrics.py:56-69 | a key's group holds exactly the numbers recorded under it, in order, and the type its name spells |
| `MetricsHierarchy.HierarchicalEqualsFlat` | trinity/utils/metrics.py:182-211 | SUM, MAX, MIN and LAST: aggregating the groups' aggregates equals aggregating everything at once, with the same keys present |
| `MetricsHierarchy.MeanBetweenExtremes` | trinity/utils/metrics.py:203-205 | a mean lies between the smallest and the largest value |
| `MetricsHierarchy.HierarchicalMeanBetweenExtremes` | trinity/utils/metrics.py:203-205 | so does a mean of means |
| `MetricsHierarchy.RunByRunAgreesIff` | trinity/utils/metrics.py:62-87 | two single runs aggregate to the same on both ways, whatever they report, exactly when the key is stable |

## Left out

* `_wait_for_batch_results` and the other polling loops: waiting is a nondeterministic choice of when a drain, a cleanup or
  a timeout happens; real clocks, dynamic timeouts and timing statistics are not modelled.
* Per-sub-task metric lists and `batch_is_eval_map` in the scheduler, and the message texts of statuses: counters,
  payloads and first errors are kept.
* Task wrappers and running-state records are values in tables, looked up by their index, instead of shared objects; the
  restart flag that two maps see through one shared record is written in both.
* Ties in the sort key of batch ids (and of `set.pop`) may be resolved in any way; leading digits of a batch id are ASCII.
* `start`, `stop` and the monitoring loop of the scheduler, and reading a missing key of a `defaultdict`, which inserts it.
* A batch id is scheduled again only when nothing of its earlier submission is left, as `submit_batch` intends.
  `RunnerInvariant.NoRunnerRunsTwice` speaks of the runs whose cleanups start restarts as `RestartIsSafeIff` says; all other
  theorems about the scheduler and about delivery hold however restarts overlap.
* `ExactDelivery.ExactlyOnce` and its companions follow one train batch with at least one task; a batch without tasks has
  nothing to deliver. Failures inside the pipeline appear only as "raised".
* Ray actors, cancellation of remote calls, process groups, the NCCL transfer itself and checkpoint files: abstract steps.
* `TasksetScheduler` readers are one abstract state with a read operation, and the seeded shuffle is an unknown
  rearrangement per epoch; selectors and their feedback are not modelled, nor the single-taskset `SimpleTasksetScheduler`.
* A checkpoint that the asynchronous watcher writes while a read of several tasksets is suspended halfway; outside the
  fully asynchronous style, finishing the current steps is one event, as nothing else runs in the explorer then.
* `Explorer.benchmark`, `serve`, metric reporting and the state file; `need_eval` is a one-line test on the step.
* `Staleness` fixes the style, equal intervals, a fresh start, one train batch per explore batch and no timeouts.
* `Trainer`: the notification that there is no newer model, exceptions in the loop, which end it, a transfer that raises after the explorer answered, and the HF-format
  flags of a save.
* Workflows with `can_repeat`, which set their own run ids, and the threads of the multi-threaded mode.
* The file system around the streaming writer (temporary name, rename), dtypes announced as text, JSON itself: encoding and
  decoding of a header are given functions that invert each other up to trailing spaces.
* pickle and safetensors are given functions that invert each other; shared tensor storages, which the source clones, have
  no counterpart among values; list arguments of the `Experience` constructor are taken as tensors already.
* `FrozenLake.IsValid` takes rectangular boards of single characters with at least the maximum size, since the source
  fails with an index error on smaller ones; `generate_random_map` is random.
* The dictionaries of `Metrics` are lists of pairs in insertion order; numbers are reals, without rounding.
* `group_numeric_metrics`, `aggregate_eval_metrics` and bootstrap statistics: the same grouping with other outputs.
