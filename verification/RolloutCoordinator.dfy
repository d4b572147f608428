/** The coordinator as the object that owns the batch registry; one method per stretch between suspensions. */
module RolloutCoordinator {
  import opened Common
  import opened BatchOrder
  import opened SubTasks
  import opened SchedulerModel
  import opened BatchLifecycle
  import Scheduler

  datatype Error = AlreadyActive | NotRegistered | WrongType | TimeoutError

  class BatchState {
    const id: BatchId
    const isTrain: bool
    const expectedTaskCount: nat
    const minWaitNum: Option<nat>
    var statuses: seq<TaskResult>
    var phase: Phase
    var finalResult: Option<BatchResult>

    ghost function View(): Batch
      reads this
    {
      Batch(id, isTrain, expectedTaskCount, minWaitNum, phase, statuses, finalResult)
    }

    constructor (id: BatchId, isTrain: bool, taskCount: nat, minWaitNum: Option<nat>)
      ensures View() == Batch(id, isTrain, taskCount, minWaitNum, Pending, [], None)
    {
      this.id, this.isTrain, this.expectedTaskCount, this.minWaitNum := id, isTrain, taskCount, minWaitNum;
      statuses, phase, finalResult := [], Pending, None;
    }
  }

  class RolloutCoordinator {
    const scheduler: Scheduler.Scheduler
    const aggregate: Aggregate
    var pendingBatches: map<BatchId, BatchState>

    constructor (scheduler: Scheduler.Scheduler, aggregate: Aggregate)
      ensures this.scheduler == scheduler && this.aggregate == aggregate && pendingBatches == map[]
    {
      this.scheduler, this.aggregate, pendingBatches := scheduler, aggregate, map[];
    }

    method SubmitBatch(id: BatchId, tasks: seq<Task>, isTrain: bool, minWaitNum: Option<nat>)
      returns (r: Result<BatchState, Error>)
      requires scheduler.maxRepeatTimes.Some? ==> scheduler.maxRepeatTimes.value > 0
      modifies this, scheduler
      ensures r == Err(AlreadyActive) <==> id in old(pendingBatches) && !IsTerminal(old(pendingBatches[id].phase))
      ensures r.Err? ==>
          r.error == AlreadyActive && pendingBatches == old(pendingBatches) && scheduler.View() == old(scheduler.View())
      ensures r.Ok? ==>
                && fresh(r.value) && r.value.View() == Submitted(id, isTrain, |tasks|, minWaitNum)
                && pendingBatches == old(pendingBatches)[id := r.value]
                && scheduler.View() == SchedulerModel.Schedule(old(scheduler.View()), id, tasks)
    {
      if id in pendingBatches && pendingBatches[id].phase != Finalized && pendingBatches[id].phase != Aborted {
        return Err(AlreadyActive);
      }
      var state := new BatchState(id, isTrain, |tasks|, minWaitNum);
      pendingBatches := pendingBatches[id := state];
      if tasks != [] {
        scheduler.Schedule(tasks, id);
        state.phase := Running;
      }
      r := Ok(state);
    }

    method GetBatchState(id: BatchId, isTrain: bool) returns (r: Result<BatchState, Error>)
      ensures r == if id !in pendingBatches then Err(NotRegistered)
                   else if pendingBatches[id].isTrain != isTrain then Err(WrongType)
                   else Ok(pendingBatches[id])
    {
      if id !in pendingBatches { return Err(NotRegistered); }
      if pendingBatches[id].isTrain != isTrain { return Err(WrongType); }
      r := Ok(pendingBatches[id]);
    }

    /** The first thing a finalize call does with the lock. */
    method GetExistingFinalResult(state: BatchState) returns (r: Option<BatchResult>)
      modifies state`finalResult
      ensures r == ExistingResult(old(state.View()), aggregate)
      ensures state.View() == if r.Some? then old(state.View()).(final := r) else old(state.View())
    {
      if state.finalResult.Some? { return state.finalResult; }
      if state.phase != Aborted { return None; }
      state.finalResult := Some(BuildBatchResult(state, map[]));
      r := state.finalResult;
    }

    /** From the end of the wait for results to the call of the pipeline. */
    method TakeTrainResults(state: BatchState) returns (r: Result<(seq<Piece>, bool), Error>)
      requires state.isTrain
      modifies state, scheduler
      ensures scheduler.View() == Drain(old(scheduler.View()), state.id)
      ensures match AcceptTrain(old(state.View()), ResultsOf(old(scheduler.View()), state.id))
              case TimedOut => r == Err(TimeoutError) && state.View() == old(state.View())
              case Accepted(b, complete) =>
                state.View() == b && r == Ok((Payloads(ResultsOf(old(scheduler.View()), state.id)), complete))
    {
      var results, payloads := scheduler.DrainBatchPayloadResults(state.id);
      var complete := true;
      if state.expectedTaskCount != 0 {
        if |results| == 0 { return Err(TimeoutError); }
        if state.minWaitNum.None? && |results| < state.expectedTaskCount { return Err(TimeoutError); }
        state.statuses := results;
        complete := |results| >= state.expectedTaskCount;
      }
      state.phase := Finalizing;
      r := Ok((payloads, complete));
    }

    /** The pipeline, or the cleanup after it, raised. */
    method RestoreActive(state: BatchState)
      modifies state`phase
      ensures state.View() == FinalizeFailed(old(state.View()))
    {
      state.phase := if state.expectedTaskCount == 0 then Pending else Running;
    }

    method FinishBatch(state: BatchState, pipeline: Metrics) returns (r: BatchResult)
      modifies this, state, scheduler
      ensures state.View() == Finish(old(state.View()), pipeline, aggregate)
      ensures r == BuildResult(old(state.View()), pipeline, aggregate)
      ensures pendingBatches == old(pendingBatches) - {state.id}
      ensures scheduler.View() == Discard(old(scheduler.View()), state.id)
    {
      scheduler.DiscardCompletedResults(state.id);
      state.phase := Finalized;
      r := BuildBatchResult(state, pipeline);
      state.finalResult := Some(r);
      pendingBatches := pendingBatches - {state.id};
    }

    /** An eval finalize after its wait: no pipeline, and earlier statuses are kept. */
    method FinishEval(state: BatchState) returns (r: BatchResult)
      requires !state.isTrain
      modifies this, state, scheduler
      ensures var b := AcceptEval(old(state.View()), ResultsOf(old(scheduler.View()), state.id));
              state.View() == Finish(b, map[], aggregate) && r == BuildResult(b, map[], aggregate)
      ensures pendingBatches == old(pendingBatches) - {state.id}
      ensures scheduler.View() == Discard(Drain(old(scheduler.View()), state.id), state.id)
    {
      var results, payloads := scheduler.DrainBatchPayloadResults(state.id);
      ghost var before := state.statuses;
      for k := 0 to |results|
        invariant scheduler.View() == Drain(old(scheduler.View()), state.id)
        invariant pendingBatches == old(pendingBatches)
        invariant state.View()
            == old(state.View()).(statuses := before + if |before| < k then results[|before|..k] else [])
      {
        assert |before| <= k ==> results[|before|..k + 1] == results[|before|..k] + [results[k]];
        if |state.statuses| <= k {
          state.statuses := state.statuses + [results[k]];
        }
      }
      assert |before| < |results| ==> results[|before|..|results|] == results[|before|..];
      r := FinishBatch(state, map[]);
    }

    /** abort_batch up to where it waits for the scheduler; None when there is nothing to abort. */
    method BeginAbort(id: BatchId, keepPartial: bool) returns (state: Option<BatchState>, ghost order: seq<nat>)
      requires WellIndexed(scheduler.View())
      modifies scheduler
      ensures state == if id !in pendingBatches || IsTerminal(old(pendingBatches[id].phase)) then None
          else Some(pendingBatches[id])
      ensures state.None? ==> scheduler.View() == old(scheduler.View())
      ensures state.Some? ==>
                && NoDup(order) && (forall k :: 0 <= k < |order| ==> order[k] < |old(scheduler.wrappers)|)
                && (if keepPartial then Elements(order) == Incomplete(old(scheduler.View()), id) else order == [])
                && scheduler.View() == Cleanup(old(scheduler.View()), id, order, true)
    {
      order := [];
      if id !in pendingBatches { return None, order; }
      if pendingBatches[id].phase == Finalized || pendingBatches[id].phase == Aborted { return None, order; }
      state := Some(pendingBatches[id]);
      var cancelled;
      cancelled, order := scheduler.CleanupBatch(id, keepPartial, true);
    }

    method CompleteAbort(state: BatchState)
      modifies this, state, scheduler
      ensures state.View() == AbortCompleted(old(state.View()), aggregate)
      ensures pendingBatches == old(pendingBatches) - {state.id}
      ensures scheduler.View() == Discard(old(scheduler.View()), state.id)
    {
      scheduler.DiscardCompletedResults(state.id);
      state.phase := Aborted;
      state.finalResult := Some(BuildBatchResult(state, map[]));
      pendingBatches := pendingBatches - {state.id};
    }

    /** dict(pipeline), then the aggregated status metrics, then the number of finished tasks. */
    function BuildBatchResult(state: BatchState, pipeline: Metrics): BatchResult
      reads state
      ensures BuildBatchResult(state, pipeline) == BuildResult(state.View(), pipeline, aggregate)
    {
      var metrics := pipeline + aggregate(state.statuses);
      var key := if state.isTrain then "rollout/finished_task_count"
                 else "eval/" + AfterSlash(BatchName(state.id)) + "/finished_task_count";
      BatchResult(state.id, state.isTrain, |state.statuses|, metrics[key := |state.statuses| as real])
    }
  }
}
