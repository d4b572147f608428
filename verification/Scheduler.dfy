/** The scheduler as the object that owns runners, queues, futures and cached results. */
module Scheduler {
  import opened Common
  import opened BatchOrder
  import opened SubTasks
  import opened SchedulerModel
  import opened SchedulerMachine
  import opened DispatchOrder
  import opened PlaceInvariant

  class Scheduler {
    const maxRepeatTimes: Option<nat>
    var idleRunners: set<nat>
    var busyRunners: map<nat, RunState>
    var pendingTasks: map<BatchId, seq<Piece>>
    var runningTasks: map<BatchId, set<nat>>
    var runningTaskStateMap: map<nat, RunState>
    var wrappers: seq<Wrapper>
    var completedTasks: map<BatchId, seq<TaskResult>>
    var taskNumMap: map<BatchId, nat>
    var futureCount: nat

    ghost function View(): Sched
      reads this
    {
      Sched(maxRepeatTimes, idleRunners, busyRunners, pendingTasks, runningTasks, runningTaskStateMap,
            wrappers, completedTasks, taskNumMap, futureCount)
    }

    constructor (runners: set<nat>, limit: Option<nat>)
      ensures View() == Init(runners, limit).s
    {
      maxRepeatTimes := limit;
      idleRunners, busyRunners := runners, map[];
      pendingTasks, runningTasks, runningTaskStateMap := map[], map[], map[];
      wrappers, completedTasks, taskNumMap, futureCount := [], map[], map[], 0;
    }

    method Schedule(tasks: seq<Task>, batch: BatchId)
      requires maxRepeatTimes.Some? ==> maxRepeatTimes.value > 0
      modifies this
      ensures View() == SchedulerModel.Schedule(old(View()), batch, tasks)
    {
      if tasks == [] { return; }
      taskNumMap := taskNumMap[batch := |tasks| + if batch in taskNumMap then taskNumMap[batch] else 0];
      SplitAndSubmitTasks(tasks, batch);
    }

    method SplitAndSubmitTasks(tasks: seq<Task>, batch: BatchId)
      requires maxRepeatTimes.Some? ==> maxRepeatTimes.value > 0
      modifies this
      ensures View() == AddTasks(old(View()), batch, tasks)
    {
      for i := 0 to |tasks|
        invariant View() == AddTasks(old(View()), batch, tasks[..i])
      {
        SubmitTask(tasks[i], i, batch);
        assert tasks[..i + 1][..i] == tasks[..i];
      }
      assert tasks[..|tasks|] == tasks;
    }

    /** The sub-tasks of one task: the whole task, or pieces of at most `limit` runs. */
    static method SplitTask(index: nat, runs: nat, limit: Option<nat>) returns (subTasks: seq<Piece>)
      requires limit.Some? ==> limit.value > 0
      ensures subTasks == Split(index, runs, limit)
    {
      if limit.None? { return [Piece(index, runs, 0)]; }
      subTasks := [];
      var size, base := limit.value, 0;
      while base < runs
        invariant subTasks + SplitFrom(index, runs, size, base) == SplitFrom(index, runs, size, 0)
        decreases runs - base
      {
        subTasks := subTasks + [Piece(index, if size < runs - base then size else runs - base, base)];
        base := base + size;
      }
    }

    /** One round of the splitting loop: appendleft of the whole task, or extendleft of its pieces. */
    method SubmitTask(task: Task, i: nat, batch: BatchId)
      requires maxRepeatTimes.Some? ==> maxRepeatTimes.value > 0
      modifies this
      ensures View() == AddTask(old(View()), batch, i, task)
    {
      var subTasks := SplitTask(|wrappers|, task.runs, maxRepeatTimes);
      var queue := if batch in pendingTasks then pendingTasks[batch] else [];
      queue := Reverse(subTasks) + queue;
      wrappers := wrappers + [Wrapper(batch, i, task.isEval, |subTasks|, 0, 0, task.runs, [], None, false)];
      pendingTasks := pendingTasks[batch := queue];
    }

    /** One pass of the scheduler loop; `es` records what it did. It stops only without idle runners or work. */
    method SchedulePendingTasks() returns (ghost es: seq<Event>)
      modifies this
      ensures Pass(old(View()), es, View())
      ensures idleRunners == {} || pendingTasks == map[]
    {
      es := [];
      if idleRunners == {} { return; }
      var ids := SortBatchIds(pendingTasks.Keys);
      es := ServeAll(ids);
    }

    /** The loop over the sorted batches. */
    method ServeAll(ids: seq<BatchId>) returns (ghost es: seq<Event>)
      requires NoDup(ids) && SortedIds(ids) && Elements(ids) == pendingTasks.Keys
      modifies this
      ensures Pass(old(View()), es, View())
      ensures idleRunners == {} || pendingTasks == map[]
    {
      es := [];
      ghost var start := View();
      for k := 0 to |ids|
        invariant Pass(start, es, View())
        invariant Unserved(ids, k, pendingTasks.Keys, idleRunners == {})
      {
        ghost var s, keys := View(), pendingTasks.Keys;
        NothingBefore(ids, k, keys, idleRunners == {});
        ghost var more := ServeBatch(ids[k]);
        PassConcat(start, es, s, more, View());
        es := es + more;
        KeysAfterServing(ids, k, keys, pendingTasks.Keys, idleRunners == {});
      }
      NothingLeft(ids, pendingTasks.Keys, idleRunners == {});
    }

    /** Serve one batch until its queue or the idle runners are used up; drop the queue once empty. */
    method ServeBatch(batch: BatchId) returns (ghost es: seq<Event>)
      requires batch in pendingTasks
      requires idleRunners != {} ==> forall c :: c in pendingTasks ==> !Before(c, batch)
      modifies this
      ensures Pass(old(View()), es, View())
      ensures pendingTasks.Keys == old(pendingTasks.Keys) || pendingTasks.Keys == old(pendingTasks.Keys) - {batch}
      ensures idleRunners != {} ==> batch !in pendingTasks
      ensures idleRunners <= old(idleRunners)
    {
      es := [];
      while pendingTasks[batch] != [] && idleRunners != {}
        invariant pendingTasks.Keys == old(pendingTasks.Keys)
        invariant idleRunners <= old(idleRunners)
        invariant Pass(old(View()), es, View())
        decreases |pendingTasks[batch]|
      {
        ghost var s := View();
        assert MayServe(s, batch);
        var runner := StartNext(batch);
        assert Pass(s, [DispatchEv(batch, runner)], View());
        PassConcat(old(View()), es, s, [DispatchEv(batch, runner)], View());
        es := es + [DispatchEv(batch, runner)];
      }
      ghost var s := View();
      if pendingTasks[batch] == [] {
        pendingTasks := pendingTasks - {batch};
      }
      assert Pass(s, [DropEmptyEv(batch)], View());
      PassConcat(old(View()), es, s, [DropEmptyEv(batch)], View());
      es := es + [DropEmptyEv(batch)];
    }

    /** The body of the dispatch loop: pop a sub-task and a runner, create the future and track it. */
    method StartNext(batch: BatchId) returns (runner: nat)
      requires batch in pendingTasks && pendingTasks[batch] != [] && idleRunners != {}
      modifies this
      ensures runner in old(idleRunners) && idleRunners == old(idleRunners) - {runner}
      ensures pendingTasks == old(pendingTasks)[batch := old(pendingTasks)[batch][..|old(pendingTasks)[batch]| - 1]]
      ensures View() == Dispatch(old(View()), batch, runner)
    {
      var queue := pendingTasks[batch];
      var piece := queue[|queue| - 1];
      pendingTasks := pendingTasks[batch := queue[..|queue| - 1]];
      runner :| runner in idleRunners;
      idleRunners := idleRunners - {runner};
      var future := futureCount;
      futureCount := futureCount + 1;
      var state := RunState(future, piece, runner, true);
      busyRunners := busyRunners[runner := state];
      runningTaskStateMap := runningTaskStateMap[future := state];
      runningTasks := runningTasks[batch := (if batch in runningTasks then runningTasks[batch] else {}) + {future}];
    }

    method TaskDoneCallback(future: nat, outcome: Outcome) returns (restart: Option<nat>)
      requires future in runningTaskStateMap
      requires runningTaskStateMap[future].piece.wrapper < |wrappers|
      modifies this
      ensures View() == Done(old(View()), future, outcome)
      ensures restart == if outcome.Failed? then Some(old(runningTaskStateMap[future].runner)) else None
    {
      var state := runningTaskStateMap[future];
      runningTaskStateMap := runningTaskStateMap - {future};
      var batch := wrappers[state.piece.wrapper].batch;
      restart := None;
      match outcome {
        case Cancelled =>
          if !state.restartOnCancel {
            busyRunners := busyRunners - {state.runner};
            idleRunners := idleRunners + {state.runner};
          }
        case Failed =>
          restart := Some(state.runner);
        case Completed(runs, error, hasPayload) =>
          CompleteSubTask(state, outcome);
      }
      ForgetFuture(batch, future);
    }

    /** The result is accumulated, the runner is free, and a task whose sub-tasks are all done is emitted. */
    method CompleteSubTask(state: RunState, outcome: Outcome)
      requires outcome.Completed? && state.piece.wrapper < |wrappers|
      modifies this
      ensures View() == Complete(old(View()), state, outcome)
    {
      AccumulateTaskResult(state.piece, outcome);
      busyRunners := busyRunners - {state.runner};
      idleRunners := idleRunners + {state.runner};
      if wrappers[state.piece.wrapper].finished == wrappers[state.piece.wrapper].subTaskNum {
        EmitTaskResult(state.piece.wrapper);
      }
    }

    /** The future leaves its batch's running set, and an empty set leaves the table. */
    method ForgetFuture(batch: BatchId, future: nat)
      modifies this`runningTasks
      ensures runningTasks == DropFuture(old(runningTasks), batch, future)
    {
      if batch in runningTasks {
        runningTasks := runningTasks[batch := runningTasks[batch] - {future}];
        if runningTasks[batch] == {} {
          runningTasks := runningTasks - {batch};
        }
      }
    }

    method AccumulateTaskResult(piece: Piece, outcome: Outcome)
      requires piece.wrapper < |wrappers| && outcome.Completed?
      modifies this`wrappers
      ensures wrappers == old(wrappers)[piece.wrapper := Accumulate(old(wrappers)[piece.wrapper], piece, outcome)]
    {
      var w := wrappers[piece.wrapper];
      w := w.(finished := w.finished + 1);
      w := w.(completedRuns := w.completedRuns + outcome.runs);
      if outcome.hasPayload {
        w := w.(payloads := w.payloads + [piece]);
      }
      if outcome.runs != piece.runs && w.firstError.None? {
        w := w.(firstError := outcome.error);
      }
      wrappers := wrappers[piece.wrapper := w];
    }

    method EmitTaskResult(i: nat)
      requires i < |wrappers|
      modifies this`wrappers, this`completedTasks
      ensures View() == Emit(old(View()), i)
    {
      var w := wrappers[i];
      if w.emitted { return; }
      var results := if w.batch in completedTasks then completedTasks[w.batch] else [];
      completedTasks := completedTasks[w.batch := PutResult(results, ResultFor(w))];
      wrappers := wrappers[i := w.(emitted := true)];
    }

    method EmitPartialTasksForBatch(batch: BatchId) returns (ghost order: seq<nat>)
      requires WellIndexed(View())
      modifies this`wrappers, this`completedTasks
      ensures NoDup(order) && Elements(order) == Incomplete(old(View()), batch)
      ensures forall k :: 0 <= k < |order| ==> order[k] < |old(wrappers)|
      ensures View() == EmitPartial(old(View()), order)
    {
      var rest := CollectIncompleteTasks(batch);
      order := [];
      while rest != {}
        invariant rest !! Elements(order) && rest + Elements(order) == Incomplete(old(View()), batch)
        invariant NoDup(order) && forall k :: 0 <= k < |order| ==> order[k] < |old(wrappers)|
        invariant forall i :: i in rest ==> i < |old(wrappers)|
        invariant View() == EmitPartial(old(View()), order)
        decreases rest
      {
        var i :| i in rest;
        if !(wrappers[i].emitted || wrappers[i].completedRuns <= 0) {
          EmitTaskResult(i);
        }
        EmitPartialSnoc(old(View()), order, i);
        order := order + [i];
        rest := rest - {i};
      }
    }

    method CollectIncompleteTasks(batch: BatchId) returns (tasks: set<nat>)
      requires WellIndexed(View())
      ensures tasks == Incomplete(View(), batch) && forall i :: i in tasks ==> i < |wrappers|
    {
      tasks := {};
      var queue := if batch in pendingTasks then pendingTasks[batch] else [];
      for k := 0 to |queue|
        invariant tasks == set p | p in queue[..k] :: p.wrapper
      {
        assert queue[..k + 1] == queue[..k] + [queue[k]];
        tasks := tasks + {queue[k].wrapper};
      }
      assert queue[..|queue|] == queue;
      var futures := if batch in runningTasks then runningTasks[batch] else {};
      var rest := futures;
      while rest != {}
        invariant rest <= futures
        invariant tasks == (set p | p in queue :: p.wrapper)
                  + (set f | f in futures - rest && f in runningTaskStateMap :: runningTaskStateMap[f].piece.wrapper)
        decreases rest
      {
        var f :| f in rest;
        rest := rest - {f};
        if f in runningTaskStateMap {
          tasks := tasks + {runningTaskStateMap[f].piece.wrapper};
        }
      }
    }

    /** The flag is written to the record both maps share. */
    method MarkRunningTasksForCleanup(batch: BatchId, restart: bool)
      modifies this`runningTaskStateMap, this`busyRunners
      ensures View() == MarkForCleanup(old(View()), batch, restart)
    {
      var futures := if batch in runningTasks then runningTasks[batch] else {};
      var rest := futures;
      ghost var tracked := runningTaskStateMap.Keys;
      while rest != {}
        invariant rest <= futures
        invariant runningTaskStateMap == MarkAll(old(runningTaskStateMap), futures - rest, tracked, restart)
        invariant busyRunners == MarkAll(old(busyRunners), futures - rest, tracked, restart)
        decreases rest
      {
        var f :| f in rest;
        MarkAllStep(old(runningTaskStateMap), futures - rest, tracked, f, restart);
        MarkAllStep(old(busyRunners), futures - rest, tracked, f, restart);
        assert futures - (rest - {f}) == futures - rest + {f};
        rest := rest - {f};
        if f in runningTaskStateMap {
          runningTaskStateMap := MarkOne(runningTaskStateMap, f, restart);
          busyRunners := MarkOne(busyRunners, f, restart);
        }
      }
      assert futures - rest == futures;
    }

    static lemma MarkAllStep(m: map<nat, RunState>, done: set<nat>, tracked: set<nat>, f: nat, restart: bool)
      ensures f in tracked ==>
          MarkOne(MarkAll(m, done, tracked, restart), f, restart) == MarkAll(m, done + {f}, tracked, restart)
      ensures f !in tracked ==> MarkAll(m, done, tracked, restart) == MarkAll(m, done + {f}, tracked, restart)
    {
    }

    /** Writing the flag of the record of one future, wherever that record is referenced. */
    static function MarkOne(m: map<nat, RunState>, f: nat, restart: bool): map<nat, RunState> {
      map k | k in m :: if m[k].future == f then m[k].(restartOnCancel := restart) else m[k]
    }

    method ClearTimeoutTasks(batch: BatchId) returns (cancelled: set<nat>)
      modifies this
      ensures View() == ClearBatch(old(View()), batch)
      ensures cancelled == RunningOf(old(View()), batch)
    {
      cancelled := {};
      if batch in pendingTasks {
        pendingTasks := pendingTasks - {batch};
      }
      if batch in runningTasks {
        cancelled := runningTasks[batch];
        runningTasks := runningTasks - {batch};
      }
      taskNumMap := taskNumMap - {batch};
    }

    /** _cleanup_batch up to where it waits for the cancelled futures. */
    method CleanupBatch(batch: BatchId, returnPartial: bool, restart: bool)
      returns (cancelled: set<nat>, ghost order: seq<nat>)
      requires WellIndexed(View())
      modifies this
      ensures NoDup(order) && (forall k :: 0 <= k < |order| ==> order[k] < |old(wrappers)|)
      ensures if returnPartial then Elements(order) == Incomplete(old(View()), batch) else order == []
      ensures View() == Cleanup(old(View()), batch, order, restart)
      ensures cancelled == RunningOf(old(View()), batch)
    {
      order := [];
      if returnPartial {
        order := EmitPartialTasksForBatch(batch);
      }
      EmitPartialParts(old(View()), order);
      MarkRunningTasksForCleanup(batch, restart);
      cancelled := ClearTimeoutTasks(batch);
    }

    /** _restart_runner after the new runner is up. */
    method RunnerRestarted(runner: nat)
      modifies this
      ensures View() == Free(old(View()), runner)
    {
      if runner in busyRunners {
        busyRunners := busyRunners - {runner};
      }
      idleRunners := idleRunners + {runner};
    }

    method DrainBatchPayloadResults(batch: BatchId) returns (statuses: seq<TaskResult>, payloads: seq<Piece>)
      modifies this
      ensures View() == Drain(old(View()), batch)
      ensures statuses == ResultsOf(old(View()), batch) && payloads == Payloads(statuses)
    {
      var results := if batch in completedTasks then completedTasks[batch] else [];
      statuses, payloads := [], [];
      for k := 0 to |results|
        invariant View() == old(View())
        invariant statuses == results[..k] && payloads == Payloads(results[..k])
      {
        ghost var lists := seq(k, i requires 0 <= i < k => results[i].payloads);
        assert lists == seq(|results[..k]|, i requires 0 <= i < |results[..k]| => results[..k][i].payloads);
        assert lists + [results[k].payloads]
            == seq(|results[..k + 1]|, i requires 0 <= i < |results[..k + 1]| => results[..k + 1][i].payloads);
        FlattenSnoc(lists, results[k].payloads);
        statuses := statuses + [results[k]];
        payloads := payloads + results[k].payloads;
      }
      assert results[..|results|] == results;
      if batch in completedTasks {
        completedTasks := completedTasks - {batch};
      } else {
        assert completedTasks - {batch} == completedTasks;
      }
    }

    method DiscardCompletedResults(batch: BatchId)
      modifies this
      ensures View() == Discard(old(View()), batch)
    {
      completedTasks := completedTasks - {batch};
      taskNumMap := taskNumMap - {batch};
    }
  }

  /** Before batch k is served: it and the later ones are queued, the earlier ones only if no runner is idle. */
  ghost predicate Unserved(ids: seq<BatchId>, k: nat, keys: set<BatchId>, noRunner: bool) {
    && keys <= Elements(ids)
    && (forall j :: k <= j < |ids| ==> ids[j] in keys)
    && (!noRunner ==> forall j :: 0 <= j < k && j < |ids| ==> ids[j] !in keys)
  }

  /** Once the batches sorted earlier are served, nothing that is left comes before the next one. */
  lemma NothingBefore(ids: seq<BatchId>, k: nat, keys: set<BatchId>, noRunner: bool)
    requires SortedIds(ids) && k < |ids| && Unserved(ids, k, keys, noRunner)
    ensures !noRunner ==> forall c :: c in keys ==> !Before(c, ids[k])
  {
    if !noRunner {
      forall c | c in keys ensures !Before(c, ids[k]) {
        assert c in Elements(ids);
        BeforeIsStrictWeakOrder(c, c, c);
      }
    }
  }

  lemma KeysAfterServing(ids: seq<BatchId>, k: nat, keys: set<BatchId>, keys': set<BatchId>, noRunner: bool)
    requires NoDup(ids) && k < |ids| && (keys' == keys || keys' == keys - {ids[k]})
    requires !noRunner ==> ids[k] !in keys'
    requires Unserved(ids, k, keys, true) && (!noRunner ==> Unserved(ids, k, keys, false))
    ensures Unserved(ids, k + 1, keys', noRunner)
  {
  }

  lemma NothingLeft(ids: seq<BatchId>, keys: set<BatchId>, noRunner: bool)
    requires Unserved(ids, |ids|, keys, noRunner)
    ensures noRunner || keys == {}
  {
    if !noRunner {
      forall c ensures c !in keys { assert c in keys ==> c in Elements(ids); }
    }
  }

  lemma EmitPartialSnoc(s: Sched, order: seq<nat>, i: nat)
    requires i < |s.wrappers| && forall k :: 0 <= k < |order| ==> order[k] < |s.wrappers|
    ensures EmitPartial(s, order + [i]) == EmitPartialOne(EmitPartial(s, order), i)
    ensures Elements(order + [i]) == Elements(order) + {i}
  {
    assert (order + [i])[..|order|] == order;
  }
}
