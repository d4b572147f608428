/**
 One train batch and the scheduler together: which payloads reach the experience pipeline, over any
 interleaving of sub-task completions, drains, finalize calls that fail and are retried, and aborts.
 */
module Delivery {
  import opened Common
  import opened BatchOrder
  import opened SubTasks
  import opened SchedulerModel
  import opened SchedulerMachine
  import opened PlaceInvariant
  import opened ProgressInvariant
  import opened DeliveryInvariant
  import opened SchedulerTheorems
  import opened BatchLifecycle

  /** `processed` lists the payloads passed to process_experiences for this batch, in order. */
  datatype Sys = Sys(t: State, life: Life, processed: seq<Piece>)

  datatype SysEvent =
    | InScheduler(e: Event)
    | DrainAndCheck
    | InLifecycle(le: LifeEvent)

  function Submit(t: State, b: BatchId, tasks: seq<Task>, minWait: Option<nat>): Sys
    requires t.s.limit.Some? ==> t.s.limit.value > 0
  {
    Sys(ScheduleStep(t, b, tasks), Birth(Submitted(b, true, |tasks|, minWait)), [])
  }

  /** The scheduler moves on its own, but this batch is drained and discarded only by its finalize and abort calls. */
  ghost predicate Foreign(b: BatchId, e: Event) {
    match e
    case ScheduleEv(c, _) => c != b
    case DrainEv(c) => c != b
    case DiscardEv(c) => c != b
    case _ => true
  }

  ghost predicate SysEnabled(x: Sys, e: SysEvent) {
    match e
    case InScheduler(se) => Enabled(x.t, se) && Foreign(x.life.batch.id, se)
    case DrainAndCheck => x.life.lock == Some(Waiting) && x.life.batch.isTrain
    case InLifecycle(le) => !le.Drained? && LifeEnabled(x.life, le)
  }

  /** The steps that end in discard_completed_results. */
  predicate Discards(l: Life, le: LifeEvent) {
    || le.CleanupReturns? || le.AbortReturns?
    || (le.PipelineReturns? && l.lock.Some? && l.lock.value.Processing? && l.lock.value.complete)
  }

  function SysNext(x: Sys, e: SysEvent, agg: Aggregate): Sys
    requires SysEnabled(x, e)
    requires e.DrainAndCheck? ==> |ResultsOf(x.t.s, x.life.batch.id)| <= x.life.batch.expected
  {
    var b := x.life.batch.id;
    match e
    case InScheduler(se) => x.(t := Next(x.t, se))
    case DrainAndCheck =>
      var statuses := ResultsOf(x.t.s, b);
      Sys(Next(x.t, DrainEv(b)), LifeNext(x.life, Drained(statuses), agg),
          if AcceptTrain(x.life.batch, statuses).Accepted? then x.processed + Payloads(statuses) else x.processed)
    case InLifecycle(le) =>
      Sys(if Discards(x.life, le) then Next(x.t, DiscardEv(b)) else x.t, LifeNext(x.life, le, agg), x.processed)
  }

  ghost predicate SysInv(x: Sys) {
    && Inv(x.t) && LifeInv(x.life) && x.life.batch.isTrain
    && x.life.batch.id in x.t.h.roster && |x.t.h.roster[x.life.batch.id]| == x.life.batch.expected
    && NoDup(x.processed) && (forall p :: p in x.processed ==> p in x.t.h.drained.payloads)
  }

  lemma {:induction false} AddTasksKeepsOtherRosters(t: State, c: BatchId, tasks: seq<Task>, b: BatchId)
    requires GoodLimit(t.s.limit) && b != c && b in t.h.roster
    ensures b in AddTasksStep(t, c, tasks).h.roster && AddTasksStep(t, c, tasks).h.roster[b] == t.h.roster[b]
    ensures AddTasksStep(t, c, tasks).h.drained == t.h.drained
  {
    if tasks != [] { AddTasksKeepsOtherRosters(t, c, tasks[..|tasks| - 1], b); }
  }

  lemma ForeignKeepsBooks(t: State, e: Event, b: BatchId)
    requires Enabled(t, e) && Foreign(b, e) && GoodLimit(t.s.limit) && b in t.h.roster
    ensures var t' := Next(t, e);
            && b in t'.h.roster && t'.h.roster[b] == t.h.roster[b]
            && (forall p :: p in t.h.drained.payloads ==> p in t'.h.drained.payloads)
            && t.h.drained.tasks <= t'.h.drained.tasks
  {
    if e.ScheduleEv? && e.tasks != [] {
      AddTasksKeepsOtherRosters(State(CountTasks(t.s, e.b, |e.tasks|), t.h), e.b, e.tasks, b);
    }
  }

  /** A batch never caches more results than it has tasks. */
  lemma ResultsAreBounded(t: State, b: BatchId)
    requires DeliveryInv(t) && b in t.h.roster
    ensures |ResultsOf(t.s, b)| <= |t.h.roster[b]|
  {
    var rs := ResultsOf(t.s, b);
    var ids := seq(|rs|, i requires 0 <= i < |rs| => rs[i].taskId);
    if b in t.s.completed {
      assert forall i :: 0 <= i < |rs| ==> ResultOk(t.s.wrappers, t.h.roster[b], t.h.partial, t.h.drained, rs[i]);
      NoDupCardinality(ids);
      FullBelow(Elements(ids), |t.h.roster[b]|);
    }
  }

  /** The chunk is new: nothing of it was processed before. */
  lemma DrainIsNew(x: Sys)
    requires SysInv(x)
    ensures var chunk := Payloads(ResultsOf(x.t.s, x.life.batch.id));
            && NoDup(chunk) && NoDup(x.processed + chunk)
            && Next(x.t, DrainEv(x.life.batch.id)).h.drained.payloads == x.t.h.drained.payloads + chunk
  {
    var b := x.life.batch.id;
    var rs := ResultsOf(x.t.s, b);
    if b in x.t.s.completed {
      ChunkIsNew(x.t.s.wrappers, x.t.h.roster[b], x.t.h.place, x.t.h.bearing, x.t.h.partial, x.t.h.drained, rs);
    } else {
      assert Payloads(rs) == [];
    }
    NoDupConcat(x.processed, Payloads(rs));
  }

  lemma SysInvStep(x: Sys, e: SysEvent, agg: Aggregate)
    requires SysInv(x) && SysEnabled(x, e)
    ensures e.DrainAndCheck? ==> |ResultsOf(x.t.s, x.life.batch.id)| <= x.life.batch.expected
    ensures SysInv(SysNext(x, e, agg))
  {
    match e
    case InScheduler(se) =>
      InvStep(x.t, se);
      ForeignKeepsBooks(x.t, se, x.life.batch.id);
    case DrainAndCheck => DrainKeepsInv(x, agg);
    case InLifecycle(le) => LifecycleKeepsInv(x, le, agg);
  }

  lemma DrainKeepsInv(x: Sys, agg: Aggregate)
    requires SysInv(x) && SysEnabled(x, DrainAndCheck)
    ensures |ResultsOf(x.t.s, x.life.batch.id)| <= x.life.batch.expected
    ensures SysInv(SysNext(x, DrainAndCheck, agg))
  {
    var b := x.life.batch.id;
    ResultsAreBounded(x.t, b);
    DrainIsNew(x);
    InvStep(x.t, DrainEv(b));
    LifeInvStep(x.life, Drained(ResultsOf(x.t.s, b)), agg);
  }

  lemma LifecycleKeepsInv(x: Sys, le: LifeEvent, agg: Aggregate)
    requires SysInv(x) && SysEnabled(x, InLifecycle(le))
    ensures SysInv(SysNext(x, InLifecycle(le), agg))
  {
    if Discards(x.life, le) { InvStep(x.t, DiscardEv(x.life.batch.id)); }
    LifeInvStep(x.life, le, agg);
  }

  lemma SubmitInv(t: State, b: BatchId, tasks: seq<Task>, minWait: Option<nat>)
    requires Inv(t) && Fresh(t, b) && tasks != []
    ensures SysInv(Submit(t, b, tasks, minWait))
  {
    SubmittedIsTracked(t, b, tasks);
    SubmittedLife(b, |tasks|, minWait);
  }

  lemma SubmittedIsTracked(t: State, b: BatchId, tasks: seq<Task>)
    requires Inv(t) && Fresh(t, b) && tasks != []
    ensures var t' := ScheduleStep(t, b, tasks); Inv(t') && b in t'.h.roster && |t'.h.roster[b]| == |tasks|
  {
    InvStep(t, ScheduleEv(b, tasks));
    ScheduleKeepsTaskInv(t, b, tasks);
  }

  lemma SubmittedLife(b: BatchId, n: nat, minWait: Option<nat>)
    ensures LifeInv(Birth(Submitted(b, true, n, minWait)))
  {
  }

  ghost predicate SysRun(x: Sys, es: seq<SysEvent>, agg: Aggregate, x': Sys)
    decreases |es|
  {
    if es == [] then x' == x
    else
      && SysEnabled(x, es[0])
      && (es[0].DrainAndCheck? ==> |ResultsOf(x.t.s, x.life.batch.id)| <= x.life.batch.expected)
      && SysRun(SysNext(x, es[0], agg), es[1..], agg, x')
  }

  /**
   What no step changes: the submission and its roster; what only grows: the processed payloads and the handed-out
   tasks.
   */
  ghost predicate Extends(x: Sys, x': Sys) {
    && SameSubmission(x.life.batch, x'.life.batch)
    && RosterOf(x'.t.h, x.life.batch.id) == RosterOf(x.t.h, x.life.batch.id)
    && x.processed <= x'.processed
    && x.t.h.drained.tasks <= x'.t.h.drained.tasks
  }

  lemma StepExtends(x: Sys, e: SysEvent, agg: Aggregate)
    requires SysInv(x) && SysEnabled(x, e)
    requires e.DrainAndCheck? ==> |ResultsOf(x.t.s, x.life.batch.id)| <= x.life.batch.expected
    ensures Extends(x, SysNext(x, e, agg))
  {
    match e
    case InScheduler(se) => ForeignKeepsBooks(x.t, se, x.life.batch.id);
    case DrainAndCheck => DrainExtends(x, agg);
    case InLifecycle(le) => LifecycleExtends(x, le, agg);
  }

  lemma DrainExtends(x: Sys, agg: Aggregate)
    requires SysInv(x) && SysEnabled(x, DrainAndCheck) && |ResultsOf(x.t.s, x.life.batch.id)| <= x.life.batch.expected
    ensures Extends(x, SysNext(x, DrainAndCheck, agg))
  {
  }

  lemma LifecycleExtends(x: Sys, le: LifeEvent, agg: Aggregate)
    requires SysInv(x) && SysEnabled(x, InLifecycle(le))
    ensures Extends(x, SysNext(x, InLifecycle(le), agg))
  {
  }

  /** Every payload reaches the pipeline at most once, and only payloads the scheduler handed out do. */
  lemma {:induction false} AtMostOnce(x: Sys, es: seq<SysEvent>, agg: Aggregate, x': Sys)
    requires SysInv(x) && SysRun(x, es, agg, x')
    ensures SysInv(x') && NoDup(x'.processed) && Extends(x, x')
    decreases |es|
  {
    if es != [] {
      var n := SysNext(x, es[0], agg);
      SysInvStep(x, es[0], agg);
      StepExtends(x, es[0], agg);
      AtMostOnce(n, es[1..], agg, x');
    }
  }

  ghost predicate NoEarlyEmission(t: State, b: BatchId)
    requires b in t.h.roster
  {
    forall i :: 0 <= i < |t.h.roster[b]| ==> t.h.roster[b][i] !in t.h.partial
  }

  /**
   A complete drain of a batch none of whose tasks was emitted early: every payload its sub-tasks
   returned is passed on, and no sub-task is left or was lost, so no further payload can appear.
   */
  lemma CompleteDrainDeliversEverything(x: Sys, agg: Aggregate, p: Piece)
    requires SysInv(x) && SysEnabled(x, DrainAndCheck) && x.life.batch.expected > 0
    requires |ResultsOf(x.t.s, x.life.batch.id)| == x.life.batch.expected && NoEarlyEmission(x.t, x.life.batch.id)
    ensures var x' := SysNext(x, DrainAndCheck, agg);
            && x'.life.lock == Some(Processing(true))
            && (p in x.t.h.bearing && p.wrapper in x.t.h.roster[x.life.batch.id] ==> p in x'.processed)
    ensures forall i :: 0 <= i < |x.t.h.roster[x.life.batch.id]| ==>
              var w := x.t.h.roster[x.life.batch.id][i];
              w < |x.t.s.wrappers| && QueuedOf(x.t, w) == {} && LiveOf(x.t, w) == {} && DroppedOf(x.t, w) == {}
  {
    var b := x.life.batch.id;
    if p in x.t.h.bearing && p.wrapper in x.t.h.roster[b] {
      FullChunkIsComplete(x.t, b, p);
    }
    forall i | 0 <= i < |x.t.h.roster[b]|
      ensures var w := x.t.h.roster[b][i];
              w < |x.t.s.wrappers| && QueuedOf(x.t, w) == {} && LiveOf(x.t, w) == {} && DroppedOf(x.t, w) == {}
    {
      AllEmitted(x.t, b, i);
      SubTaskConservation(x.t, x.t.h.roster[b][i]);
    }
  }

  lemma AllEmitted(t: State, b: BatchId, i: nat)
    requires DeliveryInv(t) && b in t.h.roster && i < |t.h.roster[b]| && NoEarlyEmission(t, b)
    requires |ResultsOf(t.s, b)| == |t.h.roster[b]|
    ensures var w := t.h.roster[b][i];
            w < |t.s.wrappers| && t.s.wrappers[w].emitted && t.s.wrappers[w].finished == t.s.wrappers[w].subTaskNum
  {
    var k := ResultOfTask(t.s.wrappers, t.h.roster[b], t.h.partial, t.h.drained, t.s.completed[b], i);
  }

  /** With a result for every task, each task has its own. */
  lemma ResultOfTask(ws: seq<Wrapper>, ids: seq<nat>, partial: set<nat>, drained: Handed, rs: seq<TaskResult>, i: nat)
    returns (k: nat)
    requires forall j, l :: 0 <= j < l < |rs| ==> rs[j].taskId != rs[l].taskId
    requires forall j :: 0 <= j < |rs| ==> ResultOk(ws, ids, partial, drained, rs[j])
    requires i < |rs| == |ids|
    ensures k < |rs| && rs[k].taskId == i && ResultOk(ws, ids, partial, drained, rs[k])
  {
    var taskIds := seq(|rs|, j requires 0 <= j < |rs| => rs[j].taskId);
    k := FullListHolds(taskIds, i);
  }
}
