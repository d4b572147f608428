/**
 The life of one submitted batch: any number of concurrent finalize and abort calls, interleaved
 at every suspension point. Finalize calls queue on the batch's lock; aborts do not take it.
 */
module BatchLifecycle {
  import opened Common
  import opened BatchOrder
  import Decimal
  import opened SchedulerModel

  type Metrics = map<string, real>

  datatype Phase = Pending | Running | Finalizing | Finalized | Aborted

  datatype BatchResult = BatchResult(id: BatchId, isTrain: bool, finishedTaskCount: nat, metrics: Metrics)

  datatype Batch = Batch(
    id: BatchId, isTrain: bool, expected: nat, minWait: Option<nat>,
    phase: Phase, statuses: seq<TaskResult>, final: Option<BatchResult>)

  /** The aggregation of the status metrics; its arithmetic is modelled in module Metrics. */
  type Aggregate = seq<TaskResult> -> Metrics

  function BatchName(id: BatchId): string {
    match id
    case Step(n) => if n >= 0 then Decimal.Decimal(n) else "-" + Decimal.Decimal(-n)
    case Named(name) => name
  }

  /** The text after the first slash, or all of it. */
  function AfterSlash(s: string): string {
    match FirstSlash(s)
    case None => s
    case Some(i) => s[i + 1..]
  }

  function FirstSlash(s: string): (r: Option<nat>)
    ensures r.Some? ==> r.value < |s|
  {
    if s == [] then None
    else if s[0] == '/' then Some(0)
    else match FirstSlash(s[1..])
      case None => None
      case Some(i) => Some(i + 1)
  }

  function CountKey(b: Batch): string {
    if b.isTrain then "rollout/finished_task_count"
    else "eval/" + AfterSlash(BatchName(b.id)) + "/finished_task_count"
  }

  function BuildResult(b: Batch, pipeline: Metrics, agg: Aggregate): BatchResult {
    BatchResult(b.id, b.isTrain, |b.statuses|,
                (pipeline + agg(b.statuses))[CountKey(b) := |b.statuses| as real])
  }

  function Submitted(id: BatchId, isTrain: bool, taskCount: nat, minWait: Option<nat>): Batch {
    Batch(id, isTrain, taskCount, minWait, if taskCount > 0 then Running else Pending, [], None)
  }

  predicate IsTerminal(p: Phase) { p == Finalized || p == Aborted }

  /** What a finalize call finds when it gets the lock. */
  function ExistingResult(b: Batch, agg: Aggregate): Option<BatchResult> {
    if b.final.Some? then b.final
    else if b.phase != Aborted then None
    else Some(BuildResult(b, map[], agg))
  }

  datatype Verdict = TimedOut | Accepted(batch: Batch, complete: bool)

  /** The checks of a train finalize on the drained statuses. */
  function AcceptTrain(b: Batch, statuses: seq<TaskResult>): Verdict {
    if b.expected == 0 then Accepted(b.(phase := Finalizing), true)
    else if |statuses| == 0 then TimedOut
    else if b.minWait.None? && |statuses| < b.expected then TimedOut
    else Accepted(b.(statuses := statuses, phase := Finalizing), |statuses| >= b.expected)
  }

  /** An eval finalize only fills in the positions that have no status yet. */
  function AcceptEval(b: Batch, statuses: seq<TaskResult>): Batch {
    b.(statuses := b.statuses + (if |b.statuses| < |statuses| then statuses[|b.statuses|..] else []))
  }

  function Finish(b: Batch, pipeline: Metrics, agg: Aggregate): Batch {
    b.(phase := Finalized, final := Some(BuildResult(b, pipeline, agg)))
  }

  function FinalizeFailed(b: Batch): Batch {
    b.(phase := if b.expected == 0 then Pending else Running)
  }

  function AbortCompleted(b: Batch, agg: Aggregate): Batch {
    b.(phase := Aborted, final := Some(BuildResult(b, map[], agg)))
  }

  // ---- the machine --------------------------------------------------------------------------

  datatype Stage = Waiting | Processing(complete: bool) | CleaningUp(pipeline: Metrics)

  datatype Life = Life(
    batch: Batch,
    registered: bool,             // still in pending_batches
    lock: Option<Stage>,          // where the lock's holder is suspended
    callers: nat,                 // finalize calls waiting for the lock
    aborts: nat,                  // abort calls suspended in the scheduler's cleanup
    returned: seq<BatchResult>)   // results of the finalize calls that returned normally

  datatype LifeEvent =
    | CallFinalize
    | Acquire
    | Drained(statuses: seq<TaskResult>)
    | PipelineReturns(pipeline: Metrics)
    | PipelineRaises
    | CleanupReturns
    | CleanupRaises
    | CallAbort
    | AbortReturns

  function Birth(b: Batch): Life { Life(b, true, None, 0, 0, []) }

  ghost predicate LifeEnabled(l: Life, e: LifeEvent) {
    match e
    case CallFinalize => l.registered
    case Acquire => l.callers > 0 && l.lock.None?
    case Drained(statuses) => l.lock == Some(Waiting) && |statuses| <= l.batch.expected
    case PipelineReturns(_) => l.lock.Some? && l.lock.value.Processing?
    case PipelineRaises => l.lock.Some? && l.lock.value.Processing?
    case CleanupReturns => l.lock.Some? && l.lock.value.CleaningUp?
    case CleanupRaises => l.lock.Some? && l.lock.value.CleaningUp?
    case CallAbort => l.registered && !IsTerminal(l.batch.phase)
    case AbortReturns => l.aborts > 0
  }

  function Conclude(l: Life, pipeline: Metrics, agg: Aggregate): Life {
    var b := Finish(l.batch, pipeline, agg);
    l.(batch := b, registered := false, lock := None, returned := l.returned + [BuildResult(l.batch, pipeline, agg)])
  }

  function LifeNext(l: Life, e: LifeEvent, agg: Aggregate): Life
    requires LifeEnabled(l, e)
  {
    match e
    case CallFinalize => l.(callers := l.callers + 1)
    case Acquire =>
      (match ExistingResult(l.batch, agg)
       case Some(r) => l.(callers := l.callers - 1, batch := l.batch.(final := Some(r)), returned := l.returned + [r])
       case None => l.(callers := l.callers - 1, lock := Some(Waiting)))
    case Drained(statuses) =>
      if l.batch.isTrain then
        match AcceptTrain(l.batch, statuses)
        case TimedOut => l.(lock := None)
        case Accepted(b, complete) => l.(batch := b, lock := Some(Processing(complete)))
      else Conclude(l.(batch := AcceptEval(l.batch, statuses)), map[], agg)
    case PipelineReturns(pipeline) =>
      if l.lock.value.complete then Conclude(l, pipeline, agg) else l.(lock := Some(CleaningUp(pipeline)))
    case PipelineRaises => l.(batch := FinalizeFailed(l.batch), lock := None)
    case CleanupReturns => Conclude(l, l.lock.value.pipeline, agg)
    case CleanupRaises => l.(batch := FinalizeFailed(l.batch), lock := None)
    case CallAbort => l.(aborts := l.aborts + 1)
    case AbortReturns =>
      l.(batch := AbortCompleted(l.batch, agg), registered := false, aborts := l.aborts - 1)
  }

  ghost predicate LifeRun(l: Life, es: seq<LifeEvent>, agg: Aggregate, l': Life)
    decreases |es|
  {
    if es == [] then l' == l
    else LifeEnabled(l, es[0]) && LifeRun(LifeNext(l, es[0], agg), es[1..], agg, l')
  }

  // ---- what a finalized batch reports -------------------------------------------------------

  /** The statuses a train finalize works with once its checks passed. */
  ghost predicate CountOk(b: Batch) {
    if b.expected == 0 then |b.statuses| == 0
    else 1 <= |b.statuses| <= b.expected && (b.minWait.None? ==> |b.statuses| == b.expected)
  }

  ghost predicate LifeInv(l: Life) {
    && (l.batch.final.Some? ==> !l.registered)
    && (l.batch.phase == Aborted ==> l.batch.final.Some?)
    && (l.returned != [] ==> l.batch.final.Some? && l.lock.None?)
    && (l.batch.phase == Finalized ==> l.batch.final.Some? && l.lock.None? && (l.batch.isTrain ==> CountOk(l.batch)))
    && (l.batch.isTrain ==> l.batch.statuses == [] || CountOk(l.batch))
    && |l.batch.statuses| <= l.batch.expected
    && (l.lock.Some? && !l.lock.value.Waiting? ==>
          && l.batch.isTrain && CountOk(l.batch)
          && (l.lock.value.Processing? ==> (l.lock.value.complete <==> |l.batch.statuses| == l.batch.expected))
          && (l.lock.value.CleaningUp? ==> |l.batch.statuses| < l.batch.expected))
  }

  lemma LifeInvStep(l: Life, e: LifeEvent, agg: Aggregate)
    requires LifeInv(l) && LifeEnabled(l, e)
    ensures LifeInv(LifeNext(l, e, agg))
  {
  }

  lemma {:induction false} LifeRunKeepsInv(l: Life, es: seq<LifeEvent>, agg: Aggregate, l': Life)
    requires LifeInv(l) && LifeRun(l, es, agg, l')
    ensures LifeInv(l') && SameSubmission(l.batch, l'.batch)
    decreases |es|
  {
    if es != [] {
      LifeInvStep(l, es[0], agg);
      LifeRunKeepsInv(LifeNext(l, es[0], agg), es[1..], agg, l');
    }
  }

  ghost predicate SameSubmission(a: Batch, b: Batch) {
    a.id == b.id && a.isTrain == b.isTrain && a.expected == b.expected && a.minWait == b.minWait
  }

  /**
   Whenever a train finalize goes through, it reports all expected tasks if no minimum was set, and
   otherwise at least one and at most all of them.
   */
  lemma FinalizedCounts(b: Batch, es: seq<LifeEvent>, agg: Aggregate, l: Life, e: LifeEvent)
    requires b.isTrain && b == Submitted(b.id, true, b.expected, b.minWait)
    requires LifeRun(Birth(b), es, agg, l) && LifeEnabled(l, e)
    requires LifeNext(l, e, agg).batch.phase == Finalized && l.batch.phase != Finalized
    ensures var l' := LifeNext(l, e, agg);
            && |l'.returned| == |l.returned| + 1
            && var r := l'.returned[|l.returned|];
               && l'.batch.final == Some(r)
               && (b.minWait.None? ==> r.finishedTaskCount == b.expected)
               && (b.expected > 0 ==> 1 <= r.finishedTaskCount <= b.expected)
               && (b.expected == 0 ==> r.finishedTaskCount == 0)
               && l'.batch.statuses == l.batch.statuses && r.finishedTaskCount == |l.batch.statuses|
               && Reports(r, l'.batch, PipelineMetrics(l, e), agg(l.batch.statuses))
  {
    LifeRunKeepsInv(Birth(b), es, agg, l);
    BuiltReports(l.batch, PipelineMetrics(l, e), agg);
  }

  /** What the pipeline returned, now or before the cleanup that has just ended. */
  function PipelineMetrics(l: Life, e: LifeEvent): Metrics {
    if e.PipelineReturns? then e.pipeline
    else if l.lock.Some? && l.lock.value.CleaningUp? then l.lock.value.pipeline else map[]
  }

  /**
   What a train finalize does with the statuses it drained: with no task it goes on with none; with too few it gives
   up and leaves the batch alone; otherwise these are the batch's statuses, and only a shortfall leads to a cleanup.
   */
  lemma TrainDrainDecides(l: Life, rs: seq<TaskResult>, agg: Aggregate, pipeline: Metrics)
    requires LifeInv(l) && l.batch.isTrain && LifeEnabled(l, Drained(rs))
    ensures var l' := LifeNext(l, Drained(rs), agg);
            if l.batch.expected > 0 && TooFew(l.batch, |rs|) then l' == l.(lock := None)
            else
              && l'.batch == l.batch.(statuses := if l.batch.expected == 0 then l.batch.statuses else rs,
                                      phase := Finalizing)
              && (l.batch.expected == 0 ==> rs == [])
              && LifeEnabled(l', PipelineReturns(pipeline))
              && var l2 := LifeNext(l', PipelineReturns(pipeline), agg);
                 if |rs| < l.batch.expected then l2 == l'.(lock := Some(CleaningUp(pipeline)))
                 else l2.batch.phase == Finalized
  {
  }

  ghost predicate TooFew(b: Batch, drained: nat) {
    drained == 0 || (b.minWait.None? && drained < b.expected)
  }

  /** The phase of a batch nobody is finalizing. */
  function IdlePhase(b: Batch): Phase {
    if b.expected > 0 then Running else Pending
  }

  /** The lock's holder has taken the drained statuses. */
  predicate AtWork(l: Life) {
    l.lock.Some? && !l.lock.value.Waiting?
  }

  /** While a batch is registered its phase tells whether a finalize call is at work on it. */
  ghost predicate PhaseTells(l: Life) {
    l.registered ==> l.batch.phase == if AtWork(l) then Finalizing else IdlePhase(l.batch)
  }

  /**
   In every run the phase of a registered batch says whether a finalize call is past its checks. So a failed finalize
   leaves the batch as it was submitted, and every registered batch can be aborted.
   */
  lemma {:induction false} PhaseAlwaysTells(l: Life, es: seq<LifeEvent>, agg: Aggregate, l': Life)
    requires LifeInv(l) && PhaseTells(l) && LifeRun(l, es, agg, l')
    ensures PhaseTells(l') && (l'.registered ==> LifeEnabled(l', CallAbort))
    decreases |es|
  {
    if es != [] {
      LifeInvStep(l, es[0], agg);
      PhaseAlwaysTells(LifeNext(l, es[0], agg), es[1..], agg, l');
    }
  }

  lemma SubmittedPhaseTells(id: BatchId, isTrain: bool, taskCount: nat, minWait: Option<nat>)
    ensures var l := Birth(Submitted(id, isTrain, taskCount, minWait)); LifeInv(l) && PhaseTells(l)
  {
  }

  /** The end of a failed finalize: the lock is free and the statuses and the result are untouched. */
  lemma FailureRestores(l: Life, e: LifeEvent, agg: Aggregate)
    requires LifeEnabled(l, e) && (e.PipelineRaises? || e.CleanupRaises?)
    ensures LifeNext(l, e, agg) == l.(lock := None, batch := l.batch.(phase := IdlePhase(l.batch)))
  {
  }

  /** The counts and metrics of a result: the number of statuses under the count key, and every aggregated metric. */
  ghost predicate Reports(r: BatchResult, b: Batch, pipeline: Metrics, aggregated: Metrics) {
    && r.id == b.id && r.isTrain == b.isTrain
    && r.metrics.Keys == pipeline.Keys + aggregated.Keys + {CountKey(b)}
    && r.metrics[CountKey(b)] == r.finishedTaskCount as real
    && (forall k :: k in aggregated && k != CountKey(b) ==> r.metrics[k] == aggregated[k])
    && (forall k :: k in pipeline && k !in aggregated && k != CountKey(b) ==> r.metrics[k] == pipeline[k])
  }

  lemma {:induction false} SlashBehindDigits(digits: string, rest: string)
    requires forall i :: 0 <= i < |digits| ==> digits[i] != '/'
    ensures FirstSlash(digits + "/" + rest) == Some(|digits|)
  {
    var s := digits + "/" + rest;
    if digits == "" {
      assert s[0] == '/';
    } else {
      assert s[1..] == digits[1..] + "/" + rest;
      SlashBehindDigits(digits[1..], rest);
    }
  }

  /** The count key: one for all train batches, and one for each evaluation taskset, whatever the step. */
  lemma CountKeyOf(b: Batch, step: nat, taskset: string)
    ensures b.isTrain ==> CountKey(b) == "rollout/finished_task_count"
    ensures !b.isTrain && b.id == EvalBatchId(step, taskset) ==>
              CountKey(b) == "eval/" + taskset + "/finished_task_count"
  {
    if b.id == EvalBatchId(step, taskset) {
      var digits := Decimal.Decimal(step);
      SlashBehindDigits(digits, taskset);
      assert (digits + "/" + taskset)[|digits| + 1..] == taskset;
    }
  }

  lemma BuiltReports(b: Batch, pipeline: Metrics, agg: Aggregate)
    ensures var r := BuildResult(b, pipeline, agg);
            Reports(r, b, pipeline, agg(b.statuses)) && r.finishedTaskCount == |b.statuses|
  {
  }

  /** The statuses after filling in: the earlier ones, and the new ones at the positions behind them. */
  ghost predicate FilledIn(earlier: seq<TaskResult>, rs: seq<TaskResult>, after: seq<TaskResult>) {
    && earlier <= after && |after| == (if |earlier| < |rs| then |rs| else |earlier|)
    && forall i :: |earlier| <= i < |rs| ==> after[i] == rs[i]
  }

  /**
   An eval finalize that drains rs keeps the statuses it has, fills in the positions behind them, and reports all of
   them; the first one reports exactly rs.
   */
  lemma EvalFinalizeReports(b: Batch, es: seq<LifeEvent>, agg: Aggregate, l: Life, rs: seq<TaskResult>)
    requires !b.isTrain && b == Submitted(b.id, false, b.expected, b.minWait)
    requires LifeRun(Birth(b), es, agg, l) && LifeEnabled(l, Drained(rs))
    ensures var l' := LifeNext(l, Drained(rs), agg);
            && l'.batch.phase == Finalized && FilledIn(l.batch.statuses, rs, l'.batch.statuses)
            && |l'.returned| == |l.returned| + 1
            && var r := l'.returned[|l.returned|];
               && l'.batch.final == Some(r) && r.finishedTaskCount == |l'.batch.statuses|
               && Reports(r, l'.batch, map[], agg(l'.batch.statuses))
    ensures l.batch.statuses == [] ==> LifeNext(l, Drained(rs), agg).batch.statuses == rs
  {
    LifeRunKeepsInv(Birth(b), es, agg, l);
    var l' := LifeNext(l, Drained(rs), agg);
    BuiltReports(l'.batch, map[], agg);
    if l.batch.statuses == [] { assert [] + rs == rs; }
  }

  // ---- do all finalize calls return the same result? ----------------------------------------

  ghost predicate AllEqual(rs: seq<BatchResult>, r: BatchResult) {
    forall i :: 0 <= i < |rs| ==> rs[i] == r
  }

  /** Nothing that can still happen changes what later finalize calls return. */
  ghost predicate Settled(l: Life, agg: Aggregate) {
    && l.batch.final.Some?
    && (l.aborts == 0 || l.callers == 0 || BuildResult(l.batch, map[], agg) == l.batch.final.value)
  }

  lemma {:induction false} SettledForGood(l: Life, es: seq<LifeEvent>, agg: Aggregate, l': Life, r: BatchResult)
    requires LifeInv(l) && l.returned != [] && AllEqual(l.returned, r) && l.batch.final == Some(r) && Settled(l, agg)
    requires LifeRun(l, es, agg, l')
    ensures AllEqual(l'.returned, r)
    decreases |es|
  {
    if es != [] {
      var n := LifeNext(l, es[0], agg);
      LifeInvStep(l, es[0], agg);
      if l.callers == 0 && l.aborts > 0 && es[0].AbortReturns? {
        NoCallersNoReturns(n, es[1..], agg, l');
      } else {
        SettledForGood(n, es[1..], agg, l', r);
      }
    }
  }

  lemma {:induction false} NoCallersNoReturns(l: Life, es: seq<LifeEvent>, agg: Aggregate, l': Life)
    requires l.callers == 0 && !l.registered && l.lock.None? && LifeRun(l, es, agg, l')
    ensures l'.returned == l.returned
    decreases |es|
  {
    if es != [] { NoCallersNoReturns(LifeNext(l, es[0], agg), es[1..], agg, l'); }
  }

  /** Every continuation of l returns only r. */
  ghost predicate AgreesForever(l: Life, agg: Aggregate, r: BatchResult) {
    forall es, l' :: LifeRun(l, es, agg, l') ==> AllEqual(l'.returned, r)
  }

  /**
   Once a finalize call has returned r, all later ones return r too exactly when no abort is still
   suspended, or nobody waits any more, or the abort would rebuild the same result.
   */
  lemma FinalizeAgreementIff(b: Batch, es: seq<LifeEvent>, agg: Aggregate, l: Life, r: BatchResult)
    requires b == Submitted(b.id, b.isTrain, b.expected, b.minWait)
    requires LifeRun(Birth(b), es, agg, l)
    requires l.returned != [] && AllEqual(l.returned, r) && l.batch.final == Some(r)
    ensures AgreesForever(l, agg, r)
        <==> l.aborts == 0 || l.callers == 0 || BuildResult(l.batch, map[], agg) == r
  {
    LifeRunKeepsInv(Birth(b), es, agg, l);
    if Settled(l, agg) {
      forall fs, l' | LifeRun(l, fs, agg, l') ensures AllEqual(l'.returned, r) {
        SettledForGood(l, fs, agg, l', r);
      }
    } else {
      var l1 := LifeNext(l, AbortReturns, agg);
      var l2 := LifeNext(l1, Acquire, agg);
      var fs := [AbortReturns, Acquire];
      assert fs[1..] == [Acquire] && fs[1..][1..] == [];
      assert LifeRun(l2, [], agg, l2);
      assert LifeRun(l1, fs[1..], agg, l2);
      assert LifeRun(l, fs, agg, l2);
      assert l2.returned[|l.returned|] == BuildResult(l.batch, map[], agg);
    }
  }

  /** Without an abort in flight when the first finalize returns, all of them agree. */
  lemma FinalizeAgreement(b: Batch, es: seq<LifeEvent>, agg: Aggregate, l: Life, r: BatchResult, fs: seq<LifeEvent>,
                          l': Life)
    requires b == Submitted(b.id, b.isTrain, b.expected, b.minWait)
    requires LifeRun(Birth(b), es, agg, l) && l.returned == [r] && l.batch.final == Some(r) && l.aborts == 0
    requires LifeRun(l, fs, agg, l')
    ensures AllEqual(l'.returned, r)
  {
    FinalizeAgreementIff(b, es, agg, l, r);
  }

  lemma {:induction false} ExtendRun(l: Life, es: seq<LifeEvent>, agg: Aggregate, l': Life, e: LifeEvent)
    requires LifeRun(l, es, agg, l') && LifeEnabled(l', e)
    ensures LifeRun(l, es + [e], agg, LifeNext(l', e, agg))
    decreases |es|
  {
    if es == [] {
      assert LifeRun(LifeNext(l, e, agg), [], agg, LifeNext(l', e, agg));
      assert (es + [e])[1..] == [];
    } else {
      assert (es + [e])[1..] == es[1..] + [e];
      ExtendRun(LifeNext(l, es[0], agg), es[1..], agg, l', e);
    }
  }

  /** Two finalize calls and an abort are under way; the first finalize has drained one status. */
  lemma ContestedBatch(agg: Aggregate, status: TaskResult) returns (es: seq<LifeEvent>, l: Life)
    ensures LifeRun(Birth(Submitted(Step(1), true, 1, None)), es, agg, l)
    ensures l == Life(Batch(Step(1), true, 1, None, Finalizing, [status], None), true, Some(Processing(true)), 1, 1, [])
  {
    var b0 := Birth(Submitted(Step(1), true, 1, None));
    es, l := [], b0;
    ExtendRun(b0, es, agg, l, CallFinalize);
    es, l := es + [CallFinalize], LifeNext(l, CallFinalize, agg);
    ExtendRun(b0, es, agg, l, CallFinalize);
    es, l := es + [CallFinalize], LifeNext(l, CallFinalize, agg);
    ExtendRun(b0, es, agg, l, CallAbort);
    es, l := es + [CallAbort], LifeNext(l, CallAbort, agg);
    ExtendRun(b0, es, agg, l, Acquire);
    es, l := es + [Acquire], LifeNext(l, Acquire, agg);
    ExtendRun(b0, es, agg, l, Drained([status]));
    es, l := es + [Drained([status])], LifeNext(l, Drained([status]), agg);
  }

  /** Two finalize calls that disagree: an abort completes between them and drops the pipeline's metrics. */
  lemma AbortCanSplitFinalizeCalls(agg: Aggregate, status: TaskResult)
    requires "reward" !in agg([status])
    ensures exists es, l' ::
              && LifeRun(Birth(Submitted(Step(1), true, 1, None)), es, agg, l')
              && |l'.returned| == 2 && l'.returned[0] != l'.returned[1]
  {
    var pipeline: Metrics := map["reward" := 1.0];
    var es, l := ContestedBatch(agg, status);
    var b0 := Birth(Submitted(Step(1), true, 1, None));
    var e1 := PipelineReturns(pipeline);
    ExtendRun(b0, es, agg, l, e1);
    var l1 := LifeNext(l, e1, agg);
    ExtendRun(b0, es + [e1], agg, l1, AbortReturns);
    var l2 := LifeNext(l1, AbortReturns, agg);
    ExtendRun(b0, es + [e1] + [AbortReturns], agg, l2, Acquire);
    var l3 := LifeNext(l2, Acquire, agg);
    assert l3.returned[0].metrics["reward"] == 1.0;
    assert "reward" !in l3.returned[1].metrics;
  }
}
