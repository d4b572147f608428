/** The explorer's bookkeeping of submitted and finalized batches, as values. */
module ExplorerModel {
  import opened Common
  import opened BatchOrder

  /**
   Where the loop is suspended, if it is: in explore_step, or finishing everything because there are no more tasks.
   */
  datatype Stage = AtLoop | Draining(oldest: nat) | Submitting | Finishing(next: nat)

  datatype Books = Books(
    fullyAsync: bool,
    maxInflight: nat,
    step: nat,                          // explore_step_num
    monitored: nat,                     // last_monitored_step
    inflight: seq<nat>,                 // _inflight_train_steps
    pendingEvals: seq<(nat, string)>,
    readCount: nat,                     // the taskset scheduler's step
    stage: Stage,
    // history
    finalized: seq<nat>,                // train batches passed to finalize_train_batch, in order
    finalizedEvals: seq<BatchId>,       // eval batches passed to finalize_eval_batch, in order
    submittedEvals: seq<BatchId>,
    checkpoints: seq<Checkpoint>)

  datatype Checkpoint = Checkpoint(step: nat, monitored: nat, readCount: nat)

  function Resume(fullyAsync: bool, maxInflight: nat, step: nat): Books {
    Books(fullyAsync, maxInflight, step, step, [], [], step, AtLoop, [], [], [], [])
  }

  /** a, a + 1, ..., b */
  function Range(a: nat, b: int): (r: seq<nat>)
    decreases b
  {
    if b < a then [] else Range(a, b - 1) + [b]
  }

  // ---- the steps ----------------------------------------------------------------------------

  /** explore_step up to its first suspension, given that reading tasks succeeded. */
  function BeginStep(b: Books): Books {
    var b1 := b.(step := b.step + 1, readCount := b.readCount + 1);
    if b.fullyAsync && |b.inflight| >= b.maxInflight && b.inflight != [] then
      b1.(inflight := b.inflight[1..], stage := Draining(b.inflight[0]))
    else b1.(stage := Submitting)
  }

  /** The oldest batch in flight has been finalized. */
  function DrainReturns(b: Books): Books
    requires b.stage.Draining?
  {
    b.(finalized := b.finalized + [b.stage.oldest], monitored := b.stage.oldest, stage := Submitting)
  }

  /** The new batch has been submitted. */
  function SubmitReturns(b: Books): Books {
    b.(inflight := if b.fullyAsync then b.inflight + [b.step] else b.inflight, stage := AtLoop)
  }

  function ExploreStep(b: Books): Books {
    var b1 := BeginStep(b);
    SubmitReturns(if b1.stage.Draining? then DrainReturns(b1) else b1)
  }

  /** The states at which explore_step is suspended. */
  function Suspensions(b: Books): seq<Books> {
    var b1 := BeginStep(b);
    if b1.stage.Draining? then [b1, DrainReturns(b1)] else [b1]
  }

  /** eval(): one batch per taskset, queued under the current step. */
  function Eval(b: Books, names: seq<string>): Books {
    b.(pendingEvals := b.pendingEvals + EvalsOf(b.step, names),
       submittedEvals := b.submittedEvals + EvalIds(EvalsOf(b.step, names)))
  }

  function EvalsOf(step: nat, names: seq<string>): (evals: seq<(nat, string)>)
    ensures |evals| == |names|
  {
    seq(|names|, i requires 0 <= i < |names| => (step, names[i]))
  }

  /** How many evals at the head of the queue belong to the step. */
  function HeadEvals(pending: seq<(nat, string)>, step: nat): (n: nat)
    ensures n <= |pending|
  {
    if pending == [] || pending[0].0 != step then 0 else 1 + HeadEvals(pending[1..], step)
  }

  function EvalIds(evals: seq<(nat, string)>): (ids: seq<BatchId>)
    ensures |ids| == |evals|
  {
    seq(|evals|, i requires 0 <= i < |evals| => EvalBatchId(evals[i].0, evals[i].1))
  }

  /** _finish_eval_step: a falsy step means the current one; only the head run of that step is taken. */
  function FinishEvals(b: Books, step: nat): Books {
    var s := if step == 0 then b.step else step;
    var n := HeadEvals(b.pendingEvals, s);
    b.(pendingEvals := b.pendingEvals[n..], finalizedEvals := b.finalizedEvals + EvalIds(b.pendingEvals[..n]))
  }

  /** The evals still queued after the steps start..end. */
  function DrainSteps(pending: seq<(nat, string)>, start: nat, end: nat): seq<(nat, string)>
    decreases end + 1 - start
  {
    if start > end then pending else DrainSteps(pending[HeadEvals(pending, start)..], start + 1, end)
  }

  /** The eval batches those steps finalize. */
  function DrainedIds(pending: seq<(nat, string)>, start: nat, end: nat): seq<BatchId>
    decreases end + 1 - start
  {
    if start > end then []
    else
      var n := HeadEvals(pending, start);
      EvalIds(pending[..n]) + DrainedIds(pending[n..], start + 1, end)
  }

  /** _finish_steps for the steps start..end: per step the train batch, then its evals. */
  function FinishSteps(b: Books, start: nat, end: nat): Books {
    b.(finalized := b.finalized + Range(start, end),
       pendingEvals := DrainSteps(b.pendingEvals, start, end),
       finalizedEvals := b.finalizedEvals + DrainedIds(b.pendingEvals, start, end))
  }

  function FinishCurrentSteps(b: Books): Books {
    FinishSteps(b, b.monitored + 1, b.step).(monitored := b.step)
  }

  function SaveCheckpoint(b: Books): Books {
    b.(checkpoints := b.checkpoints + [Checkpoint(b.step, b.monitored, b.readCount)])
  }

  // ---- lemmas about the queue of evals ------------------------------------------------------

  lemma {:induction false} HeadRun(pending: seq<(nat, string)>, step: nat)
    ensures var n := HeadEvals(pending, step);
            && (forall i :: 0 <= i < n ==> pending[i].0 == step)
            && (n < |pending| ==> pending[n].0 != step)
  {
    if pending != [] && pending[0].0 == step { HeadRun(pending[1..], step); }
  }

  /** _finish_eval_step finalizes the evals of the step at the head of the queue, all of them, and keeps the rest. */
  lemma FinishEvalsTakesHeadRun(b: Books, step: nat)
    ensures var s, e := if step == 0 then b.step else step, FinishEvals(b, step);
            var n := |b.pendingEvals| - |e.pendingEvals|;
            && n >= 0 && b.pendingEvals == b.pendingEvals[..n] + e.pendingEvals
            && (forall i :: 0 <= i < n ==> b.pendingEvals[i].0 == s)
            && (e.pendingEvals != [] ==> e.pendingEvals[0].0 != s)
            && e.finalizedEvals == b.finalizedEvals + EvalIds(b.pendingEvals[..n])
            && e == b.(pendingEvals := e.pendingEvals, finalizedEvals := e.finalizedEvals)
  {
    HeadRun(b.pendingEvals, if step == 0 then b.step else step);
  }

  /** Evals are queued in step order. */
  ghost predicate InStepOrder(pending: seq<(nat, string)>) {
    forall i, j :: 0 <= i < j < |pending| ==> pending[i].0 <= pending[j].0
  }

  lemma {:induction false} HeadEvalsTakesAll(pending: seq<(nat, string)>, step: nat)
    requires InStepOrder(pending)
    requires forall i :: 0 <= i < |pending| ==> pending[i].0 >= step
    ensures var n := HeadEvals(pending, step);
            && (forall i :: 0 <= i < n ==> pending[i].0 == step)
            && (forall i :: n <= i < |pending| ==> pending[i].0 > step)
  {
    if pending != [] && pending[0].0 == step { HeadEvalsTakesAll(pending[1..], step); }
  }

  /** One turn of _finish_steps. */
  lemma FinishOneStep(b: Books, start: nat, end: nat)
    requires 1 <= start <= end
    ensures FinishSteps(b, start, end)
        == FinishSteps(FinishEvals(b.(finalized := b.finalized + [start]), start), start + 1, end)
  {
    RangeFront(start, end);
    var n := HeadEvals(b.pendingEvals, start);
    ConcatAssociates(b.finalizedEvals, EvalIds(b.pendingEvals[..n]), DrainedIds(b.pendingEvals[n..], start + 1, end));
    ConcatAssociates(b.finalized, [start], Range(start + 1, end));
  }

  lemma FinishNoSteps(b: Books, start: nat, end: nat)
    requires start > end
    ensures FinishSteps(b, start, end) == b
  {
    assert b.finalized + [] == b.finalized && b.finalizedEvals + [] == b.finalizedEvals;
  }

  /** No eval is lost on the way from the queue to the finalized ones. */
  lemma {:induction false} DrainMoves(pending: seq<(nat, string)>, start: nat, end: nat)
    ensures DrainedIds(pending, start, end) + EvalIds(DrainSteps(pending, start, end)) == EvalIds(pending)
    decreases end + 1 - start
  {
    if start > end {
      assert [] + EvalIds(pending) == EvalIds(pending);
    } else {
      var n := HeadEvals(pending, start);
      DrainMoves(pending[n..], start + 1, end);
      EvalIdsSplit(pending, n);
      ConcatAssociates(EvalIds(pending[..n]), DrainedIds(pending[n..], start + 1, end),
                       EvalIds(DrainSteps(pending[n..], start + 1, end)));
    }
  }

  /** Every submitted eval is finalized or still queued. */
  ghost predicate EvalLog(finalized: seq<BatchId>, pending: seq<(nat, string)>, submitted: seq<BatchId>) {
    finalized + EvalIds(pending) == submitted
  }

  lemma TakenEvalsMove(finalized: seq<BatchId>, pending: seq<(nat, string)>, n: nat, submitted: seq<BatchId>)
    requires n <= |pending| && EvalLog(finalized, pending, submitted)
    ensures EvalLog(finalized + EvalIds(pending[..n]), pending[n..], submitted)
  {
    EvalIdsSplit(pending, n);
    ConcatAssociates(finalized, EvalIds(pending[..n]), EvalIds(pending[n..]));
  }

  lemma EvalIdsSplit(pending: seq<(nat, string)>, n: nat)
    requires n <= |pending|
    ensures EvalIds(pending) == EvalIds(pending[..n]) + EvalIds(pending[n..])
  {
  }

  lemma {:induction false} RangeFront(a: nat, b: int)
    requires a <= b
    ensures Range(a, b) == [a] + Range(a + 1, b)
  {
    if a < b {
      RangeFront(a, b - 1);
      assert Range(a + 1, b) == Range(a + 1, b - 1) + [b];
      assert [a] + (Range(a + 1, b - 1) + [b]) == ([a] + Range(a + 1, b - 1)) + [b];
    } else {
      assert Range(a, a - 1) == [] && Range(a + 1, a) == [];
    }
  }

  lemma {:induction false} RangeConcat(a: nat, b: nat, c: nat)
    requires a <= b + 1 && b <= c
    ensures Range(a, b) + Range(b + 1, c) == Range(a, c)
  {
    if c == b {
      assert Range(b + 1, c) == [];
    } else {
      RangeConcat(a, b, c - 1);
      assert Range(a, b) + (Range(b + 1, c - 1) + [c]) == (Range(a, b) + Range(b + 1, c - 1)) + [c];
    }
  }

  lemma {:induction false} RangeLength(a: nat, b: int)
    requires a <= b + 1
    ensures |Range(a, b)| == b + 1 - a
    ensures forall i :: 0 <= i < |Range(a, b)| ==> Range(a, b)[i] == a + i
  {
    if a <= b { RangeLength(a, b - 1); }
  }

  /** Finishing steps start..end empties the queue if every queued eval belongs to one of them. */
  lemma {:induction false} StepsDrain(pending: seq<(nat, string)>, start: nat, end: nat)
    requires InStepOrder(pending)
    requires forall i :: 0 <= i < |pending| ==> start <= pending[i].0 <= end
    ensures DrainSteps(pending, start, end) == []
    decreases end + 1 - start
  {
    if start <= end {
      HeadEvalsTakesAll(pending, start);
      StepsDrain(pending[HeadEvals(pending, start)..], start + 1, end);
    }
  }

  /** An eval of an earlier step at the head is never reached. */
  lemma {:induction false} OldEvalBlocks(pending: seq<(nat, string)>, start: nat, end: nat)
    requires pending != [] && pending[0].0 < start
    ensures DrainSteps(pending, start, end) == pending && DrainedIds(pending, start, end) == []
    decreases end + 1 - start
  {
    if start <= end {
      assert HeadEvals(pending, start) == 0 && pending[0..] == pending && EvalIds(pending[..0]) == [];
      OldEvalBlocks(pending, start + 1, end);
    }
  }

  /** finish_current_steps leaves no eval behind exactly when none is older than the unfinished steps. */
  lemma EvalsDrainedIff(pending: seq<(nat, string)>, monitored: nat, step: nat)
    requires InStepOrder(pending) && forall i :: 0 <= i < |pending| ==> pending[i].0 <= step
    ensures DrainSteps(pending, monitored + 1, step) == []
       <==> forall i :: 0 <= i < |pending| ==> pending[i].0 > monitored
  {
    if pending != [] && pending[0].0 <= monitored {
      OldEvalBlocks(pending, monitored + 1, step);
    } else {
      assert forall i :: 0 <= i < |pending| ==> pending[0].0 <= pending[i].0;
      StepsDrain(pending, monitored + 1, step);
    }
  }
}
