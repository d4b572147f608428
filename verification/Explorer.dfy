/** The Explorer's bookkeeping as a mutable object, each method proved against ExplorerModel. */
module Explorer {
  import opened Common
  import opened BatchOrder
  import opened ExplorerLoop
  import opened ExplorerModel

  class Explorer {
    const fullyAsync: bool
    const maxInflight: nat
    const syncOffset: nat
    const syncInterval: nat
    var exploreStepNum: nat
    var lastMonitoredStep: nat
    var inflightTrainSteps: seq<nat>
    var pendingEvalTasks: seq<(nat, string)>
    ghost var readCount: nat
    ghost var stage: Stage
    ghost var finalized: seq<nat>
    ghost var finalizedEvals: seq<BatchId>
    ghost var submittedEvals: seq<BatchId>
    ghost var checkpoints: seq<Checkpoint>

    ghost function View(): Books
      reads this
    {
      Books(fullyAsync, maxInflight, exploreStepNum, lastMonitoredStep, inflightTrainSteps, pendingEvalTasks, readCount,
            stage,
            finalized, finalizedEvals, submittedEvals, checkpoints)
    }

    constructor (fullyAsync: bool, maxInflight: nat, syncOffset: nat, syncInterval: nat, latestIteration: nat)
      ensures View() == Resume(fullyAsync, maxInflight, latestIteration)
      ensures this.syncOffset == syncOffset && this.syncInterval == syncInterval
    {
      this.fullyAsync, this.maxInflight := fullyAsync, maxInflight;
      this.syncOffset, this.syncInterval := syncOffset, syncInterval;
      exploreStepNum, lastMonitoredStep, readCount := latestIteration, latestIteration, latestIteration;
      inflightTrainSteps, pendingEvalTasks := [], [];
      stage, finalized, finalizedEvals, submittedEvals, checkpoints := AtLoop, [], [], [], [];
    }

    /**
     `tasks` is what the taskset returned; None stands for the end of the schedule. `seen` holds the state at the
     suspensions for draining and for submitting, which the watcher can look at.
     */
    method ExploreStep<T>(tasks: Option<seq<T>>) returns (goOn: bool, ghost seen: seq<Books>)
      requires maxInflight >= 1 && lastMonitoredStep <= exploreStepNum && stage == AtLoop
      modifies this
      ensures goOn <==> tasks.Some?
      ensures tasks.None? ==> View() == old(ShutDown(View()))
      ensures tasks.Some? ==> View() == old(ExplorerModel.ExploreStep(View())) && seen == old(Suspensions(View()))
    {
      seen := [];
      if tasks.None? {
        FinishCurrentSteps();
        SaveCheckpoint();
        return false, seen;
      }
      readCount := readCount + 1;
      exploreStepNum := exploreStepNum + 1;
      if fullyAsync && |inflightTrainSteps| >= maxInflight {
        var oldestStep := inflightTrainSteps[0];
        inflightTrainSteps := inflightTrainSteps[1..];
        stage := Draining(oldestStep);
        seen := [View()];
        FinishExploreStep(oldestStep);
        lastMonitoredStep := oldestStep;
      }
      stage := Submitting;
      seen := seen + [View()];
      if fullyAsync {
        inflightTrainSteps := inflightTrainSteps + [exploreStepNum];
      }
      stage := AtLoop;
      return true, seen;
    }

    /** `names` are the evaluation tasksets, each submitted as a batch of its own. */
    method Eval(names: seq<string>)
      modifies this
      ensures View() == old(ExplorerModel.Eval(View(), names))
    {
      ghost var b := View();
      for k := 0 to |names|
        invariant View() == ExplorerModel.Eval(b, names[..k])
      {
        EvalSnoc(b, names, k);
        pendingEvalTasks := pendingEvalTasks + [(exploreStepNum, names[k])];
        submittedEvals := submittedEvals + [EvalBatchId(exploreStepNum, names[k])];
      }
      assert names[..|names|] == names;
    }

    method FinishExploreStep(step: nat)
      modifies this`finalized
      ensures finalized == old(finalized) + [step]
    {
      finalized := finalized + [step];
    }

    method FinishHeadEval(step: nat)
      requires pendingEvalTasks != []
      modifies this`pendingEvalTasks, this`finalizedEvals
      ensures pendingEvalTasks == old(pendingEvalTasks)[1..]
      ensures finalizedEvals == old(finalizedEvals) + [EvalBatchId(step, old(pendingEvalTasks)[0].1)]
    {
      finalizedEvals := finalizedEvals + [EvalBatchId(step, pendingEvalTasks[0].1)];
      pendingEvalTasks := pendingEvalTasks[1..];
    }

    /** `step` is None or 0 for "the current step": the source tests it for truth. */
    method FinishEvalStep(step: Option<nat>)
      modifies this`pendingEvalTasks, this`finalizedEvals
      ensures View() == old(FinishEvals(View(), if step.Some? then step.value else 0))
    {
      ghost var b := View();
      if pendingEvalTasks == [] {
        FinishNoEvals(b, if step.Some? then step.value else 0);
        return;
      }
      var s := if step.Some? && step.value != 0 then step.value else exploreStepNum;
      ghost var n := 0;
      while pendingEvalTasks != [] && pendingEvalTasks[0].0 == s
        invariant n <= |b.pendingEvals| && pendingEvalTasks == b.pendingEvals[n..]
        invariant HeadEvals(b.pendingEvals, s) == n + HeadEvals(pendingEvalTasks, s)
        invariant finalizedEvals == b.finalizedEvals + EvalIds(b.pendingEvals[..n])
        decreases |pendingEvalTasks|
      {
        TakeOne(b.pendingEvals, n);
        FinishHeadEval(s);
        ConcatAssociates(b.finalizedEvals, EvalIds(b.pendingEvals[..n]),
                         [EvalBatchId(b.pendingEvals[n].0, b.pendingEvals[n].1)]);
        n := n + 1;
      }
    }

    /** One turn of the loop over the steps. */
    method FinishStep(step: nat)
      requires step >= 1
      modifies this`finalized, this`pendingEvalTasks, this`finalizedEvals
      ensures View() == old(FinishEvals(View().(finalized := finalized + [step]), step))
    {
      ghost var b := View();
      FinishExploreStep(step);
      assert View() == b.(finalized := b.finalized + [step]);
      FinishEvalStep(Some(step));
    }

    method FinishStepRange(startStep: nat, endStep: nat)
      requires 1 <= startStep <= endStep + 1
      modifies this`finalized, this`pendingEvalTasks, this`finalizedEvals
      ensures View() == old(FinishSteps(View(), startStep, endStep))
    {
      ghost var b := View();
      var step := startStep;
      while step <= endStep
        invariant startStep <= step <= endStep + 1
        invariant FinishSteps(View(), step, endStep) == FinishSteps(b, startStep, endStep)
      {
        FinishOneStep(View(), step, endStep);
        FinishStep(step);
        step := step + 1;
      }
      FinishNoSteps(View(), step, endStep);
    }

    method FinishCurrentSteps()
      requires lastMonitoredStep <= exploreStepNum
      modifies this
      ensures View() == old(ExplorerModel.FinishCurrentSteps(View()))
    {
      FinishStepRange(lastMonitoredStep + 1, exploreStepNum);
      lastMonitoredStep := exploreStepNum;
    }

    method SaveCheckpoint()
      modifies this`checkpoints
      ensures View() == old(ExplorerModel.SaveCheckpoint(View()))
    {
      checkpoints := checkpoints + [Checkpoint(exploreStepNum, lastMonitoredStep, readCount)];
    }

    /**
     Whether to synchronize now; `trainerAsks` is the synchronizer's answer in the trainer-driven style
     with a collective transfer, None where it is not asked. A sync step finishes everything first.
     */
    method NeedSync(trainerAsks: Option<bool>) returns (sync: bool)
      requires lastMonitoredStep <= exploreStepNum && syncInterval >= 1
      modifies this
      ensures sync <==> !fullyAsync && exploreStepNum > syncOffset && (exploreStepNum - syncOffset) % syncInterval == 0
                        && trainerAsks != Some(false)
      ensures sync ==>
          !fullyAsync && View() == old(ExplorerModel.FinishCurrentSteps(View())) && lastMonitoredStep == exploreStepNum
      ensures View() == old(View()) || View() == old(ExplorerModel.FinishCurrentSteps(View()))
      ensures fullyAsync ==> View() == old(View())
    {
      if fullyAsync { return false; }
      if exploreStepNum <= syncOffset { return false; }
      if (exploreStepNum - syncOffset) % syncInterval == 0 {
        FinishCurrentSteps();
        return if trainerAsks.Some? then trainerAsks.value else true;
      }
      return false;
    }
  }

  lemma EvalSnoc(b: Books, names: seq<string>, k: nat)
    requires k < |names|
    ensures var b1 := ExplorerModel.Eval(b, names[..k]);
            ExplorerModel.Eval(b, names[..k + 1]) ==
            b1.(pendingEvals := b1.pendingEvals + [(b.step, names[k])],
               submittedEvals := b1.submittedEvals + [EvalBatchId(b.step, names[k])])
  {
    var before, one := EvalsOf(b.step, names[..k]), [(b.step, names[k])];
    assert EvalsOf(b.step, names[..k + 1]) == before + one;
    assert EvalIds(before + one) == EvalIds(before) + [EvalBatchId(b.step, names[k])];
    assert b.pendingEvals + (before + one) == (b.pendingEvals + before) + one;
    assert b.submittedEvals + (EvalIds(before) + EvalIds(one)) == (b.submittedEvals + EvalIds(before)) + EvalIds(one);
  }

  lemma FinishNoEvals(b: Books, step: nat)
    requires b.pendingEvals == []
    ensures FinishEvals(b, step) == b
  {
    assert EvalIds([]) == [];
    assert b.finalizedEvals + [] == b.finalizedEvals;
  }

  lemma TakeOne(pending: seq<(nat, string)>, n: nat)
    requires n < |pending|
    ensures pending[n..][1..] == pending[n + 1..]
    ensures EvalIds(pending[..n + 1]) == EvalIds(pending[..n]) + [EvalBatchId(pending[n].0, pending[n].1)]
  {
  }
}
