/** The WorkflowRunner: executing the runs of a sub-task one by one or side by side, and collecting their results. */
module WorkflowRunner {
  import opened Common
  import opened RunResults

  /** runner_state: the run being executed and whether it has ended. */
  datatype RunnerState = RunnerState(run: Option<nat>, terminated: bool)

  class WorkflowRunner {
    var runnerState: RunnerState

    constructor ()
      ensures runnerState == RunnerState(None, false)
    {
      runnerState := RunnerState(None, false);
    }

    /** `outcome` is what the workflow does; its experiences are labelled when the results are aggregated. */
    method ExecuteSingleRun<B>(outcome: Outcome<B>, runIndex: nat) returns (r: RunResult<B>)
      modifies this
      ensures r == RunResult(runIndex, outcome)
      ensures runnerState == RunnerState(Some(runIndex), true)
    {
      runnerState := RunnerState(Some(runIndex), false);
      runnerState := runnerState.(terminated := true);
      return RunResult(runIndex, outcome);
    }

    method AggregateRunResults<B>(totalRuns: nat, base: nat, results: seq<RunResult<B>>, say: (nat, string) -> string)
      returns (status: Status, exps: seq<Exp<B>>)
      ensures status == StatusOf(totalRuns, results, say) && exps == Experiences(base, results)
    {
      exps := [];
      var completedRuns, firstError := 0, None;
      for i := 0 to |results|
        invariant exps == Experiences(base, results[..i])
        invariant completedRuns == Completed(results[..i]) && firstError == FirstError(results[..i])
      {
        assert results[..i + 1][..i] == results[..i];
        match results[i].outcome {
          case Finished(_) =>
            exps := exps + Label(base, results[i]);
            completedRuns := completedRuns + 1;
          case Raised(e) =>
            if firstError == None { firstError := Some(e); }
        }
      }
      assert results[..|results|] == results;
      status := Status(completedRuns, totalRuns, Message(completedRuns, firstError, say));
    }

    /** One run after the other; without partial collection the first failure ends it. */
    method SequentialRun<B>(outcomes: seq<Outcome<B>>, base: nat, collectPartialRuns: bool,
                            say: (nat, string) -> string)
      returns (status: Status, exps: seq<Exp<B>>)
      modifies this
      ensures var rs := InOrder(outcomes, Executed(outcomes, collectPartialRuns));
              status == StatusOf(|outcomes|, rs, say) && exps == Experiences(base, rs)
      ensures status.completedRuns <= status.totalRuns == |outcomes|
    {
      var results := [];
      var i := 0;
      while i < |outcomes|
        invariant 0 <= i <= |outcomes| && results == InOrder(outcomes, i)
        invariant collectPartialRuns || forall k :: 0 <= k < i ==> outcomes[k].Finished?
      {
        var result := ExecuteSingleRun(outcomes[i], i);
        results := results + [result];
        i := i + 1;
        if !collectPartialRuns && result.outcome.Raised? {
          StopsHere(outcomes, i);
          break;
        }
      }
      if i == |outcomes| && !collectPartialRuns { RunsToTheEnd(outcomes); }
      assert i == Executed(outcomes, collectPartialRuns);
      assert results == InOrder(outcomes, i);
      StatusIsHonest(outcomes, results, say);
      status, exps := AggregateRunResults(|outcomes|, base, results, say);
    }

    /** The waiting loop: runs complete in any order; a failure cancels what is still pending. */
    method RunUntilFailure<B>(outcomes: seq<Outcome<B>>) returns (found: seq<RunResult<B>>)
      modifies this
      ensures ResultsOf(outcomes, found)
      ensures |found| < |outcomes| ==> SomeFailed(found)
    {
      found := [];
      var pending: set<nat> := Below(|outcomes|);
      var shouldStop := false;
      while pending != {}
        invariant Remaining(outcomes, found, pending)
        invariant shouldStop ==> SomeFailed(found)
        decreases |pending|
      {
        var i: nat :| i in pending;
        var result := ExecuteSingleRun(outcomes[i], i);
        OneCompletes(outcomes, found, pending, i);
        pending := pending - {i};
        found := found + [result];
        if result.outcome.Raised? { shouldStop := true; }
        // Runs that completed together with a failed one are still collected.
        if shouldStop {
          if * { break; }
        }
      }
    }

    /**
     All runs side by side. With partial collection the results come in order; without it they come as
     runs complete, in whatever order and grouping, and a failure cancels what is still pending.
     */
    method RunParallelRuns<B>(outcomes: seq<Outcome<B>>, base: nat, collectPartialRuns: bool,
                              say: (nat, string) -> string)
      returns (status: Status, exps: seq<Exp<B>>, ghost results: seq<RunResult<B>>)
      modifies this
      ensures ResultsOf(outcomes, results)
      ensures status == StatusOf(|outcomes|, results, say) && exps == Experiences(base, results)
      ensures collectPartialRuns ==> results == InOrder(outcomes, |outcomes|)
      ensures |results| < |outcomes| ==> SomeFailed(results)
      ensures status.completedRuns <= status.totalRuns == |outcomes|
    {
      var found: seq<RunResult<B>> := [];
      if collectPartialRuns {
        for i := 0 to |outcomes|
          invariant found == InOrder(outcomes, i)
        {
          var result := ExecuteSingleRun(outcomes[i], i);
          found := found + [result];
        }
      } else {
        found := RunUntilFailure(outcomes);
      }
      results := found;
      StatusIsHonest(outcomes, found, say);
      status, exps := AggregateRunResults(|outcomes|, base, found, say);
    }
  }

  ghost predicate SomeFailed<B>(rs: seq<RunResult<B>>) {
    exists k :: 0 <= k < |rs| && rs[k].outcome.Raised?
  }

  /** The runs still pending are exactly those without a result. */
  ghost predicate Remaining<B>(outcomes: seq<Outcome<B>>, found: seq<RunResult<B>>, pending: set<nat>) {
    && ResultsOf(outcomes, found)
    && (forall x :: x in pending ==> x < |outcomes| && x !in IndexSet(found))
    && |pending| + |found| == |outcomes|
  }

  lemma OneCompletes<B>(outcomes: seq<Outcome<B>>, found: seq<RunResult<B>>, pending: set<nat>, i: nat)
    requires Remaining(outcomes, found, pending) && i in pending
    ensures var found' := found + [RunResult(i, outcomes[i])];
            && Remaining(outcomes, found', pending - {i})
            && (outcomes[i].Raised? || SomeFailed(found) ==> SomeFailed(found'))
  {
    IndexSetSnoc(found, RunResult(i, outcomes[i]));
    ResultsSnoc(outcomes, found, i);
  }

  lemma IndexSetSnoc<B>(found: seq<RunResult<B>>, r: RunResult<B>)
    ensures IndexSet(found + [r]) == IndexSet(found) + {r.index}
    ensures SomeFailed(found + [r]) <==> SomeFailed(found) || r.outcome.Raised?
  {
    var found' := found + [r];
    assert found'[|found|] == r;
    assert forall k :: 0 <= k < |found| ==> found'[k] == found[k];
    assert forall x :: x in found' <==> x in found || x == r;
  }

  lemma ResultsSnoc<B>(outcomes: seq<Outcome<B>>, found: seq<RunResult<B>>, i: nat)
    requires ResultsOf(outcomes, found) && i < |outcomes| && i !in IndexSet(found)
    ensures ResultsOf(outcomes, found + [RunResult(i, outcomes[i])])
  {
    assert forall k :: 0 <= k < |found| ==> found[k].index in IndexSet(found);
  }

  lemma StopsHere<B>(outcomes: seq<Outcome<B>>, n: nat)
    requires 0 < n <= |outcomes| && outcomes[n - 1].Raised?
    requires forall k :: 0 <= k < n - 1 ==> outcomes[k].Finished?
    ensures Executed(outcomes, false) == n
  {
    ExecutedStopsAtFailure(outcomes);
  }

  lemma RunsToTheEnd<B>(outcomes: seq<Outcome<B>>)
    requires forall k :: 0 <= k < |outcomes| - 1 ==> outcomes[k].Finished?
    ensures Executed(outcomes, false) == |outcomes|
  {
    ExecutedStopsAtFailure(outcomes);
  }
}
