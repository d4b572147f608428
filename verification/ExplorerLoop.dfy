/**
 Runs of the explorer loop, cut at its suspension points: the background watcher of the fully asynchronous style
 may run at each of them. In the other styles nothing else runs, so finishing steps is one event there.
 */
module ExplorerLoop {
  import opened Common
  import opened BatchOrder
  import opened ExplorerModel

  datatype LoopEvent =
    | StartUp(evals: seq<string>)   // evaluation on start-up at step 0, then the first sync_weight
    | ReadsTasks                    // explore_step up to its first suspension
    | Drained                       // the oldest batch has been finalized
    | Submitted(evals: seq<string>) // the new batch has been submitted, and evals when they are due
    | SyncPoint                     // need_sync said yes: finish everything, sync, checkpoint
    | Declined                      // a sync step at which the trainer did not ask for a sync
    | WatcherSync                   // the background watcher of the fully asynchronous style
    | NoMoreTasks                   // begin to finish everything
    | StepFinished                  // one more step's train batch and evals are finalized
    | Stop

  ghost predicate CanHappen(b: Books, e: LoopEvent) {
    match e
    case StartUp(evals) => b.stage == AtLoop && b.step == 0 && b.monitored == 0 && b.pendingEvals == []
    case ReadsTasks => b.stage == AtLoop
    case Drained => b.stage.Draining?
    case Submitted(_) => b.stage == Submitting
    case SyncPoint => b.stage == AtLoop && !b.fullyAsync
    case Declined => b.stage == AtLoop && !b.fullyAsync
    case WatcherSync => b.fullyAsync
    case NoMoreTasks => b.stage == AtLoop
    case StepFinished => b.stage.Finishing? && b.stage.next <= b.step
    case Stop => b.stage.Finishing? && b.stage.next > b.step
  }

  function FinishOne(b: Books): Books
    requires b.stage.Finishing?
  {
    var n := b.stage.next;
    FinishEvals(b.(finalized := b.finalized + [n]), n).(stage := Finishing(n + 1))
  }

  ghost function Happen(b: Books, e: LoopEvent): Books
    requires CanHappen(b, e)
  {
    match e
    case StartUp(evals) => SaveCheckpoint(FinishEvals(Eval(b, evals), 0))
    case ReadsTasks => BeginStep(b)
    case Drained => DrainReturns(b)
    case Submitted(evals) => Eval(SubmitReturns(b), evals)
    case SyncPoint => SaveCheckpoint(FinishCurrentSteps(b))
    case Declined => FinishCurrentSteps(b)
    case WatcherSync => SaveCheckpoint(b)
    case NoMoreTasks => b.(stage := Finishing(b.monitored + 1))
    case StepFinished => FinishOne(b)
    case Stop => SaveCheckpoint(b.(monitored := b.step, stage := AtLoop))
  }

  /** A run; nothing follows Stop. */
  ghost predicate LoopRun(b: Books, es: seq<LoopEvent>, b': Books)
    decreases |es|
  {
    if es == [] then b' == b
    else CanHappen(b, es[0]) && (es[0].Stop? ==> |es| == 1) && LoopRun(Happen(b, es[0]), es[1..], b')
  }

  /** What stopping amounts to. */
  function ShutDown(b: Books): Books {
    SaveCheckpoint(FinishCurrentSteps(b))
  }

  lemma ThenRun(b: Books, e: LoopEvent, es: seq<LoopEvent>, b': Books)
    requires CanHappen(b, e) && !e.Stop? && LoopRun(Happen(b, e), es, b')
    ensures LoopRun(b, [e] + es, b')
  {
    assert ([e] + es)[1..] == es;
  }

  /** Where finishing the steps from n on leads. */
  function Ending(b: Books, n: nat): Books {
    SaveCheckpoint(FinishSteps(b, n, b.step).(monitored := b.step, stage := AtLoop))
  }

  lemma StopEnds(b: Books, n: nat)
    requires b.stage == Finishing(n) && n > b.step
    ensures Happen(b, Stop) == Ending(b, n)
  {
    FinishNoSteps(b, n, b.step);
  }

  lemma StepLeadsThere(b: Books, n: nat)
    requires b.stage == Finishing(n) && 1 <= n <= b.step
    ensures Ending(FinishOne(b), n + 1) == Ending(b, n)
  {
    FinishOneStep(b, n, b.step);
  }

  lemma StopRun(b: Books)
    requires CanHappen(b, Stop)
    ensures LoopRun(b, [Stop], Happen(b, Stop))
  {
    assert [Stop][1..] == [];
    assert LoopRun(Happen(b, Stop), [], Happen(b, Stop));
  }

  lemma {:induction false} FinishingIsRun(b: Books, n: nat, end: Books) returns (es: seq<LoopEvent>)
    requires b.stage == Finishing(n) && 1 <= n <= b.step + 1 && end == Ending(b, n)
    ensures LoopRun(b, es, end) && es != [] && es[|es| - 1] == Stop
    decreases b.step + 1 - n
  {
    if n > b.step {
      StopEnds(b, n);
      StopRun(b);
      es := [Stop];
    } else {
      StepLeadsThere(b, n);
      es := FinishingIsRun(FinishOne(b), n + 1, end);
      ThenRun(b, StepFinished, es, end);
      es := [StepFinished] + es;
    }
  }

  /**
   Step by step, with suspensions in between, stopping comes to ShutDown if no watcher saves a checkpoint meanwhile.
   */
  lemma ShutDownIsRun(b: Books) returns (es: seq<LoopEvent>)
    requires b.stage == AtLoop && b.monitored <= b.step
    ensures LoopRun(b, es, ShutDown(b)) && es != [] && es[|es| - 1] == Stop
  {
    var b1 := b.(stage := Finishing(b.monitored + 1));
    ShutDownIsEnding(b, b1);
    es := FinishingIsRun(b1, b.monitored + 1, ShutDown(b));
    ThenRun(b, NoMoreTasks, es, ShutDown(b));
    es := [NoMoreTasks] + es;
  }

  lemma ShutDownIsEnding(b: Books, b1: Books)
    requires b.stage == AtLoop && b1 == b.(stage := Finishing(b.monitored + 1))
    ensures Ending(b1, b.monitored + 1) == ShutDown(b)
  {
  }

  // ---- the discipline -----------------------------------------------------------------------

  /** The unfinished train batches, oldest first: being drained, in the deque, being submitted. */
  function InHand(b: Books): seq<nat> {
    match b.stage
    case Draining(oldest) => [oldest] + b.inflight + [b.step]
    case Submitting => b.inflight + [b.step]
    case _ => b.inflight
  }

  /** The last step whose train batch and evals are finalized. */
  function FinishedUpTo(b: Books): int {
    if b.stage.Finishing? then b.stage.next - 1 else b.monitored
  }

  /** Batches in the deque and the one being drained never exceed the limit. */
  ghost predicate TrainOk(start: nat, b: Books) {
    && start <= b.monitored <= FinishedUpTo(b) <= b.step
    && b.finalized == Range(start + 1, FinishedUpTo(b))
    && (b.stage.Submitting? || b.stage.Draining? ==> b.monitored < b.step)
    && (if b.fullyAsync then
          && InHand(b) == Range(b.monitored + 1, b.step)
          && |b.inflight| + (if b.stage.Draining? then 1 else 0) <= b.maxInflight
          && (b.stage.Submitting? ==> |b.inflight| < b.maxInflight)
        else b.inflight == [] && !b.stage.Draining?)
  }

  /** Evals: outside the fully asynchronous style none is older than the unfinished steps. */
  ghost predicate EvalsOk(fullyAsync: bool, step: nat, finished: int, pending: seq<(nat, string)>) {
    && InStepOrder(pending)
    && (forall i :: 0 <= i < |pending| ==> pending[i].0 <= step)
    && (!fullyAsync ==> forall i :: 0 <= i < |pending| ==> pending[i].0 > finished)
  }

  /** Checkpoints hold the scheduler's step; outside the fully asynchronous style everything up to it is finalized. */
  ghost predicate CheckpointsOk(fullyAsync: bool, cs: seq<Checkpoint>) {
    forall i :: 0 <= i < |cs| ==> cs[i].step == cs[i].readCount && (!fullyAsync ==> cs[i].monitored == cs[i].step)
  }

  ghost predicate BooksOk(start: nat, b: Books) {
    && b.readCount == b.step
    && TrainOk(start, b)
    && EvalsOk(b.fullyAsync, b.step, FinishedUpTo(b), b.pendingEvals)
    && EvalLog(b.finalizedEvals, b.pendingEvals, b.submittedEvals)
    && CheckpointsOk(b.fullyAsync, b.checkpoints)
  }

  lemma BeginKeepsBooks(start: nat, b: Books)
    requires BooksOk(start, b) && b.maxInflight >= 1 && b.stage == AtLoop
    ensures BooksOk(start, BeginStep(b))
  {
    BeginKeepsTrain(start, b);
    LaterStepKeepsEvals(b.fullyAsync, b.step, b.monitored, b.pendingEvals);
  }

  lemma BeginKeepsTrain(start: nat, b: Books)
    requires TrainOk(start, b) && b.maxInflight >= 1 && b.stage == AtLoop
    ensures TrainOk(start, BeginStep(b)) && FinishedUpTo(BeginStep(b)) == b.monitored
  {
    RangeLength(b.monitored + 1, b.step);
    if b.fullyAsync && |b.inflight| >= b.maxInflight {
      assert [b.inflight[0]] + b.inflight[1..] == b.inflight;
    }
  }

  lemma LaterStepKeepsEvals(fullyAsync: bool, step: nat, finished: int, pending: seq<(nat, string)>)
    requires EvalsOk(fullyAsync, step, finished, pending)
    ensures EvalsOk(fullyAsync, step + 1, finished, pending)
  {
  }

  lemma DrainedKeepsBooks(start: nat, b: Books)
    requires BooksOk(start, b) && b.stage.Draining?
    ensures BooksOk(start, DrainReturns(b))
  {
    RangeLength(b.monitored + 1, b.step);
    RangeFront(b.monitored + 1, b.step);
    assert InHand(b)[0] == b.stage.oldest == b.monitored + 1;
    assert InHand(b)[1..] == b.inflight + [b.step];
  }

  lemma SubmittedKeepsBooks(start: nat, b: Books)
    requires BooksOk(start, b) && b.stage == Submitting
    ensures BooksOk(start, SubmitReturns(b)) && b.step > b.monitored
  {
  }

  lemma QueueKeepsEvals(fullyAsync: bool, step: nat, finished: int, pending: seq<(nat, string)>, names: seq<string>)
    requires EvalsOk(fullyAsync, step, finished, pending)
    requires !fullyAsync && names != [] ==> step > finished
    ensures EvalsOk(fullyAsync, step, finished, pending + EvalsOf(step, names))
  {
  }

  lemma QueueKeepsLog(step: nat, pending: seq<(nat, string)>, names: seq<string>,
                      finalized: seq<BatchId>, submitted: seq<BatchId>)
    requires EvalLog(finalized, pending, submitted)
    ensures EvalLog(finalized, pending + EvalsOf(step, names), submitted + EvalIds(EvalsOf(step, names)))
  {
    var more := EvalsOf(step, names);
    EvalIdsSplit(pending + more, |pending|);
    assert (pending + more)[..|pending|] == pending && (pending + more)[|pending|..] == more;
    ConcatAssociates(finalized, EvalIds(pending), EvalIds(more));
  }

  lemma EvalKeepsLog(b: Books, names: seq<string>)
    requires EvalLog(b.finalizedEvals, b.pendingEvals, b.submittedEvals)
    ensures var b' := Eval(b, names); EvalLog(b'.finalizedEvals, b'.pendingEvals, b'.submittedEvals)
  {
    QueueKeepsLog(b.step, b.pendingEvals, names, b.finalizedEvals, b.submittedEvals);
  }

  lemma EvalKeepsBooks(start: nat, b: Books, names: seq<string>)
    requires BooksOk(start, b) && (!b.fullyAsync && names != [] ==> b.step > FinishedUpTo(b))
    ensures BooksOk(start, Eval(b, names))
  {
    QueueKeepsEvals(b.fullyAsync, b.step, FinishedUpTo(b), b.pendingEvals, names);
    EvalKeepsLog(b, names);
  }

  lemma FinishKeepsLog(finalized: seq<BatchId>, pending: seq<(nat, string)>, submitted: seq<BatchId>, start: nat,
                       end: nat)
    requires EvalLog(finalized, pending, submitted)
    ensures EvalLog(finalized + DrainedIds(pending, start, end), DrainSteps(pending, start, end), submitted)
  {
    DrainMoves(pending, start, end);
    ConcatAssociates(finalized, DrainedIds(pending, start, end), EvalIds(DrainSteps(pending, start, end)));
  }

  /** Finishing everything in one go, outside the fully asynchronous style. */
  lemma FinishKeepsBooks(start: nat, b: Books)
    requires BooksOk(start, b) && !b.fullyAsync && b.stage == AtLoop
    ensures var b' := FinishCurrentSteps(b); BooksOk(start, b') && b'.monitored == b'.step && b'.pendingEvals == []
  {
    FinishKeepsTrain(start, b);
    FinishKeepsLog(b.finalizedEvals, b.pendingEvals, b.submittedEvals, b.monitored + 1, b.step);
    EvalsDrainedIff(b.pendingEvals, b.monitored, b.step);
    assert EvalsOk(false, b.step, b.step, []);
  }

  lemma FinishKeepsTrain(start: nat, b: Books)
    requires TrainOk(start, b) && !b.fullyAsync && b.stage == AtLoop
    ensures TrainOk(start, FinishCurrentSteps(b)) && FinishCurrentSteps(b).monitored == b.step
  {
    RangeConcat(start + 1, b.monitored, b.step);
  }

  lemma StepFinishedKeepsBooks(start: nat, b: Books)
    requires BooksOk(start, b) && CanHappen(b, StepFinished)
    ensures BooksOk(start, FinishOne(b))
  {
    var n := b.stage.next;
    FinishOneKeepsTrain(start, b);
    FinishOneKeepsEvals(b.fullyAsync, b.step, n, b.pendingEvals);
    TakenEvalsMove(b.finalizedEvals, b.pendingEvals, HeadEvals(b.pendingEvals, n), b.submittedEvals);
  }

  lemma FinishOneKeepsTrain(start: nat, b: Books)
    requires TrainOk(start, b) && CanHappen(b, StepFinished)
    ensures TrainOk(start, FinishOne(b)) && FinishedUpTo(FinishOne(b)) == b.stage.next
  {
    var n := b.stage.next;
    assert Range(start + 1, n) == Range(start + 1, n - 1) + [n];
  }

  lemma FinishOneKeepsEvals(fullyAsync: bool, step: nat, n: nat, pending: seq<(nat, string)>)
    requires EvalsOk(fullyAsync, step, n - 1, pending)
    ensures EvalsOk(fullyAsync, step, n, pending[HeadEvals(pending, n)..])
  {
    if !fullyAsync { HeadEvalsTakesAll(pending, n); }
  }

  lemma CheckpointKeepsBooks(start: nat, b: Books)
    requires BooksOk(start, b) && (!b.fullyAsync ==> b.monitored == b.step)
    ensures BooksOk(start, SaveCheckpoint(b))
  {
  }

  lemma {:induction false} HeadEvalsOfOneStep(pending: seq<(nat, string)>, step: nat)
    requires forall i :: 0 <= i < |pending| ==> pending[i].0 == step
    ensures HeadEvals(pending, step) == |pending|
  {
    if pending != [] { HeadEvalsOfOneStep(pending[1..], step); }
  }

  /** Evaluation on start-up is finalized by the first sync_weight, whose step 0 falls back to the current step. */
  lemma StartUpKeepsBooks(start: nat, b: Books, evals: seq<string>)
    requires BooksOk(start, b) && CanHappen(b, StartUp(evals))
    ensures BooksOk(start, Happen(b, StartUp(evals)))
  {
    var b1 := Eval(b, evals);
    assert b1.pendingEvals == EvalsOf(0, evals);
    HeadEvalsOfOneStep(b1.pendingEvals, 0);
    EvalKeepsLog(b, evals);
    TakenEvalsMove(b1.finalizedEvals, b1.pendingEvals, |b1.pendingEvals|, b1.submittedEvals);
    assert FinishEvals(b1, 0).pendingEvals == [];
  }

  lemma EventKeepsBooks(start: nat, b: Books, e: LoopEvent)
    requires BooksOk(start, b) && b.maxInflight >= 1 && CanHappen(b, e) && !e.Stop?
    ensures BooksOk(start, Happen(b, e))
  {
    match e
    case StartUp(evals) => StartUpKeepsBooks(start, b, evals);
    case ReadsTasks => BeginKeepsBooks(start, b);
    case Drained => DrainedKeepsBooks(start, b);
    case Submitted(evals) => SubmittedKeepsBooks(start, b); EvalKeepsBooks(start, SubmitReturns(b), evals);
    case SyncPoint => FinishKeepsBooks(start, b); CheckpointKeepsBooks(start, FinishCurrentSteps(b));
    case Declined => FinishKeepsBooks(start, b);
    case WatcherSync => CheckpointKeepsBooks(start, b);
    case NoMoreTasks =>
    case StepFinished => StepFinishedKeepsBooks(start, b);
  }

  lemma EventKeepsStyle(b: Books, e: LoopEvent)
    requires CanHappen(b, e)
    ensures var b' := Happen(b, e); b'.maxInflight == b.maxInflight && b'.fullyAsync == b.fullyAsync
  {
  }

  lemma {:induction false} RunKeepsBooks(start: nat, b: Books, es: seq<LoopEvent>, b': Books)
    requires BooksOk(start, b) && b.maxInflight >= 1 && LoopRun(b, es, b')
    requires forall i :: 0 <= i < |es| ==> !es[i].Stop?
    ensures BooksOk(start, b') && b'.maxInflight == b.maxInflight && b'.fullyAsync == b.fullyAsync
    decreases |es|
  {
    if es != [] {
      EventKeepsBooks(start, b, es[0]);
      EventKeepsStyle(b, es[0]);
      RunKeepsBooks(start, Happen(b, es[0]), es[1..], b');
    }
  }

  lemma ResumeIsOk(fullyAsync: bool, maxInflight: nat, start: nat)
    ensures BooksOk(start, Resume(fullyAsync, maxInflight, start))
  {
    RangeLength(start + 1, start);
  }

  ghost predicate Reachable(fullyAsync: bool, maxInflight: nat, start: nat, b: Books) {
    exists es: seq<LoopEvent> ::
      LoopRun(Resume(fullyAsync, maxInflight, start), es, b) && forall i :: 0 <= i < |es| ==> !es[i].Stop?
  }

  lemma ReachableBooks(fullyAsync: bool, maxInflight: nat, start: nat, b: Books)
    requires maxInflight >= 1 && Reachable(fullyAsync, maxInflight, start, b)
    ensures BooksOk(start, b) && b.maxInflight == maxInflight && b.fullyAsync == fullyAsync
  {
    var es: seq<LoopEvent> :|
      LoopRun(Resume(fullyAsync, maxInflight, start), es, b) && forall i :: 0 <= i < |es| ==> !es[i].Stop?;
    ResumeIsOk(fullyAsync, maxInflight, start);
    RunKeepsBooks(start, Resume(fullyAsync, maxInflight, start), es, b);
  }

  /**
   At every suspension point up to the end of the run: train batches are finalized once each, in order, without
   gaps; in the fully asynchronous style the one being drained, the deque and the one being submitted are exactly
   the unfinished ones, those already submitted never more than the limit; in the others no finalized step leaves
   an eval behind and every checkpoint is at a fully finalized step. In every style a checkpoint's step is the
   taskset scheduler's step.
   */
  lemma FinalizationDiscipline(fullyAsync: bool, maxInflight: nat, start: nat, b: Books)
    requires maxInflight >= 1 && Reachable(fullyAsync, maxInflight, start, b)
    ensures b.finalized == Range(start + 1, FinishedUpTo(b)) && b.monitored <= FinishedUpTo(b) <= b.step
    ensures fullyAsync ==>
              && InHand(b) == Range(b.monitored + 1, b.step)
              && |InHand(b)| - (if b.stage.Draining? || b.stage.Submitting? then 1 else 0) <= maxInflight
    ensures !fullyAsync ==> forall i :: 0 <= i < |b.pendingEvals| ==> b.pendingEvals[i].0 > FinishedUpTo(b)
    ensures b.finalizedEvals + EvalIds(b.pendingEvals) == b.submittedEvals
    ensures forall i :: 0 <= i < |b.checkpoints| ==>
              && b.checkpoints[i].step == b.checkpoints[i].readCount
              && (!fullyAsync ==> b.checkpoints[i].monitored == b.checkpoints[i].step)
  {
    ReachableBooks(fullyAsync, maxInflight, start, b);
  }

  /** The events that end in save_checkpoint. */
  predicate Saves(e: LoopEvent) {
    e.StartUp? || e.SyncPoint? || e.WatcherSync? || e.Stop?
  }

  /** Each of these leaves exactly one more checkpoint, of the state it leaves, and nothing else does. */
  lemma CheckpointsWhenDue(b: Books, e: LoopEvent)
    requires CanHappen(b, e)
    ensures var b' := Happen(b, e);
            b'.checkpoints
            == b.checkpoints + if Saves(e) then [Checkpoint(b'.step, b'.monitored, b'.readCount)] else []
  {
  }

  /**
   Between the iterations of the fully asynchronous loop, the deque is exactly last_monitored_step + 1 up to
   explore_step_num.
   */
  lemma DequeAtLoop(maxInflight: nat, start: nat, b: Books)
    requires maxInflight >= 1 && Reachable(true, maxInflight, start, b) && b.stage == AtLoop
    ensures b.inflight == Range(b.monitored + 1, b.step) && |b.inflight| <= maxInflight
  {
    FinalizationDiscipline(true, maxInflight, start, b);
  }

  lemma QueuedEvalIsUnfinished(step: nat, finished: int, pending: seq<(nat, string)>)
    requires EvalsOk(false, step, finished, pending) && pending != []
    ensures finished < step
  {
    assert pending[0].0 <= step;
  }

  /** At the end every submitted train batch is finalized, and outside the fully asynchronous style every eval too. */
  lemma EverythingIsFinalizedAtStop(fullyAsync: bool, maxInflight: nat, start: nat, b: Books)
    requires maxInflight >= 1 && Reachable(fullyAsync, maxInflight, start, b) && CanHappen(b, Stop)
    ensures var e := Happen(b, Stop);
            && e.finalized == Range(start + 1, b.step) && e.monitored == e.step
            && (!fullyAsync ==> e.finalizedEvals == e.submittedEvals && e.pendingEvals == [])
  {
    ReachableBooks(fullyAsync, maxInflight, start, b);
    if !fullyAsync {
      if b.pendingEvals != [] { QueuedEvalIsUnfinished(b.step, FinishedUpTo(b), b.pendingEvals); }
      assert b.finalizedEvals + EvalIds([]) == b.finalizedEvals;
    }
  }

  /** If an eval older than the unfinished steps heads the queue, stopping finalizes no eval at all. */
  lemma StopLeavesOldEvals(b: Books)
    requires b.pendingEvals != [] && b.pendingEvals[0].0 <= b.monitored
    ensures ShutDown(b).pendingEvals == b.pendingEvals && ShutDown(b).finalizedEvals == b.finalizedEvals
  {
    StepsLeaveOldEvals(b, b.monitored + 1, b.step);
  }

  lemma StepsLeaveOldEvals(b: Books, start: nat, end: nat)
    requires b.pendingEvals != [] && b.pendingEvals[0].0 < start
    ensures FinishSteps(b, start, end).pendingEvals == b.pendingEvals
    ensures FinishSteps(b, start, end).finalizedEvals == b.finalizedEvals
  {
    OldEvalBlocks(b.pendingEvals, start, end);
    assert b.finalizedEvals + [] == b.finalizedEvals;
  }

  /** The whole of explore_step, seen by nobody: its events one after the other. */
  lemma WholeStep(b: Books, evals: seq<string>, es: seq<LoopEvent>, b': Books) returns (fs: seq<LoopEvent>)
    requires b.stage == AtLoop && LoopRun(Eval(ExploreStep(b), evals), es, b')
    requires forall i :: 0 <= i < |es| ==> !es[i].Stop?
    ensures LoopRun(b, fs, b') && forall i :: 0 <= i < |fs| ==> !fs[i].Stop?
  {
    var b1 := BeginStep(b);
    if b1.stage.Draining? {
      ThenRun(DrainReturns(b1), Submitted(evals), es, b');
      ThenRun(b1, Drained, [Submitted(evals)] + es, b');
      fs := [Drained] + ([Submitted(evals)] + es);
    } else {
      ThenRun(b1, Submitted(evals), es, b');
      fs := [Submitted(evals)] + es;
    }
    ThenRun(b, ReadsTasks, fs, b');
    fs := [ReadsTasks] + fs;
  }

  /** After the first step, with an eval submitted, and after the second, when the first batch has been drained. */
  function AfterOne(name: string): Books {
    Books(true, 1, 1, 0, [1], [(1, name)], 1, AtLoop, [], [], [EvalBatchId(1, name)], [])
  }

  function AfterTwo(name: string): Books {
    Books(true, 1, 2, 1, [2], [(1, name)], 2, AtLoop, [1], [], [EvalBatchId(1, name)], [])
  }

  lemma AfterTwoIsReachable(name: string) returns (b: Books)
    ensures Reachable(true, 1, 0, b) && b.stage == AtLoop && b.step == b.monitored + 1 == 2 && b.finalized == [1]
    ensures b.pendingEvals == [(1, name)] && b.submittedEvals == [EvalBatchId(1, name)]
  {
    b := AfterTwo(name);
    FirstIteration(name);
    SecondIteration(name);
    assert LoopRun(AfterTwo(name), [], AfterTwo(name));
    var es := WholeStep(AfterOne(name), [], [], AfterTwo(name));
    var fs := WholeStep(Resume(true, 1, 0), [name], es, AfterTwo(name));
  }

  lemma ShutDownAfterOneMore(b: Books)
    requires b.step == b.monitored + 1 && b.pendingEvals != [] && b.pendingEvals[0].0 <= b.monitored
    ensures ShutDown(b).finalized == b.finalized + [b.step] && ShutDown(b).pendingEvals == b.pendingEvals
  {
    StopLeavesOldEvals(b);
    RangeLength(b.monitored + 1, b.step);
  }

  /** A run from b on that stops with both train batches finalized, and the eval submitted and not finalized. */
  ghost predicate StopsWithoutEval(b: Books, es: seq<LoopEvent>, end: Books, name: string) {
    && LoopRun(b, es, end) && es != [] && es[|es| - 1] == Stop && end.finalized == [1, 2]
    && end.pendingEvals == [(1, name)] && end.submittedEvals == [EvalBatchId(1, name)]
  }

  lemma StopAfterOneMore(b: Books) returns (es: seq<LoopEvent>, end: Books)
    requires b.stage == AtLoop && b.step == b.monitored + 1 && b.pendingEvals != []
        && b.pendingEvals[0].0 <= b.monitored
    ensures LoopRun(b, es, end) && es != [] && es[|es| - 1] == Stop
    ensures end.finalized == b.finalized + [b.step]
    ensures end.pendingEvals == b.pendingEvals && end.submittedEvals == b.submittedEvals
  {
    ShutDownAfterOneMore(b);
    es := ShutDownIsRun(b);
    end := ShutDown(b);
  }

  /** In the fully asynchronous style an eval batch can be left behind for good, together with all later ones. */
  lemma AsyncEvalLeftBehind(name: string)
    ensures exists b, es, end :: Reachable(true, 1, 0, b) && StopsWithoutEval(b, es, end, name)
  {
    var b := AfterTwoIsReachable(name);
    var es, end := StopAfterOneMore(b);
    assert b.finalized + [b.step] == [1, 2];
    assert StopsWithoutEval(b, es, end, name);
  }

  lemma FirstIteration(name: string)
    ensures Eval(ExploreStep(Resume(true, 1, 0)), [name]) == AfterOne(name)
  {
    assert EvalsOf(1, [name]) == [(1, name)];
    assert EvalIds([(1, name)]) == [EvalBatchId(1, name)];
  }

  lemma SecondIteration(name: string)
    ensures Eval(ExploreStep(AfterOne(name)), []) == AfterTwo(name)
  {
    assert EvalsOf(2, []) == [] && EvalIds([]) == [];
  }
}
