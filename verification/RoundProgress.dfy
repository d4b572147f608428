/** Progress of the two loops: a bounded number of their own steps completes the current round of syncs. */
module RoundProgress {
  import opened Rendezvous
  import opened Staleness

  /** How far a side is from the end of its call; a wake-up sets it back by one. */
  function CallLeft(p: Proc): nat {
    match p
    case Working => 5
    case Calling => 4
    case Waiting(woken) => if woken then 3 else 2
    case Transferring(_) => 1
    case Halted => 0
    case Crashed => 0
  }

  /** The steps still to be made before the transfer of the current round. */
  ghost function Left(w: World): (n: int)
    requires ExplorerDone(w) >= 0
  {
    var goal := ExploreStepAt(w, ExplorerDone(w));
    (goal - w.exploreStep) + (goal - w.monitored) + CallLeft(w.pair.explorer)
    + (w.interval * TrainerDone(w) - w.pair.step) + CallLeft(w.pair.trainer)
  }

  /** The notifications of others and the rollouts do not count as progress. */
  predicate IsProgress(a: Act) { !a.Rollout? && a != Synchronize(OthersNotify) }

  function ProgressIn(acts: seq<Act>): nat {
    if acts == [] then 0 else (if IsProgress(acts[0]) then 1 else 0) + ProgressIn(acts[1..])
  }

  function NotifiesIn(acts: seq<Act>): nat {
    if acts == [] then 0 else (if acts[0] == Synchronize(OthersNotify) then 1 else 0) + NotifiesIn(acts[1..])
  }

  /** At most both intervals' worth of batches, the offset twice, and ten steps of the two calls. */
  lemma LeftIsBounded(w: World)
    requires WorldInv(w)
    ensures 0 <= Left(w) <= 2 * w.offset + 3 * w.interval + 10
  {
    var j, k := ExplorerDone(w), TrainerDone(w);
    if j > 0 { MulStep(w.interval, j - 1); }
    if k > 0 { MulStep(w.interval, k - 1); }
  }

  lemma SyncMoveLeft(x: Pair, m: Move)
    requires Going(x) && CanMove(x, m) && IsSyncMove(m)
    ensures var y := After(x, m);
            if m.OthersNotify?
                then CallLeft(y.trainer) + CallLeft(y.explorer) <= CallLeft(x.trainer) + CallLeft(x.explorer) + 2
            else CallLeft(y.trainer) + CallLeft(y.explorer) < CallLeft(x.trainer) + CallLeft(x.explorer)
  {
    SyncMoveEffect(x, m);
  }

  lemma CallLeftDrops(x: Pair)
    requires Going(x)
    ensures x.trainer.Working? ==> CallLeft(After(x, TrainerCalls).trainer) == 4
    ensures x.explorer.Working? ==> CallLeft(After(x, ExplorerCalls).explorer) == 4
  {
  }

  /** Every step but the transfer brings the transfer nearer, and the transfer completes the round. */
  lemma StepProgresses(w: World, a: Act)
    requires WorldInv(w) && CanAct(w, a)
    ensures var w' := Step(w, a);
            && WorldInv(w')
            && (if a == Synchronize(TransferWeights) then
                  ExplorerDone(w') == ExplorerDone(w) + 1 && TrainerDone(w') == TrainerDone(w) + 1
                else
                  && ExplorerDone(w') == ExplorerDone(w) && TrainerDone(w') == TrainerDone(w)
                  && Left(w') <= Left(w)
                      + (if a == Synchronize(OthersNotify) then 2 else if IsProgress(a) then -1 else 0))
  {
    WorldInvStep(w, a);
    CallLeftDrops(w.pair);
    if a.Synchronize? {
      if a.m.TransferWeights? { TransferEffect(w.pair); } else {
        SyncMoveEffect(w.pair, a.m);
        SyncMoveLeft(w.pair, a.m);
      }
    }
  }

  lemma {:induction false} WithoutTransfer(w: World, acts: seq<Act>, w': World)
    requires WorldInv(w) && History(w, acts, w') && Synchronize(TransferWeights) !in acts
    ensures WorldInv(w') && ProgressIn(acts) + Left(w') <= Left(w) + 2 * NotifiesIn(acts)
    decreases |acts|
  {
    if acts != [] {
      StepProgresses(w, acts[0]);
      WithoutTransfer(Step(w, acts[0]), acts[1..], w');
    }
  }

  lemma {:induction false} TransfersCompleteRounds(w: World, acts: seq<Act>, w': World)
    requires WorldInv(w) && History(w, acts, w')
    ensures WorldInv(w') && ExplorerDone(w') >= ExplorerDone(w) && TrainerDone(w') >= TrainerDone(w)
    ensures Synchronize(TransferWeights) in acts ==>
              ExplorerDone(w') > ExplorerDone(w) && TrainerDone(w') > TrainerDone(w)
    decreases |acts|
  {
    if acts != [] {
      StepProgresses(w, acts[0]);
      TransfersCompleteRounds(Step(w, acts[0]), acts[1..], w');
      assert acts == [acts[0]] + acts[1..];
    }
  }

  /**
   From every reachable state on, whatever the two loops do: more than 2 * offset + 3 * interval + 10 steps of
   theirs, and two more for each notification from elsewhere, complete the current round on both sides.
   */
  lemma RoundsComplete(interval: nat, offset: nat, before: seq<Act>, w: World, acts: seq<Act>, w': World)
    requires interval > 0 && History(FreshStart(interval, offset), before, w) && History(w, acts, w')
    requires ProgressIn(acts) > 2 * offset + 3 * interval + 10 + 2 * NotifiesIn(acts)
    ensures ExplorerDone(w') > ExplorerDone(w) >= 0 && TrainerDone(w') > TrainerDone(w) >= 0
  {
    FreshIsGood(interval, offset);
    HistoryKeepsInv(FreshStart(interval, offset), before, w);
    TransfersCompleteRounds(w, acts, w');
    LeftIsBounded(w);
    if Synchronize(TransferWeights) !in acts {
      WithoutTransfer(w, acts, w');
      LeftIsBounded(w');
    }
  }
}
