/**
 Explorer and trainer in the fixed style with equal intervals and NCCL transfer, from a fresh start:
 which model version the rollouts of a batch use, and that the two loops never block each other.
 The rendezvous itself is the machine of module Rendezvous.
 */
module Staleness {
  import opened Rendezvous

  datatype World = World(
    interval: nat, offset: nat,
    pair: Pair,
    // explorer
    exploreStep: nat,            // explore_step_num: batches submitted
    monitored: nat,              // last_monitored_step: batches finalized
    modelVersion: int,
    explorerMustSync: bool,      // the loop is at a sync: finalize what is in flight, then call
    // trainer (its step number is pair.step)
    lastSync: int,
    trainerMustSync: bool,       // the start-up sync is still to come
    // history
    rollouts: seq<(nat, int)>)   // (batch, version) of every rollout so far

  function FreshStart(interval: nat, offset: nat): World {
    World(interval, offset, Start(0), 0, 0, -1, true, 0, true, [])
  }

  /** Explorer.need_sync, after step n. */
  predicate ExplorerNeedsSync(w: World, n: nat)
    requires w.interval > 0
  {
    n > w.offset && (n - w.offset) % w.interval == 0
  }

  /** Trainer.need_sync, or the start-up sync. */
  predicate TrainerNeedsSync(w: World)
    requires w.interval > 0
  {
    w.trainerMustSync || (w.lastSync != w.pair.step && w.pair.step % w.interval == 0)
  }

  datatype Act =
    | Explore               // read tasks, submit the next batch, decide whether to sync
    | Rollout(batch: nat)   // a run of a batch in flight generates with the current weights
    | FinalizeOne           // at a sync: the oldest batch in flight is finalized and reaches the buffer
    | ExplorerSync          // sync_weight calls the synchronizer
    | TrainStep             // one train batch is available and consumed
    | TrainerSync
    | Synchronize(m: Move)  // steps inside the two calls, and the transfer

  ghost predicate CanAct(w: World, a: Act) {
    && w.interval > 0
    && match a
       case Explore => w.pair.explorer.Working? && !w.explorerMustSync
       case Rollout(s) => w.monitored < s <= w.exploreStep
       case FinalizeOne => w.pair.explorer.Working? && w.explorerMustSync && w.monitored < w.exploreStep
       case ExplorerSync => w.pair.explorer.Working? && w.explorerMustSync && w.monitored == w.exploreStep
       case TrainStep => w.pair.trainer.Working? && !TrainerNeedsSync(w) && w.pair.step < w.monitored
       case TrainerSync => w.pair.trainer.Working? && TrainerNeedsSync(w)
       case Synchronize(m) =>
         && CanMove(w.pair, m)
         && (m.TrainerGetsLock? || m.TrainerWakes? || m.ExplorerGetsLock? || m.ExplorerWakes? || m.TransferWeights?
             || m.OthersNotify?)
  }

  /** The explorer adopts the version its call returned; both loops go on after the transfer. */
  function Adopt(w: World, p: Pair): World {
    w.(pair := p,
       modelVersion := if p.explorer.Transferring? then p.explorer.version else w.modelVersion,
       explorerMustSync := w.explorerMustSync && !(w.pair.explorer.Transferring? && p.explorer.Working?),
       lastSync := if w.pair.trainer.Transferring? && p.trainer.Working? then p.step else w.lastSync,
       trainerMustSync := w.trainerMustSync && !(w.pair.trainer.Transferring? && p.trainer.Working?))
  }

  function Step(w: World, a: Act): World
    requires CanAct(w, a)
  {
    match a
    case Explore =>
      w.(exploreStep := w.exploreStep + 1, explorerMustSync := ExplorerNeedsSync(w, w.exploreStep + 1))
    case Rollout(s) => w.(rollouts := w.rollouts + [(s, w.modelVersion)])
    case FinalizeOne => w.(monitored := w.monitored + 1)
    case ExplorerSync => w.(pair := After(w.pair, ExplorerCalls))
    case TrainStep => w.(pair := After(w.pair, Train(w.pair.step + 1)))
    case TrainerSync => w.(pair := After(w.pair, TrainerCalls))
    case Synchronize(m) => Adopt(w, After(w.pair, m))
  }

  /** The version batch s is generated with. */
  function VersionFor(interval: nat, offset: nat, s: nat): int
    requires interval > 0 && s >= 1
  {
    if s - 1 < offset then 0 else interval * ((s - 1 - offset) / interval)
  }

  // ---- the schedule of the syncs ------------------------------------------------------------

  /** The explorer's step at its j-th sync (the 0-th is the one at start-up). */
  function ExploreStepAt(w: World, j: nat): nat {
    if j == 0 then 0 else w.offset + w.interval * j
  }

  /** Syncs the explorer has behind it: those returned, minus the one it is transferring for. */
  function ExplorerDone(w: World): int {
    |w.pair.explorerSyncs| - if w.pair.explorer.Transferring? then 1 else 0
  }

  function TrainerDone(w: World): int {
    |w.pair.trainerSyncs| - if w.pair.trainer.Transferring? then 1 else 0
  }

  ghost predicate ExplorerOk(w: World)
    requires ExplorerDone(w) >= 0
  {
    var j := ExplorerDone(w);
    && (w.explorerMustSync ==> w.exploreStep == ExploreStepAt(w, j))
    && (!w.explorerMustSync ==>
          (w.pair.explorer.Working? && j >= 1 && ExploreStepAt(w, j - 1) <= w.exploreStep < ExploreStepAt(w, j)))
    && (if j == 0 then w.monitored == 0 else ExploreStepAt(w, j - 1) <= w.monitored)
    && (!w.explorerMustSync ==> w.monitored == ExploreStepAt(w, j - 1))
    && w.monitored <= w.exploreStep
    && (!w.pair.explorer.Working? ==> w.explorerMustSync && w.monitored == w.exploreStep)
    && w.modelVersion == (if w.pair.explorerSyncs == [] then -1 else w.interval * (|w.pair.explorerSyncs| - 1))
  }

  ghost predicate TrainerOk(w: World)
    requires TrainerDone(w) >= 0
  {
    var k := TrainerDone(w);
    && (w.trainerMustSync <==> k == 0)
    && (k == 0 ==> w.pair.step == 0 && w.lastSync == 0)
    && (k >= 1 ==> w.lastSync == w.interval * (k - 1) && w.lastSync <= w.pair.step <= w.interval * k)
    && (!w.pair.trainer.Working? ==> w.pair.step == w.interval * k)
  }

  ghost predicate VersionsOk(w: World) {
    && (forall i :: 0 <= i < |w.pair.trainerSyncs| ==> w.pair.trainerSyncs[i] == w.interval * i)
    && (forall i :: 0 <= i < |w.pair.explorerSyncs| ==> w.pair.explorerSyncs[i] == w.interval * i)
  }

  ghost predicate RolloutsOk(w: World)
    requires w.interval > 0
  {
    forall i :: 0 <= i < |w.rollouts| ==>
      w.rollouts[i].0 >= 1 && w.rollouts[i].1 == VersionFor(w.interval, w.offset, w.rollouts[i].0)
  }

  ghost predicate Going(x: Pair) {
    PairInv(x) && !x.trainer.Halted? && !x.explorer.Halted?
  }

  ghost predicate WorldInv(w: World) {
    && w.interval > 0 && Going(w.pair)
    && ExplorerDone(w) >= 0 && TrainerDone(w) >= 0
    && ExplorerOk(w) && TrainerOk(w) && VersionsOk(w) && RolloutsOk(w)
  }

  // ---- arithmetic of the schedule -----------------------------------------------------------

  lemma MulStep(i: nat, j: int)
    ensures i * (j + 1) == i * j + i
  {
  }

  /** Between two consecutive multiples there is no other one. */
  lemma NextMultiple(i: nat, q: int, n: int)
    requires i > 0 && q >= 1 && i * (q - 1) < n <= i * q
    ensures n % i == 0 <==> n == i * q
  {
    MulStep(i, q - 1);
    if n == i * q {
      assert n % i == 0 by { MulMod(i, q); }
    } else {
      var r := n - i * (q - 1);
      assert 0 < r < i;
      DivModOf(i, q - 1, r);
    }
  }

  lemma MulMod(i: nat, q: int)
    requires i > 0 && q >= 0
    ensures (i * q) % i == 0
  {
    DivModOf(i, q, 0);
  }

  lemma {:induction false} DivModOf(i: nat, q: int, r: int)
    requires i > 0 && q >= 0 && 0 <= r < i
    ensures (i * q + r) / i == q && (i * q + r) % i == r
    decreases q
  {
    if q > 0 {
      DivModOf(i, q - 1, r);
      MulStep(i, q - 1);
      var a := i * (q - 1) + r;
      assert i * q + r == a + i;
      AddOnePeriod(a, i);
    }
  }

  lemma AddOnePeriod(a: int, i: nat)
    requires i > 0
    ensures (a + i) / i == a / i + 1 && (a + i) % i == a % i
  {
    var d := (a + i) / i - a / i - 1;
    assert i * d == a % i - (a + i) % i by {
      assert a == i * (a / i) + a % i;
      assert a + i == i * ((a + i) / i) + (a + i) % i;
      Distribute(i, (a + i) / i, a / i);
    }
    SmallMultipleIsZero(i, d);
  }

  lemma Distribute(i: int, p: int, q: int)
    ensures i * (p - q - 1) == i * p - i * q - i
  {
  }

  lemma SmallMultipleIsZero(i: int, d: int)
    requires -i < i * d < i
    ensures d == 0
  {
    MultiplesAreApart(i, d);
  }

  lemma MultiplesAreApart(i: int, d: int)
    requires i > 0
    ensures d >= 1 ==> i * d >= i
    ensures d <= -1 ==> i * d <= -i
  {
  }

  /** Batches submitted between the (j-1)-th and the j-th sync use version interval * (j - 1). */
  lemma VersionBetweenSyncs(w: World, j: int, s: nat)
    requires w.interval > 0 && j >= 1 && ExploreStepAt(w, j - 1) < s <= ExploreStepAt(w, j)
    ensures VersionFor(w.interval, w.offset, s) == w.interval * (j - 1)
  {
    MulStep(w.interval, j - 1);
    if s - 1 >= w.offset {
      var r := s - 1 - w.offset - w.interval * (j - 1);
      if j == 1 {
        assert w.interval * (j - 1) == 0;
        DivModOf(w.interval, 0, r);
      } else {
        DivModOf(w.interval, j - 1, r);
      }
    }
  }

  /** The loop stops for its j-th sync exactly at the scheduled step. */
  lemma SyncStep(w: World, j: int, n: nat)
    requires w.interval > 0 && j >= 1 && ExploreStepAt(w, j - 1) < n <= ExploreStepAt(w, j)
    ensures ExplorerNeedsSync(w, n) <==> n == ExploreStepAt(w, j)
  {
    MulStep(w.interval, j - 1);
    if n > w.offset {
      NextMultiple(w.interval, j, n - w.offset);
    } else {
      assert w.interval * j >= w.interval;
    }
  }

  // ---- preservation -------------------------------------------------------------------------

  ghost predicate IsSyncMove(m: Move) {
    m.TrainerGetsLock? || m.TrainerWakes? || m.ExplorerGetsLock? || m.ExplorerWakes? || m.OthersNotify?
  }

  /** Inside the calls nobody becomes free to work, and each list of syncs grows only by the trainer's step. */
  lemma SyncMoveEffect(x: Pair, m: Move)
    requires Going(x) && CanMove(x, m) && IsSyncMove(m)
    ensures var y := After(x, m);
            && Going(y) && y.step == x.step
            && (x.trainer.Working? <==> y.trainer.Working?) && (x.explorer.Working? <==> y.explorer.Working?)
            && (x.trainer.Transferring? ==> y.trainer.Transferring?)
            && (x.explorer.Transferring? ==> y.explorer.Transferring?)
            && (if y.trainer.Transferring? && !x.trainer.Transferring? then y.trainerSyncs == x.trainerSyncs + [x.step]
                else y.trainerSyncs == x.trainerSyncs)
            && (if y.explorer.Transferring? && !x.explorer.Transferring?
                then y.explorerSyncs == x.explorerSyncs + [x.step] && y.explorer.version == x.step && Arrived(x.trainer)
                else y.explorerSyncs == x.explorerSyncs)
            && (y.explorer.Transferring? && x.explorer.Transferring? ==> y.explorer == x.explorer)
  {
    PairInvStep(x, m);
    SuccessReturnsTrainerStep(x, m);
    FailureMeansPeerStopped(x, m);
  }

  lemma TransferEffect(x: Pair)
    requires Going(x) && CanMove(x, TransferWeights)
    ensures var y := After(x, TransferWeights);
            && Going(y) && y.trainer.Working? && y.explorer.Working? && y.step == x.step
            && y.trainerSyncs == x.trainerSyncs && y.explorerSyncs == x.explorerSyncs
            && x.trainerSyncs == x.explorerSyncs
  {
    PairInvStep(x, TransferWeights);
  }

  /** Both sides are in their j-th call, so the trainer's step is the scheduled version. */
  lemma SameRound(w: World)
    requires WorldInv(w)
    ensures Arrived(w.pair.trainer) && Arrived(w.pair.explorer) ==>
              ExplorerDone(w) == TrainerDone(w) && w.pair.step == w.interval * TrainerDone(w)
    ensures !Arrived(w.pair.trainer) || !Arrived(w.pair.explorer) ==> ExplorerDone(w) == TrainerDone(w)
  {
  }

  lemma SyncMoveKeepsInv(w: World, m: Move)
    requires WorldInv(w) && CanMove(w.pair, m) && IsSyncMove(m)
    ensures WorldInv(Adopt(w, After(w.pair, m)))
  {
    SyncMoveEffect(w.pair, m);
    SameRound(w);
    var w' := Adopt(w, After(w.pair, m));
    assert ExplorerDone(w') == ExplorerDone(w) && TrainerDone(w') == TrainerDone(w);
    assert TrainerOk(w');
    assert w'.explorerMustSync == w.explorerMustSync;
    AdoptKeepsExplorer(w, w');
    AdoptKeepsVersions(w, w');
  }

  lemma AdoptKeepsVersions(w: World, w': World)
    requires VersionsOk(w) && w'.interval == w.interval
    requires w'.pair.trainerSyncs == w.pair.trainerSyncs
          || (w'.pair.trainerSyncs == w.pair.trainerSyncs + [w.pair.step]
              && w.pair.step == w.interval * |w.pair.trainerSyncs|)
    requires w'.pair.explorerSyncs == w.pair.explorerSyncs
          || (w'.pair.explorerSyncs == w.pair.explorerSyncs + [w.pair.step]
              && w.pair.step == w.interval * |w.pair.explorerSyncs|)
    ensures VersionsOk(w')
  {
  }

  lemma AdoptKeepsExplorer(w: World, w': World)
    requires w.interval > 0 && ExplorerDone(w) >= 0 && ExplorerDone(w') == ExplorerDone(w) && ExplorerOk(w)
    requires w'.interval == w.interval && w'.offset == w.offset && w'.exploreStep == w.exploreStep
        && w'.monitored == w.monitored
    requires w'.explorerMustSync == w.explorerMustSync && (w'.pair.explorer.Working? <==> w.pair.explorer.Working?)
    requires if w'.pair.explorerSyncs == w.pair.explorerSyncs then w'.modelVersion == w.modelVersion
             else
               && |w'.pair.explorerSyncs| == |w.pair.explorerSyncs| + 1
               && w'.modelVersion == w.interval * |w.pair.explorerSyncs|
    ensures ExplorerOk(w')
  {
  }

  lemma TransferKeepsInv(w: World)
    requires WorldInv(w) && CanMove(w.pair, TransferWeights)
    ensures WorldInv(Adopt(w, After(w.pair, TransferWeights)))
  {
    TransferEffect(w.pair);
    SameRound(w);
    var w' := Adopt(w, After(w.pair, TransferWeights));
    var j := ExplorerDone(w);
    assert ExplorerDone(w') == j + 1 && TrainerDone(w') == j + 1;
    MulStep(w.interval, j);
    MulStep(w.interval, j + 1);
    assert w'.interval * j <= w'.pair.step <= w'.interval * (j + 1);
    assert ExploreStepAt(w', j) == w'.exploreStep < ExploreStepAt(w', j + 1);
    assert ExplorerOk(w') && TrainerOk(w') && VersionsOk(w');
  }

  lemma ExploreKeepsInv(w: World)
    requires WorldInv(w) && CanAct(w, Explore)
    ensures WorldInv(Step(w, Explore))
  {
    var j := ExplorerDone(w);
    SyncStep(w, j, w.exploreStep + 1);
    var w' := Step(w, Explore);
    assert ExplorerOk(w');
  }

  lemma RolloutKeepsInv(w: World, s: nat)
    requires WorldInv(w) && CanAct(w, Rollout(s))
    ensures WorldInv(Step(w, Rollout(s)))
  {
    var j := ExplorerDone(w);
    assert w.monitored < w.exploreStep;
    VersionBetweenSyncs(w, j, s);
    assert w.modelVersion == w.interval * (j - 1);
    var w' := Step(w, Rollout(s));
    assert RolloutsOk(w');
  }

  lemma TrainerStepKeepsInv(w: World, a: Act)
    requires WorldInv(w) && CanAct(w, a) && (a.TrainStep? || a.TrainerSync?)
    ensures WorldInv(Step(w, a))
  {
    var k := TrainerDone(w);
    if a.TrainStep? {
      PairInvStep(w.pair, Train(w.pair.step + 1));
      MulMod(w.interval, k);
      MulStep(w.interval, k - 1);
      assert w.pair.step != w.interval * k;
      assert TrainerOk(Step(w, a));
    } else {
      PairInvStep(w.pair, TrainerCalls);
      assert !AllStopped(w.pair.sync) by { ExplorerIsCounted(w.pair); }
      if k >= 1 && w.pair.step != w.interval * k {
        MulStep(w.interval, k - 1);
        NextMultiple(w.interval, k, w.pair.step);
      }
      assert TrainerOk(Step(w, a));
    }
  }

  lemma ExplorerIsCounted(x: Pair)
    requires Going(x)
    ensures !AllStopped(x.sync)
  {
    var e := x.sync.explorers;
    assert CountedAs(e, Rendezvous.Running) ==> CountOf(e, Rendezvous.Running) == 1 && CountOf(e, RequireSync) == 0;
    assert CountedAs(e, RequireSync) ==> CountOf(e, RequireSync) == 1 && CountOf(e, Rendezvous.Running) == 0;
  }

  lemma ExplorerSyncKeepsInv(w: World)
    requires WorldInv(w) && CanAct(w, ExplorerSync)
    ensures WorldInv(Step(w, ExplorerSync))
  {
    PairInvStep(w.pair, ExplorerCalls);
    ExplorerIsCounted(w.pair);
  }

  lemma WorldInvStep(w: World, a: Act)
    requires WorldInv(w) && CanAct(w, a)
    ensures WorldInv(Step(w, a))
  {
    match a
    case Explore => ExploreKeepsInv(w);
    case Rollout(s) => RolloutKeepsInv(w, s);
    case FinalizeOne =>
    case ExplorerSync => ExplorerSyncKeepsInv(w);
    case TrainStep => TrainerStepKeepsInv(w, a);
    case TrainerSync => TrainerStepKeepsInv(w, a);
    case Synchronize(m) => if m.TransferWeights? { TransferKeepsInv(w); } else { SyncMoveKeepsInv(w, m); }
  }

  ghost predicate History(w: World, acts: seq<Act>, w': World)
    decreases |acts|
  {
    if acts == [] then w' == w
    else CanAct(w, acts[0]) && History(Step(w, acts[0]), acts[1..], w')
  }

  lemma {:induction false} HistoryKeepsInv(w: World, acts: seq<Act>, w': World)
    requires WorldInv(w) && History(w, acts, w')
    ensures WorldInv(w') && w'.interval == w.interval && w'.offset == w.offset
    decreases |acts|
  {
    if acts != [] {
      WorldInvStep(w, acts[0]);
      HistoryKeepsInv(Step(w, acts[0]), acts[1..], w');
    }
  }

  // ---- the two results ----------------------------------------------------------------------

  /** Batch s is generated with version interval * max(0, floor((s-1-offset)/interval)), so its lag is bounded. */
  lemma BoundedStaleness(interval: nat, offset: nat, acts: seq<Act>, w: World, i: nat)
    requires interval > 0 && History(FreshStart(interval, offset), acts, w) && i < |w.rollouts|
    ensures var (s, version) := w.rollouts[i];
            && s >= 1 && version == VersionFor(interval, offset, s)
            && 0 <= (s - 1) - version <= offset + interval - 1
  {
    FreshIsGood(interval, offset);
    HistoryKeepsInv(FreshStart(interval, offset), acts, w);
    assert RolloutsOk(w);
    VersionLag(interval, offset, w.rollouts[i].0);
  }

  lemma VersionLag(interval: nat, offset: nat, s: nat)
    requires interval > 0 && s >= 1
    ensures 0 <= (s - 1) - VersionFor(interval, offset, s) <= offset + interval - 1
  {
    if s - 1 >= offset {
      var d := s - 1 - offset;
      assert d == interval * (d / interval) + d % interval;
    }
  }

  lemma FreshIsGood(interval: nat, offset: nat)
    requires interval > 0
    ensures WorldInv(FreshStart(interval, offset))
  {
  }

  /** In every reachable state one of the two loops, or the transfer, can go on. */
  lemma NoDeadlock(interval: nat, offset: nat, acts: seq<Act>, w: World)
    requires interval > 0 && History(FreshStart(interval, offset), acts, w)
    ensures exists a :: CanAct(w, a) && !a.Rollout? && a != Synchronize(OthersNotify)
  {
    FreshIsGood(interval, offset);
    HistoryKeepsInv(FreshStart(interval, offset), acts, w);
    NoMutualWait(w.pair);
    SameRound(w);
    var x := w.pair;
    if x.explorer.Working? {
      if !w.explorerMustSync { assert CanAct(w, Explore); }
      else if w.monitored < w.exploreStep { assert CanAct(w, FinalizeOne); }
      else { assert CanAct(w, ExplorerSync); }
    } else if x.explorer.Calling? {
      assert CanAct(w, Synchronize(ExplorerGetsLock));
    } else if x.explorer.Waiting? && x.explorer.woken {
      assert CanAct(w, Synchronize(ExplorerWakes));
    } else if x.explorer.Transferring? {
      if x.trainer.Transferring? { assert CanAct(w, Synchronize(TransferWeights)); }
      else { assert CanAct(w, Synchronize(TrainerWakes)); }
    } else if x.trainer.Calling? {
      assert CanAct(w, Synchronize(TrainerGetsLock));
    } else {
      WaitingExplorerIsServed(w);
    }
  }

  /** While the explorer sleeps, everything it submitted is in the buffer: enough data up to the trainer's sync. */
  lemma WaitingExplorerIsServed(w: World)
    requires WorldInv(w) && w.pair.explorer == Waiting(false) && w.pair.trainer.Working?
    ensures CanAct(w, TrainerSync) || CanAct(w, TrainStep)
  {
    SameRound(w);
    var k := TrainerDone(w);
    if !TrainerNeedsSync(w) {
      MulMod(w.interval, k);
      assert k >= 1 && w.pair.step < w.interval * k by {
        if w.pair.step == w.interval * k { MulStep(w.interval, k - 1); }
      }
      assert w.monitored == ExploreStepAt(w, k);
    }
  }
}
