/**
 The weight-sync rendezvous of one trainer and one explorer at the synchronizer. Each call of
 ready_to_nccl_sync is cut at its suspension points; the condition variable is a lock with a wait
 set, and the weight transfer is a barrier both sides pass before they go on.
 */
module Rendezvous {
  import opened Common

  datatype Status = Running | RequireSync | Stopped

  /** The synchronizer's fields that the rendezvous uses. */
  datatype Sync = Sync(trainer: Status, explorers: map<Status, int>, version: int)

  function CountOf(explorers: map<Status, int>, s: Status): int {
    if s in explorers then explorers[s] else 0
  }

  /** set_explorer_status with an old status; None when one of its assertions fails. */
  function MoveExplorer(explorers: map<Status, int>, from: Status, to: Status): Option<map<Status, int>> {
    if from !in explorers || from == to || explorers[from] - 1 < 0 then None
    else
      var left := explorers[from := explorers[from] - 1];
      Some(left[to := CountOf(left, to) + 1])
  }

  /** How a stretch of the call ends: with a result (None is the "not ready" answer), waiting, or an assertion. */
  datatype Outcome = Returns(sync: Sync, result: Option<int>) | Waits(sync: Sync) | Raises

  function FailTrainer(s: Sync): Outcome {
    Returns(s.(trainer := Running), None)
  }

  function FailExplorer(s: Sync): Outcome {
    match MoveExplorer(s.explorers, RequireSync, Running)
    case None => Raises
    case Some(e) => Returns(s.(explorers := e), None)
  }

  /** The check before the lock is taken: no explorer is left. */
  predicate AllStopped(s: Sync) {
    CountOf(s.explorers, Running) + CountOf(s.explorers, RequireSync) == 0
  }

  predicate TrainerMayGo(s: Sync) {
    CountOf(s.explorers, RequireSync) + CountOf(s.explorers, Stopped) == 1
  }

  predicate ExplorerMayGo(s: Sync) {
    s.trainer != Running
  }

  /** The trainer's end of the call: it clears the explorer's request. */
  function TrainerSucceeds(s: Sync): Outcome {
    match MoveExplorer(s.explorers, RequireSync, Running)
    case None => Raises
    case Some(e) => Returns(s.(explorers := e), Some(s.version))
  }

  /** After the wait, and when the predicate already holds. */
  function TrainerProceeds(s: Sync): Outcome {
    if CountOf(s.explorers, Stopped) == 1 then FailTrainer(s) else TrainerSucceeds(s)
  }

  /** With the lock: publish the version and the request, then wait unless the explorer is there. */
  function TrainerEnters(s: Sync, step: int): Outcome {
    var s1 := s.(version := step, trainer := RequireSync);
    if CountOf(s1.explorers, RequireSync) == 1 then TrainerSucceeds(s1)
    else if TrainerMayGo(s1) then TrainerProceeds(s1)
    else Waits(s1)
  }

  /** The explorer's end of the call: it clears the trainer's request. */
  function ExplorerSucceeds(s: Sync): Outcome {
    Returns(s.(trainer := Running), Some(s.version))
  }

  function ExplorerProceeds(s: Sync): Outcome {
    if s.trainer == Stopped then FailExplorer(s) else ExplorerSucceeds(s)
  }

  function ExplorerEnters(s: Sync): Outcome {
    match MoveExplorer(s.explorers, Running, RequireSync)
    case None => Raises
    case Some(e) =>
      var s1 := s.(explorers := e);
      if s1.trainer == RequireSync then ExplorerSucceeds(s1)
      else if ExplorerMayGo(s1) then ExplorerProceeds(s1)
      else Waits(s1)
  }

  // ---- the two-party machine ----------------------------------------------------------------

  /** Calling: before the lock. Waiting: in the wait set, woken or not. Transferring: at the barrier. */
  datatype Proc = Working | Calling | Waiting(woken: bool) | Transferring(version: int) | Halted | Crashed

  datatype Pair = Pair(
    sync: Sync, trainer: Proc, explorer: Proc,
    step: int,                 // the trainer's step number
    calledAt: int,             // its value at the latest trainer call
    trainerSyncs: seq<int>,    // versions returned to the trainer, in order
    explorerSyncs: seq<int>)   // versions returned to the explorer, in order

  function Start(step: int): Pair {
    Pair(Sync(Running, map[Running := 1], 0), Working, Working, step, step, [], [])
  }

  datatype Move =
    | Train(step: int)
    | TrainerCalls | TrainerGetsLock | TrainerWakes | TrainerTimesOut | TrainerStops
    | ExplorerCalls | ExplorerGetsLock | ExplorerWakes | ExplorerTimesOut | ExplorerStops
    | TransferWeights
    | OthersNotify            // another method of the synchronizer notifies the condition

  ghost predicate CanMove(x: Pair, m: Move) {
    match m
    case Train(step) => x.trainer.Working?
    case TrainerCalls => x.trainer.Working?
    case TrainerGetsLock => x.trainer.Calling?
    case TrainerWakes => x.trainer == Waiting(true)
    case TrainerTimesOut => x.trainer.Waiting?
    case TrainerStops => x.trainer.Working?
    case ExplorerCalls => x.explorer.Working?
    case ExplorerGetsLock => x.explorer.Calling?
    case ExplorerWakes => x.explorer == Waiting(true)
    case ExplorerTimesOut => x.explorer.Waiting?
    case ExplorerStops => x.explorer.Working?
    case TransferWeights => x.trainer.Transferring? && x.explorer.Transferring?
    case OthersNotify => true
  }

  function Wake(p: Proc): Proc {
    if p.Waiting? then Waiting(true) else p
  }

  function TrainerGets(x: Pair, o: Outcome): Pair {
    match o
    case Returns(s, Some(v)) => x.(sync := s, trainer := Transferring(v), trainerSyncs := x.trainerSyncs + [v])
    case Returns(s, None) => x.(sync := s, trainer := Working)
    case Waits(s) => x.(sync := s, trainer := Waiting(false))
    case Raises => x.(trainer := Crashed)
  }

  function ExplorerGets(x: Pair, o: Outcome): Pair {
    match o
    case Returns(s, Some(v)) => x.(sync := s, explorer := Transferring(v), explorerSyncs := x.explorerSyncs + [v])
    case Returns(s, None) => x.(sync := s, explorer := Working)
    case Waits(s) => x.(sync := s, explorer := Waiting(false))
    case Raises => x.(explorer := Crashed)
  }

  function After(x: Pair, m: Move): Pair
    requires CanMove(x, m)
  {
    match m
    case Train(step) => x.(step := step)
    case TrainerCalls =>
      if AllStopped(x.sync) then TrainerGets(x.(calledAt := x.step), FailTrainer(x.sync))
      else x.(trainer := Calling, calledAt := x.step)
    case TrainerGetsLock => TrainerGets(x.(explorer := Wake(x.explorer)), TrainerEnters(x.sync, x.calledAt))
    case TrainerWakes =>
      if TrainerMayGo(x.sync) then TrainerGets(x, TrainerProceeds(x.sync)) else x.(trainer := Waiting(false))
    case TrainerTimesOut => TrainerGets(x, FailTrainer(x.sync))
    case TrainerStops => x.(sync := x.sync.(trainer := Stopped), trainer := Halted, explorer := Wake(x.explorer))
    case ExplorerCalls =>
      if AllStopped(x.sync) then ExplorerGets(x, FailExplorer(x.sync)) else x.(explorer := Calling)
    case ExplorerGetsLock => ExplorerGets(x.(trainer := Wake(x.trainer)), ExplorerEnters(x.sync))
    case ExplorerWakes =>
      if ExplorerMayGo(x.sync) then ExplorerGets(x, ExplorerProceeds(x.sync)) else x.(explorer := Waiting(false))
    case ExplorerTimesOut => ExplorerGets(x, FailExplorer(x.sync))
    case ExplorerStops =>
      (match MoveExplorer(x.sync.explorers, Running, Stopped)
       case None => x.(explorer := Crashed)
       case Some(e) => x.(sync := x.sync.(explorers := e), explorer := Halted, trainer := Wake(x.trainer)))
    case TransferWeights => x.(trainer := Working, explorer := Working)
    case OthersNotify => x.(trainer := Wake(x.trainer), explorer := Wake(x.explorer))
  }

  // ---- what always holds --------------------------------------------------------------------

  /** The explorer is counted exactly once, under s. */
  ghost predicate CountedAs(explorers: map<Status, int>, s: Status) {
    && s in explorers
    && forall t :: CountOf(explorers, t) == if t == s then 1 else 0
  }

  ghost predicate Arrived(p: Proc) { p.Waiting? || p.Transferring? }

  /** One case for every way the two calls can overlap. */
  ghost predicate PairInv(x: Pair) {
    && !x.trainer.Crashed? && !x.explorer.Crashed?
    && (x.trainer.Halted? <==> x.sync.trainer == Stopped)
    && (x.trainer.Calling? || Arrived(x.trainer) ==> x.calledAt == x.step)
    && (x.explorer.Halted? ==> CountedAs(x.sync.explorers, Stopped))
    && (!Arrived(x.trainer) && !x.trainer.Halted? ==> x.sync.trainer == Running)
    && (!Arrived(x.explorer) && !x.explorer.Halted? ==> CountedAs(x.sync.explorers, Running))
    && if !Arrived(x.trainer) && !Arrived(x.explorer) then
         x.trainerSyncs == x.explorerSyncs
       else if !Arrived(x.explorer) then          // the trainer is first, or the explorer is gone
         && x.trainer.Waiting? && x.sync.trainer == RequireSync && x.sync.version == x.calledAt
         && (x.explorer.Halted? ==> x.trainer.woken)
         && x.trainerSyncs == x.explorerSyncs
       else if !Arrived(x.trainer) then           // the explorer is first, or the trainer is gone
         && x.explorer.Waiting? && CountedAs(x.sync.explorers, RequireSync)
         && (x.trainer.Halted? ==> x.explorer.woken)
         && x.trainerSyncs == x.explorerSyncs
       else if x.trainer.Waiting? then            // the explorer came second and has returned
         && x.trainer.woken && x.explorer == Transferring(x.calledAt)
         && x.sync.version == x.calledAt && x.sync.trainer == Running && CountedAs(x.sync.explorers, RequireSync)
         && x.explorerSyncs == x.trainerSyncs + [x.calledAt]
       else if x.explorer.Waiting? then           // the trainer came second and has returned
         && x.explorer.woken && x.trainer == Transferring(x.calledAt)
         && x.sync.version == x.calledAt && x.sync.trainer == RequireSync && CountedAs(x.sync.explorers, Running)
         && x.trainerSyncs == x.explorerSyncs + [x.calledAt]
       else                                       // both have returned
         && x.trainer == Transferring(x.calledAt) && x.explorer == Transferring(x.calledAt)
         && x.sync.trainer == Running && CountedAs(x.sync.explorers, Running)
         && x.trainerSyncs == x.explorerSyncs && x.trainerSyncs != []
         && x.trainerSyncs[|x.trainerSyncs| - 1] == x.calledAt
  }

  /** A timeout is harmless unless the peer has already returned successfully. */
  ghost predicate Harmless(x: Pair, m: Move) {
    && (m.TrainerTimesOut? ==> !x.explorer.Transferring?)
    && (m.ExplorerTimesOut? ==> !x.trainer.Transferring?)
  }

  lemma MoveOnce(e: map<Status, int>, from: Status, to: Status)
    requires CountedAs(e, from) && from != to
    ensures MoveExplorer(e, from, to).Some? && CountedAs(MoveExplorer(e, from, to).value, to)
  {
    assert CountOf(e, from) == 1 && CountOf(e, to) == 0;
    var left := e[from := 0];
    assert MoveExplorer(e, from, to) == Some(left[to := 1]);
    assert CountOf(e, Running) + CountOf(e, RequireSync) + CountOf(e, Stopped) == 1;
  }

  lemma PairInvStep(x: Pair, m: Move)
    requires PairInv(x) && CanMove(x, m) && Harmless(x, m)
    ensures PairInv(After(x, m))
  {
    var e := x.sync.explorers;
    if CountedAs(e, Running) {
      MoveOnce(e, Running, RequireSync);
      MoveOnce(e, Running, Stopped);
    }
    if CountedAs(e, RequireSync) { MoveOnce(e, RequireSync, Running); }
  }

  // ---- runs ---------------------------------------------------------------------------------

  ghost predicate Play(x: Pair, ms: seq<Move>, x': Pair)
    decreases |ms|
  {
    if ms == [] then x' == x
    else CanMove(x, ms[0]) && Harmless(x, ms[0]) && Play(After(x, ms[0]), ms[1..], x')
  }

  lemma {:induction false} PlayKeepsInv(x: Pair, ms: seq<Move>, x': Pair)
    requires PairInv(x) && Play(x, ms, x')
    ensures PairInv(x')
    decreases |ms|
  {
    if ms != [] {
      PairInvStep(x, ms[0]);
      PlayKeepsInv(After(x, ms[0]), ms[1..], x');
    }
  }

  /** Successful calls pair up: the k-th success of either side returned the same version. */
  ghost predicate Agreement(x: Pair) {
    && (forall k :: 0 <= k < |x.trainerSyncs| && k < |x.explorerSyncs| ==> x.trainerSyncs[k] == x.explorerSyncs[k])
    && -1 <= |x.trainerSyncs| - |x.explorerSyncs| <= 1
    && (|x.trainerSyncs| != |x.explorerSyncs| ==> x.trainer.Transferring? || x.explorer.Transferring?)
  }

  /** In every run whose timeouts are harmless (none at all, for one) the calls agree and no assertion fails. */
  lemma RendezvousAgreement(step: int, ms: seq<Move>, x: Pair)
    requires Play(Start(step), ms, x)
    ensures PairInv(x) && Agreement(x) && !x.trainer.Crashed? && !x.explorer.Crashed?
  {
    PlayKeepsInv(Start(step), ms, x);
  }

  /**
   The version both sides get is the trainer's step at its call, and the barrier is never passed by one side alone.
   */
  lemma SuccessReturnsTrainerStep(x: Pair, m: Move)
    requires PairInv(x) && CanMove(x, m) && Harmless(x, m)
    ensures var x' := After(x, m);
            && (x'.trainerSyncs != x.trainerSyncs ==>
                x'.trainerSyncs == x.trainerSyncs + [x.step] && x'.trainer == Transferring(x.step))
            && (x'.explorerSyncs != x.explorerSyncs ==>
                x'.explorerSyncs == x.explorerSyncs + [x.step] && x'.explorer == Transferring(x.step))
  {
    PairInvStep(x, m);
  }

  /** A call answers "not ready" only when the peer has stopped, or on its own timeout. */
  lemma FailureMeansPeerStopped(x: Pair, m: Move)
    requires PairInv(x) && CanMove(x, m) && Harmless(x, m)
    requires !m.TrainerTimesOut? && !m.ExplorerTimesOut? && !m.TransferWeights?
    ensures !x.trainer.Working? && After(x, m).trainer.Working? ==> x.explorer.Halted?
    ensures !x.explorer.Working? && After(x, m).explorer.Working? ==> x.trainer.Halted?
  {
    PairInvStep(x, m);
  }

  /** A side that is about to call finds both requests cleared, except for the one of a peer already waiting. */
  lemma StatusesAreResetBeforeNextCall(x: Pair)
    requires PairInv(x)
    ensures x.trainer.Working? && x.explorer.Working? ==>
              x.sync.trainer == Running && CountedAs(x.sync.explorers, Running)
    ensures x.trainer.Working? ==> x.sync.trainer == Running
    ensures x.explorer.Working? ==> CountedAs(x.sync.explorers, Running)
  {
  }

  /**
   Never both wait; who sleeps waits for a peer that can still come; and no wake-up is lost: when the
   awaited condition holds the sleeper has been woken, and then it gets through.
   */
  lemma NoMutualWait(x: Pair)
    requires PairInv(x)
    ensures !(x.trainer.Waiting? && x.explorer.Waiting?)
    ensures x.trainer.Waiting? && TrainerMayGo(x.sync) ==> x.trainer.woken && !After(x, TrainerWakes).trainer.Waiting?
    ensures x.explorer.Waiting? && ExplorerMayGo(x.sync) ==>
        x.explorer.woken && !After(x, ExplorerWakes).explorer.Waiting?
    ensures x.trainer.Waiting? && !TrainerMayGo(x.sync) ==> x.explorer.Working? || x.explorer.Calling?
    ensures x.explorer.Waiting? && !ExplorerMayGo(x.sync) ==> x.trainer.Working? || x.trainer.Calling?
    ensures x.trainer.Transferring? ==>
        x.explorer.Transferring? || (x.explorer == Waiting(true) && ExplorerMayGo(x.sync))
    ensures x.explorer.Transferring? ==> x.trainer.Transferring? || (x.trainer == Waiting(true) && TrainerMayGo(x.sync))
  {
    var e := x.sync.explorers;
    if CountedAs(e, RequireSync) { MoveOnce(e, RequireSync, Running); }
    assert CountedAs(e, Stopped) ==> CountOf(e, Stopped) == 1 && CountOf(e, RequireSync) == 0;
    assert CountedAs(e, RequireSync) ==> CountOf(e, Stopped) == 0 && CountOf(e, RequireSync) == 1;
    assert CountedAs(e, Running) ==> CountOf(e, Stopped) == 0 && CountOf(e, RequireSync) == 0;
  }

  /** Once both have called, a few steps of their own bring both through, whichever got the lock first. */
  lemma BothCallsComplete(x: Pair)
    requires PairInv(x) && x.trainer.Calling? && x.explorer.Calling?
    ensures var x1 := After(x, TrainerGetsLock);
            var x2 := After(x1, ExplorerGetsLock);
            && x1.trainer == Waiting(false) && x2.trainer == Waiting(true)
            && x2.explorer == Transferring(x.step) && After(x2, TrainerWakes).trainer == Transferring(x.step)
    ensures var x1 := After(x, ExplorerGetsLock);
            var x2 := After(x1, TrainerGetsLock);
            && x1.explorer == Waiting(false) && x2.explorer == Waiting(true)
            && x2.trainer == Transferring(x.step) && After(x2, ExplorerWakes).explorer == Transferring(x.step)
  {
    var e := x.sync.explorers;
    MoveOnce(e, Running, RequireSync);
    var e1 := MoveExplorer(e, Running, RequireSync).value;
    MoveOnce(e1, RequireSync, Running);
    assert CountOf(e, RequireSync) == 0 && CountOf(e, Stopped) == 0;
    assert CountOf(e1, RequireSync) == 1 && CountOf(e1, Stopped) == 0;
  }

  /** The explorer alone at the barrier, its version on no trainer's list, and its request never cleared. */
  ghost predicate LeftAlone(x: Pair) {
    && x.trainer.Working? && x.explorer.Transferring?
    && |x.explorerSyncs| == |x.trainerSyncs| + 1 && CountOf(x.sync.explorers, RequireSync) == 1
  }

  /**
   A timeout is safe exactly when the peer has not returned successfully yet. Otherwise the trainer's leaves the
   explorer alone at the barrier, and the explorer's fails the assertion of the status change.
   */
  lemma TimeoutIsSafeIff(x: Pair, m: Move)
    requires PairInv(x) && CanMove(x, m) && (m.TrainerTimesOut? || m.ExplorerTimesOut?)
    ensures PairInv(After(x, m)) <==> Harmless(x, m)
    ensures m.TrainerTimesOut? ==> (LeftAlone(After(x, m)) <==> !Harmless(x, m))
    ensures m.ExplorerTimesOut? ==> (After(x, m).explorer.Crashed? <==> !Harmless(x, m))
  {
    if Harmless(x, m) {
      PairInvStep(x, m);
    } else if m.ExplorerTimesOut? {
      assert CountOf(x.sync.explorers, RequireSync) == 0;
    } else {
      assert CountOf(x.sync.explorers, RequireSync) == 1;
    }
  }

  lemma ThenPlay(x: Pair, m: Move, ms: seq<Move>, x': Pair)
    requires CanMove(x, m) && Harmless(x, m) && Play(After(x, m), ms, x')
    ensures Play(x, [m] + ms, x')
  {
    assert ([m] + ms)[1..] == ms;
  }

  lemma BothCall(step: int) returns (x: Pair)
    ensures x == After(After(Start(step), TrainerCalls), ExplorerCalls)
    ensures PairInv(x) && x.trainer.Calling? && x.explorer.Calling? && x.step == step
  {
    PairInvStep(Start(step), TrainerCalls);
    PairInvStep(After(Start(step), TrainerCalls), ExplorerCalls);
    x := After(After(Start(step), TrainerCalls), ExplorerCalls);
  }

  /** With the lock in this order the explorer returns first, and the trainer is woken but has not resumed. */
  lemma ExplorerReturnsFirst(x: Pair) returns (x': Pair)
    requires PairInv(x) && x.trainer.Calling? && x.explorer.Calling?
    ensures Play(x, [TrainerGetsLock] + ([ExplorerGetsLock] + []), x') && PairInv(x')
    ensures x'.trainer == Waiting(true) && x'.explorer == Transferring(x.step)
  {
    BothCallsComplete(x);
    var x1 := After(x, TrainerGetsLock);
    x' := After(x1, ExplorerGetsLock);
    PairInvStep(x, TrainerGetsLock);
    PairInvStep(x1, ExplorerGetsLock);
    ThenPlay(x1, ExplorerGetsLock, [], x');
    ThenPlay(x, TrainerGetsLock, [ExplorerGetsLock] + [], x');
  }

  const EXPLORER_RETURNS_FIRST: seq<Move> :=
    [TrainerCalls] + ([ExplorerCalls] + ([TrainerGetsLock] + ([ExplorerGetsLock] + [])))

  /** From the start: the trainer's timer fires just after the explorer succeeded, who is left alone at the barrier. */
  lemma TimeoutRace(step: int)
    ensures exists x ::
              && Play(Start(step), EXPLORER_RETURNS_FIRST, x) && CanMove(x, TrainerTimesOut)
              && LeftAlone(After(x, TrainerTimesOut)) && After(x, TrainerTimesOut).explorer == Transferring(step)
  {
    var x2 := BothCall(step);
    var x4 := ExplorerReturnsFirst(x2);
    var ending := [TrainerGetsLock] + ([ExplorerGetsLock] + []);
    ThenPlay(After(Start(step), TrainerCalls), ExplorerCalls, ending, x4);
    ThenPlay(Start(step), TrainerCalls, [ExplorerCalls] + ending, x4);
    TimeoutIsSafeIff(x4, TrainerTimesOut);
  }

  /** With the lock in the other order the trainer returns first, and the explorer is woken but has not resumed. */
  lemma TrainerReturnsFirst(x: Pair) returns (x': Pair)
    requires PairInv(x) && x.trainer.Calling? && x.explorer.Calling?
    ensures Play(x, [ExplorerGetsLock] + ([TrainerGetsLock] + []), x') && PairInv(x')
    ensures x'.explorer == Waiting(true) && x'.trainer == Transferring(x.step)
  {
    BothCallsComplete(x);
    var x1 := After(x, ExplorerGetsLock);
    x' := After(x1, TrainerGetsLock);
    PairInvStep(x, ExplorerGetsLock);
    PairInvStep(x1, TrainerGetsLock);
    ThenPlay(x1, TrainerGetsLock, [], x');
    ThenPlay(x, ExplorerGetsLock, [TrainerGetsLock] + [], x');
  }

  const TRAINER_RETURNS_FIRST: seq<Move> :=
    [TrainerCalls] + ([ExplorerCalls] + ([ExplorerGetsLock] + ([TrainerGetsLock] + [])))

  /** From the start: the explorer's timer fires just after the trainer succeeded, and its call fails an assertion. */
  lemma TimeoutCrash(step: int)
    ensures exists x ::
              && Play(Start(step), TRAINER_RETURNS_FIRST, x) && CanMove(x, ExplorerTimesOut)
              && After(x, ExplorerTimesOut).explorer.Crashed?
              && After(x, ExplorerTimesOut).trainer == Transferring(step)
  {
    var x2 := BothCall(step);
    var x4 := TrainerReturnsFirst(x2);
    var ending := [ExplorerGetsLock] + ([TrainerGetsLock] + []);
    ThenPlay(After(Start(step), TrainerCalls), ExplorerCalls, ending, x4);
    ThenPlay(Start(step), TrainerCalls, [ExplorerCalls] + ending, x4);
    TimeoutIsSafeIff(x4, ExplorerTimesOut);
  }
}
