/**
 The pull side of weight synchronization: any number of explorers wait for a newer model version, which
 the trainer (or the checkpoint watcher) publishes. Each call is cut at its one suspension point.
 */
module PullSync {
  import opened Common
  import opened Rendezvous

  /**
   Awaiting: in the wait set; `stirred` once a notification came without a newer version. Leaked: its wait timed out.
   */
  datatype Puller = Idle | Awaiting(woken: bool, stirred: bool) | Leaked | Gone

  datatype Answer = Answer(explorer: nat, known: int, version: int, stirred: bool)

  datatype Pull = Pull(
    sync: Sync,
    pullers: map<nat, Puller>, known: map<nat, int>,
    failed: bool,                // an assertion of the synchronizer failed
    answers: seq<Answer>)

  datatype Event =
    | Publish(step: int)         // set_model_state_dict
    | NoNews                     // notify_no_new_model_state_dict
    | TrainerStarts              // set_trainer_status(RUNNING)
    | TrainerStops
    | Joins(explorer: nat)       // set_explorer_status(RUNNING) when an explorer is ready
    | Leaves(explorer: nat)      // set_explorer_status(STOPPED, old RUNNING)
    | Asks(explorer: nat)        // wait_new_model_state_dict, with the lock
    | Wakes(explorer: nat)
    | TimesOut(explorer: nat)

  function Fresh(): Pull {
    Pull(Sync(Stopped, map[], 0), map[], map[], false, [])
  }

  ghost predicate CanHappen(s: Pull, e: Event) {
    match e
    case Publish(step) => step >= s.sync.version
    case NoNews => true
    case TrainerStarts => true
    case TrainerStops => true
    case Joins(x) => x !in s.pullers
    case Leaves(x) => x in s.pullers && s.pullers[x] == Idle
    case Asks(x) => x in s.pullers && s.pullers[x] == Idle
    case Wakes(x) => x in s.pullers && s.pullers[x].Awaiting? && s.pullers[x].woken
    case TimesOut(x) => x in s.pullers && s.pullers[x].Awaiting?
  }

  /** notify_all; a notification that brings no newer version stirs the waiting. */
  function WakeAll(ps: map<nat, Puller>, news: bool): map<nat, Puller> {
    map x | x in ps :: if ps[x].Awaiting? then Awaiting(true, ps[x].stirred || !news) else ps[x]
  }

  /** wait_new_model_state_dict after its wait, or without one: back to running with the current version. */
  function PullProceeds(y: Sync): Outcome {
    match MoveExplorer(y.explorers, RequireSync, Running)
    case None => Raises
    case Some(counts) => Returns(y.(explorers := counts), Some(y.version))
  }

  /** wait_new_model_state_dict from taking the lock to its wait or return. */
  function PullEnters(y: Sync, current: int): Outcome {
    if y.version < current then Raises
    else
      match MoveExplorer(y.explorers, Running, RequireSync)
      case None => Raises
      case Some(counts) =>
        var y1 := y.(explorers := counts);
        if y.version == current && y.trainer != Stopped then Waits(y1) else PullProceeds(y1)
  }

  /** What the call's outcome means for explorer x. */
  function Gets(s: Pull, x: nat, o: Outcome, stirred: bool): Pull
    requires x in s.known
  {
    match o
    case Raises => s.(failed := true)
    case Waits(y) => s.(sync := y, pullers := s.pullers[x := Awaiting(false, false)])
    case Returns(y, Some(v)) =>
      s.(sync := y, pullers := s.pullers[x := Idle], known := s.known[x := v],
         answers := s.answers + [Answer(x, s.known[x], v, stirred)])
    case Returns(_, None) => s.(failed := true)
  }

  ghost function Happen(s: Pull, e: Event): Pull
    requires CanHappen(s, e) && s.pullers.Keys == s.known.Keys
  {
    match e
    case Publish(step) => s.(sync := s.sync.(version := step), pullers := WakeAll(s.pullers, step > s.sync.version))
    case NoNews => s.(pullers := WakeAll(s.pullers, false))
    case TrainerStarts => s.(sync := s.sync.(trainer := Running))
    case TrainerStops => s.(sync := s.sync.(trainer := Stopped), pullers := WakeAll(s.pullers, false))
    case Joins(x) =>
      var counts := s.sync.explorers[Running := CountOf(s.sync.explorers, Running) + 1];
      s.(sync := s.sync.(explorers := counts), pullers := s.pullers[x := Idle], known := s.known[x := -1])
    case Leaves(x) =>
      (match MoveExplorer(s.sync.explorers, Running, Stopped)
       case None => s.(failed := true)
       case Some(counts) => s.(sync := s.sync.(explorers := counts), pullers := WakeAll(s.pullers[x := Gone], false)))
    case Asks(x) => Gets(s, x, PullEnters(s.sync, s.known[x]), s.sync.trainer == Stopped)
    case Wakes(x) => Gets(s, x, PullProceeds(s.sync), s.pullers[x].stirred)
    case TimesOut(x) => s.(pullers := s.pullers[x := Leaked])
  }

  ghost predicate Run(s: Pull, es: seq<Event>, s': Pull)
    requires s.pullers.Keys == s.known.Keys
    decreases |es|
  {
    if es == [] then s' == s
    else
      && CanHappen(s, es[0])
      && Happen(s, es[0]).pullers.Keys == Happen(s, es[0]).known.Keys
      && Run(Happen(s, es[0]), es[1..], s')
  }

  // ---- what always holds --------------------------------------------------------------------

  function Standing(p: Puller): Status {
    match p
    case Idle => Running
    case Awaiting(_, _) => RequireSync
    case Leaked => RequireSync
    case Gone => Stopped
  }

  /** The explorers that should be counted under a status. */
  function Under(ps: map<nat, Puller>, status: Status): set<nat> {
    set x | x in ps && Standing(ps[x]) == status
  }

  /** Every explorer is counted exactly once, under its own status. */
  ghost predicate CountsOk(counts: map<Status, int>, ps: map<nat, Puller>) {
    && CountOf(counts, Running) == |Under(ps, Running)|
    && CountOf(counts, RequireSync) == |Under(ps, RequireSync)|
    && CountOf(counts, Stopped) == |Under(ps, Stopped)|
  }

  ghost predicate KnownOk(version: int, ps: map<nat, Puller>, known: map<nat, int>) {
    && ps.Keys == known.Keys
    && (forall x :: x in known ==> known[x] <= version)
    && (forall x :: x in ps && ps[x].Awaiting? ==> ps[x].woken ==> ps[x].stirred || known[x] < version)
  }

  ghost predicate AnswersOk(answers: seq<Answer>) {
    forall i :: 0 <= i < |answers| ==>
      answers[i].known <= answers[i].version && (answers[i].known == answers[i].version ==> answers[i].stirred)
  }

  ghost predicate PullInv(s: Pull) {
    && !s.failed && s.sync.version >= 0
    && CountsOk(s.sync.explorers, s.pullers)
    && KnownOk(s.sync.version, s.pullers, s.known)
    && AnswersOk(s.answers)
  }

  lemma MoveUnder(ps: map<nat, Puller>, x: nat, p: Puller)
    requires x in ps && Standing(p) != Standing(ps[x])
    ensures |Under(ps, Standing(ps[x]))| >= 1
    ensures forall s :: |Under(ps[x := p], s)|
                     == |Under(ps, s)| + (if s == Standing(p) then 1 else if s == Standing(ps[x]) then -1 else 0)
  {
    var ps' := ps[x := p];
    assert x in Under(ps, Standing(ps[x]));
    assert Under(ps', Standing(p)) == Under(ps, Standing(p)) + {x};
    assert Under(ps', Standing(ps[x])) == Under(ps, Standing(ps[x])) - {x};
    assert forall s :: s != Standing(p) && s != Standing(ps[x]) ==> Under(ps', s) == Under(ps, s);
  }

  lemma SameUnder(ps: map<nat, Puller>, ps': map<nat, Puller>)
    requires ps.Keys == ps'.Keys && forall x :: x in ps ==> Standing(ps[x]) == Standing(ps'[x])
    ensures forall s :: Under(ps', s) == Under(ps, s)
  {
  }

  /** Moving one explorer from its status to another keeps the counts, and no assertion fails. */
  lemma MoveKeepsCounts(counts: map<Status, int>, ps: map<nat, Puller>, x: nat, p: Puller)
    requires CountsOk(counts, ps) && x in ps && Standing(p) != Standing(ps[x])
    ensures MoveExplorer(counts, Standing(ps[x]), Standing(p)).Some?
    ensures CountsOk(MoveExplorer(counts, Standing(ps[x]), Standing(p)).value, ps[x := p])
  {
    MoveUnder(ps, x, p);
  }

  lemma WakeKeeps(counts: map<Status, int>, ps: map<nat, Puller>, news: bool)
    requires CountsOk(counts, ps)
    ensures CountsOk(counts, WakeAll(ps, news))
  {
    SameUnder(ps, WakeAll(ps, news));
  }

  lemma JoinUnder(ps: map<nat, Puller>, x: nat)
    requires x !in ps
    ensures forall s :: |Under(ps[x := Idle], s)| == |Under(ps, s)| + if s == Running then 1 else 0
  {
    assert Under(ps[x := Idle], Running) == Under(ps, Running) + {x};
    assert forall s :: s != Running ==> Under(ps[x := Idle], s) == Under(ps, s);
  }

  lemma JoinKeepsCounts(counts: map<Status, int>, ps: map<nat, Puller>, x: nat)
    requires CountsOk(counts, ps) && x !in ps
    ensures CountsOk(counts[Running := CountOf(counts, Running) + 1], ps[x := Idle])
  {
    JoinUnder(ps, x);
  }

  lemma FinishKeeps(s: Pull, x: nat, stirred: bool)
    requires PullInv(s) && x in s.pullers && s.pullers[x].Awaiting? && (s.known[x] == s.sync.version ==> stirred)
    ensures PullInv(Gets(s, x, PullProceeds(s.sync), stirred))
  {
    MoveKeepsCounts(s.sync.explorers, s.pullers, x, Idle);
  }

  lemma AskKeeps(s: Pull, x: nat)
    requires PullInv(s) && x in s.pullers && s.pullers[x] == Idle
    ensures PullInv(Gets(s, x, PullEnters(s.sync, s.known[x]), s.sync.trainer == Stopped))
  {
    var waiting := Awaiting(false, false);
    MoveKeepsCounts(s.sync.explorers, s.pullers, x, waiting);
    var y := s.sync.(explorers := MoveExplorer(s.sync.explorers, Running, RequireSync).value);
    var s1 := s.(sync := y, pullers := s.pullers[x := waiting]);
    if !(s.sync.version == s.known[x] && s.sync.trainer != Stopped) {
      FinishKeeps(s1, x, s.sync.trainer == Stopped);
      assert s1.pullers[x := Idle] == s.pullers[x := Idle];
    }
  }

  lemma EventKeeps(s: Pull, e: Event)
    requires PullInv(s) && CanHappen(s, e)
    ensures PullInv(Happen(s, e))
  {
    match e
    case Publish(step) => WakeKeeps(s.sync.explorers, s.pullers, step > s.sync.version);
    case NoNews => WakeKeeps(s.sync.explorers, s.pullers, false);
    case TrainerStarts =>
    case TrainerStops => WakeKeeps(s.sync.explorers, s.pullers, false);
    case Joins(x) => JoinKeepsCounts(s.sync.explorers, s.pullers, x);
    case Leaves(x) =>
      MoveKeepsCounts(s.sync.explorers, s.pullers, x, Gone);
      WakeKeeps(MoveExplorer(s.sync.explorers, Running, Stopped).value, s.pullers[x := Gone], false);
    case Asks(x) => AskKeeps(s, x);
    case Wakes(x) => FinishKeeps(s, x, s.pullers[x].stirred);
    case TimesOut(x) => SameUnder(s.pullers, s.pullers[x := Leaked]);
  }

  lemma {:induction false} RunKeeps(s: Pull, es: seq<Event>, s': Pull)
    requires PullInv(s) && Run(s, es, s')
    ensures PullInv(s')
    decreases |es|
  {
    if es != [] {
      EventKeeps(s, es[0]);
      RunKeeps(Happen(s, es[0]), es[1..], s');
    }
  }

  /**
   Pulling, for any number of explorers and any interleaving, timeouts included: no assertion of the
   synchronizer fails, every explorer is counted once under its own status, no explorer is ever answered
   with an older version than it has, and it is answered with the version it already has only after a
   notification without news or once the trainer has stopped.
   */
  lemma PullingIsSafe(es: seq<Event>, s: Pull)
    requires Run(Fresh(), es, s)
    ensures !s.failed && CountsOk(s.sync.explorers, s.pullers) && AnswersOk(s.answers)
  {
    assert forall t :: Under(map[], t) == {};
    RunKeeps(Fresh(), es, s);
  }

  /** No explorer waits unwoken once the trainer has published something newer than it knows or has stopped. */
  ghost predicate NoLostWakeup(s: Pull) {
    forall x :: x in s.pullers && s.pullers[x].Awaiting? && !s.pullers[x].woken ==>
      x in s.known && s.known[x] >= s.sync.version && s.sync.trainer != Stopped
  }

  lemma EventLosesNoWakeup(s: Pull, e: Event)
    requires PullInv(s) && NoLostWakeup(s) && CanHappen(s, e)
    ensures NoLostWakeup(Happen(s, e))
  {
    EventKeeps(s, e);
  }

  lemma {:induction false} RunLosesNoWakeup(s: Pull, es: seq<Event>, s': Pull)
    requires PullInv(s) && NoLostWakeup(s) && Run(s, es, s')
    ensures NoLostWakeup(s')
    decreases |es|
  {
    if es != [] {
      EventKeeps(s, es[0]);
      EventLosesNoWakeup(s, es[0]);
      RunLosesNoWakeup(Happen(s, es[0]), es[1..], s');
    }
  }

  /** explorer_requires_sync */
  predicate RequiresSync(counts: map<Status, int>) {
    CountOf(counts, RequireSync) > 0
  }

  ghost predicate SomeoneAwaits(s: Pull) { exists x :: x in s.pullers && s.pullers[x].Awaiting? }

  ghost predicate SomeoneGaveUp(s: Pull) { exists x :: GaveUp(s, x) }

  ghost predicate SomeTimeout(es: seq<Event>) { exists i :: 0 <= i < |es| && es[i].TimesOut? }

  /** explorer_requires_sync answers yes exactly while an explorer waits, or once one has given up waiting. */
  lemma RequestIff(s: Pull)
    requires PullInv(s)
    ensures RequiresSync(s.sync.explorers) <==> SomeoneAwaits(s) || SomeoneGaveUp(s)
  {
    var waiting := Under(s.pullers, RequireSync);
    if x :| x in s.pullers && (s.pullers[x].Awaiting? || GaveUp(s, x)) { assert x in waiting; }
    if x :| x in waiting { assert s.pullers[x].Awaiting? || GaveUp(s, x); }
  }

  ghost predicate GaveUp(s: Pull, x: nat) { x in s.pullers && s.pullers[x] == Leaked }

  lemma GivesUpIff(s: Pull, e: Event, x: nat)
    requires PullInv(s) && CanHappen(s, e)
    ensures GaveUp(Happen(s, e), x) <==> GaveUp(s, x) || e == TimesOut(x)
  {
    EventKeeps(s, e);
  }

  lemma EventGivesUpIff(s: Pull, e: Event)
    requires PullInv(s) && CanHappen(s, e)
    ensures SomeoneGaveUp(Happen(s, e)) <==> SomeoneGaveUp(s) || e.TimesOut?
  {
    var s' := Happen(s, e);
    if e.TimesOut? { assert s'.pullers[e.explorer] == Leaked; }
    forall x ensures GaveUp(s', x) <==> GaveUp(s, x) || e == TimesOut(x) { GivesUpIff(s, e, x); }
  }

  lemma {:induction false} GaveUpIff(s: Pull, es: seq<Event>, s': Pull)
    requires PullInv(s) && Run(s, es, s')
    ensures PullInv(s') && (SomeoneGaveUp(s') <==> SomeoneGaveUp(s) || SomeTimeout(es))
    decreases |es|
  {
    if es != [] {
      EventKeeps(s, es[0]);
      EventGivesUpIff(s, es[0]);
      GaveUpIff(Happen(s, es[0]), es[1..], s');
      if i :| 0 <= i < |es| && es[i].TimesOut? {
        if i > 0 { assert es[1..][i - 1].TimesOut?; }
      }
      if i :| 0 <= i < |es[1..]| && es[1..][i].TimesOut? { assert es[i + 1].TimesOut?; }
    }
  }

  /**
   From start-up on: a wait that timed out is never taken back. The synchronizer says that an explorer requires a
   sync exactly when one waits or any wait so far has timed out, so its answer is right exactly while one waits or
   no wait has timed out yet.
   */
  lemma RequestIsTruthfulIff(es: seq<Event>, s: Pull)
    requires Run(Fresh(), es, s)
    ensures RequiresSync(s.sync.explorers) <==> SomeoneAwaits(s) || SomeTimeout(es)
    ensures (RequiresSync(s.sync.explorers) <==> SomeoneAwaits(s)) <==> (SomeTimeout(es) ==> SomeoneAwaits(s))
  {
    assert forall t :: Under(map[], t) == {};
    GaveUpIff(Fresh(), es, s);
    RequestIff(s);
  }

  lemma ThenRun(s: Pull, e: Event, es: seq<Event>, s': Pull)
    requires s.pullers.Keys == s.known.Keys && CanHappen(s, e)
    requires Happen(s, e).pullers.Keys == Happen(s, e).known.Keys && Run(Happen(s, e), es, s')
    ensures Run(s, [e] + es, s')
  {
    assert ([e] + es)[1..] == es;
  }

  /** An explorer that knows the newest version asks, waits, and times out. */
  lemma GivesUp(s: Pull) returns (s': Pull)
    requires s.sync == Sync(Running, map[Running := 1, RequireSync := 0], 0)
    requires s.pullers == map[0 := Idle] && s.known == map[0 := 0]
    ensures Run(s, [Asks(0)] + ([TimesOut(0)] + []), s') && s'.pullers == map[0 := Leaked]
  {
    var s1 := Happen(s, Asks(0));
    assert s1.pullers == map[0 := Awaiting(false, false)] && s1.known == s.known;
    s' := Happen(s1, TimesOut(0));
    ThenRun(s1, TimesOut(0), [], s');
    ThenRun(s, Asks(0), [TimesOut(0)] + [], s');
  }

  /** Its first pull returns version 0 at once. */
  lemma FirstPull() returns (s: Pull)
    ensures s.sync == Sync(Running, map[Running := 1, RequireSync := 0], 0)
    ensures s.pullers == map[0 := Idle] && s.known == map[0 := 0]
    ensures CanHappen(Started(), Asks(0)) && s == Happen(Started(), Asks(0))
  {
    s := Happen(Started(), Asks(0));
    var here, asking := map[Running := 1], map[Running := 0, RequireSync := 1];
    var back := map[Running := 1, RequireSync := 0];
    assert here[Running := 0][RequireSync := 1] == asking && asking[RequireSync := 0][Running := 1] == back;
  }

  /** The trainer runs, and explorer 0 has joined. */
  function Started(): Pull {
    Pull(Sync(Running, map[Running := 1], 0), map[0 := Idle], map[0 := -1], false, [])
  }

  const GIVES_UP: seq<Event> :=
    [TrainerStarts] + ([Joins(0)] + ([Asks(0)] + ([Asks(0)] + ([TimesOut(0)] + []))))

  /** From start-up: a request nobody is waiting for. */
  lemma TimeoutLeavesRequest()
    ensures exists s :: Run(Fresh(), GIVES_UP, s) && RequiresSync(s.sync.explorers) && !SomeoneAwaits(s)
  {
    var s3 := FirstPull();
    var s := GivesUp(s3);
    var ending := [Asks(0)] + ([TimesOut(0)] + []);
    ThenRun(Started(), Asks(0), ending, s);
    var s1 := Happen(Fresh(), TrainerStarts);
    assert Happen(s1, Joins(0)) == Started();
    ThenRun(s1, Joins(0), [Asks(0)] + ending, s);
    ThenRun(Fresh(), TrainerStarts, [Joins(0)] + ([Asks(0)] + ending), s);
    RequestIsTruthfulIff(GIVES_UP, s);
    assert GIVES_UP[4].TimesOut?;
  }
}
