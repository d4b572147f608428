/** When restarting a runner is safe: the exact condition at its start, and two runs from start-up that fail. */
module RestartSafety {
  import opened Common
  import opened BatchOrder
  import opened SubTasks
  import opened SchedulerModel
  import opened SchedulerMachine
  import opened RunnerInvariant
  import opened PlaceInvariant

  /** No runner is ever given two sub-tasks, as long as all later restarts are started with care. */
  ghost predicate SafeFrom(t: State) {
    forall es, t' :: CarefulRun(t, es, t') ==> Owned(t')
  }

  lemma ThenCareful(t: State, e: Event, es: seq<Event>, t': State)
    requires Enabled(t, e) && Careful(t, e) && CarefulRun(Next(t, e), es, t')
    ensures CarefulRun(t, [e] + es, t')
  {
    assert ([e] + es)[1..] == es;
  }

  /** A step number above those of the given batches. */
  lemma {:induction false} UnusedStep(ids: set<BatchId>) returns (n: nat)
    ensures forall m :: m >= n ==> Step(m) !in ids
    decreases ids
  {
    if ids == {} {
      n := 0;
    } else {
      var b :| b in ids;
      n := UnusedStep(ids - {b});
      if b.Step? && b.n >= n { n := b.n + 1; }
    }
  }

  lemma {:induction false} FirstToServe(keys: set<BatchId>) returns (least: BatchId)
    requires keys != {}
    ensures least in keys && forall b :: b in keys ==> !Before(b, least)
    decreases keys
  {
    least :| least in keys;
    if keys != {least} {
      var other := FirstToServe(keys - {least});
      forall b | b in keys ensures !Before(b, if Before(other, least) then other else least) {
        BeforeIsStrictWeakOrder(b, least, other);
        BeforeIsStrictWeakOrder(b, other, least);
        BeforeIsStrictWeakOrder(other, b, other);
      }
      if Before(other, least) { least := other; }
    }
  }

  function BatchIdsOf(s: Sched): set<BatchId> {
    s.completed.Keys + s.pending.Keys + s.running.Keys + set i | 0 <= i < |s.wrappers| :: s.wrappers[i].batch
  }

  lemma AddOneTask(s: Sched, b: BatchId)
    requires GoodLimit(s.limit)
    ensures var s' := Schedule(s, b, [Task(false, 1)]); SameRunners(s', s) && QueueOf(s', b) != []
  {
    var task := Task(false, 1);
    assert [task][..0] == [];
    assert AddTasks(CountTasks(s, b, 1), b, [task]) == AddTask(CountTasks(s, b, 1), b, 0, task);
    SplitTiles(|s.wrappers|, 1, s.limit);
  }

  /** A batch with an unused id can always be submitted. */
  lemma WorkArrives(t: State) returns (submit: Event, b: BatchId)
    requires GoodLimit(t.s.limit)
    ensures Enabled(t, submit) && Careful(t, submit)
    ensures var t' := Next(t, submit);
            SameRunners(t'.s, t.s) && t'.h.restarting == t.h.restarting && QueueOf(t'.s, b) != []
  {
    var n := UnusedStep(BatchIdsOf(t.s));
    b := Step(n);
    submit := ScheduleEv(b, [Task(false, 1)]);
    assert Fresh(t, b);
    AddOneTask(t.s, b);
    AddTasksStepKeepsRunners(State(CountTasks(t.s, b, 1), t.h), b, [Task(false, 1)]);
  }

  /** When some batch has work, some dispatch on an idle runner is allowed. */
  lemma NextInLine(t: State, b: BatchId, r: nat) returns (dispatch: Event)
    requires QueueOf(t.s, b) != [] && r in t.s.idle
    ensures Enabled(t, dispatch) && Careful(t, dispatch)
    ensures var t' := Next(t, dispatch);
            && t.s.futures in t'.s.live && t'.s.live[t.s.futures].runner == r && t'.h.restarting == t.h.restarting
  {
    var waiting := set c | c in t.s.pending && t.s.pending[c] != [];
    assert b in waiting;
    var first := FirstToServe(waiting);
    dispatch := DispatchEv(first, r);
  }

  /** Whatever the state, a new batch can come up and occupy an idle runner with the sub-task that is next in line. */
  lemma RunnerCanBeTaken(t: State, r: nat) returns (es: seq<Event>, t': State)
    requires RunnerInv(t) && GoodLimit(t.s.limit) && r in t.s.idle
    ensures CarefulRun(t, es, t')
    ensures t.s.futures in t'.s.live && t'.s.live[t.s.futures].runner == r && t'.h.restarting == t.h.restarting
  {
    var submit, b := WorkArrives(t);
    var t1 := Next(t, submit);
    var dispatch := NextInLine(t1, b, r);
    t' := Next(t1, dispatch);
    ThenCareful(t1, dispatch, [], t');
    ThenCareful(t, submit, [dispatch] + [], t');
    es := [submit] + ([dispatch] + []);
  }

  /** A restart that ends under a live future frees its runner. */
  lemma EndUnderLiveFuture(t: State, f: nat) returns (es: seq<Event>, t': State)
    requires f in t.s.live && t.s.live[f].runner in t.h.restarting
    ensures CarefulRun(t, es, t') && !Owned(t')
  {
    var end := RestartedEv(t.s.live[f].runner);
    t' := Next(t, end);
    assert f in t'.s.live && t'.s.live[f].runner !in t'.s.busy;
    ThenCareful(t, end, [], t');
    es := [end] + [];
  }

  lemma {:induction false} JoinCareful(t: State, es: seq<Event>, t1: State, fs: seq<Event>, t2: State)
    requires CarefulRun(t, es, t1) && CarefulRun(t1, fs, t2)
    ensures CarefulRun(t, es + fs, t2)
    decreases |es|
  {
    if es == [] {
      assert es + fs == fs;
    } else {
      JoinCareful(Next(t, es[0]), es[1..], t1, fs, t2);
      ThenCareful(t, es[0], es[1..] + fs, t2);
      HeadFirst(es, fs);
    }
  }

  /** Of two restarts of one runner, the first to end lets it be taken, and the second frees it under that sub-task. */
  lemma TwoRestartsCollide(t: State, r: nat) returns (es: seq<Event>, t': State)
    requires RunnerInv(t) && GoodLimit(t.s.limit) && t.h.restarting[r] >= 2
    ensures CarefulRun(t, es, t') && !Owned(t')
  {
    var end := RestartedEv(r);
    var t1 := Next(t, end);
    RunnerInvStep(t, end);
    var taking, t2 := RunnerCanBeTaken(t1, r);
    var ending, t3 := EndUnderLiveFuture(t2, t1.s.futures);
    JoinCareful(t1, taking, t2, ending, t3);
    ThenCareful(t, end, taking + ending, t3);
    es, t' := [end] + (taking + ending), t3;
  }

  /**
   A cleanup may start its restarts exactly when each of the runners has no live sub-task and no other restart
   in flight: then no runner can ever be given two sub-tasks, and otherwise some continuation does it.
   */
  lemma RestartIsSafeIff(t: State, w: Wait)
    requires RunnerInv(t) && Exclusive(t) && GoodLimit(t.s.limit) && Enabled(t, BeginRestartsEv(w))
    ensures SafeFrom(Next(t, BeginRestartsEv(w))) <==> forall r :: r in RunnersOf(t.s, w.batch) ==> Quiet(t, r)
  {
    var begin := BeginRestartsEv(w);
    var t1 := Next(t, begin);
    RunnerInvStep(t, begin);
    if Careful(t, begin) {
      ExclusiveStep(t, begin);
      forall es, t' | CarefulRun(t1, es, t') ensures Owned(t') {
        RunnerConservation(t1, es, t');
      }
    } else {
      var r :| r in RunnersOf(t.s, w.batch) && !Quiet(t, r);
      if t.s.busy[r].future in t.s.live {
        var es, t' := EndUnderLiveFuture(t1, t.s.busy[r].future);
      } else {
        var es, t' := TwoRestartsCollide(t1, r);
      }
    }
  }

  /** A cleanup restarts a runner with a live sub-task exactly when the sub-task is one of the batch's. */
  lemma RestartsOnlyOwnBatch(t: State, b: BatchId, f: nat)
    requires RunnerInv(t) && Owned(t) && f in t.s.live && t.s.live[f].piece.wrapper < |t.s.wrappers|
    ensures t.s.live[f].runner in RunnersOf(t.s, b) <==> t.s.wrappers[t.s.live[f].piece.wrapper].batch == b
    ensures RunnersOf(t.s, b) !! t.s.idle
  {
    assert t.s.busy[t.s.live[f].runner] == t.s.live[f];
  }

  /** The restart that follows a crash is always safe. */
  lemma CrashRestartIsSafe(t: State, f: nat)
    requires RunnerInv(t) && Exclusive(t) && Enabled(t, DoneEv(f, Failed))
    ensures Quiet(DoneStep(t, f, Failed).(h := t.h), t.s.live[f].runner) && SafeFrom(DoneStep(t, f, Failed))
  {
    RunnerInvStep(t, DoneEv(f, Failed));
    ExclusiveStep(t, DoneEv(f, Failed));
    forall es, t' | CarefulRun(DoneStep(t, f, Failed), es, t') ensures Owned(t') {
      RunnerConservation(DoneStep(t, f, Failed), es, t');
    }
  }

  // ---- two runs that go wrong -----------------------------------------------------------------

  lemma ThenRun(t: State, e: Event, es: seq<Event>, t': State)
    requires Enabled(t, e) && Run(Next(t, e), es, t')
    ensures Run(t, [e] + es, t')
  {
    assert ([e] + es)[1..] == es;
  }

  lemma RunThree(t: State, e1: Event, e2: Event, e3: Event)
    requires Enabled(t, e1) && Enabled(Next(t, e1), e2) && Enabled(Next(Next(t, e1), e2), e3)
    ensures Run(t, [e1, e2, e3], Next(Next(Next(t, e1), e2), e3))
  {
    var t1, t2 := Next(t, e1), Next(Next(t, e1), e2);
    var t3 := Next(t2, e3);
    ThenRun(t2, e3, [], t3);
    ThenRun(t1, e2, [e3] + [], t3);
    ThenRun(t, e1, [e2] + ([e3] + []), t3);
    assert [e1] + ([e2] + ([e3] + [])) == [e1, e2, e3];
  }

  lemma {:induction false} JoinRuns(t: State, es: seq<Event>, t1: State, fs: seq<Event>, t2: State)
    requires Run(t, es, t1) && Run(t1, fs, t2)
    ensures Run(t, es + fs, t2)
    decreases |es|
  {
    if es == [] {
      assert es + fs == fs;
    } else {
      JoinRuns(Next(t, es[0]), es[1..], t1, fs, t2);
      ThenRun(t, es[0], es[1..] + fs, t2);
      HeadFirst(es, fs);
    }
  }

  /** Both batches are submitted, and the first one's sub-task occupies the only runner. */
  const FIRST_BATCH_RUNS: seq<Event> :=
    [ScheduleEv(Step(1), [Task(false, 1)]), ScheduleEv(Step(2), [Task(false, 1)]), DispatchEv(Step(1), 0)]

  /** The runner crashes, and its batch is cleaned up while it restarts. */
  const CRASH_AND_CLEANUP: seq<Event> :=
    [DoneEv(0, Failed), CleanupEv(Step(1), [], true), BeginRestartsEv(Wait(Step(1), {}))]

  /** Two cleanups of one batch overlap: the second does not wait for the future that the first one cancelled. */
  const CLEANUP_TWICE: seq<Event> :=
    [CleanupEv(Step(1), [], false), CleanupEv(Step(1), [], true), BeginRestartsEv(Wait(Step(1), {}))]

  ghost predicate FirstRuns(t: State) {
    && t.s.idle == {} && t.s.live == map[0 := RunState(0, Piece(0, 1, 0), 0, true)] && t.s.busy == t.s.live
    && t.s.running == map[Step(1) := {0}] && t.s.futures == 1
    && t.s.pending == map[Step(1) := [], Step(2) := [Piece(1, 1, 0)]]
    && |t.s.wrappers| == 2 && t.s.wrappers[0].batch == Step(1)
    && t.h.restarting == multiset{}
  }

  lemma AddOneTaskStep(t: State, b: BatchId, task: Task)
    requires GoodLimit(t.s.limit)
    ensures AddTasksStep(t, b, [task]) == AddTaskStep(t, b, 0, task)
  {
    assert [task][..0] == [];
  }

  lemma AddOneRun(s: Sched, b: BatchId)
    requires s.limit.None? && b !in s.pending
    ensures AddTask(s, b, 0, Task(false, 1)) ==
              s.(wrappers := s.wrappers + [Wrapper(b, 0, false, 1, 0, 0, 1, [], None, false)],
                 pending := s.pending[b := [Piece(|s.wrappers|, 1, 0)]])
  {
    var p := Piece(|s.wrappers|, 1, 0);
    assert Reverse([p]) + [] == [p];
  }

  lemma ScheduleOne(t: State, b: BatchId)
    requires t.s.limit.None? && b !in t.s.pending
    ensures var t', n := ScheduleStep(t, b, [Task(false, 1)]), |t.s.wrappers|;
            && t'.s == CountTasks(t.s, b, 1).(
                 wrappers := t.s.wrappers + [Wrapper(b, 0, false, 1, 0, 0, 1, [], None, false)],
                 pending := t.s.pending[b := [Piece(n, 1, 0)]])
            && t'.h.restarting == t.h.restarting
  {
    var u := State(CountTasks(t.s, b, 1), t.h);
    AddOneTaskStep(u, b, Task(false, 1));
    AddOneRun(u.s, b);
  }

  lemma BothSubmitted() returns (t1: State, t2: State)
    ensures Enabled(Init({0}, None), FIRST_BATCH_RUNS[0]) && t1 == Next(Init({0}, None), FIRST_BATCH_RUNS[0])
    ensures Enabled(t1, FIRST_BATCH_RUNS[1]) && t2 == Next(t1, FIRST_BATCH_RUNS[1])
    ensures t2.s.idle == {0} && t2.s.live == map[] && t2.s.busy == map[] && t2.s.running == map[] && t2.s.futures == 0
    ensures t2.s.pending == map[Step(1) := [Piece(0, 1, 0)], Step(2) := [Piece(1, 1, 0)]]
    ensures |t2.s.wrappers| == 2 && t2.s.wrappers[0].batch == Step(1) && t2.h.restarting == multiset{}
  {
    var t0 := Init({0}, None);
    ScheduleOne(t0, Step(1));
    t1 := ScheduleStep(t0, Step(1), [Task(false, 1)]);
    ScheduleOne(t1, Step(2));
    t2 := ScheduleStep(t1, Step(2), [Task(false, 1)]);
  }

  lemma FirstDispatched(t: State)
    requires t.s.idle == {0} && t.s.live == map[] && t.s.busy == map[] && t.s.running == map[] && t.s.futures == 0
    requires t.s.pending == map[Step(1) := [Piece(0, 1, 0)], Step(2) := [Piece(1, 1, 0)]]
    requires |t.s.wrappers| == 2 && t.s.wrappers[0].batch == Step(1) && t.h.restarting == multiset{}
    ensures Enabled(t, DispatchEv(Step(1), 0)) && FirstRuns(Next(t, DispatchEv(Step(1), 0)))
  {
    assert [Piece(0, 1, 0)][..0] == [];
    assert RunningOf(t.s, Step(1)) + {0} == {0};
  }

  lemma FirstBatchRuns() returns (t: State)
    ensures Run(Init({0}, None), FIRST_BATCH_RUNS, t) && FirstRuns(t)
  {
    var t1, t2 := BothSubmitted();
    FirstDispatched(t2);
    var es := FIRST_BATCH_RUNS;
    RunThree(Init({0}, None), es[0], es[1], es[2]);
    t := Next(t2, es[2]);
  }

  lemma Crashes(t: State) returns (t': State)
    requires FirstRuns(t)
    ensures Enabled(t, CRASH_AND_CLEANUP[0]) && t' == Next(t, CRASH_AND_CLEANUP[0])
    ensures t'.s == t.s.(live := map[], running := map[]) && t'.h.restarting == multiset{0}
  {
    assert t.s.live - {0} == map[] && DropFuture(t.s.running, Step(1), 0) == map[];
    t' := DoneStep(t, 0, Failed);
  }

  /** A cleanup of the first batch: what it leaves, and what it waits for. */
  lemma CleansUp(t: State, restart: bool)
    ensures Enabled(t, CleanupEv(Step(1), [], restart))
    ensures var t', fs := Next(t, CleanupEv(Step(1), [], restart)), RunningOf(t.s, Step(1));
            && t'.s.pending == t.s.pending - {Step(1)} && t'.s.running == t.s.running - {Step(1)}
            && t'.s.idle == t.s.idle && t'.s.futures == t.s.futures && t'.s.wrappers == t.s.wrappers
            && t'.s.live == MarkAll(t.s.live, fs, t.s.live.Keys, restart)
            && t'.s.busy == MarkAll(t.s.busy, fs, t.s.live.Keys, restart)
            && t'.h.restarting == t.h.restarting
            && (restart ==> Wait(Step(1), fs) in t'.h.cleanups)
  {
  }

  lemma NoMark(m: map<nat, RunState>, tracked: set<nat>, restart: bool)
    ensures MarkAll(m, {}, tracked, restart) == m
  {
  }

  /** A cleanup of the first batch that has nothing to wait for. */
  lemma CleansUpAtOnce(t: State, st: RunState) returns (t': State)
    requires t.s.busy == map[0 := st] && t.s.running == map[]
    ensures Enabled(t, CRASH_AND_CLEANUP[1]) && t' == Next(t, CRASH_AND_CLEANUP[1])
    ensures t'.s.pending == t.s.pending - {Step(1)} && t'.s.live == t.s.live && t'.s.busy == t.s.busy
    ensures t'.s.idle == t.s.idle && t'.s.futures == t.s.futures && t'.s.wrappers == t.s.wrappers
    ensures t'.h.restarting == t.h.restarting && Wait(Step(1), {}) in t'.h.cleanups
  {
    CleansUp(t, true);
    NoMark(t.s.live, t.s.live.Keys, true);
    NoMark(t.s.busy, t.s.live.Keys, true);
    t' := CleanupStep(t, Step(1), [], true);
  }

  /** It restarts runner 0, still busy for the batch. */
  lemma BeginsRestart(t: State, st: RunState) returns (t': State)
    requires Wait(Step(1), {}) in t.h.cleanups && t.s.busy == map[0 := st] && st.piece.wrapper == 0
    requires |t.s.wrappers| == 2 && t.s.wrappers[0].batch == Step(1)
    ensures Enabled(t, CRASH_AND_CLEANUP[2]) && t' == Next(t, CRASH_AND_CLEANUP[2])
    ensures t'.s == t.s && t'.h.restarting == t.h.restarting + multiset{0}
  {
    assert RunnersOf(t.s, Step(1)) == {0};
    t' := t.(h := t.h.(cleanups := t.h.cleanups - multiset{Wait(Step(1), {})},
                       restarting := t.h.restarting + multiset{0}));
  }

  /** A cancelled future that the first cleanup marked gives its runner back. */
  lemma CancelFrees(t: State, st: RunState)
    requires t.s.live == map[0 := st] && !st.restartOnCancel && st.runner == 0 && st.piece.wrapper == 0
        && |t.s.wrappers| == 2
    ensures Enabled(t, DoneEv(0, Cancelled))
    ensures var t' := Next(t, DoneEv(0, Cancelled));
            && 0 in t'.s.idle && t'.s.futures == t.s.futures && t'.s.pending == t.s.pending
            && t'.h.restarting == t.h.restarting
  {
  }

  lemma RestartFrees(t: State)
    requires t.h.restarting == multiset{0, 0}
    ensures Enabled(t, RestartedEv(0))
    ensures var t' := Next(t, RestartedEv(0));
            && 0 in t'.s.idle && t'.s.futures == t.s.futures && t'.s.pending == t.s.pending && 0 in t'.h.restarting
  {
  }

  /** A free runner is taken by the second batch, and freed while it works for it. */
  lemma TakenAndFreed(t: State, free: Event)
    requires Enabled(t, free)
    requires var u := Next(t, free);
             && u.s.futures == 1 && 0 in u.s.idle && 0 in u.h.restarting
             && u.s.pending == map[Step(2) := [Piece(1, 1, 0)]]
    ensures exists t' :: Run(t, [free, DispatchEv(Step(2), 0), RestartedEv(0)], t')
                      && 0 in t'.s.idle && 1 in t'.s.live && t'.s.live[1].runner == 0
  {
    var u := Next(t, free);
    var v := Next(u, DispatchEv(Step(2), 0));
    RunThree(t, free, DispatchEv(Step(2), 0), RestartedEv(0));
  }

  /** With two restarts of a runner in flight, the second frees it under the sub-task it was given after the first. */
  lemma OverlappingRestartsShareARunner()
    ensures exists t :: Run(Init({0}, None),
                            FIRST_BATCH_RUNS + CRASH_AND_CLEANUP
                            + [RestartedEv(0), DispatchEv(Step(2), 0), RestartedEv(0)], t)
                     && 0 in t.s.idle && 1 in t.s.live && t.s.live[1].runner == 0
  {
    var t0 := FirstBatchRuns();
    var t1 := CrashAndCleanup(t0);
    RestartFrees(t1);
    TakenAndFreed(t1, RestartedEv(0));
    var ending := [RestartedEv(0), DispatchEv(Step(2), 0), RestartedEv(0)];
    var t2 :| Run(t1, ending, t2) && 0 in t2.s.idle && 1 in t2.s.live && t2.s.live[1].runner == 0;
    JoinRuns(Init({0}, None), FIRST_BATCH_RUNS, t0, CRASH_AND_CLEANUP, t1);
    JoinRuns(Init({0}, None), FIRST_BATCH_RUNS + CRASH_AND_CLEANUP, t1, ending, t2);
  }

  lemma CrashAndCleanup(t: State) returns (t': State)
    requires FirstRuns(t)
    ensures Run(t, CRASH_AND_CLEANUP, t')
    ensures t'.h.restarting == multiset{0, 0} && t'.s.futures == 1 && t'.s.pending == map[Step(2) := [Piece(1, 1, 0)]]
  {
    var t1 := Crashes(t);
    var t2 := CleansUpAtOnce(t1, t.s.live[0]);
    t' := BeginsRestart(t2, t.s.live[0]);
    RunThree(t, CRASH_AND_CLEANUP[0], CRASH_AND_CLEANUP[1], CRASH_AND_CLEANUP[2]);
  }

  /** A single restart is enough: it ends after the cancelled future has freed the runner for another batch. */
  lemma OverlappingCleanupsShareARunner()
    ensures exists t :: Run(Init({0}, None),
                            FIRST_BATCH_RUNS + CLEANUP_TWICE
                            + [DoneEv(0, Cancelled), DispatchEv(Step(2), 0), RestartedEv(0)], t)
                     && 0 in t.s.idle && 1 in t.s.live && t.s.live[1].runner == 0
  {
    var t0 := FirstBatchRuns();
    var t1 := CleanupTwice(t0);
    CancelFrees(t1, t0.s.live[0].(restartOnCancel := false));
    TakenAndFreed(t1, DoneEv(0, Cancelled));
    var ending := [DoneEv(0, Cancelled), DispatchEv(Step(2), 0), RestartedEv(0)];
    var t2 :| Run(t1, ending, t2) && 0 in t2.s.idle && 1 in t2.s.live && t2.s.live[1].runner == 0;
    JoinRuns(Init({0}, None), FIRST_BATCH_RUNS, t0, CLEANUP_TWICE, t1);
    JoinRuns(Init({0}, None), FIRST_BATCH_RUNS + CLEANUP_TWICE, t1, ending, t2);
  }

  lemma CleanupTwice(t: State) returns (t': State)
    requires FirstRuns(t)
    ensures Run(t, CLEANUP_TWICE, t')
    ensures t'.s.live == map[0 := t.s.live[0].(restartOnCancel := false)] && |t'.s.wrappers| == 2
    ensures t'.h.restarting == multiset{0} && t'.s.futures == 1 && t'.s.pending == map[Step(2) := [Piece(1, 1, 0)]]
  {
    var t1 := FirstCleanup(t);
    var t2 := CleansUpAtOnce(t1, t1.s.live[0]);
    t' := BeginsRestart(t2, t1.s.live[0]);
    RunThree(t, CLEANUP_TWICE[0], CLEANUP_TWICE[1], CLEANUP_TWICE[2]);
  }

  lemma FirstCleanup(t: State) returns (t': State)
    requires FirstRuns(t)
    ensures Enabled(t, CLEANUP_TWICE[0]) && t' == Next(t, CLEANUP_TWICE[0])
    ensures t'.s.live == map[0 := t.s.live[0].(restartOnCancel := false)] && t'.s.busy == t'.s.live
        && t'.s.running == map[]
    ensures t'.s.wrappers == t.s.wrappers && t'.s.futures == 1 && t'.s.pending == map[Step(2) := [Piece(1, 1, 0)]]
    ensures t'.h.restarting == multiset{}
  {
    CleansUp(t, false);
    MarkTheOnly(t.s.live, t.s.live[0]);
    assert t.s.pending - {Step(1)} == map[Step(2) := [Piece(1, 1, 0)]];
    t' := CleanupStep(t, Step(1), [], false);
  }

  lemma MarkTheOnly(m: map<nat, RunState>, st: RunState)
    requires m == map[0 := st] && st.future == 0
    ensures MarkAll(m, {0}, m.Keys, false) == map[0 := st.(restartOnCancel := false)]
  {
  }
}
