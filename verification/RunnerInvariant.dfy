/**
 Runner conservation. That idle and busy runners partition the pool holds in every run; that no runner
 executes two sub-tasks holds in those runs that start restarts with care.
 */
module RunnerInvariant {
  import opened Common
  import opened BatchOrder
  import opened SchedulerModel
  import opened SchedulerMachine

  ghost predicate PoolOk(
    runners: set<nat>, idle: set<nat>, busy: map<nat, RunState>, live: map<nat, RunState>,
    futures: nat, restarting: multiset<nat>)
  {
    && idle !! busy.Keys
    && idle + busy.Keys == runners
    && (forall f :: f in live ==> live[f].future == f && f < futures && live[f].runner in runners)
    && (forall r :: r in busy ==>
          && busy[r].runner == r && busy[r].future < futures
          && (busy[r].future in live ==> live[busy[r].future] == busy[r]))
    && (forall r :: r in restarting ==> r in runners)
  }

  ghost predicate RunnerInv(t: State) {
    PoolOk(t.h.runners, t.s.idle, t.s.busy, t.s.live, t.s.futures, t.h.restarting)
  }

  /** The parts of the state that runners depend on. */
  ghost predicate SameRunners(a: Sched, b: Sched) {
    a.idle == b.idle && a.busy == b.busy && a.live == b.live && a.futures == b.futures
  }

  lemma {:induction false} AddTasksKeepsRunners(s: Sched, b: BatchId, tasks: seq<Task>)
    requires s.limit.Some? ==> s.limit.value > 0
    ensures SameRunners(AddTasks(s, b, tasks), s) && AddTasks(s, b, tasks).running == s.running
    ensures AddTasks(s, b, tasks).completed == s.completed
  {
    if tasks != [] { AddTasksKeepsRunners(s, b, tasks[..|tasks| - 1]); }
  }

  lemma {:induction false} AddTasksStepKeepsRunners(t: State, b: BatchId, tasks: seq<Task>)
    requires t.s.limit.Some? ==> t.s.limit.value > 0
    ensures AddTasksStep(t, b, tasks).h.runners == t.h.runners
    ensures AddTasksStep(t, b, tasks).h.restarting == t.h.restarting
  {
    if tasks != [] { AddTasksStepKeepsRunners(t, b, tasks[..|tasks| - 1]); }
  }

  lemma {:induction false} EmitPartialKeepsRunners(s: Sched, order: seq<nat>)
    requires forall k :: 0 <= k < |order| ==> order[k] < |s.wrappers|
    ensures SameRunners(EmitPartial(s, order), s)
    ensures EmitPartial(s, order).running == s.running && EmitPartial(s, order).pending == s.pending
  {
    if order != [] { EmitPartialKeepsRunners(s, order[..|order| - 1]); }
  }

  lemma ScheduleKeepsRunners(t: State, b: BatchId, tasks: seq<Task>)
    requires RunnerInv(t) && (t.s.limit.Some? ==> t.s.limit.value > 0)
    ensures RunnerInv(ScheduleStep(t, b, tasks))
  {
    if tasks != [] {
      var t0 := State(CountTasks(t.s, b, |tasks|), t.h);
      AddTasksKeepsRunners(t0.s, b, tasks);
      AddTasksStepKeepsRunners(t0, b, tasks);
    }
  }

  lemma DispatchKeepsRunners(t: State, b: BatchId, r: nat)
    requires RunnerInv(t) && QueueOf(t.s, b) != [] && r in t.s.idle
    ensures RunnerInv(DispatchStep(t, b, r))
  {
  }

  lemma DoneKeepsRunners(t: State, f: nat, o: Outcome)
    requires RunnerInv(t) && f in t.s.live && t.s.live[f].piece.wrapper < |t.s.wrappers|
    ensures RunnerInv(DoneStep(t, f, o))
  {
    var st := t.s.live[f];
    var live := t.s.live - {f};
    assert PoolOk(t.h.runners, t.s.idle, t.s.busy, live, t.s.futures, t.h.restarting);
    assert PoolOk(t.h.runners, t.s.idle, t.s.busy, live, t.s.futures, t.h.restarting + multiset{st.runner});
    assert PoolOk(t.h.runners, t.s.idle + {st.runner}, t.s.busy - {st.runner}, live, t.s.futures, t.h.restarting);
    DoneRunnerParts(t.s, f, o);
  }

  lemma DoneRunnerParts(s: Sched, f: nat, o: Outcome)
    requires f in s.live && s.live[f].piece.wrapper < |s.wrappers|
    ensures var s', st := Done(s, f, o), s.live[f];
            && s'.live == s.live - {f} && s'.futures == s.futures
            && (if o.Failed? || (o.Cancelled? && st.restartOnCancel)
                then s'.idle == s.idle && s'.busy == s.busy
                else s'.idle == s.idle + {st.runner} && s'.busy == s.busy - {st.runner})
  {
    var st := s.live[f];
    var b := s.wrappers[st.piece.wrapper].batch;
    var s1 := s.(live := s.live - {f});
    match o {
      case Cancelled => LeaveRunningKeepsRunners(if st.restartOnCancel then s1 else Free(s1, st.runner), b, f);
      case Failed => LeaveRunningKeepsRunners(s1, b, f);
      case Completed(_, _, _) =>
        CompleteRunnerParts(s1, st, o);
        LeaveRunningKeepsRunners(Complete(s1, st, o), b, f);
    }
  }

  lemma LeaveRunningKeepsRunners(s: Sched, b: BatchId, f: nat)
    ensures SameRunners(LeaveRunning(s, b, f), s)
  {
  }

  lemma EmitKeepsRunners(s: Sched, i: nat)
    requires i < |s.wrappers|
    ensures SameRunners(Emit(s, i), s)
  {
  }

  lemma CompleteRunnerParts(s: Sched, st: RunState, o: Outcome)
    requires o.Completed? && st.piece.wrapper < |s.wrappers|
    ensures SameRunners(Complete(s, st, o), Free(s, st.runner))
  {
    var i := st.piece.wrapper;
    var w := Accumulate(s.wrappers[i], st.piece, o);
    EmitKeepsRunners(Free(s.(wrappers := s.wrappers[i := w]), st.runner), i);
  }

  lemma CleanupKeepsRunners(t: State, b: BatchId, order: seq<nat>, restart: bool)
    requires RunnerInv(t) && forall k :: 0 <= k < |order| ==> order[k] < |t.s.wrappers|
    ensures RunnerInv(CleanupStep(t, b, order, restart))
  {
    EmitPartialKeepsRunners(t.s, order);
    var s1 := EmitPartial(t.s, order);
    var s2 := MarkForCleanup(s1, b, restart);
    assert s2.busy.Keys == t.s.busy.Keys && s2.live.Keys == t.s.live.Keys;
    assert RunnerInv(State(s2, t.h));
  }

  lemma RunnerInvStep(t: State, e: Event)
    requires RunnerInv(t) && Enabled(t, e)
    ensures RunnerInv(Next(t, e))
  {
    match e
    case ScheduleEv(b, tasks) => ScheduleKeepsRunners(t, b, tasks);
    case DispatchEv(b, r) => DispatchKeepsRunners(t, b, r);
    case DropEmptyEv(b) =>
    case DoneEv(f, o) => DoneKeepsRunners(t, f, o);
    case CleanupEv(b, order, restart) => CleanupKeepsRunners(t, b, order, restart);
    case BeginRestartsEv(w) =>
    case RestartedEv(r) =>
    case DrainEv(b) =>
    case DiscardEv(b) =>
  }

  lemma RunnersAreFixed(t: State, e: Event)
    requires Enabled(t, e)
    ensures Next(t, e).h.runners == t.h.runners
  {
    if e.ScheduleEv? && e.tasks != [] {
      AddTasksStepKeepsRunners(State(CountTasks(t.s, e.b, |e.tasks|), t.h), e.b, e.tasks);
    }
  }

  lemma InitRunnerInv(runners: set<nat>, limit: Option<nat>)
    ensures RunnerInv(Init(runners, limit))
  {
  }

  // ---- one sub-task at a time -----------------------------------------------------------------

  /** Every live future occupies a runner, and the runner's record is the future's own. */
  ghost predicate Owned(t: State) {
    forall f :: f in t.s.live ==> t.s.live[f].runner in t.s.busy && t.s.busy[t.s.live[f].runner] == t.s.live[f]
  }

  ghost predicate NoLiveFutureOn(t: State, r: nat) {
    forall f :: f in t.s.live ==> t.s.live[f].runner != r
  }

  lemma DoneKeepsOwned(t: State, f: nat, o: Outcome)
    requires RunnerInv(t) && Owned(t) && f in t.s.live && t.s.live[f].piece.wrapper < |t.s.wrappers|
    ensures Owned(DoneStep(t, f, o))
  {
    DoneRunnerParts(t.s, f, o);
  }

  lemma CleanupKeepsOwned(t: State, b: BatchId, order: seq<nat>, restart: bool)
    requires Owned(t) && RunnerInv(t) && forall k :: 0 <= k < |order| ==> order[k] < |t.s.wrappers|
    ensures Owned(CleanupStep(t, b, order, restart))
  {
    EmitPartialKeepsRunners(t.s, order);
  }

  lemma ScheduleKeepsOwned(t: State, b: BatchId, tasks: seq<Task>)
    requires Owned(t) && (t.s.limit.Some? ==> t.s.limit.value > 0)
    ensures Owned(ScheduleStep(t, b, tasks)) && ScheduleStep(t, b, tasks).h.restarting == t.h.restarting
    ensures SameRunners(ScheduleStep(t, b, tasks).s, t.s)
  {
    if tasks != [] {
      var t0 := State(CountTasks(t.s, b, |tasks|), t.h);
      AddTasksKeepsRunners(t0.s, b, tasks);
      AddTasksStepKeepsRunners(t0, b, tasks);
    }
  }

  /** The one step that can put two sub-tasks on a runner is a restart that ends while the runner has a live future. */
  lemma OwnedStepIff(t: State, e: Event)
    requires RunnerInv(t) && Owned(t) && Enabled(t, e)
    ensures Owned(Next(t, e)) <==> (e.RestartedEv? ==> NoLiveFutureOn(t, e.r))
  {
    match e
    case ScheduleEv(b, tasks) => ScheduleKeepsOwned(t, b, tasks);
    case DoneEv(f, o) => DoneKeepsOwned(t, f, o);
    case CleanupEv(b, order, restart) => CleanupKeepsOwned(t, b, order, restart);
    case RestartedEv(r) =>
      if f :| f in t.s.live && t.s.live[f].runner == r { assert r !in Next(t, e).s.busy; }
    case _ =>
  }

  /** Whenever a restart ends in the run, its runner has no live future. */
  ghost predicate RestartsEndQuietly(t: State, es: seq<Event>)
    decreases |es|
  {
    es != [] && Enabled(t, es[0]) ==>
      (es[0].RestartedEv? ==> NoLiveFutureOn(t, es[0].r)) && RestartsEndQuietly(Next(t, es[0]), es[1..])
  }

  /** In all runs whose restarts end quietly, every live future occupies its own runner. */
  lemma {:induction false} OwnedThroughout(t: State, es: seq<Event>, t': State)
    requires RunnerInv(t) && Owned(t) && Run(t, es, t') && RestartsEndQuietly(t, es)
    ensures RunnerInv(t') && Owned(t')
    decreases |es|
  {
    if es != [] {
      RunnerInvStep(t, es[0]);
      OwnedStepIff(t, es[0]);
      OwnedThroughout(Next(t, es[0]), es[1..], t');
    }
  }

  /** A runner that a restart may start on: busy, its sub-task over, and no other restart in flight. */
  ghost predicate Quiet(t: State, r: nat) {
    r in t.s.busy && t.s.busy[r].future !in t.s.live && r !in t.h.restarting
  }

  /** The restarts a cleanup starts are on quiet runners. */
  ghost predicate Careful(t: State, e: Event) {
    e.BeginRestartsEv? ==> forall r :: r in RunnersOf(t.s, e.w.batch) ==> Quiet(t, r)
  }

  ghost predicate CarefulRun(t: State, es: seq<Event>, t': State)
    decreases |es|
  {
    if es == [] then t' == t
    else Enabled(t, es[0]) && Careful(t, es[0]) && CarefulRun(Next(t, es[0]), es[1..], t')
  }

  /** Owned, and every restart in flight is the only one of a runner whose sub-task is over. */
  ghost predicate Exclusive(t: State) {
    && Owned(t)
    && forall r :: r in t.h.restarting ==> t.h.restarting[r] == 1 && r in t.s.busy && t.s.busy[r].future !in t.s.live
  }

  lemma DoneKeepsExclusive(t: State, f: nat, o: Outcome)
    requires RunnerInv(t) && Exclusive(t) && f in t.s.live && t.s.live[f].piece.wrapper < |t.s.wrappers|
    ensures Exclusive(DoneStep(t, f, o))
  {
    DoneKeepsOwned(t, f, o);
    DoneRunnerParts(t.s, f, o);
    assert t.s.live[f].runner !in t.h.restarting;
  }

  lemma CleanupKeepsExclusive(t: State, b: BatchId, order: seq<nat>, restart: bool)
    requires RunnerInv(t) && Exclusive(t) && forall k :: 0 <= k < |order| ==> order[k] < |t.s.wrappers|
    ensures Exclusive(CleanupStep(t, b, order, restart))
  {
    CleanupKeepsOwned(t, b, order, restart);
    EmitPartialKeepsRunners(t.s, order);
  }

  lemma RestartedKeepsExclusive(t: State, r: nat)
    requires RunnerInv(t) && Exclusive(t) && r in t.h.restarting
    ensures Exclusive(State(Free(t.s, r), t.h.(restarting := t.h.restarting - multiset{r})))
  {
    assert NoLiveFutureOn(t, r);
  }

  lemma ExclusiveStep(t: State, e: Event)
    requires RunnerInv(t) && Exclusive(t) && Enabled(t, e) && Careful(t, e)
    ensures Exclusive(Next(t, e))
  {
    match e
    case ScheduleEv(b, tasks) => ScheduleKeepsOwned(t, b, tasks);
    case DoneEv(f, o) => DoneKeepsExclusive(t, f, o);
    case CleanupEv(b, order, restart) => CleanupKeepsExclusive(t, b, order, restart);
    case RestartedEv(r) => RestartedKeepsExclusive(t, r);
    case _ =>
  }

  lemma {:induction false} RunnerConservation(t: State, es: seq<Event>, t': State)
    requires RunnerInv(t) && Exclusive(t) && CarefulRun(t, es, t')
    ensures RunnerInv(t') && Exclusive(t') && t'.h.runners == t.h.runners
    decreases |es|
  {
    if es != [] {
      RunnerInvStep(t, es[0]);
      ExclusiveStep(t, es[0]);
      RunnersAreFixed(t, es[0]);
      RunnerConservation(Next(t, es[0]), es[1..], t');
    }
  }

  /** In every run whatsoever, restarts overlapping or not, each runner is idle or busy and never both. */
  lemma {:induction false} PoolIsPartitioned(t: State, es: seq<Event>, t': State)
    requires RunnerInv(t) && Run(t, es, t')
    ensures RunnerInv(t') && t'.h.runners == t.h.runners
    decreases |es|
  {
    if es != [] {
      RunnerInvStep(t, es[0]);
      RunnersAreFixed(t, es[0]);
      PoolIsPartitioned(Next(t, es[0]), es[1..], t');
    }
  }

  /**
   From start-up on, in every careful run: every live future occupies a runner whose record is the future's
   own, and no two live futures share a runner.
   */
  lemma NoRunnerRunsTwice(runners: set<nat>, limit: Option<nat>, es: seq<Event>, t: State)
    requires CarefulRun(Init(runners, limit), es, t)
    ensures t.s.idle !! t.s.busy.Keys && t.s.idle + t.s.busy.Keys == runners && Owned(t)
    ensures forall f, g :: f in t.s.live && g in t.s.live && f != g ==> t.s.live[f].runner != t.s.live[g].runner
  {
    InitRunnerInv(runners, limit);
    RunnerConservation(Init(runners, limit), es, t);
  }
}
