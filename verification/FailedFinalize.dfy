/** What a finalize call that times out leaves behind: exactly when it can be retried as if it had not been made. */
module FailedFinalize {
  import opened Common
  import opened BatchOrder
  import opened SubTasks
  import opened SchedulerModel
  import opened SchedulerMachine
  import opened DeliveryInvariant
  import opened SchedulerTheorems
  import opened BatchLifecycle
  import opened Delivery

  /** Some task's result was handed out, and no finalize call is past its checks. */
  ghost predicate Spoiled(x: Sys) {
    && x.life.batch.minWait.None? && x.life.batch.expected > 0 && x.life.batch.phase != Finalized
    && (x.life.lock.None? || x.life.lock == Some(Waiting))
    && exists k ::
         0 <= k < |RosterOf(x.t.h, x.life.batch.id)| && RosterOf(x.t.h, x.life.batch.id)[k] in x.t.h.drained.tasks
  }

  lemma SpoiledStep(x: Sys, e: SysEvent, agg: Aggregate)
    requires SysInv(x) && SysEnabled(x, e) && Spoiled(x)
    requires e.DrainAndCheck? ==> |ResultsOf(x.t.s, x.life.batch.id)| <= x.life.batch.expected
    ensures Spoiled(SysNext(x, e, agg))
  {
    StepExtends(x, e, agg);
    var b := x.life.batch.id;
    var k :| 0 <= k < |RosterOf(x.t.h, b)| && RosterOf(x.t.h, b)[k] in x.t.h.drained.tasks;
    assert RosterOf(SysNext(x, e, agg).t.h, b)[k] in SysNext(x, e, agg).t.h.drained.tasks;
    if e.DrainAndCheck? {
      HandedTaskIsMissing(x.t, b, k);
    }
  }

  lemma {:induction false} SpoiledBatchIsNeverFinalized(x: Sys, es: seq<SysEvent>, agg: Aggregate, x': Sys)
    requires SysInv(x) && Spoiled(x) && SysRun(x, es, agg, x')
    ensures x'.life.batch.phase != Finalized && x'.processed == x.processed
    decreases |es|
  {
    if es != [] {
      SysInvStep(x, es[0], agg);
      SpoiledStep(x, es[0], agg);
      if es[0].DrainAndCheck? {
        var b := x.life.batch.id;
        var k :| 0 <= k < |RosterOf(x.t.h, b)| && RosterOf(x.t.h, b)[k] in x.t.h.drained.tasks;
        HandedTaskIsMissing(x.t, b, k);
      }
      SpoiledBatchIsNeverFinalized(SysNext(x, es[0], agg), es[1..], agg, x');
    }
  }

  /** Draining a batch that has no results changes nothing. */
  lemma DrainNothing(t: State, b: BatchId)
    requires DeliveryInv(t) && ResultsOf(t.s, b) == []
    ensures Next(t, DrainEv(b)) == t
  {
    assert b !in t.s.completed;
    assert t.s.completed - {b} == t.s.completed;
    assert Payloads([]) == [] && t.h.drained.payloads + [] == t.h.drained.payloads;
    assert HandOut(t.h.drained, RosterOf(t.h, b), []) == t.h.drained;
  }

  /** Draining a result hands out its task. */
  lemma DrainSpoils(x: Sys, agg: Aggregate)
    requires SysInv(x) && SysEnabled(x, DrainAndCheck) && ResultsOf(x.t.s, x.life.batch.id) != []
    requires |ResultsOf(x.t.s, x.life.batch.id)| <= x.life.batch.expected
    requires AcceptTrain(x.life.batch, ResultsOf(x.t.s, x.life.batch.id)).TimedOut?
    ensures Spoiled(SysNext(x, DrainAndCheck, agg))
  {
    var b := x.life.batch.id;
    var rs := ResultsOf(x.t.s, b);
    var y := SysNext(x, DrainAndCheck, agg);
    assert ResultOk(x.t.s.wrappers, x.t.h.roster[b], x.t.h.partial, x.t.h.drained, rs[0]);
    assert RosterOf(y.t.h, b)[rs[0].taskId] in y.t.h.drained.tasks;
  }

  /**
   A finalize that times out leaves everything but its lock as it was exactly when it had collected nothing; a retry
   is then as good as the first call. If it had collected something the batch is spoiled, if it was not already.
   */
  lemma TimeoutIsHarmlessIff(x: Sys, agg: Aggregate)
    requires SysInv(x) && SysEnabled(x, DrainAndCheck)
    requires AcceptTrain(x.life.batch, ResultsOf(x.t.s, x.life.batch.id)).TimedOut?
    ensures |ResultsOf(x.t.s, x.life.batch.id)| <= x.life.batch.expected
    ensures var y, rs := SysNext(x, DrainAndCheck, agg), ResultsOf(x.t.s, x.life.batch.id);
            && (y == x.(life := x.life.(lock := None)) <==> rs == [])
            && (Spoiled(y) <==> rs != [] || Spoiled(x))
            && y.processed == x.processed
  {
    var b := x.life.batch.id;
    ResultsAreBounded(x.t, b);
    if ResultsOf(x.t.s, b) == [] {
      DrainNothing(x.t, b);
    } else {
      DrainSpoils(x, agg);
      assert b in x.t.s.completed && b !in Next(x.t, DrainEv(b)).s.completed;
    }
  }

  /** From then on, for ever: a batch spoiled by a timeout is not finalized and nothing of it is processed. */
  lemma TimeoutAfterPartialDrainSpoils(x: Sys, es: seq<SysEvent>, agg: Aggregate, x': Sys)
    requires SysInv(x) && SysEnabled(x, DrainAndCheck)
    requires |ResultsOf(x.t.s, x.life.batch.id)| <= x.life.batch.expected && ResultsOf(x.t.s, x.life.batch.id) != []
    requires AcceptTrain(x.life.batch, ResultsOf(x.t.s, x.life.batch.id)).TimedOut?
    requires SysRun(SysNext(x, DrainAndCheck, agg), es, agg, x')
    ensures x'.life.batch.phase != Finalized && x'.processed == x.processed
  {
    SysInvStep(x, DrainAndCheck, agg);
    TimeoutIsHarmlessIff(x, agg);
    SpoiledBatchIsNeverFinalized(SysNext(x, DrainAndCheck, agg), es, agg, x');
  }

  // ---- a batch that gets spoiled --------------------------------------------------------------

  const TWO_TASKS := [Task(false, 1), Task(false, 1)]

  const ONE_DONE := Completed(1, None, true)

  lemma TwoTasksQueued() returns (t: State)
    ensures t == ScheduleStep(Init({0}, None), Step(1), TWO_TASKS)
    ensures t.s.wrappers == [Wrapper(Step(1), 0, false, 1, 0, 0, 1, [], None, false),
                             Wrapper(Step(1), 1, false, 1, 0, 0, 1, [], None, false)]
    ensures t.s.pending == map[Step(1) := [Piece(1, 1, 0), Piece(0, 1, 0)]]
    ensures t.s.idle == {0} && t.s.live == map[] && t.s.futures == 0 && t.s.completed == map[]
  {
    var u := State(CountTasks(Init({0}, None).s, Step(1), 2), Init({0}, None).h);
    assert TWO_TASKS[..1] == [Task(false, 1)] && TWO_TASKS[..1][..0] == [];
    var u1 := AddTaskStep(u, Step(1), 0, Task(false, 1));
    assert AddTasksStep(u, Step(1), TWO_TASKS[..1]) == u1;
    AddFirst(u.s);
    AddSecond(u1.s);
    t := AddTaskStep(u1, Step(1), 1, Task(false, 1));
  }

  lemma AddFirst(s: Sched)
    requires s.limit.None? && s.wrappers == [] && s.pending == map[]
    ensures AddTask(s, Step(1), 0, Task(false, 1)) ==
              s.(wrappers := [Wrapper(Step(1), 0, false, 1, 0, 0, 1, [], None, false)],
                 pending := map[Step(1) := [Piece(0, 1, 0)]])
  {
    assert Reverse([Piece(0, 1, 0)]) + [] == [Piece(0, 1, 0)];
  }

  lemma AddSecond(s: Sched)
    requires s.limit.None? && |s.wrappers| == 1 && s.pending == map[Step(1) := [Piece(0, 1, 0)]]
    ensures AddTask(s, Step(1), 1, Task(false, 1)) ==
              s.(wrappers := s.wrappers + [Wrapper(Step(1), 1, false, 1, 0, 0, 1, [], None, false)],
                 pending := map[Step(1) := [Piece(1, 1, 0), Piece(0, 1, 0)]])
  {
    assert Reverse([Piece(1, 1, 0)]) + [Piece(0, 1, 0)] == [Piece(1, 1, 0), Piece(0, 1, 0)];
  }

  lemma FirstStarts(t: State) returns (t': State)
    requires t.s.pending == map[Step(1) := [Piece(1, 1, 0), Piece(0, 1, 0)]] && t.s.idle == {0} && t.s.futures == 0
    requires t.s.live == map[]
    ensures Enabled(t, DispatchEv(Step(1), 0)) && t' == Next(t, DispatchEv(Step(1), 0))
    ensures t'.s.live == map[0 := RunState(0, Piece(0, 1, 0), 0, true)]
    ensures t'.s.wrappers == t.s.wrappers && t'.s.completed == t.s.completed
  {
    t' := DispatchStep(t, Step(1), 0);
  }

  lemma FirstEnds(t: State) returns (t': State)
    requires t.s.live == map[0 := RunState(0, Piece(0, 1, 0), 0, true)] && t.s.completed == map[]
    requires |t.s.wrappers| == 2 && t.s.wrappers[0] == Wrapper(Step(1), 0, false, 1, 0, 0, 1, [], None, false)
    ensures Enabled(t, DoneEv(0, ONE_DONE)) && t' == Next(t, DoneEv(0, ONE_DONE))
    ensures |ResultsOf(t'.s, Step(1))| == 1
  {
    t' := DoneStep(t, 0, ONE_DONE);
  }

  lemma ThenSys(x: Sys, e: SysEvent, es: seq<SysEvent>, agg: Aggregate, y: Sys)
    requires SysEnabled(x, e) && (e.DrainAndCheck? ==> |ResultsOf(x.t.s, x.life.batch.id)| <= x.life.batch.expected)
    requires SysRun(SysNext(x, e, agg), es, agg, y)
    ensures SysRun(x, [e] + es, agg, y)
  {
    assert ([e] + es)[1..] == es;
  }

  /** A finalize call is made, gets the lock, times out and drains. */
  const FINALIZE_CALL: seq<SysEvent> := [InLifecycle(CallFinalize)] + ([InLifecycle(Acquire)] + ([DrainAndCheck] + []))

  function AfterTwo(e1: Event, e2: Event): seq<SysEvent> {
    [InScheduler(e1)] + ([InScheduler(e2)] + FINALIZE_CALL)
  }

  /** The first finalize call of a batch, up to its checks. */
  lemma FirstCall(x: Sys, agg: Aggregate) returns (y: Sys)
    requires x.life == Birth(Submitted(x.life.batch.id, true, x.life.batch.expected, None))
    requires |ResultsOf(x.t.s, x.life.batch.id)| <= x.life.batch.expected
    ensures y == x.(life := x.life.(lock := Some(Waiting))) && SysEnabled(y, DrainAndCheck)
    ensures SysRun(x, FINALIZE_CALL, agg, SysNext(y, DrainAndCheck, agg))
  {
    var x1 := x.(life := x.life.(callers := 1));
    y := x.(life := x.life.(lock := Some(Waiting)));
    assert SysNext(x, InLifecycle(CallFinalize), agg) == x1 && SysNext(x1, InLifecycle(Acquire), agg) == y;
    ThenSys(y, DrainAndCheck, [], agg, SysNext(y, DrainAndCheck, agg));
    ThenSys(x1, InLifecycle(Acquire), [DrainAndCheck] + [], agg, SysNext(y, DrainAndCheck, agg));
    ThenSys(x, InLifecycle(CallFinalize), [InLifecycle(Acquire)] + ([DrainAndCheck] + []), agg,
            SysNext(y, DrainAndCheck, agg));
  }

  lemma KeepsInv(x: Sys, e: Event, agg: Aggregate)
    requires SysInv(x) && Enabled(x.t, e) && Foreign(x.life.batch.id, e)
    ensures SysInv(x.(t := Next(x.t, e)))
  {
    SysInvStep(x, InScheduler(e), agg);
  }

  /** A step of the scheduler in front of a run. */
  lemma ThenScheduler(x: Sys, e: Event, es: seq<SysEvent>, agg: Aggregate, y: Sys)
    requires Enabled(x.t, e) && Foreign(x.life.batch.id, e) && SysRun(x.(t := Next(x.t, e)), es, agg, y)
    ensures SysRun(x, [InScheduler(e)] + es, agg, y)
  {
    ThenSys(x, InScheduler(e), es, agg, y);
  }

  lemma TwoTasksSubmitted() returns (x: Sys)
    ensures x == Submit(Init({0}, None), Step(1), TWO_TASKS, None) && SysInv(x)
  {
    InitInv({0}, None);
    SubmitInv(Init({0}, None), Step(1), TWO_TASKS, None);
    x := Submit(Init({0}, None), Step(1), TWO_TASKS, None);
  }

  /** If it finds some results but not all, it spoils the batch. */
  lemma FirstCallSpoils(x: Sys, agg: Aggregate) returns (z: Sys)
    requires SysInv(x) && x.life == Birth(Submitted(x.life.batch.id, true, x.life.batch.expected, None))
    requires 0 < |ResultsOf(x.t.s, x.life.batch.id)| < x.life.batch.expected
    ensures SysRun(x, FINALIZE_CALL, agg, z) && Spoiled(z) && z.processed == x.processed
  {
    var y := FirstCall(x, agg);
    TimeoutIsHarmlessIff(y, agg);
    z := SysNext(y, DrainAndCheck, agg);
  }

  lemma TwoStepsAndACall(x: Sys, e1: Event, e2: Event, agg: Aggregate) returns (z: Sys)
    requires SysInv(x) && x.life == Birth(Submitted(x.life.batch.id, true, x.life.batch.expected, None))
    requires Enabled(x.t, e1) && Foreign(x.life.batch.id, e1)
    requires Enabled(Next(x.t, e1), e2) && Foreign(x.life.batch.id, e2)
    requires 0 < |ResultsOf(Next(Next(x.t, e1), e2).s, x.life.batch.id)| < x.life.batch.expected
    ensures SysRun(x, AfterTwo(e1, e2), agg, z) && Spoiled(z) && z.processed == x.processed
  {
    var x1 := x.(t := Next(x.t, e1));
    KeepsInv(x, e1, agg);
    KeepsInv(x1, e2, agg);
    z := FirstCallSpoils(x1.(t := Next(x1.t, e2)), agg);
    ThenScheduler(x1, e2, FINALIZE_CALL, agg, z);
    ThenScheduler(x, e1, [InScheduler(e2)] + FINALIZE_CALL, agg, z);
  }

  /** From submission: one task of two is done when a finalize call times out, and its result is lost for good. */
  lemma BatchCanBeSpoiled(agg: Aggregate)
    ensures exists x :: Spoiled(x) && x.processed == []
                     && SysRun(Submit(Init({0}, None), Step(1), TWO_TASKS, None),
                               AfterTwo(DispatchEv(Step(1), 0), DoneEv(0, ONE_DONE)), agg, x)
  {
    var x := TwoTasksSubmitted();
    var t := TwoTasksQueued();
    var t1 := FirstStarts(t);
    var t2 := FirstEnds(t1);
    var z := TwoStepsAndACall(x, DispatchEv(Step(1), 0), DoneEv(0, ONE_DONE), agg);
  }
}
