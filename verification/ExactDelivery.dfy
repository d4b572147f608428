/**
 Exactly once: a batch that is finalized with all its tasks has had every payload processed, whatever failed before;
 and the run ids of what was processed tell the runs apart.
 */
module ExactDelivery {
  import opened Common
  import opened BatchOrder
  import opened SubTasks
  import opened SchedulerModel
  import opened SchedulerMachine
  import opened PlaceInvariant
  import opened ProgressInvariant
  import opened SchedulerTheorems
  import opened BatchLifecycle
  import opened Delivery
  import R = RunResults
  import Retries = RunWithRetry

  /** No sub-task of these wrappers is queued or runs. */
  ghost predicate OverFor(place: map<Piece, Place>, ids: seq<nat>) {
    forall p :: p in place && p.wrapper in ids ==> place[p] == Finished || place[p] == Dropped
  }

  ghost predicate SameBearing(a: set<Piece>, c: set<Piece>, ids: seq<nat>) {
    forall p: Piece :: p.wrapper in ids ==> (p in a <==> p in c)
  }

  lemma {:induction false} AddTasksKeepsOthersOver(t: State, c: BatchId, tasks: seq<Task>, ids: seq<nat>)
    requires GoodLimit(t.s.limit) && OverFor(t.h.place, ids) && forall w :: w in ids ==> w < |t.s.wrappers|
    ensures var t' := AddTasksStep(t, c, tasks);
            OverFor(t'.h.place, ids) && t'.h.bearing == t.h.bearing && t'.h.partial == t.h.partial
  {
    if tasks != [] {
      var n := |tasks| - 1;
      var u := AddTasksStep(t, c, tasks[..n]);
      AddTasksKeepsOthersOver(t, c, tasks[..n], ids);
      NewPieceOwners(|u.s.wrappers|, tasks[n].runs, t.s.limit);
    }
  }

  /** What the end of a future does to the books. */
  lemma DoneHistory(t: State, f: nat, o: Outcome)
    requires f in t.s.live && t.s.live[f].piece.wrapper < |t.s.wrappers|
    ensures var h, p := DoneStep(t, f, o).h, t.s.live[f].piece;
            && h.partial == t.h.partial && (h.bearing == t.h.bearing || h.bearing == t.h.bearing + {p})
            && (h.place == t.h.place[p := Finished] || h.place == t.h.place[p := Dropped])
  {
  }

  lemma EndKeepsOver(place: map<Piece, Place>, p: Piece, end: Place, ids: seq<nat>)
    requires OverFor(place, ids) && (end == Finished || end == Dropped)
    ensures OverFor(place[p := end], ids)
  {
  }

  lemma RunningIsElsewhere(t: State, f: nat, ids: seq<nat>)
    requires PlaceInv(t) && f in t.s.live && OverFor(t.h.place, ids)
    ensures t.s.live[f].piece.wrapper !in ids
  {
    assert t.h.place[t.s.live[f].piece] == Place.Running(f);
  }

  lemma DoneKeepsOver(t: State, f: nat, o: Outcome, ids: seq<nat>)
    requires PlaceInv(t) && f in t.s.live && t.s.live[f].piece.wrapper < |t.s.wrappers| && OverFor(t.h.place, ids)
    ensures var h := DoneStep(t, f, o).h;
            OverFor(h.place, ids) && SameBearing(h.bearing, t.h.bearing, ids) && h.partial == t.h.partial
  {
    var p := t.s.live[f].piece;
    DoneHistory(t, f, o);
    RunningIsElsewhere(t, f, ids);
    EndKeepsOver(t.h.place, p, Finished, ids);
    EndKeepsOver(t.h.place, p, Dropped, ids);
  }

  lemma DispatchKeepsOver(t: State, b: BatchId, r: nat, ids: seq<nat>)
    requires PlaceInv(t) && QueueOf(t.s, b) != [] && r in t.s.idle && OverFor(t.h.place, ids)
    ensures OverFor(DispatchStep(t, b, r).h.place, ids)
  {
    var q := t.s.pending[b];
    assert q[|q| - 1] in q;
  }

  /** Once all sub-tasks of some wrappers are over, they stay over and return no further payload. */
  lemma OverStaysOver(t: State, e: Event, b: BatchId)
    requires Inv(t) && Enabled(t, e) && Foreign(b, e) && b in t.h.roster && OverFor(t.h.place, t.h.roster[b])
    ensures var h := Next(t, e).h;
            OverFor(h.place, t.h.roster[b]) && SameBearing(h.bearing, t.h.bearing, t.h.roster[b])
  {
    var ids := t.h.roster[b];
    match e
    case ScheduleEv(c, tasks) =>
      if tasks != [] {
        AddTasksKeepsOthersOver(State(CountTasks(t.s, c, |tasks|), t.h), c, tasks, ids);
      }
    case DispatchEv(c, r) => DispatchKeepsOver(t, c, r, ids);
    case DoneEv(f, o) => DoneKeepsOver(t, f, o, ids);
    case _ =>
  }

  lemma {:induction false} AddTasksKeepsPartial(t: State, c: BatchId, tasks: seq<Task>)
    requires GoodLimit(t.s.limit)
    ensures AddTasksStep(t, c, tasks).h.partial == t.h.partial
  {
    if tasks != [] { AddTasksKeepsPartial(t, c, tasks[..|tasks| - 1]); }
  }

  lemma EarlyEmissionsAreRemembered(t: State, e: Event)
    requires Enabled(t, e) && GoodLimit(t.s.limit)
    ensures t.h.partial <= Next(t, e).h.partial
  {
    if e.ScheduleEv? && e.tasks != [] {
      AddTasksKeepsPartial(State(CountTasks(t.s, e.b, |e.tasks|), t.h), e.b, e.tasks);
    }
  }

  /** The statuses of the last accepted finalize are those of all tasks, and none was emitted early. */
  ghost predicate DrainedInFull(x: Sys) {
    && 0 < x.life.batch.expected == |x.life.batch.statuses|
    && x.life.batch.id in x.t.h.roster && NoEarlyEmission(x.t, x.life.batch.id)
  }

  ghost predicate AllProcessed(x: Sys) {
    && OverFor(x.t.h.place, RosterOf(x.t.h, x.life.batch.id))
    && forall p :: p in x.t.h.bearing && p.wrapper in RosterOf(x.t.h, x.life.batch.id) ==> p in x.processed
  }

  ghost predicate FullMeansAll(x: Sys) {
    DrainedInFull(x) ==> AllProcessed(x)
  }

  lemma InUse(t: State, p: Piece)
    requires PlaceInv(t) && p in t.h.place
    ensures p.wrapper < |t.s.wrappers|
    ensures t.h.place[p] == Queued ==> p in QueuedOf(t, p.wrapper)
    ensures t.h.place[p].Running? ==> t.h.place[p].future in LiveOf(t, p.wrapper)
  {
  }

  ghost predicate FullDrain(x: Sys) {
    && SysInv(x) && SysEnabled(x, DrainAndCheck) && x.life.batch.expected > 0
    && |ResultsOf(x.t.s, x.life.batch.id)| == x.life.batch.expected && NoEarlyEmission(x.t, x.life.batch.id)
  }

  lemma FullDrainIsOver(x: Sys, agg: Aggregate)
    requires FullDrain(x)
    ensures OverFor(x.t.h.place, x.t.h.roster[x.life.batch.id])
  {
    forall p | p in x.t.h.place && p.wrapper in x.t.h.roster[x.life.batch.id]
      ensures x.t.h.place[p] == Finished || x.t.h.place[p] == Dropped
    {
      InUse(x.t, p);
      CompleteDrainDeliversEverything(x, agg, p);
    }
  }

  lemma FullDrainProcessesOne(x: Sys, agg: Aggregate, p: Piece)
    requires FullDrain(x) && p in x.t.h.bearing && p.wrapper in RosterOf(x.t.h, x.life.batch.id)
    ensures p in SysNext(x, DrainAndCheck, agg).processed
  {
    CompleteDrainDeliversEverything(x, agg, p);
  }

  /** A drain leaves places, payloads returned and rosters as they are. */
  lemma DrainKeepsBooks(x: Sys, agg: Aggregate)
    requires SysEnabled(x, DrainAndCheck)
    requires |ResultsOf(x.t.s, x.life.batch.id)| <= x.life.batch.expected
    ensures var y := SysNext(x, DrainAndCheck, agg);
            && y.t.h.place == x.t.h.place && y.t.h.bearing == x.t.h.bearing
            && y.life.batch.id == x.life.batch.id
            && RosterOf(y.t.h, x.life.batch.id) == RosterOf(x.t.h, x.life.batch.id)
  {
  }

  lemma FullDrainProcessesAll(x: Sys, agg: Aggregate)
    requires FullDrain(x)
    ensures AllProcessed(SysNext(x, DrainAndCheck, agg))
  {
    FullDrainIsOver(x, agg);
    DrainKeepsBooks(x, agg);
    forall p | p in x.t.h.bearing && p.wrapper in RosterOf(x.t.h, x.life.batch.id)
      ensures p in SysNext(x, DrainAndCheck, agg).processed
    {
      FullDrainProcessesOne(x, agg, p);
    }
  }

  lemma DrainKeepsFullMeansAll(x: Sys, agg: Aggregate)
    requires SysInv(x) && FullMeansAll(x) && SysEnabled(x, DrainAndCheck)
    requires |ResultsOf(x.t.s, x.life.batch.id)| <= x.life.batch.expected
    ensures FullMeansAll(SysNext(x, DrainAndCheck, agg))
  {
    var y := SysNext(x, DrainAndCheck, agg);
    if DrainedInFull(y) && AcceptTrain(x.life.batch, ResultsOf(x.t.s, x.life.batch.id)).Accepted? {
      FullDrainProcessesAll(x, agg);
    }
  }

  lemma SchedulerKeepsFullMeansAll(x: Sys, e: Event, agg: Aggregate)
    requires SysInv(x) && FullMeansAll(x) && SysEnabled(x, InScheduler(e))
    ensures FullMeansAll(SysNext(x, InScheduler(e), agg))
  {
    var b := x.life.batch.id;
    EarlyEmissionsAreRemembered(x.t, e);
    ForeignKeepsBooks(x.t, e, b);
    if DrainedInFull(SysNext(x, InScheduler(e), agg)) {
      assert DrainedInFull(x);
      OverStaysOver(x.t, e, b);
    }
  }

  lemma LifecycleKeepsHistory(x: Sys, le: LifeEvent, agg: Aggregate)
    requires SysInv(x) && SysEnabled(x, InLifecycle(le))
    ensures var y := SysNext(x, InLifecycle(le), agg);
            && y.t.h == x.t.h && y.processed == x.processed && y.life.batch.statuses == x.life.batch.statuses
            && SameSubmission(y.life.batch, x.life.batch)
  {
  }

  lemma LifecycleKeepsFullMeansAll(x: Sys, le: LifeEvent, agg: Aggregate)
    requires SysInv(x) && FullMeansAll(x) && SysEnabled(x, InLifecycle(le))
    ensures FullMeansAll(SysNext(x, InLifecycle(le), agg))
  {
    LifecycleKeepsHistory(x, le, agg);
  }

  lemma {:induction false} FullMeansAllThroughout(x: Sys, es: seq<SysEvent>, agg: Aggregate, x': Sys)
    requires SysInv(x) && FullMeansAll(x) && SysRun(x, es, agg, x')
    ensures SysInv(x') && FullMeansAll(x')
    decreases |es|
  {
    if es != [] {
      SysInvStep(x, es[0], agg);
      match es[0] {
        case InScheduler(e) => SchedulerKeepsFullMeansAll(x, e, agg);
        case DrainAndCheck => DrainKeepsFullMeansAll(x, agg);
        case InLifecycle(le) => LifecycleKeepsFullMeansAll(x, le, agg);
      }
      FullMeansAllThroughout(SysNext(x, es[0], agg), es[1..], agg, x');
    }
  }

  /**
   Whenever a batch stands finalized with all its tasks, none of them emitted early, every payload its sub-tasks
   returned has been processed exactly once: with or without a minimum, and whatever finalize calls failed before.
   Without a minimum it never stands finalized otherwise.
   */
  lemma ExactlyOnce(t: State, b: BatchId, tasks: seq<Task>, minWait: Option<nat>, es: seq<SysEvent>, agg: Aggregate,
                    x: Sys)
    requires Inv(t) && Fresh(t, b) && tasks != []
    requires SysRun(Submit(t, b, tasks, minWait), es, agg, x) && x.life.batch.phase == Finalized
    ensures b in x.t.h.roster && |x.t.h.roster[b]| == |tasks| && 1 <= |x.life.batch.statuses| <= |tasks|
    ensures minWait.None? ==> |x.life.batch.statuses| == |tasks|
    ensures |x.life.batch.statuses| == |tasks| && NoEarlyEmission(x.t, b) ==>
              && NoDup(x.processed)
              && forall p :: p in x.t.h.bearing && p.wrapper in x.t.h.roster[b] ==> p in x.processed
  {
    var x0 := Submit(t, b, tasks, minWait);
    SubmitInv(t, b, tasks, minWait);
    FullMeansAllThroughout(x0, es, agg, x);
    AtMostOnce(x0, es, agg, x);
  }

  // ---- run ids of what was processed ----------------------------------------------------------

  /**
   The attempt at the sub-task returned the experiences of these results of different runs, labelled with their ids.
   */
  ghost predicate Made<B(!new)>(p: Piece, a: Retries.Attempt<B>, rs: seq<R.RunResult<B>>) {
    && a.Returned? && a.payload == R.Experiences(p.base, rs)
    && exists outs: seq<R.Outcome<B>> :: |outs| == p.runs && R.ResultsOf(outs, rs)
  }

  /** Whatever an attempt returns was made that way. */
  ghost predicate AttemptAt<B(!new)>(p: Piece, a: Retries.Attempt<B>) {
    a.Returned? && a.payload != [] ==> exists rs :: Made(p, a, rs)
  }

  /** It is true of every attempt that goes through run_task with results of different runs of the sub-task. */
  lemma RunTaskMakesAttempt<B(!new)>(p: Piece, outs: seq<R.Outcome<B>>, rs: seq<R.RunResult<B>>,
                                     say: (nat, string) -> string, isEval: bool)
    requires |outs| == p.runs && R.ResultsOf(outs, rs)
    ensures AttemptAt(p, Retries.RunTask(R.StatusOf(p.runs, rs, say), R.Experiences(p.base, rs), isEval))
  {
    var a := Retries.RunTask(R.StatusOf(p.runs, rs, say), R.Experiences(p.base, rs), isEval);
    if a.payload != [] { assert Made(p, a, rs); }
  }

  /** What the scheduler gets from a sub-task after all retries. */
  function PayloadOf<B>(p: Piece, attempts: seq<Retries.Attempt<B>>, collect: bool): seq<R.Exp<B>> {
    match Retries.Retry(attempts, R.Status(0, p.runs, None), [], collect)
    case None => []
    case Some(r) => r.1
  }

  lemma PayloadIsOneAttempts<B(!new)>(p: Piece, attempts: seq<Retries.Attempt<B>>, collect: bool)
    returns (k: nat, rs: seq<R.RunResult<B>>)
    requires forall i :: 0 <= i < |attempts| ==> AttemptAt(p, attempts[i])
    requires PayloadOf(p, attempts, collect) != []
    ensures k < |attempts| && Made(p, attempts[k], rs) && PayloadOf(p, attempts, collect) == R.Experiences(p.base, rs)
  {
    Retries.OneAttemptDelivers(attempts, R.Status(0, p.runs, None), [], collect);
    k :| k < |attempts| && attempts[k].Returned? && attempts[k].payload == PayloadOf(p, attempts, collect);
    assert AttemptAt(p, attempts[k]);
    rs :| Made(p, attempts[k], rs);
  }

  /** Both experiences come from one run of one of the attempts. */
  ghost predicate SameRun<B(!new)>(p: Piece, attempts: seq<Retries.Attempt<B>>, e1: R.Exp<B>, e2: R.Exp<B>) {
    exists k, rs, i ::
      && 0 <= k < |attempts| && Made(p, attempts[k], rs)
      && 0 <= i < |rs| && R.ComesFrom(e1, p.base, rs[i]) && R.ComesFrom(e2, p.base, rs[i])
  }

  /** Within what one sub-task hands over, an id stands for one run of the attempt that made it. */
  lemma OneRunPerId<B(!new)>(p: Piece, attempts: seq<Retries.Attempt<B>>, k: nat, rs: seq<R.RunResult<B>>,
                             e1: R.Exp<B>, e2: R.Exp<B>)
    requires k < |attempts| && Made(p, attempts[k], rs)
    requires e1 in R.Experiences(p.base, rs) && e2 in R.Experiences(p.base, rs) && e1.run == e2.run
    ensures SameRun(p, attempts, e1, e2)
  {
    R.ExperienceOrigin(p.base, rs, e1);
    R.ExperienceOrigin(p.base, rs, e2);
    var i :| 0 <= i < |rs| && R.ComesFrom(e1, p.base, rs[i]);
    var j :| 0 <= j < |rs| && R.ComesFrom(e2, p.base, rs[j]);
    assert rs[i].index == rs[j].index;
    assert R.ComesFrom(e2, p.base, rs[i]);
  }

  /**
   Of everything processed, two experiences of one task share a run id only if they come from the same run of the
   same attempt at the same sub-task, and all ids lie below the task's number of runs.
   */
  lemma ProcessedRunIds<B(!new)>(x: Sys, work: Piece -> seq<Retries.Attempt<B>>, collect: bool,
                                 p: Piece, e1: R.Exp<B>, q: Piece, e2: R.Exp<B>)
    requires SysInv(x) && p in x.processed && q in x.processed && p.wrapper == q.wrapper
    requires forall i :: 0 <= i < |work(p)| ==> AttemptAt(p, work(p)[i])
    requires forall i :: 0 <= i < |work(q)| ==> AttemptAt(q, work(q)[i])
    requires e1 in PayloadOf(p, work(p), collect) && e2 in PayloadOf(q, work(q), collect)
    ensures p.wrapper < |x.t.s.wrappers| && e1.run < x.t.s.wrappers[p.wrapper].totalRuns
    ensures e1.run == e2.run ==> p == q && SameRun(p, work(p), e1, e2)
  {
    assert Created(x.t.s.limit, x.t.s.wrappers, p) && Created(x.t.s.limit, x.t.s.wrappers, q);
    var total := x.t.s.wrappers[p.wrapper].totalRuns;
    var k1, rs1 := PayloadIsOneAttempts(p, work(p), collect);
    var k2, rs2 := PayloadIsOneAttempts(q, work(q), collect);
    var outs1: seq<R.Outcome<B>> :| |outs1| == p.runs && R.ResultsOf(outs1, rs1);
    var outs2: seq<R.Outcome<B>> :| |outs2| == q.runs && R.ResultsOf(outs2, rs2);
    R.RunIdsIdentifyRuns(total, x.t.s.limit, p.wrapper, p, outs1, rs1, e1, q, outs2, rs2, e2);
    if e1.run == e2.run { OneRunPerId(p, work(p), k1, rs1, e1, e2); }
  }
}
