/**
 What task results report. The counters of a task are compared with the reports its completed sub-tasks made, kept
 in the history in order, and every result is compared with the reports made when it was emitted.
 */
module TaskReports {
  import opened Common
  import opened BatchOrder
  import opened SubTasks
  import opened SchedulerModel
  import opened SchedulerMachine
  import opened RunnerInvariant
  import opened PlaceInvariant
  import opened ProgressInvariant
  import opened TrackingInvariant
  import opened DeliveryInvariant
  import opened SchedulerTheorems

  // ---- reading the reports ------------------------------------------------------------------

  /** The reports of one task, in order. */
  function Of(log: seq<Report>, w: nat): seq<Report> {
    if log == [] then []
    else
      var r := log[|log| - 1];
      Of(log[..|log| - 1], w) + if r.piece.wrapper == w then [r] else []
  }

  function RunsIn(rs: seq<Report>): nat {
    if rs == [] then 0 else RunsIn(rs[..|rs| - 1]) + rs[|rs| - 1].runs
  }

  function PayloadsIn(rs: seq<Report>): seq<Piece> {
    if rs == [] then []
    else
      var r := rs[|rs| - 1];
      PayloadsIn(rs[..|rs| - 1]) + if r.hasPayload then [r.piece] else []
  }

  /** A sub-task that completed fewer runs than it had, and said why. */
  predicate Blames(r: Report) { r.runs != r.piece.runs && r.error.Some? }

  /** The first such error, if there is any. */
  ghost predicate IsFirstError(rs: seq<Report>, e: Option<string>) {
    match e
    case None => forall i :: 0 <= i < |rs| ==> !Blames(rs[i])
    case Some(_) =>
      exists i :: 0 <= i < |rs| && Blames(rs[i]) && rs[i].error == e && forall j :: 0 <= j < i ==> !Blames(rs[j])
  }

  /** What a result for a task of `plan` runs must say after these reports. */
  ghost predicate Tells(r: TaskResult, plan: nat, rs: seq<Report>) {
    && r.completedRuns == RunsIn(rs) && r.totalRuns == plan && r.payloads == PayloadsIn(rs)
    && (r.message == AllRunsCompleted <==> RunsIn(rs) == plan)
    && (r.message.FirstError? ==> IsFirstError(rs, Some(r.message.error)))
    && (r.message == RunsCancelled ==> IsFirstError(rs, None))
  }

  // ---- the counters agree with the reports --------------------------------------------------

  ghost predicate Recorded(x: Wrapper, plan: nat, rs: seq<Report>) {
    && x.totalRuns == plan && x.finished == |rs| && x.completedRuns == RunsIn(rs)
    && x.payloads == PayloadsIn(rs) && IsFirstError(rs, x.firstError)
  }

  ghost predicate LedgerOk(ws: seq<Wrapper>, planned: seq<nat>, log: seq<Report>) {
    && |planned| == |ws|
    && (forall i :: 0 <= i < |log| ==> log[i].piece.wrapper < |ws|)
    && forall w :: 0 <= w < |ws| ==> Recorded(ws[w], planned[w], Of(log, w))
  }

  ghost predicate LedgerInv(t: State) {
    LedgerOk(t.s.wrappers, t.h.planned, t.h.reports)
  }

  lemma OfSnoc(log: seq<Report>, r: Report, w: nat)
    ensures Of(log + [r], w) == Of(log, w) + if r.piece.wrapper == w then [r] else []
  {
    assert (log + [r])[..|log|] == log;
  }

  lemma {:induction false} NoneOf(log: seq<Report>, w: nat)
    requires forall i :: 0 <= i < |log| ==> log[i].piece.wrapper != w
    ensures Of(log, w) == []
  {
    if log != [] { NoneOf(log[..|log| - 1], w); }
  }

  lemma FirstErrorSnoc(rs: seq<Report>, r: Report, e: Option<string>)
    requires IsFirstError(rs, e)
    ensures IsFirstError(rs + [r], if e.None? && Blames(r) then r.error else e)
  {
    var rs' := rs + [r];
    assert forall i :: 0 <= i < |rs| ==> rs'[i] == rs[i];
    if e.Some? {
      var i :| 0 <= i < |rs| && Blames(rs[i]) && rs[i].error == e && forall j :: 0 <= j < i ==> !Blames(rs[j]);
      assert Blames(rs'[i]);
    } else if Blames(r) {
      assert Blames(rs'[|rs|]);
    }
  }

  /** One more report. */
  lemma RecordOne(x: Wrapper, plan: nat, rs: seq<Report>, p: Piece, o: Outcome)
    requires Recorded(x, plan, rs) && o.Completed?
    ensures Recorded(Accumulate(x, p, o), plan, rs + [Report(p, o.runs, o.error, o.hasPayload)])
  {
    var r := Report(p, o.runs, o.error, o.hasPayload);
    assert (rs + [r])[..|rs|] == rs;
    FirstErrorSnoc(rs, r, x.firstError);
  }

  lemma AddKeepsLedger(ws: seq<Wrapper>, planned: seq<nat>, log: seq<Report>, x: Wrapper)
    requires LedgerOk(ws, planned, log)
    requires x.finished == 0 && x.completedRuns == 0 && x.payloads == [] && x.firstError.None?
    ensures LedgerOk(ws + [x], planned + [x.totalRuns], log)
  {
    NoneOf(log, |ws|);
  }

  lemma EmissionKeepsLedger(ws: seq<Wrapper>, ws': seq<Wrapper>, planned: seq<nat>, log: seq<Report>)
    requires LedgerOk(ws, planned, log) && |ws'| == |ws|
    requires forall i :: 0 <= i < |ws| ==> ws'[i] == ws[i] || ws'[i] == ws[i].(emitted := true)
    ensures LedgerOk(ws', planned, log)
  {
  }

  lemma ReportKeepsLedger(ws: seq<Wrapper>, planned: seq<nat>, log: seq<Report>, p: Piece, o: Outcome)
    requires LedgerOk(ws, planned, log) && o.Completed? && p.wrapper < |ws|
    ensures LedgerOk(ws[p.wrapper := Accumulate(ws[p.wrapper], p, o)], planned,
                     log + [Report(p, o.runs, o.error, o.hasPayload)])
  {
    var r := Report(p, o.runs, o.error, o.hasPayload);
    var ws' := ws[p.wrapper := Accumulate(ws[p.wrapper], p, o)];
    forall w | 0 <= w < |ws'| ensures Recorded(ws'[w], planned[w], Of(log + [r], w)) {
      OfSnoc(log, r, w);
      if w == p.wrapper {
        RecordOne(ws[w], planned[w], Of(log, w), p, o);
      } else {
        assert Of(log + [r], w) == Of(log, w);
      }
    }
  }

  lemma AddTaskKeepsLedger(t: State, b: BatchId, i: nat, task: Task)
    requires LedgerInv(t) && GoodLimit(t.s.limit)
    ensures LedgerInv(AddTaskStep(t, b, i, task))
  {
    var pieces := Split(|t.s.wrappers|, task.runs, t.s.limit);
    AddKeepsLedger(t.s.wrappers, t.h.planned, t.h.reports,
                   Wrapper(b, i, task.isEval, |pieces|, 0, 0, task.runs, [], None, false));
  }

  lemma {:induction false} AddTasksKeepsLedger(t: State, b: BatchId, tasks: seq<Task>)
    requires LedgerInv(t) && GoodLimit(t.s.limit)
    ensures LedgerInv(AddTasksStep(t, b, tasks))
  {
    if tasks != [] {
      var n := |tasks| - 1;
      AddTasksKeepsLedger(t, b, tasks[..n]);
      AddTaskKeepsLedger(AddTasksStep(t, b, tasks[..n]), b, n, tasks[n]);
    }
  }

  lemma DoneKeepsLedger(t: State, f: nat, o: Outcome)
    requires LedgerInv(t) && f in t.s.live && t.s.live[f].piece.wrapper < |t.s.wrappers|
    ensures LedgerInv(DoneStep(t, f, o))
  {
    DonePlaceParts(t.s, f, o);
    if o.Completed? {
      var p, log := t.s.live[f].piece, DoneStep(t, f, o).h.reports;
      ReportKeepsLedger(t.s.wrappers, t.h.planned, t.h.reports, p, o);
      EmissionKeepsLedger(t.s.wrappers[p.wrapper := Accumulate(t.s.wrappers[p.wrapper], p, o)],
                          Done(t.s, f, o).wrappers, t.h.planned, log);
    }
  }

  lemma CleanupKeepsLedger(t: State, b: BatchId, order: seq<nat>, restart: bool)
    requires LedgerInv(t) && forall k :: 0 <= k < |order| ==> order[k] < |t.s.wrappers|
    ensures LedgerInv(CleanupStep(t, b, order, restart))
  {
    CleanupParts(t.s, b, order, restart);
    EmitPartialMarks(t.s, order);
    EmissionKeepsLedger(t.s.wrappers, EmitPartial(t.s, order).wrappers, t.h.planned, t.h.reports);
  }

  lemma LedgerStep(t: State, e: Event)
    requires LedgerInv(t) && GoodLimit(t.s.limit) && Enabled(t, e)
    ensures LedgerInv(Next(t, e))
  {
    match e
    case ScheduleEv(b, tasks) =>
      if tasks != [] { AddTasksKeepsLedger(State(CountTasks(t.s, b, |tasks|), t.h), b, tasks); }
    case DoneEv(f, o) => DoneKeepsLedger(t, f, o);
    case CleanupEv(b, order, restart) => CleanupKeepsLedger(t, b, order, restart);
    case _ =>
  }

  lemma {:induction false} RunKeepsLedger(t: State, es: seq<Event>, t': State)
    requires Inv(t) && LedgerInv(t) && Run(t, es, t')
    ensures Inv(t') && LedgerInv(t')
    decreases |es|
  {
    if es != [] {
      InvStep(t, es[0]);
      LedgerStep(t, es[0]);
      RunKeepsLedger(Next(t, es[0]), es[1..], t');
    }
  }

  // ---- what results say ---------------------------------------------------------------------

  lemma ResultTells(x: Wrapper, plan: nat, rs: seq<Report>)
    requires Recorded(x, plan, rs) && x.completedRuns <= x.totalRuns
    ensures Tells(ResultFor(x), plan, rs) && ResultFor(x).taskId == x.taskId
  {
  }

  lemma WrapperTells(t: State, w: nat)
    requires Inv(t) && LedgerInv(t) && w < |t.s.wrappers|
    ensures Tells(ResultFor(t.s.wrappers[w]), t.h.planned[w], Of(t.h.reports, w))
    ensures ResultFor(t.s.wrappers[w]).taskId == t.s.wrappers[w].taskId
  {
    SubTaskConservation(t, w);
    ResultTells(t.s.wrappers[w], t.h.planned[w], Of(t.h.reports, w));
  }

  /** r is the result of a task of batch b, and says what the reports so far say. */
  ghost predicate IsTold(t: State, b: BatchId, r: TaskResult) {
    exists w :: 0 <= w < |t.s.wrappers| && 0 <= w < |t.h.planned|
             && t.s.wrappers[w].batch == b && t.s.wrappers[w].taskId == r.taskId
             && Tells(r, t.h.planned[w], Of(t.h.reports, w))
  }

  lemma {:induction false} PutIsOldOrNew(rs: seq<TaskResult>, x: TaskResult, r: TaskResult)
    requires r in PutResult(rs, x)
    ensures r in rs || r == x
  {
    if rs != [] && rs[0].taskId != x.taskId && r != rs[0] { PutIsOldOrNew(rs[1..], x, r); }
  }

  lemma {:induction false} PutHolds(rs: seq<TaskResult>, x: TaskResult)
    ensures x in PutResult(rs, x)
    ensures forall r :: r in rs && r.taskId != x.taskId ==> r in PutResult(rs, x)
  {
    if rs != [] {
      PutHolds(rs[1..], x);
      assert forall r :: r in rs ==> r == rs[0] || r in rs[1..];
    }
  }

  lemma {:induction false} PartialIsOldOrNew(s: Sched, order: seq<nat>, b: BatchId, r: TaskResult)
    requires forall k :: 0 <= k < |order| ==> order[k] < |s.wrappers|
    requires r in ResultsOf(EmitPartial(s, order), b)
    ensures || r in ResultsOf(s, b)
            || exists i :: 0 <= i < |s.wrappers| && s.wrappers[i].batch == b && r == ResultFor(s.wrappers[i])
  {
    if order != [] {
      var n := |order| - 1;
      var s1, i := EmitPartial(s, order[..n]), order[n];
      EmitPartialMarks(s, order[..n]);
      assert s1.wrappers[i] == s.wrappers[i] || s1.wrappers[i] == s.wrappers[i].(emitted := true);
      if r in ResultsOf(s1, b) {
        PartialIsOldOrNew(s, order[..n], b, r);
      } else {
        PutIsOldOrNew(ResultsOf(s1, b), ResultFor(s1.wrappers[i]), r);
        assert r == ResultFor(s.wrappers[i]);
      }
    }
  }

  /**
   Whatever puts a result into the table, it says at that moment what the sub-tasks of its task have reported: the
   runs completed, the runs planned, the payloads, and the first error unless all runs completed.
   */
  lemma EmissionTells(t: State, e: Event, b: BatchId, r: TaskResult)
    requires Inv(t) && LedgerInv(t) && Enabled(t, e)
    requires r in ResultsOf(Next(t, e).s, b) && r !in ResultsOf(t.s, b)
    ensures IsTold(Next(t, e), b, r)
  {
    var t' := Next(t, e);
    InvStep(t, e);
    LedgerStep(t, e);
    match e
    case ScheduleEv(c, tasks) =>
      if tasks != [] { AddTasksKeepsRunners(CountTasks(t.s, c, |tasks|), c, tasks); }
    case DoneEv(f, o) => DoneTells(t, f, o, b, r);
    case CleanupEv(c, order, restart) => CleanupTells(t, c, order, restart, b, r);
    case _ =>
  }

  lemma DoneTells(t: State, f: nat, o: Outcome, b: BatchId, r: TaskResult)
    requires f in t.s.live && t.s.live[f].piece.wrapper < |t.s.wrappers|
    requires Inv(DoneStep(t, f, o)) && LedgerInv(DoneStep(t, f, o))
    requires r in ResultsOf(Done(t.s, f, o), b) && r !in ResultsOf(t.s, b)
    ensures IsTold(DoneStep(t, f, o), b, r)
  {
    DonePlaceParts(t.s, f, o);
    var i := t.s.live[f].piece.wrapper;
    var w := Accumulate(t.s.wrappers[i], t.s.live[f].piece, o);
    PutIsOldOrNew(ResultsOf(t.s, b), ResultFor(w), r);
    WrapperTells(DoneStep(t, f, o), i);
  }

  lemma CleanupTells(t: State, c: BatchId, order: seq<nat>, restart: bool, b: BatchId, r: TaskResult)
    requires Inv(t) && LedgerInv(t) && forall k :: 0 <= k < |order| ==> order[k] < |t.s.wrappers|
    requires r in ResultsOf(Cleanup(t.s, c, order, restart), b) && r !in ResultsOf(t.s, b)
    ensures IsTold(CleanupStep(t, c, order, restart), b, r)
  {
    CleanupParts(t.s, c, order, restart);
    PartialIsOldOrNew(t.s, order, b, r);
    var i :| 0 <= i < |t.s.wrappers| && t.s.wrappers[i].batch == b && r == ResultFor(t.s.wrappers[i]);
    WrapperTells(t, i);
  }

  /**
   In every state reached from start-up, a cached result that no cleanup emitted early says what all the sub-tasks
   of its task have reported.
   */
  lemma CachedResultsTell(runners: set<nat>, limit: Option<nat>, es: seq<Event>, t: State, b: BatchId, i: nat)
    requires GoodLimit(limit) && Run(Init(runners, limit), es, t) && i < |ResultsOf(t.s, b)|
    ensures var r := ResultsOf(t.s, b)[i];
            && b in t.h.roster && r.taskId < |t.h.roster[b]|
            && var w := t.h.roster[b][r.taskId];
               && w < |t.s.wrappers| == |t.h.planned| && t.s.wrappers[w].batch == b
               && (w !in t.h.partial ==>
                     Tells(r, t.h.planned[w], Of(t.h.reports, w)) && |Of(t.h.reports, w)| == t.s.wrappers[w].subTaskNum)
  {
    InitInv(runners, limit);
    RunKeepsLedger(Init(runners, limit), es, t);
    var r := t.s.completed[b][i];
    assert ResultOk(t.s.wrappers, t.h.roster[b], t.h.partial, t.h.drained, r);
    WrapperTells(t, t.h.roster[b][r.taskId]);
  }

  // ---- partial results ----------------------------------------------------------------------

  /** A sub-task that a cleanup of its batch finds: queued, or running and not cleared by an earlier cleanup. */
  ghost predicate Pending(t: State, p: Piece) {
    && p in t.h.place && p.wrapper < |t.s.wrappers|
    && var b := t.s.wrappers[p.wrapper].batch;
       t.h.place[p] == Queued || (t.h.place[p].Running? && (b in t.s.running || b in t.s.pending))
  }

  lemma PendingIsIncomplete(t: State, p: Piece)
    requires PlaceInv(t) && RunningInv(t) && Pending(t, p)
    ensures p.wrapper in Incomplete(t.s, t.s.wrappers[p.wrapper].batch)
  {
    var b := t.s.wrappers[p.wrapper].batch;
    if t.h.place[p] == Queued {
      assert p in QueueOf(t.s, b);
    } else {
      var f := t.h.place[p].future;
      assert f in t.s.live && t.s.live[f].piece == p && f in RunningOf(t.s, b);
    }
  }

  /** Emitting others leaves a result in the table. */
  lemma {:induction false} PartialHolds(s: Sched, order: seq<nat>, roster: map<BatchId, seq<nat>>, i: nat)
    requires forall k :: 0 <= k < |order| ==> order[k] < |s.wrappers| && OnRoster(s.wrappers, roster, order[k])
    requires NoDup(order) && i in order && !s.wrappers[i].emitted && s.wrappers[i].completedRuns > 0
    ensures ResultFor(s.wrappers[i]) in ResultsOf(EmitPartial(s, order), s.wrappers[i].batch)
  {
    var n := |order| - 1;
    var s1, j := EmitPartial(s, order[..n]), order[n];
    EmitPartialMarks(s, order[..n]);
    assert order == order[..n] + [j];
    assert ResultFor(s1.wrappers[j]) == ResultFor(s.wrappers[j]);
    if j == i {
      assert s1.wrappers[i] == s.wrappers[i];
      PutHolds(ResultsOf(s1, s.wrappers[i].batch), ResultFor(s.wrappers[i]));
    } else {
      PartialHolds(s, order[..n], roster, i);
      assert OnRoster(s.wrappers, roster, i) && OnRoster(s.wrappers, roster, j);
      PutHolds(ResultsOf(s1, s.wrappers[j].batch), ResultFor(s.wrappers[j]));
    }
  }

  /**
   A cleanup that returns partial results emits every task of the batch of which some sub-task has completed runs,
   some is still pending, and no result was emitted before; its result says what was reported so far.
   */
  lemma CleanupEmitsPartial(t: State, b: BatchId, order: seq<nat>, restart: bool, p: Piece)
    requires Inv(t) && LedgerInv(t) && Enabled(t, CleanupEv(b, order, restart)) && Elements(order) == Incomplete(t.s, b)
    requires Pending(t, p) && t.s.wrappers[p.wrapper].batch == b && RunsIn(Of(t.h.reports, p.wrapper)) > 0
    requires !t.s.wrappers[p.wrapper].emitted
    ensures var t', w := Next(t, CleanupEv(b, order, restart)), p.wrapper;
            && t'.s.wrappers[w].emitted && w in t'.h.partial
            && exists r :: r in ResultsOf(t'.s, b) && r.taskId == t.s.wrappers[w].taskId
                        && Tells(r, t.h.planned[w], Of(t.h.reports, w))
  {
    var w := p.wrapper;
    PendingIsIncomplete(t, p);
    assert w in Elements(order);
    forall k | 0 <= k < |order| ensures OnRoster(t.s.wrappers, t.h.roster, order[k]) {
      assert order[k] in Elements(order);
      IncompleteOnRoster(t, b, order[k]);
    }
    EmitPartialMarks(t.s, order);
    CleanupParts(t.s, b, order, restart);
    PartialHolds(t.s, order, t.h.roster, w);
    WrapperTells(t, w);
  }
}
