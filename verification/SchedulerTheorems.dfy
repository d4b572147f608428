/** What holds in every reachable state of the scheduler, under every interleaving of its steps. */
module SchedulerTheorems {
  import opened Common
  import opened BatchOrder
  import opened SubTasks
  import opened SchedulerModel
  import opened SchedulerMachine
  import opened RunnerInvariant
  import opened PlaceInvariant
  import opened ProgressInvariant
  import opened TrackingInvariant
  import opened DeliveryInvariant

  ghost predicate TaskInv(t: State) {
    PlaceInv(t) && ProgressInv(t) && RunningInv(t) && RosterInv(t) && DeliveryInv(t)
  }

  ghost predicate Inv(t: State) {
    RunnerInv(t) && TaskInv(t)
  }

  lemma InitInv(runners: set<nat>, limit: Option<nat>)
    requires GoodLimit(limit)
    ensures Inv(Init(runners, limit))
  {
  }

  // ---- scheduling ---------------------------------------------------------------------------

  /** While a submission is being split: nothing of the batch runs yet, and its roster has i wrappers. */
  ghost predicate Filling(t: State, b: BatchId, i: nat) {
    && b !in t.s.completed && b !in t.s.running && LiveInRange(t.s.wrappers, t.s.live)
    && (forall f :: f in t.s.live ==> BatchOf(t.s.wrappers, t.s.live[f]) != b)
    && (if i == 0 then b !in t.s.pending else b in t.h.roster && |t.h.roster[b]| == i)
  }

  lemma AddTaskKeepsTaskInv(t: State, b: BatchId, i: nat, task: Task)
    requires TaskInv(t) && Filling(t, b, i)
    ensures TaskInv(AddTaskStep(t, b, i, task)) && Filling(AddTaskStep(t, b, i, task), b, i + 1)
  {
    AddTaskKeepsPlaces(t, b, i, task);
    AddTaskKeepsProgress(t, b, i, task);
    AddTaskKeepsRunning(t, b, i, task);
    AddTaskKeepsRoster(t, b, i, task);
    AddTaskKeepsDelivery(t, b, i, task);
    AddTaskKeepsFilling(t, b, i, task);
  }

  lemma OldPiecesStay(t: State, b: BatchId, i: nat, w: nat, pieces: seq<Piece>)
    requires forall k :: 0 <= k < |pieces| ==> pieces[k].wrapper == w
    ensures var place' := AddWrapper(t.h, b, i, w, pieces).place;
            && (forall p :: p in t.h.place && p.wrapper < w ==> p in place' && place'[p] == t.h.place[p])
            && (forall p :: p in place' ==> (p in t.h.place && place'[p] == t.h.place[p]) || p.wrapper == w)
  {
  }

  lemma AddTaskKeepsRunning(t: State, b: BatchId, i: nat, task: Task)
    requires RunningInv(t) && Filling(t, b, i) && GoodLimit(t.s.limit)
    ensures RunningInv(AddTaskStep(t, b, i, task))
  {
    var pieces := Split(|t.s.wrappers|, task.runs, t.s.limit);
    var w := Wrapper(b, i, task.isEval, |pieces|, 0, 0, task.runs, [], None, false);
    AddKeepsRunning(t.s.wrappers, w, t.s.pending, Reverse(pieces) + QueueOf(t.s, b), t.s.running, t.s.live);
  }

  lemma AddTaskKeepsRoster(t: State, b: BatchId, i: nat, task: Task)
    requires PlaceInv(t) && RosterInv(t) && Filling(t, b, i)
    ensures RosterInv(AddTaskStep(t, b, i, task))
  {
    var n := |t.s.wrappers|;
    var pieces := Split(n, task.runs, t.s.limit);
    NewPieceOwners(n, task.runs, t.s.limit);
    var w := Wrapper(b, i, task.isEval, |pieces|, 0, 0, task.runs, [], None, false);
    var earlier := if i == 0 || b !in t.h.roster then [] else t.h.roster[b];
    OldPiecesStay(t, b, i, n, pieces);
    if i == 0 { NoUnfinishedPieceOf(t, b); }
    AddKeepsRoster(t.s.wrappers, w, t.h.roster, earlier, t.h.place, AddWrapper(t.h, b, i, n, pieces).place);
  }

  lemma NewPieceOwners(w: nat, total: nat, limit: Option<nat>)
    requires GoodLimit(limit)
    ensures var ps := Split(w, total, limit); forall k :: 0 <= k < |ps| ==> ps[k].wrapper == w
  {
    SplitTiles(w, total, limit);
  }

  lemma AddTaskKeepsDelivery(t: State, b: BatchId, i: nat, task: Task)
    requires DeliveryInv(t) && Filling(t, b, i) && GoodLimit(t.s.limit)
    ensures DeliveryInv(AddTaskStep(t, b, i, task))
  {
    var n := |t.s.wrappers|;
    var pieces := Split(n, task.runs, t.s.limit);
    NewPieceOwners(n, task.runs, t.s.limit);
    var w := Wrapper(b, i, task.isEval, |pieces|, 0, 0, task.runs, [], None, false);
    var earlier := if i == 0 || b !in t.h.roster then [] else t.h.roster[b];
    OldPiecesStay(t, b, i, n, pieces);
    AddTaskTouches(t, b, i, task);
    AddKeepsDelivery(t.s.wrappers, w, t.h.place, AddWrapper(t.h, b, i, n, pieces).place,
      t.h.bearing, t.h.partial, t.h.drained, t.h.roster, earlier + [n], t.s.completed);
  }

  /** What adding a task changes of what delivery depends on. */
  lemma AddTaskTouches(t: State, b: BatchId, i: nat, task: Task)
    requires GoodLimit(t.s.limit)
    ensures var t', n := AddTaskStep(t, b, i, task), |t.s.wrappers|;
            var pieces := Split(n, task.runs, t.s.limit);
            && t'.s.wrappers == t.s.wrappers + [Wrapper(b, i, task.isEval, |pieces|, 0, 0, task.runs, [], None, false)]
            && t'.s.completed == t.s.completed && t'.h.place == AddWrapper(t.h, b, i, n, pieces).place
            && t'.h.bearing == t.h.bearing && t'.h.partial == t.h.partial && t'.h.drained == t.h.drained
            && t'.h.roster == t.h.roster[b := (if i == 0 || b !in t.h.roster then [] else t.h.roster[b]) + [n]]
  {
  }

  lemma AddTaskKeepsFilling(t: State, b: BatchId, i: nat, task: Task)
    requires Filling(t, b, i) && GoodLimit(t.s.limit)
    ensures Filling(AddTaskStep(t, b, i, task), b, i + 1)
  {
  }

  lemma NoUnfinishedPieceOf(t: State, b: BatchId)
    requires PlaceInv(t) && Filling(t, b, 0)
    ensures forall p ::
              p in t.h.place && (t.h.place[p] == Queued || t.h.place[p].Running?) && p.wrapper < |t.s.wrappers| ==>
              t.s.wrappers[p.wrapper].batch != b
  {
  }

  lemma {:induction false} AddTasksKeepsTaskInv(t: State, b: BatchId, tasks: seq<Task>)
    requires TaskInv(t) && Filling(t, b, 0)
    ensures TaskInv(AddTasksStep(t, b, tasks)) && Filling(AddTasksStep(t, b, tasks), b, |tasks|)
  {
    if tasks != [] {
      var n := |tasks| - 1;
      AddTasksKeepsTaskInv(t, b, tasks[..n]);
      AddTaskKeepsTaskInv(AddTasksStep(t, b, tasks[..n]), b, n, tasks[n]);
    }
  }

  lemma ScheduleKeepsTaskInv(t: State, b: BatchId, tasks: seq<Task>)
    requires TaskInv(t) && Fresh(t, b)
    ensures TaskInv(ScheduleStep(t, b, tasks))
    ensures tasks != [] ==> Filling(ScheduleStep(t, b, tasks), b, |tasks|)
  {
    if tasks != [] {
      var t0 := State(CountTasks(t.s, b, |tasks|), t.h);
      assert TaskInv(t0);
      AddTasksKeepsTaskInv(t0, b, tasks);
    }
  }

  // ---- the other steps ----------------------------------------------------------------------

  lemma DispatchKeepsTaskInv(t: State, b: BatchId, r: nat)
    requires Inv(t) && QueueOf(t.s, b) != [] && r in t.s.idle
    ensures TaskInv(DispatchStep(t, b, r))
  {
    assert t.s.futures !in t.s.live;
    DispatchKeepsPlaces(t, b, r);
    DispatchKeepsRunning(t, b, r);
    DispatchKeepsTasks(t, b, r);
  }

  lemma DispatchKeepsTasks(t: State, b: BatchId, r: nat)
    requires Inv(t) && QueueOf(t.s, b) != [] && r in t.s.idle
    ensures var t' := DispatchStep(t, b, r); ProgressInv(t') && RosterInv(t') && DeliveryInv(t')
  {
    var q := t.s.pending[b];
    assert q[|q| - 1] in q;
    var place' := t.h.place[q[|q| - 1] := Running(t.s.futures)];
    MoveKeepsProgress(t.s.limit, t.s.wrappers, t.s.wrappers, t.h.place, place');
    RosterDependsOnTasks(t.s.wrappers, t.s.wrappers, t.h.roster, t.h.place, place');
    MoveKeepsPayloads(t.s.wrappers, t.h.place, place', t.h.bearing, t.h.partial);
  }

  lemma DispatchKeepsRunning(t: State, b: BatchId, r: nat)
    requires Inv(t) && QueueOf(t.s, b) != [] && r in t.s.idle
    ensures RunningInv(DispatchStep(t, b, r))
  {
    var q := t.s.pending[b];
    var p := q[|q| - 1];
    assert p in q && t.s.futures !in t.s.live;
    StartKeepsRunning(t.s.wrappers, b, t.s.pending, q[..|q| - 1], t.s.running, t.s.live,
                      RunState(t.s.futures, p, r, true));
  }

  /** An empty queue goes: nothing else about the tasks changes. */
  lemma DropEmptyKeepsPlaces(t: State, b: BatchId)
    requires PlaceInv(t)
    ensures PlaceInv(t.(s := DropEmptyQueue(t.s, b)))
  {
  }

  lemma DropEmptyKeepsRunning(t: State, b: BatchId)
    requires RunningInv(t)
    ensures RunningInv(t.(s := DropEmptyQueue(t.s, b)))
  {
  }

  lemma DropEmptyKeepsTasks(t: State, b: BatchId)
    requires ProgressInv(t) && RosterInv(t) && DeliveryInv(t)
    ensures var t' := t.(s := DropEmptyQueue(t.s, b)); ProgressInv(t') && RosterInv(t') && DeliveryInv(t')
  {
    assert DropEmptyQueue(t.s, b).wrappers == t.s.wrappers && DropEmptyQueue(t.s, b).completed == t.s.completed;
  }

  lemma DropEmptyKeepsTaskInv(t: State, b: BatchId)
    requires TaskInv(t)
    ensures TaskInv(t.(s := DropEmptyQueue(t.s, b)))
  {
    DropEmptyKeepsPlaces(t, b);
    DropEmptyKeepsRunning(t, b);
    DropEmptyKeepsTasks(t, b);
  }

  lemma DoneRunningPart(s: Sched, f: nat, o: Outcome)
    requires f in s.live && s.live[f].piece.wrapper < |s.wrappers|
    ensures var b := s.wrappers[s.live[f].piece.wrapper].batch;
            Done(s, f, o).running == LeaveRunning(s, b, f).running
  {
    var st := s.live[f];
    var b := s.wrappers[st.piece.wrapper].batch;
    var s1 := s.(live := s.live - {f});
    match o {
      case Cancelled => LeaveRunningReadsRunning(s, if st.restartOnCancel then s1 else Free(s1, st.runner), b, f);
      case Failed => LeaveRunningReadsRunning(s, s1, b, f);
      case Completed(_, _, _) =>
        CompleteKeepsRunning(s1, st, o);
        LeaveRunningReadsRunning(s, Complete(s1, st, o), b, f);
    }
  }

  lemma LeaveRunningReadsRunning(a: Sched, c: Sched, b: BatchId, f: nat)
    requires a.running == c.running
    ensures LeaveRunning(a, b, f).running == LeaveRunning(c, b, f).running
  {
    LeaveRunningValue(a, b, f);
    LeaveRunningValue(c, b, f);
  }

  lemma CompleteKeepsRunning(s: Sched, st: RunState, o: Outcome)
    requires o.Completed? && st.piece.wrapper < |s.wrappers|
    ensures Complete(s, st, o).running == s.running
  {
  }

  lemma DoneKeepsRunning(t: State, f: nat, o: Outcome)
    requires RunningInv(t) && f in t.s.live && t.s.live[f].piece.wrapper < |t.s.wrappers|
    ensures RunningInv(DoneStep(t, f, o))
  {
    var s' := Done(t.s, f, o);
    DonePlaceParts(t.s, f, o);
    DoneRunningPart(t.s, f, o);
    var b := t.s.wrappers[t.s.live[f].piece.wrapper].batch;
    LeaveRunningValue(t.s, b, f);
    LeaveKeepsRunning(t.s.wrappers, t.s.pending, t.s.running, s'.running, t.s.live, f);
    RunningDependsOnTasks(t.s.wrappers, s'.wrappers, t.s.pending, s'.running, s'.live, s'.live);
  }

  lemma LeaveRunningValue(s: Sched, b: BatchId, f: nat)
    ensures LeaveRunning(s, b, f).running ==
              if b !in s.running then s.running
              else if s.running[b] - {f} == {} then s.running - {b}
              else s.running[b := s.running[b] - {f}]
  {
  }

  lemma EndKeepsRoster(ws: seq<Wrapper>, ws': seq<Wrapper>, roster: map<BatchId, seq<nat>>, place: map<Piece, Place>,
                       p: Piece, end: Place)
    requires RosterOk(ws, roster, place) && SameTasks(ws, ws') && (end == Finished || end == Dropped)
    ensures RosterOk(ws', roster, place[p := end])
  {
    RosterDependsOnTasks(ws, ws', roster, place, place[p := end]);
  }

  lemma DoneKeepsRoster(t: State, f: nat, o: Outcome)
    requires PlaceInv(t) && RosterInv(t) && f in t.s.live && t.s.live[f].piece.wrapper < |t.s.wrappers|
    ensures RosterInv(DoneStep(t, f, o))
  {
    DonePlaceParts(t.s, f, o);
    EndKeepsRoster(t.s.wrappers, Done(t.s, f, o).wrappers, t.h.roster, t.h.place, t.s.live[f].piece,
                   if o.Completed? then Finished else Dropped);
  }

  lemma RunningPiece(t: State, f: nat)
    requires PlaceInv(t) && RosterInv(t) && f in t.s.live
    ensures var p := t.s.live[f].piece;
            p in t.h.place && t.h.place[p] == Running(f) && OnRoster(t.s.wrappers, t.h.roster, p.wrapper)
  {
  }

  lemma RunningIsUnfinished(t: State, f: nat, o: Outcome)
    requires PlaceInv(t) && ProgressInv(t) && RosterInv(t) && f in t.s.live
    requires o.Completed? && o.runs <= t.s.live[f].piece.runs
    ensures var w := t.s.live[f].piece.wrapper;
            w < |t.s.wrappers| && t.s.wrappers[w].finished < t.s.wrappers[w].subTaskNum
  {
    RunningPiece(t, f);
    FinishKeepsProgress(t.s.limit, t.s.wrappers, t.h.place, t.s.live[f].piece, o);
  }

  lemma DoneKeepsDelivery(t: State, f: nat, o: Outcome)
    requires TaskInv(t) && f in t.s.live
    requires o.Completed? ==> o.runs <= t.s.live[f].piece.runs
    ensures DeliveryInv(DoneStep(t, f, o))
  {
    RunningPiece(t, f);
    if o.Completed? {
      RunningIsUnfinished(t, f, o);
      CompletedKeepsDelivery(t, f, o);
    } else {
      LostKeepsDelivery(t, f, o);
    }
  }

  lemma LostKeepsDelivery(t: State, f: nat, o: Outcome)
    requires DeliveryInv(t) && f in t.s.live && !o.Completed?
    requires t.s.live[f].piece in t.h.place && t.h.place[t.s.live[f].piece] == Running(f)
    requires t.s.live[f].piece.wrapper < |t.s.wrappers|
    ensures DeliveryInv(DoneStep(t, f, o))
  {
    DonePlaceParts(t.s, f, o);
    MoveKeepsPayloads(t.s.wrappers, t.h.place, t.h.place[t.s.live[f].piece := Dropped], t.h.bearing, t.h.partial);
  }

  lemma CompletedKeepsDelivery(t: State, f: nat, o: Outcome)
    requires DeliveryInv(t) && f in t.s.live && o.Completed?
    requires t.s.live[f].piece in t.h.place && t.h.place[t.s.live[f].piece] == Running(f)
    requires OnRoster(t.s.wrappers, t.h.roster, t.s.live[f].piece.wrapper)
    requires var w := t.s.wrappers[t.s.live[f].piece.wrapper]; w.finished < w.subTaskNum
    ensures DeliveryInv(DoneStep(t, f, o))
  {
    var p := t.s.live[f].piece;
    var ws := t.s.wrappers;
    var w := Accumulate(ws[p.wrapper], p, o);
    DonePlaceParts(t.s, f, o);
    FinishKeepsDelivery(ws, t.h.place, t.h.bearing, t.h.partial, t.h.drained, t.h.roster, t.s.completed, p, o);
    var last := w.finished == w.subTaskNum && !w.emitted;
    var ws' := ws[p.wrapper := if last then w.(emitted := true) else w];
    assert Done(t.s, f, o).wrappers == ws';
    assert DoneStep(t, f, o).h.bearing == Bear(t.h.bearing, p, o);
  }

  /** The table with the wrapper's result. */
  ghost function PutIn(completed: map<BatchId, seq<TaskResult>>, w: Wrapper): map<BatchId, seq<TaskResult>> {
    completed[w.batch := PutResult(if w.batch in completed then completed[w.batch] else [], ResultFor(w))]
  }

  /** Accumulating a result, and emitting the wrapper if that was its last sub-task. */
  lemma FinishKeepsDelivery(ws: seq<Wrapper>, place: map<Piece, Place>, bearing: set<Piece>, partial: set<nat>,
                            drained: Handed, roster: map<BatchId, seq<nat>>, completed: map<BatchId, seq<TaskResult>>,
                            p: Piece, o: Outcome)
    requires PayloadsOk(ws, place, bearing, partial) && DrainedOk(ws, bearing, drained)
    requires ResultsOk(ws, roster, partial, completed, drained)
    requires o.Completed? && p in place && place[p] != Finished && OnRoster(ws, roster, p.wrapper)
    requires ws[p.wrapper].finished < ws[p.wrapper].subTaskNum
    ensures var i, w := p.wrapper, Accumulate(ws[p.wrapper], p, o);
            var last := w.finished == w.subTaskNum && !w.emitted;
            var ws' := ws[i := if last then w.(emitted := true) else w];
            && PayloadsOk(ws', place[p := Finished], Bear(bearing, p, o), partial)
            && DrainedOk(ws', Bear(bearing, p, o), drained)
            && ResultsOk(ws', roster, partial,
                 if last then PutIn(completed, w)
                 else completed, drained)
  {
    var i, w := p.wrapper, Accumulate(ws[p.wrapper], p, o);
    FinishKeepsPayloads(ws, place, bearing, partial, p, o);
    FinishKeepsResults(ws, place, bearing, partial, drained, roster, completed, p, o);
    if w.finished == w.subTaskNum && !w.emitted {
      var ws1 := ws[i := w];
      assert OnRoster(ws1, roster, i);
      assert ws1[i := w.(emitted := true)] == ws[i := w.(emitted := true)];
      FullEmissionKeepsDelivery(ws1, place[p := Finished], Bear(bearing, p, o), partial, drained, roster, completed, i);
    }
  }

  lemma FullEmissionKeepsDelivery(ws: seq<Wrapper>, place: map<Piece, Place>, bearing: set<Piece>, partial: set<nat>,
                                  drained: Handed, roster: map<BatchId, seq<nat>>,
                                  completed: map<BatchId, seq<TaskResult>>, i: nat)
    requires PayloadsOk(ws, place, bearing, partial) && DrainedOk(ws, bearing, drained)
    requires ResultsOk(ws, roster, partial, completed, drained)
    requires i < |ws| && OnRoster(ws, roster, i) && !ws[i].emitted && ws[i].finished == ws[i].subTaskNum
    ensures var w, ws' := ws[i], ws[i := ws[i].(emitted := true)];
            && PayloadsOk(ws', place, bearing, partial) && DrainedOk(ws', bearing, drained)
            && ResultsOk(ws', roster, partial,
                 PutIn(completed, w), drained)
  {
    EmitKeepsPayloads(ws, place, bearing, partial, partial, drained, i);
    EmitKeepsResults(ws, place, bearing, partial, partial, drained, roster, completed, i);
  }

  /** The wrappers a cleanup emits early are on the batch's roster. */
  lemma IncompleteOnRoster(t: State, b: BatchId, w: nat)
    requires TaskInv(t) && w in Incomplete(t.s, b)
    ensures OnRoster(t.s.wrappers, t.h.roster, w)
  {
    if p :| p in QueueOf(t.s, b) && p.wrapper == w {
      assert t.h.place[p] == Queued;
    } else {
      var f :| f in RunningOf(t.s, b) && f in t.s.live && t.s.live[f].piece.wrapper == w;
      assert t.h.place[t.s.live[f].piece].Running?;
    }
  }

  ghost function EarlyEmitted(ws: seq<Wrapper>, order: seq<nat>): set<nat>
    requires forall k :: 0 <= k < |order| ==> order[k] < |ws|
  {
    set w | w in order && !ws[w].emitted && ws[w].completedRuns > 0
  }

  ghost predicate Delivered(s: Sched, place: map<Piece, Place>, bearing: set<Piece>, partial: set<nat>,
                            drained: Handed, roster: map<BatchId, seq<nat>>)
  {
    && PayloadsOk(s.wrappers, place, bearing, partial) && DrainedOk(s.wrappers, bearing, drained)
    && ResultsOk(s.wrappers, roster, partial, s.completed, drained)
  }

  lemma OneEarlyEmission(s: Sched, place: map<Piece, Place>, bearing: set<Piece>, partial: set<nat>,
                         drained: Handed, roster: map<BatchId, seq<nat>>, i: nat)
    requires Delivered(s, place, bearing, partial, drained, roster) && i < |s.wrappers|
        && OnRoster(s.wrappers, roster, i)
    ensures Delivered(EmitPartialOne(s, i), place, bearing,
              partial + (if !s.wrappers[i].emitted && s.wrappers[i].completedRuns > 0 then {i} else {}), drained,
              roster)
  {
    if !s.wrappers[i].emitted && s.wrappers[i].completedRuns > 0 {
      EmitKeepsPayloads(s.wrappers, place, bearing, partial, partial + {i}, drained, i);
      EmitKeepsResults(s.wrappers, place, bearing, partial, partial + {i}, drained, roster, s.completed, i);
    }
  }

  lemma EarlyEmittedSnoc(ws: seq<Wrapper>, order: seq<nat>, i: nat)
    requires (forall k :: 0 <= k < |order| ==> order[k] < |ws|) && i < |ws|
    ensures EarlyEmitted(ws, order + [i]) ==
              EarlyEmitted(ws, order) + if !ws[i].emitted && ws[i].completedRuns > 0 then {i} else {}
  {
  }

  lemma OneMoreEarlyEmission(s: Sched, place: map<Piece, Place>, bearing: set<Piece>, partial: set<nat>,
                             drained: Handed, roster: map<BatchId, seq<nat>>, order: seq<nat>, i: nat)
    requires (forall k :: 0 <= k < |order| ==> order[k] < |s.wrappers|) && i !in order
        && OnRoster(s.wrappers, roster, i)
    requires Delivered(EmitPartial(s, order), place, bearing, partial + EarlyEmitted(s.wrappers, order), drained,
                       roster)
    ensures Delivered(EmitPartialOne(EmitPartial(s, order), i), place, bearing,
              partial + EarlyEmitted(s.wrappers, order + [i]), drained, roster)
  {
    var early := EarlyEmitted(s.wrappers, order);
    EmittedFirst(s, order, i, roster);
    OneEarlyEmission(EmitPartial(s, order), place, bearing, partial + early, drained, roster, i);
    EarlyEmittedSnoc(s.wrappers, order, i);
    if !s.wrappers[i].emitted && s.wrappers[i].completedRuns > 0 {
      assert partial + EarlyEmitted(s.wrappers, order + [i]) == partial + early + {i};
    } else {
      assert partial + EarlyEmitted(s.wrappers, order + [i]) == partial + early;
    }
  }

  lemma {:induction false} EarlyEmissions(s: Sched, place: map<Piece, Place>, bearing: set<Piece>, partial: set<nat>,
                         drained: Handed, roster: map<BatchId, seq<nat>>, order: seq<nat>)
    requires Delivered(s, place, bearing, partial, drained, roster) && NoDup(order)
    requires forall k :: 0 <= k < |order| ==> order[k] < |s.wrappers| && OnRoster(s.wrappers, roster, order[k])
    ensures Delivered(EmitPartial(s, order), place, bearing, partial + EarlyEmitted(s.wrappers, order), drained, roster)
  {
    if order == [] {
      assert partial + EarlyEmitted(s.wrappers, order) == partial;
    } else {
      var n := |order| - 1;
      assert order[..n] + [order[n]] == order;
      EarlyEmissions(s, place, bearing, partial, drained, roster, order[..n]);
      OneMoreEarlyEmission(s, place, bearing, partial, drained, roster, order[..n], order[n]);
    }
  }

  /** Emitting others does not touch wrapper i. */
  lemma EmittedFirst(s: Sched, order: seq<nat>, i: nat, roster: map<BatchId, seq<nat>>)
    requires forall k :: 0 <= k < |order| ==> order[k] < |s.wrappers|
    requires i !in order && OnRoster(s.wrappers, roster, i)
    ensures EmitPartial(s, order).wrappers[i] == s.wrappers[i] && OnRoster(EmitPartial(s, order).wrappers, roster, i)
  {
    EmitPartialParts(s, order);
  }

  lemma CleanupKeepsTaskInv(t: State, b: BatchId, order: seq<nat>, restart: bool)
    requires TaskInv(t) && Enabled(t, CleanupEv(b, order, restart))
    ensures TaskInv(CleanupStep(t, b, order, restart))
  {
    CleanupKeepsPlaces(t, b, order, restart);
    CleanupKeepsProgress(t, b, order, restart);
    CleanupKeepsIndexes(t, b, order, restart);
    CleanupKeepsDelivery(t, b, order, restart);
  }

  lemma CleanupKeepsIndexes(t: State, b: BatchId, order: seq<nat>, restart: bool)
    requires TaskInv(t) && forall k :: 0 <= k < |order| ==> order[k] < |t.s.wrappers|
    ensures RunningInv(CleanupStep(t, b, order, restart)) && RosterInv(CleanupStep(t, b, order, restart))
  {
    var s' := Cleanup(t.s, b, order, restart);
    CleanupParts(t.s, b, order, restart);
    ClearKeepsRunning(t.s.wrappers, t.s.pending, t.s.running, t.s.live, b);
    RunningDependsOnTasks(t.s.wrappers, s'.wrappers, s'.pending, s'.running, t.s.live, s'.live);
    RosterDependsOnTasks(t.s.wrappers, s'.wrappers, t.h.roster, t.h.place, DropAll(t.h.place, QueueOf(t.s, b)));
  }

  lemma ClearKeepsRunning(ws: seq<Wrapper>, pending: map<BatchId, seq<Piece>>, running: map<BatchId, set<nat>>,
                          live: map<nat, RunState>, b: BatchId)
    requires RunningOk(ws, pending, running, live)
    ensures RunningOk(ws, pending - {b}, running - {b}, live)
  {
  }

  lemma CleanupKeepsDelivery(t: State, b: BatchId, order: seq<nat>, restart: bool)
    requires TaskInv(t) && Enabled(t, CleanupEv(b, order, restart))
    ensures DeliveryInv(CleanupStep(t, b, order, restart))
  {
    forall k | 0 <= k < |order| ensures OnRoster(t.s.wrappers, t.h.roster, order[k]) {
      assert order[k] in Elements(order);
      IncompleteOnRoster(t, b, order[k]);
    }
    EarlyEmissions(t.s, t.h.place, t.h.bearing, t.h.partial, t.h.drained, t.h.roster, order);
    CleanupParts(t.s, b, order, restart);
    var partial' := t.h.partial + EarlyEmitted(t.s.wrappers, order);
    MoveKeepsPayloads(EmitPartial(t.s, order).wrappers, t.h.place, DropAll(t.h.place, QueueOf(t.s, b)), t.h.bearing,
                      partial');
  }

  lemma DiscardKeepsTaskInv(t: State, b: BatchId)
    requires TaskInv(t)
    ensures TaskInv(t.(s := Discard(t.s, b)))
  {
  }

  lemma DrainKeepsTaskInv(t: State, b: BatchId)
    requires TaskInv(t)
    ensures TaskInv(Next(t, DrainEv(b)))
  {
    DrainKeepsDelivery(t, b);
  }

  lemma InvStep(t: State, e: Event)
    requires Inv(t) && Enabled(t, e)
    ensures Inv(Next(t, e))
  {
    RunnerInvStep(t, e);
    match e
    case ScheduleEv(b, tasks) => ScheduleKeepsTaskInv(t, b, tasks);
    case DispatchEv(b, r) => DispatchKeepsTaskInv(t, b, r);
    case DropEmptyEv(b) => DropEmptyKeepsTaskInv(t, b);
    case DoneEv(f, o) =>
      DoneKeepsPlaces(t, f, o);
      DoneKeepsProgress(t, f, o);
      DoneKeepsRunning(t, f, o);
      DoneKeepsRoster(t, f, o);
      DoneKeepsDelivery(t, f, o);
    case CleanupEv(b, order, restart) => CleanupKeepsTaskInv(t, b, order, restart);
    case BeginRestartsEv(w) =>
    case RestartedEv(r) =>
    case DrainEv(b) => DrainKeepsTaskInv(t, b);
    case DiscardEv(b) => DiscardKeepsTaskInv(t, b);
  }

  lemma {:induction false} RunKeepsInv(t: State, es: seq<Event>, t': State)
    requires Inv(t) && Run(t, es, t')
    ensures Inv(t')
    decreases |es|
  {
    if es != [] {
      InvStep(t, es[0]);
      RunKeepsInv(Next(t, es[0]), es[1..], t');
    }
  }

  /**
   Every state reached from start-up: counters balance, results are full or marked partial, no payload is handed out
   twice.
   */
  lemma ReachableStates(runners: set<nat>, limit: Option<nat>, es: seq<Event>, t: State)
    requires GoodLimit(limit) && Run(Init(runners, limit), es, t)
    ensures Inv(t)
    ensures forall w :: 0 <= w < |t.s.wrappers| ==>
              var x := t.s.wrappers[w];
              && x.finished + |QueuedOf(t, w)| + |LiveOf(t, w)| + |DroppedOf(t, w)| == x.subTaskNum
              && x.completedRuns <= x.totalRuns
              && (x.emitted && w !in t.h.partial ==> x.finished == x.subTaskNum)
    ensures NoDup(t.h.drained.payloads)
  {
    InitInv(runners, limit);
    RunKeepsInv(Init(runners, limit), es, t);
    forall w | 0 <= w < |t.s.wrappers|
      ensures var x := t.s.wrappers[w];
              && x.finished + |QueuedOf(t, w)| + |LiveOf(t, w)| + |DroppedOf(t, w)| == x.subTaskNum
              && x.completedRuns <= x.totalRuns
    {
      SubTaskConservation(t, w);
    }
  }
}
