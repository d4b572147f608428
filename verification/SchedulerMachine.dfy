/**
 Every interleaving of scheduling, dispatch, completion, cleanup, restart and draining, with the
 bookkeeping (history) the properties are stated over.
 */
module SchedulerMachine {
  import opened Common
  import opened BatchOrder
  import opened SubTasks
  import opened SchedulerModel

  /** Where a sub-task is. Dropped: cancelled, crashed, or cleared from its queue. */
  datatype Place = Queued | Running(future: nat) | Finished | Dropped

  /** The payloads handed out, in order, and the wrappers whose results were. */
  datatype Handed = Handed(payloads: seq<Piece>, tasks: set<nat>)

  function HandOut(h: Handed, ids: seq<nat>, rs: seq<TaskResult>): Handed {
    Handed(h.payloads + Payloads(rs), h.tasks + set i | 0 <= i < |rs| && rs[i].taskId < |ids| :: ids[rs[i].taskId])
  }

  /** A cleanup that will restart runners, suspended until the futures it cancelled are gone. */
  datatype Wait = Wait(batch: BatchId, futures: set<nat>)

  /** What a sub-task reported when it completed. */
  datatype Report = Report(piece: Piece, runs: nat, error: Option<string>, hasPayload: bool)

  function RosterOf(h: History, b: BatchId): seq<nat> {
    if b in h.roster then h.roster[b] else []
  }

  datatype History = History(
    runners: set<nat>,               // all runners ever created
    place: map<Piece, Place>,        // every sub-task ever queued
    bearing: set<Piece>,             // finished sub-tasks that returned a payload
    partial: set<nat>,               // wrappers emitted by a cleanup
    roster: map<BatchId, seq<nat>>,  // the wrappers of the latest submission of each batch
    drained: Handed,                 // what draining has handed out
    planned: seq<nat>,               // the runs of every task, as scheduled
    reports: seq<Report>,            // the reports of all completed sub-tasks, in order
    cleanups: multiset<Wait>,        // suspended cleanups
    restarting: multiset<nat>)       // runners, once for each of their restarts in flight

  datatype State = State(s: Sched, h: History)

  function Init(runners: set<nat>, limit: Option<nat>): State {
    State(Sched(limit, runners, map[], map[], map[], map[], [], map[], map[], 0),
          History(runners, map[], {}, {}, map[], Handed([], {}), [], [], multiset{}, multiset{}))
  }

  datatype Event =
    | ScheduleEv(b: BatchId, tasks: seq<Task>)
    | DispatchEv(b: BatchId, r: nat)
    | DropEmptyEv(b: BatchId)
    | DoneEv(f: nat, o: Outcome)
    | CleanupEv(b: BatchId, order: seq<nat>, restart: bool)
    | BeginRestartsEv(w: Wait)
    | RestartedEv(r: nat)
    | DrainEv(b: BatchId)
    | DiscardEv(b: BatchId)

  /** Nothing of an earlier submission of b is left, not even a cancelled future still unwinding. */
  ghost predicate Fresh(t: State, b: BatchId) {
    !HasStep(t.s, b)
    && forall f :: f in t.s.live && t.s.live[f].piece.wrapper < |t.s.wrappers| ==>
         t.s.wrappers[t.s.live[f].piece.wrapper].batch != b
  }

  ghost predicate Enabled(t: State, e: Event) {
    match e
    case ScheduleEv(b, tasks) =>
      Fresh(t, b) && (t.s.limit.Some? ==> t.s.limit.value > 0)
    case DispatchEv(b, r) => QueueOf(t.s, b) != [] && r in t.s.idle && MayServe(t.s, b)
    case DropEmptyEv(b) => true
    case DoneEv(f, o) =>
      && f in t.s.live && t.s.live[f].piece.wrapper < |t.s.wrappers|
      && (o.Completed? ==> o.runs <= t.s.live[f].piece.runs)
    case CleanupEv(b, order, restart) =>
      && NoDup(order) && (forall k :: 0 <= k < |order| ==> order[k] < |t.s.wrappers|)
      && (order == [] || Elements(order) == Incomplete(t.s, b))
    case BeginRestartsEv(w) => w in t.h.cleanups && w.futures !! t.s.live.Keys
    case RestartedEv(r) => r in t.h.restarting
    case DrainEv(b) => true
    case DiscardEv(b) => true
  }

  function AddWrapper(h: History, b: BatchId, i: nat, w: nat, pieces: seq<Piece>): History {
    var earlier := if i == 0 || b !in h.roster then [] else h.roster[b];
    h.(place := map p | p in h.place.Keys + (set p | p in pieces) :: if p in pieces then Queued else h.place[p],
       roster := h.roster[b := earlier + [w]])
  }

  /** The wrapper and its sub-tasks enter the books together. */
  function AddTaskStep(t: State, b: BatchId, i: nat, task: Task): State
    requires t.s.limit.Some? ==> t.s.limit.value > 0
  {
    var h := AddWrapper(t.h, b, i, |t.s.wrappers|, Split(|t.s.wrappers|, task.runs, t.s.limit));
    State(AddTask(t.s, b, i, task), h.(planned := h.planned + [task.runs]))
  }

  function AddTasksStep(t: State, b: BatchId, tasks: seq<Task>): (t': State)
    requires t.s.limit.Some? ==> t.s.limit.value > 0
    ensures t'.s == AddTasks(t.s, b, tasks)
  {
    if tasks == [] then t
    else AddTaskStep(AddTasksStep(t, b, tasks[..|tasks| - 1]), b, |tasks| - 1, tasks[|tasks| - 1])
  }

  function ScheduleStep(t: State, b: BatchId, tasks: seq<Task>): (t': State)
    requires t.s.limit.Some? ==> t.s.limit.value > 0
    ensures t'.s == Schedule(t.s, b, tasks)
  {
    if tasks == [] then t else AddTasksStep(State(CountTasks(t.s, b, |tasks|), t.h), b, tasks)
  }

  function DispatchStep(t: State, b: BatchId, r: nat): State
    requires QueueOf(t.s, b) != [] && r in t.s.idle
  {
    var q := t.s.pending[b];
    State(Dispatch(t.s, b, r), t.h.(place := t.h.place[q[|q| - 1] := Running(t.s.futures)]))
  }

  function DoneStep(t: State, f: nat, o: Outcome): State
    requires f in t.s.live && t.s.live[f].piece.wrapper < |t.s.wrappers|
  {
    var st := t.s.live[f];
    State(Done(t.s, f, o), match o
      case Cancelled => t.h.(place := t.h.place[st.piece := Dropped])
      case Failed => t.h.(place := t.h.place[st.piece := Dropped], restarting := t.h.restarting + multiset{st.runner})
      case Completed(runs, error, hasPayload) =>
        t.h.(place := t.h.place[st.piece := Finished],
             reports := t.h.reports + [Report(st.piece, runs, error, hasPayload)],
             bearing := if hasPayload then t.h.bearing + {st.piece} else t.h.bearing))
  }

  function DropAll(place: map<Piece, Place>, q: seq<Piece>): map<Piece, Place> {
    map p | p in place :: if p in q then Dropped else place[p]
  }

  function CleanupStep(t: State, b: BatchId, order: seq<nat>, restart: bool): State
    requires forall k :: 0 <= k < |order| ==> order[k] < |t.s.wrappers|
  {
    State(Cleanup(t.s, b, order, restart),
      t.h.(place := DropAll(t.h.place, QueueOf(t.s, b)),
           partial := t.h.partial
             + (set w | w in order && !t.s.wrappers[w].emitted && t.s.wrappers[w].completedRuns > 0),
           cleanups := if restart then t.h.cleanups + multiset{Wait(b, RunningOf(t.s, b))} else t.h.cleanups))
  }

  function Next(t: State, e: Event): State
    requires Enabled(t, e)
  {
    match e
    case ScheduleEv(b, tasks) => ScheduleStep(t, b, tasks)
    case DispatchEv(b, r) => DispatchStep(t, b, r)
    case DropEmptyEv(b) => t.(s := DropEmptyQueue(t.s, b))
    case DoneEv(f, o) => DoneStep(t, f, o)
    case CleanupEv(b, order, restart) => CleanupStep(t, b, order, restart)
    case BeginRestartsEv(w) =>
      t.(h := t.h.(cleanups := t.h.cleanups - multiset{w},
                   restarting := t.h.restarting + multiset(RunnersOf(t.s, w.batch))))
    case RestartedEv(r) => State(Free(t.s, r), t.h.(restarting := t.h.restarting - multiset{r}))
    case DrainEv(b) =>
      State(Drain(t.s, b), t.h.(drained := HandOut(t.h.drained, RosterOf(t.h, b), ResultsOf(t.s, b))))
    case DiscardEv(b) => t.(s := Discard(t.s, b))
  }

  /** t' is reached from t by the events, each enabled when it happens. */
  ghost predicate Run(t: State, es: seq<Event>, t': State)
    decreases |es|
  {
    if es == [] then t' == t
    else Enabled(t, es[0]) && Run(Next(t, es[0]), es[1..], t')
  }
}
