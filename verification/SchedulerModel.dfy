/**
 The rollout scheduler's state and its atomic steps, as values. An atomic step is the code
 between two suspension points of the event loop. Futures are numbers; the serialized payload of
 a sub-task is named by the sub-task itself.
 */
module SchedulerModel {
  import opened Common
  import opened BatchOrder
  import opened SubTasks

  datatype Task = Task(isEval: bool, runs: nat)

  /** The mutable record of one task; its identity is its index in `Sched.wrappers`. */
  datatype Wrapper = Wrapper(
    batch: BatchId, taskId: nat, isEval: bool,
    subTaskNum: nat, finished: nat, completedRuns: nat, totalRuns: nat,
    payloads: seq<Piece>, firstError: Option<string>, emitted: bool)

  /** The record shared by busy_runners and running_task_state_map. */
  datatype RunState = RunState(future: nat, piece: Piece, runner: nat, restartOnCancel: bool)

  datatype Message = AllRunsCompleted | FirstError(error: string) | RunsCancelled

  datatype TaskResult = TaskResult(
    taskId: nat, completedRuns: nat, totalRuns: nat, message: Message, payloads: seq<Piece>)

  /** How a sub-task's future ends. */
  datatype Outcome =
    | Cancelled
    | Failed
    | Completed(runs: nat, error: Option<string>, hasPayload: bool)

  datatype Sched = Sched(
    limit: Option<nat>,                        // max_repeat_times
    idle: set<nat>,
    busy: map<nat, RunState>,
    pending: map<BatchId, seq<Piece>>,         // deques: left end first, served from the right end
    running: map<BatchId, set<nat>>,
    live: map<nat, RunState>,                  // running_task_state_map
    wrappers: seq<Wrapper>,
    completed: map<BatchId, seq<TaskResult>>,  // insertion-ordered dicts keyed by task id
    taskNum: map<BatchId, nat>,
    futures: nat)                              // futures created so far

  function QueueOf(s: Sched, b: BatchId): seq<Piece> {
    if b in s.pending then s.pending[b] else []
  }

  function RunningOf(s: Sched, b: BatchId): set<nat> {
    if b in s.running then s.running[b] else {}
  }

  function ResultsOf(s: Sched, b: BatchId): seq<TaskResult> {
    if b in s.completed then s.completed[b] else []
  }

  // ---- scheduling ---------------------------------------------------------------------------

  function AddTask(s: Sched, b: BatchId, i: nat, task: Task): Sched
    requires s.limit.Some? ==> s.limit.value > 0
  {
    var pieces := Split(|s.wrappers|, task.runs, s.limit);
    var w := Wrapper(b, i, task.isEval, |pieces|, 0, 0, task.runs, [], None, false);
    s.(wrappers := s.wrappers + [w], pending := s.pending[b := Reverse(pieces) + QueueOf(s, b)])
  }

  function AddTasks(s: Sched, b: BatchId, tasks: seq<Task>): (s': Sched)
    requires s.limit.Some? ==> s.limit.value > 0
    ensures s'.limit == s.limit && |s'.wrappers| == |s.wrappers| + |tasks|
  {
    if tasks == [] then s
    else AddTask(AddTasks(s, b, tasks[..|tasks| - 1]), b, |tasks| - 1, tasks[|tasks| - 1])
  }

  function Schedule(s: Sched, b: BatchId, tasks: seq<Task>): Sched
    requires s.limit.Some? ==> s.limit.value > 0
  {
    if tasks == [] then s else AddTasks(CountTasks(s, b, |tasks|), b, tasks)
  }

  function CountTasks(s: Sched, b: BatchId, n: nat): Sched {
    s.(taskNum := s.taskNum[b := n + if b in s.taskNum then s.taskNum[b] else 0])
  }

  // ---- dispatch -----------------------------------------------------------------------------

  /** Start the next sub-task of b on idle runner r; the new future is number `s.futures`. */
  function Dispatch(s: Sched, b: BatchId, r: nat): Sched
    requires QueueOf(s, b) != [] && r in s.idle
  {
    var q := s.pending[b];
    var st := RunState(s.futures, q[|q| - 1], r, true);
    s.(idle := s.idle - {r}, busy := s.busy[r := st], live := s.live[s.futures := st],
       pending := s.pending[b := q[..|q| - 1]],
       running := s.running[b := RunningOf(s, b) + {s.futures}],
       futures := s.futures + 1)
  }

  function DropEmptyQueue(s: Sched, b: BatchId): Sched {
    if QueueOf(s, b) == [] then s.(pending := s.pending - {b}) else s
  }

  /** The guard of every dispatch: no batch that must precede b has a queued sub-task. */
  predicate MayServe(s: Sched, b: BatchId) {
    forall c :: c in s.pending && Before(c, b) ==> s.pending[c] == []
  }

  // ---- completion ---------------------------------------------------------------------------

  function Free(s: Sched, r: nat): Sched {
    s.(busy := s.busy - {r}, idle := s.idle + {r})
  }

  function Accumulate(w: Wrapper, p: Piece, o: Outcome): Wrapper
    requires o.Completed?
  {
    w.(finished := w.finished + 1,
       completedRuns := w.completedRuns + o.runs,
       payloads := if o.hasPayload then w.payloads + [p] else w.payloads,
       firstError := if o.runs != p.runs && w.firstError.None? then o.error else w.firstError)
  }

  function ResultFor(w: Wrapper): TaskResult {
    var message :=
      if w.completedRuns >= w.totalRuns then AllRunsCompleted
      else if w.firstError.Some? then FirstError(w.firstError.value)
      else RunsCancelled;
    TaskResult(w.taskId, w.completedRuns, w.totalRuns, message, w.payloads)
  }

  /** dict[task_id] = result: an existing key keeps its position. */
  function PutResult(rs: seq<TaskResult>, r: TaskResult): seq<TaskResult> {
    if rs == [] then [r]
    else if rs[0].taskId == r.taskId then [r] + rs[1..]
    else [rs[0]] + PutResult(rs[1..], r)
  }

  function Emit(s: Sched, i: nat): (s': Sched)
    requires i < |s.wrappers|
    ensures |s'.wrappers| == |s.wrappers|
  {
    var w := s.wrappers[i];
    if w.emitted then s
    else
      s.(completed := s.completed[w.batch := PutResult(ResultsOf(s, w.batch), ResultFor(w))],
         wrappers := s.wrappers[i := w.(emitted := true)])
  }

  /** The future leaves its batch's set, and an empty set leaves the table. */
  function DropFuture(running: map<BatchId, set<nat>>, b: BatchId, f: nat): map<BatchId, set<nat>> {
    if b !in running then running
    else if running[b] - {f} == {} then running - {b}
    else running[b := running[b] - {f}]
  }

  function LeaveRunning(s: Sched, b: BatchId, f: nat): Sched {
    s.(running := DropFuture(s.running, b, f))
  }

  function Complete(s: Sched, st: RunState, o: Outcome): Sched
    requires o.Completed? && st.piece.wrapper < |s.wrappers|
  {
    var i := st.piece.wrapper;
    var w := Accumulate(s.wrappers[i], st.piece, o);
    var s1 := Free(s.(wrappers := s.wrappers[i := w]), st.runner);
    if w.finished == w.subTaskNum then Emit(s1, i) else s1
  }

  function Done(s: Sched, f: nat, o: Outcome): Sched
    requires f in s.live && s.live[f].piece.wrapper < |s.wrappers|
  {
    var st := s.live[f];
    var b := s.wrappers[st.piece.wrapper].batch;
    var s1 := s.(live := s.live - {f});
    var s2 := match o
      case Cancelled => if st.restartOnCancel then s1 else Free(s1, st.runner)
      case Failed => s1
      case Completed(_, _, _) => Complete(s1, st, o);
    LeaveRunning(s2, b, f)
  }

  // ---- cleanup ------------------------------------------------------------------------------

  predicate WellIndexed(s: Sched) {
    && (forall b, i :: b in s.pending && 0 <= i < |s.pending[b]| ==> s.pending[b][i].wrapper < |s.wrappers|)
    && (forall f :: f in s.live ==> s.live[f].piece.wrapper < |s.wrappers|)
  }

  /** Wrappers with a queued sub-task or a tracked future in batch b. */
  function Incomplete(s: Sched, b: BatchId): set<nat> {
    (set p | p in QueueOf(s, b) :: p.wrapper)
    + (set f | f in RunningOf(s, b) && f in s.live :: s.live[f].piece.wrapper)
  }

  function EmitPartialOne(s: Sched, i: nat): (s': Sched)
    requires i < |s.wrappers|
    ensures |s'.wrappers| == |s.wrappers|
  {
    if s.wrappers[i].emitted || s.wrappers[i].completedRuns <= 0 then s else Emit(s, i)
  }

  function EmitPartial(s: Sched, order: seq<nat>): (s': Sched)
    requires forall k :: 0 <= k < |order| ==> order[k] < |s.wrappers|
    ensures |s'.wrappers| == |s.wrappers|
  {
    if order == [] then s
    else EmitPartialOne(EmitPartial(s, order[..|order| - 1]), order[|order| - 1])
  }

  /** Writing the flag of the records of the given tracked futures, wherever they are referenced. */
  function MarkAll(m: map<nat, RunState>, futures: set<nat>, tracked: set<nat>, restart: bool): map<nat, RunState> {
    map k | k in m :: if m[k].future in futures && m[k].future in tracked then m[k].(restartOnCancel := restart)
        else m[k]
  }

  /** The flag lives in one shared record, so the write shows in both maps. */
  function MarkForCleanup(s: Sched, b: BatchId, restart: bool): Sched {
    s.(live := MarkAll(s.live, RunningOf(s, b), s.live.Keys, restart),
       busy := MarkAll(s.busy, RunningOf(s, b), s.live.Keys, restart))
  }

  function ClearBatch(s: Sched, b: BatchId): Sched {
    s.(pending := s.pending - {b}, running := s.running - {b}, taskNum := s.taskNum - {b})
  }

  /** The first half of _cleanup_batch; `order` is the order partial results are emitted in. */
  function Cleanup(s: Sched, b: BatchId, order: seq<nat>, restart: bool): Sched
    requires forall k :: 0 <= k < |order| ==> order[k] < |s.wrappers|
  {
    ClearBatch(MarkForCleanup(EmitPartial(s, order), b, restart), b)
  }

  /** The second half: the runners still busy with the batch, all restarted. */
  function RunnersOf(s: Sched, b: BatchId): set<nat> {
    set r | r in s.busy && s.busy[r].piece.wrapper < |s.wrappers| && s.wrappers[s.busy[r].piece.wrapper].batch == b
  }

  // ---- draining -----------------------------------------------------------------------------

  function Payloads(rs: seq<TaskResult>): seq<Piece> {
    Flatten(seq(|rs|, i requires 0 <= i < |rs| => rs[i].payloads))
  }

  function Drain(s: Sched, b: BatchId): Sched {
    s.(completed := s.completed - {b})
  }

  function Discard(s: Sched, b: BatchId): Sched {
    s.(completed := s.completed - {b}, taskNum := s.taskNum - {b})
  }

  predicate HasStep(s: Sched, b: BatchId) {
    b in s.completed || b in s.pending || b in s.running
  }
}
