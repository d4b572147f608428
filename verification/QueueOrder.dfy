/** In every run the queues stay in the order of submission, so each dispatch serves the first of what is left. */
module QueueOrder {
  import opened Common
  import opened BatchOrder
  import opened SubTasks
  import opened SchedulerModel
  import opened SchedulerMachine
  import opened PlaceInvariant
  import opened DispatchOrder

  /** p belongs to an earlier task than q, or to the same one with earlier runs. */
  predicate TaskOrder(ws: seq<Wrapper>, p: Piece, q: Piece) {
    && p.wrapper < |ws| && q.wrapper < |ws|
    && (ws[p.wrapper].taskId < ws[q.wrapper].taskId || (p.wrapper == q.wrapper && p.base < q.base))
  }

  ghost predicate InTaskOrder(ws: seq<Wrapper>, ps: seq<Piece>) {
    forall i, j :: 0 <= i < j < |ps| ==> TaskOrder(ws, ps[i], ps[j])
  }

  ghost predicate QueuesSorted(s: Sched) {
    forall b :: InTaskOrder(s.wrappers, Fifo(s, b))
  }

  lemma OrderDependsOnTasks(ws: seq<Wrapper>, ws': seq<Wrapper>, ps: seq<Piece>)
    requires InTaskOrder(ws, ps) && |ws| <= |ws'|
    requires forall i :: 0 <= i < |ws| ==> ws'[i].taskId == ws[i].taskId
    ensures InTaskOrder(ws', ps)
  {
    forall i, j | 0 <= i < j < |ps| ensures TaskOrder(ws', ps[i], ps[j]) {
      assert TaskOrder(ws, ps[i], ps[j]);
    }
  }

  /** The wrappers from n on belong to the tasks 0, 1, ..., k - 1. */
  ghost predicate Numbered(ws: seq<Wrapper>, n: nat, k: nat) {
    n + k <= |ws| && forall w :: n <= w < n + k ==> ws[w].taskId == w - n
  }

  ghost predicate StartsWith(ws: seq<Wrapper>, before: seq<Wrapper>) {
    |before| <= |ws| && forall i :: 0 <= i < |before| ==> ws[i] == before[i]
  }

  lemma OneMoreNumbered(ws: seq<Wrapper>, ws': seq<Wrapper>, n: nat, k: nat)
    requires Numbered(ws, n, k) && |ws| == n + k && StartsWith(ws', ws) && |ws'| == n + k + 1
    requires ws'[n + k].taskId == k
    ensures Numbered(ws', n, k + 1)
  {
  }

  /** Submitting numbers the new wrappers by task and leaves the other queues alone. */
  lemma {:induction false} SubmitNumbers(s: Sched, b: BatchId, tasks: seq<Task>)
    requires GoodLimit(s.limit)
    ensures StartsWith(AddTasks(s, b, tasks).wrappers, s.wrappers)
    ensures Numbered(AddTasks(s, b, tasks).wrappers, |s.wrappers|, |tasks|)
    ensures forall c :: c != b ==> QueueOf(AddTasks(s, b, tasks), c) == QueueOf(s, c)
  {
    if tasks != [] {
      var k := |tasks| - 1;
      var s1 := AddTasks(s, b, tasks[..k]);
      SubmitNumbers(s, b, tasks[..k]);
      AddOneNumbers(s1, b, k, tasks[k]);
      OneMoreNumbered(s1.wrappers, AddTask(s1, b, k, tasks[k]).wrappers, |s.wrappers|, k);
    }
  }

  lemma AddOneNumbers(s: Sched, b: BatchId, k: nat, task: Task)
    requires GoodLimit(s.limit)
    ensures var s', n := AddTask(s, b, k, task), |s.wrappers|;
            && |s'.wrappers| == n + 1 && StartsWith(s'.wrappers, s.wrappers)
            && s'.wrappers[n].taskId == k && forall c :: c != b ==> QueueOf(s', c) == QueueOf(s, c)
  {
  }

  /** Pieces in the order of consecutive wrappers are in the order of their tasks. */
  lemma ConsecutiveIsTaskOrder(ws: seq<Wrapper>, n: nat, k: nat, ps: seq<Piece>)
    requires LexSorted(ps) && Numbered(ws, n, k)
    requires forall p :: p in ps ==> n <= p.wrapper < n + k
    ensures InTaskOrder(ws, ps)
  {
    forall i, j | 0 <= i < j < |ps| ensures TaskOrder(ws, ps[i], ps[j]) {
      assert ps[i] in ps && ps[j] in ps && LexBefore(ps[i], ps[j]);
    }
  }

  lemma ScheduleKeepsSorted(s: Sched, b: BatchId, tasks: seq<Task>)
    requires QueuesSorted(s) && GoodLimit(s.limit) && b !in s.pending
    ensures QueuesSorted(Schedule(s, b, tasks))
  {
    if tasks != [] {
      var u, n := CountTasks(s, b, |tasks|), |s.wrappers|;
      var s' := AddTasks(u, b, tasks);
      SubmitNumbers(u, b, tasks);
      SubmitAppends(u, b, tasks);
      SubmissionIsSorted(n, tasks, s.limit);
      assert Fifo(u, b) + PiecesInOrder(n, tasks, s.limit) == PiecesInOrder(n, tasks, s.limit);
      ConsecutiveIsTaskOrder(s'.wrappers, n, |tasks|, Fifo(s', b));
      forall c | c != b ensures InTaskOrder(s'.wrappers, Fifo(s', c)) {
        OrderDependsOnTasks(s.wrappers, s'.wrappers, Fifo(s, c));
      }
    }
  }

  lemma DispatchKeepsSorted(s: Sched, b: BatchId, r: nat)
    requires QueuesSorted(s) && QueueOf(s, b) != [] && r in s.idle
    ensures QueuesSorted(Dispatch(s, b, r))
  {
    forall c ensures InTaskOrder(s.wrappers, Fifo(Dispatch(s, b, r), c)) {
      DispatchServesHead(s, b, r, c);
      assert InTaskOrder(s.wrappers, Fifo(s, c));
      assert InTaskOrder(s.wrappers, Fifo(s, b)[1..]) by { TailInOrder(s.wrappers, Fifo(s, b)); }
    }
  }

  lemma TailInOrder(ws: seq<Wrapper>, ps: seq<Piece>)
    requires InTaskOrder(ws, ps) && ps != []
    ensures InTaskOrder(ws, ps[1..]) && forall q :: q in ps[1..] ==> TaskOrder(ws, ps[0], q)
  {
  }

  /** Steps that keep the tasks, and keep or clear queues. */
  lemma LessKeepsSorted(s: Sched, s': Sched)
    requires QueuesSorted(s) && SameTasks(s.wrappers, s'.wrappers)
    requires forall c :: QueueOf(s', c) == QueueOf(s, c) || QueueOf(s', c) == []
    ensures QueuesSorted(s')
  {
    forall c ensures InTaskOrder(s'.wrappers, Fifo(s', c)) {
      if QueueOf(s', c) == QueueOf(s, c) { OrderDependsOnTasks(s.wrappers, s'.wrappers, Fifo(s, c)); }
    }
  }

  lemma EventKeepsSorted(t: State, e: Event)
    requires QueuesSorted(t.s) && GoodLimit(t.s.limit) && Enabled(t, e)
    ensures QueuesSorted(Next(t, e).s) && Next(t, e).s.limit == t.s.limit
  {
    match e
    case ScheduleEv(b, tasks) => ScheduleKeepsSorted(t.s, b, tasks);
    case DispatchEv(b, r) => DispatchKeepsSorted(t.s, b, r);
    case DropEmptyEv(b) => LessKeepsSorted(t.s, DropEmptyQueue(t.s, b));
    case DoneEv(f, o) => DonePlaceParts(t.s, f, o); LessKeepsSorted(t.s, Done(t.s, f, o));
    case CleanupEv(b, order, restart) =>
      CleanupParts(t.s, b, order, restart);
      LessKeepsSorted(t.s, Cleanup(t.s, b, order, restart));
    case _ => LessKeepsSorted(t.s, Next(t, e).s);
  }

  lemma {:induction false} RunKeepsSorted(t: State, es: seq<Event>, t': State)
    requires QueuesSorted(t.s) && GoodLimit(t.s.limit) && Run(t, es, t')
    ensures QueuesSorted(t'.s)
    decreases |es|
  {
    if es != [] {
      EventKeepsSorted(t, es[0]);
      RunKeepsSorted(Next(t, es[0]), es[1..], t');
    }
  }

  /**
   From start-up on, every dispatch starts a sub-task that comes before all that stay queued in its batch, by task
   index and then by first run id, and no batch of a strictly smaller key has work.
   */
  lemma DispatchedInOrder(runners: set<nat>, limit: Option<nat>, es: seq<Event>, t: State, b: BatchId, r: nat)
    requires GoodLimit(limit) && Run(Init(runners, limit), es, t) && Enabled(t, DispatchEv(b, r))
    ensures var s' := Next(t, DispatchEv(b, r)).s;
            && t.s.futures in s'.live
            && (forall q :: q in QueueOf(s', b) ==> TaskOrder(t.s.wrappers, s'.live[t.s.futures].piece, q))
            && forall c :: Before(c, b) ==> QueueOf(s', c) == []
  {
    RunKeepsSorted(Init(runners, limit), es, t);
    DispatchServesHead(t.s, b, r, b);
    TailInOrder(t.s.wrappers, Fifo(t.s, b));
    var s' := Dispatch(t.s, b, r);
    forall q | q in QueueOf(s', b) ensures TaskOrder(t.s.wrappers, s'.live[t.s.futures].piece, q) {
      ReverseElements(QueueOf(s', b));
      assert q in Fifo(s', b);
    }
    forall c | Before(c, b) ensures QueueOf(s', c) == [] {
      BeforeIsStrictWeakOrder(c, b, c);
    }
  }
}
