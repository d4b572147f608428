/** The pending deques behave as FIFO queues in submission order, and batches are served by priority. */
module DispatchOrder {
  import opened Common
  import opened BatchOrder
  import opened SubTasks
  import opened SchedulerModel
  import opened SchedulerMachine

  /** The sub-tasks of a batch in the order pop() will serve them. */
  function Fifo(s: Sched, b: BatchId): seq<Piece> {
    Reverse(QueueOf(s, b))
  }

  /** The sub-tasks of consecutive tasks, the first one owned by wrapper w. */
  function PiecesInOrder(w: nat, tasks: seq<Task>, limit: Option<nat>): seq<Piece>
    requires limit.Some? ==> limit.value > 0
  {
    if tasks == [] then []
    else
      var n := |tasks| - 1;
      PiecesInOrder(w, tasks[..n], limit) + Split(w + n, tasks[n].runs, limit)
  }

  lemma SubmitOneAppends(s: Sched, b: BatchId, i: nat, task: Task, front: seq<Piece>, earlier: seq<Piece>)
    requires s.limit.Some? ==> s.limit.value > 0
    requires Fifo(s, b) == front + earlier
    ensures Fifo(AddTask(s, b, i, task), b) == front + (earlier + Split(|s.wrappers|, task.runs, s.limit))
  {
    var pieces := Split(|s.wrappers|, task.runs, s.limit);
    ReverseConcat(Reverse(pieces), QueueOf(s, b));
    assert Reverse(Reverse(pieces)) == pieces;
    assert (front + earlier) + pieces == front + (earlier + pieces);
  }

  lemma LastTaskUnfolds(s: Sched, b: BatchId, tasks: seq<Task>)
    requires tasks != [] && (s.limit.Some? ==> s.limit.value > 0)
    ensures var n := |tasks| - 1;
            && AddTasks(s, b, tasks) == AddTask(AddTasks(s, b, tasks[..n]), b, n, tasks[n])
            && PiecesInOrder(|s.wrappers|, tasks, s.limit)
               == PiecesInOrder(|s.wrappers|, tasks[..n], s.limit) + Split(|s.wrappers| + n, tasks[n].runs, s.limit)
  {
  }

  /** Splitting and submitting appends the new sub-tasks, task by task, behind what is queued. */
  lemma {:induction false} SubmitAppends(s: Sched, b: BatchId, tasks: seq<Task>)
    requires s.limit.Some? ==> s.limit.value > 0
    ensures Fifo(AddTasks(s, b, tasks), b) == Fifo(s, b) + PiecesInOrder(|s.wrappers|, tasks, s.limit)
  {
    if tasks == [] {
      assert Fifo(s, b) + [] == Fifo(s, b);
    } else {
      var n := |tasks| - 1;
      var s1, earlier := AddTasks(s, b, tasks[..n]), PiecesInOrder(|s.wrappers|, tasks[..n], s.limit);
      SubmitAppends(s, b, tasks[..n]);
      SubmitOneAppends(s1, b, n, tasks[n], Fifo(s, b), earlier);
      LastTaskUnfolds(s, b, tasks);
    }
  }

  /** A dispatch serves the head of the queue and leaves the tail; other batches are untouched. */
  lemma DispatchServesHead(s: Sched, b: BatchId, r: nat, c: BatchId)
    requires QueueOf(s, b) != [] && r in s.idle
    ensures var s' := Dispatch(s, b, r);
            && s'.live[s.futures].piece == Fifo(s, b)[0]
            && Fifo(s', b) == Fifo(s, b)[1..]
            && (c != b ==> Fifo(s', c) == Fifo(s, c))
  {
  }

  predicate LexBefore(p: Piece, q: Piece) {
    p.wrapper < q.wrapper || (p.wrapper == q.wrapper && p.base < q.base)
  }

  ghost predicate LexSorted(ps: seq<Piece>) {
    forall i, j :: 0 <= i < j < |ps| ==> LexBefore(ps[i], ps[j])
  }

  lemma SplitIsSorted(w: nat, total: nat, limit: Option<nat>)
    requires limit.Some? ==> limit.value > 0
    ensures LexSorted(Split(w, total, limit)) && forall p :: p in Split(w, total, limit) ==> p.wrapper == w
  {
    SplitTiles(w, total, limit);
    var ps := Split(w, total, limit);
    forall i, j | 0 <= i < j < |ps| ensures LexBefore(ps[i], ps[j]) {
      if limit.Some? { assert ps[i].runs > 0; }
    }
  }

  lemma SortedConcat(a: seq<Piece>, b: seq<Piece>)
    requires LexSorted(a) && LexSorted(b)
    requires forall p, q :: p in a && q in b ==> LexBefore(p, q)
    ensures LexSorted(a + b)
  {
    var s := a + b;
    forall i, j | 0 <= i < j < |s| ensures LexBefore(s[i], s[j]) {
      if i < |a| <= j { assert s[i] in a && s[j] in b; }
    }
  }

  /** Sub-tasks leave a batch ordered by task index, then by first run id. */
  lemma {:induction false} SubmissionIsSorted(w: nat, tasks: seq<Task>, limit: Option<nat>)
    requires limit.Some? ==> limit.value > 0
    ensures LexSorted(PiecesInOrder(w, tasks, limit))
    ensures forall p :: p in PiecesInOrder(w, tasks, limit) ==> w <= p.wrapper < w + |tasks|
  {
    if tasks != [] {
      var n := |tasks| - 1;
      SubmissionIsSorted(w, tasks[..n], limit);
      SplitIsSorted(w + n, tasks[n].runs, limit);
      SortedConcat(PiecesInOrder(w, tasks[..n], limit), Split(w + n, tasks[n].runs, limit));
    }
  }

  /** A pass of dispatches and removals of emptied queues, each dispatch allowed by the priorities. */
  ghost predicate Pass(s: Sched, es: seq<Event>, s': Sched)
    decreases |es|
  {
    if es == [] then s' == s
    else
      match es[0]
      case DispatchEv(b, r) =>
        QueueOf(s, b) != [] && r in s.idle && MayServe(s, b) && Pass(Dispatch(s, b, r), es[1..], s')
      case DropEmptyEv(b) => Pass(DropEmptyQueue(s, b), es[1..], s')
      case _ => false
  }

  lemma {:induction false} PassConcat(s: Sched, es: seq<Event>, s1: Sched, fs: seq<Event>, s2: Sched)
    requires Pass(s, es, s1) && Pass(s1, fs, s2)
    ensures Pass(s, es + fs, s2)
    decreases |es|
  {
    if es == [] {
      assert es + fs == fs;
    } else {
      assert (es + fs)[1..] == es[1..] + fs;
      match es[0] {
        case DispatchEv(b, r) => PassConcat(Dispatch(s, b, r), es[1..], s1, fs, s2);
        case DropEmptyEv(b) => PassConcat(DropEmptyQueue(s, b), es[1..], s1, fs, s2);
      }
    }
  }

  /** A pass is a run of the machine: every interleaving theorem applies to it. */
  lemma {:induction false} PassIsRun(t: State, es: seq<Event>, s': Sched) returns (t': State)
    requires Pass(t.s, es, s')
    ensures Run(t, es, t') && t'.s == s'
    decreases |es|
  {
    t' := t;
    if es != [] {
      match es[0] {
        case DispatchEv(b, r) => t' := PassIsRun(DispatchStep(t, b, r), es[1..], s');
        case DropEmptyEv(b) => t' := PassIsRun(t.(s := DropEmptyQueue(t.s, b)), es[1..], s');
      }
    }
  }
}
