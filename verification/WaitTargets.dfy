/** The number of results a wait for a batch asks for: task_num_map, over whole runs. */
module WaitTargets {
  import opened BatchOrder
  import opened SchedulerModel
  import opened SchedulerMachine
  import opened PlaceInvariant

  /** task_num_map.get(b, 0) */
  function Target(s: Sched, b: BatchId): nat {
    if b in s.taskNum then s.taskNum[b] else 0
  }

  /** The tasks of b scheduled since the last cleanup or discard of b, of which there were n before the event. */
  function Counted(n: nat, e: Event, b: BatchId): nat {
    match e
    case ScheduleEv(c, tasks) => if c == b then n + |tasks| else n
    case CleanupEv(c, _, _) => if c == b then 0 else n
    case DiscardEv(c) => if c == b then 0 else n
    case _ => n
  }

  function CountedAll(n: nat, es: seq<Event>, b: BatchId): nat
    decreases |es|
  {
    if es == [] then n else CountedAll(Counted(n, es[0], b), es[1..], b)
  }

  lemma {:induction false} AddingKeepsCounts(s: Sched, b: BatchId, tasks: seq<Task>)
    requires s.limit.Some? ==> s.limit.value > 0
    ensures AddTasks(s, b, tasks).taskNum == s.taskNum
  {
    if tasks != [] { AddingKeepsCounts(s, b, tasks[..|tasks| - 1]); }
  }

  lemma {:induction false} EmittingKeepsCounts(s: Sched, order: seq<nat>)
    requires forall k :: 0 <= k < |order| ==> order[k] < |s.wrappers|
    ensures EmitPartial(s, order).taskNum == s.taskNum
  {
    if order != [] { EmittingKeepsCounts(s, order[..|order| - 1]); }
  }

  lemma StepCounts(t: State, e: Event, b: BatchId)
    requires Enabled(t, e)
    ensures Target(Next(t, e).s, b) == Counted(Target(t.s, b), e, b)
  {
    match e
    case ScheduleEv(c, tasks) => AddingKeepsCounts(CountTasks(t.s, c, |tasks|), c, tasks);
    case DoneEv(f, o) => DonePlaceParts(t.s, f, o);
    case CleanupEv(c, order, restart) => EmittingKeepsCounts(t.s, order);
    case _ =>
  }

  /** In every run a wait for a batch asks for exactly the tasks scheduled under it and not cleared since. */
  lemma {:induction false} TargetIsScheduled(t: State, es: seq<Event>, t': State, b: BatchId)
    requires Run(t, es, t')
    ensures Target(t'.s, b) == CountedAll(Target(t.s, b), es, b)
    decreases |es|
  {
    if es != [] {
      StepCounts(t, es[0], b);
      TargetIsScheduled(Next(t, es[0]), es[1..], t', b);
    }
  }
}
