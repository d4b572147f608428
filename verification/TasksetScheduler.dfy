/** The TasksetScheduler as a mutable object, proved against TasksetSchedule. */
module TasksetScheduler {
  import opened TasksetSchedule

  datatype ReadOutcome<T> = StopIteration | Served(batch: seq<(nat, T)>)

  /** The flat list of taskset ids, one entry per task. */
  method BuildBase(lens: seq<nat>) returns (base: seq<nat>)
    ensures base == Base(lens)
    ensures forall x: nat :: multiset(base)[x] == if x < |lens| then lens[x] else 0
  {
    base := [];
    for i := 0 to |lens|
      invariant base == Base(lens[..i])
    {
      assert lens[..i + 1][..i] == lens[..i];
      base := base + Repeat(i, lens[i]);
    }
    assert lens[..|lens|] == lens;
    forall x: nat ensures multiset(base)[x] == if x < |lens| then lens[x] else 0 { BaseCounts(lens, x); }
  }

  class TasksetScheduler<R(!new), T(!new)> {
    const config: Config<R, T>
    var step: nat
    var epoch: nat
    var orders: seq<nat>
    var readers: R

    ghost function View(): State<R>
      reads this
    {
      State(step, epoch, orders, readers)
    }

    /** A saved step and saved reader states; a fresh start is step 0. */
    constructor (config: Config<R, T>, latestIteration: nat, tasksetStates: R)
      requires Proper(config)
      ensures this.config == config && View() == Restore(config, latestIteration, tasksetStates)
      ensures Placed(config, View())
    {
      this.config := config;
      step, readers := latestIteration, tasksetStates;
      epoch := EpochOf(config, latestIteration);
      orders := config.shuffle(EpochOf(config, latestIteration));
    }

    method Read() returns (outcome: ReadOutcome<T>)
      requires Proper(config)
      modifies this
      ensures outcome.StopIteration? <==> old(step) >= config.maxSteps
      ensures outcome.StopIteration? ==> View() == old(View())
      ensures outcome.Served? ==>
          outcome.batch == old(Batch(config, View())) && View() == old(TasksetSchedule.Next(config, View()))
      ensures outcome.Served? && ReadersDeliver(config) ==>
          multiset(Origins(outcome.batch)) == multiset(old(Cut(config, View())))
      ensures old(Placed(config, View())) && config.batchSize <= |config.base| ==> Placed(config, View())
    {
      ghost var s := View();
      if step >= config.maxSteps { return StopIteration; }
      var tasksetIds := CutBatch();
      var batch := ReadTasks(Counter(tasksetIds));
      step := step + 1;
      if ReadersDeliver(config) { BatchMatchesDraws(config, s); }
      if Placed(config, s) && config.batchSize <= |config.base| { PlacedNext(config, s); }
      return Served(batch);
    }

    /** The ids of the next batch; the next epoch's order is built when this one is used up. */
    method CutBatch() returns (tasksetIds: seq<nat>)
      modifies this`epoch, this`orders
      ensures tasksetIds == old(Cut(config, View()))
      ensures epoch == old(NextEpoch(config, View())) && orders == old(NextOrders(config, View()))
    {
      var n := |config.base|;
      var start := step * config.batchSize % n;
      var end := start + config.batchSize;
      if end <= n {
        tasksetIds := Clip(orders, start, end);
        if end == n {
          epoch := epoch + 1;
          orders := config.shuffle(epoch);
        }
      } else {
        tasksetIds := orders[Min(start, |orders|)..];
        epoch := epoch + 1;
        orders := config.shuffle(epoch);
        tasksetIds := tasksetIds + Clip(orders, 0, end - n);
      }
    }

    /** The loop over counter.items(): read each taskset, mark its tasks, extend the batch. */
    method ReadTasks(counts: seq<(nat, nat)>) returns (batch: seq<(nat, T)>)
      modifies this`readers
      ensures batch == old(TasksRead(config, readers, counts)) && readers == old(ReadersAfter(config, readers, counts))
    {
      ghost var before := readers;
      batch := [];
      for k := 0 to |counts|
        invariant batch == TasksRead(config, before, counts[..k])
            && readers == ReadersAfter(config, before, counts[..k])
      {
        var (tasksetId, count) := counts[k];
        var (tasks, next) := config.read(readers, tasksetId, count);
        assert counts[..k + 1][..k] == counts[..k];
        readers := next;
        batch := batch + Mark(tasksetId, tasks);
      }
      assert counts[..|counts|] == counts;
    }

    method StateDict() returns (states: R)
      ensures states == readers
    {
      return readers;
    }
  }
}
