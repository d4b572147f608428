/** The taskset schedule of `TasksetScheduler.read` as values: one infinite sequence of draws, cut into batches. */
module TasksetSchedule {
  import opened Common
  import opened Iteration

  // ---- the base list and the schedule -------------------------------------------------------

  function Repeat(i: nat, n: nat): (r: seq<nat>)
    ensures |r| == n && forall k :: 0 <= k < n ==> r[k] == i
  {
    seq(n, _ => i)
  }

  /** Taskset i appears lens[i] times. */
  function Base(lens: seq<nat>): seq<nat> {
    if lens == [] then [] else Base(lens[..|lens| - 1]) + Repeat(|lens| - 1, lens[|lens| - 1])
  }

  lemma {:induction false} RepeatCounts(i: nat, n: nat, x: nat)
    ensures multiset(Repeat(i, n))[x] == if x == i then n else 0
  {
    if n == 0 {
      assert Repeat(i, 0) == [];
    } else {
      RepeatCounts(i, n - 1, x);
      assert Repeat(i, n) == Repeat(i, n - 1) + [i];
    }
  }

  lemma {:induction false} BaseCounts(lens: seq<nat>, x: nat)
    ensures multiset(Base(lens))[x] == if x < |lens| then lens[x] else 0
  {
    if lens != [] {
      BaseCounts(lens[..|lens| - 1], x);
      RepeatCounts(|lens| - 1, lens[|lens| - 1], x);
    }
  }

  /** `shuffle(e)` is what the generator seeded with e makes of the base list: some rearrangement. */
  ghost predicate Shuffles(shuffle: nat -> seq<nat>, base: seq<nat>) {
    forall e: nat :: multiset(shuffle(e)) == multiset(base)
  }

  lemma SameLength(shuffle: nat -> seq<nat>, base: seq<nat>, e: nat)
    requires Shuffles(shuffle, base)
    ensures |shuffle(e)| == |base|
  {
    assert |multiset(shuffle(e))| == |multiset(base)|;
  }

  /** The first `epochs` epochs, one after the other. */
  function Epochs(shuffle: nat -> seq<nat>, epochs: nat): seq<nat> {
    if epochs == 0 then [] else Epochs(shuffle, epochs - 1) + shuffle(epochs - 1)
  }

  lemma {:induction false} EpochsLength(shuffle: nat -> seq<nat>, base: seq<nat>, epochs: nat)
    requires Shuffles(shuffle, base)
    ensures |Epochs(shuffle, epochs)| == epochs * |base|
  {
    if epochs > 0 {
      EpochsLength(shuffle, base, epochs - 1);
      SameLength(shuffle, base, epochs - 1);
    }
  }

  /** Epoch e occupies the places e * n .. (e + 1) * n, however many epochs are laid out. */
  lemma {:induction false} EpochPlace(shuffle: nat -> seq<nat>, base: seq<nat>, epochs: nat, e: nat)
    requires Shuffles(shuffle, base) && e < epochs
    ensures 0 <= e * |base| <= (e + 1) * |base| <= |Epochs(shuffle, epochs)|
    ensures Epochs(shuffle, epochs)[e * |base|..(e + 1) * |base|] == shuffle(e)
  {
    EpochsLength(shuffle, base, epochs);
    EpochsLength(shuffle, base, epochs - 1);
    SameLength(shuffle, base, epochs - 1);
    MulMonotone(e + 1, epochs, |base|);
    if e < epochs - 1 {
      EpochPlace(shuffle, base, epochs - 1, e);
      var a, b := Epochs(shuffle, epochs - 1), shuffle(epochs - 1);
      assert (a + b)[e * |base|..(e + 1) * |base|] == a[e * |base|..(e + 1) * |base|];
    }
  }

  lemma MulMonotone(a: nat, b: nat, n: nat)
    requires a <= b
    ensures a * n <= b * n
  {
    assert b * n - a * n == (b - a) * n;
  }

  /** Each completed epoch draws taskset x exactly as often as it has tasks. */
  lemma EachEpochDrawsEveryTaskset(shuffle: nat -> seq<nat>, lens: seq<nat>, epochs: nat, e: nat, x: nat)
    requires Shuffles(shuffle, Base(lens)) && e < epochs && x < |lens|
    ensures var n := |Base(lens)|;
            && 0 <= e * n <= (e + 1) * n <= |Epochs(shuffle, epochs)|
            && multiset(Epochs(shuffle, epochs)[e * n..(e + 1) * n])[x] == lens[x]
  {
    EpochPlace(shuffle, Base(lens), epochs, e);
    BaseCounts(lens, x);
  }

  // ---- the scheduler ------------------------------------------------------------------------

  type NonEmpty = s: seq<nat> | s != [] witness [0]

  datatype Config<!R, !T> = Config(
    batchSize: nat,
    base: NonEmpty,
    maxSteps: nat,
    shuffle: nat -> seq<nat>,
    read: (R, nat, nat) -> (seq<T>, R))   // state of all the readers, taskset id, count

  datatype State<R> = State(step: nat, epoch: nat, orders: seq<nat>, readers: R)

  ghost predicate Proper<R(!new), T(!new)>(c: Config<R, T>) {
    c.batchSize >= 1 && Shuffles(c.shuffle, c.base)
  }

  function EpochOf<R, T>(c: Config<R, T>, step: nat): nat
  {
    step * c.batchSize / |c.base|
  }

  /** What the constructor builds from a saved step and saved reader states. */
  function Restore<R, T>(c: Config<R, T>, step: nat, readers: R): State<R>
  {
    var epoch := EpochOf(c, step);
    State(step, epoch, c.shuffle(epoch), readers)
  }

  function Min(a: nat, b: nat): nat {
    if a <= b then a else b
  }

  /** Python's xs[lo:hi] for 0 <= lo <= hi: both ends are cut back to the length. */
  function Clip<X>(xs: seq<X>, lo: nat, hi: nat): seq<X>
    requires lo <= hi
  {
    xs[Min(lo, |xs|)..Min(hi, |xs|)]
  }

  function Start<R, T>(c: Config<R, T>, s: State<R>): nat
  {
    s.step * c.batchSize % |c.base|
  }

  /** The ids cut from the current order, and from the next one when the end is reached. */
  function CutIds(orders: seq<nat>, next: seq<nat>, start: nat, size: nat, n: nat): seq<nat> {
    if start + size <= n then Clip(orders, start, start + size)
    else orders[Min(start, |orders|)..] + Clip(next, 0, start + size - n)
  }

  function Cut<R, T>(c: Config<R, T>, s: State<R>): seq<nat>
  {
    CutIds(s.orders, c.shuffle(s.epoch + 1), Start(c, s), c.batchSize, |c.base|)
  }

  /** The epoch number moves on when the last entry of the order has been used. */
  function NextEpoch<R, T>(c: Config<R, T>, s: State<R>): nat
  {
    if Start(c, s) + c.batchSize < |c.base| then s.epoch else s.epoch + 1
  }

  function NextOrders<R, T>(c: Config<R, T>, s: State<R>): seq<nat>
  {
    if Start(c, s) + c.batchSize < |c.base| then s.orders else c.shuffle(s.epoch + 1)
  }

  /** The scheduler is where its step says it should be. */
  predicate Placed<R, T>(c: Config<R, T>, s: State<R>) {
    && s.epoch == EpochOf(c, s.step)
    && s.orders == c.shuffle(s.epoch)
  }

  // ---- one read -----------------------------------------------------------------------------

  lemma AtLeastOnce(a: nat, n: nat)
    ensures a >= 1 ==> a * n >= n
  {
    if a >= 1 { MulMonotone(1, a, n); }
  }

  lemma SmallMultiple(d: int, n: int)
    requires n > 0 && -n < d * n < n
    ensures d == 0
  {
    var a := if d >= 0 then d else -d;
    assert a * n == if d >= 0 then d * n else -(d * n);
    AtLeastOnce(a, n);
  }

  lemma DivModUnique(x: nat, n: nat, q: nat, r: nat)
    requires n > 0 && x == q * n + r && r < n
    ensures x / n == q && x % n == r
  {
    var q', r' := x / n, x % n;
    assert x == q' * n + r';
    assert (q' - q) * n == q' * n - q * n;
    SmallMultiple(q' - q, n);
  }

  /** Where the draws of the next batch sit in the schedule: at most one epoch boundary is crossed. */
  lemma Advance(pos: nat, n: nat, b: nat, q: nat, r: nat)
    requires n > 0 && b <= n && pos == q * n + r && r < n
    ensures r + b < n ==> (pos + b) / n == q && (pos + b) % n == r + b
    ensures r + b >= n ==> (pos + b) / n == q + 1 && (pos + b) % n == r + b - n
  {
    if r + b < n {
      DivModUnique(pos + b, n, q, r + b);
    } else {
      assert (q + 1) * n == q * n + n;
      DivModUnique(pos + b, n, q + 1, r + b - n);
    }
  }

  lemma SliceOfSlice<X>(s: seq<X>, a: nat, b: nat, c: nat, d: nat)
    requires a <= b <= |s| && c <= d <= b - a
    ensures s[a..b][c..d] == s[a + c..a + d]
  {
    var x, y := s[a..b][c..d], s[a + c..a + d];
    assert |x| == |y| && forall k :: 0 <= k < |x| ==> x[k] == s[a + c + k] && y[k] == s[a + c + k];
  }

  /** Reading b entries from offset r of two adjacent blocks of length n. */
  lemma TwoEpochs(all: seq<nat>, at: nat, n: nat, x: seq<nat>, y: seq<nat>, r: nat, b: nat)
    requires at + n + n <= |all| && |x| == |y| == n && r < n && b <= n
    requires all[at..at + n] == x && all[at + n..at + n + n] == y
    ensures r + b <= n ==> all[at + r..at + r + b] == x[r..r + b]
    ensures r + b > n ==> all[at + r..at + r + b] == x[r..] + y[..r + b - n]
  {
    assert all[at..at + n + n] == x + y;
    SliceOfSlice(all, at, at + n + n, r, r + b);
    assert all[at + r..at + r + b] == (x + y)[r..r + b];
  }

  lemma TwoEpochsOf(shuffle: nat -> seq<nat>, base: seq<nat>, epochs: nat, q: nat, r: nat, b: nat)
    requires Shuffles(shuffle, base) && base != [] && q + 2 <= epochs && r < |base| && b <= |base|
    ensures |shuffle(q)| == |shuffle(q + 1)| == |base|
    ensures var n, all := |base|, Epochs(shuffle, epochs);
            && q * n + r + b <= |all|
            && (r + b <= n ==> all[q * n + r..q * n + r + b] == shuffle(q)[r..r + b])
            && (r + b > n ==> all[q * n + r..q * n + r + b] == shuffle(q)[r..] + shuffle(q + 1)[..r + b - n])
  {
    var n := |base|;
    SameLength(shuffle, base, q);
    SameLength(shuffle, base, q + 1);
    EpochPlace(shuffle, base, epochs, q);
    EpochPlace(shuffle, base, epochs, q + 1);
    assert (q + 1) * n == q * n + n;
    assert (q + 1 + 1) * n == (q + 1) * n + n;
    TwoEpochs(Epochs(shuffle, epochs), q * n, n, shuffle(q), shuffle(q + 1), r, b);
  }

  /** One read keeps the place. */
  lemma NextIsPlaced<R(!new), T(!new)>(c: Config<R, T>, s: State<R>)
    requires Proper(c) && c.batchSize <= |c.base| && Placed(c, s)
    ensures NextEpoch(c, s) == EpochOf(c, s.step + 1)
    ensures NextOrders(c, s) == c.shuffle(NextEpoch(c, s))
  {
    var n, b, pos := |c.base|, c.batchSize, s.step * c.batchSize;
    assert (s.step + 1) * b == pos + b;
    assert pos == pos / n * n + pos % n;
    Advance(pos, n, b, pos / n, pos % n);
  }

  /** One read draws exactly the next batchSize entries of the schedule. */
  lemma CutFollowsSchedule<R(!new), T(!new)>(c: Config<R, T>, s: State<R>, epochs: nat)
    requires Proper(c) && c.batchSize <= |c.base| && Placed(c, s)
    requires s.epoch + 2 <= epochs
    ensures s.step * c.batchSize + c.batchSize <= |Epochs(c.shuffle, epochs)|
    ensures Cut(c, s) == Epochs(c.shuffle, epochs)[s.step * c.batchSize..s.step * c.batchSize + c.batchSize]
  {
    var n, pos := |c.base|, s.step * c.batchSize;
    var q, r := pos / n, pos % n;
    assert pos == q * n + r;
    TwoEpochsOf(c.shuffle, c.base, epochs, q, r, c.batchSize);
  }

  // ---- the batch ----------------------------------------------------------------------------

  /** Counter(ids).items(): ids in order of first appearance, each with its number of appearances. */
  function Bump(counts: seq<(nat, nat)>, id: nat): seq<(nat, nat)> {
    if counts == [] then [(id, 1)]
    else if counts[0].0 == id then [(id, counts[0].1 + 1)] + counts[1..]
    else [counts[0]] + Bump(counts[1..], id)
  }

  function Counter(ids: seq<nat>): seq<(nat, nat)> {
    if ids == [] then [] else Bump(Counter(ids[..|ids| - 1]), ids[|ids| - 1])
  }

  /** The readers after each counted id has been read from its own taskset. */
  function ReadersAfter<R, T>(c: Config<R, T>, readers: R, counts: seq<(nat, nat)>): R {
    if counts == [] then readers
    else c.read(ReadersAfter(c, readers, counts[..|counts| - 1]), counts[|counts| - 1].0, counts[|counts| - 1].1).1
  }

  /** The tasks read, every one marked with the taskset it came from. */
  function TasksRead<R, T>(c: Config<R, T>, readers: R, counts: seq<(nat, nat)>): seq<(nat, T)> {
    if counts == [] then []
    else
      var last, before := counts[|counts| - 1], counts[..|counts| - 1];
      TasksRead(c, readers, before) + Mark(last.0, c.read(ReadersAfter(c, readers, before), last.0, last.1).0)
  }

  lemma ReadLast<R, T>(c: Config<R, T>, readers: R, counts: seq<(nat, nat)>, last: (nat, nat))
    ensures var (tasks, next) := c.read(ReadersAfter(c, readers, counts), last.0, last.1);
            && ReadersAfter(c, readers, counts + [last]) == next
            && TasksRead(c, readers, counts + [last]) == TasksRead(c, readers, counts) + Mark(last.0, tasks)
  {
    assert (counts + [last])[..|counts|] == counts;
  }

  /** Each counted taskset is read once, in order, and each read goes on where the earlier ones left the readers. */
  lemma {:induction false} ReadsInTurn<R, T>(c: Config<R, T>, readers: R, a: seq<(nat, nat)>, b: seq<(nat, nat)>)
    ensures ReadersAfter(c, readers, a + b) == ReadersAfter(c, ReadersAfter(c, readers, a), b)
    ensures TasksRead(c, readers, a + b)
         == TasksRead(c, readers, a) + TasksRead(c, ReadersAfter(c, readers, a), b)
    decreases |b|
  {
    if b == [] {
      assert a + b == a;
    } else {
      var before, last, middle := b[..|b| - 1], b[|b| - 1], ReadersAfter(c, readers, a);
      assert b == before + [last];
      ConcatAssociates(a, before, [last]);
      ReadLast(c, readers, a + before, last);
      ReadLast(c, middle, before, last);
      ReadsInTurn(c, readers, a, before);
      ConcatAssociates(TasksRead(c, readers, a), TasksRead(c, middle, before),
                       Mark(last.0, c.read(ReadersAfter(c, middle, before), last.0, last.1).0));
    }
  }

  lemma OneRead<R, T>(c: Config<R, T>, readers: R, id: nat, count: nat)
    ensures ReadersAfter(c, readers, [(id, count)]) == c.read(readers, id, count).1
    ensures TasksRead(c, readers, [(id, count)]) == Mark(id, c.read(readers, id, count).0)
  {
    var counts := [(id, count)];
    assert counts[..0] == [];
    assert TasksRead(c, readers, counts) == [] + Mark(id, c.read(readers, id, count).0);
  }

  function Mark<T>(id: nat, tasks: seq<T>): (r: seq<(nat, T)>)
    ensures |r| == |tasks|
  {
    seq(|tasks|, i requires 0 <= i < |tasks| => (id, tasks[i]))
  }

  function Origins<T>(batch: seq<(nat, T)>): (r: seq<nat>)
    ensures |r| == |batch|
  {
    seq(|batch|, i requires 0 <= i < |batch| => batch[i].0)
  }

  /** The ids of a counter, each repeated as often as it was counted. */
  function Spread(counts: seq<(nat, nat)>): seq<nat> {
    if counts == [] then [] else Repeat(counts[0].0, counts[0].1) + Spread(counts[1..])
  }

  lemma {:induction false} BumpAdds(counts: seq<(nat, nat)>, id: nat)
    ensures multiset(Spread(Bump(counts, id))) == multiset(Spread(counts)) + multiset{id}
  {
    if counts == [] {
      assert Spread([(id, 1)]) == Repeat(id, 1) + Spread([]);
      assert Repeat(id, 1) == [id];
    } else if counts[0].0 == id {
      var n := counts[0].1;
      assert ([(id, n + 1)] + counts[1..])[1..] == counts[1..];
      assert Repeat(id, n + 1) == Repeat(id, n) + [id];
    } else {
      BumpAdds(counts[1..], id);
      assert ([counts[0]] + Bump(counts[1..], id))[1..] == Bump(counts[1..], id);
    }
  }

  /** Counting loses only the order. */
  lemma {:induction false} CounterKeepsDraws(ids: seq<nat>)
    ensures multiset(Spread(Counter(ids))) == multiset(ids)
  {
    if ids != [] {
      var n := |ids| - 1;
      CounterKeepsDraws(ids[..n]);
      BumpAdds(Counter(ids[..n]), ids[n]);
      assert ids == ids[..n] + [ids[n]];
    }
  }

  lemma {:induction false} SpreadSnoc(counts: seq<(nat, nat)>, c: (nat, nat))
    ensures Spread(counts + [c]) == Spread(counts) + Repeat(c.0, c.1)
  {
    if counts == [] {
      assert [] + [c] == [c] && [c][1..] == [];
    } else {
      assert (counts + [c])[1..] == counts[1..] + [c];
      SpreadSnoc(counts[1..], c);
    }
  }

  /** Readers that return as many tasks as they are asked for. */
  ghost predicate ReadersDeliver<R(!new), T(!new)>(c: Config<R, T>) {
    forall r: R, id: nat, n: nat :: |c.read(r, id, n).0| == n
  }

  lemma {:induction false} BatchFollowsCounts<R(!new), T(!new)>(c: Config<R, T>, readers: R, counts: seq<(nat, nat)>)
    requires ReadersDeliver(c)
    ensures Origins(TasksRead(c, readers, counts)) == Spread(counts)
  {
    if counts != [] {
      var n := |counts| - 1;
      BatchFollowsCounts(c, readers, counts[..n]);
      var before := TasksRead(c, readers, counts[..n]);
      var tasks := c.read(ReadersAfter(c, readers, counts[..n]), counts[n].0, counts[n].1).0;
      assert Origins(before + Mark(counts[n].0, tasks)) == Origins(before) + Repeat(counts[n].0, counts[n].1);
      SpreadSnoc(counts[..n], counts[n]);
      assert counts[..n] + [counts[n]] == counts;
    }
  }

  // ---- reads --------------------------------------------------------------------------------

  function Batch<R, T>(c: Config<R, T>, s: State<R>): seq<(nat, T)>
  {
    TasksRead(c, s.readers, Counter(Cut(c, s)))
  }

  /** The state after a read that was not refused. */
  function Next<R, T>(c: Config<R, T>, s: State<R>): State<R>
  {
    State(s.step + 1, NextEpoch(c, s), NextOrders(c, s), ReadersAfter(c, s.readers, Counter(Cut(c, s))))
  }

  /** Calls of read putting out batches; at the last step calls are refused and change nothing. */
  function Reader<R, T>(c: Config<R, T>): Machine<State<R>, seq<(nat, T)>> {
    Machine((s: State<R>) => Next(c, s), (s: State<R>) => [Batch(c, s)], (s: State<R>) => s.step >= c.maxSteps)
  }

  /** The same calls putting out the taskset ids they draw, in order, before counting. */
  function Drawer<R, T>(c: Config<R, T>): Machine<State<R>, nat> {
    Machine((s: State<R>) => Next(c, s), (s: State<R>) => Cut(c, s), (s: State<R>) => s.step >= c.maxSteps)
  }

  /** A batch holds the tasks its draws ask for, taskset by taskset. */
  lemma BatchMatchesDraws<R(!new), T(!new)>(c: Config<R, T>, s: State<R>)
    requires ReadersDeliver(c)
    ensures multiset(Origins(Batch(c, s))) == multiset(Cut(c, s))
  {
    CounterKeepsDraws(Cut(c, s));
    BatchFollowsCounts(c, s.readers, Counter(Cut(c, s)));
  }

  lemma PlacedNext<R(!new), T(!new)>(c: Config<R, T>, s: State<R>)
    requires Proper(c) && c.batchSize <= |c.base| && Placed(c, s)
    ensures Placed(c, Next(c, s)) && Next(c, s).step == s.step + 1
  {
    NextIsPlaced(c, s);
  }

  lemma ReadsKeepPlace<R(!new), T(!new)>(c: Config<R, T>, s: State<R>, k: nat)
    requires Proper(c) && c.batchSize <= |c.base| && Placed(c, s)
    ensures Placed(c, After(Reader(c), s, k))
  {
    var inv := (x: State<R>) => Placed(c, x);
    forall x | inv(x) ensures inv(Reader(c).next(x)) { PlacedNext(c, x); }
    InvariantKept(Reader(c), inv, s, k);
  }

  lemma ReadsCountSteps<R(!new), T(!new)>(c: Config<R, T>, s: State<R>, k: nat)
    requires s.step <= c.maxSteps
    ensures After(Reader(c), s, k).step == Min(s.step + k, c.maxSteps)
  {
    CountsSteps(Reader(c), (x: State<R>) => x.step, c.maxSteps, s, k);
  }

  /**
   Restarting from a saved step: the scheduler rebuilt from the step and the reader states saved after j
   reads continues with exactly the batches the uninterrupted one goes on to read.
   */
  lemma ResumeEquivalence<R(!new), T(!new)>(c: Config<R, T>, readers: R, j: nat, k: nat)
    requires Proper(c) && c.batchSize <= |c.base|
    ensures var start := Restore(c, 0, readers);
            var saved := After(Reader(c), start, j);
            var resumed := Restore(c, saved.step, saved.readers);
            && Output(Reader(c), start, j + k) == Output(Reader(c), start, j) + Output(Reader(c), resumed, k)
            && After(Reader(c), start, j + k) == After(Reader(c), resumed, k)
  {
    var s := Restore(c, 0, readers);
    ReadsKeepPlace(c, s, j);
    AfterCompose(Reader(c), s, j, k);
    OutputCompose(Reader(c), s, j, k);
  }

  lemma DrawsFitEpochs(step: nat, b: nat, n: nat, epochs: nat)
    requires n > 0 && b <= n && epochs > step + 1
    ensures step * b / n + 2 <= epochs
  {
    MulMonotone(b, n, step);
    var q := step * b / n;
    assert q * n <= step * b <= step * n by { assert n * step == step * n && b * step == step * b; }
    assert (q - step) * n <= 0;
    if q > step { AtLeastOnce(q - step, n); }
  }

  /** How many entries of the schedule the first `step` reads use up. */
  function Pos<R, T>(c: Config<R, T>, step: nat): nat {
    if step == 0 then 0 else Pos(c, step - 1) + c.batchSize
  }

  lemma {:induction false} PosIsProduct<R(!new), T(!new)>(c: Config<R, T>, step: nat)
    ensures Pos(c, step) == step * c.batchSize
  {
    if step > 0 {
      PosIsProduct(c, step - 1);
      assert step * c.batchSize == (step - 1) * c.batchSize + c.batchSize;
    }
  }

  lemma PosBounded<R(!new), T(!new)>(c: Config<R, T>, step: nat, epochs: nat)
    requires Proper(c) && c.batchSize <= |c.base| && epochs >= step
    ensures Pos(c, step) <= |Epochs(c.shuffle, epochs)|
  {
    PosIsProduct(c, step);
    EpochsLength(c.shuffle, c.base, epochs);
    MulMonotone(step, epochs, c.batchSize);
    MulMonotone(c.batchSize, |c.base|, epochs);
  }

  /** One read from a proper place draws its own stretch of the schedule. */
  lemma OneDraw<R(!new), T(!new)>(c: Config<R, T>, s: State<R>, epochs: nat)
    requires Proper(c) && c.batchSize <= |c.base| && Placed(c, s) && epochs > s.step + 1
    ensures 0 <= Pos(c, s.step) <= Pos(c, s.step + 1) <= |Epochs(c.shuffle, epochs)|
    ensures Cut(c, s) == Epochs(c.shuffle, epochs)[Pos(c, s.step)..Pos(c, s.step + 1)]
  {
    PosBounded(c, s.step + 1, epochs);
    PosIsProduct(c, s.step);
    DrawsFitEpochs(s.step, c.batchSize, |c.base|, epochs);
    CutFollowsSchedule(c, s, epochs);
  }

  /** What matters of a drawing machine: it steps from place to place, draws the cut, and stops at the last step. */
  ghost predicate DrawsCuts<R(!new), T(!new)>(c: Config<R, T>, m: Machine<State<R>, nat>) {
    && (forall x {:trigger m.next(x)} :: Placed(c, x) ==> Placed(c, m.next(x)) && m.next(x).step == x.step + 1)
    && (forall x {:trigger m.out(x)} :: m.out(x) == Cut(c, x))
    && (forall x {:trigger m.stop(x)} :: m.stop(x) <==> x.step >= c.maxSteps)
  }

  lemma DrawerDrawsCuts<R(!new), T(!new)>(c: Config<R, T>)
    requires Proper(c) && c.batchSize <= |c.base|
    ensures DrawsCuts(c, Drawer(c))
  {
    forall x | Placed(c, x)
      ensures Placed(c, Drawer(c).next(x)) && Drawer(c).next(x).step == x.step + 1
    {
      PlacedNext(c, x);
    }
  }

  lemma {:induction false} DrawsKeepPlace<R(!new), T(!new)>(c: Config<R, T>, m: Machine<State<R>, nat>, s: State<R>,
                                                            k: nat)
    requires DrawsCuts(c, m) && Placed(c, s) && s.step + k <= c.maxSteps
    ensures Placed(c, After(m, s, k)) && After(m, s, k).step == s.step + k
    decreases k
  {
    if k > 0 { DrawsKeepPlace(c, m, m.next(s), k - 1); }
  }

  /** Where the first reads after step `from` cut the schedule. */
  function Cuts<R, T>(c: Config<R, T>, from: nat, k: nat): (cuts: seq<nat>)
    ensures |cuts| == k + 1 && forall i :: 0 <= i <= k ==> cuts[i] == Pos(c, from + i)
  {
    if k == 0 then [Pos(c, from)] else Cuts(c, from, k - 1) + [Pos(c, from + k)]
  }

  /** The read after i others. */
  lemma LaterDraw<R(!new), T(!new)>(c: Config<R, T>, m: Machine<State<R>, nat>, s: State<R>, i: nat, k: nat,
                                    epochs: nat)
    requires Proper(c) && c.batchSize <= |c.base| && DrawsCuts(c, m) && Placed(c, s)
    requires i < k && s.step + k <= c.maxSteps && epochs > s.step + k
    ensures PutsOut(m, s, i, Epochs(c.shuffle, epochs), Cuts(c, s.step, k))
  {
    DrawsKeepPlace(c, m, s, i);
    DrawAt(c, m, After(m, s, i), epochs);
  }

  /** One draw from a placed state. */
  lemma DrawAt<R(!new), T(!new)>(c: Config<R, T>, m: Machine<State<R>, nat>, x: State<R>, epochs: nat)
    requires Proper(c) && c.batchSize <= |c.base| && DrawsCuts(c, m) && Placed(c, x)
    requires x.step < c.maxSteps && epochs > x.step + 1
    ensures !m.stop(x) && Pos(c, x.step) <= Pos(c, x.step + 1) <= |Epochs(c.shuffle, epochs)|
    ensures m.out(x) == Epochs(c.shuffle, epochs)[Pos(c, x.step)..Pos(c, x.step + 1)]
  {
    OneDraw(c, x, epochs);
  }

  /** From any point, k reads draw the next k * batchSize entries of the schedule. */
  lemma DrawnIsSlice<R(!new), T(!new)>(c: Config<R, T>, m: Machine<State<R>, nat>, s: State<R>, k: nat, epochs: nat)
    requires Proper(c) && c.batchSize <= |c.base| && DrawsCuts(c, m) && Placed(c, s)
    requires s.step + k <= c.maxSteps && epochs > s.step + k
    ensures 0 <= Pos(c, s.step) <= Pos(c, s.step + k) <= |Epochs(c.shuffle, epochs)|
    ensures Output(m, s, k) == Epochs(c.shuffle, epochs)[Pos(c, s.step)..Pos(c, s.step + k)]
  {
    var all, cuts := Epochs(c.shuffle, epochs), Cuts(c, s.step, k);
    forall i: nat | i < k ensures PutsOut(m, s, i, all, cuts) { LaterDraw(c, m, s, i, k, epochs); }
    PosBounded(c, s.step, epochs);
    OutputIsSlice(m, s, k, all, cuts);
  }

  /** The first k reads draw the first k * batchSize entries of epoch 0, epoch 1, ... laid end to end. */
  lemma ScheduleIsEpochConcatenation<R(!new), T(!new)>(c: Config<R, T>, readers: R, k: nat)
    requires Proper(c) && c.batchSize <= |c.base| && k <= c.maxSteps
    ensures k * c.batchSize <= |Epochs(c.shuffle, k + 1)|
    ensures Output(Drawer(c), Restore(c, 0, readers), k) == Epochs(c.shuffle, k + 1)[..k * c.batchSize]
  {
    DrawerDrawsCuts(c);
    DrawnIsSlice(c, Drawer(c), Restore(c, 0, readers), k, k + 1);
    PosIsProduct(c, k);
  }

  // ---- stopping -----------------------------------------------------------------------------

  function MaxSteps(totalSteps: nat, totalEpochs: nat, batchSize: nat, n: nat): nat
    requires batchSize >= 1
  {
    if totalSteps > 0 then totalSteps else totalEpochs * n / batchSize
  }

  /** What the constructor makes of its configuration: no tasks at all is an error. */
  function Configure<R, T>(lens: seq<nat>, batchSize: nat, totalSteps: nat, totalEpochs: nat,
                           shuffle: nat -> seq<nat>, read: (R, nat, nat) -> (seq<T>, R)): Result<Config<R, T>, string>
    requires batchSize >= 1
  {
    var base := Base(lens);
    if base == [] then Err("Empty tasksets provided!")
    else Ok(Config(batchSize, base, MaxSteps(totalSteps, totalEpochs, batchSize, |base|), shuffle, read))
  }

  lemma {:induction false} EmptyBaseIff(lens: seq<nat>)
    ensures Base(lens) == [] <==> forall i :: 0 <= i < |lens| ==> lens[i] == 0
  {
    if lens != [] { EmptyBaseIff(lens[..|lens| - 1]); }
  }

  /** The constructor fails exactly when no taskset has a task; otherwise any seeded shuffle of its list will do. */
  lemma ConfigureFailsIff<R(!new), T(!new)>(lens: seq<nat>, batchSize: nat, totalSteps: nat, totalEpochs: nat,
                                            shuffle: nat -> seq<nat>, read: (R, nat, nat) -> (seq<T>, R))
    requires batchSize >= 1 && Shuffles(shuffle, Base(lens))
    ensures var c := Configure(lens, batchSize, totalSteps, totalEpochs, shuffle, read);
            && (c.Err? <==> forall i :: 0 <= i < |lens| ==> lens[i] == 0)
            && (c.Ok? ==>
                Proper(c.value) && c.value.maxSteps == MaxSteps(totalSteps, totalEpochs, batchSize, |Base(lens)|))
  {
    EmptyBaseIff(lens);
  }

  lemma Remainder(x: nat, b: nat)
    requires b >= 1
    ensures 0 <= x - x / b * b < b
  {
    assert x == x / b * b + x % b;
  }

  /** Without total_steps, the reads stop with less than one batch of the epochs' draws left. */
  lemma StopsWithinABatch<R(!new), T(!new)>(c: Config<R, T>, readers: R, totalEpochs: nat, k: nat)
    requires Proper(c) && c.maxSteps == MaxSteps(0, totalEpochs, c.batchSize, |c.base|)
    ensures After(Reader(c), Restore(c, 0, readers), k).step == Min(k, c.maxSteps)
    ensures 0 <= totalEpochs * |c.base| - c.maxSteps * c.batchSize < c.batchSize
  {
    Remainder(totalEpochs * |c.base|, c.batchSize);
    ReadsCountSteps(c, Restore(c, 0, readers), k);
  }

  // ---- batches larger than an epoch ---------------------------------------------------------

  /** Reads without a last step. */
  function Endless<R, T>(c: Config<R, T>): Machine<State<R>, nat> {
    Drawer(c).(stop := _ => false)
  }

  /** A batch larger than an epoch always counts exactly one epoch. */
  lemma WideBatchCountsOneEpoch<R(!new), T(!new)>(c: Config<R, T>, s: State<R>, k: nat)
    requires c.batchSize > |c.base|
    ensures After(Endless(c), s, k).epoch == s.epoch + k
  {
    EpochCounts(Endless(c), s, k);
  }

  lemma {:induction false} EpochCounts<R(!new)>(m: Machine<State<R>, nat>, s: State<R>, k: nat)
    requires forall x :: !m.stop(x) && m.next(x).epoch == x.epoch + 1
    ensures After(m, s, k).epoch == s.epoch + k
    decreases k
  {
    if k > 0 { EpochCounts(m, m.next(s), k - 1); }
  }

  lemma {:induction false} StepCounts<R(!new)>(m: Machine<State<R>, nat>, s: State<R>, k: nat)
    requires forall x :: !m.stop(x) && m.next(x).step == x.step + 1
    ensures After(m, s, k).step == s.step + k
    decreases k
  {
    if k > 0 { StepCounts(m, m.next(s), k - 1); }
  }

  lemma NarrowBatchKeepsEpoch<R(!new), T(!new)>(c: Config<R, T>, s: State<R>, k: nat)
    requires Proper(c) && c.batchSize <= |c.base| && Placed(c, s)
    ensures After(Endless(c), s, k).epoch == EpochOf(c, s.step + k)
  {
    EndlessKeepsPlace(c, s, k);
    StepCounts(Endless(c), s, k);
  }

  lemma EndlessKeepsPlace<R(!new), T(!new)>(c: Config<R, T>, s: State<R>, k: nat)
    requires Proper(c) && c.batchSize <= |c.base| && Placed(c, s)
    ensures Placed(c, After(Endless(c), s, k))
  {
    var inv := (x: State<R>) => Placed(c, x);
    forall x | inv(x) ensures inv(Endless(c).next(x)) { PlacedNext(c, x); }
    InvariantKept(Endless(c), inv, s, k);
  }

  /**
   The epoch a restart computes agrees with the running one after every number of reads iff no batch outgrows an epoch.
   */
  lemma EpochAgreesIff<R(!new), T(!new)>(c: Config<R, T>, readers: R)
    requires Proper(c)
    ensures (forall k: nat :: After(Endless(c), Restore(c, 0, readers), k).epoch == EpochOf(c, k))
        <==> c.batchSize <= |c.base|
  {
    var s, n := Restore(c, 0, readers), |c.base|;
    assert s.epoch == 0;
    if c.batchSize <= n {
      forall k: nat ensures After(Endless(c), s, k).epoch == EpochOf(c, k) {
        NarrowBatchKeepsEpoch(c, s, k);
      }
    } else {
      WideBatchCountsOneEpoch(c, s, n);
      EpochOfWide(c);
      assert After(Endless(c), s, n).epoch != EpochOf(c, n);
    }
  }

  lemma EpochOfWide<R(!new), T(!new)>(c: Config<R, T>)
    ensures EpochOf(c, |c.base|) == c.batchSize
  {
    var n, b := |c.base|, c.batchSize;
    assert n * b == b * n + 0;
    DivModUnique(n * b, n, b, 0);
  }
}
