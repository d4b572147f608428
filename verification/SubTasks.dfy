/** Splitting the runs of one task into sub-tasks, and the run ids the sub-tasks give out. */
module SubTasks {
  import opened Common

  /** A queued entry: which task wrapper it belongs to, how many runs, and the first run id. */
  datatype Piece = Piece(wrapper: nat, runs: nat, base: nat)

  /** The sub-tasks with run ids from `base` on, at most `size` runs each. */
  function SplitFrom(wrapper: nat, total: nat, size: nat, base: nat): (ps: seq<Piece>)
    requires size > 0
    decreases total - base
  {
    if base >= total then []
    else
      [Piece(wrapper, if size < total - base then size else total - base, base)]
      + SplitFrom(wrapper, total, size, base + size)
  }

  /** All sub-tasks of a task with `total` runs; without a limit there is exactly one. */
  function Split(wrapper: nat, total: nat, limit: Option<nat>): seq<Piece>
    requires limit.Some? ==> limit.value > 0
  {
    if limit.None? then [Piece(wrapper, total, 0)] else SplitFrom(wrapper, total, limit.value, 0)
  }

  predicate Covers(p: Piece, run: nat) { p.base <= run < p.base + p.runs }

  predicate Covered(ps: seq<Piece>, run: nat) {
    exists i :: 0 <= i < |ps| && Covers(ps[i], run)
  }

  function RunsOf(ps: seq<Piece>): nat {
    if ps == [] then 0 else ps[0].runs + RunsOf(ps[1..])
  }

  lemma {:induction false} SplitFromTiles(wrapper: nat, total: nat, size: nat, base: nat)
    requires size > 0 && base <= total
    ensures var ps := SplitFrom(wrapper, total, size, base);
            && (forall i :: 0 <= i < |ps| ==> ps[i].wrapper == wrapper && 0 < ps[i].runs <= size)
            && (forall i :: 0 <= i < |ps| ==> base <= ps[i].base && ps[i].base + ps[i].runs <= total)
            && (forall i, j :: 0 <= i < j < |ps| ==> ps[i].base + ps[i].runs <= ps[j].base)
            && RunsOf(ps) == total - base
    decreases total - base
  {
    if base < total {
      var next := base + size;
      if next >= total {
        assert SplitFrom(wrapper, total, size, next) == [];
      } else {
        SplitFromTiles(wrapper, total, size, next);
      }
    }
  }

  lemma {:induction false} SplitFromCovers(wrapper: nat, total: nat, size: nat, base: nat, run: nat)
    requires size > 0 && base <= run < total
    ensures Covered(SplitFrom(wrapper, total, size, base), run)
    decreases total - base
  {
    var ps, rest := SplitFrom(wrapper, total, size, base), SplitFrom(wrapper, total, size, base + size);
    if run < base + size {
      assert Covers(ps[0], run);
    } else {
      SplitFromCovers(wrapper, total, size, base + size, run);
      var i :| 0 <= i < |rest| && Covers(rest[i], run);
      assert Covers(ps[i + 1], run);
    }
  }

  /** The pieces tile [0, total): every run id is covered, no two pieces overlap, each respects the limit. */
  lemma SplitTiles(wrapper: nat, total: nat, limit: Option<nat>)
    requires limit.Some? ==> limit.value > 0
    ensures var ps := Split(wrapper, total, limit);
            && NoDup(ps)
            && (forall i :: 0 <= i < |ps| ==>
                  ps[i].wrapper == wrapper && ps[i].base + ps[i].runs <= total
                  && (limit.Some? ==> 0 < ps[i].runs <= limit.value))
            && (forall i, j :: 0 <= i < j < |ps| ==> ps[i].base + ps[i].runs <= ps[j].base)
            && (forall run: nat :: run < total <==> Covered(ps, run))
            && RunsOf(ps) == total
            && (ps == [] <==> total == 0 && limit.Some?)
  {
    var ps := Split(wrapper, total, limit);
    if limit.None? {
      assert RunsOf(ps) == total + RunsOf([]);
      forall run: nat | Covers(ps[0], run) ensures Covered(ps, run) {}
    } else {
      SplitFromTiles(wrapper, total, limit.value, 0);
      forall run: nat | run < total ensures Covered(ps, run) { SplitFromCovers(wrapper, total, limit.value, 0, run); }
    }
  }

  /** The sub-tasks of a task are different, belong to it, and have its runs between them. */
  lemma SplitOwners(wrapper: nat, total: nat, limit: Option<nat>)
    requires limit.Some? ==> limit.value > 0
    ensures var ps := Split(wrapper, total, limit);
            NoDup(ps) && RunsOf(ps) == total && forall i :: 0 <= i < |ps| ==> ps[i].wrapper == wrapper
  {
    SplitTiles(wrapper, total, limit);
  }

  /** The pieces lie behind one another within the runs. */
  lemma SplitOrdered(wrapper: nat, total: nat, limit: Option<nat>)
    requires limit.Some? ==> limit.value > 0
    ensures var ps := Split(wrapper, total, limit);
            && (forall i :: 0 <= i < |ps| ==> ps[i].base + ps[i].runs <= total)
            && (forall i, j :: 0 <= i < j < |ps| ==> ps[i].base + ps[i].runs <= ps[j].base)
  {
    SplitTiles(wrapper, total, limit);
  }

  /** Runs of different pieces, or different runs of one piece, never share a run id. */
  lemma RunIdsAreUnique(wrapper: nat, total: nat, limit: Option<nat>, p: Piece, i: nat, q: Piece, j: nat)
    requires limit.Some? ==> limit.value > 0
    requires p in Split(wrapper, total, limit) && i < p.runs
    requires q in Split(wrapper, total, limit) && j < q.runs
    ensures p.base + i < total
    ensures p.base + i == q.base + j ==> p == q && i == j
  {
    SplitOrdered(wrapper, total, limit);
    var ps := Split(wrapper, total, limit);
    var a :| 0 <= a < |ps| && ps[a] == p;
    var b :| 0 <= b < |ps| && ps[b] == q;
    assert a < b ==> p.base + p.runs <= q.base;
    assert b < a ==> q.base + q.runs <= p.base;
  }
}
