/** What the bounded search finds: soundness, completeness for a large enough bound, and where the bound misleads. */
module FrozenLakeTheorems {
  import opened Common
  import opened FrozenLake

  predicate Adjacent(x: Cell, y: Cell) {
    y in Neighbours(x)
  }

  /** A walk over the board that never enters a hole. */
  predicate Walk(board: Board, p: seq<Cell>)
    requires Square(board, |board|)
  {
    && p != []
    && (forall i :: 0 <= i < |p| ==> OnBoard(|board|, p[i]) && At(board, p[i]) != 'H')
    && (forall i :: 0 <= i < |p| - 1 ==> Adjacent(p[i], p[i + 1]))
  }

  predicate WalkTo(board: Board, start: Cell, x: Cell, p: seq<Cell>)
    requires Square(board, |board|)
  {
    Walk(board, p) && p[0] == start && p[|p| - 1] == x
  }

  /** There is a walk from `start` to a goal cell in at most `moves` moves. */
  ghost predicate GoalWithin(board: Board, start: Cell, moves: int)
    requires Square(board, |board|)
  {
    exists p :: Walk(board, p) && p[0] == start && At(board, p[|p| - 1]) == 'G' && |p| - 1 <= moves
  }

  ghost predicate Reachable(board: Board, start: Cell)
    requires Square(board, |board|)
  {
    exists p :: Walk(board, p) && p[0] == start && At(board, p[|p| - 1]) == 'G'
  }

  // ---- soundness ----------------------------------------------------------------------------

  ghost predicate Reached(board: Board, start: Cell, x: Node)
    requires Square(board, |board|)
  {
    exists p :: WalkTo(board, start, x.cell, p) && |p| == x.steps + 1
  }

  lemma Extend(board: Board, start: Cell, x: Node, d: nat)
    requires Square(board, |board|) && Reached(board, start, x) && d < 4
    requires OnBoard(|board|, Neighbours(x.cell)[d]) && At(board, Neighbours(x.cell)[d]) != 'H'
    ensures Reached(board, start, Node(Neighbours(x.cell)[d], x.steps + 1))
  {
    var p :| WalkTo(board, start, x.cell, p) && |p| == x.steps + 1;
    assert WalkTo(board, start, Neighbours(x.cell)[d], p + [Neighbours(x.cell)[d]]);
  }

  lemma {:induction false} PushesReached(board: Board, start: Cell, x: Node, k: nat)
    requires Square(board, |board|) && Reached(board, start, x) && k <= 4
    ensures forall y :: y in Pushes(board, x, k) ==> Reached(board, start, y)
  {
    if k > 0 {
      PushesReached(board, start, x, k - 1);
      var y := Neighbours(x.cell)[k - 1];
      if OnBoard(|board|, y) && At(board, y) != 'H' { Extend(board, start, x, k - 1); }
    }
  }

  lemma {:induction false} DfsSound(board: Board, maxSteps: int, start: Cell, frontier: seq<Node>,
                                    discovered: set<Cell>)
    requires Square(board, |board|)
    requires forall x :: x in frontier ==> OnBoard(|board|, x.cell) && Reached(board, start, x)
    requires Dfs(board, maxSteps, frontier, discovered)
    ensures GoalWithin(board, start, maxSteps + 1)
    decreases Cells(|board|) - discovered, |frontier|
  {
    var x, rest := frontier[|frontier| - 1], frontier[..|frontier| - 1];
    if x.steps > maxSteps || x.cell in discovered {
      DfsSound(board, maxSteps, start, rest, discovered);
    } else if SeesGoal(board, x.cell) {
      var d :| 0 <= d < 4 && OnBoard(|board|, Neighbours(x.cell)[d]) && At(board, Neighbours(x.cell)[d]) == 'G';
      Extend(board, start, x, d);
      var p :| WalkTo(board, start, Neighbours(x.cell)[d], p) && |p| == x.steps + 2;
      assert Walk(board, p) && p[0] == start && At(board, p[|p| - 1]) == 'G';
    } else {
      PushesReached(board, start, x, 4);
      DfsSound(board, maxSteps, start, rest + Pushes(board, x, 4), discovered + {x.cell});
    }
  }

  lemma StartReached(board: Board, start: Cell)
    requires Square(board, |board|) && OnBoard(|board|, start) && At(board, start) != 'H'
    ensures Reached(board, start, Node(start, 0))
  {
    assert WalkTo(board, start, start, [start]);
  }

  /** A board that is declared valid has a walk to the goal with at most one move more than the bound. */
  lemma ValidMeansGoalWithinOneMore(board: Board, maxSteps: int)
    requires Square(board, |board|) && Validity(board, maxSteps) == Ok(true)
    ensures GoalWithin(board, FirstStart(board, 0).value, maxSteps + 1)
  {
    var start := FirstStart(board, 0).value;
    StartReached(board, start);
    DfsSound(board, maxSteps, start, [Node(start, 0)], {});
  }

  // ---- completeness -------------------------------------------------------------------------

  function Row(r: int, k: nat): set<Cell> {
    if k == 0 then {} else Row(r, k - 1) + {Cell(r, k - 1)}
  }

  function Rows(n: nat, rows: nat): set<Cell> {
    if rows == 0 then {} else Rows(n, rows - 1) + Row(rows - 1, n)
  }

  lemma {:induction false} InRow(r: int, k: nat)
    ensures forall x :: x in Row(r, k) <==> x.r == r && 0 <= x.c < k
  {
    if k > 0 { InRow(r, k - 1); }
  }

  lemma {:induction false} InRows(n: nat, rows: nat)
    ensures forall x :: x in Rows(n, rows) <==> 0 <= x.r < rows && 0 <= x.c < n
  {
    if rows > 0 {
      InRows(n, rows - 1);
      InRow(rows - 1, n);
    }
  }

  lemma {:induction false} RowCount(r: int, k: nat)
    ensures |Row(r, k)| == k
  {
    if k > 0 {
      RowCount(r, k - 1);
      InRow(r, k - 1);
    }
  }

  lemma RowsDisjoint(n: nat, rows: nat)
    ensures Rows(n, rows) !! Row(rows, n)
  {
    InRows(n, rows);
    InRow(rows, n);
  }

  lemma {:induction false} RowsCount(n: nat, rows: nat)
    ensures |Rows(n, rows)| == rows * n
  {
    if rows > 0 {
      RowsCount(n, rows - 1);
      RowCount(rows - 1, n);
      RowsDisjoint(n, rows - 1);
      UnionCount(Rows(n, rows - 1), Row(rows - 1, n));
      OneRowMore(n, rows);
    }
  }

  lemma UnionCount(a: set<Cell>, b: set<Cell>)
    requires a !! b
    ensures |a + b| == |a| + |b|
  {
  }

  lemma OneRowMore(n: nat, rows: nat)
    requires rows > 0
    ensures rows * n == (rows - 1) * n + n
  {
  }

  lemma AllCells(n: nat)
    ensures |Cells(n)| == n * n
  {
    RowsCount(n, n);
    InRows(n, n);
    assert Cells(n) == Rows(n, n);
  }

  /** The cells that are neither holes nor goals. */
  function Open(board: Board): (open: set<Cell>)
    requires Square(board, |board|)
    ensures open <= Cells(|board|)
  {
    set x | x in Cells(|board|) && At(board, x) != 'H' && At(board, x) != 'G'
  }

  lemma OpenAtMostAll(board: Board)
    requires Square(board, |board|)
    ensures |Open(board)| <= |board| * |board|
  {
    AllCells(|board|);
    SubsetCardinality(Open(board), Cells(|board|));
  }

  function FrontierCells(frontier: seq<Node>): set<Cell> {
    set x | x in frontier :: x.cell
  }

  /** Every way out of a discovered cell is a hole or is known already, and none is a goal. */
  ghost predicate Closed(board: Board, discovered: set<Cell>, known: set<Cell>)
    requires Square(board, |board|)
  {
    forall x, d :: x in discovered && 0 <= d < 4 && OnBoard(|board|, Neighbours(x)[d]) ==>
      && At(board, Neighbours(x)[d]) != 'G'
      && (At(board, Neighbours(x)[d]) == 'H' || Neighbours(x)[d] in known)
  }

  /** No entry is deeper than the number of cells discovered so far. */
  ghost predicate Shallow(board: Board, frontier: seq<Node>, discovered: set<Cell>)
    requires Square(board, |board|)
  {
    && discovered <= Open(board)
    && (forall x :: x in frontier ==> x.cell in Open(board) && x.steps <= |discovered|)
  }

  /** An undiscovered entry is never cut off by a bound that covers the open cells but one. */
  lemma NeverCutOff(board: Board, frontier: seq<Node>, discovered: set<Cell>, x: Node)
    requires Square(board, |board|) && Shallow(board, frontier, discovered)
    requires x in frontier && x.cell !in discovered
    ensures x.steps <= |Open(board)| - 1
  {
    SubsetCardinality(discovered + {x.cell}, Open(board));
  }

  lemma {:induction false} PushesShape(board: Board, x: Node, k: nat)
    requires Square(board, |board|) && k <= 4
    ensures forall y :: y in Pushes(board, x, k) ==>
        y.steps == x.steps + 1 && exists d :: 0 <= d < k && y.cell == Neighbours(x.cell)[d]
    ensures forall y :: y in Pushes(board, x, k) ==> At(board, y.cell) != 'H'
    ensures forall d ::
              0 <= d < k && OnBoard(|board|, Neighbours(x.cell)[d]) && At(board, Neighbours(x.cell)[d]) != 'H' ==>
              Neighbours(x.cell)[d] in FrontierCells(Pushes(board, x, k))
  {
    if k > 0 {
      PushesShape(board, x, k - 1);
      var before, y := Pushes(board, x, k - 1), Neighbours(x.cell)[k - 1];
      assert FrontierCells(before) <= FrontierCells(Pushes(board, x, k));
      if OnBoard(|board|, y) && At(board, y) != 'H' {
        assert Node(y, x.steps + 1) in Pushes(board, x, k);
      }
    }
  }

  lemma ExpandKeepsShallow(board: Board, rest: seq<Node>, x: Node, discovered: set<Cell>)
    requires Square(board, |board|) && Shallow(board, rest + [x], discovered)
    requires x.cell !in discovered && !SeesGoal(board, x.cell)
    ensures Shallow(board, rest + Pushes(board, x, 4), discovered + {x.cell})
  {
    assert x in rest + [x];
    PushesShape(board, x, 4);
    forall y | y in rest + Pushes(board, x, 4)
      ensures y.cell in Open(board) && y.steps <= |discovered + {x.cell}|
    {
      if y in rest { assert y in rest + [x]; }
    }
  }

  lemma ExpandKeepsClosed(board: Board, rest: seq<Node>, x: Node, discovered: set<Cell>)
    requires Square(board, |board|) && Closed(board, discovered, discovered + FrontierCells(rest + [x]))
    requires !SeesGoal(board, x.cell)
    ensures Closed(board, discovered + {x.cell}, discovered + {x.cell} + FrontierCells(rest + Pushes(board, x, 4)))
  {
    PushesShape(board, x, 4);
    var known := discovered + {x.cell} + FrontierCells(rest + Pushes(board, x, 4));
    assert FrontierCells(rest + [x]) <= known by {
      forall y | y in rest + [x] ensures y.cell in known {
        if y in rest { assert y in rest + Pushes(board, x, 4); }
      }
    }
    assert FrontierCells(Pushes(board, x, 4)) <= known by {
      forall y | y in Pushes(board, x, 4) ensures y.cell in known {
        assert y in rest + Pushes(board, x, 4);
      }
    }
  }

  /** A failed search has discovered a set that holds the frontier, cannot be left and shows no goal. */
  lemma FrontierStays(rest: seq<Node>, x: Node, pushed: seq<Node>)
    ensures FrontierCells(rest + [x]) <= FrontierCells(rest + pushed) + {x.cell}
  {
    forall y | y in rest + [x] ensures y.cell in FrontierCells(rest + pushed) + {x.cell} {
      if y in rest { assert y in rest + pushed; }
    }
  }

  lemma {:induction false} DfsFailsClosed(board: Board, maxSteps: int, frontier: seq<Node>, discovered: set<Cell>)
    returns (all: set<Cell>)
    requires Square(board, |board|) && Shallow(board, frontier, discovered)
    requires Closed(board, discovered, discovered + FrontierCells(frontier))
    requires maxSteps >= |Open(board)| - 1
    requires !Dfs(board, maxSteps, frontier, discovered)
    ensures discovered + FrontierCells(frontier) <= all && Closed(board, all, all)
    decreases Cells(|board|) - discovered, |frontier|
  {
    if frontier == [] {
      assert discovered + FrontierCells(frontier) == discovered;
      return discovered;
    }
    var x, rest := frontier[|frontier| - 1], frontier[..|frontier| - 1];
    assert frontier == rest + [x];
    if x.cell in discovered {
      assert discovered + FrontierCells(rest) == discovered + FrontierCells(frontier);
      all := DfsFailsClosed(board, maxSteps, rest, discovered);
    } else {
      NeverCutOff(board, frontier, discovered, x);
      ExpandKeepsShallow(board, rest, x, discovered);
      ExpandKeepsClosed(board, rest, x, discovered);
      var next := rest + Pushes(board, x, 4);
      all := DfsFailsClosed(board, maxSteps, next, discovered + {x.cell});
      FrontierStays(rest, x, Pushes(board, x, 4));
    }
  }

  lemma {:induction false} WalkStaysInside(board: Board, all: set<Cell>, p: seq<Cell>, k: nat)
    requires Square(board, |board|) && Closed(board, all, all) && Walk(board, p) && p[0] in all && k < |p|
    ensures p[k] in all && (k > 0 ==> At(board, p[k]) != 'G')
  {
    if k > 0 {
      WalkStaysInside(board, all, p, k - 1);
      assert Adjacent(p[k - 1], p[k]);
      var d :| 0 <= d < 4 && p[k] == Neighbours(p[k - 1])[d];
      assert OnBoard(|board|, Neighbours(p[k - 1])[d]);
    }
  }

  lemma ReachableIsFound(board: Board, maxSteps: int)
    requires Square(board, |board|) && FirstStart(board, 0).Some? && maxSteps >= |Open(board)| - 1
    requires Reachable(board, FirstStart(board, 0).value)
    ensures Validity(board, maxSteps) == Ok(true)
  {
    var start := FirstStart(board, 0).value;
    var p :| Walk(board, p) && p[0] == start && At(board, p[|p| - 1]) == 'G';
    if !Dfs(board, maxSteps, [Node(start, 0)], {}) { FailureExcludes(board, maxSteps, start, p); }
  }

  /** If the search from `start` fails, no walk from there ends in a goal. */
  lemma FailureExcludes(board: Board, maxSteps: int, start: Cell, p: seq<Cell>)
    requires Square(board, |board|) && maxSteps >= |Open(board)| - 1
    requires OnBoard(|board|, start) && At(board, start) == 'S'
    requires !Dfs(board, maxSteps, [Node(start, 0)], {})
    requires Walk(board, p) && p[0] == start
    ensures At(board, p[|p| - 1]) != 'G'
  {
    var frontier := [Node(start, 0)];
    assert FrontierCells(frontier) == {start} by { assert Node(start, 0) in frontier; }
    var all := DfsFailsClosed(board, maxSteps, frontier, {});
    assert start in {} + FrontierCells(frontier);
    WalkStaysInside(board, all, p, |p| - 1);
  }

  /**
   With a bound of at least the open cells but one (n * n is always enough) the answer is exactly whether a goal can be
   reached.
   */
  lemma ExactForLargeBounds(board: Board, maxSteps: int)
    requires Square(board, |board|) && FirstStart(board, 0).Some? && maxSteps >= |Open(board)| - 1
    ensures Validity(board, maxSteps) == Ok(Reachable(board, FirstStart(board, 0).value))
  {
    var start := FirstStart(board, 0).value;
    if Validity(board, maxSteps) == Ok(true) {
      ValidMeansGoalWithinOneMore(board, maxSteps);
    }
    if Reachable(board, start) { ReachableIsFound(board, maxSteps); }
  }

  // ---- the documented claim -----------------------------------------------------------------

  /** What the docstring says: true if and only if there is a path within maxSteps moves. */
  ghost predicate AsDocumented(board: Board, maxSteps: int)
    requires Square(board, |board|) && FirstStart(board, 0).Some?
  {
    Validity(board, maxSteps) == Ok(GoalWithin(board, FirstStart(board, 0).value, maxSteps))
  }

  /** Cutting the loop out of a walk that visits a cell twice. */
  lemma CutLoop(board: Board, p: seq<Cell>, i: nat, j: nat)
    requires Square(board, |board|) && Walk(board, p) && i < j < |p| && p[i] == p[j]
    ensures var q := p[..i] + p[j..]; Walk(board, q) && q[0] == p[0] && q[|q| - 1] == p[|p| - 1] && |q| < |p|
  {
    var q := p[..i] + p[j..];
    forall k | 0 <= k < |q| - 1 ensures Adjacent(q[k], q[k + 1]) {
      if k < i - 1 {
        assert Adjacent(p[k], p[k + 1]);
      } else if k == i - 1 {
        assert q[k] == p[i - 1] && q[k + 1] == p[i];
        assert Adjacent(p[k], p[k + 1]);
      } else {
        assert q[k] == p[k - i + j] && q[k + 1] == p[k - i + j + 1];
        assert Adjacent(p[k - i + j], p[k - i + j + 1]);
      }
    }
  }

  /** Every walk can be shortened to one that visits no cell twice, and no other cells. */
  lemma {:induction false} SimpleWalk(board: Board, p: seq<Cell>) returns (q: seq<Cell>)
    requires Square(board, |board|) && Walk(board, p)
    ensures Walk(board, q) && q[0] == p[0] && q[|q| - 1] == p[|p| - 1] && NoDup(q)
    ensures forall x :: x in q ==> x in p
    decreases |p|
  {
    if i, j :| 0 <= i < j < |p| && p[i] == p[j] {
      CutLoop(board, p, i, j);
      q := SimpleWalk(board, p[..i] + p[j..]);
    } else {
      q := p;
    }
  }

  lemma {:induction false} FirstGoal(board: Board, p: seq<Cell>, k: nat) returns (j: nat)
    requires Square(board, |board|) && Walk(board, p) && k < |p| && At(board, p[|p| - 1]) == 'G'
    requires forall i :: 0 <= i < k ==> At(board, p[i]) != 'G'
    ensures j < |p| && At(board, p[j]) == 'G' && forall i :: 0 <= i < j ==> At(board, p[i]) != 'G'
    decreases |p| - k
  {
    if At(board, p[k]) == 'G' {
      j := k;
    } else {
      j := FirstGoal(board, p, k + 1);
    }
  }

  lemma WalkPrefix(board: Board, p: seq<Cell>, j: nat)
    requires Square(board, |board|) && Walk(board, p) && 0 < j <= |p|
    ensures Walk(board, p[..j])
  {
    forall i | 0 <= i < j - 1 ensures Adjacent(p[..j][i], p[..j][i + 1]) {
      assert Adjacent(p[i], p[i + 1]);
    }
  }

  lemma WalkSnoc(board: Board, q: seq<Cell>, y: Cell)
    requires Square(board, |board|) && Walk(board, q) && Adjacent(q[|q| - 1], y)
    requires OnBoard(|board|, y) && At(board, y) != 'H'
    ensures Walk(board, q + [y])
  {
  }

  /** A walk without repetitions and without a goal stays within the open cells. */
  lemma OpenWalkIsShort(board: Board, q: seq<Cell>)
    requires Square(board, |board|) && Walk(board, q) && NoDup(q)
    requires forall i :: 0 <= i < |q| ==> At(board, q[i]) != 'G'
    ensures |q| <= |Open(board)|
  {
    NoDupCardinality(q);
    SubsetCardinality(Elements(q), Open(board));
  }

  /** Up to the first goal, without loops. */
  lemma WalkUpToGoal(board: Board, p: seq<Cell>) returns (q: seq<Cell>, goal: Cell)
    requires Square(board, |board|) && Walk(board, p) && At(board, p[0]) == 'S' && At(board, p[|p| - 1]) == 'G'
    ensures Walk(board, q) && NoDup(q) && q[0] == p[0] && forall i :: 0 <= i < |q| ==> At(board, q[i]) != 'G'
    ensures OnBoard(|board|, goal) && At(board, goal) == 'G' && Adjacent(q[|q| - 1], goal)
  {
    var j := FirstGoal(board, p, 0);
    WalkPrefix(board, p, j);
    q := SimpleWalk(board, p[..j]);
    goal := p[j];
    assert Adjacent(p[j - 1], p[j]);
    forall i | 0 <= i < |q| ensures At(board, q[i]) != 'G' {
      assert q[i] in q;
    }
  }

  /** A goal that can be reached at all can be reached in no more moves than there are open cells. */
  lemma ReachableWithinOpen(board: Board, start: Cell)
    requires Square(board, |board|) && Reachable(board, start) && OnBoard(|board|, start) && At(board, start) == 'S'
    ensures GoalWithin(board, start, |Open(board)|)
  {
    var p :| Walk(board, p) && p[0] == start && At(board, p[|p| - 1]) == 'G';
    var q, goal := WalkUpToGoal(board, p);
    OpenWalkIsShort(board, q);
    WalkSnoc(board, q, goal);
    var w := q + [goal];
    assert Walk(board, w) && w[0] == start && At(board, w[|w| - 1]) == 'G' && |w| - 1 <= |Open(board)|;
  }

  lemma DocumentedForExtremeBounds(board: Board, maxSteps: int)
    requires Square(board, |board|) && FirstStart(board, 0).Some?
    requires maxSteps < 0 || maxSteps >= |Open(board)|
    ensures AsDocumented(board, maxSteps)
  {
    var start := FirstStart(board, 0).value;
    if maxSteps < 0 {
      assert !Dfs(board, maxSteps, [], {});
      assert [Node(start, 0)][..0] == [];
      assert !Dfs(board, maxSteps, [Node(start, 0)], {});
    } else {
      ExactForLargeBounds(board, maxSteps);
      if Reachable(board, start) { ReachableWithinOpen(board, start); }
    }
  }

  // ---- a corridor: the bound admits one move too many ----------------------------------------

  /** "S", m free cells, "G" and more free cells in the first row, holes everywhere else; k open cells in all. */
  function Corridor(k: nat, m: nat): (board: Board)
    requires m < k
    ensures Square(board, |board|) && |board| == k + 1
  {
    seq(k + 1, r => seq(k + 1, c => if r > 0 then 'H' else if c == 0 then 'S' else if c == m + 1 then 'G' else 'F'))
  }

  lemma RemoveOne(s: set<Cell>, x: Cell)
    requires x in s
    ensures |s - {x}| == |s| - 1
  {
  }

  lemma CorridorIsRow(k: nat, m: nat)
    requires m < k
    ensures Open(Corridor(k, m)) == Row(0, k + 1) - {Cell(0, m + 1)}
  {
    InRow(0, k + 1);
    var board := Corridor(k, m);
    forall x | OnBoard(k + 1, x) ensures x in Open(board) <==> x.r == 0 && x.c != m + 1 {
      assert At(board, x) == if x.r > 0 then 'H' else if x.c == 0 then 'S' else if x.c == m + 1 then 'G' else 'F';
    }
  }

  lemma CorridorOpen(k: nat, m: nat)
    requires m < k
    ensures |Open(Corridor(k, m))| == k
  {
    RowCount(0, k + 1);
    var goal := Cell(0, m + 1);
    InRow(0, k + 1);
    var row := Row(0, k + 1);
    RemoveOne(row, goal);
    CorridorIsRow(k, m);
  }

  lemma CorridorStart(k: nat, m: nat)
    requires m < k
    ensures FirstStart(Corridor(k, m), 0) == Some(Cell(0, 0))
  {
    var board := Corridor(k, m);
    assert board[0][0] == 'S';
    assert FirstColumn(board[0], 0) == Some(0);
  }

  /** The search walks straight down the corridor and sees the goal from its last cell. */
  lemma {:induction false} CorridorSearch(k: nat, m: nat, at: nat, rest: seq<Node>, discovered: set<Cell>)
    requires m < k && at <= m
    requires forall x :: x in rest ==> OnBoard(k + 1, x.cell)
    requires discovered == set c | 0 <= c < at :: Cell(0, c)
    ensures Dfs(Corridor(k, m), m, rest + [Node(Cell(0, at), at)], discovered)
    decreases m - at
  {
    var board, x := Corridor(k, m), Node(Cell(0, at), at);
    var frontier := rest + [x];
    assert frontier[..|frontier| - 1] == rest && frontier[|frontier| - 1] == x;
    assert Cell(0, at) !in discovered;
    if at == m {
      assert OnBoard(|board|, Neighbours(x.cell)[1]) && At(board, Neighbours(x.cell)[1]) == 'G';
      assert SeesGoal(board, x.cell);
    } else {
      var onward, back := Node(Cell(0, at + 1), at + 1), Node(Cell(0, at - 1), at + 1);
      CorridorPushes(k, m, at);
      var discovered1 := discovered + {x.cell};
      CorridorSearch(k, m, at + 1, rest, discovered1);
      if at == 0 {
        assert rest + Pushes(board, x, 4) == rest + [onward];
      } else {
        var next := rest + [onward, back];
        assert rest + Pushes(board, x, 4) == next;
        assert next[..|next| - 1] == rest + [onward] && next[|next| - 1] == back && back.cell in discovered1;
        assert Dfs(board, m, next, discovered1) == Dfs(board, m, rest + [onward], discovered1);
      }
    }
  }

  lemma CorridorPushes(k: nat, m: nat, at: nat)
    requires m < k && at < m
    ensures var x := Node(Cell(0, at), at);
            Pushes(Corridor(k, m), x, 4) ==
            [Node(Cell(0, at + 1), at + 1)] + if at > 0 then [Node(Cell(0, at - 1), at + 1)] else []
  {
    var board, x := Corridor(k, m), Node(Cell(0, at), at);
    assert Pushes(board, x, 1) == [];
    assert Pushes(board, x, 2) == [Node(Cell(0, at + 1), at + 1)];
    assert Pushes(board, x, 3) == Pushes(board, x, 2);
  }

  lemma {:induction false} CorridorWalk(k: nat, m: nat, p: seq<Cell>, i: nat)
    requires m < k && Walk(Corridor(k, m), p) && p[0] == Cell(0, 0) && i < |p|
    ensures p[i].r == 0 && p[i].c <= i
  {
    if i > 0 {
      CorridorWalk(k, m, p, i - 1);
      assert Adjacent(p[i - 1], p[i]);
    }
  }

  /** The goal is m + 1 moves away, and a bound of m already accepts the board. */
  lemma CorridorIsMisjudged(k: nat, m: nat)
    requires m < k
    ensures var board := Corridor(k, m);
            && FirstStart(board, 0).Some? && |Open(board)| == k
            && Validity(board, m) == Ok(true) && !GoalWithin(board, FirstStart(board, 0).value, m)
  {
    var board := Corridor(k, m);
    CorridorOpen(k, m);
    CorridorStart(k, m);
    CorridorSearch(k, m, 0, [], {});
    assert [] + [Node(Cell(0, 0), 0)] == [Node(Cell(0, 0), 0)];
    forall p | Walk(board, p) && p[0] == Cell(0, 0) && At(board, p[|p| - 1]) == 'G' ensures |p| - 1 > m {
      CorridorWalk(k, m, p, |p| - 1);
    }
  }

  /**
   The docstring is right about every board with k open cells exactly when the bound is negative or at
   least k; a smaller bound misjudges some board of that kind.
   */
  lemma DocumentedIff(k: nat, maxSteps: int)
    ensures (forall board :: Square(board, |board|) && FirstStart(board, 0).Some? && |Open(board)| == k ==>
             AsDocumented(board, maxSteps))
        <==> maxSteps < 0 || maxSteps >= k
  {
    if maxSteps < 0 || maxSteps >= k {
      forall board | Square(board, |board|) && FirstStart(board, 0).Some? && |Open(board)| == k
        ensures AsDocumented(board, maxSteps)
      {
        DocumentedForExtremeBounds(board, maxSteps);
      }
    } else {
      CorridorIsMisjudged(k, maxSteps);
      assert !AsDocumented(Corridor(k, maxSteps), maxSteps);
    }
  }

  // ---- a shorter path can be hidden ---------------------------------------------------------

  lemma Skip(board: Board, maxSteps: int, rest: seq<Node>, x: Node, discovered: set<Cell>)
    requires Square(board, |board|) && forall y :: y in rest + [x] ==> OnBoard(|board|, y.cell)
    requires x.steps > maxSteps || x.cell in discovered
    ensures forall y :: y in rest ==> OnBoard(|board|, y.cell)
    ensures Dfs(board, maxSteps, rest + [x], discovered) == Dfs(board, maxSteps, rest, discovered)
  {
    var frontier := rest + [x];
    assert frontier[..|frontier| - 1] == rest;
  }

  lemma Expand(board: Board, maxSteps: int, rest: seq<Node>, x: Node, discovered: set<Cell>, pushed: seq<Node>)
    requires Square(board, |board|) && forall y :: y in rest + [x] ==> OnBoard(|board|, y.cell)
    requires x.steps <= maxSteps && x.cell !in discovered && !SeesGoal(board, x.cell) && pushed == Pushes(board, x, 4)
    ensures forall y :: y in rest + pushed ==> OnBoard(|board|, y.cell)
    ensures Dfs(board, maxSteps, rest + [x], discovered) == Dfs(board, maxSteps, rest + pushed, discovered + {x.cell})
  {
    var frontier := rest + [x];
    assert frontier[..|frontier| - 1] == rest;
    forall y | y in rest ensures OnBoard(|board|, y.cell) { assert y in frontier; }
  }

  function Detour(): (board: Board)
    ensures Square(board, |board|)
  {
    ["SFHH", "FFHH", "FHHH", "GHHH"]
  }

  /** The goal of this board is three moves away, but the search enters the cell below the start late and gives up. */
  lemma ShorterPathIsHidden()
    ensures FirstStart(Detour(), 0) == Some(Cell(0, 0))
    ensures Validity(Detour(), 3) == Ok(false) && GoalWithin(Detour(), Cell(0, 0), 3)
  {
    var board := Detour();
    assert FirstColumn(board[0], 0) == Some(0);
    var p := [Cell(0, 0), Cell(1, 0), Cell(2, 0), Cell(3, 0)];
    assert Walk(board, p) && At(board, p[3]) == 'G';
    DetourStart();
    DetourRight();
    DetourMiddle();
    DetourSecondHalf();
  }

  lemma DetourPushes(board: Board, x: Node, pushed: seq<Node>)
    requires board == Detour() && OnBoard(4, x.cell)
    requires pushed == Keep(board, x, 0) + Keep(board, x, 1) + Keep(board, x, 2) + Keep(board, x, 3)
    ensures Pushes(board, x, 4) == pushed
  {
    assert Pushes(board, x, 1) == Keep(board, x, 0);
    assert Pushes(board, x, 2) == Keep(board, x, 0) + Keep(board, x, 1);
    assert Pushes(board, x, 3) == Keep(board, x, 0) + Keep(board, x, 1) + Keep(board, x, 2);
  }

  function Keep(board: Board, x: Node, d: nat): seq<Node>
    requires Square(board, |board|) && d < 4
  {
    var y := Neighbours(x.cell)[d];
    if OnBoard(|board|, y) && At(board, y) != 'H' then [Node(y, x.steps + 1)] else []
  }

  lemma DetourStart()
    ensures Dfs(Detour(), 3, [Node(Cell(0, 0), 0)], {})
        == Dfs(Detour(), 3, [Node(Cell(1, 0), 1), Node(Cell(0, 1), 1)], {Cell(0, 0)})
  {
    var board := Detour();
    var s0, down1, right1 := Node(Cell(0, 0), 0), Node(Cell(1, 0), 1), Node(Cell(0, 1), 1);
    DetourPushes(board, s0, [down1, right1]);
    Expand(board, 3, [], s0, {}, [down1, right1]);
    assert [] + [s0] == [s0] && [] + [down1, right1] == [down1, right1];
    assert {} + {s0.cell} == {s0.cell};
  }

  lemma DetourRight()
    ensures Dfs(Detour(), 3, [Node(Cell(1, 0), 1), Node(Cell(0, 1), 1)], {Cell(0, 0)})
         == Dfs(Detour(), 3, [Node(Cell(1, 0), 1), Node(Cell(1, 1), 2)], {Cell(0, 0), Cell(0, 1)})
  {
    var board := Detour();
    var down1, right1 := Node(Cell(1, 0), 1), Node(Cell(0, 1), 1);
    var mid2, back2 := Node(Cell(1, 1), 2), Node(Cell(0, 0), 2);
    DetourPushes(board, right1, [mid2, back2]);
    assert [down1, right1] == [down1] + [right1];
    Expand(board, 3, [down1], right1, {Cell(0, 0)}, [mid2, back2]);
    assert [down1] + [mid2, back2] == [down1, mid2] + [back2];
    assert {Cell(0, 0)} + {right1.cell} == {Cell(0, 0), Cell(0, 1)};
    Skip(board, 3, [down1, mid2], back2, {Cell(0, 0), Cell(0, 1)});
  }

  lemma DetourMiddle()
    ensures var late := [Node(Cell(1, 0), 1), Node(Cell(0, 1), 3), Node(Cell(1, 0), 3)];
            Dfs(Detour(), 3, [Node(Cell(1, 0), 1), Node(Cell(1, 1), 2)], {Cell(0, 0), Cell(0, 1)})
            == Dfs(Detour(), 3, late, {Cell(0, 0), Cell(0, 1), Cell(1, 1)})
  {
    var board := Detour();
    var down1, mid2 := Node(Cell(1, 0), 1), Node(Cell(1, 1), 2);
    var up3, left3 := Node(Cell(0, 1), 3), Node(Cell(1, 0), 3);
    DetourPushes(board, mid2, [up3, left3]);
    assert [down1, mid2] == [down1] + [mid2];
    Expand(board, 3, [down1], mid2, {Cell(0, 0), Cell(0, 1)}, [up3, left3]);
    assert [down1] + [up3, left3] == [down1, up3, left3];
    assert {Cell(0, 0), Cell(0, 1)} + {mid2.cell} == {Cell(0, 0), Cell(0, 1), Cell(1, 1)};
  }

  lemma DetourSecondHalf()
    ensures var late := [Node(Cell(1, 0), 1), Node(Cell(0, 1), 3), Node(Cell(1, 0), 3)];
            !Dfs(Detour(), 3, late, {Cell(0, 0), Cell(0, 1), Cell(1, 1)})
  {
    var board := Detour();
    var down1, up3, left3 := Node(Cell(1, 0), 1), Node(Cell(0, 1), 3), Node(Cell(1, 0), 3);
    var a4, b4, c4 := Node(Cell(2, 0), 4), Node(Cell(1, 1), 4), Node(Cell(0, 0), 4);
    var seen := {Cell(0, 0), Cell(0, 1), Cell(1, 1)};
    DetourPushes(board, left3, [a4, b4, c4]);
    assert [down1, up3, left3] == [down1, up3] + [left3];
    Expand(board, 3, [down1, up3], left3, seen, [a4, b4, c4]);
    var all := seen + {Cell(1, 0)};
    assert [down1, up3] + [a4, b4, c4] == [down1, up3, a4, b4] + [c4];
    Skip(board, 3, [down1, up3, a4, b4], c4, all);
    assert [down1, up3, a4, b4] == [down1, up3, a4] + [b4];
    Skip(board, 3, [down1, up3, a4], b4, all);
    assert [down1, up3, a4] == [down1, up3] + [a4];
    Skip(board, 3, [down1, up3], a4, all);
    assert [down1, up3] == [down1] + [up3];
    Skip(board, 3, [down1], up3, all);
    assert [down1] == [] + [down1];
    Skip(board, 3, [], down1, all);
  }
}
