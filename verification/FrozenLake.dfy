/**
 The map check of the frozen-lake workflow: a depth-bounded depth-first search over the cells within a maximum
 size. The search sees a square, the part of the board within that size.
 */
module FrozenLake {
  import opened Common

  type Board = seq<string>

  datatype Cell = Cell(r: int, c: int)

  datatype Node = Node(cell: Cell, steps: nat)

  predicate Square(board: Board, n: nat) {
    |board| == n && forall r :: 0 <= r < n ==> |board[r]| == n
  }

  /** A rectangular board with at least n rows and columns; the source fails on any other. */
  predicate Fits(board: Board, n: nat) {
    n <= |board| && forall r :: 0 <= r < |board| ==> n <= |board[r]| == |board[0]|
  }

  /** What the search sees of it. */
  function Crop(board: Board, n: nat): (square: Board)
    requires Fits(board, n)
    ensures Square(square, n) && forall r, c :: 0 <= r < n && 0 <= c < n ==> square[r][c] == board[r][c]
  {
    seq(n, r requires 0 <= r < n => board[r][..n])
  }

  predicate OnBoard(n: nat, x: Cell) {
    0 <= x.r < n && 0 <= x.c < n
  }

  function At(board: Board, x: Cell): char
    requires Square(board, |board|) && OnBoard(|board|, x)
  {
    board[x.r][x.c]
  }

  /** Down, right, up, left: the order in which the source looks around. */
  function Neighbours(x: Cell): seq<Cell> {
    [Cell(x.r + 1, x.c), Cell(x.r, x.c + 1), Cell(x.r - 1, x.c), Cell(x.r, x.c - 1)]
  }

  // ---- the search as a function -------------------------------------------------------------

  predicate SeesGoal(board: Board, x: Cell)
    requires Square(board, |board|)
  {
    exists d :: 0 <= d < 4 && OnBoard(|board|, Neighbours(x)[d]) && At(board, Neighbours(x)[d]) == 'G'
  }

  /** What looking at the first k neighbours pushes. */
  function Pushes(board: Board, x: Node, k: nat): (pushed: seq<Node>)
    requires Square(board, |board|) && k <= 4
    ensures forall y :: y in pushed ==> OnBoard(|board|, y.cell)
  {
    if k == 0 then []
    else
      var y := Neighbours(x.cell)[k - 1];
      Pushes(board, x, k - 1) + if OnBoard(|board|, y) && At(board, y) != 'H' then [Node(y, x.steps + 1)] else []
  }

  function Cells(n: nat): (cells: set<Cell>)
    ensures forall x :: x in cells <==> OnBoard(n, x)
  {
    set r, c | 0 <= r < n && 0 <= c < n :: Cell(r, c)
  }

  function CellsOf(frontier: seq<Node>): set<Cell> {
    set x | x in frontier :: x.cell
  }

  /** The search from a given frontier, whose last entry is popped next. */
  function Dfs(board: Board, maxSteps: int, frontier: seq<Node>, discovered: set<Cell>): bool
    requires Square(board, |board|)
    decreases Cells(|board|) + CellsOf(frontier) - discovered, |frontier|
  {
    if frontier == [] then false
    else
      var x, rest := frontier[|frontier| - 1], frontier[..|frontier| - 1];
      assert frontier == rest + [x];
      assert x in frontier && x.cell in CellsOf(frontier);
      if x.steps > maxSteps || x.cell in discovered then Dfs(board, maxSteps, rest, discovered)
      else if SeesGoal(board, x.cell) then true
      else Dfs(board, maxSteps, rest + Pushes(board, x, 4), discovered + {x.cell})
  }

  function FirstColumn(row: string, c: nat): Option<nat>
    decreases |row| - c
  {
    if c >= |row| then None else if row[c] == 'S' then Some(c) else FirstColumn(row, c + 1)
  }

  /** The first "S" in row-major order, from row r on. */
  function FirstStart(board: Board, r: nat): (x: Option<Cell>)
    ensures x.Some? ==> var y := x.value; r <= y.r < |board| && 0 <= y.c < |board[y.r]| && board[y.r][y.c] == 'S'
    decreases |board| - r
  {
    if r >= |board| then None
    else
      FirstColumnIsStart(board[r], 0);
      match FirstColumn(board[r], 0)
      case Some(c) => Some(Cell(r, c))
      case None => FirstStart(board, r + 1)
  }

  lemma {:induction false} FirstColumnIsStart(row: string, c: nat)
    ensures FirstColumn(row, c).Some? ==> FirstColumn(row, c).value < |row| && row[FirstColumn(row, c).value] == 'S'
    decreases |row| - c
  {
    if c < |row| { FirstColumnIsStart(row, c + 1); }
  }

  lemma {:induction false} NoneBeforeColumn(row: string, c: nat, j: nat)
    requires c <= j < |row| && (FirstColumn(row, c).None? || j < FirstColumn(row, c).value)
    ensures row[j] != 'S'
    decreases |row| - c
  {
    if c < j { NoneBeforeColumn(row, c + 1, j); }
  }

  /** No "S" lies in front of the first start in row-major order, and without one there is none at all. */
  lemma {:induction false} FirstStartIsFirst(board: Board, r: nat, i: nat, j: nat)
    requires r <= i < |board| && j < |board[i]|
    requires FirstStart(board, r).Some? ==>
        var y := FirstStart(board, r).value; i < y.r || (i == y.r && j < y.c)
    ensures board[i][j] != 'S'
    decreases |board| - r
  {
    if r == i {
      NoneBeforeColumn(board[i], 0, j);
    } else {
      FirstStartIsFirst(board, r + 1, i, j);
    }
  }

  datatype Error = NoStart

  function Validity(board: Board, maxSteps: int): Result<bool, Error>
    requires Square(board, |board|)
  {
    match FirstStart(board, 0)
    case None => Err(NoStart)
    case Some(start) => Ok(Dfs(board, maxSteps, [Node(start, 0)], {}))
  }

  // ---- the search as it runs ----------------------------------------------------------------

  /** The loop over the four directions. */
  method LookAround(board: Board, maxSize: nat, x: Node, rest: seq<Node>) returns (found: bool, frontier: seq<Node>)
    requires Fits(board, maxSize)
    ensures found == SeesGoal(Crop(board, maxSize), x.cell)
    ensures !found ==> frontier == rest + Pushes(Crop(board, maxSize), x, 4)
  {
    ghost var square := Crop(board, maxSize);
    frontier := rest;
    var d := 0;
    while d < 4
      invariant 0 <= d <= 4 && frontier == rest + Pushes(square, x, d)
      invariant forall e :: 0 <= e < d && OnBoard(maxSize, Neighbours(x.cell)[e]) ==>
          At(square, Neighbours(x.cell)[e]) != 'G'
    {
      var y := Neighbours(x.cell)[d];
      d := d + 1;
      if y.r < 0 || y.r >= maxSize || y.c < 0 || y.c >= maxSize { continue; }
      assert board[y.r][y.c] == At(square, y);
      if board[y.r][y.c] == 'G' {
        assert OnBoard(maxSize, Neighbours(x.cell)[d - 1]);
        return true, frontier;
      }
      if board[y.r][y.c] != 'H' {
        frontier := frontier + [Node(y, x.steps + 1)];
      }
    }
    return false, frontier;
  }

  /** On a square board of exactly that size, as the callers build it, the whole board is searched. */
  lemma SquareBoardIsWhole(board: Board, maxSteps: int)
    requires Square(board, |board|)
    ensures Fits(board, |board|) && Crop(board, |board|) == board
    ensures Validity(board, maxSteps)
         == match FirstStart(board, 0)
            case None => Err(NoStart)
            case Some(start) => Ok(Dfs(Crop(board, |board|), maxSteps, [Node(start, 0)], {}))
  {
    forall r | 0 <= r < |board| ensures board[r][..|board|] == board[r] {}
  }

  method IsValid(board: Board, maxSize: nat, maxSteps: int) returns (valid: Result<bool, Error>)
    requires Fits(board, maxSize)
    ensures valid == match FirstStart(board, 0)
                     case None => Err(NoStart)
                     case Some(start) => Ok(Dfs(Crop(board, maxSize), maxSteps, [Node(start, 0)], {}))
    ensures Square(board, maxSize) ==> valid == Validity(board, maxSteps)
  {
    ghost var square := Crop(board, maxSize);
    if Square(board, maxSize) { SquareBoardIsWhole(board, maxSteps); }
    var start := FirstStart(board, 0);
    if start.None? { return Err(NoStart); }
    var frontier, discovered := [Node(start.value, 0)], {};
    while frontier != []
      invariant Dfs(square, maxSteps, frontier, discovered) == Dfs(square, maxSteps, [Node(start.value, 0)], {})
      decreases Cells(maxSize) + CellsOf(frontier) - discovered, |frontier|
    {
      ghost var before := frontier;
      var x := frontier[|frontier| - 1];
      frontier := frontier[..|frontier| - 1];
      assert before == frontier + [x];
      assert x in before && x.cell in CellsOf(before);
      if x.steps > maxSteps { continue; }
      if x.cell !in discovered {
        discovered := discovered + {x.cell};
        var found;
        found, frontier := LookAround(board, maxSize, x, frontier);
        if found { return Ok(true); }
      }
    }
    return Ok(false);
  }

  // ---- boards larger than the maximum size --------------------------------------------------

  lemma {:induction false} FirstColumnOfCrop(row: string, n: nat, c: nat)
    requires n <= |row|
    ensures FirstColumn(row, c).Some? && FirstColumn(row, c).value < n ==>
        FirstColumn(row[..n], c) == FirstColumn(row, c)
    ensures FirstColumn(row, c).None? ==> FirstColumn(row[..n], c).None?
    decreases |row| - c
  {
    if c < |row| { FirstColumnOfCrop(row, n, c + 1); }
  }

  lemma {:induction false} FirstStartOfCrop(board: Board, n: nat, r: nat)
    requires Fits(board, n) && FirstStart(board, r).Some? && OnBoard(n, FirstStart(board, r).value)
    ensures FirstStart(Crop(board, n), r) == FirstStart(board, r)
    decreases |board| - r
  {
    FirstColumnOfCrop(board[r], n, 0);
    if FirstColumn(board[r], 0).None? { FirstStartOfCrop(board, n, r + 1); }
  }

  /** With the start within the maximum size, only the part of the board within it matters. */
  lemma CropDecides(board: Board, maxSize: nat, maxSteps: int)
    requires Fits(board, maxSize) && FirstStart(board, 0).Some? && OnBoard(maxSize, FirstStart(board, 0).value)
    ensures Validity(Crop(board, maxSize), maxSteps)
         == Ok(Dfs(Crop(board, maxSize), maxSteps, [Node(FirstStart(board, 0).value, 0)], {}))
  {
    FirstStartOfCrop(board, maxSize, 0);
  }
}
