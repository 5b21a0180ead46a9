/**
 The computer opponent of the Kivy front end (main.py): the Easy, Medium and
 Hard move policies on an `n` by `n` board with win length `w`. The Hard
 probes treat 'O' as the computer's mark and 'X' as the human's; the mark
 actually placed is the current player's (see `Game.AiStep`).

 `random.choice` and the coin flip of Medium are nondeterministic: each
 policy is given as the set of cells it may return, and the methods pick
 any member of that set with `:|`.
 */
module Ai {
  import opened Board
  import opened Winner

  datatype Difficulty = Easy | Medium | Hard

  /** `toggle_difficulty`: Easy, then Medium, then Hard, then Easy again. */
  function NextDifficulty(d: Difficulty): (r: Difficulty)
    ensures r != d
  {
    match d
    case Easy => Medium
    case Medium => Hard
    case Hard => Easy
  }

  /** Three presses of the difficulty button bring back the original difficulty. */
  lemma NextDifficultyCycles(d: Difficulty)
    ensures NextDifficulty(NextDifficulty(NextDifficulty(d))) == d
    ensures NextDifficulty(NextDifficulty(d)) != d
  {
  }

  /**
   `get_easy_ai_move`: any cell of the row-major `empty_cells` list, or
   (0, 0) when that list is empty.
   */
  function EasyMoves(b: Grid, n: nat): (r: set<Pos>)
    requires IsSquare(b, n)
    ensures r != {}
    ensures !IsBoardFull(b) ==> forall p :: p in r <==> IsEmptyAt(b, n, p)
    ensures IsBoardFull(b) ==> r == {Pos(0, 0)}
  {
    var cells := EmptyCells(b, n);
    FullIffNoEmptyCells(b, n);
    if |cells| > 0 then
      var choices := set p | p in cells;
      assert cells[0] in choices;
      choices
    else {Pos(0, 0)}
  }

  /** Placing `mark` on the empty cell `p` makes `check_winner` report `mark`. */
  predicate WinsAt(b: Grid, n: nat, w: nat, mark: Cell, p: Pos)
    requires IsSquare(b, n) && 1 <= w
  {
    IsEmptyAt(b, n, p) && CheckWinner(Place(b, n, p, mark), n, w) == Some(mark)
  }

  /** `p` is the first cell in row-major order where `mark` would win. */
  ghost predicate FirstWin(b: Grid, n: nat, w: nat, mark: Cell, p: Pos)
    requires IsSquare(b, n) && 1 <= w
  {
    WinsAt(b, n, w, mark, p) && forall q :: WinsAt(b, n, w, mark, q) ==> !Precedes(q, p)
  }

  /** One probe loop of `get_hard_ai_move`, resumed at cell (i, j). */
  function FirstWinningFrom(b: Grid, n: nat, w: nat, mark: Cell, i: nat, j: nat): (r: Option<Pos>)
    requires IsSquare(b, n) && 1 <= w
    ensures r.Some? ==>
              && WinsAt(b, n, w, mark, r.value)
              && AtOrAfter(r.value, i, j)
              && forall q :: WinsAt(b, n, w, mark, q) && AtOrAfter(q, i, j) ==> !Precedes(q, r.value)
    ensures r.None? ==> forall q :: WinsAt(b, n, w, mark, q) ==> !AtOrAfter(q, i, j)
    decreases n - i, n - j
  {
    if i >= n then None
    else if j >= n then FirstWinningFrom(b, n, w, mark, i + 1, 0)
    else if b[i][j] == Empty && CheckWinner(Place(b, n, Pos(i, j), mark), n, w) == Some(mark) then Some(Pos(i, j))
    else FirstWinningFrom(b, n, w, mark, i, j + 1)
  }

  /** The cell the probe loop for `mark` returns, if any. */
  function FirstWinningCell(b: Grid, n: nat, w: nat, mark: Cell): (r: Option<Pos>)
    requires IsSquare(b, n) && 1 <= w
    ensures r.Some? ==> FirstWin(b, n, w, mark, r.value)
    ensures r.None? <==> forall q :: !WinsAt(b, n, w, mark, q)
  {
    FirstWinningFrom(b, n, w, mark, 0, 0)
  }

  /**
   The probe loop as the source runs it: each empty cell in turn gets `mark`,
   the winner is checked, and the cell is cleared again before moving on or
   returning. The board handed back is the board received.
   */
  method ProbeWinningCell(b: Grid, n: nat, w: nat, mark: Cell) returns (found: Option<Pos>, board: Grid)
    requires IsSquare(b, n) && 1 <= w
    ensures board == b
    ensures found == FirstWinningCell(b, n, w, mark)
  {
    board := b;
    var i := 0;
    while i < n
      invariant 0 <= i <= n
      invariant board == b
      invariant FirstWinningFrom(b, n, w, mark, i, 0) == FirstWinningCell(b, n, w, mark)
    {
      var j := 0;
      while j < n
        invariant 0 <= j <= n
        invariant board == b
        invariant FirstWinningFrom(b, n, w, mark, i, j) == FirstWinningCell(b, n, w, mark)
      {
        if board[i][j] == Empty {
          board := Place(board, n, Pos(i, j), mark);
          if CheckWinner(board, n, w) == Some(mark) {
            UndoPlace(b, n, Pos(i, j), mark);
            board := Place(board, n, Pos(i, j), Empty);
            return Some(Pos(i, j)), board;
          }
          UndoPlace(b, n, Pos(i, j), mark);
          board := Place(board, n, Pos(i, j), Empty);
        }
        j := j + 1;
      }
      i := i + 1;
    }
    return None, board;
  }

  /** The middle cell: half the grid size, rounded down, on both axes, for every size. */
  function Centre(n: nat): (r: Pos)
    ensures 1 <= n ==> InGrid(n, r)
  {
    Pos(n / 2, n / 2)
  }

  /** The four corners, in the order the source lists them. */
  function Corners(n: nat): seq<Pos> {
    [Pos(0, 0), Pos(0, n - 1), Pos(n - 1, 0), Pos(n - 1, n - 1)]
  }

  /** `empty_corners`, as the set `random.choice` picks from. */
  function EmptyCorners(b: Grid, n: nat): (r: set<Pos>)
    requires IsSquare(b, n) && 1 <= n
    ensures forall p :: p in r <==> p in Corners(n) && IsEmptyAt(b, n, p)
  {
    set c | c in Corners(n) && b[c.row][c.col] == Empty
  }

  /**
   `get_hard_ai_move`: win, else block, else the centre, else a random empty
   corner, else an Easy move.
   */
  function HardMoves(b: Grid, n: nat, w: nat): (r: set<Pos>)
    requires IsSquare(b, n) && 1 <= w && 1 <= n
    ensures r != {}
    ensures !IsBoardFull(b) ==> forall p :: p in r ==> IsEmptyAt(b, n, p)
    ensures IsBoardFull(b) ==> r == {Pos(0, 0)}
  {
    match FirstWinningCell(b, n, w, O)
    case Some(p) => {p}
    case None =>
      match FirstWinningCell(b, n, w, X)
      case Some(p) => {p}
      case None =>
        var c := Centre(n);
        if b[c.row][c.col] == Empty then {c}
        else if EmptyCorners(b, n) != {} then EmptyCorners(b, n)
        else EasyMoves(b, n)
  }

  /**
   The priority of the Hard policy, stated through the winner scan: the first
   winning cell for 'O'; failing that the first winning cell for 'X'; failing
   both the centre if empty, then the empty corners, then any Easy move.
   */
  lemma HardPriority(b: Grid, n: nat, w: nat)
    requires IsSquare(b, n) && 1 <= w && 1 <= n
    ensures forall p :: FirstWin(b, n, w, O, p) ==> HardMoves(b, n, w) == {p}
    ensures (forall q :: !WinsAt(b, n, w, O, q)) ==>
              forall p :: FirstWin(b, n, w, X, p) ==> HardMoves(b, n, w) == {p}
    ensures (forall q :: !WinsAt(b, n, w, O, q) && !WinsAt(b, n, w, X, q)) ==>
              HardMoves(b, n, w) ==
                if IsEmptyAt(b, n, Centre(n)) then {Centre(n)}
                else if exists c :: c in Corners(n) && IsEmptyAt(b, n, c) then EmptyCorners(b, n)
                else EasyMoves(b, n)
  {
  }

  /** On an empty board with a win length of at least 2 the Hard policy opens in the centre. */
  lemma HardOpensInCentre(n: nat, w: nat)
    requires 1 <= n && 2 <= w
    ensures HardMoves(EmptyGrid(n), n, w) == {Centre(n)}
  {
    var b := EmptyGrid(n);
    forall q, mark | IsEmptyAt(b, n, q)
      ensures !WinsAt(b, n, w, mark, q)
    {
      AtMostOneMarkNoWinner(Place(b, n, q, mark), n, w, q);
    }
    assert FirstWinningCell(b, n, w, O).None?;
    assert FirstWinningCell(b, n, w, X).None?;
  }

  /** `make_ai_move`'s dispatch: the cells the chosen policy may return. */
  function AiMoves(b: Grid, n: nat, w: nat, d: Difficulty): (r: set<Pos>)
    requires IsSquare(b, n) && 1 <= w && 1 <= n
    ensures r != {}
    ensures !IsBoardFull(b) ==> forall p :: p in r ==> IsEmptyAt(b, n, p)
    ensures r <= EasyMoves(b, n) + HardMoves(b, n, w)
  {
    match d
    case Easy => EasyMoves(b, n)
    case Medium => EasyMoves(b, n) + HardMoves(b, n, w)
    case Hard => HardMoves(b, n, w)
  }

  /** `get_easy_ai_move`: a random empty cell, or (0, 0) on a full board. */
  method EasyMove(b: Grid, n: nat) returns (p: Pos)
    requires IsSquare(b, n)
    ensures p in EasyMoves(b, n)
    ensures IsBoardFull(b) ==> p == Pos(0, 0)
    ensures !IsBoardFull(b) ==> IsEmptyAt(b, n, p)
  {
    var cells := EmptyCells(b, n);
    FullIffNoEmptyCells(b, n);
    if |cells| > 0 {
      assert cells[0] in cells;
      p :| p in cells;
    } else {
      p := Pos(0, 0);
    }
  }

  /**
   `get_hard_ai_move` with its in-place probes: the move is one the Hard
   policy allows and the board comes back unchanged.
   */
  method HardMove(b: Grid, n: nat, w: nat) returns (p: Pos, board: Grid)
    requires IsSquare(b, n) && 1 <= w && 1 <= n
    ensures p in HardMoves(b, n, w)
    ensures board == b
    ensures !IsBoardFull(b) ==> IsEmptyAt(b, n, p)
  {
    var win;
    win, board := ProbeWinningCell(b, n, w, O);
    if win.Some? {
      return win.value, board;
    }
    var block;
    block, board := ProbeWinningCell(board, n, w, X);
    if block.Some? {
      return block.value, board;
    }
    var c := Centre(n);
    if board[c.row][c.col] == Empty {
      return c, board;
    }
    var corners := EmptyCorners(board, n);
    if corners != {} {
      p :| p in corners;
      return p, board;
    }
    p := EasyMove(board, n);
  }

  /** `get_medium_ai_move`: a coin flip between an Easy move and a Hard move. */
  method MediumMove(b: Grid, n: nat, w: nat) returns (p: Pos, board: Grid)
    requires IsSquare(b, n) && 1 <= w && 1 <= n
    ensures p in EasyMoves(b, n) || p in HardMoves(b, n, w)
    ensures board == b
    ensures !IsBoardFull(b) ==> IsEmptyAt(b, n, p)
  {
    var easy: bool :| true;
    if easy {
      p := EasyMove(b, n);
      board := b;
    } else {
      p, board := HardMove(b, n, w);
    }
  }

  /** The move `make_ai_move` chooses for the given difficulty. */
  method AiMove(b: Grid, n: nat, w: nat, d: Difficulty) returns (p: Pos, board: Grid)
    requires IsSquare(b, n) && 1 <= w && 1 <= n
    ensures p in AiMoves(b, n, w, d)
    ensures board == b
  {
    match d
    case Easy => p := EasyMove(b, n); board := b;
    case Medium => p, board := MediumMove(b, n, w);
    case Hard => p, board := HardMove(b, n, w);
  }
}
