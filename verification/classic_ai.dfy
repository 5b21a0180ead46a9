/**
 The computer opponent of the tkinter front end (tictactoe.py) on its fixed
 3 by 3 board. It differs from the general one in three ways: the probes use
 the hard-coded 3 by 3 winner check, Hard has an extra edge rule before its
 last fallback, and Easy has no (0, 0) default, so the source raises on a
 full board and every policy here requires a board with an empty cell.
 */
module ClassicAi {
  import opened Board
  import opened Winner
  import opened ClassicWinner
  import opened Ai

  /** `get_easy_ai_move`: a random empty cell, defined only when some cell is empty. */
  function EasyMoves3(b: Grid): (r: set<Pos>)
    requires IsSquare(b, 3) && !IsBoardFull(b)
    ensures r != {}
    ensures forall p :: p in r <==> IsEmptyAt(b, 3, p)
  {
    var cells := EmptyCells(b, 3);
    FullIffNoEmptyCells(b, 3);
    var choices := set p | p in cells;
    assert cells[0] in choices;
    choices
  }

  /**
   A probe loop of `get_hard_ai_move`, resumed at cell (i, j), using the
   3 by 3 winner check. It finds the same cell as the general probe loop at
   grid size 3 and win length 3.
   */
  function FirstWinningFrom3(b: Grid, mark: Cell, i: nat, j: nat): (r: Option<Pos>)
    requires IsSquare(b, 3)
    ensures r == FirstWinningFrom(b, 3, 3, mark, i, j)
    decreases 3 - i, 3 - j
  {
    if i >= 3 then None
    else if j >= 3 then FirstWinningFrom3(b, mark, i + 1, 0)
    else if b[i][j] == Empty && CheckWinner3(Place(b, 3, Pos(i, j), mark)) == Some(mark) then Some(Pos(i, j))
    else FirstWinningFrom3(b, mark, i, j + 1)
  }

  /** The cell the 3 by 3 probe loop for `mark` returns: the first row-major cell where `mark` wins. */
  function FirstWinningCell3(b: Grid, mark: Cell): (r: Option<Pos>)
    requires IsSquare(b, 3)
    ensures r == FirstWinningCell(b, 3, 3, mark)
    ensures r.Some? ==> FirstWin(b, 3, 3, mark, r.value)
    ensures r.None? <==> forall q :: !WinsAt(b, 3, 3, mark, q)
  {
    FirstWinningFrom3(b, mark, 0, 0)
  }

  /** The four edge cells, in the order the source lists them. */
  function Edges(): seq<Pos> {
    [Pos(0, 1), Pos(1, 0), Pos(1, 2), Pos(2, 1)]
  }

  /** `empty_edges`, as the set `random.choice` picks from. */
  function EmptyEdges(b: Grid): (r: set<Pos>)
    requires IsSquare(b, 3)
    ensures forall p :: p in r <==> p in Edges() && IsEmptyAt(b, 3, p)
  {
    set e | e in Edges() && b[e.row][e.col] == Empty
  }

  /**
   `get_hard_ai_move` of the 3 by 3 game: win, else block, else (1, 1), else
   a random empty corner, else a random empty edge, else an Easy move.
   */
  function HardMoves3(b: Grid): (r: set<Pos>)
    requires IsSquare(b, 3) && !IsBoardFull(b)
    ensures r != {}
    ensures forall p :: p in r ==> IsEmptyAt(b, 3, p)
  {
    match FirstWinningCell3(b, O)
    case Some(p) => {p}
    case None =>
      match FirstWinningCell3(b, X)
      case Some(p) => {p}
      case None =>
        if b[1][1] == Empty then {Pos(1, 1)}
        else if EmptyCorners(b, 3) != {} then EmptyCorners(b, 3)
        else if EmptyEdges(b) != {} then EmptyEdges(b)
        else EasyMoves3(b)
  }

  /**
   Centre, corners and edges cover the nine cells, so on a board with an
   empty cell the last fallback of the Hard policy is never reached.
   */
  lemma HardFallbackUnreachable(b: Grid)
    requires IsSquare(b, 3) && !IsBoardFull(b)
    ensures b[1][1] != Empty && EmptyCorners(b, 3) == {} ==> EmptyEdges(b) != {}
  {
    var i, j :| 0 <= i < 3 && 0 <= j < 3 && b[i][j] == Empty;
    var p := Pos(i, j);
    assert p == Pos(1, 1) || p in Corners(3) || p in Edges();
  }

  /** With the centre and every corner taken, the empty cells of a 3 by 3 board are all edges. */
  lemma OnlyEdgesLeft(b: Grid)
    requires IsSquare(b, 3) && b[1][1] != Empty && EmptyCorners(b, 3) == {}
    ensures forall p :: IsEmptyAt(b, 3, p) ==> p in Edges()
  {
    forall p | IsEmptyAt(b, 3, p)
      ensures p in Edges()
    {
      assert p !in Corners(3) && p != Pos(1, 1);
      if p.row == 0 {
        assert p == Pos(0, 1);
      } else if p.row == 1 {
        assert p == Pos(1, 0) || p == Pos(1, 2);
      } else {
        assert p == Pos(2, 1);
      }
    }
  }

  /**
   On a 3 by 3 board the Hard policies of both front ends allow the same
   cells: when the centre and every corner are taken, the empty cells are
   exactly the empty edges, so the edge rule and the general Easy fallback agree.
   */
  lemma ClassicHardAgreesWithGeneral(b: Grid)
    requires IsSquare(b, 3) && !IsBoardFull(b)
    ensures HardMoves3(b) == HardMoves(b, 3, 3)
  {
    if b[1][1] != Empty && EmptyCorners(b, 3) == {} {
      OnlyEdgesLeft(b);
      assert EmptyEdges(b) == EasyMoves(b, 3);
    }
  }

  /** The cells `make_ai_move` may play for the given difficulty. */
  function AiMoves3(b: Grid, d: Difficulty): (r: set<Pos>)
    requires IsSquare(b, 3) && !IsBoardFull(b)
    ensures r != {}
    ensures forall p :: p in r ==> IsEmptyAt(b, 3, p)
  {
    match d
    case Easy => EasyMoves3(b)
    case Medium => EasyMoves3(b) + HardMoves3(b)
    case Hard => HardMoves3(b)
  }

  /** The 3 by 3 probe loop with its in-place placement and undo. */
  method ProbeWinningCell3(b: Grid, mark: Cell) returns (found: Option<Pos>, board: Grid)
    requires IsSquare(b, 3)
    ensures board == b
    ensures found == FirstWinningCell3(b, mark)
  {
    board := b;
    var i := 0;
    while i < 3
      invariant 0 <= i <= 3
      invariant board == b
      invariant FirstWinningFrom3(b, mark, i, 0) == FirstWinningCell3(b, mark)
    {
      var j := 0;
      while j < 3
        invariant 0 <= j <= 3
        invariant board == b
        invariant FirstWinningFrom3(b, mark, i, j) == FirstWinningCell3(b, mark)
      {
        if board[i][j] == Empty {
          board := Place(board, 3, Pos(i, j), mark);
          if CheckWinner3(board) == Some(mark) {
            UndoPlace(b, 3, Pos(i, j), mark);
            board := Place(board, 3, Pos(i, j), Empty);
            return Some(Pos(i, j)), board;
          }
          UndoPlace(b, 3, Pos(i, j), mark);
          board := Place(board, 3, Pos(i, j), Empty);
        }
        j := j + 1;
      }
      i := i + 1;
    }
    return None, board;
  }

  /** `get_hard_ai_move` of the 3 by 3 game: an allowed empty cell, and the board comes back unchanged. */
  method HardMove3(b: Grid) returns (p: Pos, board: Grid)
    requires IsSquare(b, 3) && !IsBoardFull(b)
    ensures p in HardMoves3(b)
    ensures IsEmptyAt(b, 3, p)
    ensures board == b
  {
    var win;
    win, board := ProbeWinningCell3(b, O);
    if win.Some? {
      return win.value, board;
    }
    var block;
    block, board := ProbeWinningCell3(board, X);
    if block.Some? {
      return block.value, board;
    }
    if board[1][1] == Empty {
      return Pos(1, 1), board;
    }
    var corners := EmptyCorners(board, 3);
    if corners != {} {
      p :| p in corners;
      return p, board;
    }
    var edges := EmptyEdges(board);
    if edges != {} {
      p :| p in edges;
      return p, board;
    }
    var cells := EasyMoves3(board);
    p :| p in cells;
  }

  /** The move `make_ai_move` of the 3 by 3 game chooses: Easy, a coin flip, or Hard. */
  method AiMove3(b: Grid, d: Difficulty) returns (p: Pos, board: Grid)
    requires IsSquare(b, 3) && !IsBoardFull(b)
    ensures p in AiMoves3(b, d)
    ensures IsEmptyAt(b, 3, p)
    ensures board == b
  {
    var easy: bool :| true;
    if d == Easy || (d == Medium && easy) {
      var cells := EasyMoves3(b);
      p :| p in cells;
      board := b;
    } else {
      p, board := HardMove3(b);
    }
  }
}
