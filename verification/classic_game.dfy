/**
 The game state of the tkinter front end (tictactoe.py): one fixed 3 by 3
 board, no levels. Its move logic is the Kivy front end's at grid size 3 and
 win length 3, except that an 'X' win schedules nothing.
 */
module ClassicGame {
  import opened Board
  import opened Winner
  import opened ClassicWinner
  import opened Ai
  import opened ClassicAi
  import Game

  datatype State3 = State3(board: Grid, current: Cell, gameOver: bool, vsAi: bool, difficulty: Difficulty)

  /** The state `__init__` builds. */
  function Initial3(): (r: State3)
    ensures IsSquare(r.board, 3) && Consistent3(r) && !r.gameOver && r.current == X
    ensures forall i, j :: 0 <= i < 3 && 0 <= j < 3 ==> r.board[i][j] == Empty
    ensures r.vsAi && r.difficulty == Medium
  {
    var b := EmptyGrid(3);
    assert b[0][0] == Empty;
    State3(b, X, false, true, Medium)
  }

  /** The game is over exactly when the board shows a winner or has no empty cell. */
  predicate Consistent3(s: State3)
    requires IsSquare(s.board, 3)
  {
    s.gameOver <==> CheckWinner3(s.board).Some? || IsBoardFull(s.board)
  }

  /**
   `make_move`: ignored when the game is over or the cell is taken;
   otherwise the mark is placed, then a win ends the game, then a full
   board ends it, and otherwise the turn passes (the computer's reply is
   scheduled when it is its turn).
   */
  function MakeMove3(s: State3, p: Pos): (r: (State3, Game.Scheduled))
    requires IsSquare(s.board, 3) && InGrid(3, p)
    ensures IsSquare(r.0.board, 3) && r.0.vsAi == s.vsAi && r.0.difficulty == s.difficulty
    ensures s.gameOver || !IsEmptyAt(s.board, 3, p) ==> r == (s, Game.Idle)
    ensures !s.gameOver && IsEmptyAt(s.board, 3, p) ==>
              && r.0.board == Place(s.board, 3, p, s.current)
              && Consistent3(r.0)
              && r.0.current == (if r.0.gameOver then s.current else Game.Toggle(s.current))
              && (r.1 == Game.AiReply <==> !r.0.gameOver && r.0.current == O && s.vsAi)
    ensures Consistent3(s) ==> Consistent3(r.0)
    ensures r.1 != Game.LevelUp
  {
    if s.gameOver || s.board[p.row][p.col] != Empty then (s, Game.Idle)
    else
      var b := Place(s.board, 3, p, s.current);
      var winner := CheckWinner3(b);
      if winner.Some? then
        (s.(board := b, gameOver := true), Game.Idle)
      else if IsBoardFull(b) then
        (s.(board := b, gameOver := true), Game.Idle)
      else
        var next := Game.Toggle(s.current);
        (s.(board := b, current := next), if s.vsAi && next == O then Game.AiReply else Game.Idle)
  }

  /** The 3 by 3 game seen as the Kivy game at level 1. */
  function AsLevelOne(s: State3): Game.State {
    Game.State(s.board, 3, 3, s.current, s.gameOver, 1, s.difficulty, s.vsAi)
  }

  /**
   A move of the 3 by 3 game leads to the same state as the same move of
   the Kivy game at level 1; only the level-up after an 'X' win is missing.
   */
  lemma MakeMoveAgrees(s: State3, p: Pos)
    requires IsSquare(s.board, 3) && InGrid(3, p)
    ensures Game.MakeMove(AsLevelOne(s), p).0 == AsLevelOne(MakeMove3(s, p).0)
    ensures MakeMove3(s, p).1 ==
              if Game.MakeMove(AsLevelOne(s), p).1 == Game.LevelUp then Game.Idle
              else Game.MakeMove(AsLevelOne(s), p).1
  {
  }

  /**
   `make_ai_move`: while the game is on, the computer plays a cell its
   difficulty's policy allows, always an empty one.
   */
  method MakeAiMove3(s: State3) returns (p: Pos, r: State3, next: Game.Scheduled)
    requires IsSquare(s.board, 3)
    requires !s.gameOver ==> !IsBoardFull(s.board)
    ensures IsSquare(r.board, 3)
    ensures Consistent3(s) ==> Consistent3(r)
    ensures s.gameOver ==> r == s && next == Game.Idle
    ensures !s.gameOver ==>
              && p in AiMoves3(s.board, s.difficulty)
              && IsEmptyAt(s.board, 3, p)
              && (r, next) == MakeMove3(s, p)
  {
    if s.gameOver {
      p, r, next := Pos(0, 0), s, Game.Idle;
      return;
    }
    var board;
    p, board := AiMove3(s.board, s.difficulty);
    var t := s.(board := board);
    var step := MakeMove3(t, p);
    r, next := step.0, step.1;
  }

  /** `reset_game`: an empty 3 by 3 board, 'X' to move, game on. */
  function ResetGame3(s: State3): (r: State3)
    ensures IsSquare(r.board, 3) && Consistent3(r) && !r.gameOver && r.current == X
    ensures forall i, j :: 0 <= i < 3 && 0 <= j < 3 ==> r.board[i][j] == Empty
    ensures r.vsAi == s.vsAi && r.difficulty == s.difficulty
  {
    var b := EmptyGrid(3);
    assert b[0][0] == Empty;
    s.(board := b, gameOver := false, current := X)
  }
}
