/**
 The game state of the Kivy front end (main.py) and the transitions its
 buttons and timers drive: a move, the computer's reply, the level
 progression, and the resets. What the source defers with
 `Clock.schedule_once` is returned as the next step to run.
 */
module Game {
  import opened Board
  import opened Winner
  import opened Ai

  datatype State = State(
    board: Grid,
    size: nat,            // grid_size
    winLength: nat,       // win_length
    current: Cell,        // current_player
    gameOver: bool,       // game_over
    level: int,           // current_level
    difficulty: Difficulty,
    vsAi: bool)

  /** The follow-up a transition schedules. */
  datatype Scheduled =
    | Idle      // nothing scheduled
    | AiReply   // make_ai_move after 0.5 s
    | LevelUp   // advance_level after 1 s

  /** The state `__init__` builds. */
  function Initial(): (r: State)
    ensures Valid(r) && r.level == 1 && !r.gameOver && r.current == X
    ensures forall i, j :: 0 <= i < r.size && 0 <= j < r.size ==> r.board[i][j] == Empty
    ensures r.vsAi && r.difficulty == Medium
  {
    var b := EmptyGrid(3);
    assert b[0][0] == Empty;
    State(b, 3, 3, X, false, 1, Medium, true)
  }

  /** The other player's mark: 'O' after 'X', and 'X' after anything else. */
  function Toggle(c: Cell): (r: Cell)
    ensures r != Empty && r != c
  {
    if c == X then O else X
  }

  /** The board is `size` by `size` and both sizes are positive. */
  predicate WellFormed(s: State) {
    IsSquare(s.board, s.size) && 1 <= s.size && 1 <= s.winLength
  }

  /** The game is over exactly when the board shows a winner or has no empty cell. */
  predicate Consistent(s: State)
    requires WellFormed(s)
  {
    s.gameOver <==> CheckWinner(s.board, s.size, s.winLength).Some? || IsBoardFull(s.board)
  }

  /** The level table: levels 1 to 3, with grid size and win length both two more than the level. */
  predicate LevelShape(s: State) {
    1 <= s.level <= 3 && s.size == s.level + 2 && s.winLength == s.size
  }

  /** Everything the transitions below keep true of every state they produce. */
  predicate Valid(s: State) {
    WellFormed(s) && Consistent(s) && LevelShape(s) && (s.current == X || s.current == O)
  }

  /**
   `make_move`: ignored when the game is over or the cell is taken;
   otherwise the current player's mark goes on the cell, then a winner ends
   the game (an 'X' win schedules the next level), then a full board ends it
   as a draw, and otherwise the turn passes to the other player (the
   computer's reply is scheduled when it is its turn).
   */
  function MakeMove(s: State, p: Pos): (r: (State, Scheduled))
    requires WellFormed(s) && InGrid(s.size, p)
    ensures WellFormed(r.0)
    ensures r.0.size == s.size && r.0.winLength == s.winLength && r.0.level == s.level
    ensures r.0.difficulty == s.difficulty && r.0.vsAi == s.vsAi
    ensures s.gameOver || !IsEmptyAt(s.board, s.size, p) ==> r == (s, Idle)
    ensures !s.gameOver && IsEmptyAt(s.board, s.size, p) ==>
              && r.0.board == Place(s.board, s.size, p, s.current)
              && Consistent(r.0)
              && r.0.current == (if r.0.gameOver then s.current else Toggle(s.current))
              && (r.1 == LevelUp <==> CheckWinner(r.0.board, s.size, s.winLength) == Some(X))
              && (r.1 == AiReply <==> !r.0.gameOver && r.0.current == O && s.vsAi)
    ensures Consistent(s) ==> Consistent(r.0)
    ensures r.1 == LevelUp ==> r.0.gameOver && CheckWinner(r.0.board, s.size, s.winLength) == Some(X)
    ensures r.1 == AiReply ==> !r.0.gameOver && r.0.current == O && s.vsAi
  {
    if s.gameOver || s.board[p.row][p.col] != Empty then (s, Idle)
    else
      var b := Place(s.board, s.size, p, s.current);
      var winner := CheckWinner(b, s.size, s.winLength);
      if winner.Some? then
        (s.(board := b, gameOver := true), if winner.value == X then LevelUp else Idle)
      else if IsBoardFull(b) then
        (s.(board := b, gameOver := true), Idle)
      else
        var next := Toggle(s.current);
        (s.(board := b, current := next), if s.vsAi && next == O then AiReply else Idle)
  }

  /**
   A button press reaching `make_move` at (row, col). Only `advance_level`
   rebuilds the buttons, so after `reset_level` the buttons of a larger
   level stay on screen and a press can name a cell off the board. The
   game-over test comes first and returns quietly; otherwise the lookup of
   a cell off the board raises `IndexError`, which is `None` here.
   */
  function Press(s: State, p: Pos): (r: Option<(State, Scheduled)>)
    requires WellFormed(s) && 0 <= p.row && 0 <= p.col
    ensures r.None? <==> !s.gameOver && !InGrid(s.size, p)
    ensures s.gameOver ==> r == Some((s, Idle))
    ensures InGrid(s.size, p) ==> r == Some(MakeMove(s, p))
  {
    if s.gameOver then Some((s, Idle))
    else if p.row < s.size && p.col < s.size then Some(MakeMove(s, p))
    else None
  }

  /** `make_ai_move` once the move `p` has been chosen: it is played only if the game is still on and `p` is on the board. */
  function AiStep(s: State, p: Pos): (r: (State, Scheduled))
    requires WellFormed(s)
    ensures WellFormed(r.0)
    ensures Consistent(s) ==> Consistent(r.0)
    ensures s.gameOver || !InGrid(s.size, p) ==> r == (s, Idle)
    ensures !s.gameOver && InGrid(s.size, p) ==> r == MakeMove(s, p)
  {
    if s.gameOver then (s, Idle)
    else if InGrid(s.size, p) then MakeMove(s, p)
    else (s, Idle)
  }

  /**
   `make_ai_move`: the computer picks a move with its difficulty's policy and
   plays it. While the game is on, the move is always a legal one.
   */
  method MakeAiMove(s: State) returns (p: Pos, r: State, next: Scheduled)
    requires WellFormed(s)
    ensures (r, next) == AiStep(s, p)
    ensures Consistent(s) ==> Consistent(r)
    ensures !s.gameOver ==> p in AiMoves(s.board, s.size, s.winLength, s.difficulty)
    ensures !s.gameOver && !IsBoardFull(s.board) ==>
              && IsEmptyAt(s.board, s.size, p)
              && r.board == Place(s.board, s.size, p, s.current)
  {
    if s.gameOver {
      p, r, next := Pos(0, 0), s, Idle;
      return;
    }
    var board;
    p, board := AiMove(s.board, s.size, s.winLength, s.difficulty);
    var t := s.(board := board);
    var step := AiStep(t, p);
    r, next := step.0, step.1;
  }

  /** `reset_game`: an empty board of the current size, 'X' to move, game on. */
  function ResetGame(s: State): (r: State)
    requires 1 <= s.size && 1 <= s.winLength
    ensures WellFormed(r) && Consistent(r) && !r.gameOver && r.current == X
    ensures forall i, j :: 0 <= i < r.size && 0 <= j < r.size ==> r.board[i][j] == Empty
    ensures r.size == s.size && r.winLength == s.winLength && r.level == s.level
    ensures r.difficulty == s.difficulty && r.vsAi == s.vsAi
  {
    var b := EmptyGrid(s.size);
    assert b[0][0] == Empty;
    s.(board := b, gameOver := false, current := X)
  }

  /** `toggle_difficulty`: the next difficulty in the cycle, then a fresh game. */
  function ToggleDifficulty(s: State): (r: State)
    requires 1 <= s.size && 1 <= s.winLength
    ensures r.difficulty == NextDifficulty(s.difficulty) && r.difficulty != s.difficulty
    ensures WellFormed(r) && Consistent(r) && !r.gameOver && r.current == X
    ensures forall i, j :: 0 <= i < r.size && 0 <= j < r.size ==> r.board[i][j] == Empty
    ensures r.size == s.size && r.winLength == s.winLength && r.level == s.level && r.vsAi == s.vsAi
  {
    ResetGame(s.(difficulty := NextDifficulty(s.difficulty)))
  }

  /** Three presses of the difficulty button give a fresh game at the original difficulty. */
  lemma ToggleDifficultyCycles(s: State)
    requires 1 <= s.size && 1 <= s.winLength
    ensures ToggleDifficulty(ToggleDifficulty(ToggleDifficulty(s))) == ResetGame(s)
  {
  }

  /** Easy < Medium < Hard. */
  function DifficultyRank(d: Difficulty): nat {
    match d
    case Easy => 0
    case Medium => 1
    case Hard => 2
  }

  /**
   `advance_level`: level 2 is a 4 by 4 board needing 4 in a row at one step
   above an Easy difficulty and Hard otherwise; level 3 is 5 by 5 needing 5,
   always Hard; past level 3 play goes back to level 1 on 3 by 3 needing 3,
   keeping the difficulty. The board is then cleared.
   */
  function AdvanceLevel(s: State): (r: State)
    ensures Valid(r) && !r.gameOver && r.current == X
    ensures forall i, j :: 0 <= i < r.size && 0 <= j < r.size ==> r.board[i][j] == Empty
    ensures DifficultyRank(r.difficulty) >= DifficultyRank(s.difficulty)
    ensures r.vsAi == s.vsAi
    ensures LevelShape(s) ==> r.level == s.level % 3 + 1
  {
    var level := s.level + 1;
    var t :=
      if level == 2 then
        s.(level := 2, size := 4, winLength := 4,
           difficulty := if s.difficulty == Easy then Medium else Hard)
      else if level == 3 then
        s.(level := 3, size := 5, winLength := 5, difficulty := Hard)
      else
        s.(level := 1, size := 3, winLength := 3);
    ResetGame(t)
  }

  /** The level table row by row, whatever the state's other fields. */
  lemma AdvanceLevelTable(s: State)
    ensures var r := AdvanceLevel(s);
            s.level == 1 ==>
              r.level == 2 && r.size == 4 && r.winLength == 4
              && r.difficulty == (if s.difficulty == Easy then Medium else Hard)
    ensures var r := AdvanceLevel(s);
            s.level == 2 ==> r.level == 3 && r.size == 5 && r.winLength == 5 && r.difficulty == Hard
    ensures var r := AdvanceLevel(s);
            s.level != 1 && s.level != 2 ==>
              r.level == 1 && r.size == 3 && r.winLength == 3 && r.difficulty == s.difficulty
  {
  }

  /** Level, grid size and win length cycle 1 -> 2 -> 3 -> 1, and after a full cycle the difficulty is Hard. */
  lemma AdvanceLevelCycles(s: State)
    requires LevelShape(s)
    ensures var r := AdvanceLevel(AdvanceLevel(AdvanceLevel(s)));
            r.level == s.level && r.size == s.size && r.winLength == s.winLength && r.difficulty == Hard
  {
  }

  /** `reset_level`: back to level 1 on a 3 by 3 board needing 3, with a fresh game. */
  function ResetLevel(s: State): (r: State)
    ensures Valid(r) && r.level == 1 && !r.gameOver && r.current == X
    ensures forall i, j :: 0 <= i < r.size && 0 <= j < r.size ==> r.board[i][j] == Empty
    ensures r.difficulty == s.difficulty && r.vsAi == s.vsAi
  {
    ResetGame(s.(level := 1, size := 3, winLength := 3))
  }

  /**
   Level 2 has a button at (3, 3); after `reset_level` the board is 3 by 3
   again, so pressing that leftover button raises.
   */
  lemma StaleButtonRaises(s: State)
    requires s.level == 1
    ensures InGrid(AdvanceLevel(s).size, Pos(3, 3))
    ensures Press(ResetLevel(AdvanceLevel(s)), Pos(3, 3)).None?
  {
  }

  /**
   A reply scheduled after an 'X' move that fires after "new game" (or a
   difficulty press) plays on the fresh board with 'X' to move, so it
   places an 'X'.
   */
  lemma StaleReplyPlaysX(s: State, p: Pos)
    requires 1 <= s.size && 1 <= s.winLength && InGrid(s.size, p)
    ensures AiStep(ResetGame(s), p).0.board[p.row][p.col] == X
  {
  }

  /** The initial state and every transition keep `Valid`. */
  lemma TransitionsKeepValid(s: State, p: Pos)
    requires Valid(s)
    ensures Valid(Initial())
    ensures InGrid(s.size, p) ==> Valid(MakeMove(s, p).0)
    ensures Valid(AiStep(s, p).0)
    ensures Valid(ResetGame(s)) && Valid(ToggleDifficulty(s))
    ensures Valid(AdvanceLevel(s)) && Valid(ResetLevel(s))
  {
  }
}
