# Noughts and crosses core, in Dafny

This project models the game logic of the two front ends of an N-in-a-row
noughts-and-crosses game:

- `main.py` is the Kivy front end. It has a variable grid size and win length, and three levels (3 by 3, 4 by 4 and 5 by 5).
- `tictactoe.py` is the tkinter front end. It has a fixed 3 by 3 board.

Both front ends pair the game with a computer opponent with three tiers: Easy, Medium and Hard. The Hard probes treat 'O' as the computer's mark. The mark a computer move places is the current player's, which is 'X' when a reply scheduled before a reset fires after it (`Game.StaleReplyPlaysX`).

The model is functional. A board is a `seq<seq<Cell>>` that `IsSquare`
makes square. Each operation of the source is a pure function or a short
method:

- win detection (`Winner`, `ClassicWinner`)
- the full-board test and the empty-cell list (`Board`)
- the three move policies (`Ai`, `ClassicAi`)
- the move state machine, the computer's reply, the level table and the resets (`Game`, `ClassicGame`)

`random.choice` and the Medium coin flip are modelled as nondeterminism:

- Each policy is a function that returns the set of cells it may play.
- The methods `EasyMove`, `HardMove`, `MediumMove`, `AiMove` and their 3 by 3 counterparts pick some member of that set with `:|`.
- The Hard probes write a mark on a cell and then clear it again. `ProbeWinningCell` and `ProbeWinningCell3` model this on a local board variable, and prove that the board they hand back is the board they received.
- `Clock.schedule_once` and `root.after` become an explicit `Scheduled` value that a move returns: `Idle`, `AiReply` or `LevelUp`.

The winner scan reports the first complete window in a fixed order: rows, then columns, then top-left to bottom-right diagonals, then top-right to bottom-left diagonals. Within each family the order is row-major by start cell. The model states this through an ordering `NotAfter` on windows. The Hard probes test `CheckWinner(...) == Some(mark)`. That is the winner reported first, not just any line of that mark.

Four facts about the code are worth knowing:

- The Hard centre rule uses `grid_size // 2` for every size, so on a 4 by 4 board the centre is (2, 2).
- The level progression does not come back to its starting difficulty. Three calls to `advance_level` restore level, grid size and win length, but the difficulty ends as Hard because level 3 forces it (`Game.AdvanceLevelCycles`).
- A win length larger than the grid size raises no error. The scan ranges are simply empty.
- `reset_level` rebuilds the board at 3 by 3 but not its buttons, which only `advance_level` recreates. After level 2 or 3, a press on a leftover button beyond row or column 2 raises `IndexError` in `make_move` (`Game.Press`, `Game.StaleButtonRaises`).

## Model

| member | source | states |
|---|---|---|
| `Board.Place` | main.py:123 | writing a mark changes exactly the target cell and keeps the board square |
| `Board.UndoPlace` | main.py:202-206 | writing a probe mark on an empty cell and clearing it again gives back the original board |
| `Board.EmptyGrid` | main.py:76 | a fresh board is `n` rows of `n` empty cells |
| `Board.RowFull` | tictactoe.py:247-250 | a row has no empty cell exactly when the scan of it finds none |
| `Board.IsBoardFull` | main.py:262-267 | `is_board_full` is true iff no cell of the board is empty |
| `Board.EmptyCellsFrom` | main.py:182-186 | the list built from cell (i, j) on holds exactly the empty cells at or after (i, j) in row-major order, and is empty iff there are none |
| `Board.EmptyCells` | main.py:182-186 | the `empty_cells` list holds exactly the empty cells of the board |
| `Board.FullIffNoEmptyCells` | main.py:188 | the `empty_cells` list is empty exactly when the board is full |
| `Winner.InBoundsIffScanned` | main.py:237-257 | the start cells each of the four loops visits are exactly the windows whose `win_length` cells all lie on the board |
| `Winner.Scan` | main.py:236-260 | whatever the resume point, a mark the four loops return is never the empty cell |
| `Winner.ScanFindsFirst` | main.py:236-260 | the scan resumed at any family and start cell returns None iff no complete window lies at or after that point, and otherwise returns the mark of the first such window in scan order |
| `Winner.CheckWinner` | main.py:233-260 | `check_winner` returns None iff no window of `win_length` equal non-empty cells exists; otherwise it returns a non-empty mark, namely the mark of the first complete window in the order rows, columns, diagonals, anti-diagonals |
| `Winner.WinnerIsFirstWindow` | main.py:236-258 | whenever a window is the first complete one in scan order, its mark is exactly what `check_winner` reports |
| `Winner.WinnerHasLine` | main.py:239-240 | a reported mark is non-empty and has a complete line; a complete line of any mark makes `check_winner` report something |
| `Winner.AtMostOneMarkNoWinner` | main.py:239 | with `win_length` at least 2, a board holding at most one mark has no winner |
| `ClassicWinner.CompleteIffLine3` | tictactoe.py:229 | on a 3 by 3 board a three-cell window is complete iff its cells hold one and the same non-empty mark |
| `ClassicWinner.ScanVisitsEightWindows` | main.py:236-260 | at grid size 3 and win length 3 the general scan tests exactly the three rows, the three columns, the main diagonal and the anti-diagonal, in that order, and reports the start mark of the first complete one |
| `ClassicWinner.CheckWinner3` | tictactoe.py:226-244 | the hard-coded 3 by 3 `check_winner` returns the same result as the general scan with grid size 3 and win length 3, for every 3 by 3 board |
| `Ai.NextDifficulty` | main.py:106-112 | a difficulty press always changes the difficulty |
| `Ai.NextDifficultyCycles` | main.py:106-112 | Easy, Medium and Hard form a three-cycle |
| `Ai.EasyMoves` | main.py:180-188 | Easy may play exactly the empty cells when one exists, and only (0, 0) on a full board |
| `Ai.FirstWinningFrom` | main.py:199-206 | the probe loop resumed at (i, j) returns the first cell at or after (i, j) where writing the mark makes `check_winner` report that mark, and None iff there is no such cell |
| `Ai.FirstWinningCell` | main.py:199-216 | a probe returns the first row-major empty cell where the mark would be reported as winner, and None iff there is none |
| `Ai.ProbeWinningCell` | main.py:199-216 | the in-place probe loop finds the same cell as the functional probe, and the board it hands back equals the board it received |
| `Ai.Centre` | main.py:219-221 | `(grid_size // 2, grid_size // 2)` lies on every non-empty board, even sizes included |
| `Ai.EmptyCorners` | main.py:224-226 | the corner choices are exactly the empty cells among the four corners |
| `Ai.HardMoves` | main.py:197-231 | Hard always offers at least one cell; on a board with an empty cell every offered cell is empty and on the board; on a full board it offers only (0, 0) |
| `Ai.HardPriority` | main.py:197-231 | Hard first plays the first cell where 'O' would be reported winner; failing that, the first cell where 'X' would; failing both, the centre if it is empty, then the empty corners, then an Easy move |
| `Ai.HardOpensInCentre` | main.py:218-221 | on an empty board with win length at least 2, Hard plays exactly the centre |
| `Ai.AiMoves` | main.py:168-174 | whatever the difficulty, the reply set is non-empty, holds only empty cells when one exists, and lies within the Easy and Hard choices |
| `Ai.EasyMove` | main.py:180-188 | the move is an empty cell on a board with one, and (0, 0) on a full board |
| `Ai.HardMove` | main.py:197-231 | the move is one Hard allows and is an empty cell when one exists; after all the probes the board is unchanged |
| `Ai.MediumMove` | main.py:190-195 | the move is either an Easy move or a Hard move, and the board is unchanged |
| `Ai.AiMove` | main.py:168-174 | the move is one the selected difficulty allows, and the board is unchanged |
| `ClassicAi.EasyMoves3` | tictactoe.py:169-177 | on a board with an empty cell, Easy may play exactly the empty cells |
| `ClassicAi.FirstWinningFrom3` | tictactoe.py:188-205 | the 3 by 3 probe loop, resumed at any cell, finds the same cell as the general probe loop with grid size 3 and win length 3 |
| `ClassicAi.FirstWinningCell3` | tictactoe.py:187-205 | the 3 by 3 probe agrees with the general one and returns the first row-major empty cell where the mark would be reported as winner, and None iff there is none |
| `ClassicAi.EmptyEdges` | tictactoe.py:218-219 | the edge choices are exactly the empty cells among the four edges |
| `ClassicAi.HardMoves3` | tictactoe.py:186-224 | on a board with an empty cell, 3 by 3 Hard offers at least one cell, and every offered cell is empty |
| `ClassicAi.HardFallbackUnreachable` | tictactoe.py:217-224 | if the centre and all corners are taken on a non-full board, some edge is empty, so the final fallback is never reached |
| `ClassicAi.OnlyEdgesLeft` | tictactoe.py:210-221 | with the centre and every corner taken, every empty cell of a 3 by 3 board is one of the four edges |
| `ClassicAi.ClassicHardAgreesWithGeneral` | tictactoe.py:186-224 | on a non-full 3 by 3 board, the edge rule offers the same cells as the Easy fallback of `main.py`, so both Hard policies offer the same set |
| `ClassicAi.AiMoves3` | tictactoe.py:158-164 | the reply set of every difficulty is non-empty and holds only empty cells |
| `ClassicAi.ProbeWinningCell3` | tictactoe.py:187-205 | the in-place 3 by 3 probe loop finds the same cell as the functional probe, and hands back the board it received |
| `ClassicAi.HardMove3` | tictactoe.py:186-224 | the move is an empty cell that 3 by 3 Hard allows, and the board is unchanged |
| `ClassicAi.AiMove3` | tictactoe.py:158-184 | Easy, a coin flip between Easy and Hard, or Hard: the move is an empty cell the difficulty allows, and the board is unchanged |
| `Game.Initial` | main.py:17-24 | the game starts valid: level 1 on an empty board, game on, 'X' to move, against the computer at Medium |
| `Game.Toggle` | main.py:155 | the next player is always a mark, and never the current player |
| `Game.MakeMove` | main.py:117-162 | a move is ignored when the game is over or the cell is taken. Otherwise exactly that cell gets the current mark, and `game_over` then holds iff there is a winner or the board is full. The player switches only if the game goes on. An accepted move schedules a level-up exactly when 'X' is reported winner, and schedules the computer's reply exactly when the game goes on with 'O' to move against the computer. The invariant "game over iff winner or full board" is kept |
| `Game.Press` | main.py:117-120 | a press on a finished game is ignored; otherwise a press off the board raises, and a press on the board is exactly `make_move` |
| `Game.StaleButtonRaises` | main.py:304-316 | after level 2 and `reset_level`, the board is 3 by 3 again, so the leftover button at (3, 3) raises |
| `Game.AiStep` | main.py:164-178 | the computer's chosen move is applied, as an ordinary move, exactly when the game is on and the move is on the board; otherwise nothing changes and nothing is scheduled; the invariant is kept |
| `Game.StaleReplyPlaysX` | main.py:162 | a reply scheduled before a reset that fires after it places the current player's mark, 'X', on the fresh board |
| `Game.MakeAiMove` | main.py:164-178 | while the game is on, the computer plays a cell its difficulty allows; on a board with an empty cell that cell is empty and exactly it gets the current mark; the game-over invariant is kept |
| `Game.ResetGame` | main.py:312-316 | `reset_game` gives an empty board of the current size with 'X' to move and the game on; level, sizes and difficulty are unchanged |
| `Game.ToggleDifficulty` | main.py:106-115 | a difficulty press moves to the next difficulty and starts a fresh game with the same sizes |
| `Game.ToggleDifficultyCycles` | main.py:106-115 | three difficulty presses give a fresh game at the original difficulty |
| `Game.AdvanceLevel` | main.py:269-296 | after `advance_level` the level is 1, 2 or 3, with grid size equal to win length equal to level + 2; from a well-shaped state the level goes up by one, cyclically. The difficulty never goes down, the board is empty, the game is on and 'X' is to move |
| `Game.AdvanceLevelTable` | main.py:273-285 | the level 2 row is (4, 4) with Medium after Easy and Hard otherwise; the level 3 row is (5, 5) and Hard; every other level goes back to (3, 3) with the difficulty kept |
| `Game.AdvanceLevelCycles` | main.py:269-285 | three level-ups restore level, grid size and win length, and leave the difficulty Hard |
| `Game.ResetLevel` | main.py:304-316 | `reset_level` gives level 1 on a fresh 3 by 3 board, with win length 3 and the difficulty kept |
| `Game.TransitionsKeepValid` | main.py:17-24 | the initial state is valid, and every transition keeps it valid. Valid means square board, game over iff winner or full board, grid size = win length = level + 2, and a mark to move |
| `ClassicGame.Initial3` | tictactoe.py:20-24 | the 3 by 3 game starts on an empty board with 'X' to move and the game on, against the computer at Medium |
| `ClassicGame.MakeMove3` | tictactoe.py:112-152 | the same guarded state machine as the Kivy game: ignore the move if the game is over or the cell is taken; otherwise place the mark, end the game on a win or a full board, else switch player. The computer's reply is scheduled exactly when the game goes on with 'O' to move against the computer, and a level-up never |
| `ClassicGame.MakeMoveAgrees` | tictactoe.py:112-152 | a 3 by 3 move reaches the same state as the Kivy move at level 1, and schedules the same follow-up except for the missing level-up |
| `ClassicGame.MakeAiMove3` | tictactoe.py:154-167 | while the game is on, the computer plays an empty cell its difficulty allows, through the ordinary move; the invariant is kept |
| `ClassicGame.ResetGame3` | tictactoe.py:253-257 | `reset_game` gives an empty 3 by 3 board with 'X' to move and the game on |

## Left out

- Widgets and presentation are not modelled: layouts, buttons, colours, labels, popups, message boxes, the icon and the app entry points (main.py:10-95, 327-338; tictactoe.py:8-92, 270-273).
- Delays are not modelled (main.py:141, 162, 331; tictactoe.py:152). A move instead returns the step it schedules, as a `Scheduled` value.
- `toggle_game_mode`, `change_game_mode` and `change_difficulty` are UI wiring and are not modelled. The `vsAi` flag and the difficulty are plain state fields.
- `Ai.MediumMove`: states only that the move is an Easy move or a Hard move. The 50% probability of `random.random() < 0.5` is not modelled.
- `Ai.EasyMoves`: gives the set of cells `random.choice` may return, not a uniform distribution over it. The same holds for `EmptyCorners`, `EmptyEdges` and the 3 by 3 policies.
- `Winner.CheckWinner` requires a win length of at least 1. With 0, `all(...)` over an empty range is true, so the row loop returns the first mark of row 0, and raises `IndexError` one column past the end of row 0 when that row has no mark. The source only ever uses 3, 4 and 5.
- `Ai.HardMoves` requires a grid size of at least 1. `board[center][center]` raises on an empty board.
- The 3 by 3 policies require a board with an empty cell, because `random.choice([])` raises on a full one.
- `Game.MakeMove` requires the pressed cell to be on the board. The off-board press that leftover buttons allow after `reset_level` is modelled by `Game.Press`, not by `MakeMove`.
- Python's negative indexing is not modelled. Buttons and the computer's moves never produce a negative index.
