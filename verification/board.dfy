/**
 The board shared by both front ends: a square grid of cells, each empty or
 holding one player's mark, addressed by (row, column) from the top-left.
 */
module Board {

  /** A cell holds nothing ('' in the source) or one player's mark. */
  datatype Cell = Empty | X | O

  /** The conventional optional value; `None` is Python's `None`. */
  datatype Option<T> = None | Some(value: T)

  /** A cell coordinate, as returned by the AI move functions. */
  datatype Pos = Pos(row: int, col: int)

  /** A board is a list of rows. */
  type Grid = seq<seq<Cell>>

  /** The board is `n` rows of `n` cells each. */
  predicate IsSquare(b: Grid, n: nat) {
    |b| == n && forall i :: 0 <= i < n ==> |b[i]| == n
  }

  predicate InGrid(n: nat, p: Pos) {
    0 <= p.row < n && 0 <= p.col < n
  }

  /** The cell at `p` exists and holds no mark. */
  predicate IsEmptyAt(b: Grid, n: nat, p: Pos)
    requires IsSquare(b, n)
  {
    InGrid(n, p) && b[p.row][p.col] == Empty
  }

  /** Row-major order on positions: `p` is visited strictly before `q`. */
  predicate Precedes(p: Pos, q: Pos) {
    p.row < q.row || (p.row == q.row && p.col < q.col)
  }

  /** `board[row][col] = v`: exactly one cell changes. */
  function Place(b: Grid, n: nat, p: Pos, v: Cell): (r: Grid)
    requires IsSquare(b, n) && InGrid(n, p)
    ensures IsSquare(r, n)
    ensures r[p.row][p.col] == v
    ensures forall i, j :: 0 <= i < n && 0 <= j < n && (i != p.row || j != p.col) ==> r[i][j] == b[i][j]
  {
    b[p.row := b[p.row][p.col := v]]
  }

  /** A fresh board: `n` rows of `n` empty cells. */
  function EmptyGrid(n: nat): (r: Grid)
    ensures IsSquare(r, n)
    ensures forall i, j :: 0 <= i < n && 0 <= j < n ==> r[i][j] == Empty
  {
    seq(n, _ => seq(n, _ => Empty))
  }

  /** Placing a mark on an empty cell and then clearing it gives back the board. */
  lemma UndoPlace(b: Grid, n: nat, p: Pos, v: Cell)
    requires IsSquare(b, n) && IsEmptyAt(b, n, p)
    ensures Place(Place(b, n, p, v), n, p, Empty) == b
  {
    var r := Place(Place(b, n, p, v), n, p, Empty);
    assert forall i :: 0 <= i < n ==> r[i] == b[i];
  }

  /** One row of `is_board_full`: false at the first empty cell. */
  function RowFull(row: seq<Cell>): (r: bool)
    ensures r <==> forall j :: 0 <= j < |row| ==> row[j] != Empty
  {
    if |row| == 0 then true
    else if row[0] == Empty then false
    else RowFull(row[1..])
  }

  /** `is_board_full`: scans rows top to bottom, returning false at the first empty cell. */
  function IsBoardFull(b: Grid): (r: bool)
    ensures r <==> forall i, j :: 0 <= i < |b| && 0 <= j < |b[i]| ==> b[i][j] != Empty
  {
    if |b| == 0 then true
    else if !RowFull(b[0]) then false
    else IsBoardFull(b[1..])
  }

  /** `p` is cell (i, j) or comes after it in row-major order. */
  predicate AtOrAfter(p: Pos, i: int, j: int) {
    !Precedes(p, Pos(i, j))
  }

  /** The `empty_cells` list built by the easy AI, from cell (i, j) on. */
  function EmptyCellsFrom(b: Grid, n: nat, i: nat, j: nat): (r: seq<Pos>)
    requires IsSquare(b, n)
    ensures forall p :: p in r <==> IsEmptyAt(b, n, p) && AtOrAfter(p, i, j)
    ensures |r| == 0 <==> forall p :: IsEmptyAt(b, n, p) ==> !AtOrAfter(p, i, j)
    decreases n - i, n - j
  {
    if i >= n then []
    else if j >= n then EmptyCellsFrom(b, n, i + 1, 0)
    else if b[i][j] == Empty then
      assert IsEmptyAt(b, n, Pos(i, j)) && AtOrAfter(Pos(i, j), i, j);
      [Pos(i, j)] + EmptyCellsFrom(b, n, i, j + 1)
    else EmptyCellsFrom(b, n, i, j + 1)
  }

  /** Every empty cell of the board, in row-major order. */
  function EmptyCells(b: Grid, n: nat): (r: seq<Pos>)
    requires IsSquare(b, n)
    ensures forall p :: p in r <==> IsEmptyAt(b, n, p)
  {
    EmptyCellsFrom(b, n, 0, 0)
  }

  /** A square board is full exactly when its list of empty cells is empty. */
  lemma FullIffNoEmptyCells(b: Grid, n: nat)
    requires IsSquare(b, n)
    ensures IsBoardFull(b) <==> |EmptyCells(b, n)| == 0
  {
    if !IsBoardFull(b) {
      var i, j :| 0 <= i < n && 0 <= j < n && b[i][j] == Empty;
      assert Pos(i, j) in EmptyCells(b, n);
    }
  }
}
