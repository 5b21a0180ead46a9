/**
 Win detection of the Kivy front end (main.py `check_winner`), generalised
 over the grid size `n` and the number `w` of marks in a row needed to win.

 A window is a start cell plus a direction; its `w` cells are the start and
 the next `w - 1` cells in that direction. The scan visits four families of
 windows: rows, columns, top-left to bottom-right diagonals and top-right to
 bottom-left diagonals, each family in row-major order of the start cell,
 and reports the mark of the first complete window.
 */
module Winner {
  import opened Board

  datatype Dir = Horizontal | Vertical | Diagonal | AntiDiagonal

  datatype Window = Window(dir: Dir, row: int, col: int)

  /** Position of a family in the scan. */
  function DirRank(d: Dir): nat {
    match d
    case Horizontal => 0
    case Vertical => 1
    case Diagonal => 2
    case AntiDiagonal => 3
  }

  function NextDir(d: Dir): Dir
    requires d != AntiDiagonal
  {
    match d
    case Horizontal => Vertical
    case Vertical => Diagonal
    case Diagonal => AntiDiagonal
  }

  /** Row of the `k`-th cell of the window. */
  function CellRow(win: Window, k: int): int {
    match win.dir
    case Horizontal => win.row
    case Vertical => win.row + k
    case Diagonal => win.row + k
    case AntiDiagonal => win.row + k
  }

  /** Column of the `k`-th cell of the window. */
  function CellCol(win: Window, k: int): int {
    match win.dir
    case Horizontal => win.col + k
    case Vertical => win.col
    case Diagonal => win.col + k
    case AntiDiagonal => win.col - k
  }

  /** All `w` cells of the window lie on an `n` by `n` board. */
  predicate InBounds(n: nat, w: nat, win: Window) {
    && 0 <= win.row < n
    && 0 <= win.col < n
    && forall k :: 0 <= k < w ==> 0 <= CellRow(win, k) < n && 0 <= CellCol(win, k) < n
  }

  /** The window lies on the board and its cells all hold the start cell's non-empty mark. */
  predicate Complete(b: Grid, n: nat, w: nat, win: Window)
    requires IsSquare(b, n)
  {
    && InBounds(n, w, win)
    && b[win.row][win.col] != Empty
    && forall k :: 0 <= k < w ==> b[CellRow(win, k)][CellCol(win, k)] == b[win.row][win.col]
  }

  /** End (exclusive) of the start rows the source scans for a family. */
  function RowEnd(d: Dir, n: nat, w: nat): int {
    if d == Horizontal then n else n - w + 1
  }

  /** Start of the start columns the source scans for a family. */
  function ColStart(d: Dir, w: nat): int {
    if d == AntiDiagonal then w - 1 else 0
  }

  /** End (exclusive) of the start columns the source scans for a family. */
  function ColEnd(d: Dir, n: nat, w: nat): int {
    if d == Vertical || d == AntiDiagonal then n else n - w + 1
  }

  /** Scan order on windows: earlier family first, then row-major start cell. */
  predicate NotAfter(a: Window, c: Window) {
    || DirRank(a.dir) < DirRank(c.dir)
    || (a.dir == c.dir && (a.row < c.row || (a.row == c.row && a.col <= c.col)))
  }

  /**
   The four nested scan loops, resumed at family `d`, start row `i`, start column `j`.
   */
  function Scan(b: Grid, n: nat, w: nat, d: Dir, i: int, j: int): (r: Option<Cell>)
    requires IsSquare(b, n) && 1 <= w
    ensures r.Some? ==> r.value != Empty
    decreases 3 - DirRank(d), RowEnd(d, n, w) - i, ColEnd(d, n, w) - j
  {
    if i >= RowEnd(d, n, w) then
      if d == AntiDiagonal then None
      else Scan(b, n, w, NextDir(d), 0, ColStart(NextDir(d), w))
    else if j >= ColEnd(d, n, w) then Scan(b, n, w, d, i + 1, ColStart(d, w))
    else if Complete(b, n, w, Window(d, i, j)) then
      Some(b[i][j])
    else Scan(b, n, w, d, i, j + 1)
  }

  /** The windows that fit on the board are exactly the start cells the source's loops visit. */
  lemma InBoundsIffScanned(n: nat, w: nat, win: Window)
    requires 1 <= w
    ensures InBounds(n, w, win) <==>
              && 0 <= win.row < RowEnd(win.dir, n, w)
              && ColStart(win.dir, w) <= win.col < ColEnd(win.dir, n, w)
  {
    if InBounds(n, w, win) {
      assert 0 <= CellRow(win, w - 1) < n && 0 <= CellCol(win, w - 1) < n;
    }
  }

  /** The first complete window in scan order. */
  ghost predicate FirstComplete(b: Grid, n: nat, w: nat, win: Window)
    requires IsSquare(b, n)
  {
    Complete(b, n, w, win) && forall v :: Complete(b, n, w, v) ==> NotAfter(win, v)
  }

  /**
   What the scan from (d, i, j) finds: nothing when no complete window lies
   at or after that point, otherwise the mark of the first one that does.
   */
  lemma {:induction false} ScanFindsFirst(b: Grid, n: nat, w: nat, d: Dir, i: int, j: int)
    requires IsSquare(b, n) && 1 <= w
    ensures Scan(b, n, w, d, i, j).None? ==>
              forall v :: Complete(b, n, w, v) ==> !NotAfter(Window(d, i, j), v)
    ensures Scan(b, n, w, d, i, j).Some? ==>
              exists win ::
                && Complete(b, n, w, win)
                && NotAfter(Window(d, i, j), win)
                && b[win.row][win.col] == Scan(b, n, w, d, i, j).value
                && forall v :: Complete(b, n, w, v) && NotAfter(Window(d, i, j), v) ==> NotAfter(win, v)
    decreases 3 - DirRank(d), RowEnd(d, n, w) - i, ColEnd(d, n, w) - j
  {
    if i >= RowEnd(d, n, w) {
      forall v | Complete(b, n, w, v) && v.dir == d
        ensures v.row < i
      {
        InBoundsIffScanned(n, w, v);
      }
      if d != AntiDiagonal {
        var e := NextDir(d);
        ScanFindsFirst(b, n, w, e, 0, ColStart(e, w));
        forall v | Complete(b, n, w, v) && v.dir == e
          ensures NotAfter(Window(e, 0, ColStart(e, w)), v)
        {
          InBoundsIffScanned(n, w, v);
        }
      }
    } else if j >= ColEnd(d, n, w) {
      ScanFindsFirst(b, n, w, d, i + 1, ColStart(d, w));
      forall v | Complete(b, n, w, v) && NotAfter(Window(d, i, j), v)
        ensures NotAfter(Window(d, i + 1, ColStart(d, w)), v)
      {
        InBoundsIffScanned(n, w, v);
      }
    } else if Complete(b, n, w, Window(d, i, j)) {
      assert NotAfter(Window(d, i, j), Window(d, i, j));
    } else {
      ScanFindsFirst(b, n, w, d, i, j + 1);
    }
  }

  /**
   `check_winner`: the mark of the first complete window, or `None` when no
   window of `w` equal marks exists anywhere on the board.
   */
  function CheckWinner(b: Grid, n: nat, w: nat): (r: Option<Cell>)
    requires IsSquare(b, n) && 1 <= w
    ensures r.None? <==> forall v :: !Complete(b, n, w, v)
    ensures r.Some? ==> r.value != Empty
    ensures r.Some? ==> exists win :: FirstComplete(b, n, w, win) && b[win.row][win.col] == r.value
  {
    ScanFindsFirst(b, n, w, Horizontal, 0, 0);
    assert forall v :: Complete(b, n, w, v) ==> NotAfter(Window(Horizontal, 0, 0), v);
    Scan(b, n, w, Horizontal, 0, 0)
  }

  /** Some window of `w` cells all holding mark `c`. */
  ghost predicate HasLine(b: Grid, n: nat, w: nat, c: Cell)
    requires IsSquare(b, n)
  {
    exists win :: Complete(b, n, w, win) && b[win.row][win.col] == c
  }

  /** Scan order is antisymmetric, so the first complete window is unique. */
  lemma NotAfterAntisymmetric(a: Window, c: Window)
    requires NotAfter(a, c) && NotAfter(c, a)
    ensures a == c
  {
  }

  /** The winner reported is exactly the mark of the first complete window in scan order. */
  lemma WinnerIsFirstWindow(b: Grid, n: nat, w: nat, win: Window)
    requires IsSquare(b, n) && 1 <= w
    requires FirstComplete(b, n, w, win)
    ensures CheckWinner(b, n, w) == Some(b[win.row][win.col])
  {
    var r := CheckWinner(b, n, w);
    var first :| FirstComplete(b, n, w, first) && b[first.row][first.col] == r.value;
    NotAfterAntisymmetric(win, first);
  }

  /** A mark is reported only if it has a line, and a line of any mark means some winner is reported. */
  lemma WinnerHasLine(b: Grid, n: nat, w: nat, c: Cell)
    requires IsSquare(b, n) && 1 <= w
    ensures CheckWinner(b, n, w) == Some(c) ==> c != Empty && HasLine(b, n, w, c)
    ensures HasLine(b, n, w, c) ==> CheckWinner(b, n, w).Some?
  {
  }

  /** With `w >= 2`, two distinct cells of any window must agree, so a board with at most one mark has no winner. */
  lemma AtMostOneMarkNoWinner(b: Grid, n: nat, w: nat, p: Pos)
    requires IsSquare(b, n) && 2 <= w
    requires forall i, j :: 0 <= i < n && 0 <= j < n && (i != p.row || j != p.col) ==> b[i][j] == Empty
    ensures CheckWinner(b, n, w) == None
  {
    assert forall v :: Complete(b, n, w, v) ==> b[CellRow(v, 1)][CellCol(v, 1)] == b[v.row][v.col];
  }
}
