/**
 Win detection of the tkinter front end (tictactoe.py `check_winner`): the
 eight lines of a 3 by 3 board written out one by one, and its agreement
 with the general scan at grid size 3 and win length 3.
 */
module ClassicWinner {
  import opened Board
  import opened Winner

  /** Three cells form a line when they hold one and the same mark. */
  predicate Line3(a: Cell, b: Cell, c: Cell) {
    a == b && b == c && c != Empty
  }

  /** A three-cell window that fits is complete exactly when its three cells form a line. */
  lemma CompleteIffLine3(b: Grid, win: Window)
    requires IsSquare(b, 3) && InBounds(3, 3, win)
    ensures Complete(b, 3, 3, win) <==>
              Line3(b[CellRow(win, 0)][CellCol(win, 0)],
                    b[CellRow(win, 1)][CellCol(win, 1)],
                    b[CellRow(win, 2)][CellCol(win, 2)])
  {
  }

  /**
   At grid size 3 and win length 3 the general scan tests exactly eight
   windows, the three rows, the three columns and the two diagonals, in
   that order, and reports the start mark of the first complete one.
   */
  lemma ScanVisitsEightWindows(b: Grid)
    requires IsSquare(b, 3)
    ensures CheckWinner(b, 3, 3) ==
              if Complete(b, 3, 3, Window(Horizontal, 0, 0)) then Some(b[0][0])
              else if Complete(b, 3, 3, Window(Horizontal, 1, 0)) then Some(b[1][0])
              else if Complete(b, 3, 3, Window(Horizontal, 2, 0)) then Some(b[2][0])
              else if Complete(b, 3, 3, Window(Vertical, 0, 0)) then Some(b[0][0])
              else if Complete(b, 3, 3, Window(Vertical, 0, 1)) then Some(b[0][1])
              else if Complete(b, 3, 3, Window(Vertical, 0, 2)) then Some(b[0][2])
              else if Complete(b, 3, 3, Window(Diagonal, 0, 0)) then Some(b[0][0])
              else if Complete(b, 3, 3, Window(AntiDiagonal, 0, 2)) then Some(b[0][2])
              else None
  {
    var h0, h1, h2 := Window(Horizontal, 0, 0), Window(Horizontal, 1, 0), Window(Horizontal, 2, 0);
    var v2 := Window(Vertical, 0, 2);
    var dg, ad := Window(Diagonal, 0, 0), Window(AntiDiagonal, 0, 2);
    // Unfold the scan one visited start cell at a time.
    assert Scan(b, 3, 3, AntiDiagonal, 0, 2) ==
           (if Complete(b, 3, 3, ad) then Some(b[0][2]) else None) by {
      assert Scan(b, 3, 3, AntiDiagonal, 0, 3) == Scan(b, 3, 3, AntiDiagonal, 1, 2) == None;
    }
    assert Scan(b, 3, 3, Diagonal, 0, 0) ==
           (if Complete(b, 3, 3, dg) then Some(b[0][0]) else Scan(b, 3, 3, AntiDiagonal, 0, 2)) by {
      assert Scan(b, 3, 3, Diagonal, 0, 1) == Scan(b, 3, 3, Diagonal, 1, 0);
    }
    assert Scan(b, 3, 3, Vertical, 0, 2) ==
           (if Complete(b, 3, 3, v2) then Some(b[0][2]) else Scan(b, 3, 3, Diagonal, 0, 0)) by {
      assert Scan(b, 3, 3, Vertical, 0, 3) == Scan(b, 3, 3, Vertical, 1, 0);
    }
    assert Scan(b, 3, 3, Horizontal, 2, 0) ==
           (if Complete(b, 3, 3, h2) then Some(b[2][0]) else Scan(b, 3, 3, Vertical, 0, 0)) by {
      assert Scan(b, 3, 3, Horizontal, 2, 1) == Scan(b, 3, 3, Horizontal, 3, 0);
    }
    assert Scan(b, 3, 3, Horizontal, 1, 0) ==
           (if Complete(b, 3, 3, h1) then Some(b[1][0]) else Scan(b, 3, 3, Horizontal, 2, 0)) by {
      assert Scan(b, 3, 3, Horizontal, 1, 1) == Scan(b, 3, 3, Horizontal, 2, 0);
    }
    assert Scan(b, 3, 3, Horizontal, 0, 0) ==
           (if Complete(b, 3, 3, h0) then Some(b[0][0]) else Scan(b, 3, 3, Horizontal, 1, 0)) by {
      assert Scan(b, 3, 3, Horizontal, 0, 1) == Scan(b, 3, 3, Horizontal, 1, 0);
    }
  }

  /**
   The eight lines tested one after the other: rows, then columns, then the
   main diagonal, then the anti-diagonal. The first line found reports the
   mark it holds, which is always what the general scan reports at grid
   size 3 and win length 3.
   */
  function CheckWinner3(b: Grid): (r: Option<Cell>)
    requires IsSquare(b, 3)
    ensures r == CheckWinner(b, 3, 3)
  {
    ScanVisitsEightWindows(b);
    CompleteIffLine3(b, Window(Horizontal, 0, 0));
    CompleteIffLine3(b, Window(Horizontal, 1, 0));
    CompleteIffLine3(b, Window(Horizontal, 2, 0));
    CompleteIffLine3(b, Window(Vertical, 0, 0));
    CompleteIffLine3(b, Window(Vertical, 0, 1));
    CompleteIffLine3(b, Window(Vertical, 0, 2));
    CompleteIffLine3(b, Window(Diagonal, 0, 0));
    CompleteIffLine3(b, Window(AntiDiagonal, 0, 2));
    if Line3(b[0][0], b[0][1], b[0][2]) then Some(b[0][0])
    else if Line3(b[1][0], b[1][1], b[1][2]) then Some(b[1][0])
    else if Line3(b[2][0], b[2][1], b[2][2]) then Some(b[2][0])
    else if Line3(b[0][0], b[1][0], b[2][0]) then Some(b[0][0])
    else if Line3(b[0][1], b[1][1], b[2][1]) then Some(b[0][1])
    else if Line3(b[0][2], b[1][2], b[2][2]) then Some(b[0][2])
    else if Line3(b[0][0], b[1][1], b[2][2]) then Some(b[0][0])
    else if Line3(b[0][2], b[1][1], b[2][0]) then Some(b[0][2])
    else None
  }

}
