/** An independent definition of a win on the 3×3 board with run length 3:
    from a start cell, step twice along one of four directions, checking
    at every step that the cell stays on the board and holds the same mark.
    The lemmas show that the fixed table of winning lines finds a winner
    exactly when this scan finds a run. */
module LineScan {
  import opened Board

  /** The four line directions as steps (dx, dy) in column x and row y. */
  datatype Direction = Horizontal | Vertical | Diagonal | AntiDiagonal {
    function DX(): int {
      if this == Vertical then 0 else 1
    }
    function DY(): int {
      match this
      case Horizontal => 0
      case Vertical => 1
      case Diagonal => 1
      case AntiDiagonal => -1
    }
  }

  /** Column and row inside the 3×3 board. */
  predicate OnBoard(x: int, y: int) {
    0 <= x < 3 && 0 <= y < 3
  }

  /** Row-major index of an on-board cell. */
  function Index(x: int, y: int): nat
    requires OnBoard(x, y)
  {
    y * 3 + x
  }

  /** The three cells from (x, y) along d are on the board and all hold p. */
  predicate RunOf(squares: seq<Cell>, x: int, y: int, d: Direction, p: Player) {
    && OnBoard(x, y)
    && OnBoard(x + d.DX(), y + d.DY())
    && OnBoard(x + 2 * d.DX(), y + 2 * d.DY())
    && At(squares, Index(x, y)) == Mark(p)
    && At(squares, Index(x + d.DX(), y + d.DY())) == Mark(p)
    && At(squares, Index(x + 2 * d.DX(), y + 2 * d.DY())) == Mark(p)
  }

  /** Some start cell and direction give a run of p. */
  ghost predicate HasRun(squares: seq<Cell>, p: Player) {
    exists x: int, y: int, d: Direction :: RunOf(squares, x, y, d, p)
  }

  /** Every run found by the scan is one of the table's lines. */
  lemma RunIsLine(squares: seq<Cell>, x: int, y: int, d: Direction, p: Player)
    requires RunOf(squares, x, y, d, p)
    ensures HasLine(squares, p)
  {
    match d
    case Horizontal =>
      assert x == 0;
      assert LineOf(squares, y, p);
    case Vertical =>
      assert y == 0;
      if x == 0 {
        assert LineOf(squares, 3, p);
      } else if x == 1 {
        assert LineOf(squares, 4, p);
      } else {
        assert LineOf(squares, 5, p);
      }
    case Diagonal =>
      assert x == 0 && y == 0;
      assert LineOf(squares, 6, p);
    case AntiDiagonal =>
      assert x == 0 && y == 2;
      assert LineOf(squares, 7, p);
  }

  /** Every line of the table is a run the scan finds. */
  lemma LineIsRun(squares: seq<Cell>, k: nat, p: Player)
    requires k < |Lines| && LineOf(squares, k, p)
    ensures HasRun(squares, p)
  {
    if k < 3 {
      assert RunOf(squares, 0, k, Horizontal, p);
    } else if k == 3 {
      assert RunOf(squares, 0, 0, Vertical, p);
    } else if k == 4 {
      assert RunOf(squares, 1, 0, Vertical, p);
    } else if k == 5 {
      assert RunOf(squares, 2, 0, Vertical, p);
    } else if k == 6 {
      assert RunOf(squares, 0, 0, Diagonal, p);
    } else {
      assert RunOf(squares, 0, 2, AntiDiagonal, p);
    }
  }

  lemma TableMatchesScan(squares: seq<Cell>, p: Player)
    ensures HasLine(squares, p) <==> HasRun(squares, p)
  {
    if HasLine(squares, p) {
      var k :| 0 <= k < |Lines| && LineOf(squares, k, p);
      LineIsRun(squares, k, p);
    }
    if HasRun(squares, p) {
      var x: int, y: int, d: Direction :| RunOf(squares, x, y, d, p);
      RunIsLine(squares, x, y, d, p);
    }
  }

  /** `calculateWinner` reports a winner exactly when the scan finds a run,
      the mark it reports has a run, and a mark that alone has a run is the
      one reported. */
  lemma WinnerAgreesWithScan(squares: seq<Cell>)
    ensures CalculateWinner(squares).Some? <==> HasRun(squares, X) || HasRun(squares, O)
    ensures CalculateWinner(squares).Some? ==> HasRun(squares, CalculateWinner(squares).value)
    ensures HasRun(squares, X) && !HasRun(squares, O) ==> CalculateWinner(squares) == Some(X)
    ensures HasRun(squares, O) && !HasRun(squares, X) ==> CalculateWinner(squares) == Some(O)
  {
    WinnerSpec(squares);
    TableMatchesScan(squares, X);
    TableMatchesScan(squares, O);
    var w := CalculateWinner(squares);
    if w.Some? {
      assert w.value == X || w.value == O;
    }
  }
}
