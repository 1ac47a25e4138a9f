/** The 3×3 board of the game, the fixed table of winning lines and the
    winner scan (`calculateWinner`), the draw rule, and the counting facts
    that local play keeps. */
module Board {

  datatype Option<T> = None | Some(value: T)

  /** A player's mark: the strings "X" and "O". */
  datatype Player = X | O {
    function Other(): Player {
      if this == X then O else X
    }
  }

  /** A cell holds null (empty, the only falsy value) or a mark. */
  datatype Cell = Empty | Mark(player: Player)

  /** The board always has nine cells, indexed row by row. */
  const Size: nat := 9

  /** `Array(9).fill(null)`. */
  const EmptyBoard: seq<Cell> := seq(Size, _ => Empty)

  /** WINNING_COMBINATIONS, in table order: three rows, three columns, two diagonals. */
  const Lines: seq<(nat, nat, nat)> :=
    [(0, 1, 2), (3, 4, 5), (6, 7, 8),
     (0, 3, 6), (1, 4, 7), (2, 5, 8),
     (0, 4, 8), (2, 4, 6)]

  /** `squares[i]`: an index past the end reads `undefined`, which is falsy like an empty cell. */
  function At(squares: seq<Cell>, i: nat): Cell {
    if i < |squares| then squares[i] else Empty
  }

  /** The guard of the scan: `squares[a] && squares[a] === squares[b] && squares[a] === squares[c]`. */
  predicate LineWon(squares: seq<Cell>, k: nat)
    requires k < |Lines|
  {
    var (a, b, c) := Lines[k];
    At(squares, a) != Empty && At(squares, a) == At(squares, b) && At(squares, a) == At(squares, c)
  }

  /** All three cells of line k hold p. */
  predicate LineOf(squares: seq<Cell>, k: nat, p: Player)
    requires k < |Lines|
  {
    var (a, b, c) := Lines[k];
    At(squares, a) == Mark(p) && At(squares, b) == Mark(p) && At(squares, c) == Mark(p)
  }

  /** A won line is one filled with the mark of its first cell, and a line
      filled with any one mark is won. */
  lemma LineWonIsLineOf(squares: seq<Cell>, k: nat)
    requires k < |Lines|
    ensures LineWon(squares, k) ==> LineOf(squares, k, At(squares, Lines[k].0).player)
    ensures LineWon(squares, k) <==> LineOf(squares, k, X) || LineOf(squares, k, O)
  {
    if LineWon(squares, k) {
      var p := At(squares, Lines[k].0).player;
      assert p == X || p == O;
    }
  }

  /** Some line of the table is filled with p. */
  predicate HasLine(squares: seq<Cell>, p: Player) {
    exists k :: 0 <= k < |Lines| && LineOf(squares, k, p)
  }

  /** The loop of `calculateWinner` from table entry k on: the mark of the
      first won line, or null when none of the remaining lines is won. */
  function ScanFrom(squares: seq<Cell>, k: nat): Option<Player>
    requires k <= |Lines|
    decreases |Lines| - k
  {
    if k == |Lines| then None
    else if LineWon(squares, k) then Some(At(squares, Lines[k].0).player)
    else ScanFrom(squares, k + 1)
  }

  /** The scan from entry k finds nothing exactly when no remaining line is
      won, and what it finds fills the first won line from k on. */
  lemma {:induction false} ScanFromSpec(squares: seq<Cell>, k: nat)
    requires k <= |Lines|
    decreases |Lines| - k
    ensures ScanFrom(squares, k).None? <==> forall j :: k <= j < |Lines| ==> !LineWon(squares, j)
    ensures ScanFrom(squares, k).Some? ==>
      exists j :: k <= j < |Lines| && LineOf(squares, j, ScanFrom(squares, k).value) &&
        forall i :: k <= i < j ==> !LineWon(squares, i)
  {
    if k < |Lines| {
      if LineWon(squares, k) {
        LineWonIsLineOf(squares, k);
      } else {
        ScanFromSpec(squares, k + 1);
      }
    }
  }

  /** `calculateWinner(squares)`. */
  function CalculateWinner(squares: seq<Cell>): Option<Player> {
    ScanFrom(squares, 0)
  }

  /** `calculateWinner` reports a mark exactly when some line of the table is
      filled with one mark, and the mark it reports fills the first such line
      in table order. */
  lemma WinnerSpec(squares: seq<Cell>)
    ensures CalculateWinner(squares).None? <==> forall k :: 0 <= k < |Lines| ==> !LineWon(squares, k)
    ensures CalculateWinner(squares).None? <==> !HasLine(squares, X) && !HasLine(squares, O)
    ensures CalculateWinner(squares).Some? ==> HasLine(squares, CalculateWinner(squares).value)
    ensures CalculateWinner(squares).Some? ==>
      exists k :: 0 <= k < |Lines| && LineOf(squares, k, CalculateWinner(squares).value) &&
        forall i :: 0 <= i < k ==> !LineWon(squares, i)
  {
    ScanFromSpec(squares, 0);
    forall k | 0 <= k < |Lines|
      ensures LineWon(squares, k) <==> LineOf(squares, k, X) || LineOf(squares, k, O)
    {
      LineWonIsLineOf(squares, k);
    }
  }

  /** `board.every(Boolean)`: every cell holds a mark (vacuously true of an empty array). */
  predicate Full(squares: seq<Cell>) {
    forall i :: 0 <= i < |squares| ==> squares[i] != Empty
  }

  /** The draw rule `!winner && board.every(Boolean)`. */
  function IsDraw(squares: seq<Cell>): bool {
    CalculateWinner(squares).None? && Full(squares)
  }

  /** The mark placed next: `xIsNext ? "X" : "O"`. */
  function Turn(xIsNext: bool): Player {
    if xIsNext then X else O
  }

  /** The number of cells that hold p. */
  function Count(squares: seq<Cell>, p: Player): nat {
    if squares == [] then 0
    else (if squares[0] == Mark(p) then 1 else 0) + Count(squares[1..], p)
  }

  /** The number of marks on the board. */
  function Occupied(squares: seq<Cell>): nat {
    Count(squares, X) + Count(squares, O)
  }

  /** The alternation invariant that local play keeps of the board and the
      turn flag: nine cells, X has made as many moves as O when X is to move
      and one more otherwise, and a line is only ever filled by the player
      who moved last. It is necessary for reachability, not sufficient. */
  ghost predicate LocalPosition(squares: seq<Cell>, xIsNext: bool) {
    && |squares| == Size
    && Count(squares, X) == Count(squares, O) + (if xIsNext then 0 else 1)
    && (HasLine(squares, X) ==> !xIsNext)
    && (HasLine(squares, O) ==> xIsNext)
  }

  /** `Array(9).fill(null)` has nine cells, no winner and is no draw. */
  lemma EmptyBoardHasNoWinner()
    ensures |EmptyBoard| == Size && Full(EmptyBoard) == false
    ensures CalculateWinner(EmptyBoard) == None && !IsDraw(EmptyBoard)
  {
    WinnerSpec(EmptyBoard);
    assert EmptyBoard[0] == Empty;
    forall k | 0 <= k < |Lines| ensures !LineWon(EmptyBoard, k) {
      var (a, b, c) := Lines[k];
      assert At(EmptyBoard, a) == Empty;
    }
  }

  /** Winner and draw never hold together. */
  lemma DrawSpec(squares: seq<Cell>)
    ensures !(CalculateWinner(squares).Some? && IsDraw(squares))
    ensures IsDraw(squares) <==> !HasLine(squares, X) && !HasLine(squares, O) && Full(squares)
  {
    WinnerSpec(squares);
  }

  /** A board of empty cells holds no mark of p. */
  lemma {:induction false} CountNoMarks(squares: seq<Cell>, p: Player)
    requires forall i :: 0 <= i < |squares| ==> squares[i] == Empty
    ensures Count(squares, p) == 0
  {
    if squares != [] {
      CountNoMarks(squares[1..], p);
    }
  }

  /** Writing c at index i changes the count of p by what left and what came in at i. */
  lemma {:induction false} CountUpdate(squares: seq<Cell>, i: nat, c: Cell, p: Player)
    requires i < |squares|
    ensures Count(squares[i := c], p) ==
      Count(squares, p) - (if squares[i] == Mark(p) then 1 else 0) + (if c == Mark(p) then 1 else 0)
  {
    var next := squares[i := c];
    if i == 0 {
      assert next[1..] == squares[1..];
    } else {
      assert next[1..] == squares[1..][i - 1 := c];
      CountUpdate(squares[1..], i - 1, c, p);
    }
  }

  /** On a board where no line is won, a mark placed at one cell can only
      complete lines of its own player. */
  lemma OnlyMoverCompletesLine(squares: seq<Cell>, i: nat, p: Player)
    requires i < |squares| && CalculateWinner(squares).None?
    ensures !HasLine(squares[i := Mark(p)], p.Other())
    ensures CalculateWinner(squares[i := Mark(p)]) != Some(p.Other())
  {
    var next := squares[i := Mark(p)];
    WinnerSpec(squares);
    WinnerSpec(next);
    forall k | 0 <= k < |Lines| ensures !LineOf(next, k, p.Other()) {
      var (a, b, c) := Lines[k];
      if LineOf(next, k, p.Other()) {
        assert a != i && b != i && c != i;
        assert At(squares, a) == At(next, a) && At(squares, b) == At(next, b) && At(squares, c) == At(next, c);
        assert LineWon(squares, k);
        assert false;
      }
    }
  }

  /** A reset starts a local game: the empty board with X to move, no marks down. */
  lemma EmptyBoardIsLocalPosition()
    ensures LocalPosition(EmptyBoard, true) && Occupied(EmptyBoard) == 0
  {
    EmptyBoardHasNoWinner();
    CountNoMarks(EmptyBoard, X);
    CountNoMarks(EmptyBoard, O);
  }

  /** An accepted local move keeps the local position: the mover's count rises
      by one, the turn passes, and the opponent cannot have won. */
  lemma MoveKeepsLocalPosition(squares: seq<Cell>, xIsNext: bool, i: nat)
    requires LocalPosition(squares, xIsNext)
    requires i < |squares| && squares[i] == Empty && CalculateWinner(squares).None?
    ensures LocalPosition(squares[i := Mark(Turn(xIsNext))], !xIsNext)
    ensures Occupied(squares[i := Mark(Turn(xIsNext))]) == Occupied(squares) + 1
    ensures CalculateWinner(squares[i := Mark(Turn(xIsNext))]) != Some(Turn(!xIsNext))
  {
    var p := Turn(xIsNext);
    CountUpdate(squares, i, Mark(p), X);
    CountUpdate(squares, i, Mark(p), O);
    OnlyMoverCompletesLine(squares, i, p);
  }

  /** An example of what the last clause of `LocalPosition` excludes: a board
      where O moved again after X completed the top row, which play cannot
      reach because a click is refused once a winner is set. */
  lemma PlayAfterWinIsNotLocal()
    ensures !LocalPosition([Mark(X), Mark(X), Mark(X), Mark(O), Mark(O), Empty, Empty, Empty, Mark(O)], true)
  {
    var squares := [Mark(X), Mark(X), Mark(X), Mark(O), Mark(O), Empty, Empty, Empty, Mark(O)];
    assert LineOf(squares, 0, X);
  }

  /** In local play X is to move exactly when an even number of marks is down. */
  lemma LocalTurnParity(squares: seq<Cell>, xIsNext: bool)
    requires LocalPosition(squares, xIsNext)
    ensures xIsNext <==> Occupied(squares) % 2 == 0
  {
  }
}
