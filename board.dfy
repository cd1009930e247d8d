/**
 * The 3x3 board of the game: nine cells indexed 0..8 in row-major order,
 * the eight fixed winning lines, and win and tie detection on a board value.
 */
module Board {
  import opened Wrappers

  /** The two marks; X always moves first. */
  datatype Player = X | O {
    /** The mark that moves after this one. */
    function Other(): (q: Player)
      ensures q != this
    {
      if this == X then O else X
    }
  }

  /** A cell is empty ("" in the game) or holds one player's mark. */
  datatype Cell = Empty | Mark(player: Player)

  /** A board position. */
  type Index = i: nat | i < 9

  /** Three board positions that win when they hold the same mark. */
  type Line = (Index, Index, Index)

  /** The winning lines in the order the game scans them: rows, columns, diagonals. */
  const WinConditions: seq<Line> :=
    [(0, 1, 2), (3, 4, 5), (6, 7, 8),
     (0, 3, 6), (1, 4, 7), (2, 5, 8),
     (0, 4, 8), (2, 4, 6)]

  const LineCount := 8

  /** The board before any move. */
  const EmptyBoard: seq<Cell> := [Empty, Empty, Empty, Empty, Empty, Empty, Empty, Empty, Empty]

  /** The list holds the three rows, then the three columns, then the two diagonals of the grid. */
  lemma WinConditionsAreRowsColumnsDiagonals()
    ensures |WinConditions| == LineCount
    ensures forall k :: 0 <= k < 3 ==> WinConditions[k] == (3 * k, 3 * k + 1, 3 * k + 2)
    ensures forall k :: 3 <= k < 6 ==> WinConditions[k] == (k - 3, k, k + 3)
    ensures WinConditions[6] == (0, 4, 8) && WinConditions[7] == (2, 4, 6)
  {
  }

  /** Line number `k` is occupied by one mark in all three of its cells. */
  predicate LineWon(b: seq<Cell>, k: nat)
    requires |b| == 9 && k < LineCount
  {
    var (p, q, r) := WinConditions[k];
    b[p] != Empty && b[p] == b[q] && b[p] == b[r]
  }

  /** No empty cell is left. */
  predicate IsFull(b: seq<Cell>)
  {
    Empty !in b
  }

  /** A line is won exactly when its three cells all hold X or all hold O. */
  lemma LineWonIsThreeOfOneMark(b: seq<Cell>, k: nat)
    requires |b| == 9 && k < LineCount
    ensures LineWon(b, k) <==>
              var (p, q, r) := WinConditions[k];
              || (b[p] == Mark(X) && b[q] == Mark(X) && b[r] == Mark(X))
              || (b[p] == Mark(O) && b[q] == Mark(O) && b[r] == Mark(O))
  {
    var c := b[WinConditions[k].0];
    assert c == Empty || c == Mark(X) || c == Mark(O) by {
      if c.Mark? { assert c.player == X || c.player == O; }
    }
  }

  /** A board is full exactly when every cell holds a mark, that is when no cell counts as empty. */
  lemma IsFullMeansEveryCellMarked(b: seq<Cell>)
    ensures IsFull(b) <==> forall i :: 0 <= i < |b| ==> b[i].Mark?
    ensures IsFull(b) <==> Count(b, Empty) == 0
  {
  }

  /** The first winning line, scanning from line `from` in list order. */
  function FirstWinningLine(b: seq<Cell>, from: nat): (r: Option<nat>)
    requires |b| == 9 && from <= LineCount
    ensures r.Some? ==> from <= r.value < LineCount && LineWon(b, r.value)
    ensures r.Some? ==> forall k :: from <= k < r.value ==> !LineWon(b, k)
    ensures r.None? <==> forall k :: from <= k < LineCount ==> !LineWon(b, k)
    decreases LineCount - from
  {
    if from == LineCount then None
    else if LineWon(b, from) then Some(from)
    else FirstWinningLine(b, from + 1)
  }

  /**
   * The winner of a board: the mark on the first winning line in list order,
   * or None when no line is won.
   */
  function Winner(b: seq<Cell>): (w: Option<Player>)
    requires |b| == 9
    ensures w.None? <==> forall k :: 0 <= k < LineCount ==> !LineWon(b, k)
    ensures w.Some? ==> exists k :: 0 <= k < LineCount && LineWon(b, k)
                                 && b[WinConditions[k].0] == Mark(w.value)
                                 && forall j :: 0 <= j < k ==> !LineWon(b, j)
  {
    match FirstWinningLine(b, 0)
    case None => None
    case Some(k) => Some(b[WinConditions[k].0].player)
  }

  /** The empty board has no winning line, is not full and holds no mark. */
  lemma EmptyBoardFacts()
    ensures Winner(EmptyBoard).None? && !IsFull(EmptyBoard)
    ensures Count(EmptyBoard, Mark(X)) == 0 && Count(EmptyBoard, Mark(O)) == 0
  {
    forall k | 0 <= k < LineCount ensures !LineWon(EmptyBoard, k) {
      assert EmptyBoard[WinConditions[k].0] == Empty;
    }
  }

  /** The number of cells of `b` equal to `c`. */
  function Count(b: seq<Cell>, c: Cell): (n: nat)
    ensures n <= |b|
    ensures n == 0 <==> c !in b
  {
    if b == [] then 0
    else (if b[0] == c then 1 else 0) + Count(b[1..], c)
  }

  /** Overwriting one cell changes the count of a value by what left and what arrived. */
  lemma {:induction false} CountUpdate(b: seq<Cell>, i: nat, v: Cell, c: Cell)
    requires i < |b|
    ensures Count(b[i := v], c) == Count(b, c) - (if b[i] == c then 1 else 0) + (if v == c then 1 else 0)
  {
    if i == 0 {
      assert b[i := v][1..] == b[1..];
    } else {
      assert b[i := v][1..] == b[1..][i - 1 := v];
      CountUpdate(b[1..], i - 1, v, c);
    }
  }

  /**
   * Placing one mark on an empty cell of a board with no winning line can only
   * complete lines through that cell, so every winning line afterwards carries
   * the mover's mark: the winner does not depend on the scanning order.
   */
  lemma MoveWinnerIsMover(b: seq<Cell>, i: Index, p: Player)
    requires |b| == 9 && b[i] == Empty && Winner(b).None?
    ensures forall k :: 0 <= k < LineCount && LineWon(b[i := Mark(p)], k) ==>
              b[i := Mark(p)][WinConditions[k].0] == Mark(p)
    ensures Winner(b[i := Mark(p)]).Some? ==> Winner(b[i := Mark(p)]) == Some(p)
  {
    var b' := b[i := Mark(p)];
    forall k | 0 <= k < LineCount && LineWon(b', k)
      ensures b'[WinConditions[k].0] == Mark(p)
    {
      assert !LineWon(b, k);
    }
  }
}
