/** The four move directions and the index arithmetic the engine uses to
    walk the 16-cell row-major board one line at a time. */
module Directions {

  datatype Direction = Left | Right | Up | Down

  /** `Direction::increment`: the index the scan starts at, the step
      between two cells of a line, and the extra stride added (modulo 16)
      when passing from one line to the next. */
  function Increment(d: Direction): (int, int, int)
  {
    match d
    case Left => (0, 1, 0)
    case Right => (15, -1, 0)
    case Up => (0, 4, 1)
    case Down => (15, -4, -1)
  }

  function Start(d: Direction): int { Increment(d).0 }

  function Step(d: Direction): int { Increment(d).1 }

  function Stride(d: Direction): int { Increment(d).2 }

  /** The remainder of Rust's `%` on `i32`, which truncates toward zero. */
  function RemI32(a: int, b: int): (r: int)
    requires b > 0
    ensures a >= 0 ==> r == a % b
  {
    if a >= 0 then a % b else -((-a) % b)
  }

  /** The index at which line `l` of the scan begins, computed the way the
      code computes it: four steps along the line, then the stride and the
      wrap `(index + stride + 16) % 16`. */
  function LineStart(d: Direction, l: nat): int
    decreases l
  {
    if l == 0 then Start(d)
    else RemI32(LineStart(d, l - 1) + 4 * Step(d) + Stride(d) + 16, 16)
  }

  /** Row-major index (row * 4 + column) of position `k` of line `l`:
      lines are rows for Left/Right and columns for Up/Down, and position 0
      is the cell at the edge the tiles move toward. */
  function RowMajor(d: Direction, l: int, k: int): int
  {
    match d
    case Left => 4 * l + k
    case Right => 15 - 4 * l - k
    case Up => l + 4 * k
    case Down => 15 - l - 4 * k
  }

  /** The stride table and the modulo-16 wrap land every line on its edge
      cell. */
  lemma {:induction false} LineStartIsEdge(d: Direction, l: nat)
    requires l < 4
    ensures LineStart(d, l) == RowMajor(d, l, 0)
  {
    if l > 0 {
      LineStartIsEdge(d, l - 1);
    }
  }

  /** One step along a line moves one position away from its edge. */
  lemma StepForward(d: Direction, l: int, p: int)
    ensures RowMajor(d, l, p) + Step(d) == RowMajor(d, l, p + 1)
  {
  }

  /** After four steps along line `l`, the code's wrap
      `(index + stride + 16) % 16` lands on the edge cell of line `l + 1`;
      the dividend is never negative, so `%` on `i32` is the mathematical
      remainder there. */
  lemma WrapToNextLine(d: Direction, l: nat, index: int)
    requires l < 4 && index == RowMajor(d, l, 4)
    ensures l < 3 ==> index + Stride(d) + 16 >= 0
    ensures l < 3 ==> RemI32(index + Stride(d) + 16, 16) == RowMajor(d, l + 1, 0)
  {
    if l < 3 {
      LineStartIsEdge(d, l);
      LineStartIsEdge(d, l + 1);
      assert RowMajor(d, l, 4) == LineStart(d, l) + 4 * Step(d);
    }
  }

  /** The index the scan reads at position `k` of line `l`. */
  function Cell(d: Direction, l: nat, k: nat): (i: int)
    requires l < 4 && k < 4
    ensures 0 <= i < 16
  {
    RowMajor(d, l, k)
  }

  /** The code reaches position `k` of line `l` by `k` steps from the
      line's start, and that is the cell at (l, k). */
  lemma CursorIsCell(d: Direction, l: nat, k: nat)
    requires l < 4 && k < 4
    ensures LineStart(d, l) + k * Step(d) == Cell(d, l, k)
  {
    LineStartIsEdge(d, l);
  }

  /** Row of index `i`, written with comparisons only. */
  function Row(i: int): int
  {
    if i < 4 then 0 else if i < 8 then 1 else if i < 12 then 2 else 3
  }

  /** Column of index `i`. */
  function Col(i: int): int
  {
    i - 4 * Row(i)
  }

  /** The line of the scan that index `i` belongs to. */
  function Line(d: Direction, i: int): nat
    requires 0 <= i < 16
  {
    match d
    case Left => Row(i)
    case Right => 3 - Row(i)
    case Up => Col(i)
    case Down => 3 - Col(i)
  }

  /** The position of index `i` within its line, 0 at the edge. */
  function Pos(d: Direction, i: int): nat
    requires 0 <= i < 16
  {
    match d
    case Left => Col(i)
    case Right => 3 - Col(i)
    case Up => Row(i)
    case Down => 3 - Row(i)
  }

  /** When index `i` is visited during a move: 0 for the first, 15 for the last. */
  function Rank(d: Direction, i: int): nat
    requires 0 <= i < 16
  {
    4 * Line(d, i) + Pos(d, i)
  }

  /** The cells in the order one move visits them. */
  function ScanOrder(d: Direction): seq<int>
  {
    seq(16, r requires 0 <= r < 16 => Cell(d, Row(r), Col(r)))
  }

  /** Line and position recover the (line, position) pair of a cell. */
  lemma CellCoordinates(d: Direction, l: nat, k: nat)
    requires l < 4 && k < 4
    ensures Line(d, Cell(d, l, k)) == l && Pos(d, Cell(d, l, k)) == k
    ensures Rank(d, Cell(d, l, k)) == 4 * l + k
  {
    DivMod4(l, k);
    DivMod4(3 - l, 3 - k);
  }

  /** Distinct (line, position) pairs are distinct cells. */
  lemma CellInjective(d: Direction, l: nat, k: nat, l': nat, k': nat)
    requires l < 4 && k < 4 && l' < 4 && k' < 4
    ensures Cell(d, l, k) == Cell(d, l', k') ==> l == l' && k == k'
  {
  }

  lemma DivMod4(q: nat, r: nat)
    requires q < 4 && r < 4
    ensures Row(4 * q + r) == q && Col(4 * q + r) == r
    ensures Row(q + 4 * r) == r && Col(q + 4 * r) == q
  {
  }

  /** Every board index is the cell of exactly one (line, position) pair. */
  lemma CoordinatesCell(d: Direction, i: int)
    requires 0 <= i < 16
    ensures Line(d, i) < 4 && Pos(d, i) < 4
    ensures Cell(d, Line(d, i), Pos(d, i)) == i
  {
  }

  lemma Split16(r: int)
    requires 0 <= r < 16
    ensures 0 <= Row(r) < 4 && 0 <= Col(r) < 4 && r == 4 * Row(r) + Col(r)
  {
  }

  /** One move reads every index 0..15 exactly once, line after line:
      position k of line l is the (4 * l + k)-th cell it reads. */
  lemma ScanVisitsEveryCellOnce(d: Direction)
    ensures |ScanOrder(d)| == 16
    ensures forall r :: 0 <= r < 16 ==> 0 <= ScanOrder(d)[r] < 16
    ensures forall i :: 0 <= i < 16 ==> i in ScanOrder(d)
    ensures forall a, b :: 0 <= a < b < 16 ==> ScanOrder(d)[a] != ScanOrder(d)[b]
    ensures forall l: nat, k: nat :: l < 4 && k < 4 ==> ScanOrder(d)[4 * l + k] == Cell(d, l, k)
  {
    var s := ScanOrder(d);
    forall r | 0 <= r < 16
      ensures 0 <= s[r] < 16
    {
      Split16(r);
    }
    forall l: nat, k: nat | l < 4 && k < 4
      ensures s[4 * l + k] == Cell(d, l, k)
    {
      DivMod4(l, k);
    }
    forall i | 0 <= i < 16
      ensures i in s
    {
      CoordinatesCell(d, i);
      assert s[4 * Line(d, i) + Pos(d, i)] == i;
    }
    forall a, b | 0 <= a < b < 16
      ensures s[a] != s[b]
    {
      Split16(a);
      Split16(b);
      CellCoordinates(d, Row(a), Col(a));
      CellCoordinates(d, Row(b), Col(b));
    }
  }

  /** A line is one row for Left and Right and one column for Up and Down. */
  lemma LinesAreRowsOrColumns(d: Direction, l: nat, k: nat)
    requires l < 4 && k < 4
    ensures d == Left || d == Right ==> Row(Cell(d, l, k)) == Row(Cell(d, l, 0))
    ensures d == Up || d == Down ==> Col(Cell(d, l, k)) == Col(Cell(d, l, 0))
  {
    DivMod4(l, k);
    DivMod4(3 - l, 3 - k);
    DivMod4(k, l);
    DivMod4(3 - k, 3 - l);
    DivMod4(l, 0);
    DivMod4(3 - l, 3);
    DivMod4(0, l);
    DivMod4(3, 3 - l);
  }

  /** Within a line, one step back from position `k` is position `k - 1`. */
  lemma StepBack(d: Direction, l: nat, k: nat)
    requires l < 4 && 0 < k < 4
    ensures Cell(d, l, k) - Step(d) == Cell(d, l, k - 1)
  {
  }

  /** One step back from the edge cell of a line leaves the board for
      Up and Down and for the first line, but lands on the last cell of the
      previously scanned row for Left and Right. */
  lemma StepBackFromEdge(d: Direction, l: nat)
    requires l < 4
    ensures var p := Cell(d, l, 0) - Step(d);
      if (d == Left || d == Right) && l > 0 then p == Cell(d, l - 1, 3)
      else !(0 <= p < 16)
  {
  }
}
