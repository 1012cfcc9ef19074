/** The 16-cell board, the sums the proofs count with, the value-only
    grid equality, the annotation reset of `prepare_move`, and the board
    read in scan order. */
module Boards {
  import opened Tiles
  import opened Directions

  /** `[Option<Tile>; 16]`, row-major. */
  type Board = seq<Option<Tile>>

  // ---------------------------------------------------------------------
  // Sums over the cells
  // ---------------------------------------------------------------------

  function SumOf(f: Option<Tile> -> nat, g: Board): nat
    decreases |g|
  {
    if |g| == 0 then 0 else f(g[0]) + SumOf(f, g[1..])
  }

  lemma {:induction false} SumOfUpdate(f: Option<Tile> -> nat, g: Board, i: nat, x: Option<Tile>)
    requires i < |g|
    ensures SumOf(f, g[i := x]) + f(g[i]) == SumOf(f, g) + f(x)
  {
    if i == 0 {
      assert g[i := x][1..] == g[1..];
    } else {
      assert g[i := x][1..] == g[1..][i - 1 := x];
      SumOfUpdate(f, g[1..], i - 1, x);
    }
  }

  lemma {:induction false} SumOfPointwise(f: Option<Tile> -> nat, g: Board, h: Board)
    requires |g| == |h|
    requires forall i :: 0 <= i < |g| ==> f(g[i]) == f(h[i])
    ensures SumOf(f, g) == SumOf(f, h)
  {
    if |g| > 0 {
      assert f(g[0]) == f(h[0]);
      forall i | 0 <= i < |g[1..]|
        ensures f(g[1..][i]) == f(h[1..][i])
      {
        assert f(g[i + 1]) == f(h[i + 1]);
      }
      SumOfPointwise(f, g[1..], h[1..]);
    }
  }

  lemma {:induction false} SumOfPositive(f: Option<Tile> -> nat, g: Board)
    ensures SumOf(f, g) > 0 <==> exists i :: 0 <= i < |g| && f(g[i]) > 0
  {
    if |g| > 0 {
      SumOfPositive(f, g[1..]);
      if SumOf(f, g[1..]) > 0 {
        var i :| 0 <= i < |g[1..]| && f(g[1..][i]) > 0;
        assert f(g[i + 1]) > 0;
      }
      if exists i :: 0 <= i < |g| && f(g[i]) > 0 {
        var i :| 0 <= i < |g| && f(g[i]) > 0;
        if i > 0 {
          assert f(g[1..][i - 1]) > 0;
        }
      }
    }
  }

  lemma {:induction false} SumOfSnoc(f: Option<Tile> -> nat, g: Board, x: Option<Tile>)
    ensures SumOf(f, g + [x]) == SumOf(f, g) + f(x)
    decreases |g|
  {
    if |g| > 0 {
      assert (g + [x])[1..] == g[1..] + [x];
      SumOfSnoc(f, g[1..], x);
    }
  }

  lemma SumOfSuffix(f: Option<Tile> -> nat, g: Board, i: nat)
    requires i < |g|
    ensures SumOf(f, g[i..]) == f(g[i]) + SumOf(f, g[i + 1..])
  {
    assert g[i..][1..] == g[i + 1..];
  }

  /** A sum over 16 cells written out term by term. */
  lemma Sum16(f: Option<Tile> -> nat, g: Board)
    requires |g| == 16
    ensures SumOf(f, g) == f(g[0]) + f(g[1]) + f(g[2]) + f(g[3]) + f(g[4]) + f(g[5]) + f(g[6]) + f(g[7])
      + f(g[8]) + f(g[9]) + f(g[10]) + f(g[11]) + f(g[12]) + f(g[13]) + f(g[14]) + f(g[15])
  {
    assert g[0..] == g;
    SumOfSuffix(f, g, 0);
    SumOfSuffix(f, g, 1);
    SumOfSuffix(f, g, 2);
    SumOfSuffix(f, g, 3);
    SumOfSuffix(f, g, 4);
    SumOfSuffix(f, g, 5);
    SumOfSuffix(f, g, 6);
    SumOfSuffix(f, g, 7);
    SumOfSuffix(f, g, 8);
    SumOfSuffix(f, g, 9);
    SumOfSuffix(f, g, 10);
    SumOfSuffix(f, g, 11);
    SumOfSuffix(f, g, 12);
    SumOfSuffix(f, g, 13);
    SumOfSuffix(f, g, 14);
    SumOfSuffix(f, g, 15);
    assert g[16..] == [];
  }

  function Occupied(c: Option<Tile>): nat { if c.Some? then 1 else 0 }

  function MergedOne(c: Option<Tile>): nat { if c.Some? && c.value.state == Merged then 1 else 0 }

  function MergedValue(c: Option<Tile>): nat { if c.Some? && c.value.state == Merged then c.value.value else 0 }

  function Merged2048(c: Option<Tile>): nat
  {
    if c.Some? && c.value.state == Merged && c.value.value == 2048 then 1 else 0
  }

  function TileValue(c: Option<Tile>): nat { if c.Some? then c.value.value else 0 }

  /** Number of occupied cells. */
  function Count(g: Board): nat { SumOf(Occupied, g) }

  /** Number of tiles marked as produced by a merge. */
  function MergedCount(g: Board): nat { SumOf(MergedOne, g) }

  /** Total value of the tiles marked as produced by a merge. */
  function MergedSum(g: Board): nat { SumOf(MergedValue, g) }

  /** Number of merge products of value 2048. */
  function WinningMerges(g: Board): nat { SumOf(Merged2048, g) }

  /** Total value on the board. */
  function ValueSum(g: Board): nat { SumOf(TileValue, g) }

  predicate HasEmpty(g: Board)
  {
    exists i :: 0 <= i < |g| && g[i].None?
  }

  predicate HasMerged(g: Board, v: nat)
  {
    exists i :: 0 <= i < |g| && g[i].Some? && g[i].value.state == Merged && g[i].value.value == v
  }

  /** A board with no tile counts zero tiles. */
  lemma {:induction false} CountEmpty(g: Board)
    requires forall i :: 0 <= i < |g| ==> g[i].None?
    ensures Count(g) == 0
  {
    if |g| > 0 {
      assert forall i :: 0 <= i < |g[1..]| ==> g[1..][i] == g[i + 1];
      CountEmpty(g[1..]);
    }
  }

  /** A board has an empty cell exactly when fewer cells are occupied than
      there are cells. */
  lemma {:induction false} CountBound(g: Board)
    ensures Count(g) <= |g|
    ensures HasEmpty(g) <==> Count(g) < |g|
  {
    if |g| > 0 {
      CountBound(g[1..]);
      if HasEmpty(g[1..]) {
        var i :| 0 <= i < |g[1..]| && g[1..][i].None?;
        assert g[i + 1].None?;
      }
      if HasEmpty(g) {
        var i :| 0 <= i < |g| && g[i].None?;
        if i > 0 {
          assert g[1..][i - 1].None?;
        }
      }
    }
  }

  /** How every sum changes when cell `i` is overwritten with `x`. */
  lemma CellChange(g: Board, i: nat, x: Option<Tile>)
    requires i < |g|
    ensures Count(g[i := x]) + Occupied(g[i]) == Count(g) + Occupied(x)
    ensures MergedCount(g[i := x]) + MergedOne(g[i]) == MergedCount(g) + MergedOne(x)
    ensures MergedSum(g[i := x]) + MergedValue(g[i]) == MergedSum(g) + MergedValue(x)
    ensures WinningMerges(g[i := x]) + Merged2048(g[i]) == WinningMerges(g) + Merged2048(x)
    ensures ValueSum(g[i := x]) + TileValue(g[i]) == ValueSum(g) + TileValue(x)
  {
    SumOfUpdate(Occupied, g, i, x);
    SumOfUpdate(MergedOne, g, i, x);
    SumOfUpdate(MergedValue, g, i, x);
    SumOfUpdate(Merged2048, g, i, x);
    SumOfUpdate(TileValue, g, i, x);
  }

  // ---------------------------------------------------------------------
  // Grid equality and the annotation reset
  // ---------------------------------------------------------------------

  /** `Option<Tile>` equality with the value-only `Tile::eq`. */
  predicate SameCell(x: Option<Tile>, y: Option<Tile>)
  {
    (x.None? && y.None?) || (x.Some? && y.Some? && SameValue(x.value, y.value))
  }

  /** `GameState::eq`: the grids agree cell by cell under `SameCell`;
      score and flags are not compared. */
  predicate SameGrid(a: Board, b: Board)
  {
    |a| == |b| && forall i :: 0 <= i < |a| ==> SameCell(a[i], b[i])
  }

  /** Grids that compare equal have the same tile count and total value. */
  lemma SameGridSums(a: Board, b: Board)
    requires SameGrid(a, b)
    ensures Count(a) == Count(b) && ValueSum(a) == ValueSum(b)
  {
    SumOfPointwise(Occupied, a, b);
    SumOfPointwise(TileValue, a, b);
  }

  /** What `prepare_move` does to cell `i`: its tile is marked `New` and
      remembers `i` as its previous position. */
  function PrepareCell(c: Option<Tile>, i: nat): Option<Tile>
  {
    match c
    case None => None
    case Some(t) => Some(t.(state := New, prevPos := Some(i)))
  }

  function Prepared(g: Board): (p: Board)
    ensures |p| == |g|
  {
    seq(|g|, i requires 0 <= i < |g| => PrepareCell(g[i], i))
  }

  /** The annotation reset changes no tile as `GameState::eq` sees it,
      marks every tile `New` at its own index, and so leaves no tile
      marked `Merged`. */
  lemma PreparedFacts(g: Board)
    ensures SameGrid(Prepared(g), g)
    ensures forall i :: 0 <= i < |g| && g[i].Some? ==>
      Prepared(g)[i].value.state == New && Prepared(g)[i].value.prevPos == Some(i)
    ensures Count(Prepared(g)) == Count(g) && ValueSum(Prepared(g)) == ValueSum(g)
    ensures MergedCount(Prepared(g)) == 0 && MergedSum(Prepared(g)) == 0 && WinningMerges(Prepared(g)) == 0
  {
    var p := Prepared(g);
    var z: Board := seq(|g|, i => None);
    SumOfPointwise(MergedOne, p, z);
    SumOfPointwise(MergedValue, p, z);
    SumOfPointwise(Merged2048, p, z);
    ZeroSums(z);
    SameGridSums(p, g);
  }

  lemma {:induction false} ZeroSums(z: Board)
    requires forall i :: 0 <= i < |z| ==> z[i].None?
    ensures MergedCount(z) == 0 && MergedSum(z) == 0 && WinningMerges(z) == 0
  {
    if |z| > 0 {
      ZeroSums(z[1..]);
    }
  }

  // ---------------------------------------------------------------------
  // The board in scan order
  // ---------------------------------------------------------------------

  /** The board read in the order a move visits it: entry `4 * l + k` is
      position `k` of line `l`. */
  function Lines(d: Direction, g: Board): (h: Board)
    requires |g| == 16
    ensures |h| == 16
  {
    seq(16, r requires 0 <= r < 16 => g[Cell(d, Row(r), Col(r))])
  }

  /** The inverse: cell `i` of the board is entry `Rank(d, i)` of `h`. */
  function FromLines(d: Direction, h: Board): (g: Board)
    requires |h| == 16
    ensures |g| == 16
  {
    seq(16, i requires 0 <= i < 16 => (CoordinatesCell(d, i); h[Rank(d, i)]))
  }

  lemma LinesAt(d: Direction, g: Board, l: nat, k: nat)
    requires |g| == 16 && l < 4 && k < 4
    ensures Lines(d, g)[4 * l + k] == g[Cell(d, l, k)]
  {
    DivMod4(l, k);
  }

  /** Entry `k` of line `l` of the prepared board is the reset tile of the
      cell it reads. */
  lemma PreparedLinesAt(d: Direction, g: Board, l: nat, k: nat)
    requires |g| == 16 && l < 4 && k < 4
    ensures Lines(d, Prepared(g))[4 * l + k] == PrepareCell(g[Cell(d, l, k)], Cell(d, l, k))
  {
    LinesAt(d, Prepared(g), l, k);
  }

  lemma FromLinesAt(d: Direction, h: Board, l: nat, k: nat)
    requires |h| == 16 && l < 4 && k < 4
    ensures FromLines(d, h)[Cell(d, l, k)] == h[4 * l + k]
  {
    CellCoordinates(d, l, k);
  }

  /** Reading the board in scan order and writing it back is the identity,
      both ways round. */
  lemma LinesRoundTrip(d: Direction, g: Board, h: Board)
    requires |g| == 16 && |h| == 16
    ensures FromLines(d, Lines(d, g)) == g
    ensures Lines(d, FromLines(d, h)) == h
  {
    forall i | 0 <= i < 16
      ensures FromLines(d, Lines(d, g))[i] == g[i]
    {
      CoordinatesCell(d, i);
      LinesAt(d, g, Line(d, i), Pos(d, i));
    }
    forall r | 0 <= r < 16
      ensures Lines(d, FromLines(d, h))[r] == h[r]
    {
      Split16(r);
      LinesAt(d, FromLines(d, h), Row(r), Col(r));
      FromLinesAt(d, h, Row(r), Col(r));
    }
  }

  /** Writing cell (l, k) of the board writes entry 4 * l + k in scan order. */
  lemma LinesUpdate(d: Direction, g: Board, l: nat, k: nat, x: Option<Tile>)
    requires |g| == 16 && l < 4 && k < 4
    ensures Lines(d, g[Cell(d, l, k) := x]) == Lines(d, g)[4 * l + k := x]
  {
    var g' := g[Cell(d, l, k) := x];
    var h := Lines(d, g');
    var h' := Lines(d, g)[4 * l + k := x];
    forall r | 0 <= r < 16
      ensures h[r] == h'[r]
    {
      Split16(r);
      LinesAt(d, g', Row(r), Col(r));
      LinesAt(d, g, Row(r), Col(r));
      CellInjective(d, Row(r), Col(r), l, k);
    }
  }

  /** Sums that ignore the position of a cell do not see the reordering. */
  lemma SumOfLines(f: Option<Tile> -> nat, d: Direction, g: Board)
    requires |g| == 16
    ensures SumOf(f, Lines(d, g)) == SumOf(f, g)
  {
    match d
    case Left => LinesLeft(g);
    case Right => SumRight(f, g);
    case Up => SumUp(f, g);
    case Down => SumDown(f, g);
  }

  lemma SumRight(f: Option<Tile> -> nat, g: Board)
    requires |g| == 16
    ensures SumOf(f, Lines(Right, g)) == SumOf(f, g)
  {
    var h := Lines(Right, g);
    LinesRight(g);
    Sum16(f, g);
    Sum16(f, h);
    assert SumOf(f, h) == f(g[15]) + f(g[14]) + f(g[13]) + f(g[12]) + f(g[11]) + f(g[10]) + f(g[9]) + f(g[8])
      + f(g[7]) + f(g[6]) + f(g[5]) + f(g[4]) + f(g[3]) + f(g[2]) + f(g[1]) + f(g[0]);
  }

  lemma SumUp(f: Option<Tile> -> nat, g: Board)
    requires |g| == 16
    ensures SumOf(f, Lines(Up, g)) == SumOf(f, g)
  {
    var h := Lines(Up, g);
    LinesUp(g);
    Sum16(f, g);
    Sum16(f, h);
    assert SumOf(f, h) == f(g[0]) + f(g[4]) + f(g[8]) + f(g[12]) + f(g[1]) + f(g[5]) + f(g[9]) + f(g[13])
      + f(g[2]) + f(g[6]) + f(g[10]) + f(g[14]) + f(g[3]) + f(g[7]) + f(g[11]) + f(g[15]);
  }

  lemma SumDown(f: Option<Tile> -> nat, g: Board)
    requires |g| == 16
    ensures SumOf(f, Lines(Down, g)) == SumOf(f, g)
  {
    var h := Lines(Down, g);
    LinesDown(g);
    Sum16(f, g);
    Sum16(f, h);
    assert SumOf(f, h) == f(g[15]) + f(g[11]) + f(g[7]) + f(g[3]) + f(g[14]) + f(g[10]) + f(g[6]) + f(g[2])
      + f(g[13]) + f(g[9]) + f(g[5]) + f(g[1]) + f(g[12]) + f(g[8]) + f(g[4]) + f(g[0]);
  }

  /** The sixteen entries of `Lines(d, g)`, one direction at a time. */
  lemma LinesEntries(d: Direction, g: Board)
    requires |g| == 16
    ensures var h := Lines(d, g);
      match d
      case Left => h == g
      case Right => h == [g[15], g[14], g[13], g[12], g[11], g[10], g[9], g[8],
                          g[7], g[6], g[5], g[4], g[3], g[2], g[1], g[0]]
      case Up => h == [g[0], g[4], g[8], g[12], g[1], g[5], g[9], g[13],
                       g[2], g[6], g[10], g[14], g[3], g[7], g[11], g[15]]
      case Down => h == [g[15], g[11], g[7], g[3], g[14], g[10], g[6], g[2],
                         g[13], g[9], g[5], g[1], g[12], g[8], g[4], g[0]]
  {
    match d
    case Left => LinesLeft(g);
    case Right => LinesRight(g);
    case Up => LinesUp(g);
    case Down => LinesDown(g);
  }

  lemma LinesLeft(g: Board)
    requires |g| == 16
    ensures Lines(Left, g) == g
  {
  }

  lemma LinesRight(g: Board)
    requires |g| == 16
    ensures Lines(Right, g) == [g[15], g[14], g[13], g[12], g[11], g[10], g[9], g[8],
                                g[7], g[6], g[5], g[4], g[3], g[2], g[1], g[0]]
  {
  }

  lemma LinesUp(g: Board)
    requires |g| == 16
    ensures Lines(Up, g) == [g[0], g[4], g[8], g[12], g[1], g[5], g[9], g[13],
                             g[2], g[6], g[10], g[14], g[3], g[7], g[11], g[15]]
  {
  }

  lemma LinesDown(g: Board)
    requires |g| == 16
    ensures Lines(Down, g) == [g[15], g[11], g[7], g[3], g[14], g[10], g[6], g[2],
                               g[13], g[9], g[5], g[1], g[12], g[8], g[4], g[0]]
  {
  }

  lemma CountsOfLines(d: Direction, g: Board)
    requires |g| == 16
    ensures Count(Lines(d, g)) == Count(g) && MergedCount(Lines(d, g)) == MergedCount(g)
    ensures MergedSum(Lines(d, g)) == MergedSum(g) && WinningMerges(Lines(d, g)) == WinningMerges(g)
    ensures ValueSum(Lines(d, g)) == ValueSum(g)
  {
    SumOfLines(Occupied, d, g);
    SumOfLines(MergedOne, d, g);
    SumOfLines(MergedValue, d, g);
    SumOfLines(Merged2048, d, g);
    SumOfLines(TileValue, d, g);
  }

  /** Two successive writes, read back in scan order. */
  lemma LinesUpdate2(d: Direction, g: Board, l: nat, k: nat, x: Option<Tile>, l': nat, k': nat, y: Option<Tile>)
    requires |g| == 16 && l < 4 && k < 4 && l' < 4 && k' < 4
    ensures Lines(d, g[Cell(d, l, k) := x][Cell(d, l', k') := y]) == Lines(d, g)[4 * l + k := x][4 * l' + k' := y]
  {
    LinesUpdate(d, g, l, k, x);
    LinesUpdate(d, g[Cell(d, l, k) := x], l', k', y);
  }

  /** Comparing two boards is comparing them in scan order. */
  lemma SameGridLines(d: Direction, h: Board, g: Board)
    requires |h| == 16 && |g| == 16
    ensures SameGrid(FromLines(d, h), g) <==> SameGrid(h, Lines(d, g))
  {
    if SameGrid(FromLines(d, h), g) {
      forall r | 0 <= r < 16
        ensures SameCell(h[r], Lines(d, g)[r])
      {
        Split16(r);
        LinesAt(d, g, Row(r), Col(r));
        FromLinesAt(d, h, Row(r), Col(r));
      }
    }
    if SameGrid(h, Lines(d, g)) {
      forall i | 0 <= i < 16
        ensures SameCell(FromLines(d, h)[i], g[i])
      {
        CoordinatesCell(d, i);
        LinesAt(d, g, Line(d, i), Pos(d, i));
        FromLinesAt(d, h, Line(d, i), Pos(d, i));
      }
    }
  }
}
