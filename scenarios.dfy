/** The unit tests of `move_tiles` in src/game_state.rs, replayed on the
    model. Each test starts a game from a table of values, moves it, and
    compares the outcome with the expected table; here the comparison is
    proved for every outcome of the random draws.

    Every move is spelled out step by step so that the verifier can check
    it by evaluation: the board as `prepare_move` leaves it, the same board
    read in scan order, the scan state after each line, and the result
    written back to the board. Tiles are written `Ready(v, i)` before the
    scan reaches them, `Kept(v, i)` once left in place or slid, and
    `Joined(v, i)` for a merge product, where `i` is the cell the tile
    stood on before the move. */
module Scenarios {
  import opened Tiles
  import opened Directions
  import opened Boards
  import opened Engine
  import opened Game

  /** `to_grid`: a zero is an empty cell, any other value a new tile. */
  function ToGrid(vals: seq<nat>): (g: Board)
    ensures |g| == |vals|
  {
    seq(|vals|, i requires 0 <= i < |vals| => if vals[i] == 0 then None else Some(NewTile(vals[i])))
  }

  /** `from_grid`: the value of each tile, zero for an empty cell. */
  function FromGrid(g: Board): (vals: seq<nat>)
    ensures |vals| == |g|
  {
    seq(|g|, i requires 0 <= i < |g| => TileValue(g[i]))
  }

  /** The two helpers are inverse: on every table of values, and on every
      board whose tiles are new and nonzero. */
  lemma GridRoundTrip(vals: seq<nat>, g: Board)
    ensures FromGrid(ToGrid(vals)) == vals
    ensures (forall i :: 0 <= i < |g| && g[i].Some? ==> g[i].value.value > 0 && g[i].value == NewTile(g[i].value.value))
      ==> ToGrid(FromGrid(g)) == g
  {
  }

  function Ready(v: nat, i: nat): Option<Tile> { Some(Tile(v, New, Some(i))) }
  function Kept(v: nat, i: nat): Option<Tile> { Some(Tile(v, Static, Some(i))) }
  function Joined(v: nat, i: nat): Option<Tile> { Some(Tile(v, Merged, Some(i))) }

  /** Which directions let the write cursor at the edge reach back into
      the previous line. */
  lemma CrossFlags()
    ensures Crosses(AsWritten, Left) && Crosses(AsWritten, Right)
    ensures !Crosses(AsWritten, Up) && !Crosses(AsWritten, Down)
    ensures !Crosses(LineBounded, Left) && !Crosses(LineBounded, Right)
  {
  }

  /** The number of occupied cells of a 16-cell board, written out cell by cell. */
  lemma CountCells(g: Board)
    requires |g| == 16
    ensures Count(g) == Occupied(g[0]) + Occupied(g[1]) + Occupied(g[2]) + Occupied(g[3])
      + Occupied(g[4]) + Occupied(g[5]) + Occupied(g[6]) + Occupied(g[7])
      + Occupied(g[8]) + Occupied(g[9]) + Occupied(g[10]) + Occupied(g[11])
      + Occupied(g[12]) + Occupied(g[13]) + Occupied(g[14]) + Occupied(g[15])
  {
    Sum16(Occupied, g);
  }

  /** The inner loop over line `l`, evaluated two reads at a time. */
  lemma LineInHalves(cross: bool, l: nat, a: Scan, m: Scan, b: Scan)
    requires |a.h| == 16 && |m.h| == 16 && l < 4 && a.pos == 0 && m.pos <= 2
    requires Visit(cross, l, 1, Visit(cross, l, 0, a)) == m
    requires Visit(cross, l, 3, Visit(cross, l, 2, m)) == b
    ensures ScanLine(cross, l, 0, a) == b
  {
    var a1 := Visit(cross, l, 0, a);
    var m1 := Visit(cross, l, 2, m);
    assert ScanLine(cross, l, 0, a) == ScanLine(cross, l, 1, a1);
    assert ScanLine(cross, l, 1, a1) == ScanLine(cross, l, 2, m);
    assert ScanLine(cross, l, 2, m) == ScanLine(cross, l, 3, m1);
    assert ScanLine(cross, l, 3, m1) == ScanLine(cross, l, 4, b);
  }

  /** The inner loop over a line with no tile changes nothing. */
  lemma EmptyLine(cross: bool, l: nat, a: Scan)
    requires |a.h| == 16 && l < 4 && a.pos == 0
    requires a.h[4 * l].None? && a.h[4 * l + 1].None? && a.h[4 * l + 2].None? && a.h[4 * l + 3].None?
    ensures ScanLine(cross, l, 0, a) == a
  {
    assert ScanLine(cross, l, 0, a) == ScanLine(cross, l, 1, a);
    assert ScanLine(cross, l, 1, a) == ScanLine(cross, l, 2, a);
    assert ScanLine(cross, l, 2, a) == ScanLine(cross, l, 3, a);
  }

  const BasicCurr: seq<nat> := [2, 0, 0, 0,
                                0, 2, 0, 0,
                                0, 0, 2, 0,
                                0, 0, 0, 2]

  // "Basic: Left"

  const BasicLeftReady: Board :=
    [Ready(2, 0), None, None, None,
     None, Ready(2, 5), None, None,
     None, None, Ready(2, 10), None,
     None, None, None, Ready(2, 15)]
  const BasicLeft0: Scan :=
    Scan([Ready(2, 0), None, None, None,
          None, Ready(2, 5), None, None,
          None, None, Ready(2, 10), None,
          None, None, None, Ready(2, 15)],
         0, 0, false, false)
  const BasicLeft1: Scan :=
    Scan([Kept(2, 0), None, None, None,
          None, Ready(2, 5), None, None,
          None, None, Ready(2, 10), None,
          None, None, None, Ready(2, 15)],
         1, 0, false, false)
  const BasicLeft2: Scan :=
    Scan([Kept(2, 0), None, None, None,
          Kept(2, 5), None, None, None,
          None, None, Ready(2, 10), None,
          None, None, None, Ready(2, 15)],
         1, 0, false, true)
  const BasicLeft3: Scan :=
    Scan([Kept(2, 0), None, None, None,
          Kept(2, 5), None, None, None,
          Kept(2, 10), None, None, None,
          None, None, None, Ready(2, 15)],
         1, 0, false, true)
  const BasicLeft4: Scan :=
    Scan([Kept(2, 0), None, None, None,
          Kept(2, 5), None, None, None,
          Kept(2, 10), None, None, None,
          Kept(2, 15), None, None, None],
         1, 0, false, true)
  const BasicLeftGrid: Board :=
    [Kept(2, 0), None, None, None,
     Kept(2, 5), None, None, None,
     Kept(2, 10), None, None, None,
     Kept(2, 15), None, None, None]

  lemma BasicLeftPrepare(g: Board, p: Board)
    requires g == ToGrid(BasicCurr) && p == BasicLeftReady
    ensures Prepared(g) == p
  {
  }

  lemma BasicLeftStart(p: Board, s0: Scan)
    requires p == BasicLeftReady && s0 == BasicLeft0
    ensures Lines(Left, p) == s0.h
  {
    LinesLeft(p);
  }

  const BasicLeftMid0: Scan :=
    Scan([Kept(2, 0), None, None, None,
          None, Ready(2, 5), None, None,
          None, None, Ready(2, 10), None,
          None, None, None, Ready(2, 15)],
         1, 0, false, false)

  lemma BasicLeftHead0()
    ensures Visit(true, 0, 1, Visit(true, 0, 0, BasicLeft0.(pos := 0))) == BasicLeftMid0
  {
  }

  lemma BasicLeftTail0()
    ensures Visit(true, 0, 3, Visit(true, 0, 2, BasicLeftMid0)) == BasicLeft1
  {
  }

  lemma BasicLeftLine0()
    ensures ScanLine(true, 0, 0, BasicLeft0.(pos := 0)) == BasicLeft1
  {
    BasicLeftHead0();
    BasicLeftTail0();
    LineInHalves(true, 0, BasicLeft0.(pos := 0), BasicLeftMid0, BasicLeft1);
  }

  const BasicLeftMid1: Scan :=
    Scan([Kept(2, 0), None, None, None,
          Kept(2, 5), None, None, None,
          None, None, Ready(2, 10), None,
          None, None, None, Ready(2, 15)],
         1, 0, false, true)

  lemma BasicLeftHead1()
    ensures Visit(true, 1, 1, Visit(true, 1, 0, BasicLeft1.(pos := 0))) == BasicLeftMid1
  {
  }

  lemma BasicLeftTail1()
    ensures Visit(true, 1, 3, Visit(true, 1, 2, BasicLeftMid1)) == BasicLeft2
  {
  }

  lemma BasicLeftLine1()
    ensures ScanLine(true, 1, 0, BasicLeft1.(pos := 0)) == BasicLeft2
  {
    BasicLeftHead1();
    BasicLeftTail1();
    LineInHalves(true, 1, BasicLeft1.(pos := 0), BasicLeftMid1, BasicLeft2);
  }

  const BasicLeftMid2: Scan :=
    Scan([Kept(2, 0), None, None, None,
          Kept(2, 5), None, None, None,
          None, None, Ready(2, 10), None,
          None, None, None, Ready(2, 15)],
         0, 0, false, true)

  lemma BasicLeftHead2()
    ensures Visit(true, 2, 1, Visit(true, 2, 0, BasicLeft2.(pos := 0))) == BasicLeftMid2
  {
  }

  lemma BasicLeftTail2()
    ensures Visit(true, 2, 3, Visit(true, 2, 2, BasicLeftMid2)) == BasicLeft3
  {
  }

  lemma BasicLeftLine2()
    ensures ScanLine(true, 2, 0, BasicLeft2.(pos := 0)) == BasicLeft3
  {
    BasicLeftHead2();
    BasicLeftTail2();
    LineInHalves(true, 2, BasicLeft2.(pos := 0), BasicLeftMid2, BasicLeft3);
  }

  const BasicLeftMid3: Scan :=
    Scan([Kept(2, 0), None, None, None,
          Kept(2, 5), None, None, None,
          Kept(2, 10), None, None, None,
          None, None, None, Ready(2, 15)],
         0, 0, false, true)

  lemma BasicLeftHead3()
    ensures Visit(true, 3, 1, Visit(true, 3, 0, BasicLeft3.(pos := 0))) == BasicLeftMid3
  {
  }

  lemma BasicLeftTail3()
    ensures Visit(true, 3, 3, Visit(true, 3, 2, BasicLeftMid3)) == BasicLeft4
  {
  }

  lemma BasicLeftLine3()
    ensures ScanLine(true, 3, 0, BasicLeft3.(pos := 0)) == BasicLeft4
  {
    BasicLeftHead3();
    BasicLeftTail3();
    LineInHalves(true, 3, BasicLeft3.(pos := 0), BasicLeftMid3, BasicLeft4);
  }

  lemma BasicLeftScan(s0: Scan, f: Scan)
    requires s0 == BasicLeft0 && f == BasicLeft4
    ensures ScanFrom(true, 0, s0) == f
  {
    BasicLeftLine0(); BasicLeftLine1(); BasicLeftLine2(); BasicLeftLine3();
  }

  lemma BasicLeftEnd(g: Board, f: Scan)
    requires g == BasicLeftGrid && f == BasicLeft4
    ensures Lines(Left, g) == f.h
  {
    LinesLeft(g);
  }

  /** The evaluated steps, with the boards in between left unnamed. */
  lemma BasicLeftSteps(grid: Board) returns (p: Board, s0: Scan, f: Scan, g: Board)
    requires grid == ToGrid(BasicCurr)
    ensures |p| == 16 && |g| == 16
    ensures Prepared(grid) == p && s0.h == Lines(Left, p)
    ensures s0.pos == 0 && s0.score == 0 && !s0.won && !s0.moved
    ensures ScanFrom(true, 0, s0) == f && Lines(Left, g) == f.h
    ensures g == BasicLeftGrid && f.score == 0 && !f.won && f.moved
  {
    p, s0, f, g := BasicLeftReady, BasicLeft0, BasicLeft4, BasicLeftGrid;
    BasicLeftPrepare(grid, p); BasicLeftStart(p, s0); BasicLeftScan(s0, f); BasicLeftEnd(g, f);
  }

  /** What the move leaves before any spawn: the board `BasicLeftGrid`, a
      score of 0, `won` clear, and a tile moved. */
  lemma BasicLeftSlide(grid: Board)
    requires grid == ToGrid(BasicCurr)
    ensures Slide(AsWritten, Left, grid, 0, false) == Outcome(BasicLeftGrid, 0, false, true)
  {
    var p, s0, f, g := BasicLeftSteps(grid);
    CrossFlags();
    assert s0 == Scan(Lines(Left, Prepared(grid)), 0, 0, false, false);
    LinesRoundTrip(Left, g, f.h);
  }

  lemma BasicLeftValues(g: Board)
    requires g == BasicLeftGrid
    ensures FromGrid(g) == [2, 0, 0, 0,
                           2, 0, 0, 0,
                           2, 0, 0, 0,
                           2, 0, 0, 0]
  {
  }

  /** "Basic: Left" (src/game_state.rs:273-278): a new game without spawning, moved Left, ends with
      the expected values, whatever the random draws. */
  lemma BasicLeft(s: State, pick: nat, four: bool)
    requires s == NewGame(ToGrid(BasicCurr), false)
    ensures FromGrid(MoveTiles(AsWritten, s, Left, pick, four).grid)
      == [2, 0, 0, 0,
          2, 0, 0, 0,
          2, 0, 0, 0,
          2, 0, 0, 0]
  {
    BasicLeftSlide(s.grid);
    BasicLeftValues(MoveTiles(AsWritten, s, Left, pick, four).grid);
  }

  // "Basic: Right"

  const BasicRightReady: Board :=
    [Ready(2, 0), None, None, None,
     None, Ready(2, 5), None, None,
     None, None, Ready(2, 10), None,
     None, None, None, Ready(2, 15)]
  const BasicRight0: Scan :=
    Scan([Ready(2, 15), None, None, None,
          None, Ready(2, 10), None, None,
          None, None, Ready(2, 5), None,
          None, None, None, Ready(2, 0)],
         0, 0, false, false)
  const BasicRight1: Scan :=
    Scan([Kept(2, 15), None, None, None,
          None, Ready(2, 10), None, None,
          None, None, Ready(2, 5), None,
          None, None, None, Ready(2, 0)],
         1, 0, false, false)
  const BasicRight2: Scan :=
    Scan([Kept(2, 15), None, None, None,
          Kept(2, 10), None, None, None,
          None, None, Ready(2, 5), None,
          None, None, None, Ready(2, 0)],
         1, 0, false, true)
  const BasicRight3: Scan :=
    Scan([Kept(2, 15), None, None, None,
          Kept(2, 10), None, None, None,
          Kept(2, 5), None, None, None,
          None, None, None, Ready(2, 0)],
         1, 0, false, true)
  const BasicRight4: Scan :=
    Scan([Kept(2, 15), None, None, None,
          Kept(2, 10), None, None, None,
          Kept(2, 5), None, None, None,
          Kept(2, 0), None, None, None],
         1, 0, false, true)
  const BasicRightGrid: Board :=
    [None, None, None, Kept(2, 0),
     None, None, None, Kept(2, 5),
     None, None, None, Kept(2, 10),
     None, None, None, Kept(2, 15)]

  lemma BasicRightPrepare(g: Board, p: Board)
    requires g == ToGrid(BasicCurr) && p == BasicRightReady
    ensures Prepared(g) == p
  {
  }

  lemma BasicRightStart(p: Board, s0: Scan)
    requires p == BasicRightReady && s0 == BasicRight0
    ensures Lines(Right, p) == s0.h
  {
    LinesRight(p);
    assert s0.h == [p[15], p[14], p[13], p[12], p[11], p[10], p[9], p[8],
                    p[7], p[6], p[5], p[4], p[3], p[2], p[1], p[0]];
  }

  const BasicRightMid0: Scan :=
    Scan([Kept(2, 15), None, None, None,
          None, Ready(2, 10), None, None,
          None, None, Ready(2, 5), None,
          None, None, None, Ready(2, 0)],
         1, 0, false, false)

  lemma BasicRightHead0()
    ensures Visit(true, 0, 1, Visit(true, 0, 0, BasicRight0.(pos := 0))) == BasicRightMid0
  {
  }

  lemma BasicRightTail0()
    ensures Visit(true, 0, 3, Visit(true, 0, 2, BasicRightMid0)) == BasicRight1
  {
  }

  lemma BasicRightLine0()
    ensures ScanLine(true, 0, 0, BasicRight0.(pos := 0)) == BasicRight1
  {
    BasicRightHead0();
    BasicRightTail0();
    LineInHalves(true, 0, BasicRight0.(pos := 0), BasicRightMid0, BasicRight1);
  }

  const BasicRightMid1: Scan :=
    Scan([Kept(2, 15), None, None, None,
          Kept(2, 10), None, None, None,
          None, None, Ready(2, 5), None,
          None, None, None, Ready(2, 0)],
         1, 0, false, true)

  lemma BasicRightHead1()
    ensures Visit(true, 1, 1, Visit(true, 1, 0, BasicRight1.(pos := 0))) == BasicRightMid1
  {
  }

  lemma BasicRightTail1()
    ensures Visit(true, 1, 3, Visit(true, 1, 2, BasicRightMid1)) == BasicRight2
  {
  }

  lemma BasicRightLine1()
    ensures ScanLine(true, 1, 0, BasicRight1.(pos := 0)) == BasicRight2
  {
    BasicRightHead1();
    BasicRightTail1();
    LineInHalves(true, 1, BasicRight1.(pos := 0), BasicRightMid1, BasicRight2);
  }

  const BasicRightMid2: Scan :=
    Scan([Kept(2, 15), None, None, None,
          Kept(2, 10), None, None, None,
          None, None, Ready(2, 5), None,
          None, None, None, Ready(2, 0)],
         0, 0, false, true)

  lemma BasicRightHead2()
    ensures Visit(true, 2, 1, Visit(true, 2, 0, BasicRight2.(pos := 0))) == BasicRightMid2
  {
  }

  lemma BasicRightTail2()
    ensures Visit(true, 2, 3, Visit(true, 2, 2, BasicRightMid2)) == BasicRight3
  {
  }

  lemma BasicRightLine2()
    ensures ScanLine(true, 2, 0, BasicRight2.(pos := 0)) == BasicRight3
  {
    BasicRightHead2();
    BasicRightTail2();
    LineInHalves(true, 2, BasicRight2.(pos := 0), BasicRightMid2, BasicRight3);
  }

  const BasicRightMid3: Scan :=
    Scan([Kept(2, 15), None, None, None,
          Kept(2, 10), None, None, None,
          Kept(2, 5), None, None, None,
          None, None, None, Ready(2, 0)],
         0, 0, false, true)

  lemma BasicRightHead3()
    ensures Visit(true, 3, 1, Visit(true, 3, 0, BasicRight3.(pos := 0))) == BasicRightMid3
  {
  }

  lemma BasicRightTail3()
    ensures Visit(true, 3, 3, Visit(true, 3, 2, BasicRightMid3)) == BasicRight4
  {
  }

  lemma BasicRightLine3()
    ensures ScanLine(true, 3, 0, BasicRight3.(pos := 0)) == BasicRight4
  {
    BasicRightHead3();
    BasicRightTail3();
    LineInHalves(true, 3, BasicRight3.(pos := 0), BasicRightMid3, BasicRight4);
  }

  lemma BasicRightScan(s0: Scan, f: Scan)
    requires s0 == BasicRight0 && f == BasicRight4
    ensures ScanFrom(true, 0, s0) == f
  {
    BasicRightLine0(); BasicRightLine1(); BasicRightLine2(); BasicRightLine3();
  }

  lemma BasicRightEnd(g: Board, f: Scan)
    requires g == BasicRightGrid && f == BasicRight4
    ensures Lines(Right, g) == f.h
  {
    LinesRight(g);
    assert f.h == [g[15], g[14], g[13], g[12], g[11], g[10], g[9], g[8],
                   g[7], g[6], g[5], g[4], g[3], g[2], g[1], g[0]];
  }

  /** The evaluated steps, with the boards in between left unnamed. */
  lemma BasicRightSteps(grid: Board) returns (p: Board, s0: Scan, f: Scan, g: Board)
    requires grid == ToGrid(BasicCurr)
    ensures |p| == 16 && |g| == 16
    ensures Prepared(grid) == p && s0.h == Lines(Right, p)
    ensures s0.pos == 0 && s0.score == 0 && !s0.won && !s0.moved
    ensures ScanFrom(true, 0, s0) == f && Lines(Right, g) == f.h
    ensures g == BasicRightGrid && f.score == 0 && !f.won && f.moved
  {
    p, s0, f, g := BasicRightReady, BasicRight0, BasicRight4, BasicRightGrid;
    BasicRightPrepare(grid, p); BasicRightStart(p, s0); BasicRightScan(s0, f); BasicRightEnd(g, f);
  }

  /** What the move leaves before any spawn: the board `BasicRightGrid`, a
      score of 0, `won` clear, and a tile moved. */
  lemma BasicRightSlide(grid: Board)
    requires grid == ToGrid(BasicCurr)
    ensures Slide(AsWritten, Right, grid, 0, false) == Outcome(BasicRightGrid, 0, false, true)
  {
    var p, s0, f, g := BasicRightSteps(grid);
    CrossFlags();
    assert s0 == Scan(Lines(Right, Prepared(grid)), 0, 0, false, false);
    LinesRoundTrip(Right, g, f.h);
  }

  lemma BasicRightValues(g: Board)
    requires g == BasicRightGrid
    ensures FromGrid(g) == [0, 0, 0, 2,
                           0, 0, 0, 2,
                           0, 0, 0, 2,
                           0, 0, 0, 2]
  {
  }

  /** "Basic: Right" (src/game_state.rs:279-284): a new game without spawning, moved Right, ends with
      the expected values, whatever the random draws. */
  lemma BasicRight(s: State, pick: nat, four: bool)
    requires s == NewGame(ToGrid(BasicCurr), false)
    ensures FromGrid(MoveTiles(AsWritten, s, Right, pick, four).grid)
      == [0, 0, 0, 2,
          0, 0, 0, 2,
          0, 0, 0, 2,
          0, 0, 0, 2]
  {
    BasicRightSlide(s.grid);
    BasicRightValues(MoveTiles(AsWritten, s, Right, pick, four).grid);
  }

  // "Basic: Up"

  const BasicUpReady: Board :=
    [Ready(2, 0), None, None, None,
     None, Ready(2, 5), None, None,
     None, None, Ready(2, 10), None,
     None, None, None, Ready(2, 15)]
  const BasicUp0: Scan :=
    Scan([Ready(2, 0), None, None, None,
          None, Ready(2, 5), None, None,
          None, None, Ready(2, 10), None,
          None, None, None, Ready(2, 15)],
         0, 0, false, false)
  const BasicUp1: Scan :=
    Scan([Kept(2, 0), None, None, None,
          None, Ready(2, 5), None, None,
          None, None, Ready(2, 10), None,
          None, None, None, Ready(2, 15)],
         1, 0, false, false)
  const BasicUp2: Scan :=
    Scan([Kept(2, 0), None, None, None,
          Kept(2, 5), None, None, None,
          None, None, Ready(2, 10), None,
          None, None, None, Ready(2, 15)],
         1, 0, false, true)
  const BasicUp3: Scan :=
    Scan([Kept(2, 0), None, None, None,
          Kept(2, 5), None, None, None,
          Kept(2, 10), None, None, None,
          None, None, None, Ready(2, 15)],
         1, 0, false, true)
  const BasicUp4: Scan :=
    Scan([Kept(2, 0), None, None, None,
          Kept(2, 5), None, None, None,
          Kept(2, 10), None, None, None,
          Kept(2, 15), None, None, None],
         1, 0, false, true)
  const BasicUpGrid: Board :=
    [Kept(2, 0), Kept(2, 5), Kept(2, 10), Kept(2, 15),
     None, None, None, None,
     None, None, None, None,
     None, None, None, None]

  lemma BasicUpPrepare(g: Board, p: Board)
    requires g == ToGrid(BasicCurr) && p == BasicUpReady
    ensures Prepared(g) == p
  {
  }

  lemma BasicUpStart(p: Board, s0: Scan)
    requires p == BasicUpReady && s0 == BasicUp0
    ensures Lines(Up, p) == s0.h
  {
    LinesUp(p);
    assert s0.h == [p[0], p[4], p[8], p[12], p[1], p[5], p[9], p[13],
                    p[2], p[6], p[10], p[14], p[3], p[7], p[11], p[15]];
  }

  const BasicUpMid0: Scan :=
    Scan([Kept(2, 0), None, None, None,
          None, Ready(2, 5), None, None,
          None, None, Ready(2, 10), None,
          None, None, None, Ready(2, 15)],
         1, 0, false, false)

  lemma BasicUpHead0()
    ensures Visit(false, 0, 1, Visit(false, 0, 0, BasicUp0.(pos := 0))) == BasicUpMid0
  {
  }

  lemma BasicUpTail0()
    ensures Visit(false, 0, 3, Visit(false, 0, 2, BasicUpMid0)) == BasicUp1
  {
  }

  lemma BasicUpLine0()
    ensures ScanLine(false, 0, 0, BasicUp0.(pos := 0)) == BasicUp1
  {
    BasicUpHead0();
    BasicUpTail0();
    LineInHalves(false, 0, BasicUp0.(pos := 0), BasicUpMid0, BasicUp1);
  }

  const BasicUpMid1: Scan :=
    Scan([Kept(2, 0), None, None, None,
          Kept(2, 5), None, None, None,
          None, None, Ready(2, 10), None,
          None, None, None, Ready(2, 15)],
         1, 0, false, true)

  lemma BasicUpHead1()
    ensures Visit(false, 1, 1, Visit(false, 1, 0, BasicUp1.(pos := 0))) == BasicUpMid1
  {
  }

  lemma BasicUpTail1()
    ensures Visit(false, 1, 3, Visit(false, 1, 2, BasicUpMid1)) == BasicUp2
  {
  }

  lemma BasicUpLine1()
    ensures ScanLine(false, 1, 0, BasicUp1.(pos := 0)) == BasicUp2
  {
    BasicUpHead1();
    BasicUpTail1();
    LineInHalves(false, 1, BasicUp1.(pos := 0), BasicUpMid1, BasicUp2);
  }

  const BasicUpMid2: Scan :=
    Scan([Kept(2, 0), None, None, None,
          Kept(2, 5), None, None, None,
          None, None, Ready(2, 10), None,
          None, None, None, Ready(2, 15)],
         0, 0, false, true)

  lemma BasicUpHead2()
    ensures Visit(false, 2, 1, Visit(false, 2, 0, BasicUp2.(pos := 0))) == BasicUpMid2
  {
  }

  lemma BasicUpTail2()
    ensures Visit(false, 2, 3, Visit(false, 2, 2, BasicUpMid2)) == BasicUp3
  {
  }

  lemma BasicUpLine2()
    ensures ScanLine(false, 2, 0, BasicUp2.(pos := 0)) == BasicUp3
  {
    BasicUpHead2();
    BasicUpTail2();
    LineInHalves(false, 2, BasicUp2.(pos := 0), BasicUpMid2, BasicUp3);
  }

  const BasicUpMid3: Scan :=
    Scan([Kept(2, 0), None, None, None,
          Kept(2, 5), None, None, None,
          Kept(2, 10), None, None, None,
          None, None, None, Ready(2, 15)],
         0, 0, false, true)

  lemma BasicUpHead3()
    ensures Visit(false, 3, 1, Visit(false, 3, 0, BasicUp3.(pos := 0))) == BasicUpMid3
  {
  }

  lemma BasicUpTail3()
    ensures Visit(false, 3, 3, Visit(false, 3, 2, BasicUpMid3)) == BasicUp4
  {
  }

  lemma BasicUpLine3()
    ensures ScanLine(false, 3, 0, BasicUp3.(pos := 0)) == BasicUp4
  {
    BasicUpHead3();
    BasicUpTail3();
    LineInHalves(false, 3, BasicUp3.(pos := 0), BasicUpMid3, BasicUp4);
  }

  lemma BasicUpScan(s0: Scan, f: Scan)
    requires s0 == BasicUp0 && f == BasicUp4
    ensures ScanFrom(false, 0, s0) == f
  {
    BasicUpLine0(); BasicUpLine1(); BasicUpLine2(); BasicUpLine3();
  }

  lemma BasicUpEnd(g: Board, f: Scan)
    requires g == BasicUpGrid && f == BasicUp4
    ensures Lines(Up, g) == f.h
  {
    LinesUp(g);
    assert f.h == [g[0], g[4], g[8], g[12], g[1], g[5], g[9], g[13],
                   g[2], g[6], g[10], g[14], g[3], g[7], g[11], g[15]];
  }

  /** The evaluated steps, with the boards in between left unnamed. */
  lemma BasicUpSteps(grid: Board) returns (p: Board, s0: Scan, f: Scan, g: Board)
    requires grid == ToGrid(BasicCurr)
    ensures |p| == 16 && |g| == 16
    ensures Prepared(grid) == p && s0.h == Lines(Up, p)
    ensures s0.pos == 0 && s0.score == 0 && !s0.won && !s0.moved
    ensures ScanFrom(false, 0, s0) == f && Lines(Up, g) == f.h
    ensures g == BasicUpGrid && f.score == 0 && !f.won && f.moved
  {
    p, s0, f, g := BasicUpReady, BasicUp0, BasicUp4, BasicUpGrid;
    BasicUpPrepare(grid, p); BasicUpStart(p, s0); BasicUpScan(s0, f); BasicUpEnd(g, f);
  }

  /** What the move leaves before any spawn: the board `BasicUpGrid`, a
      score of 0, `won` clear, and a tile moved. */
  lemma BasicUpSlide(grid: Board)
    requires grid == ToGrid(BasicCurr)
    ensures Slide(AsWritten, Up, grid, 0, false) == Outcome(BasicUpGrid, 0, false, true)
  {
    var p, s0, f, g := BasicUpSteps(grid);
    CrossFlags();
    assert s0 == Scan(Lines(Up, Prepared(grid)), 0, 0, false, false);
    LinesRoundTrip(Up, g, f.h);
  }

  lemma BasicUpValues(g: Board)
    requires g == BasicUpGrid
    ensures FromGrid(g) == [2, 2, 2, 2,
                           0, 0, 0, 0,
                           0, 0, 0, 0,
                           0, 0, 0, 0]
  {
  }

  /** "Basic: Up" (src/game_state.rs:285-290): a new game without spawning, moved Up, ends with
      the expected values, whatever the random draws. */
  lemma BasicUp(s: State, pick: nat, four: bool)
    requires s == NewGame(ToGrid(BasicCurr), false)
    ensures FromGrid(MoveTiles(AsWritten, s, Up, pick, four).grid)
      == [2, 2, 2, 2,
          0, 0, 0, 0,
          0, 0, 0, 0,
          0, 0, 0, 0]
  {
    BasicUpSlide(s.grid);
    BasicUpValues(MoveTiles(AsWritten, s, Up, pick, four).grid);
  }

  // "Basic: Down"

  const BasicDownReady: Board :=
    [Ready(2, 0), None, None, None,
     None, Ready(2, 5), None, None,
     None, None, Ready(2, 10), None,
     None, None, None, Ready(2, 15)]
  const BasicDown0: Scan :=
    Scan([Ready(2, 15), None, None, None,
          None, Ready(2, 10), None, None,
          None, None, Ready(2, 5), None,
          None, None, None, Ready(2, 0)],
         0, 0, false, false)
  const BasicDown1: Scan :=
    Scan([Kept(2, 15), None, None, None,
          None, Ready(2, 10), None, None,
          None, None, Ready(2, 5), None,
          None, None, None, Ready(2, 0)],
         1, 0, false, false)
  const BasicDown2: Scan :=
    Scan([Kept(2, 15), None, None, None,
          Kept(2, 10), None, None, None,
          None, None, Ready(2, 5), None,
          None, None, None, Ready(2, 0)],
         1, 0, false, true)
  const BasicDown3: Scan :=
    Scan([Kept(2, 15), None, None, None,
          Kept(2, 10), None, None, None,
          Kept(2, 5), None, None, None,
          None, None, None, Ready(2, 0)],
         1, 0, false, true)
  const BasicDown4: Scan :=
    Scan([Kept(2, 15), None, None, None,
          Kept(2, 10), None, None, None,
          Kept(2, 5), None, None, None,
          Kept(2, 0), None, None, None],
         1, 0, false, true)
  const BasicDownGrid: Board :=
    [None, None, None, None,
     None, None, None, None,
     None, None, None, None,
     Kept(2, 0), Kept(2, 5), Kept(2, 10), Kept(2, 15)]

  lemma BasicDownPrepare(g: Board, p: Board)
    requires g == ToGrid(BasicCurr) && p == BasicDownReady
    ensures Prepared(g) == p
  {
  }

  lemma BasicDownStart(p: Board, s0: Scan)
    requires p == BasicDownReady && s0 == BasicDown0
    ensures Lines(Down, p) == s0.h
  {
    LinesDown(p);
    assert s0.h == [p[15], p[11], p[7], p[3], p[14], p[10], p[6], p[2],
                    p[13], p[9], p[5], p[1], p[12], p[8], p[4], p[0]];
  }

  const BasicDownMid0: Scan :=
    Scan([Kept(2, 15), None, None, None,
          None, Ready(2, 10), None, None,
          None, None, Ready(2, 5), None,
          None, None, None, Ready(2, 0)],
         1, 0, false, false)

  lemma BasicDownHead0()
    ensures Visit(false, 0, 1, Visit(false, 0, 0, BasicDown0.(pos := 0))) == BasicDownMid0
  {
  }

  lemma BasicDownTail0()
    ensures Visit(false, 0, 3, Visit(false, 0, 2, BasicDownMid0)) == BasicDown1
  {
  }

  lemma BasicDownLine0()
    ensures ScanLine(false, 0, 0, BasicDown0.(pos := 0)) == BasicDown1
  {
    BasicDownHead0();
    BasicDownTail0();
    LineInHalves(false, 0, BasicDown0.(pos := 0), BasicDownMid0, BasicDown1);
  }

  const BasicDownMid1: Scan :=
    Scan([Kept(2, 15), None, None, None,
          Kept(2, 10), None, None, None,
          None, None, Ready(2, 5), None,
          None, None, None, Ready(2, 0)],
         1, 0, false, true)

  lemma BasicDownHead1()
    ensures Visit(false, 1, 1, Visit(false, 1, 0, BasicDown1.(pos := 0))) == BasicDownMid1
  {
  }

  lemma BasicDownTail1()
    ensures Visit(false, 1, 3, Visit(false, 1, 2, BasicDownMid1)) == BasicDown2
  {
  }

  lemma BasicDownLine1()
    ensures ScanLine(false, 1, 0, BasicDown1.(pos := 0)) == BasicDown2
  {
    BasicDownHead1();
    BasicDownTail1();
    LineInHalves(false, 1, BasicDown1.(pos := 0), BasicDownMid1, BasicDown2);
  }

  const BasicDownMid2: Scan :=
    Scan([Kept(2, 15), None, None, None,
          Kept(2, 10), None, None, None,
          None, None, Ready(2, 5), None,
          None, None, None, Ready(2, 0)],
         0, 0, false, true)

  lemma BasicDownHead2()
    ensures Visit(false, 2, 1, Visit(false, 2, 0, BasicDown2.(pos := 0))) == BasicDownMid2
  {
  }

  lemma BasicDownTail2()
    ensures Visit(false, 2, 3, Visit(false, 2, 2, BasicDownMid2)) == BasicDown3
  {
  }

  lemma BasicDownLine2()
    ensures ScanLine(false, 2, 0, BasicDown2.(pos := 0)) == BasicDown3
  {
    BasicDownHead2();
    BasicDownTail2();
    LineInHalves(false, 2, BasicDown2.(pos := 0), BasicDownMid2, BasicDown3);
  }

  const BasicDownMid3: Scan :=
    Scan([Kept(2, 15), None, None, None,
          Kept(2, 10), None, None, None,
          Kept(2, 5), None, None, None,
          None, None, None, Ready(2, 0)],
         0, 0, false, true)

  lemma BasicDownHead3()
    ensures Visit(false, 3, 1, Visit(false, 3, 0, BasicDown3.(pos := 0))) == BasicDownMid3
  {
  }

  lemma BasicDownTail3()
    ensures Visit(false, 3, 3, Visit(false, 3, 2, BasicDownMid3)) == BasicDown4
  {
  }

  lemma BasicDownLine3()
    ensures ScanLine(false, 3, 0, BasicDown3.(pos := 0)) == BasicDown4
  {
    BasicDownHead3();
    BasicDownTail3();
    LineInHalves(false, 3, BasicDown3.(pos := 0), BasicDownMid3, BasicDown4);
  }

  lemma BasicDownScan(s0: Scan, f: Scan)
    requires s0 == BasicDown0 && f == BasicDown4
    ensures ScanFrom(false, 0, s0) == f
  {
    BasicDownLine0(); BasicDownLine1(); BasicDownLine2(); BasicDownLine3();
  }

  lemma BasicDownEnd(g: Board, f: Scan)
    requires g == BasicDownGrid && f == BasicDown4
    ensures Lines(Down, g) == f.h
  {
    LinesDown(g);
    assert f.h == [g[15], g[11], g[7], g[3], g[14], g[10], g[6], g[2],
                   g[13], g[9], g[5], g[1], g[12], g[8], g[4], g[0]];
  }

  /** The evaluated steps, with the boards in between left unnamed. */
  lemma BasicDownSteps(grid: Board) returns (p: Board, s0: Scan, f: Scan, g: Board)
    requires grid == ToGrid(BasicCurr)
    ensures |p| == 16 && |g| == 16
    ensures Prepared(grid) == p && s0.h == Lines(Down, p)
    ensures s0.pos == 0 && s0.score == 0 && !s0.won && !s0.moved
    ensures ScanFrom(false, 0, s0) == f && Lines(Down, g) == f.h
    ensures g == BasicDownGrid && f.score == 0 && !f.won && f.moved
  {
    p, s0, f, g := BasicDownReady, BasicDown0, BasicDown4, BasicDownGrid;
    BasicDownPrepare(grid, p); BasicDownStart(p, s0); BasicDownScan(s0, f); BasicDownEnd(g, f);
  }

  /** What the move leaves before any spawn: the board `BasicDownGrid`, a
      score of 0, `won` clear, and a tile moved. */
  lemma BasicDownSlide(grid: Board)
    requires grid == ToGrid(BasicCurr)
    ensures Slide(AsWritten, Down, grid, 0, false) == Outcome(BasicDownGrid, 0, false, true)
  {
    var p, s0, f, g := BasicDownSteps(grid);
    CrossFlags();
    assert s0 == Scan(Lines(Down, Prepared(grid)), 0, 0, false, false);
    LinesRoundTrip(Down, g, f.h);
  }

  lemma BasicDownValues(g: Board)
    requires g == BasicDownGrid
    ensures FromGrid(g) == [0, 0, 0, 0,
                           0, 0, 0, 0,
                           0, 0, 0, 0,
                           2, 2, 2, 2]
  {
  }

  /** "Basic: Down" (src/game_state.rs:291-296): a new game without spawning, moved Down, ends with
      the expected values, whatever the random draws. */
  lemma BasicDown(s: State, pick: nat, four: bool)
    requires s == NewGame(ToGrid(BasicCurr), false)
    ensures FromGrid(MoveTiles(AsWritten, s, Down, pick, four).grid)
      == [0, 0, 0, 0,
          0, 0, 0, 0,
          0, 0, 0, 0,
          2, 2, 2, 2]
  {
    BasicDownSlide(s.grid);
    BasicDownValues(MoveTiles(AsWritten, s, Down, pick, four).grid);
  }

  const BasicMergeCurr: seq<nat> := [2, 2, 0, 0,
                                     0, 0, 0, 0,
                                     0, 0, 0, 0,
                                     0, 0, 0, 0]

  // "Merge: Basic Merge"

  const BasicMergeReady: Board :=
    [Ready(2, 0), Ready(2, 1), None, None,
     None, None, None, None,
     None, None, None, None,
     None, None, None, None]
  const BasicMerge0: Scan :=
    Scan([Ready(2, 0), Ready(2, 1), None, None,
          None, None, None, None,
          None, None, None, None,
          None, None, None, None],
         0, 0, false, false)
  const BasicMerge1: Scan :=
    Scan([Joined(4, 0), None, None, None,
          None, None, None, None,
          None, None, None, None,
          None, None, None, None],
         1, 4, false, true)
  const BasicMerge2: Scan :=
    Scan([Joined(4, 0), None, None, None,
          None, None, None, None,
          None, None, None, None,
          None, None, None, None],
         0, 4, false, true)
  const BasicMerge3: Scan :=
    Scan([Joined(4, 0), None, None, None,
          None, None, None, None,
          None, None, None, None,
          None, None, None, None],
         0, 4, false, true)
  const BasicMerge4: Scan :=
    Scan([Joined(4, 0), None, None, None,
          None, None, None, None,
          None, None, None, None,
          None, None, None, None],
         0, 4, false, true)
  const BasicMergeGrid: Board :=
    [Joined(4, 0), None, None, None,
     None, None, None, None,
     None, None, None, None,
     None, None, None, None]

  lemma BasicMergePrepare(g: Board, p: Board)
    requires g == ToGrid(BasicMergeCurr) && p == BasicMergeReady
    ensures Prepared(g) == p
  {
  }

  lemma BasicMergeStart(p: Board, s0: Scan)
    requires p == BasicMergeReady && s0 == BasicMerge0
    ensures Lines(Left, p) == s0.h
  {
    LinesLeft(p);
  }

  const BasicMergeMid0: Scan :=
    Scan([Joined(4, 0), None, None, None,
          None, None, None, None,
          None, None, None, None,
          None, None, None, None],
         1, 4, false, true)

  lemma BasicMergeHead0()
    ensures Visit(true, 0, 1, Visit(true, 0, 0, BasicMerge0.(pos := 0))) == BasicMergeMid0
  {
  }

  lemma BasicMergeTail0()
    ensures Visit(true, 0, 3, Visit(true, 0, 2, BasicMergeMid0)) == BasicMerge1
  {
  }

  lemma BasicMergeLine0()
    ensures ScanLine(true, 0, 0, BasicMerge0.(pos := 0)) == BasicMerge1
  {
    BasicMergeHead0();
    BasicMergeTail0();
    LineInHalves(true, 0, BasicMerge0.(pos := 0), BasicMergeMid0, BasicMerge1);
  }

  lemma BasicMergeLine1()
    ensures ScanLine(true, 1, 0, BasicMerge1.(pos := 0)) == BasicMerge2
  {
    EmptyLine(true, 1, BasicMerge1.(pos := 0));
  }

  lemma BasicMergeLine2()
    ensures ScanLine(true, 2, 0, BasicMerge2.(pos := 0)) == BasicMerge3
  {
    EmptyLine(true, 2, BasicMerge2.(pos := 0));
  }

  lemma BasicMergeLine3()
    ensures ScanLine(true, 3, 0, BasicMerge3.(pos := 0)) == BasicMerge4
  {
    EmptyLine(true, 3, BasicMerge3.(pos := 0));
  }

  lemma BasicMergeScan(s0: Scan, f: Scan)
    requires s0 == BasicMerge0 && f == BasicMerge4
    ensures ScanFrom(true, 0, s0) == f
  {
    BasicMergeLine0(); BasicMergeLine1(); BasicMergeLine2(); BasicMergeLine3();
  }

  lemma BasicMergeEnd(g: Board, f: Scan)
    requires g == BasicMergeGrid && f == BasicMerge4
    ensures Lines(Left, g) == f.h
  {
    LinesLeft(g);
  }

  /** The evaluated steps, with the boards in between left unnamed. */
  lemma BasicMergeSteps(grid: Board) returns (p: Board, s0: Scan, f: Scan, g: Board)
    requires grid == ToGrid(BasicMergeCurr)
    ensures |p| == 16 && |g| == 16
    ensures Prepared(grid) == p && s0.h == Lines(Left, p)
    ensures s0.pos == 0 && s0.score == 0 && !s0.won && !s0.moved
    ensures ScanFrom(true, 0, s0) == f && Lines(Left, g) == f.h
    ensures g == BasicMergeGrid && f.score == 4 && !f.won && f.moved
  {
    p, s0, f, g := BasicMergeReady, BasicMerge0, BasicMerge4, BasicMergeGrid;
    BasicMergePrepare(grid, p); BasicMergeStart(p, s0); BasicMergeScan(s0, f); BasicMergeEnd(g, f);
  }

  /** What the move leaves before any spawn: the board `BasicMergeGrid`, a
      score of 4, `won` clear, and a tile moved. */
  lemma BasicMergeSlide(grid: Board)
    requires grid == ToGrid(BasicMergeCurr)
    ensures Slide(AsWritten, Left, grid, 0, false) == Outcome(BasicMergeGrid, 4, false, true)
  {
    var p, s0, f, g := BasicMergeSteps(grid);
    CrossFlags();
    assert s0 == Scan(Lines(Left, Prepared(grid)), 0, 0, false, false);
    LinesRoundTrip(Left, g, f.h);
  }

  lemma BasicMergeValues(g: Board)
    requires g == BasicMergeGrid
    ensures FromGrid(g) == [4, 0, 0, 0,
                           0, 0, 0, 0,
                           0, 0, 0, 0,
                           0, 0, 0, 0]
  {
  }

  /** "Merge: Basic Merge" (src/game_state.rs:321-326): a new game without spawning, moved Left, ends with
      the expected values, whatever the random draws. */
  lemma BasicMerge(s: State, pick: nat, four: bool)
    requires s == NewGame(ToGrid(BasicMergeCurr), false)
    ensures FromGrid(MoveTiles(AsWritten, s, Left, pick, four).grid)
      == [4, 0, 0, 0,
          0, 0, 0, 0,
          0, 0, 0, 0,
          0, 0, 0, 0]
  {
    BasicMergeSlide(s.grid);
    BasicMergeValues(MoveTiles(AsWritten, s, Left, pick, four).grid);
  }

  const NotMergeCurr: seq<nat> := [2, 0, 0, 0,
                                   0, 0, 0, 0,
                                   4, 0, 0, 0,
                                   0, 0, 0, 0]

  // "Merge: Not Merge"

  const NotMergeReady: Board :=
    [Ready(2, 0), None, None, None,
     None, None, None, None,
     Ready(4, 8), None, None, None,
     None, None, None, None]
  const NotMerge0: Scan :=
    Scan([Ready(2, 0), None, Ready(4, 8), None,
          None, None, None, None,
          None, None, None, None,
          None, None, None, None],
         0, 0, false, false)
  const NotMerge1: Scan :=
    Scan([Kept(2, 0), Kept(4, 8), None, None,
          None, None, None, None,
          None, None, None, None,
          None, None, None, None],
         2, 0, false, true)
  const NotMerge2: Scan :=
    Scan([Kept(2, 0), Kept(4, 8), None, None,
          None, None, None, None,
          None, None, None, None,
          None, None, None, None],
         0, 0, false, true)
  const NotMerge3: Scan :=
    Scan([Kept(2, 0), Kept(4, 8), None, None,
          None, None, None, None,
          None, None, None, None,
          None, None, None, None],
         0, 0, false, true)
  const NotMerge4: Scan :=
    Scan([Kept(2, 0), Kept(4, 8), None, None,
          None, None, None, None,
          None, None, None, None,
          None, None, None, None],
         0, 0, false, true)
  const NotMergeGrid: Board :=
    [Kept(2, 0), None, None, None,
     Kept(4, 8), None, None, None,
     None, None, None, None,
     None, None, None, None]

  lemma NotMergePrepare(g: Board, p: Board)
    requires g == ToGrid(NotMergeCurr) && p == NotMergeReady
    ensures Prepared(g) == p
  {
  }

  lemma NotMergeStart(p: Board, s0: Scan)
    requires p == NotMergeReady && s0 == NotMerge0
    ensures Lines(Up, p) == s0.h
  {
    LinesUp(p);
    assert s0.h == [p[0], p[4], p[8], p[12], p[1], p[5], p[9], p[13],
                    p[2], p[6], p[10], p[14], p[3], p[7], p[11], p[15]];
  }

  const NotMergeMid0: Scan :=
    Scan([Kept(2, 0), None, Ready(4, 8), None,
          None, None, None, None,
          None, None, None, None,
          None, None, None, None],
         1, 0, false, false)

  lemma NotMergeHead0()
    ensures Visit(false, 0, 1, Visit(false, 0, 0, NotMerge0.(pos := 0))) == NotMergeMid0
  {
  }

  lemma NotMergeTail0()
    ensures Visit(false, 0, 3, Visit(false, 0, 2, NotMergeMid0)) == NotMerge1
  {
  }

  lemma NotMergeLine0()
    ensures ScanLine(false, 0, 0, NotMerge0.(pos := 0)) == NotMerge1
  {
    NotMergeHead0();
    NotMergeTail0();
    LineInHalves(false, 0, NotMerge0.(pos := 0), NotMergeMid0, NotMerge1);
  }

  lemma NotMergeLine1()
    ensures ScanLine(false, 1, 0, NotMerge1.(pos := 0)) == NotMerge2
  {
    EmptyLine(false, 1, NotMerge1.(pos := 0));
  }

  lemma NotMergeLine2()
    ensures ScanLine(false, 2, 0, NotMerge2.(pos := 0)) == NotMerge3
  {
    EmptyLine(false, 2, NotMerge2.(pos := 0));
  }

  lemma NotMergeLine3()
    ensures ScanLine(false, 3, 0, NotMerge3.(pos := 0)) == NotMerge4
  {
    EmptyLine(false, 3, NotMerge3.(pos := 0));
  }

  lemma NotMergeScan(s0: Scan, f: Scan)
    requires s0 == NotMerge0 && f == NotMerge4
    ensures ScanFrom(false, 0, s0) == f
  {
    NotMergeLine0(); NotMergeLine1(); NotMergeLine2(); NotMergeLine3();
  }

  lemma NotMergeEnd(g: Board, f: Scan)
    requires g == NotMergeGrid && f == NotMerge4
    ensures Lines(Up, g) == f.h
  {
    LinesUp(g);
    assert f.h == [g[0], g[4], g[8], g[12], g[1], g[5], g[9], g[13],
                   g[2], g[6], g[10], g[14], g[3], g[7], g[11], g[15]];
  }

  /** The evaluated steps, with the boards in between left unnamed. */
  lemma NotMergeSteps(grid: Board) returns (p: Board, s0: Scan, f: Scan, g: Board)
    requires grid == ToGrid(NotMergeCurr)
    ensures |p| == 16 && |g| == 16
    ensures Prepared(grid) == p && s0.h == Lines(Up, p)
    ensures s0.pos == 0 && s0.score == 0 && !s0.won && !s0.moved
    ensures ScanFrom(false, 0, s0) == f && Lines(Up, g) == f.h
    ensures g == NotMergeGrid && f.score == 0 && !f.won && f.moved
  {
    p, s0, f, g := NotMergeReady, NotMerge0, NotMerge4, NotMergeGrid;
    NotMergePrepare(grid, p); NotMergeStart(p, s0); NotMergeScan(s0, f); NotMergeEnd(g, f);
  }

  /** What the move leaves before any spawn: the board `NotMergeGrid`, a
      score of 0, `won` clear, and a tile moved. */
  lemma NotMergeSlide(grid: Board)
    requires grid == ToGrid(NotMergeCurr)
    ensures Slide(AsWritten, Up, grid, 0, false) == Outcome(NotMergeGrid, 0, false, true)
  {
    var p, s0, f, g := NotMergeSteps(grid);
    CrossFlags();
    assert s0 == Scan(Lines(Up, Prepared(grid)), 0, 0, false, false);
    LinesRoundTrip(Up, g, f.h);
  }

  lemma NotMergeValues(g: Board)
    requires g == NotMergeGrid
    ensures FromGrid(g) == [2, 0, 0, 0,
                           4, 0, 0, 0,
                           0, 0, 0, 0,
                           0, 0, 0, 0]
  {
  }

  /** "Merge: Not Merge" (src/game_state.rs:327-332): a new game without spawning, moved Up, ends with
      the expected values, whatever the random draws. */
  lemma NotMerge(s: State, pick: nat, four: bool)
    requires s == NewGame(ToGrid(NotMergeCurr), false)
    ensures FromGrid(MoveTiles(AsWritten, s, Up, pick, four).grid)
      == [2, 0, 0, 0,
          4, 0, 0, 0,
          0, 0, 0, 0,
          0, 0, 0, 0]
  {
    NotMergeSlide(s.grid);
    NotMergeValues(MoveTiles(AsWritten, s, Up, pick, four).grid);
  }

  const MergeTwiceCurr: seq<nat> := [2, 2, 4, 0,
                                     0, 0, 0, 0,
                                     0, 0, 0, 0,
                                     0, 0, 0, 0]

  // "Merge: Merge Twice", move 1: Left

  const MergeTwiceLeftReady: Board :=
    [Ready(2, 0), Ready(2, 1), Ready(4, 2), None,
     None, None, None, None,
     None, None, None, None,
     None, None, None, None]
  const MergeTwiceLeft0: Scan :=
    Scan([Ready(2, 0), Ready(2, 1), Ready(4, 2), None,
          None, None, None, None,
          None, None, None, None,
          None, None, None, None],
         0, 0, false, false)
  const MergeTwiceLeft1: Scan :=
    Scan([Joined(4, 0), Kept(4, 2), None, None,
          None, None, None, None,
          None, None, None, None,
          None, None, None, None],
         2, 4, false, true)
  const MergeTwiceLeft2: Scan :=
    Scan([Joined(4, 0), Kept(4, 2), None, None,
          None, None, None, None,
          None, None, None, None,
          None, None, None, None],
         0, 4, false, true)
  const MergeTwiceLeft3: Scan :=
    Scan([Joined(4, 0), Kept(4, 2), None, None,
          None, None, None, None,
          None, None, None, None,
          None, None, None, None],
         0, 4, false, true)
  const MergeTwiceLeft4: Scan :=
    Scan([Joined(4, 0), Kept(4, 2), None, None,
          None, None, None, None,
          None, None, None, None,
          None, None, None, None],
         0, 4, false, true)
  const MergeTwiceLeftGrid: Board :=
    [Joined(4, 0), Kept(4, 2), None, None,
     None, None, None, None,
     None, None, None, None,
     None, None, None, None]

  lemma MergeTwiceLeftPrepare(g: Board, p: Board)
    requires g == ToGrid(MergeTwiceCurr) && p == MergeTwiceLeftReady
    ensures Prepared(g) == p
  {
  }

  lemma MergeTwiceLeftStart(p: Board, s0: Scan)
    requires p == MergeTwiceLeftReady && s0 == MergeTwiceLeft0
    ensures Lines(Left, p) == s0.h
  {
    LinesLeft(p);
  }

  const MergeTwiceLeftMid0: Scan :=
    Scan([Joined(4, 0), None, Ready(4, 2), None,
          None, None, None, None,
          None, None, None, None,
          None, None, None, None],
         1, 4, false, true)

  lemma MergeTwiceLeftHead0()
    ensures Visit(true, 0, 1, Visit(true, 0, 0, MergeTwiceLeft0.(pos := 0))) == MergeTwiceLeftMid0
  {
  }

  lemma MergeTwiceLeftTail0()
    ensures Visit(true, 0, 3, Visit(true, 0, 2, MergeTwiceLeftMid0)) == MergeTwiceLeft1
  {
  }

  lemma MergeTwiceLeftLine0()
    ensures ScanLine(true, 0, 0, MergeTwiceLeft0.(pos := 0)) == MergeTwiceLeft1
  {
    MergeTwiceLeftHead0();
    MergeTwiceLeftTail0();
    LineInHalves(true, 0, MergeTwiceLeft0.(pos := 0), MergeTwiceLeftMid0, MergeTwiceLeft1);
  }

  lemma MergeTwiceLeftLine1()
    ensures ScanLine(true, 1, 0, MergeTwiceLeft1.(pos := 0)) == MergeTwiceLeft2
  {
    EmptyLine(true, 1, MergeTwiceLeft1.(pos := 0));
  }

  lemma MergeTwiceLeftLine2()
    ensures ScanLine(true, 2, 0, MergeTwiceLeft2.(pos := 0)) == MergeTwiceLeft3
  {
    EmptyLine(true, 2, MergeTwiceLeft2.(pos := 0));
  }

  lemma MergeTwiceLeftLine3()
    ensures ScanLine(true, 3, 0, MergeTwiceLeft3.(pos := 0)) == MergeTwiceLeft4
  {
    EmptyLine(true, 3, MergeTwiceLeft3.(pos := 0));
  }

  lemma MergeTwiceLeftScan(s0: Scan, f: Scan)
    requires s0 == MergeTwiceLeft0 && f == MergeTwiceLeft4
    ensures ScanFrom(true, 0, s0) == f
  {
    MergeTwiceLeftLine0(); MergeTwiceLeftLine1(); MergeTwiceLeftLine2(); MergeTwiceLeftLine3();
  }

  lemma MergeTwiceLeftEnd(g: Board, f: Scan)
    requires g == MergeTwiceLeftGrid && f == MergeTwiceLeft4
    ensures Lines(Left, g) == f.h
  {
    LinesLeft(g);
  }

  /** The evaluated steps, with the boards in between left unnamed. */
  lemma MergeTwiceLeftSteps(grid: Board) returns (p: Board, s0: Scan, f: Scan, g: Board)
    requires grid == ToGrid(MergeTwiceCurr)
    ensures |p| == 16 && |g| == 16
    ensures Prepared(grid) == p && s0.h == Lines(Left, p)
    ensures s0.pos == 0 && s0.score == 0 && !s0.won && !s0.moved
    ensures ScanFrom(true, 0, s0) == f && Lines(Left, g) == f.h
    ensures g == MergeTwiceLeftGrid && f.score == 4 && !f.won && f.moved
  {
    p, s0, f, g := MergeTwiceLeftReady, MergeTwiceLeft0, MergeTwiceLeft4, MergeTwiceLeftGrid;
    MergeTwiceLeftPrepare(grid, p); MergeTwiceLeftStart(p, s0); MergeTwiceLeftScan(s0, f); MergeTwiceLeftEnd(g, f);
  }

  /** What the move leaves before any spawn: the board `MergeTwiceLeftGrid`, a
      score of 4, `won` clear, and a tile moved. */
  lemma MergeTwiceLeftSlide(grid: Board)
    requires grid == ToGrid(MergeTwiceCurr)
    ensures Slide(AsWritten, Left, grid, 0, false) == Outcome(MergeTwiceLeftGrid, 4, false, true)
  {
    var p, s0, f, g := MergeTwiceLeftSteps(grid);
    CrossFlags();
    assert s0 == Scan(Lines(Left, Prepared(grid)), 0, 0, false, false);
    LinesRoundTrip(Left, g, f.h);
  }

  // "Merge: Merge Twice", move 2: Right

  const MergeTwiceRightReady: Board :=
    [Ready(4, 0), Ready(4, 1), None, None,
     None, None, None, None,
     None, None, None, None,
     None, None, None, None]
  const MergeTwiceRight0: Scan :=
    Scan([None, None, None, None,
          None, None, None, None,
          None, None, None, None,
          None, None, Ready(4, 1), Ready(4, 0)],
         0, 4, false, false)
  const MergeTwiceRight1: Scan :=
    Scan([None, None, None, None,
          None, None, None, None,
          None, None, None, None,
          None, None, Ready(4, 1), Ready(4, 0)],
         0, 4, false, false)
  const MergeTwiceRight2: Scan :=
    Scan([None, None, None, None,
          None, None, None, None,
          None, None, None, None,
          None, None, Ready(4, 1), Ready(4, 0)],
         0, 4, false, false)
  const MergeTwiceRight3: Scan :=
    Scan([None, None, None, None,
          None, None, None, None,
          None, None, None, None,
          None, None, Ready(4, 1), Ready(4, 0)],
         0, 4, false, false)
  const MergeTwiceRight4: Scan :=
    Scan([None, None, None, None,
          None, None, None, None,
          None, None, None, None,
          Joined(8, 1), None, None, None],
         1, 12, false, true)
  const MergeTwiceRightGrid: Board :=
    [None, None, None, Joined(8, 1),
     None, None, None, None,
     None, None, None, None,
     None, None, None, None]

  lemma MergeTwiceRightPrepare(g: Board, p: Board)
    requires g == MergeTwiceLeftGrid && p == MergeTwiceRightReady
    ensures Prepared(g) == p
  {
  }

  lemma MergeTwiceRightStart(p: Board, s0: Scan)
    requires p == MergeTwiceRightReady && s0 == MergeTwiceRight0
    ensures Lines(Right, p) == s0.h
  {
    LinesRight(p);
    assert s0.h == [p[15], p[14], p[13], p[12], p[11], p[10], p[9], p[8],
                    p[7], p[6], p[5], p[4], p[3], p[2], p[1], p[0]];
  }

  lemma MergeTwiceRightLine0()
    ensures ScanLine(true, 0, 0, MergeTwiceRight0.(pos := 0)) == MergeTwiceRight1
  {
    EmptyLine(true, 0, MergeTwiceRight0.(pos := 0));
  }

  lemma MergeTwiceRightLine1()
    ensures ScanLine(true, 1, 0, MergeTwiceRight1.(pos := 0)) == MergeTwiceRight2
  {
    EmptyLine(true, 1, MergeTwiceRight1.(pos := 0));
  }

  lemma MergeTwiceRightLine2()
    ensures ScanLine(true, 2, 0, MergeTwiceRight2.(pos := 0)) == MergeTwiceRight3
  {
    EmptyLine(true, 2, MergeTwiceRight2.(pos := 0));
  }

  const MergeTwiceRightMid3: Scan :=
    Scan([None, None, None, None,
          None, None, None, None,
          None, None, None, None,
          None, None, Ready(4, 1), Ready(4, 0)],
         0, 4, false, false)

  lemma MergeTwiceRightHead3()
    ensures Visit(true, 3, 1, Visit(true, 3, 0, MergeTwiceRight3.(pos := 0))) == MergeTwiceRightMid3
  {
  }

  lemma MergeTwiceRightTail3()
    ensures Visit(true, 3, 3, Visit(true, 3, 2, MergeTwiceRightMid3)) == MergeTwiceRight4
  {
  }

  lemma MergeTwiceRightLine3()
    ensures ScanLine(true, 3, 0, MergeTwiceRight3.(pos := 0)) == MergeTwiceRight4
  {
    MergeTwiceRightHead3();
    MergeTwiceRightTail3();
    LineInHalves(true, 3, MergeTwiceRight3.(pos := 0), MergeTwiceRightMid3, MergeTwiceRight4);
  }

  lemma MergeTwiceRightScan(s0: Scan, f: Scan)
    requires s0 == MergeTwiceRight0 && f == MergeTwiceRight4
    ensures ScanFrom(true, 0, s0) == f
  {
    MergeTwiceRightLine0(); MergeTwiceRightLine1(); MergeTwiceRightLine2(); MergeTwiceRightLine3();
  }

  lemma MergeTwiceRightEnd(g: Board, f: Scan)
    requires g == MergeTwiceRightGrid && f == MergeTwiceRight4
    ensures Lines(Right, g) == f.h
  {
    LinesRight(g);
    assert f.h == [g[15], g[14], g[13], g[12], g[11], g[10], g[9], g[8],
                   g[7], g[6], g[5], g[4], g[3], g[2], g[1], g[0]];
  }

  /** The evaluated steps, with the boards in between left unnamed. */
  lemma MergeTwiceRightSteps(grid: Board) returns (p: Board, s0: Scan, f: Scan, g: Board)
    requires grid == MergeTwiceLeftGrid
    ensures |p| == 16 && |g| == 16
    ensures Prepared(grid) == p && s0.h == Lines(Right, p)
    ensures s0.pos == 0 && s0.score == 4 && !s0.won && !s0.moved
    ensures ScanFrom(true, 0, s0) == f && Lines(Right, g) == f.h
    ensures g == MergeTwiceRightGrid && f.score == 12 && !f.won && f.moved
  {
    p, s0, f, g := MergeTwiceRightReady, MergeTwiceRight0, MergeTwiceRight4, MergeTwiceRightGrid;
    MergeTwiceRightPrepare(grid, p); MergeTwiceRightStart(p, s0); MergeTwiceRightScan(s0, f); MergeTwiceRightEnd(g, f);
  }

  /** What the move leaves before any spawn: the board `MergeTwiceRightGrid`, a
      score of 12, `won` clear, and a tile moved. */
  lemma MergeTwiceRightSlide(grid: Board)
    requires grid == MergeTwiceLeftGrid
    ensures Slide(AsWritten, Right, grid, 4, false) == Outcome(MergeTwiceRightGrid, 12, false, true)
  {
    var p, s0, f, g := MergeTwiceRightSteps(grid);
    CrossFlags();
    assert s0 == Scan(Lines(Right, Prepared(grid)), 0, 4, false, false);
    LinesRoundTrip(Right, g, f.h);
  }

  lemma MergeTwiceValues(g: Board)
    requires g == MergeTwiceRightGrid
    ensures FromGrid(g) == [0, 0, 0, 8,
                           0, 0, 0, 0,
                           0, 0, 0, 0,
                           0, 0, 0, 0]
  {
  }

  /** "Merge: Merge Twice" (src/game_state.rs:333-338): a new game without spawning, moved Left then Right, ends with
      the expected values, whatever the random draws. */
  lemma MergeTwice(s: State, pick: nat, four: bool, pick2: nat, four2: bool)
    requires s == NewGame(ToGrid(MergeTwiceCurr), false)
    ensures FromGrid(MoveTiles(AsWritten, MoveTiles(AsWritten, s, Left, pick, four), Right, pick2, four2).grid)
      == [0, 0, 0, 8,
          0, 0, 0, 0,
          0, 0, 0, 0,
          0, 0, 0, 0]
  {
    MergeTwiceLeftSlide(s.grid);
    var s1 := MoveTiles(AsWritten, s, Left, pick, four);
    MergeTwiceRightSlide(s1.grid);
    MergeTwiceValues(MoveTiles(AsWritten, s1, Right, pick2, four2).grid);
  }

  const MergeTwosCurr: seq<nat> := [2, 2, 2, 2,
                                    0, 2, 2, 2,
                                    0, 0, 2, 2,
                                    0, 0, 0, 2]

  // "Merge: Merge Twos"

  const MergeTwosReady: Board :=
    [Ready(2, 0), Ready(2, 1), Ready(2, 2), Ready(2, 3),
     None, Ready(2, 5), Ready(2, 6), Ready(2, 7),
     None, None, Ready(2, 10), Ready(2, 11),
     None, None, None, Ready(2, 15)]
  const MergeTwos0: Scan :=
    Scan([Ready(2, 0), Ready(2, 1), Ready(2, 2), Ready(2, 3),
          None, Ready(2, 5), Ready(2, 6), Ready(2, 7),
          None, None, Ready(2, 10), Ready(2, 11),
          None, None, None, Ready(2, 15)],
         0, 0, false, false)
  const MergeTwos1: Scan :=
    Scan([Joined(4, 0), Joined(4, 2), None, None,
          None, Ready(2, 5), Ready(2, 6), Ready(2, 7),
          None, None, Ready(2, 10), Ready(2, 11),
          None, None, None, Ready(2, 15)],
         2, 8, false, true)
  const MergeTwos2: Scan :=
    Scan([Joined(4, 0), Joined(4, 2), None, None,
          Joined(4, 5), Kept(2, 7), None, None,
          None, None, Ready(2, 10), Ready(2, 11),
          None, None, None, Ready(2, 15)],
         2, 12, false, true)
  const MergeTwos3: Scan :=
    Scan([Joined(4, 0), Joined(4, 2), None, None,
          Joined(4, 5), Kept(2, 7), None, None,
          Joined(4, 10), None, None, None,
          None, None, None, Ready(2, 15)],
         1, 16, false, true)
  const MergeTwos4: Scan :=
    Scan([Joined(4, 0), Joined(4, 2), None, None,
          Joined(4, 5), Kept(2, 7), None, None,
          Joined(4, 10), None, None, None,
          Kept(2, 15), None, None, None],
         1, 16, false, true)
  const MergeTwosGrid: Board :=
    [Joined(4, 0), Joined(4, 2), None, None,
     Joined(4, 5), Kept(2, 7), None, None,
     Joined(4, 10), None, None, None,
     Kept(2, 15), None, None, None]

  lemma MergeTwosPrepare(g: Board, p: Board)
    requires g == ToGrid(MergeTwosCurr) && p == MergeTwosReady
    ensures Prepared(g) == p
  {
  }

  lemma MergeTwosStart(p: Board, s0: Scan)
    requires p == MergeTwosReady && s0 == MergeTwos0
    ensures Lines(Left, p) == s0.h
  {
    LinesLeft(p);
  }

  const MergeTwosMid0: Scan :=
    Scan([Joined(4, 0), None, Ready(2, 2), Ready(2, 3),
          None, Ready(2, 5), Ready(2, 6), Ready(2, 7),
          None, None, Ready(2, 10), Ready(2, 11),
          None, None, None, Ready(2, 15)],
         1, 4, false, true)

  lemma MergeTwosHead0()
    ensures Visit(true, 0, 1, Visit(true, 0, 0, MergeTwos0.(pos := 0))) == MergeTwosMid0
  {
  }

  lemma MergeTwosTail0()
    ensures Visit(true, 0, 3, Visit(true, 0, 2, MergeTwosMid0)) == MergeTwos1
  {
  }

  lemma MergeTwosLine0()
    ensures ScanLine(true, 0, 0, MergeTwos0.(pos := 0)) == MergeTwos1
  {
    MergeTwosHead0();
    MergeTwosTail0();
    LineInHalves(true, 0, MergeTwos0.(pos := 0), MergeTwosMid0, MergeTwos1);
  }

  const MergeTwosMid1: Scan :=
    Scan([Joined(4, 0), Joined(4, 2), None, None,
          Kept(2, 5), None, Ready(2, 6), Ready(2, 7),
          None, None, Ready(2, 10), Ready(2, 11),
          None, None, None, Ready(2, 15)],
         1, 8, false, true)

  lemma MergeTwosHead1()
    ensures Visit(true, 1, 1, Visit(true, 1, 0, MergeTwos1.(pos := 0))) == MergeTwosMid1
  {
  }

  lemma MergeTwosTail1()
    ensures Visit(true, 1, 3, Visit(true, 1, 2, MergeTwosMid1)) == MergeTwos2
  {
  }

  lemma MergeTwosLine1()
    ensures ScanLine(true, 1, 0, MergeTwos1.(pos := 0)) == MergeTwos2
  {
    MergeTwosHead1();
    MergeTwosTail1();
    LineInHalves(true, 1, MergeTwos1.(pos := 0), MergeTwosMid1, MergeTwos2);
  }

  const MergeTwosMid2: Scan :=
    Scan([Joined(4, 0), Joined(4, 2), None, None,
          Joined(4, 5), Kept(2, 7), None, None,
          None, None, Ready(2, 10), Ready(2, 11),
          None, None, None, Ready(2, 15)],
         0, 12, false, true)

  lemma MergeTwosHead2()
    ensures Visit(true, 2, 1, Visit(true, 2, 0, MergeTwos2.(pos := 0))) == MergeTwosMid2
  {
  }

  lemma MergeTwosTail2()
    ensures Visit(true, 2, 3, Visit(true, 2, 2, MergeTwosMid2)) == MergeTwos3
  {
  }

  lemma MergeTwosLine2()
    ensures ScanLine(true, 2, 0, MergeTwos2.(pos := 0)) == MergeTwos3
  {
    MergeTwosHead2();
    MergeTwosTail2();
    LineInHalves(true, 2, MergeTwos2.(pos := 0), MergeTwosMid2, MergeTwos3);
  }

  const MergeTwosMid3: Scan :=
    Scan([Joined(4, 0), Joined(4, 2), None, None,
          Joined(4, 5), Kept(2, 7), None, None,
          Joined(4, 10), None, None, None,
          None, None, None, Ready(2, 15)],
         0, 16, false, true)

  lemma MergeTwosHead3()
    ensures Visit(true, 3, 1, Visit(true, 3, 0, MergeTwos3.(pos := 0))) == MergeTwosMid3
  {
  }

  lemma MergeTwosTail3()
    ensures Visit(true, 3, 3, Visit(true, 3, 2, MergeTwosMid3)) == MergeTwos4
  {
  }

  lemma MergeTwosLine3()
    ensures ScanLine(true, 3, 0, MergeTwos3.(pos := 0)) == MergeTwos4
  {
    MergeTwosHead3();
    MergeTwosTail3();
    LineInHalves(true, 3, MergeTwos3.(pos := 0), MergeTwosMid3, MergeTwos4);
  }

  lemma MergeTwosScan(s0: Scan, f: Scan)
    requires s0 == MergeTwos0 && f == MergeTwos4
    ensures ScanFrom(true, 0, s0) == f
  {
    MergeTwosLine0(); MergeTwosLine1(); MergeTwosLine2(); MergeTwosLine3();
  }

  lemma MergeTwosEnd(g: Board, f: Scan)
    requires g == MergeTwosGrid && f == MergeTwos4
    ensures Lines(Left, g) == f.h
  {
    LinesLeft(g);
  }

  /** The evaluated steps, with the boards in between left unnamed. */
  lemma MergeTwosSteps(grid: Board) returns (p: Board, s0: Scan, f: Scan, g: Board)
    requires grid == ToGrid(MergeTwosCurr)
    ensures |p| == 16 && |g| == 16
    ensures Prepared(grid) == p && s0.h == Lines(Left, p)
    ensures s0.pos == 0 && s0.score == 0 && !s0.won && !s0.moved
    ensures ScanFrom(true, 0, s0) == f && Lines(Left, g) == f.h
    ensures g == MergeTwosGrid && f.score == 16 && !f.won && f.moved
  {
    p, s0, f, g := MergeTwosReady, MergeTwos0, MergeTwos4, MergeTwosGrid;
    MergeTwosPrepare(grid, p); MergeTwosStart(p, s0); MergeTwosScan(s0, f); MergeTwosEnd(g, f);
  }

  /** What the move leaves before any spawn: the board `MergeTwosGrid`, a
      score of 16, `won` clear, and a tile moved. */
  lemma MergeTwosSlide(grid: Board)
    requires grid == ToGrid(MergeTwosCurr)
    ensures Slide(AsWritten, Left, grid, 0, false) == Outcome(MergeTwosGrid, 16, false, true)
  {
    var p, s0, f, g := MergeTwosSteps(grid);
    CrossFlags();
    assert s0 == Scan(Lines(Left, Prepared(grid)), 0, 0, false, false);
    LinesRoundTrip(Left, g, f.h);
  }

  lemma MergeTwosValues(g: Board)
    requires g == MergeTwosGrid
    ensures FromGrid(g) == [4, 4, 0, 0,
                           4, 2, 0, 0,
                           4, 0, 0, 0,
                           2, 0, 0, 0]
  {
  }

  /** "Merge: Merge Twos" (src/game_state.rs:339-344): a new game without spawning, moved Left, ends with
      the expected values, whatever the random draws. */
  lemma MergeTwos(s: State, pick: nat, four: bool)
    requires s == NewGame(ToGrid(MergeTwosCurr), false)
    ensures FromGrid(MoveTiles(AsWritten, s, Left, pick, four).grid)
      == [4, 4, 0, 0,
          4, 2, 0, 0,
          4, 0, 0, 0,
          2, 0, 0, 0]
  {
    MergeTwosSlide(s.grid);
    MergeTwosValues(MoveTiles(AsWritten, s, Left, pick, four).grid);
  }

  const ValidMoveCurr: seq<nat> := [0, 0, 0, 0,
                                    0, 2, 0, 0,
                                    0, 2, 0, 0,
                                    0, 0, 0, 0]

  // "Random Tile: Valid Move"

  const ValidMoveReady: Board :=
    [None, None, None, None,
     None, Ready(2, 5), None, None,
     None, Ready(2, 9), None, None,
     None, None, None, None]
  const ValidMove0: Scan :=
    Scan([None, None, None, None,
          None, Ready(2, 5), None, None,
          None, Ready(2, 9), None, None,
          None, None, None, None],
         0, 0, false, false)
  const ValidMove1: Scan :=
    Scan([None, None, None, None,
          None, Ready(2, 5), None, None,
          None, Ready(2, 9), None, None,
          None, None, None, None],
         0, 0, false, false)
  const ValidMove2: Scan :=
    Scan([None, None, None, None,
          Kept(2, 5), None, None, None,
          None, Ready(2, 9), None, None,
          None, None, None, None],
         1, 0, false, true)
  const ValidMove3: Scan :=
    Scan([None, None, None, None,
          Kept(2, 5), None, None, None,
          Kept(2, 9), None, None, None,
          None, None, None, None],
         1, 0, false, true)
  const ValidMove4: Scan :=
    Scan([None, None, None, None,
          Kept(2, 5), None, None, None,
          Kept(2, 9), None, None, None,
          None, None, None, None],
         0, 0, false, true)
  const ValidMoveGrid: Board :=
    [None, None, None, None,
     Kept(2, 5), None, None, None,
     Kept(2, 9), None, None, None,
     None, None, None, None]

  lemma ValidMovePrepare(g: Board, p: Board)
    requires g == ToGrid(ValidMoveCurr) && p == ValidMoveReady
    ensures Prepared(g) == p
  {
  }

  lemma ValidMoveStart(p: Board, s0: Scan)
    requires p == ValidMoveReady && s0 == ValidMove0
    ensures Lines(Left, p) == s0.h
  {
    LinesLeft(p);
  }

  lemma ValidMoveLine0()
    ensures ScanLine(true, 0, 0, ValidMove0.(pos := 0)) == ValidMove1
  {
    EmptyLine(true, 0, ValidMove0.(pos := 0));
  }

  const ValidMoveMid1: Scan :=
    Scan([None, None, None, None,
          Kept(2, 5), None, None, None,
          None, Ready(2, 9), None, None,
          None, None, None, None],
         1, 0, false, true)

  lemma ValidMoveHead1()
    ensures Visit(true, 1, 1, Visit(true, 1, 0, ValidMove1.(pos := 0))) == ValidMoveMid1
  {
  }

  lemma ValidMoveTail1()
    ensures Visit(true, 1, 3, Visit(true, 1, 2, ValidMoveMid1)) == ValidMove2
  {
  }

  lemma ValidMoveLine1()
    ensures ScanLine(true, 1, 0, ValidMove1.(pos := 0)) == ValidMove2
  {
    ValidMoveHead1();
    ValidMoveTail1();
    LineInHalves(true, 1, ValidMove1.(pos := 0), ValidMoveMid1, ValidMove2);
  }

  const ValidMoveMid2: Scan :=
    Scan([None, None, None, None,
          Kept(2, 5), None, None, None,
          Kept(2, 9), None, None, None,
          None, None, None, None],
         1, 0, false, true)

  lemma ValidMoveHead2()
    ensures Visit(true, 2, 1, Visit(true, 2, 0, ValidMove2.(pos := 0))) == ValidMoveMid2
  {
  }

  lemma ValidMoveTail2()
    ensures Visit(true, 2, 3, Visit(true, 2, 2, ValidMoveMid2)) == ValidMove3
  {
  }

  lemma ValidMoveLine2()
    ensures ScanLine(true, 2, 0, ValidMove2.(pos := 0)) == ValidMove3
  {
    ValidMoveHead2();
    ValidMoveTail2();
    LineInHalves(true, 2, ValidMove2.(pos := 0), ValidMoveMid2, ValidMove3);
  }

  lemma ValidMoveLine3()
    ensures ScanLine(true, 3, 0, ValidMove3.(pos := 0)) == ValidMove4
  {
    EmptyLine(true, 3, ValidMove3.(pos := 0));
  }

  lemma ValidMoveScan(s0: Scan, f: Scan)
    requires s0 == ValidMove0 && f == ValidMove4
    ensures ScanFrom(true, 0, s0) == f
  {
    ValidMoveLine0(); ValidMoveLine1(); ValidMoveLine2(); ValidMoveLine3();
  }

  lemma ValidMoveEnd(g: Board, f: Scan)
    requires g == ValidMoveGrid && f == ValidMove4
    ensures Lines(Left, g) == f.h
  {
    LinesLeft(g);
  }

  /** The evaluated steps, with the boards in between left unnamed. */
  lemma ValidMoveSteps(grid: Board) returns (p: Board, s0: Scan, f: Scan, g: Board)
    requires grid == ToGrid(ValidMoveCurr)
    ensures |p| == 16 && |g| == 16
    ensures Prepared(grid) == p && s0.h == Lines(Left, p)
    ensures s0.pos == 0 && s0.score == 0 && !s0.won && !s0.moved
    ensures ScanFrom(true, 0, s0) == f && Lines(Left, g) == f.h
    ensures g == ValidMoveGrid && f.score == 0 && !f.won && f.moved
  {
    p, s0, f, g := ValidMoveReady, ValidMove0, ValidMove4, ValidMoveGrid;
    ValidMovePrepare(grid, p); ValidMoveStart(p, s0); ValidMoveScan(s0, f); ValidMoveEnd(g, f);
  }

  /** What the move leaves before any spawn: the board `ValidMoveGrid`, a
      score of 0, `won` clear, and a tile moved. */
  lemma ValidMoveSlide(grid: Board)
    requires grid == ToGrid(ValidMoveCurr)
    ensures Slide(AsWritten, Left, grid, 0, false) == Outcome(ValidMoveGrid, 0, false, true)
  {
    var p, s0, f, g := ValidMoveSteps(grid);
    CrossFlags();
    assert s0 == Scan(Lines(Left, Prepared(grid)), 0, 0, false, false);
    LinesRoundTrip(Left, g, f.h);
  }

  lemma ValidMoveCells(g: Board)
    requires |g| == 16
    requires g[0].None? && g[1].None? && g[2].None? && g[3].None?
    requires g[4].Some? && g[5].None? && g[6].None? && g[7].None?
    requires g[8].Some? && g[9].None? && g[10].None? && g[11].None?
    requires g[12].None? && g[13].None? && g[14].None? && g[15].None?
    ensures Count(g) == 2
  {
    CountCells(g);
  }

  lemma ValidMoveCount(g: Board)
    requires g == ValidMoveGrid
    ensures Count(g) == 2
  {
    ValidMoveCells(g);
  }

  /** "Random Tile: Valid Move" (src/game_state.rs:369-374): a new game with spawning on, moved
      Left, holds 3 tiles, whatever the random draws. */
  lemma ValidMove(s: State, pick: nat, four: bool)
    requires s == NewGame(ToGrid(ValidMoveCurr), true)
    ensures Count(MoveTiles(AsWritten, s, Left, pick, four).grid) == 3
  {
    ValidMoveSlide(s.grid);
    SpawnCounts(s.(grid := ValidMoveGrid), pick, four);
    ValidMoveCount(ValidMoveGrid);
    CountBound(ValidMoveGrid);
  }

  const InvalidMoveCurr: seq<nat> := [0, 0, 0, 0,
                                      2, 0, 0, 0,
                                      2, 0, 0, 0,
                                      0, 0, 0, 0]

  // "Random Tile: Invalid Move"

  const InvalidMoveReady: Board :=
    [None, None, None, None,
     Ready(2, 4), None, None, None,
     Ready(2, 8), None, None, None,
     None, None, None, None]
  const InvalidMove0: Scan :=
    Scan([None, None, None, None,
          Ready(2, 4), None, None, None,
          Ready(2, 8), None, None, None,
          None, None, None, None],
         0, 0, false, false)
  const InvalidMove1: Scan :=
    Scan([None, None, None, None,
          Ready(2, 4), None, None, None,
          Ready(2, 8), None, None, None,
          None, None, None, None],
         0, 0, false, false)
  const InvalidMove2: Scan :=
    Scan([None, None, None, None,
          Kept(2, 4), None, None, None,
          Ready(2, 8), None, None, None,
          None, None, None, None],
         1, 0, false, false)
  const InvalidMove3: Scan :=
    Scan([None, None, None, None,
          Kept(2, 4), None, None, None,
          Kept(2, 8), None, None, None,
          None, None, None, None],
         1, 0, false, false)
  const InvalidMove4: Scan :=
    Scan([None, None, None, None,
          Kept(2, 4), None, None, None,
          Kept(2, 8), None, None, None,
          None, None, None, None],
         0, 0, false, false)
  const InvalidMoveGrid: Board :=
    [None, None, None, None,
     Kept(2, 4), None, None, None,
     Kept(2, 8), None, None, None,
     None, None, None, None]

  lemma InvalidMovePrepare(g: Board, p: Board)
    requires g == ToGrid(InvalidMoveCurr) && p == InvalidMoveReady
    ensures Prepared(g) == p
  {
  }

  lemma InvalidMoveStart(p: Board, s0: Scan)
    requires p == InvalidMoveReady && s0 == InvalidMove0
    ensures Lines(Left, p) == s0.h
  {
    LinesLeft(p);
  }

  lemma InvalidMoveLine0()
    ensures ScanLine(true, 0, 0, InvalidMove0.(pos := 0)) == InvalidMove1
  {
    EmptyLine(true, 0, InvalidMove0.(pos := 0));
  }

  const InvalidMoveMid1: Scan :=
    Scan([None, None, None, None,
          Kept(2, 4), None, None, None,
          Ready(2, 8), None, None, None,
          None, None, None, None],
         1, 0, false, false)

  lemma InvalidMoveHead1()
    ensures Visit(true, 1, 1, Visit(true, 1, 0, InvalidMove1.(pos := 0))) == InvalidMoveMid1
  {
  }

  lemma InvalidMoveTail1()
    ensures Visit(true, 1, 3, Visit(true, 1, 2, InvalidMoveMid1)) == InvalidMove2
  {
  }

  lemma InvalidMoveLine1()
    ensures ScanLine(true, 1, 0, InvalidMove1.(pos := 0)) == InvalidMove2
  {
    InvalidMoveHead1();
    InvalidMoveTail1();
    LineInHalves(true, 1, InvalidMove1.(pos := 0), InvalidMoveMid1, InvalidMove2);
  }

  const InvalidMoveMid2: Scan :=
    Scan([None, None, None, None,
          Kept(2, 4), None, None, None,
          Kept(2, 8), None, None, None,
          None, None, None, None],
         1, 0, false, false)

  lemma InvalidMoveHead2()
    ensures Visit(true, 2, 1, Visit(true, 2, 0, InvalidMove2.(pos := 0))) == InvalidMoveMid2
  {
  }

  lemma InvalidMoveTail2()
    ensures Visit(true, 2, 3, Visit(true, 2, 2, InvalidMoveMid2)) == InvalidMove3
  {
  }

  lemma InvalidMoveLine2()
    ensures ScanLine(true, 2, 0, InvalidMove2.(pos := 0)) == InvalidMove3
  {
    InvalidMoveHead2();
    InvalidMoveTail2();
    LineInHalves(true, 2, InvalidMove2.(pos := 0), InvalidMoveMid2, InvalidMove3);
  }

  lemma InvalidMoveLine3()
    ensures ScanLine(true, 3, 0, InvalidMove3.(pos := 0)) == InvalidMove4
  {
    EmptyLine(true, 3, InvalidMove3.(pos := 0));
  }

  lemma InvalidMoveScan(s0: Scan, f: Scan)
    requires s0 == InvalidMove0 && f == InvalidMove4
    ensures ScanFrom(true, 0, s0) == f
  {
    InvalidMoveLine0(); InvalidMoveLine1(); InvalidMoveLine2(); InvalidMoveLine3();
  }

  lemma InvalidMoveEnd(g: Board, f: Scan)
    requires g == InvalidMoveGrid && f == InvalidMove4
    ensures Lines(Left, g) == f.h
  {
    LinesLeft(g);
  }

  /** The evaluated steps, with the boards in between left unnamed. */
  lemma InvalidMoveSteps(grid: Board) returns (p: Board, s0: Scan, f: Scan, g: Board)
    requires grid == ToGrid(InvalidMoveCurr)
    ensures |p| == 16 && |g| == 16
    ensures Prepared(grid) == p && s0.h == Lines(Left, p)
    ensures s0.pos == 0 && s0.score == 0 && !s0.won && !s0.moved
    ensures ScanFrom(true, 0, s0) == f && Lines(Left, g) == f.h
    ensures g == InvalidMoveGrid && f.score == 0 && !f.won && !f.moved
  {
    p, s0, f, g := InvalidMoveReady, InvalidMove0, InvalidMove4, InvalidMoveGrid;
    InvalidMovePrepare(grid, p); InvalidMoveStart(p, s0); InvalidMoveScan(s0, f); InvalidMoveEnd(g, f);
  }

  /** What the move leaves before any spawn: the board `InvalidMoveGrid`, a
      score of 0, `won` clear, and nothing moved. */
  lemma InvalidMoveSlide(grid: Board)
    requires grid == ToGrid(InvalidMoveCurr)
    ensures Slide(AsWritten, Left, grid, 0, false) == Outcome(InvalidMoveGrid, 0, false, false)
  {
    var p, s0, f, g := InvalidMoveSteps(grid);
    CrossFlags();
    assert s0 == Scan(Lines(Left, Prepared(grid)), 0, 0, false, false);
    LinesRoundTrip(Left, g, f.h);
  }

  lemma InvalidMoveCells(g: Board)
    requires |g| == 16
    requires g[0].None? && g[1].None? && g[2].None? && g[3].None?
    requires g[4].Some? && g[5].None? && g[6].None? && g[7].None?
    requires g[8].Some? && g[9].None? && g[10].None? && g[11].None?
    requires g[12].None? && g[13].None? && g[14].None? && g[15].None?
    ensures Count(g) == 2
  {
    CountCells(g);
  }

  lemma InvalidMoveCount(g: Board)
    requires g == InvalidMoveGrid
    ensures Count(g) == 2
  {
    InvalidMoveCells(g);
  }

  /** "Random Tile: Invalid Move" (src/game_state.rs:375-380): a new game with spawning on, moved
      Left, holds 2 tiles, whatever the random draws. */
  lemma InvalidMove(s: State, pick: nat, four: bool)
    requires s == NewGame(ToGrid(InvalidMoveCurr), true)
    ensures Count(MoveTiles(AsWritten, s, Left, pick, four).grid) == 2
  {
    InvalidMoveSlide(s.grid);
    InvalidMoveCount(InvalidMoveGrid);
  }

  const CrossRowCurr: seq<nat> := [2, 4, 8, 16,
                                   16, 0, 0, 0,
                                   0, 0, 0, 0,
                                   0, 0, 0, 0]

  /* A Left move of the code as written lets the first tile of the second row
     merge into the last tile of the first row; the line-bounded rule keeps
     the two rows apart. */

  // "Cross row", AsWritten

  const CrossRowReady: Board :=
    [Ready(2, 0), Ready(4, 1), Ready(8, 2), Ready(16, 3),
     Ready(16, 4), None, None, None,
     None, None, None, None,
     None, None, None, None]
  const CrossRow0: Scan :=
    Scan([Ready(2, 0), Ready(4, 1), Ready(8, 2), Ready(16, 3),
          Ready(16, 4), None, None, None,
          None, None, None, None,
          None, None, None, None],
         0, 0, false, false)
  const CrossRow1: Scan :=
    Scan([Kept(2, 0), Kept(4, 1), Kept(8, 2), Kept(16, 3),
          Ready(16, 4), None, None, None,
          None, None, None, None,
          None, None, None, None],
         4, 0, false, false)
  const CrossRow2: Scan :=
    Scan([Kept(2, 0), Kept(4, 1), Kept(8, 2), Joined(32, 3),
          None, None, None, None,
          None, None, None, None,
          None, None, None, None],
         0, 32, false, true)
  const CrossRow3: Scan :=
    Scan([Kept(2, 0), Kept(4, 1), Kept(8, 2), Joined(32, 3),
          None, None, None, None,
          None, None, None, None,
          None, None, None, None],
         0, 32, false, true)
  const CrossRow4: Scan :=
    Scan([Kept(2, 0), Kept(4, 1), Kept(8, 2), Joined(32, 3),
          None, None, None, None,
          None, None, None, None,
          None, None, None, None],
         0, 32, false, true)
  const CrossRowGrid: Board :=
    [Kept(2, 0), Kept(4, 1), Kept(8, 2), Joined(32, 3),
     None, None, None, None,
     None, None, None, None,
     None, None, None, None]

  lemma CrossRowPrepare(g: Board, p: Board)
    requires g == ToGrid(CrossRowCurr) && p == CrossRowReady
    ensures Prepared(g) == p
  {
  }

  lemma CrossRowStart(p: Board, s0: Scan)
    requires p == CrossRowReady && s0 == CrossRow0
    ensures Lines(Left, p) == s0.h
  {
    LinesLeft(p);
  }

  const CrossRowMid0: Scan :=
    Scan([Kept(2, 0), Kept(4, 1), Ready(8, 2), Ready(16, 3),
          Ready(16, 4), None, None, None,
          None, None, None, None,
          None, None, None, None],
         2, 0, false, false)

  lemma CrossRowHead0()
    ensures Visit(true, 0, 1, Visit(true, 0, 0, CrossRow0.(pos := 0))) == CrossRowMid0
  {
  }

  lemma CrossRowTail0()
    ensures Visit(true, 0, 3, Visit(true, 0, 2, CrossRowMid0)) == CrossRow1
  {
  }

  lemma CrossRowLine0()
    ensures ScanLine(true, 0, 0, CrossRow0.(pos := 0)) == CrossRow1
  {
    CrossRowHead0();
    CrossRowTail0();
    LineInHalves(true, 0, CrossRow0.(pos := 0), CrossRowMid0, CrossRow1);
  }

  const CrossRowMid1: Scan :=
    Scan([Kept(2, 0), Kept(4, 1), Kept(8, 2), Joined(32, 3),
          None, None, None, None,
          None, None, None, None,
          None, None, None, None],
         0, 32, false, true)

  lemma CrossRowHead1()
    ensures Visit(true, 1, 1, Visit(true, 1, 0, CrossRow1.(pos := 0))) == CrossRowMid1
  {
  }

  lemma CrossRowTail1()
    ensures Visit(true, 1, 3, Visit(true, 1, 2, CrossRowMid1)) == CrossRow2
  {
  }

  lemma CrossRowLine1()
    ensures ScanLine(true, 1, 0, CrossRow1.(pos := 0)) == CrossRow2
  {
    CrossRowHead1();
    CrossRowTail1();
    LineInHalves(true, 1, CrossRow1.(pos := 0), CrossRowMid1, CrossRow2);
  }

  lemma CrossRowLine2()
    ensures ScanLine(true, 2, 0, CrossRow2.(pos := 0)) == CrossRow3
  {
    EmptyLine(true, 2, CrossRow2.(pos := 0));
  }

  lemma CrossRowLine3()
    ensures ScanLine(true, 3, 0, CrossRow3.(pos := 0)) == CrossRow4
  {
    EmptyLine(true, 3, CrossRow3.(pos := 0));
  }

  lemma CrossRowScan(s0: Scan, f: Scan)
    requires s0 == CrossRow0 && f == CrossRow4
    ensures ScanFrom(true, 0, s0) == f
  {
    CrossRowLine0(); CrossRowLine1(); CrossRowLine2(); CrossRowLine3();
  }

  lemma CrossRowEnd(g: Board, f: Scan)
    requires g == CrossRowGrid && f == CrossRow4
    ensures Lines(Left, g) == f.h
  {
    LinesLeft(g);
  }

  /** The evaluated steps, with the boards in between left unnamed. */
  lemma CrossRowSteps(grid: Board) returns (p: Board, s0: Scan, f: Scan, g: Board)
    requires grid == ToGrid(CrossRowCurr)
    ensures |p| == 16 && |g| == 16
    ensures Prepared(grid) == p && s0.h == Lines(Left, p)
    ensures s0.pos == 0 && s0.score == 0 && !s0.won && !s0.moved
    ensures ScanFrom(true, 0, s0) == f && Lines(Left, g) == f.h
    ensures g == CrossRowGrid && f.score == 32 && !f.won && f.moved
  {
    p, s0, f, g := CrossRowReady, CrossRow0, CrossRow4, CrossRowGrid;
    CrossRowPrepare(grid, p); CrossRowStart(p, s0); CrossRowScan(s0, f); CrossRowEnd(g, f);
  }

  /** What the move leaves before any spawn: the board `CrossRowGrid`, a
      score of 32, `won` clear, and a tile moved. */
  lemma CrossRowSlide(grid: Board)
    requires grid == ToGrid(CrossRowCurr)
    ensures Slide(AsWritten, Left, grid, 0, false) == Outcome(CrossRowGrid, 32, false, true)
  {
    var p, s0, f, g := CrossRowSteps(grid);
    CrossFlags();
    assert s0 == Scan(Lines(Left, Prepared(grid)), 0, 0, false, false);
    LinesRoundTrip(Left, g, f.h);
  }

  lemma CrossRowValues(g: Board)
    requires g == CrossRowGrid
    ensures FromGrid(g) == [2, 4, 8, 32,
                           0, 0, 0, 0,
                           0, 0, 0, 0,
                           0, 0, 0, 0]
  {
  }

  // "Cross row", LineBounded

  const CrossRowBoundedReady: Board :=
    [Ready(2, 0), Ready(4, 1), Ready(8, 2), Ready(16, 3),
     Ready(16, 4), None, None, None,
     None, None, None, None,
     None, None, None, None]
  const CrossRowBounded0: Scan :=
    Scan([Ready(2, 0), Ready(4, 1), Ready(8, 2), Ready(16, 3),
          Ready(16, 4), None, None, None,
          None, None, None, None,
          None, None, None, None],
         0, 0, false, false)
  const CrossRowBounded1: Scan :=
    Scan([Kept(2, 0), Kept(4, 1), Kept(8, 2), Kept(16, 3),
          Ready(16, 4), None, None, None,
          None, None, None, None,
          None, None, None, None],
         4, 0, false, false)
  const CrossRowBounded2: Scan :=
    Scan([Kept(2, 0), Kept(4, 1), Kept(8, 2), Kept(16, 3),
          Kept(16, 4), None, None, None,
          None, None, None, None,
          None, None, None, None],
         1, 0, false, false)
  const CrossRowBounded3: Scan :=
    Scan([Kept(2, 0), Kept(4, 1), Kept(8, 2), Kept(16, 3),
          Kept(16, 4), None, None, None,
          None, None, None, None,
          None, None, None, None],
         0, 0, false, false)
  const CrossRowBounded4: Scan :=
    Scan([Kept(2, 0), Kept(4, 1), Kept(8, 2), Kept(16, 3),
          Kept(16, 4), None, None, None,
          None, None, None, None,
          None, None, None, None],
         0, 0, false, false)
  const CrossRowBoundedGrid: Board :=
    [Kept(2, 0), Kept(4, 1), Kept(8, 2), Kept(16, 3),
     Kept(16, 4), None, None, None,
     None, None, None, None,
     None, None, None, None]

  lemma CrossRowBoundedPrepare(g: Board, p: Board)
    requires g == ToGrid(CrossRowCurr) && p == CrossRowBoundedReady
    ensures Prepared(g) == p
  {
  }

  lemma CrossRowBoundedStart(p: Board, s0: Scan)
    requires p == CrossRowBoundedReady && s0 == CrossRowBounded0
    ensures Lines(Left, p) == s0.h
  {
    LinesLeft(p);
  }

  const CrossRowBoundedMid0: Scan :=
    Scan([Kept(2, 0), Kept(4, 1), Ready(8, 2), Ready(16, 3),
          Ready(16, 4), None, None, None,
          None, None, None, None,
          None, None, None, None],
         2, 0, false, false)

  lemma CrossRowBoundedHead0()
    ensures Visit(false, 0, 1, Visit(false, 0, 0, CrossRowBounded0.(pos := 0))) == CrossRowBoundedMid0
  {
  }

  lemma CrossRowBoundedTail0()
    ensures Visit(false, 0, 3, Visit(false, 0, 2, CrossRowBoundedMid0)) == CrossRowBounded1
  {
  }

  lemma CrossRowBoundedLine0()
    ensures ScanLine(false, 0, 0, CrossRowBounded0.(pos := 0)) == CrossRowBounded1
  {
    CrossRowBoundedHead0();
    CrossRowBoundedTail0();
    LineInHalves(false, 0, CrossRowBounded0.(pos := 0), CrossRowBoundedMid0, CrossRowBounded1);
  }

  const CrossRowBoundedMid1: Scan :=
    Scan([Kept(2, 0), Kept(4, 1), Kept(8, 2), Kept(16, 3),
          Kept(16, 4), None, None, None,
          None, None, None, None,
          None, None, None, None],
         1, 0, false, false)

  lemma CrossRowBoundedHead1()
    ensures Visit(false, 1, 1, Visit(false, 1, 0, CrossRowBounded1.(pos := 0))) == CrossRowBoundedMid1
  {
  }

  lemma CrossRowBoundedTail1()
    ensures Visit(false, 1, 3, Visit(false, 1, 2, CrossRowBoundedMid1)) == CrossRowBounded2
  {
  }

  lemma CrossRowBoundedLine1()
    ensures ScanLine(false, 1, 0, CrossRowBounded1.(pos := 0)) == CrossRowBounded2
  {
    CrossRowBoundedHead1();
    CrossRowBoundedTail1();
    LineInHalves(false, 1, CrossRowBounded1.(pos := 0), CrossRowBoundedMid1, CrossRowBounded2);
  }

  lemma CrossRowBoundedLine2()
    ensures ScanLine(false, 2, 0, CrossRowBounded2.(pos := 0)) == CrossRowBounded3
  {
    EmptyLine(false, 2, CrossRowBounded2.(pos := 0));
  }

  lemma CrossRowBoundedLine3()
    ensures ScanLine(false, 3, 0, CrossRowBounded3.(pos := 0)) == CrossRowBounded4
  {
    EmptyLine(false, 3, CrossRowBounded3.(pos := 0));
  }

  lemma CrossRowBoundedScan(s0: Scan, f: Scan)
    requires s0 == CrossRowBounded0 && f == CrossRowBounded4
    ensures ScanFrom(false, 0, s0) == f
  {
    CrossRowBoundedLine0(); CrossRowBoundedLine1(); CrossRowBoundedLine2(); CrossRowBoundedLine3();
  }

  lemma CrossRowBoundedEnd(g: Board, f: Scan)
    requires g == CrossRowBoundedGrid && f == CrossRowBounded4
    ensures Lines(Left, g) == f.h
  {
    LinesLeft(g);
  }

  /** The evaluated steps, with the boards in between left unnamed. */
  lemma CrossRowBoundedSteps(grid: Board) returns (p: Board, s0: Scan, f: Scan, g: Board)
    requires grid == ToGrid(CrossRowCurr)
    ensures |p| == 16 && |g| == 16
    ensures Prepared(grid) == p && s0.h == Lines(Left, p)
    ensures s0.pos == 0 && s0.score == 0 && !s0.won && !s0.moved
    ensures ScanFrom(false, 0, s0) == f && Lines(Left, g) == f.h
    ensures g == CrossRowBoundedGrid && f.score == 0 && !f.won && !f.moved
  {
    p, s0, f, g := CrossRowBoundedReady, CrossRowBounded0, CrossRowBounded4, CrossRowBoundedGrid;
    CrossRowBoundedPrepare(grid, p); CrossRowBoundedStart(p, s0); CrossRowBoundedScan(s0, f); CrossRowBoundedEnd(g, f);
  }

  /** What the move leaves before any spawn: the board `CrossRowBoundedGrid`, a
      score of 0, `won` clear, and nothing moved. */
  lemma CrossRowBoundedSlide(grid: Board)
    requires grid == ToGrid(CrossRowCurr)
    ensures Slide(LineBounded, Left, grid, 0, false) == Outcome(CrossRowBoundedGrid, 0, false, false)
  {
    var p, s0, f, g := CrossRowBoundedSteps(grid);
    CrossFlags();
    assert s0 == Scan(Lines(Left, Prepared(grid)), 0, 0, false, false);
    LinesRoundTrip(Left, g, f.h);
  }

  lemma CrossRowBoundedValues(g: Board)
    requires g == CrossRowBoundedGrid
    ensures FromGrid(g) == [2, 4, 8, 16,
                           16, 0, 0, 0,
                           0, 0, 0, 0,
                           0, 0, 0, 0]
  {
  }

  /** The code as written, moved Left from `CrossRowCurr`: the 16 that opens the
      second row doubles the 16 that closes the first, for a score of 32. */
  lemma CrossRowMerge(s: State, pick: nat, four: bool)
    requires s == NewGame(ToGrid(CrossRowCurr), false)
    ensures FromGrid(MoveTiles(AsWritten, s, Left, pick, four).grid)
      == [2, 4, 8, 32,
          0, 0, 0, 0,
          0, 0, 0, 0,
          0, 0, 0, 0]
    ensures MoveTiles(AsWritten, s, Left, pick, four).score == 32
  {
    CrossRowSlide(s.grid);
    CrossRowValues(MoveTiles(AsWritten, s, Left, pick, four).grid);
  }

  /** The line-bounded rule on the same board: no line can change, the values
      stay where they were and the score stays 0. */
  lemma CrossRowKept(s: State, pick: nat, four: bool)
    requires s == NewGame(ToGrid(CrossRowCurr), false)
    ensures FromGrid(MoveTiles(LineBounded, s, Left, pick, four).grid)
      == [2, 4, 8, 16,
          16, 0, 0, 0,
          0, 0, 0, 0,
          0, 0, 0, 0]
    ensures MoveTiles(LineBounded, s, Left, pick, four).score == 0
  {
    CrossRowBoundedSlide(s.grid);
    CrossRowBoundedValues(MoveTiles(LineBounded, s, Left, pick, four).grid);
  }

}
