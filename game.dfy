/** `GameState` as a value: the grid together with score and flags, and
    what each of its operations does to it. The class in `GameStates` is
    proved against these functions. Randomness enters as parameters: `pick`
    selects one of the empty cells and `four` the value of a spawned tile,
    so that every outcome the random number generator can produce is the
    result for some choice of them. */
module Game {
  import opened Tiles
  import opened Directions
  import opened Boards
  import opened Engine

  datatype State = State(grid: Board, score: nat, over: bool, won: bool, generate: bool)

  /** `GameState::new`: score zero and both flags cleared. */
  function NewGame(grid: Board, generate: bool): (s: State)
    ensures s.grid == grid && s.generate == generate
    ensures s.score == 0 && !s.over && !s.won
  {
    State(grid, 0, false, false, generate)
  }

  /** `is_game_over`: a game is frozen once it is over or won. */
  predicate IsGameOver(s: State)
  {
    s.over || s.won
  }

  // ---------------------------------------------------------------------
  // Spawning
  // ---------------------------------------------------------------------

  /** The empty cells among the first `n`, in ascending order. */
  function EmptyUpTo(g: Board, n: nat): (e: seq<nat>)
    requires n <= |g|
    ensures forall j :: 0 <= j < |e| ==> e[j] < n && g[e[j]].None?
    decreases n
  {
    if n == 0 then []
    else EmptyUpTo(g, n - 1) + (if g[n - 1].None? then [n - 1] else [])
  }

  /** The cells `add_random_tile` chooses from. */
  function EmptyCells(g: Board): seq<nat>
  {
    EmptyUpTo(g, |g|)
  }

  /** The empty cells are listed once each, in ascending order, and they
      are exactly the cells holding no tile. */
  lemma {:induction false} EmptyUpToFacts(g: Board, n: nat)
    requires n <= |g|
    ensures forall a, b :: 0 <= a < b < |EmptyUpTo(g, n)| ==> EmptyUpTo(g, n)[a] < EmptyUpTo(g, n)[b]
    ensures forall i :: 0 <= i < n && g[i].None? ==> i in EmptyUpTo(g, n)
    decreases n
  {
    if n > 0 {
      EmptyUpToFacts(g, n - 1);
      var e := EmptyUpTo(g, n - 1);
      var e' := EmptyUpTo(g, n);
      forall i | 0 <= i < n && g[i].None?
        ensures i in e'
      {
        if i < n - 1 {
          var j :| 0 <= j < |e| && e[j] == i;
          assert e'[j] == i;
        } else {
          assert e'[|e'| - 1] == i;
        }
      }
    }
  }

  lemma EmptyCellsFacts(g: Board)
    ensures forall a, b :: 0 <= a < b < |EmptyCells(g)| ==> EmptyCells(g)[a] < EmptyCells(g)[b]
    ensures forall i :: i in EmptyCells(g) <==> 0 <= i < |g| && g[i].None?
    ensures |EmptyCells(g)| > 0 <==> HasEmpty(g)
  {
    EmptyUpToFacts(g, |g|);
    var e := EmptyCells(g);
    if HasEmpty(g) {
      var i :| 0 <= i < |g| && g[i].None?;
      assert i in e;
    }
    if |e| > 0 {
      assert g[e[0]].None?;
    }
  }

  /** The value of a spawned tile: 4 when the random draw exceeds 0.9, 2
      otherwise. */
  function SpawnValue(four: bool): (v: nat)
    ensures v == 2 || v == 4
  {
    if four then 4 else 2
  }

  /** `add_random_tile`: with spawning on and an empty cell available, the
      chosen empty cell receives a new tile of value 2 or 4. */
  function AddRandomTile(s: State, pick: nat, four: bool): (r: State)
    requires |s.grid| == 16
    ensures |r.grid| == 16
  {
    if !s.generate then s
    else
      var e := EmptyCells(s.grid);
      if |e| == 0 then s
      else s.(grid := s.grid[e[pick % |e|] := Some(NewTile(SpawnValue(four)))])
  }

  /** Spawning does nothing when it is switched off or the board is full;
      otherwise exactly one empty cell becomes a `New` tile of value 2 or 4
      with no previous position, and nothing else changes. */
  lemma SpawnOutcome(s: State, pick: nat, four: bool)
    requires |s.grid| == 16
    ensures var r := AddRandomTile(s, pick, four);
      && (!s.generate || !HasEmpty(s.grid) ==> r == s)
      && (s.generate && HasEmpty(s.grid) ==>
            exists i :: 0 <= i < 16 && s.grid[i].None?
              && r == s.(grid := s.grid[i := Some(NewTile(SpawnValue(four)))]))
  {
    EmptyCellsFacts(s.grid);
    if s.generate && HasEmpty(s.grid) {
      var e := EmptyCells(s.grid);
      var i := e[pick % |e|];
      assert i in e;
    }
  }

  /** Every empty cell and both values can be the outcome of a spawn. */
  lemma SpawnReachesEveryEmptyCell(s: State, i: nat, v: nat)
    requires |s.grid| == 16 && s.generate
    requires i < 16 && s.grid[i].None? && (v == 2 || v == 4)
    ensures exists pick: nat, four: bool ::
      AddRandomTile(s, pick, four) == s.(grid := s.grid[i := Some(NewTile(v))])
  {
    EmptyCellsFacts(s.grid);
    var e := EmptyCells(s.grid);
    assert i in e;
    var j :| 0 <= j < |e| && e[j] == i;
    ModBelow(j, |e|);
    assert AddRandomTile(s, j, v == 4) == s.(grid := s.grid[i := Some(NewTile(v))]);
  }

  lemma ModBelow(a: nat, n: nat)
    requires a < n
    ensures a % n == a
  {
  }

  /** A spawn adds one tile when it happens and leaves the merge products
      alone, since it only fills an empty cell with a `New` tile. */
  lemma SpawnCounts(s: State, pick: nat, four: bool)
    requires |s.grid| == 16
    ensures var r := AddRandomTile(s, pick, four);
      && Count(r.grid) == Count(s.grid) + (if s.generate && HasEmpty(s.grid) then 1 else 0)
      && MergedCount(r.grid) == MergedCount(s.grid) && MergedSum(r.grid) == MergedSum(s.grid)
      && WinningMerges(r.grid) == WinningMerges(s.grid)
      && r.score == s.score && r.over == s.over && r.won == s.won && r.generate == s.generate
  {
    SpawnOutcome(s, pick, four);
    if s.generate && HasEmpty(s.grid) {
      var i :| 0 <= i < 16 && s.grid[i].None?
        && AddRandomTile(s, pick, four) == s.(grid := s.grid[i := Some(NewTile(SpawnValue(four)))]);
      CellChange(s.grid, i, Some(NewTile(SpawnValue(four))));
    }
  }

  // ---------------------------------------------------------------------
  // Moving
  // ---------------------------------------------------------------------

  /** `move_tiles`: nothing happens once the game is frozen; otherwise the
      grid is prepared and scanned, and a tile is spawned if anything
      moved. */
  function MoveTiles(rule: Rule, s: State, d: Direction, pick: nat, four: bool): (r: State)
    requires |s.grid| == 16
    ensures |r.grid| == 16
  {
    if IsGameOver(s) then s
    else
      var o := Slide(rule, d, s.grid, s.score, s.won);
      var s1 := s.(grid := o.grid, score := o.score, won := o.won);
      if o.moved then AddRandomTile(s1, pick, four) else s1
  }

  /** Whether the scan of a move reports that a tile moved. */
  predicate Moves(rule: Rule, s: State, d: Direction)
    requires |s.grid| == 16
  {
    Slide(rule, d, s.grid, s.score, s.won).moved
  }

  /** A frozen game does not change, `won` is never cleared, `over` is
      never set, and spawning stays as configured. */
  lemma MoveKeepsFlags(rule: Rule, s: State, d: Direction, pick: nat, four: bool)
    requires |s.grid| == 16
    ensures var r := MoveTiles(rule, s, d, pick, four);
      && (IsGameOver(s) ==> r == s)
      && (s.won ==> r.won)
      && r.over == s.over && r.generate == s.generate
      && r.score >= s.score
  {
    if !IsGameOver(s) {
      var o := Slide(rule, d, s.grid, s.score, s.won);
      SlideScore(rule, d, s.grid, s.score, s.won);
      SpawnCounts(s.(grid := o.grid, score := o.score, won := o.won), pick, four);
    }
  }

  /** A move that happens adds the values of its merge products to the
      score and sets `won` exactly when one of them is 2048; the spawned
      tile is not a merge product. */
  lemma MoveScoreAndWon(rule: Rule, s: State, d: Direction, pick: nat, four: bool)
    requires |s.grid| == 16 && !IsGameOver(s)
    ensures var r := MoveTiles(rule, s, d, pick, four);
      && r.score == s.score + MergedSum(r.grid)
      && (r.won <==> HasMerged(r.grid, 2048))
  {
    var o := Slide(rule, d, s.grid, s.score, s.won);
    var s1 := s.(grid := o.grid, score := o.score, won := o.won);
    var r := MoveTiles(rule, s, d, pick, four);
    SlideScore(rule, d, s.grid, s.score, s.won);
    SlideWon(rule, d, s.grid, s.score, s.won);
    SpawnCounts(s1, pick, four);
    WinningMergesPositive(o.grid);
    WinningMergesPositive(r.grid);
  }

  /** After a move the number of tiles is the number before, less one per
      merge, plus one when something moved and spawning is on; a move
      that happens always leaves room for that tile. */
  lemma MoveCount(rule: Rule, s: State, d: Direction, pick: nat, four: bool)
    requires |s.grid| == 16 && !IsGameOver(s)
    ensures var r := MoveTiles(rule, s, d, pick, four);
      Count(r.grid) == Count(s.grid) - MergedCount(r.grid) + (if Moves(rule, s, d) && s.generate then 1 else 0)
  {
    var o := Slide(rule, d, s.grid, s.score, s.won);
    var s1 := s.(grid := o.grid, score := o.score, won := o.won);
    SlideConservesTiles(rule, d, s.grid, s.score, s.won);
    SlideMoved(rule, d, s.grid, s.score, s.won);
    SpawnCounts(s1, pick, four);
  }

  /** A move is reported exactly when the slide changed the grid as
      `GameState::eq` sees it; a move that does not happen changes neither
      the score nor any tile's value or place. */
  lemma MovesIffChanged(rule: Rule, s: State, d: Direction, pick: nat, four: bool)
    requires |s.grid| == 16 && !IsGameOver(s)
    ensures Moves(rule, s, d) <==> !SameGrid(Slide(rule, d, s.grid, s.score, s.won).grid, s.grid)
    ensures !Moves(rule, s, d) ==>
      var r := MoveTiles(rule, s, d, pick, four);
      SameGrid(r.grid, s.grid) && r.score == s.score && r.won == s.won
  {
    SlideMoved(rule, d, s.grid, s.score, s.won);
  }

  /** After a move every tile either is the freshly spawned one (`New`,
      no previous position, value 2 or 4, on a cell the slide left empty)
      or comes from the pre-move board as `FromCell` describes. */
  lemma MoveProvenance(rule: Rule, s: State, d: Direction, pick: nat, four: bool)
    requires |s.grid| == 16 && !IsGameOver(s)
    ensures var r := MoveTiles(rule, s, d, pick, four);
      var o := Slide(rule, d, s.grid, s.score, s.won);
      forall c :: 0 <= c < 16 && r.grid[c].Some? ==>
        FromCell(d, s.grid, c, r.grid[c].value)
        || (o.grid[c].None? && r.grid[c].value == NewTile(SpawnValue(four)))
  {
    var o := Slide(rule, d, s.grid, s.score, s.won);
    var s1 := s.(grid := o.grid, score := o.score, won := o.won);
    SlideProvenance(rule, d, s.grid, s.score, s.won);
    SpawnOutcome(s1, pick, four);
  }

  // ---------------------------------------------------------------------
  // Construction and comparison
  // ---------------------------------------------------------------------

  function EmptyBoard(): (g: Board)
    ensures |g| == 16 && forall i :: 0 <= i < 16 ==> g[i].None?
  {
    seq(16, i => None)
  }

  /** Spawns one tile per draw, in order. */
  function Spawns(s: State, draws: seq<(nat, bool)>): (r: State)
    requires |s.grid| == 16
    ensures |r.grid| == 16
    decreases |draws|
  {
    if |draws| == 0 then s
    else
      var last := draws[|draws| - 1];
      AddRandomTile(Spawns(s, draws[..|draws| - 1]), last.0, last.1)
  }

  /** One more draw spawns one more tile on the game the earlier draws
      left. */
  lemma SpawnsStep(s: State, draws: seq<(nat, bool)>, n: nat)
    requires |s.grid| == 16 && n < |draws|
    ensures Spawns(s, draws[..n + 1]) == AddRandomTile(Spawns(s, draws[..n]), draws[n].0, draws[n].1)
  {
    assert draws[..n + 1][..n] == draws[..n];
  }

  /** `GameState::default`: an empty board with spawning on, after two
      spawns. */
  function DefaultGame(draws: seq<(nat, bool)>): State
    requires |draws| == 2
  {
    Spawns(NewGame(EmptyBoard(), true), draws)
  }

  /** A new default game holds exactly two tiles, both `New`, without a
      previous position and of value 2 or 4; score and flags are cleared. */
  lemma DefaultGameFacts(draws: seq<(nat, bool)>)
    requires |draws| == 2
    ensures var s := DefaultGame(draws);
      && |s.grid| == 16 && Count(s.grid) == 2
      && s.score == 0 && !s.over && !s.won && s.generate
      && forall i :: 0 <= i < 16 && s.grid[i].Some? ==>
           s.grid[i].value.state == New && s.grid[i].value.prevPos == None
           && (s.grid[i].value.value == 2 || s.grid[i].value.value == 4)
  {
    var s0 := NewGame(EmptyBoard(), true);
    assert draws[..1][..0] == [] && draws[..2 - 1] == draws[..1];
    assert Spawns(s0, draws[..1]) == AddRandomTile(s0, draws[0].0, draws[0].1);
    TwoSpawns(s0, draws[0].0, draws[0].1, draws[1].0, draws[1].1);
  }

  lemma TwoSpawns(s0: State, pick1: nat, four1: bool, pick2: nat, four2: bool)
    requires |s0.grid| == 16 && s0.generate && forall i :: 0 <= i < 16 ==> s0.grid[i].None?
    ensures var s := AddRandomTile(AddRandomTile(s0, pick1, four1), pick2, four2);
      && Count(s.grid) == 2 && s.score == s0.score && s.over == s0.over && s.won == s0.won && s.generate
      && forall i :: 0 <= i < 16 && s.grid[i].Some? ==>
           s.grid[i].value.state == New && s.grid[i].value.prevPos == None
           && (s.grid[i].value.value == 2 || s.grid[i].value.value == 4)
  {
    var s1 := AddRandomTile(s0, pick1, four1);
    assert HasEmpty(s0.grid) by { assert s0.grid[0].None?; }
    CountEmpty(s0.grid);
    SpawnCounts(s0, pick1, four1);
    CountBound(s1.grid);
    SpawnCounts(s1, pick2, four2);
    TwoSpawnsTiles(s0, pick1, four1, pick2, four2);
  }

  lemma TwoSpawnsTiles(s0: State, pick1: nat, four1: bool, pick2: nat, four2: bool)
    requires |s0.grid| == 16 && forall i :: 0 <= i < 16 ==> s0.grid[i].None?
    ensures var s := AddRandomTile(AddRandomTile(s0, pick1, four1), pick2, four2);
      forall i :: 0 <= i < 16 && s.grid[i].Some? ==>
        s.grid[i].value.state == New && s.grid[i].value.prevPos == None
        && (s.grid[i].value.value == 2 || s.grid[i].value.value == 4)
  {
    var s1 := AddRandomTile(s0, pick1, four1);
    var s2 := AddRandomTile(s1, pick2, four2);
    SpawnTiles(s0, pick1, four1);
    SpawnTiles(s1, pick2, four2);
    forall i | 0 <= i < 16 && s2.grid[i].Some?
      ensures s2.grid[i].value.state == New && s2.grid[i].value.prevPos == None
      ensures s2.grid[i].value.value == 2 || s2.grid[i].value.value == 4
    {
      if s2.grid[i] != Some(NewTile(SpawnValue(four2))) {
        assert s2.grid[i] == s1.grid[i];
        assert s1.grid[i] == Some(NewTile(SpawnValue(four1)));
      }
    }
  }

  /** Each tile after a spawn was there before or is the spawned one. */
  lemma SpawnTiles(s: State, pick: nat, four: bool)
    requires |s.grid| == 16
    ensures var r := AddRandomTile(s, pick, four);
      forall i :: 0 <= i < 16 && r.grid[i].Some? ==>
        r.grid[i] == s.grid[i] || r.grid[i] == Some(NewTile(SpawnValue(four)))
  {
    SpawnOutcome(s, pick, four);
  }

  /** `GameState::eq` compares grids by tile value only, ignoring score,
      flags, annotations and previous positions. */
  predicate SameGame(a: State, b: State)
  {
    SameGrid(a.grid, b.grid)
  }

  /** The comparison is an equivalence, and preparing a move or a move
      that does not happen keeps a game equal to itself. */
  lemma SameGameFacts(rule: Rule, a: State, b: State, c: State, d: Direction, pick: nat, four: bool)
    requires |a.grid| == 16
    ensures SameGame(a, a)
    ensures SameGame(a, b) ==> SameGame(b, a)
    ensures SameGame(a, b) && SameGame(b, c) ==> SameGame(a, c)
    ensures !Moves(rule, a, d) ==> SameGame(MoveTiles(rule, a, d, pick, four), a)
  {
    forall i | 0 <= i < |a.grid|
      ensures SameCell(a.grid[i], a.grid[i])
    {
    }
    if SameGame(a, b) {
      SameGridTrans(a.grid, b.grid, b.grid);
    }
    if SameGame(a, b) && SameGame(b, c) {
      SameGridTrans(a.grid, b.grid, c.grid);
    }
    if !IsGameOver(a) {
      MovesIffChanged(rule, a, d, pick, four);
    }
  }

  // ---------------------------------------------------------------------
  // The tiles handed to the view
  // ---------------------------------------------------------------------

  /** What one cell at index `i` contributes to `get_tiles`: nothing when
      empty; a merge product first as the tile it grew from (half its
      value, `Static`, same previous position) and then as itself; any
      other tile as itself. */
  function CellTiles(i: nat, c: Option<Tile>): seq<(nat, Tile)>
  {
    match c
    case None => []
    case Some(t) =>
      if t.state == Merged then [(i, PreMerge(t)), (i, t)]
      else [(i, t)]
  }

  /** The tile a merge product grew from, as `get_tiles` rebuilds it. */
  function PreMerge(t: Tile): (h: Tile)
    ensures h.state == Static && h.prevPos == t.prevPos && 2 * h.value <= t.value <= 2 * h.value + 1
  {
    Tile(t.value / 2, Static, t.prevPos)
  }

  /** Entry `e` lists an occupied cell of `g`: its tile or, for a merge
      product, the tile it grew from. */
  predicate Listed(g: Board, e: (nat, Tile))
  {
    e.0 < |g| && g[e.0].Some?
    && (e.1 == g[e.0].value || (g[e.0].value.state == Merged && e.1 == PreMerge(g[e.0].value)))
  }

  /** The entries one cell contributes are listed at its index: none for
      an empty cell, its tile alone for a tile that is not a merge product,
      and the tile it grew from followed by the tile for a merge product. */
  lemma CellTilesFacts(g: Board, i: nat)
    requires i < |g|
    ensures var c := CellTiles(i, g[i]);
      && (forall k :: 0 <= k < |c| ==> c[k].0 == i && Listed(g, c[k]))
      && (g[i].Some? ==>
            && |c| > 0 && c[|c| - 1] == (i, g[i].value)
            && (g[i].value.state != Merged ==> |c| == 1)
            && (g[i].value.state == Merged ==> |c| == 2 && c[0] == (i, PreMerge(g[i].value))))
      && (g[i].None? ==> |c| == 0)
  {
  }

  /** The entries for the first `n` cells of `g`, in order. */
  function TilesBelow(g: Board, n: nat): seq<(nat, Tile)>
    requires n <= |g|
  {
    if n == 0 then [] else TilesBelow(g, n - 1) + CellTiles(n - 1, g[n - 1])
  }

  /** `get_tiles`. */
  function GetTiles(g: Board): seq<(nat, Tile)>
  {
    TilesBelow(g, |g|)
  }

  /** One entry per tile and one more per merge product. */
  lemma {:induction false} TilesBelowLength(g: Board, n: nat)
    requires n <= |g|
    ensures |TilesBelow(g, n)| == Count(g[..n]) + MergedCount(g[..n])
  {
    if n > 0 {
      TilesBelowLength(g, n - 1);
      assert g[..n] == g[..n - 1] + [g[n - 1]];
      SumOfSnoc(Occupied, g[..n - 1], g[n - 1]);
      SumOfSnoc(MergedOne, g[..n - 1], g[n - 1]);
    }
  }

  /** Every entry is listed for a cell below `n`, and indices never
      decrease. */
  lemma {:induction false} TilesBelowSound(g: Board, n: nat)
    requires n <= |g|
    ensures forall k :: 0 <= k < |TilesBelow(g, n)| ==>
      Listed(g, TilesBelow(g, n)[k]) && TilesBelow(g, n)[k].0 < n
    ensures forall a, b :: 0 <= a < b < |TilesBelow(g, n)| ==>
      TilesBelow(g, n)[a].0 <= TilesBelow(g, n)[b].0
  {
    if n > 0 {
      TilesBelowSound(g, n - 1);
      var r0 := TilesBelow(g, n - 1);
      var tail := CellTiles(n - 1, g[n - 1]);
      var r := TilesBelow(g, n);
      assert r == r0 + tail;
      CellTilesFacts(g, n - 1);
      forall k | 0 <= k < |r|
        ensures Listed(g, r[k]) && r[k].0 < n
        ensures k >= |r0| ==> r[k].0 == n - 1
      {
        if k < |r0| {
          assert r[k] == r0[k];
        } else {
          assert r[k] == tail[k - |r0|];
        }
      }
      forall a, b | 0 <= a < b < |r|
        ensures r[a].0 <= r[b].0
      {
        if b < |r0| {
          assert r[a] == r0[a] && r[b] == r0[b];
        }
      }
    }
  }

  /** Tile `j` of the first `n` cells is listed at its index, and a merge
      product right after the tile it grew from. */
  predicate ListsCell(r: seq<(nat, Tile)>, j: nat, t: Tile)
  {
    exists k :: 0 <= k < |r| && r[k] == (j, t)
      && (t.state == Merged ==> k > 0 && r[k - 1] == (j, PreMerge(t)))
  }

  lemma {:induction false} TilesBelowComplete(g: Board, n: nat, j: nat)
    requires j < n <= |g| && g[j].Some?
    ensures ListsCell(TilesBelow(g, n), j, g[j].value)
  {
    var r0 := TilesBelow(g, n - 1);
    var tail := CellTiles(n - 1, g[n - 1]);
    var r := TilesBelow(g, n);
    assert r == r0 + tail;
    if j == n - 1 {
      CellTilesFacts(g, j);
      var k := |r| - 1;
      assert r[k] == tail[|tail| - 1];
      if g[j].value.state == Merged {
        assert r[k - 1] == tail[0];
      }
    } else {
      TilesBelowComplete(g, n - 1, j);
      var k :| 0 <= k < |r0| && r0[k] == (j, g[j].value)
        && (g[j].value.state == Merged ==> k > 0 && r0[k - 1] == (j, PreMerge(g[j].value)));
      assert r[k] == r0[k];
      if g[j].value.state == Merged {
        assert r[k - 1] == r0[k - 1];
      }
    }
  }

  /** What `get_tiles` promises the view: one entry per tile plus one per
      merge product, in board order; every entry is a tile of the board or
      the tile a merge product grew from; and every tile is listed, a
      merge product right after the tile it grew from. */
  lemma GetTilesFacts(g: Board)
    ensures |GetTiles(g)| == Count(g) + MergedCount(g)
    ensures forall k :: 0 <= k < |GetTiles(g)| ==> Listed(g, GetTiles(g)[k])
    ensures forall a, b :: 0 <= a < b < |GetTiles(g)| ==> GetTiles(g)[a].0 <= GetTiles(g)[b].0
    ensures forall j :: 0 <= j < |g| && g[j].Some? ==> ListsCell(GetTiles(g), j, g[j].value)
  {
    TilesBelowLength(g, |g|);
    assert g[..|g|] == g;
    TilesBelowSound(g, |g|);
    forall j | 0 <= j < |g| && g[j].Some?
      ensures ListsCell(GetTiles(g), j, g[j].value)
    {
      TilesBelowComplete(g, |g|, j);
    }
  }

}
