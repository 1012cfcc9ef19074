/** The mutable `GameState`: a 16-cell array updated in place by
    `prepare_move`, `move_tiles` and `add_random_tile`, and the score and
    flags beside it. Every method is proved to leave exactly the state the
    corresponding function of `Game` computes, with the merge candidate as
    the code picks it. */
module GameStates {
  import opened Tiles
  import opened Directions
  import opened Boards
  import opened Engine
  import Game

  class GameState {
    const grid: array<Option<Tile>>
    var score: nat
    /** Never assigned after construction: no operation computes it. */
    const over: bool
    var won: bool
    const generateTiles: bool

    ghost predicate Valid()
      reads this
    {
      grid.Length == 16
    }

    /** The ghost scan state `s` describes this game: its grid is the
        board read in the scan order of `d`, and score and `won` agree. */
    ghost predicate Mirrors(d: Direction, s: Scan)
      reads this, grid
    {
      Valid() && |s.h| == 16 && Lines(d, grid[..]) == s.h && s.score == score && s.won == won
    }

    /** The state as a value. */
    function Snapshot(): Game.State
      reads this, grid
      requires Valid()
    {
      Game.State(grid[..], score, over, won, generateTiles)
    }

    /** `GameState::new`. */
    constructor (cells: seq<Option<Tile>>, generateTiles: bool)
      requires |cells| == 16
      ensures Valid() && fresh(grid)
      ensures Snapshot() == Game.NewGame(cells, generateTiles)
    {
      grid := new Option<Tile>[16](i => if 0 <= i < |cells| then cells[i] else None);
      score := 0;
      over := false;
      won := false;
      this.generateTiles := generateTiles;
      new;
      assert grid[..] == cells;
    }

    /** `GameState::default`: an empty board with spawning on, and two
        spawns, drawn by `draws`. */
    constructor Default(draws: seq<(nat, bool)>)
      requires |draws| == 2
      ensures Valid() && fresh(grid)
      ensures Snapshot() == Game.DefaultGame(draws)
    {
      grid := new Option<Tile>[16](i => None);
      score := 0;
      over := false;
      won := false;
      generateTiles := true;
      new;
      assert grid[..] == Game.EmptyBoard();
      ghost var start := Game.NewGame(Game.EmptyBoard(), true);
      for n := 0 to 2
        invariant Valid()
        invariant Snapshot() == Game.Spawns(start, draws[..n])
      {
        Game.SpawnsStep(start, draws, n);
        AddRandomTile(draws[n].0, draws[n].1);
      }
      assert draws[..2] == draws;
    }

    /** `is_game_over`: reads the flags and changes nothing. */
    method IsGameOver() returns (b: bool)
      requires Valid()
      ensures b <==> Game.IsGameOver(Snapshot())
    {
      b := over || won;
    }

    /** `add_random_tile`: the empty cells are collected in index order and
        the one `pick` selects receives `Tile::new(2)`, or `Tile::new(4)`
        when `four`. */
    method AddRandomTile(pick: nat, four: bool)
      requires Valid()
      modifies grid
      ensures Valid() && Snapshot() == Game.AddRandomTile(old(Snapshot()), pick, four)
    {
      if !generateTiles {
        return;
      }
      var empties: seq<nat> := [];
      for i := 0 to 16
        invariant empties == Game.EmptyUpTo(grid[..], i)
      {
        if grid[i].None? {
          empties := empties + [i];
        }
      }
      if |empties| > 0 {
        var value := if four then 4 else 2;
        grid[empties[pick % |empties|]] := Some(NewTile(value));
      }
    }

    /** `prepare_move`: every tile is marked `New` and remembers its own
        index as previous position. */
    method PrepareMove()
      requires Valid()
      modifies grid
      ensures grid[..] == Prepared(old(grid[..]))
    {
      for i := 0 to 16
        invariant forall j :: 0 <= j < i ==> grid[j] == PrepareCell(old(grid[j]), j)
        invariant forall j :: i <= j < 16 ==> grid[j] == old(grid[j])
      {
        match grid[i]
        case None =>
        case Some(t) =>
          grid[i] := Some(t.(state := New, prevPos := Some(i)));
      }
    }

    /** `move_tiles`: two nested loops over the lines and the cells of a
        line, the read cursor `index` advancing by `step` and wrapping with
        `(index + stride + 16) % 16` between lines; a tile is spawned when
        anything moved. */
    method MoveTiles(d: Direction, pick: nat, four: bool)
      requires Valid()
      modifies this, grid
      ensures Valid() && Snapshot() == Game.MoveTiles(AsWritten, old(Snapshot()), d, pick, four)
    {
      var frozen := IsGameOver();
      if frozen {
        return;
      }
      ghost var before := Snapshot();
      PrepareMove();
      var moved := MoveLines(d);
      ghost var o := Slide(AsWritten, d, before.grid, before.score, before.won);
      ghost var mid := before.(grid := o.grid, score := o.score, won := o.won);
      assert Snapshot() == mid && moved == o.moved;
      MoveTilesSpawns(before, d, pick, four);
      if moved {
        AddRandomTile(pick, four);
      }
    }

    /** The two nested loops of `move_tiles`: starting from the edge cell
        of the first line, they run the scan over the four lines in turn,
        and report whether any tile moved or merged. */
    method MoveLines(d: Direction) returns (moved: bool)
      requires Valid()
      modifies this`score, this`won, grid
      ensures Valid()
      ensures var s := ScanFrom(Crosses(AsWritten, d), 0, Scan(Lines(d, old(grid[..])), 0, old(score), old(won), false));
        grid[..] == FromLines(d, s.h) && score == s.score && won == s.won && moved == s.moved
    {
      ghost var cross := Crosses(AsWritten, d);
      ghost var start := Scan(Lines(d, grid[..]), 0, score, won, false);
      moved := false;
      var index := Start(d);
      ghost var cur := start;
      LineStartIsEdge(d, 0);
      for line := 0 to 4
        invariant line < 4 ==> index == RowMajor(d, line, 0)
        invariant cur == Passes(cross, line, start)
        invariant Mirrors(d, cur) && cur.moved == moved
      {
        var movedLine;
        index, movedLine := MoveLine(d, line, index, cur);
        moved := moved || movedLine;
        WrapToNextLine(d, line, index);
        index := RemI32(index + Stride(d) + 16, 16);
        cur := ScanLine(cross, line, 0, cur.(pos := 0));
      }
      PassesScan(cross, start);
      LinesRoundTrip(d, grid[..], cur.h);
    }

    /** The inner loop of `move_tiles` over line `line`, entered with the
        read cursor `index` and the write cursor `next` both on the line's
        edge cell; it leaves the read cursor one step past the line. Its
        effect is the scan of that line, `ScanLine`. */
    method MoveLine(d: Direction, line: nat, index: int, ghost cur: Scan) returns (index': int, movedLine: bool)
      requires line < 4 && index == RowMajor(d, line, 0) && Mirrors(d, cur)
      modifies this`score, this`won, grid
      ensures var s' := ScanLine(Crosses(AsWritten, d), line, 0, cur.(pos := 0));
        Mirrors(d, s') && s'.moved == (cur.moved || movedLine) && index' == RowMajor(d, line, 4)
    {
      ghost var cross := Crosses(AsWritten, d);
      ghost var start := cur.(pos := 0);
      index' := index;
      movedLine := false;
      var next := index;
      ghost var s := start;
      for k := 0 to 4
        invariant s == Scanned(cross, line, k, start)
        invariant index' == RowMajor(d, line, k) && next == RowMajor(d, line, s.pos)
        invariant Mirrors(d, s) && s.moved == (cur.moved || movedLine)
      {
        var movedTile;
        next, movedTile := MoveTile(d, line, k, index', next, s);
        movedLine := movedLine || movedTile;
        StepForward(d, line, k);
        index' := index' + Step(d);
        s := Visit(cross, line, k, s);
      }
      ScannedLine(cross, line, start);
    }

    /** The body of the inner loop of `move_tiles`, reading the cell at
        `index` with the write cursor at `next`. The tile there merges into
        the candidate `prev = next - step` when that cell is on the board,
        holds a tile not yet merged and of the same value; otherwise it is
        marked `Static` and moved to `next`, which then advances. The new
        state is one step of the scan, `Visit`. */
    method MoveTile(d: Direction, line: nat, k: nat, index: int, next: int, ghost s: Scan)
      returns (next': int, movedTile: bool)
      requires line < 4 && s.pos <= k < 4 && Mirrors(d, s)
      requires index == Cell(d, line, k) && next == Cell(d, line, s.pos)
      modifies this`score, this`won, grid
      ensures var s' := Visit(Crosses(AsWritten, d), line, k, s);
        Mirrors(d, s') && s'.moved == (s.moved || movedTile) && next' == RowMajor(d, line, s'.pos)
    {
      ghost var g := grid[..];
      next' := next;
      movedTile := false;
      if grid[index].None? {
        NothingToMove(d, g, line, k, s);
        return;
      }
      var currTile := grid[index].value;
      var prev := next - Step(d);
      if 0 <= prev < 16 && grid[prev].Some? && grid[prev].value.state != Merged
         && SameValue(grid[prev].value, currTile) {
        MergeTile(d, line, k, index, prev, s);
        movedTile := true;
      } else if index == next {
        StayTile(d, line, k, index, s);
        next' := next + Step(d);
      } else {
        SlideTile(d, line, k, index, next, s);
        movedTile := true;
        next' := next + Step(d);
      }
    }

    /** The merge branch: the tile at `prev` doubles and is marked
        `Merged`, the cell at `index` empties, and the score grows. */
    method MergeTile(d: Direction, line: nat, k: nat, index: int, prev: int, ghost s: Scan)
      requires line < 4 && s.pos <= k < 4 && Mirrors(d, s)
      requires index == Cell(d, line, k) && prev == Cell(d, line, s.pos) - Step(d)
      requires CodeMerges(d, grid[..], line, k, s)
      modifies this`score, this`won, grid
      ensures var s' := Visit(Crosses(AsWritten, d), line, k, s);
        Mirrors(d, s') && s'.moved && s'.pos == s.pos
    {
      ghost var g := grid[..];
      MergeIsVisit(d, g, line, k, s);
      var mergeTile := grid[prev].value;
      mergeTile := Update(mergeTile, mergeTile.value * 2, Merged);
      ghost var s' := s.(h := Lines(d, g[prev := Some(mergeTile)][index := None]),
                         score := s.score + mergeTile.value, won := s.won || mergeTile.value == 2048, moved := true);
      assert Visit(Crosses(AsWritten, d), line, k, s) == s';
      grid[prev] := Some(mergeTile);
      grid[index] := None;
      score := score + mergeTile.value;
      if mergeTile.value == 2048 {
        won := true;
      }
      assert grid[..] == g[prev := Some(mergeTile)][index := None];
    }

    /** The tile at `index` stays where it is, marked `Static`. */
    method StayTile(d: Direction, line: nat, k: nat, index: int, ghost s: Scan)
      requires line < 4 && s.pos <= k < 4 && Mirrors(d, s)
      requires index == Cell(d, line, k) && index == Cell(d, line, s.pos) && grid[index].Some?
      requires !CodeMerges(d, grid[..], line, k, s)
      modifies grid
      ensures var s' := Visit(Crosses(AsWritten, d), line, k, s);
        Mirrors(d, s') && s'.moved == s.moved && s'.pos == s.pos + 1
        && index + Step(d) == RowMajor(d, line, s'.pos)
    {
      ghost var g := grid[..];
      StayIsVisit(d, g, line, k, s);
      var currTile := grid[index].value;
      currTile := Update(currTile, currTile.value, Static);
      grid[index] := Some(currTile);
      assert grid[..] == g[index := Some(currTile)];
    }

    /** The tile at `index` moves to `next`, marked `Static`. */
    method SlideTile(d: Direction, line: nat, k: nat, index: int, next: int, ghost s: Scan)
      requires line < 4 && s.pos <= k < 4 && Mirrors(d, s)
      requires index == Cell(d, line, k) && next == Cell(d, line, s.pos) && index != next
      requires grid[index].Some? && !CodeMerges(d, grid[..], line, k, s)
      modifies grid
      ensures var s' := Visit(Crosses(AsWritten, d), line, k, s);
        Mirrors(d, s') && s'.moved && s'.pos == s.pos + 1
        && next + Step(d) == RowMajor(d, line, s'.pos)
    {
      ghost var g := grid[..];
      SlideIsVisit(d, g, line, k, s);
      var currTile := grid[index].value;
      currTile := Update(currTile, currTile.value, Static);
      grid[next] := Some(currTile);
      grid[index] := None;
      assert grid[..] == g[next := Some(currTile)][index := None];
    }
  }

  /** A move on a game that is not frozen spawns after the slide exactly
      when the slide moved something. */
  lemma MoveTilesSpawns(before: Game.State, d: Direction, pick: nat, four: bool)
    requires |before.grid| == 16 && !Game.IsGameOver(before)
    ensures var o := Slide(AsWritten, d, before.grid, before.score, before.won);
      var mid := before.(grid := o.grid, score := o.score, won := o.won);
      Game.MoveTiles(AsWritten, before, d, pick, four) == if o.moved then Game.AddRandomTile(mid, pick, four) else mid
  {
  }

  /** The inner loop's state once it has read positions `0..k` of line
      `l`, starting from `s0`. */
  function Scanned(cross: bool, l: nat, k: nat, s0: Scan): (s: Scan)
    requires |s0.h| == 16 && l < 4 && s0.pos == 0 && k <= 4
    ensures |s.h| == 16 && s.pos <= k
    decreases k
  {
    if k == 0 then s0 else Visit(cross, l, k - 1, Scanned(cross, l, k - 1, s0))
  }

  /** The reads still to come finish the scan of the line. */
  lemma {:induction false} ScannedThenRest(cross: bool, l: nat, k: nat, s0: Scan)
    requires |s0.h| == 16 && l < 4 && s0.pos == 0 && k <= 4
    ensures ScanLine(cross, l, k, Scanned(cross, l, k, s0)) == ScanLine(cross, l, 0, s0)
    decreases k
  {
    if k > 0 {
      var p := Scanned(cross, l, k - 1, s0);
      ScannedThenRest(cross, l, k - 1, s0);
      assert ScanLine(cross, l, k - 1, p) == ScanLine(cross, l, k, Visit(cross, l, k - 1, p));
    }
  }

  /** Reading all four positions is the scan of the line. */
  lemma ScannedLine(cross: bool, l: nat, s0: Scan)
    requires |s0.h| == 16 && l < 4 && s0.pos == 0
    ensures Scanned(cross, l, 4, s0) == ScanLine(cross, l, 0, s0)
  {
    ScannedThenRest(cross, l, 4, s0);
  }

  /** The outer loop's state once it has scanned lines `0..l`, starting
      from `s0`. */
  function Passes(cross: bool, l: nat, s0: Scan): (s: Scan)
    requires |s0.h| == 16 && l <= 4
    ensures |s.h| == 16
    decreases l
  {
    if l == 0 then s0 else ScanLine(cross, l - 1, 0, Passes(cross, l - 1, s0).(pos := 0))
  }

  /** The lines still to come finish the scan of the board. */
  lemma {:induction false} PassesThenRest(cross: bool, l: nat, s0: Scan)
    requires |s0.h| == 16 && l <= 4
    ensures ScanFrom(cross, l, Passes(cross, l, s0)) == ScanFrom(cross, 0, s0)
    decreases l
  {
    if l > 0 {
      var p := Passes(cross, l - 1, s0);
      PassesThenRest(cross, l - 1, s0);
      assert ScanFrom(cross, l - 1, p) == ScanFrom(cross, l, ScanLine(cross, l - 1, 0, p.(pos := 0)));
    }
  }

  /** Scanning all four lines is the scan of the board. */
  lemma PassesScan(cross: bool, s0: Scan)
    requires |s0.h| == 16
    ensures Passes(cross, 4, s0) == ScanFrom(cross, 0, s0)
  {
    PassesThenRest(cross, 4, s0);
  }

  /** What `MoveTile` knows on entry: `g` read in scan order is the scan's
      grid, with the read cursor at position `k` of line `l`. */
  predicate AtCell(d: Direction, g: Board, l: nat, k: nat, s: Scan)
  {
    |g| == 16 && |s.h| == 16 && l < 4 && s.pos <= k < 4 && Lines(d, g) == s.h
  }

  /** The condition under which the code merges, written on the board. */
  predicate CodeMerges(d: Direction, g: Board, l: nat, k: nat, s: Scan)
    requires AtCell(d, g, l, k, s)
  {
    var prev := Cell(d, l, s.pos) - Step(d);
    var index := Cell(d, l, k);
    && g[index].Some? && 0 <= prev < 16 && g[prev].Some?
    && g[prev].value.state != Merged && SameValue(g[prev].value, g[index].value)
  }

  lemma NothingToMove(d: Direction, g: Board, l: nat, k: nat, s: Scan)
    requires AtCell(d, g, l, k, s) && g[Cell(d, l, k)].None?
    ensures Visit(Crosses(AsWritten, d), l, k, s) == s
    ensures s.pos <= 4 && Cell(d, l, s.pos) == RowMajor(d, l, s.pos)
  {
    LinesAt(d, g, l, k);
  }

  /** The code's merge condition is the scan's: the entry read is the
      cell at `index`, and the candidate entry is the cell `prev`. */
  lemma CodeMergesIsCanMerge(d: Direction, g: Board, l: nat, k: nat, s: Scan)
    requires AtCell(d, g, l, k, s) && g[Cell(d, l, k)].Some?
    ensures s.h[4 * l + k] == g[Cell(d, l, k)]
    ensures CodeMerges(d, g, l, k, s) <==> CanMerge(Crosses(AsWritten, d), l, s, g[Cell(d, l, k)].value)
  {
    CandidateIsPrev(d, g, l, s.pos);
    LinesAt(d, g, l, k);
  }

  lemma MergeIsVisit(d: Direction, g: Board, l: nat, k: nat, s: Scan)
    requires AtCell(d, g, l, k, s) && CodeMerges(d, g, l, k, s)
    ensures var prev := Cell(d, l, s.pos) - Step(d);
      var t := g[prev].value;
      var m := Update(t, t.value * 2, Merged);
      && Visit(Crosses(AsWritten, d), l, k, s)
         == s.(h := Lines(d, g[prev := Some(m)][Cell(d, l, k) := None]),
               score := s.score + m.value, won := s.won || m.value == 2048, moved := true)
      && s.pos <= 4 && Cell(d, l, s.pos) == RowMajor(d, l, s.pos)
  {
    var cross := Crosses(AsWritten, d);
    CodeMergesIsCanMerge(d, g, l, k, s);
    assert Visit(cross, l, k, s) == MergeInto(cross, l, 4 * l + k, s);
    MergeWrites(d, g, l, k, s);
  }

  /** The scan's merge step, written on the board: the cell `prev` gets
      the doubled tile and the cell at `index` empties. */
  lemma MergeWrites(d: Direction, g: Board, l: nat, k: nat, s: Scan)
    requires AtCell(d, g, l, k, s) && CodeMerges(d, g, l, k, s)
    ensures var cross := Crosses(AsWritten, d);
      var c := Candidate(cross, l, s.pos);
      0 <= c < 16 && s.h[c].Some? &&
      var prev := Cell(d, l, s.pos) - Step(d);
      var t := g[prev].value;
      var m := Update(t, t.value * 2, Merged);
      MergeInto(cross, l, 4 * l + k, s)
        == s.(h := Lines(d, g[prev := Some(m)][Cell(d, l, k) := None]),
              score := s.score + m.value, won := s.won || m.value == 2048, moved := true)
  {
    var prev := Cell(d, l, s.pos) - Step(d);
    var t := g[prev].value;
    var m := Update(t, t.value * 2, Merged);
    var cl, ck := CandidateCell(d, l, s.pos);
    LinesAt(d, g, cl, ck);
    LinesUpdate2(d, g, cl, ck, Some(m), l, k, None);
  }

  lemma StayIsVisit(d: Direction, g: Board, l: nat, k: nat, s: Scan)
    requires AtCell(d, g, l, k, s) && !CodeMerges(d, g, l, k, s)
    requires g[Cell(d, l, k)].Some? && Cell(d, l, k) == Cell(d, l, s.pos)
    ensures var cur := g[Cell(d, l, k)].value;
      && Visit(Crosses(AsWritten, d), l, k, s)
         == s.(h := Lines(d, g[Cell(d, l, k) := Some(Update(cur, cur.value, Static))]), pos := s.pos + 1)
      && s.pos + 1 <= 4 && Cell(d, l, s.pos) + Step(d) == RowMajor(d, l, s.pos + 1)
  {
    var cur := g[Cell(d, l, k)].value;
    CodeMergesIsCanMerge(d, g, l, k, s);
    CellInjective(d, l, k, l, s.pos);
    assert Visit(Crosses(AsWritten, d), l, k, s) == PlaceAt(l, k, s, cur);
    LinesUpdate(d, g, l, k, Some(Update(cur, cur.value, Static)));
    StepForward(d, l, s.pos);
  }

  lemma SlideIsVisit(d: Direction, g: Board, l: nat, k: nat, s: Scan)
    requires AtCell(d, g, l, k, s) && !CodeMerges(d, g, l, k, s)
    requires g[Cell(d, l, k)].Some? && Cell(d, l, k) != Cell(d, l, s.pos)
    ensures var cur := g[Cell(d, l, k)].value;
      var st := Update(cur, cur.value, Static);
      && Visit(Crosses(AsWritten, d), l, k, s)
         == s.(h := Lines(d, g[Cell(d, l, s.pos) := Some(st)][Cell(d, l, k) := None]),
               pos := s.pos + 1, moved := true)
      && s.pos + 1 <= 4 && Cell(d, l, s.pos) + Step(d) == RowMajor(d, l, s.pos + 1)
  {
    var cur := g[Cell(d, l, k)].value;
    var st := Update(cur, cur.value, Static);
    CodeMergesIsCanMerge(d, g, l, k, s);
    assert k != s.pos;
    assert Visit(Crosses(AsWritten, d), l, k, s) == PlaceAt(l, k, s, cur);
    LinesUpdate2(d, g, l, s.pos, Some(st), l, k, None);
    StepForward(d, l, s.pos);
  }

  /** The merge candidate, when on the board, as a line and position. */
  lemma CandidateCell(d: Direction, l: nat, pos: nat) returns (cl: nat, ck: nat)
    requires l < 4 && pos < 4 && 0 <= RowMajor(d, l, pos) - Step(d) < 16
    ensures cl < 4 && ck < 4
    ensures Candidate(Crosses(AsWritten, d), l, pos) == 4 * cl + ck
    ensures RowMajor(d, l, pos) - Step(d) == Cell(d, cl, ck)
  {
    if pos > 0 {
      StepBack(d, l, pos);
      cl, ck := l, pos - 1;
    } else {
      StepBackFromEdge(d, l);
      cl, ck := l - 1, 3;
    }
  }

  /** The cell the code offers as merge candidate, `next - step`, is on the
      board exactly when `Candidate` is, and then holds the same entry. */
  lemma CandidateIsPrev(d: Direction, g: Board, l: nat, pos: nat)
    requires |g| == 16 && l < 4 && pos < 4
    ensures var prev := RowMajor(d, l, pos) - Step(d);
      var c := Candidate(Crosses(AsWritten, d), l, pos);
      && (0 <= prev < 16 <==> 0 <= c < 16)
      && (0 <= c < 16 ==>
            && 0 <= Row(c) < 4 && 0 <= Col(c) < 4 && c == 4 * Row(c) + Col(c)
            && prev == Cell(d, Row(c), Col(c)) && g[prev] == Lines(d, g)[c])
  {
    var c := Candidate(Crosses(AsWritten, d), l, pos);
    if pos > 0 {
      StepBack(d, l, pos);
      DivMod4(l, pos - 1);
      LinesAt(d, g, l, pos - 1);
    } else {
      StepBackFromEdge(d, l);
      if (d == Left || d == Right) && l > 0 {
        DivMod4(l - 1, 3);
        LinesAt(d, g, l - 1, 3);
      }
    }
  }
}
