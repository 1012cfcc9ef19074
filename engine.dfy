/** The loop of `move_tiles` as values. The board is read in scan order
    (`Lines`), so that the cell the inner loop reads is entry `4 * l + k`
    and the write cursor `next` is entry `4 * l + pos`; one move is the
    loop body folded over the sixteen entries. The `GameState` class is
    proved against these functions, and what a move promises is proved
    here about them. */
module Engine {
  import opened Tiles
  import opened Directions
  import opened Boards

  /** Which cell is offered as merge candidate when the write cursor is at
      the edge of its line. `AsWritten` is the code: the cell one step
      back, kept whenever it lies on the board, which for Left and Right
      is the last cell of the row scanned before. `LineBounded` offers no
      candidate there, as the game's rules intend. */
  datatype Rule = AsWritten | LineBounded

  /** Whether the candidate of an edge cursor can lie on the board: only
      as written, and only when lines are rows (one step back from the
      edge of a column always leaves the board). */
  function Crosses(rule: Rule, d: Direction): bool
  {
    rule == AsWritten && (d == Left || d == Right)
  }

  /** `prev = next - step` in scan order: the entry before the write
      cursor; for an edge cursor that step leaves the line, landing on the
      previous line only if `cross` and off the board otherwise. */
  function Candidate(cross: bool, l: nat, pos: nat): int
  {
    if pos > 0 || cross then 4 * l + pos - 1 else -1
  }

  /** The state the loop updates: the grid in scan order, the write
      cursor's position in the current line, the score, `won` and `moved`. */
  datatype Scan = Scan(h: Board, pos: nat, score: nat, won: bool, moved: bool)

  /** The tile read at entry `b` merges into the candidate entry: it lies
      on the board, holds a tile not merged in this move, of equal value. */
  predicate CanMerge(cross: bool, l: nat, s: Scan, cur: Tile)
    requires |s.h| == 16
  {
    var c := Candidate(cross, l, s.pos);
    0 <= c < 16 && s.h[c].Some? && s.h[c].value.state != Merged && SameValue(s.h[c].value, cur)
  }

  /** The merge: the candidate doubles and is marked `Merged`, entry `b`
      empties, and the score grows by the new value. */
  function MergeInto(cross: bool, l: nat, b: nat, s: Scan): (s': Scan)
    requires |s.h| == 16 && b < 16
    requires 0 <= Candidate(cross, l, s.pos) < 16 && s.h[Candidate(cross, l, s.pos)].Some?
    ensures |s'.h| == 16 && s'.pos == s.pos
  {
    var c := Candidate(cross, l, s.pos);
    var m := Update(s.h[c].value, s.h[c].value.value * 2, Merged);
    s.(h := s.h[c := Some(m)][b := None],
       score := s.score + m.value, won := s.won || m.value == 2048, moved := true)
  }

  /** No merge: the tile read at position `k` is marked `Static` and
      written at the write cursor, which advances. */
  function PlaceAt(l: nat, k: nat, s: Scan, cur: Tile): (s': Scan)
    requires |s.h| == 16 && l < 4 && s.pos <= k < 4
    ensures |s'.h| == 16 && s'.pos == s.pos + 1
  {
    var b := 4 * l + k;
    if k == s.pos then
      s.(h := s.h[b := Some(Update(cur, cur.value, Static))], pos := s.pos + 1)
    else
      s.(h := s.h[4 * l + s.pos := Some(Update(cur, cur.value, Static))][b := None],
         pos := s.pos + 1, moved := true)
  }

  /** One iteration of the inner loop, reading position `k` of line `l`. */
  function Visit(cross: bool, l: nat, k: nat, s: Scan): (s': Scan)
    requires |s.h| == 16 && l < 4 && s.pos <= k < 4
    ensures |s'.h| == 16 && s.pos <= s'.pos <= s.pos + 1
  {
    var b := 4 * l + k;
    if s.h[b].None? then s
    else if CanMerge(cross, l, s, s.h[b].value) then MergeInto(cross, l, b, s)
    else PlaceAt(l, k, s, s.h[b].value)
  }

  /** The inner loop from position `k` to the end of line `l`. */
  function ScanLine(cross: bool, l: nat, k: nat, s: Scan): (s': Scan)
    requires |s.h| == 16 && l < 4 && s.pos <= k <= 4
    ensures |s'.h| == 16 && s'.pos <= 4
    decreases 4 - k
  {
    if k == 4 then s else ScanLine(cross, l, k + 1, Visit(cross, l, k, s))
  }

  /** The outer loop from line `l` on; each line starts with `next = index`. */
  function ScanFrom(cross: bool, l: nat, s: Scan): (s': Scan)
    requires |s.h| == 16 && l <= 4
    ensures |s'.h| == 16
    decreases 4 - l
  {
    if l == 4 then s else ScanFrom(cross, l + 1, ScanLine(cross, l, 0, s.(pos := 0)))
  }

  /** What a move leaves behind before any tile is spawned. */
  datatype Outcome = Outcome(grid: Board, score: nat, won: bool, moved: bool)

  /** `prepare_move` followed by the two loops of `move_tiles`. */
  function Slide(rule: Rule, d: Direction, g: Board, score: nat, won: bool): (o: Outcome)
    requires |g| == 16
    ensures |o.grid| == 16
  {
    var s := ScanFrom(Crosses(rule, d), 0, Scan(Lines(d, Prepared(g)), 0, score, won, false));
    Outcome(FromLines(d, s.h), s.score, s.won, s.moved)
  }

  // ---------------------------------------------------------------------
  // The scan invariant
  // ---------------------------------------------------------------------

  /** Sum of `r + 1` over the occupied entries `r < n`: a tile sliding
      toward the edge or vanishing in a merge makes it strictly smaller. */
  function Weigh(h: Board, n: nat): nat
    requires n <= |h|
    decreases n
  {
    if n == 0 then 0 else Weigh(h, n - 1) + (if h[n - 1].Some? then n else 0)
  }

  function Potential(h: Board): nat { Weigh(h, |h|) }

  lemma {:induction false} WeighUpdate(h: Board, n: nat, i: nat, x: Option<Tile>)
    requires n <= |h| && i < |h|
    ensures Weigh(h[i := x], n) + (if i < n && h[i].Some? then i + 1 else 0)
         == Weigh(h, n) + (if i < n && x.Some? then i + 1 else 0)
  {
    if n > 0 {
      WeighUpdate(h, n - 1, i, x);
    }
  }

  lemma {:induction false} WeighSame(a: Board, b: Board, n: nat)
    requires SameGrid(a, b) && n <= |a|
    ensures Weigh(a, n) == Weigh(b, n)
  {
    if n > 0 {
      assert SameCell(a[n - 1], b[n - 1]);
      WeighSame(a, b, n - 1);
    }
  }

  /** A grid fresh from `prepare_move`: no tile carries a move annotation. */
  predicate Initial(h0: Board)
  {
    |h0| == 16 && forall r :: 0 <= r < 16 && h0[r].Some? ==> h0[r].value.state == New
  }

  /** Entries the scan has not reached still hold their prepared contents. */
  predicate Untouched(h0: Board, b: nat, h: Board)
    requires |h0| == 16 && |h| == 16
  {
    forall r :: b <= r < 16 ==> h[r] == h0[r]
  }

  /** Between the write cursor and the read cursor the line is empty. */
  predicate GapEmpty(l: nat, pos: nat, k: nat, h: Board)
    requires |h| == 16 && l < 4 && k <= 4
  {
    forall r :: 4 * l + pos <= r < 4 * l + k ==> h[r].None?
  }

  /** Tile `t` at entry `r` comes from the prepared grid `h0`: it shares
      the previous position of a tile of the same line at or behind `r`,
      and it is that tile, either `Static` with the same value or `Merged`
      with the value doubled once. */
  predicate Source(h0: Board, r: nat, t: Tile)
    requires |h0| == 16 && r < 16
  {
    exists j :: r <= j < 4 * Row(r) + 4 && h0[j].Some? && h0[j].value.prevPos == t.prevPos
      && (if t.state == Merged then t.value == 2 * h0[j].value.value
          else t.state == Static && t.value == h0[j].value.value)
  }

  predicate AllTraced(h0: Board, b: nat, h: Board)
    requires |h0| == 16 && |h| == 16
  {
    forall r :: 0 <= r < b && r < 16 && h[r].Some? ==> Source(h0, r, h[r].value)
  }

  /** The counters the scan keeps in step with the grid. */
  predicate Bookkeeping(h0: Board, score0: nat, won0: bool, s: Scan)
    requires |h0| == 16 && |s.h| == 16
  {
    && Count(s.h) + MergedCount(s.h) == Count(h0)
    && ValueSum(s.h) == ValueSum(h0)
    && s.score == score0 + MergedSum(s.h)
    && s.won == (won0 || WinningMerges(s.h) > 0)
    && Potential(s.h) <= Potential(h0)
    && (s.moved ==> Potential(s.h) < Potential(h0) && Count(s.h) < 16)
    && (!s.moved ==> SameGrid(s.h, h0) && MergedCount(s.h) == 0)
  }

  predicate ScanInv(h0: Board, score0: nat, won0: bool, l: nat, k: nat, s: Scan)
    requires |h0| == 16 && |s.h| == 16 && l < 4
  {
    && s.pos <= k <= 4
    && Untouched(h0, 4 * l + k, s.h)
    && GapEmpty(l, s.pos, k, s.h)
    && AllTraced(h0, 4 * l + k, s.h)
    && Bookkeeping(h0, score0, won0, s)
  }

  /** Writing a traced tile (or nothing) below the bound keeps every
      entry traced. */
  lemma TracedSet(h0: Board, bound: nat, h: Board, i: nat, x: Option<Tile>)
    requires |h0| == 16 && |h| == 16 && i < 16
    requires AllTraced(h0, bound, h)
    requires x.Some? ==> Source(h0, i, x.value)
    ensures AllTraced(h0, bound, h[i := x])
  {
    var h' := h[i := x];
    forall r | 0 <= r < bound && r < 16 && h'[r].Some?
      ensures Source(h0, r, h'[r].value)
    {
      if r != i {
        assert h'[r] == h[r];
      }
    }
  }

  /** The bound moves past an entry that is empty or traced. */
  lemma TracedExtend(h0: Board, b: nat, h: Board)
    requires |h0| == 16 && |h| == 16 && b < 16
    requires AllTraced(h0, b, h)
    requires h[b].Some? ==> Source(h0, b, h[b].value)
    ensures AllTraced(h0, b + 1, h)
  {
  }

  /** A tile of the prepared grid, kept or doubled, is traced at any entry
      of its line at or before its own. */
  lemma SourceAt(h0: Board, l: nat, p: nat, k: nat, t: Tile)
    requires |h0| == 16 && l < 4 && p <= k < 4
    requires h0[4 * l + k].Some? && h0[4 * l + k].value.prevPos == t.prevPos
    requires if t.state == Merged then t.value == 2 * h0[4 * l + k].value.value
             else t.state == Static && t.value == h0[4 * l + k].value.value
    ensures Source(h0, 4 * l + p, t)
  {
    DivMod4(l, p);
  }

  /** Doubling a traced `Static` tile into a `Merged` one keeps it traced. */
  lemma DoubledSource(h0: Board, c: nat, t: Tile)
    requires |h0| == 16 && c < 16
    requires Source(h0, c, t) && t.state != Merged
    ensures Source(h0, c, Update(t, t.value * 2, Merged))
  {
    var j :| c <= j < 4 * Row(c) + 4 && h0[j].Some? && h0[j].value.prevPos == t.prevPos
      && t.value == h0[j].value.value;
    assert Update(t, t.value * 2, Merged).prevPos == h0[j].value.prevPos;
  }

  /** A merge keeps the scan invariant. */
  lemma VisitMerge(cross: bool, h0: Board, score0: nat, won0: bool, l: nat, k: nat, s: Scan)
    requires Initial(h0) && |s.h| == 16 && l < 4 && k < 4
    requires ScanInv(h0, score0, won0, l, k, s)
    requires s.h[4 * l + k].Some? && CanMerge(cross, l, s, s.h[4 * l + k].value)
    ensures ScanInv(h0, score0, won0, l, k + 1, MergeInto(cross, l, 4 * l + k, s))
  {
    var b := 4 * l + k;
    var c := Candidate(cross, l, s.pos);
    assert s.h[b] == h0[b];
    assert Source(h0, c, s.h[c].value);
    MergeTrace(h0, l, k, c, s);
    MergeBooks(h0, score0, won0, s, c, b);
  }

  /** Doubling the candidate `c` and emptying the entry read keeps every
      entry traced and the gap empty. */
  lemma MergeTrace(h0: Board, l: nat, k: nat, c: nat, s: Scan)
    requires |h0| == 16 && |s.h| == 16 && l < 4 && s.pos <= k < 4 && c < 4 * l + s.pos
    requires Untouched(h0, 4 * l + k, s.h) && GapEmpty(l, s.pos, k, s.h) && AllTraced(h0, 4 * l + k, s.h)
    requires s.h[c].Some? && s.h[c].value.state != Merged
    ensures var t := s.h[c].value;
      var h2 := s.h[c := Some(Update(t, t.value * 2, Merged))][4 * l + k := None];
      Untouched(h0, 4 * l + k + 1, h2) && GapEmpty(l, s.pos, k + 1, h2) && AllTraced(h0, 4 * l + k + 1, h2)
  {
    var h := s.h;
    var b := 4 * l + k;
    var t := h[c].value;
    var m := Update(t, t.value * 2, Merged);
    var h1 := h[c := Some(m)];
    var h2 := h1[b := None];
    assert Source(h0, c, t);
    DoubledSource(h0, c, t);
    TracedSet(h0, b, h, c, Some(m));
    TracedSet(h0, b, h1, b, None);
    TracedExtend(h0, b, h2);
    assert Untouched(h0, b + 1, h2);
    assert GapEmpty(l, s.pos, k + 1, h2);
  }

  /** A merge at candidate `c` of the tile read at `b` keeps the counters:
      one tile fewer, one more merge product, its value added to the score. */
  lemma MergeBooks(h0: Board, score0: nat, won0: bool, s: Scan, c: nat, b: nat)
    requires |h0| == 16 && |s.h| == 16 && c < b < 16
    requires Bookkeeping(h0, score0, won0, s)
    requires s.h[c].Some? && s.h[c].value.state == Static
    requires s.h[b].Some? && s.h[b].value.state == New && s.h[b].value.value == s.h[c].value.value
    ensures var m := Update(s.h[c].value, s.h[c].value.value * 2, Merged);
      Bookkeeping(h0, score0, won0,
        s.(h := s.h[c := Some(m)][b := None], score := s.score + m.value,
           won := s.won || m.value == 2048, moved := true))
  {
    var h := s.h;
    var t := h[c].value;
    var m := Update(t, t.value * 2, Merged);
    var h1 := h[c := Some(m)];
    var h2 := h1[b := None];
    CellChange(h, c, Some(m));
    CellChange(h1, b, None);
    WeighUpdate(h, 16, c, Some(m));
    WeighUpdate(h1, 16, b, None);
    CountBound(h);
    assert h1[b] == h[b];
  }

  /** A tile that stays where it is keeps the scan invariant. */
  lemma VisitStay(h0: Board, score0: nat, won0: bool, l: nat, k: nat, s: Scan)
    requires Initial(h0) && |s.h| == 16 && l < 4 && k < 4
    requires ScanInv(h0, score0, won0, l, k, s)
    requires s.h[4 * l + k].Some? && s.pos == k
    ensures var cur := s.h[4 * l + k].value;
      ScanInv(h0, score0, won0, l, k + 1,
        s.(h := s.h[4 * l + k := Some(Update(cur, cur.value, Static))], pos := s.pos + 1))
  {
    var h := s.h;
    var b := 4 * l + k;
    var cur := h[b].value;
    var st := Update(cur, cur.value, Static);
    var h1 := h[b := Some(st)];
    assert h[b] == h0[b];
    SourceAt(h0, l, k, k, st);
    TracedSet(h0, b, h, b, Some(st));
    TracedExtend(h0, b, h1);
    StayBooks(h0, score0, won0, s, b);
  }

  /** Marking the tile read at `b` `Static` where it stands keeps the
      counters. */
  lemma StayBooks(h0: Board, score0: nat, won0: bool, s: Scan, b: nat)
    requires |h0| == 16 && |s.h| == 16 && b < 16
    requires Bookkeeping(h0, score0, won0, s)
    requires s.h[b].Some? && s.h[b].value.state == New
    ensures var cur := s.h[b].value;
      Bookkeeping(h0, score0, won0, s.(h := s.h[b := Some(Update(cur, cur.value, Static))], pos := s.pos + 1))
  {
    var h := s.h;
    var cur := h[b].value;
    var st := Update(cur, cur.value, Static);
    var h1 := h[b := Some(st)];
    CellChange(h, b, Some(st));
    WeighUpdate(h, 16, b, Some(st));
    if !s.moved {
      forall r | 0 <= r < 16
        ensures SameCell(h1[r], h0[r])
      {
        assert SameCell(h[r], h0[r]);
      }
    }
  }

  /** A tile that slides to the write cursor keeps the scan invariant. */
  lemma VisitSlide(h0: Board, score0: nat, won0: bool, l: nat, k: nat, s: Scan)
    requires Initial(h0) && |s.h| == 16 && l < 4 && k < 4
    requires ScanInv(h0, score0, won0, l, k, s)
    requires s.h[4 * l + k].Some? && s.pos < k
    ensures var cur := s.h[4 * l + k].value;
      ScanInv(h0, score0, won0, l, k + 1,
        s.(h := s.h[4 * l + s.pos := Some(Update(cur, cur.value, Static))][4 * l + k := None],
           pos := s.pos + 1, moved := true))
  {
    var b := 4 * l + k;
    assert s.h[b] == h0[b];
    SlideTrace(h0, l, k, s);
    SlideBooks(h0, score0, won0, s, 4 * l + s.pos, b);
  }

  /** Moving the tile read at position `k` to the write cursor keeps every
      entry traced and leaves the gap behind it empty. */
  lemma SlideTrace(h0: Board, l: nat, k: nat, s: Scan)
    requires |h0| == 16 && |s.h| == 16 && l < 4 && s.pos < k < 4
    requires Untouched(h0, 4 * l + k, s.h) && GapEmpty(l, s.pos, k, s.h) && AllTraced(h0, 4 * l + k, s.h)
    requires s.h[4 * l + k].Some?
    ensures var cur := s.h[4 * l + k].value;
      var h2 := s.h[4 * l + s.pos := Some(Update(cur, cur.value, Static))][4 * l + k := None];
      Untouched(h0, 4 * l + k + 1, h2) && GapEmpty(l, s.pos + 1, k + 1, h2) && AllTraced(h0, 4 * l + k + 1, h2)
  {
    var h := s.h;
    var b := 4 * l + k;
    var n := 4 * l + s.pos;
    var cur := h[b].value;
    var st := Update(cur, cur.value, Static);
    var h1 := h[n := Some(st)];
    var h2 := h1[b := None];
    assert h[b] == h0[b];
    SourceAt(h0, l, s.pos, k, st);
    TracedSet(h0, b, h, n, Some(st));
    TracedSet(h0, b, h1, b, None);
    TracedExtend(h0, b, h2);
    assert Untouched(h0, b + 1, h2);
    assert GapEmpty(l, s.pos + 1, k + 1, h2);
  }

  /** Moving the tile read at `b` to the empty cell `n` keeps the counters
      and lowers the potential. */
  lemma SlideBooks(h0: Board, score0: nat, won0: bool, s: Scan, n: nat, b: nat)
    requires |h0| == 16 && |s.h| == 16 && n < b < 16
    requires Bookkeeping(h0, score0, won0, s)
    requires s.h[n].None? && s.h[b].Some? && s.h[b].value.state == New
    ensures var cur := s.h[b].value;
      Bookkeeping(h0, score0, won0,
        s.(h := s.h[n := Some(Update(cur, cur.value, Static))][b := None], pos := s.pos + 1, moved := true))
  {
    var h := s.h;
    var cur := h[b].value;
    var st := Update(cur, cur.value, Static);
    var h1 := h[n := Some(st)];
    var h2 := h1[b := None];
    CellChange(h, n, Some(st));
    CellChange(h1, b, None);
    WeighUpdate(h, 16, n, Some(st));
    WeighUpdate(h1, 16, b, None);
    assert h1[b] == h[b];
    assert h2[b].None?;
    CountBound(h2);
  }

  /** One iteration of the inner loop keeps the scan invariant. */
  lemma VisitKeepsInv(cross: bool, h0: Board, score0: nat, won0: bool, l: nat, k: nat, s: Scan)
    requires Initial(h0) && |s.h| == 16 && l < 4 && k < 4
    requires ScanInv(h0, score0, won0, l, k, s)
    ensures ScanInv(h0, score0, won0, l, k + 1, Visit(cross, l, k, s))
  {
    var b := 4 * l + k;
    if s.h[b].None? {
    } else if CanMerge(cross, l, s, s.h[b].value) {
      assert Visit(cross, l, k, s) == MergeInto(cross, l, b, s);
      VisitMerge(cross, h0, score0, won0, l, k, s);
    } else if k == s.pos {
      assert Visit(cross, l, k, s) == PlaceAt(l, k, s, s.h[b].value);
      VisitStay(h0, score0, won0, l, k, s);
    } else {
      assert Visit(cross, l, k, s) == PlaceAt(l, k, s, s.h[b].value);
      VisitSlide(h0, score0, won0, l, k, s);
    }
  }

  lemma {:induction false} ScanLineKeepsInv(cross: bool, h0: Board, score0: nat, won0: bool, l: nat, k: nat, s: Scan)
    requires Initial(h0) && |s.h| == 16 && l < 4 && k <= 4
    requires ScanInv(h0, score0, won0, l, k, s)
    ensures ScanInv(h0, score0, won0, l, 4, ScanLine(cross, l, k, s))
    decreases 4 - k
  {
    if k < 4 {
      VisitKeepsInv(cross, h0, score0, won0, l, k, s);
      ScanLineKeepsInv(cross, h0, score0, won0, l, k + 1, Visit(cross, l, k, s));
    }
  }

  lemma {:induction false} ScanFromKeepsInv(cross: bool, h0: Board, score0: nat, won0: bool, l: nat, s: Scan)
    requires Initial(h0) && |s.h| == 16 && l <= 4
    requires Untouched(h0, 4 * l, s.h) && AllTraced(h0, 4 * l, s.h)
    requires Bookkeeping(h0, score0, won0, s)
    ensures AllTraced(h0, 16, ScanFrom(cross, l, s).h)
    ensures Bookkeeping(h0, score0, won0, ScanFrom(cross, l, s))
    decreases 4 - l
  {
    if l < 4 {
      var s1 := LineKeepsInv(cross, h0, score0, won0, l, s);
      ScanFromKeepsInv(cross, h0, score0, won0, l + 1, s1);
    }
  }

  /** One pass of the outer loop keeps the scan invariant, and the rest of
      the loop continues from the state it leaves. */
  lemma LineKeepsInv(cross: bool, h0: Board, score0: nat, won0: bool, l: nat, s: Scan) returns (s1: Scan)
    requires Initial(h0) && |s.h| == 16 && l < 4
    requires Untouched(h0, 4 * l, s.h) && AllTraced(h0, 4 * l, s.h)
    requires Bookkeeping(h0, score0, won0, s)
    ensures |s1.h| == 16 && ScanFrom(cross, l, s) == ScanFrom(cross, l + 1, s1)
    ensures Untouched(h0, 4 * (l + 1), s1.h) && AllTraced(h0, 4 * (l + 1), s1.h)
    ensures Bookkeeping(h0, score0, won0, s1)
  {
    var s0 := s.(pos := 0);
    assert ScanInv(h0, score0, won0, l, 0, s0);
    ScanLineKeepsInv(cross, h0, score0, won0, l, 0, s0);
    s1 := ScanLine(cross, l, 0, s0);
  }

  /** The scan invariant holds at the end of every move, under either rule. */
  lemma SlideInvariant(rule: Rule, d: Direction, g: Board, score: nat, won: bool)
    requires |g| == 16
    ensures var h0 := Lines(d, Prepared(g));
      var s := ScanFrom(Crosses(rule, d), 0, Scan(h0, 0, score, won, false));
      AllTraced(h0, 16, s.h) && Bookkeeping(h0, score, won, s)
  {
    var h0 := StartInv(d, g, score, won);
    ScanFromKeepsInv(Crosses(rule, d), h0, score, won, 0, Scan(h0, 0, score, won, false));
  }

  /** Before the first line the scan invariant holds of the prepared
      board read in scan order. */
  lemma StartInv(d: Direction, g: Board, score: nat, won: bool) returns (h0: Board)
    requires |g| == 16
    ensures h0 == Lines(d, Prepared(g)) && Initial(h0)
    ensures Untouched(h0, 0, h0) && AllTraced(h0, 0, h0)
    ensures Bookkeeping(h0, score, won, Scan(h0, 0, score, won, false))
  {
    var p := Prepared(g);
    h0 := Lines(d, p);
    PreparedFacts(g);
    CountsOfLines(d, p);
    forall r | 0 <= r < 16 && h0[r].Some?
      ensures h0[r].value.state == New
    {
      Split16(r);
      LinesAt(d, p, Row(r), Col(r));
    }
    forall r | 0 <= r < 16
      ensures SameCell(h0[r], h0[r])
    {
    }
  }

  /** The grid after a move read back in scan order is the scan's grid. */
  lemma SlideLines(rule: Rule, d: Direction, g: Board, score: nat, won: bool)
    requires |g| == 16
    ensures Lines(d, Slide(rule, d, g, score, won).grid)
         == ScanFrom(Crosses(rule, d), 0, Scan(Lines(d, Prepared(g)), 0, score, won, false)).h
  {
    var s := ScanFrom(Crosses(rule, d), 0, Scan(Lines(d, Prepared(g)), 0, score, won, false));
    LinesRoundTrip(d, g, s.h);
  }

  // ---------------------------------------------------------------------
  // What one move promises
  // ---------------------------------------------------------------------

  /** A merge removes exactly one tile and a slide removes none, and the
      total value on the board is conserved. */
  lemma SlideConservesTiles(rule: Rule, d: Direction, g: Board, score: nat, won: bool)
    requires |g| == 16
    ensures var o := Slide(rule, d, g, score, won);
      Count(o.grid) == Count(g) - MergedCount(o.grid) && ValueSum(o.grid) == ValueSum(g)
  {
    var o := Slide(rule, d, g, score, won);
    SlideInvariant(rule, d, g, score, won);
    SlideLines(rule, d, g, score, won);
    CountsOfLines(d, o.grid);
    CountsOfLines(d, Prepared(g));
    PreparedFacts(g);
  }

  /** Every merge adds the value it produces to the score, so the score
      grows by the total value of this move's merge products. */
  lemma SlideScore(rule: Rule, d: Direction, g: Board, score: nat, won: bool)
    requires |g| == 16
    ensures var o := Slide(rule, d, g, score, won);
      o.score == score + MergedSum(o.grid) && o.score >= score
  {
    var o := Slide(rule, d, g, score, won);
    SlideInvariant(rule, d, g, score, won);
    SlideLines(rule, d, g, score, won);
    CountsOfLines(d, o.grid);
  }

  /** `won` is set exactly when a merge of this move produced 2048, and is
      never cleared. */
  lemma SlideWon(rule: Rule, d: Direction, g: Board, score: nat, won: bool)
    requires |g| == 16
    ensures var o := Slide(rule, d, g, score, won);
      o.won <==> won || HasMerged(o.grid, 2048)
  {
    var o := Slide(rule, d, g, score, won);
    SlideInvariant(rule, d, g, score, won);
    SlideLines(rule, d, g, score, won);
    CountsOfLines(d, o.grid);
    WinningMergesPositive(o.grid);
  }

  /** A board counts a winning merge exactly when one of its cells holds
      a merge product of value 2048. */
  lemma WinningMergesPositive(g: Board)
    ensures WinningMerges(g) > 0 <==> HasMerged(g, 2048)
  {
    SumOfPositive(Merged2048, g);
    if HasMerged(g, 2048) {
      var i :| 0 <= i < |g| && g[i].Some? && g[i].value.state == Merged && g[i].value.value == 2048;
      assert Merged2048(g[i]) > 0;
    }
  }

  /** A board without merge products has no merged value and no winning
      merge. */
  lemma NoMergedSums(g: Board)
    requires MergedCount(g) == 0
    ensures MergedSum(g) == 0 && WinningMerges(g) == 0
  {
    SumOfPositive(MergedOne, g);
    forall i | 0 <= i < |g|
      ensures MergedValue(g[i]) == 0 && Merged2048(g[i]) == 0
    {
      assert MergedOne(g[i]) == 0;
    }
    SumOfPositive(MergedValue, g);
    SumOfPositive(Merged2048, g);
  }

  /** `SameGrid` is an equivalence. */
  lemma SameGridTrans(a: Board, b: Board, c: Board)
    requires SameGrid(a, b) && SameGrid(b, c)
    ensures SameGrid(a, c) && SameGrid(b, a)
  {
    forall i | 0 <= i < |a|
      ensures SameCell(a[i], c[i]) && SameCell(b[i], a[i])
    {
      assert SameCell(a[i], b[i]) && SameCell(b[i], c[i]);
    }
  }

  /** The end-of-scan counters decide whether the grid changed: `moved`
      exactly when it no longer compares equal to `hg`, which compares
      equal to the prepared grid `h0`. */
  lemma MovedFromInv(h0: Board, hg: Board, score: nat, won: bool, s: Scan)
    requires |h0| == 16 && |s.h| == 16 && SameGrid(h0, hg)
    requires Bookkeeping(h0, score, won, s)
    ensures s.moved <==> !SameGrid(s.h, hg)
    ensures s.moved ==> HasEmpty(s.h)
    ensures !s.moved ==> s.score == score && s.won == won && MergedCount(s.h) == 0
  {
    CountBound(s.h);
    if s.moved && SameGrid(s.h, hg) {
      SameGridTrans(h0, hg, s.h);
      SameGridTrans(s.h, h0, h0);
      WeighSame(s.h, h0, 16);
      assert false;
    }
    if !s.moved {
      SameGridTrans(s.h, h0, hg);
      NoMergedSums(s.h);
    }
  }

  /** The move is recorded as having happened exactly when the grid no
      longer compares equal to the one before; a move that did not happen
      leaves score and `won` alone, and one that did leaves an empty cell. */
  lemma SlideMoved(rule: Rule, d: Direction, g: Board, score: nat, won: bool)
    requires |g| == 16
    ensures var o := Slide(rule, d, g, score, won);
      && (o.moved <==> !SameGrid(o.grid, g))
      && (o.moved ==> HasEmpty(o.grid))
      && (!o.moved ==> o.score == score && o.won == won && MergedCount(o.grid) == 0)
  {
    var o := Slide(rule, d, g, score, won);
    var p := Prepared(g);
    var h0 := Lines(d, p);
    var hg := Lines(d, g);
    var s := ScanFrom(Crosses(rule, d), 0, Scan(h0, 0, score, won, false));
    SlideInvariant(rule, d, g, score, won);
    SlideLines(rule, d, g, score, won);
    assert Lines(d, o.grid) == s.h;
    CountsOfLines(d, o.grid);
    CountBound(o.grid);
    PreparedFacts(g);
    SameGridLines(d, h0, g);
    LinesRoundTrip(d, p, h0);
    SameGridLines(d, s.h, g);
    LinesRoundTrip(d, o.grid, s.h);
    MovedFromInv(h0, hg, score, won, s);
  }

  /** Board form of `Source`: the tile at cell `c` remembers an occupied
      cell of `g` in the same line at or behind `c`. */
  predicate FromCell(d: Direction, g: Board, c: int, t: Tile)
    requires |g| == 16 && 0 <= c < 16
  {
    && (t.state == Static || t.state == Merged)
    && t.prevPos.Some? && t.prevPos.value < 16
    && g[t.prevPos.value].Some?
    && Line(d, t.prevPos.value) == Line(d, c) && Pos(d, c) <= Pos(d, t.prevPos.value)
    && t.value == (if t.state == Merged then 2 * g[t.prevPos.value].value.value
                   else g[t.prevPos.value].value.value)
  }

  lemma SourceToCell(d: Direction, g: Board, c: int, t: Tile)
    requires |g| == 16 && 0 <= c < 16
    requires Source(Lines(d, Prepared(g)), Rank(d, c), t)
    ensures FromCell(d, g, c, t)
  {
    var h0 := Lines(d, Prepared(g));
    var j := SourceEntry(h0, Rank(d, c), t);
    var q, k := SameLineBehind(d, c, j);
    PreparedLinesAt(d, g, Line(d, c), k);
    TracedTile(d, g, c, t, q, h0[j]);
  }

  /** The entry a traced tile comes from. */
  lemma SourceEntry(h0: Board, r: nat, t: Tile) returns (j: int)
    requires |h0| == 16 && r < 16
    requires Source(h0, r, t)
    ensures r <= j < 4 * Row(r) + 4 && h0[j].Some? && h0[j].value.prevPos == t.prevPos
    ensures if t.state == Merged then t.value == 2 * h0[j].value.value
            else t.state == Static && t.value == h0[j].value.value
  {
    j :| r <= j < 4 * Row(r) + 4 && h0[j].Some? && h0[j].value.prevPos == t.prevPos
      && (if t.state == Merged then t.value == 2 * h0[j].value.value
          else t.state == Static && t.value == h0[j].value.value);
  }

  /** The tile found at entry `q` of the prepared board accounts for `t`. */
  lemma TracedTile(d: Direction, g: Board, c: int, t: Tile, q: int, u: Option<Tile>)
    requires |g| == 16 && 0 <= c < 16 && 0 <= q < 16
    requires u == PrepareCell(g[q], q) && u.Some?
    requires Line(d, q) == Line(d, c) && Pos(d, c) <= Pos(d, q)
    requires u.value.prevPos == t.prevPos
    requires if t.state == Merged then t.value == 2 * u.value.value
             else t.state == Static && t.value == u.value.value
    ensures FromCell(d, g, c, t)
  {
  }

  /** Entry `j` in scan order, at or after the entry of cell `c` and in
      the same line, is a cell `q` of that line at or behind `c`. */
  lemma SameLineBehind(d: Direction, c: int, j: int) returns (q: int, k: nat)
    requires 0 <= c < 16 && Rank(d, c) <= j < 4 * Row(Rank(d, c)) + 4
    ensures Line(d, c) < 4 && k < 4 && j == 4 * Line(d, c) + k && q == Cell(d, Line(d, c), k)
    ensures 0 <= q < 16 && Line(d, q) == Line(d, c) && Pos(d, c) <= Pos(d, q)
  {
    CoordinatesCell(d, c);
    DivMod4(Line(d, c), Pos(d, c));
    k := j - 4 * Line(d, c);
    q := Cell(d, Line(d, c), k);
    CellCoordinates(d, Line(d, c), k);
  }

  /** After a move every tile is `Static` or `Merged` and remembers, as
      previous position, the pre-move cell of a tile of the same line at or
      behind it; its value is that tile's value, doubled once if it merged,
      so no tile takes part in two merges. */
  lemma SlideProvenance(rule: Rule, d: Direction, g: Board, score: nat, won: bool)
    requires |g| == 16
    ensures var o := Slide(rule, d, g, score, won);
      forall c :: 0 <= c < 16 && o.grid[c].Some? ==> FromCell(d, g, c, o.grid[c].value)
  {
    var o := Slide(rule, d, g, score, won);
    var h0 := Lines(d, Prepared(g));
    var s := ScanFrom(Crosses(rule, d), 0, Scan(h0, 0, score, won, false));
    SlideInvariant(rule, d, g, score, won);
    SlideLines(rule, d, g, score, won);
    assert AllTraced(h0, 16, s.h);
    forall c | 0 <= c < 16 && o.grid[c].Some?
      ensures FromCell(d, g, c, o.grid[c].value)
    {
      CoordinatesCell(d, c);
      LinesAt(d, o.grid, Line(d, c), Pos(d, c));
      CellCoordinates(d, Line(d, c), Pos(d, c));
      assert s.h[Rank(d, c)] == o.grid[c];
      SourceToCell(d, g, c, o.grid[c].value);
    }
  }
}
