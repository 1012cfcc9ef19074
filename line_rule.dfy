/** The line rule of 2048 stated independently of the scan: the tiles of a
    line are packed toward its edge and equal neighbours are paired
    greedily from the edge, each tile taking part in at most one merge.
    When the merge candidate never leaves the current line, the scan of
    `move_tiles` computes exactly this, line by line. */
module LineRule {
  import opened Tiles
  import opened Directions
  import opened Boards
  import opened Engine

  /** The tiles of a line in order, gaps dropped. */
  function Compact(line: seq<Option<Tile>>): (ts: seq<Tile>)
    ensures |ts| <= |line|
  {
    if |line| == 0 then []
    else
      var last := line[|line| - 1];
      Compact(line[..|line| - 1]) + (if last.Some? then [last.value] else [])
  }

  /** A tile that stays as it is for this move, annotated `Static`. */
  function Settle(t: Tile): Tile { Update(t, t.value, Static) }

  /** A merge product: the value doubled, annotated `Merged`. */
  function Doubled(t: Tile): Tile { Update(t, t.value * 2, Merged) }

  /** Greedy pairing from the edge: the first two tiles merge when their
      values agree, and the rest of the line is paired on its own. */
  function Merge(ts: seq<Tile>): (out: seq<Tile>)
    ensures |out| <= |ts| && (|ts| > 0 ==> |out| > 0)
    decreases |ts|
  {
    if |ts| == 0 then []
    else if |ts| == 1 then [Settle(ts[0])]
    else if ts[0].value == ts[1].value then [Doubled(ts[0])] + Merge(ts[2..])
    else [Settle(ts[0])] + Merge(ts[1..])
  }

  function Somes(ts: seq<Tile>): (cs: seq<Option<Tile>>)
    ensures |cs| == |ts|
  {
    seq(|ts|, i requires 0 <= i < |ts| => Some(ts[i]))
  }

  function Nones(n: nat): (cs: seq<Option<Tile>>)
    ensures |cs| == n
  {
    seq(n, i => None)
  }

  /** A line after a move: its merged tiles at the edge, empty cells after. */
  function SlideLine(line: seq<Option<Tile>>): (r: seq<Option<Tile>>)
    ensures |r| == |line|
  {
    var out := Merge(Compact(line));
    Somes(out) + Nones(|line| - |out|)
  }

  /** Line `l` of a grid read in scan order. */
  function LineOf(h: Board, l: nat): seq<Option<Tile>>
    requires |h| == 16 && l < 4
  {
    h[4 * l .. 4 * l + 4]
  }

  // ---------------------------------------------------------------------
  // The same rule as a left fold, one tile at a time
  // ---------------------------------------------------------------------

  /** Adding one tile behind the tiles already placed: it merges into the
      last one if that one has not merged yet and has the same value. */
  function Push(out: seq<Tile>, t: Tile): seq<Tile>
  {
    if |out| > 0 && out[|out| - 1].state != Merged && out[|out| - 1].value == t.value
    then out[..|out| - 1] + [Doubled(out[|out| - 1])]
    else out + [Settle(t)]
  }

  lemma PushAppend(a: seq<Tile>, b: seq<Tile>, t: Tile)
    requires |b| > 0
    ensures Push(a + b, t) == a + Push(b, t)
  {
    assert (a + b)[..|a + b| - 1] == a + b[..|b| - 1];
  }

  lemma MergeStates(ts: seq<Tile>)
    ensures forall i :: 0 <= i < |Merge(ts)| ==> Merge(ts)[i].state != Tiles.New
    decreases |ts|
  {
    if |ts| >= 2 {
      MergeStates(ts[2..]);
      MergeStates(ts[1..]);
    }
  }

  /** Pairing from the edge and folding tile by tile agree: the pairing of
      a line with one more tile is the pairing of the line with that tile
      pushed behind it. */
  lemma {:induction false} MergeSnoc(ts: seq<Tile>, t: Tile)
    ensures Merge(ts + [t]) == Push(Merge(ts), t)
    decreases |ts|
  {
    if |ts| == 0 {
      assert [] + [t] == [t];
    } else if |ts| == 1 {
      assert ts + [t] == [ts[0], t];
      assert [ts[0], t][2..] == [];
      assert [ts[0], t][1..] == [t];
    } else {
      var a := ts[0];
      var b := ts[1];
      assert (ts + [t])[0] == a && (ts + [t])[1] == b;
      if a.value == b.value {
        assert (ts + [t])[2..] == ts[2..] + [t];
        MergeSnoc(ts[2..], t);
        if |ts| == 2 {
          assert ts[2..] == [];
          assert Merge(ts) == [Doubled(a)];
        } else {
          PushAppend([Doubled(a)], Merge(ts[2..]), t);
        }
      } else {
        assert (ts + [t])[1..] == ts[1..] + [t];
        MergeSnoc(ts[1..], t);
        PushAppend([Settle(a)], Merge(ts[1..]), t);
      }
    }
  }

  lemma CompactSnoc(line: seq<Option<Tile>>, c: Option<Tile>)
    ensures Compact(line + [c]) == Compact(line) + (if c.Some? then [c.value] else [])
  {
    assert (line + [c])[..|line|] == line;
  }

  // ---------------------------------------------------------------------
  // The scan of one line, when the candidate stays in the line
  // ---------------------------------------------------------------------

  /** What the scan of line `l` of `h1` has placed after reading its
      first `k` cells, according to the line rule. */
  function Placed(h1: Board, l: nat, k: nat): seq<Tile>
    requires |h1| == 16 && l < 4 && k <= 4
  {
    Merge(Compact(h1[4 * l .. 4 * l + k]))
  }

  /** The scan of line `l` has read positions `0..k` of the line it found,
      `h1`: the merged tiles sit at the edge, the cells between the write
      and the read cursor are empty, the rest of the line is unread, and
      nothing outside the line has changed. */
  predicate LineInv(h1: Board, l: nat, k: nat, s: Scan)
    requires |h1| == 16 && |s.h| == 16 && l < 4
  {
    && s.pos <= k <= 4
    && |Placed(h1, l, k)| == s.pos
    && (forall r :: 4 * l <= r < 4 * l + s.pos ==> s.h[r] == Some(Placed(h1, l, k)[r - 4 * l]))
    && (forall r :: 4 * l + s.pos <= r < 4 * l + k ==> s.h[r].None?)
    && (forall r :: 4 * l + k <= r < 16 ==> s.h[r] == h1[r])
    && (forall r :: 0 <= r < 4 * l ==> s.h[r] == h1[r])
  }

  /** Reading one more cell extends the compacted line by its tile, if any. */
  lemma PlacedSnoc(h1: Board, l: nat, k: nat)
    requires |h1| == 16 && l < 4 && k < 4
    ensures h1[4 * l + k].None? ==> Placed(h1, l, k + 1) == Placed(h1, l, k)
    ensures h1[4 * l + k].Some? ==> Placed(h1, l, k + 1) == Push(Placed(h1, l, k), h1[4 * l + k].value)
  {
    var seg := h1[4 * l .. 4 * l + k];
    assert h1[4 * l .. 4 * l + k + 1] == seg + [h1[4 * l + k]];
    CompactSnoc(seg, h1[4 * l + k]);
    if h1[4 * l + k].Some? {
      MergeSnoc(Compact(seg), h1[4 * l + k].value);
    } else {
      assert Compact(seg) + [] == Compact(seg);
    }
  }

  /** An empty cell read: nothing is placed and the gap grows. */
  lemma LineNone(h1: Board, l: nat, k: nat, s: Scan)
    requires |h1| == 16 && |s.h| == 16 && l < 4 && k < 4
    requires LineInv(h1, l, k, s) && s.h[4 * l + k].None?
    ensures LineInv(h1, l, k + 1, s)
  {
    PlacedSnoc(h1, l, k);
  }

  /** The tile read merges into the last tile placed. */
  lemma LineMerge(h1: Board, l: nat, k: nat, s: Scan, s': Scan)
    requires |h1| == 16 && |s.h| == 16 && |s'.h| == 16 && l < 4 && k < 4 && s.pos > 0
    requires LineInv(h1, l, k, s) && s.h[4 * l + k].Some?
    requires var c := 4 * l + s.pos - 1;
      && s.h[c].Some? && s.h[c].value.state != Merged && SameValue(s.h[c].value, s.h[4 * l + k].value)
      && s'.pos == s.pos && s'.h == s.h[c := Some(Doubled(s.h[c].value))][4 * l + k := None]
    ensures LineInv(h1, l, k + 1, s')
  {
    var out := Placed(h1, l, k);
    var c := 4 * l + s.pos - 1;
    PlacedSnoc(h1, l, k);
    assert s.h[c] == Some(out[|out| - 1]);
    var out' := Placed(h1, l, k + 1);
    assert out' == out[..|out| - 1] + [Doubled(out[|out| - 1])];
    forall r | 4 * l <= r < 4 * l + s'.pos
      ensures s'.h[r] == Some(out'[r - 4 * l])
    {
      if r < c {
        assert s'.h[r] == s.h[r];
      }
    }
  }

  /** The tile read does not merge: it is placed at the write cursor. */
  lemma LineAppend(h1: Board, l: nat, k: nat, s: Scan, s': Scan)
    requires |h1| == 16 && |s.h| == 16 && |s'.h| == 16 && l < 4 && k < 4
    requires LineInv(h1, l, k, s) && s.h[4 * l + k].Some?
    requires var c := 4 * l + s.pos - 1;
      !(s.pos > 0 && s.h[c].Some? && s.h[c].value.state != Merged && SameValue(s.h[c].value, s.h[4 * l + k].value))
    requires var cur := s.h[4 * l + k].value;
      && s'.pos == s.pos + 1
      && s'.h == (if k == s.pos then s.h[4 * l + k := Some(Settle(cur))]
                  else s.h[4 * l + s.pos := Some(Settle(cur))][4 * l + k := None])
    ensures LineInv(h1, l, k + 1, s')
  {
    var out := Placed(h1, l, k);
    var cur := s.h[4 * l + k].value;
    PlacedSnoc(h1, l, k);
    if s.pos > 0 {
      assert s.h[4 * l + s.pos - 1] == Some(out[|out| - 1]);
    }
    var out' := Placed(h1, l, k + 1);
    assert out' == out + [Settle(cur)];
    forall r | 4 * l <= r < 4 * l + s'.pos
      ensures s'.h[r] == Some(out'[r - 4 * l])
    {
      if r < 4 * l + s.pos {
        assert s'.h[r] == s.h[r];
      }
    }
  }

  /** One iteration of the inner loop, with the candidate kept in the
      line, keeps the line invariant. */
  lemma VisitLine(h1: Board, l: nat, k: nat, s: Scan)
    requires |h1| == 16 && |s.h| == 16 && l < 4 && k < 4
    requires LineInv(h1, l, k, s)
    ensures LineInv(h1, l, k + 1, Visit(false, l, k, s))
  {
    var b := 4 * l + k;
    var s' := Visit(false, l, k, s);
    if s.h[b].None? {
      LineNone(h1, l, k, s);
    } else {
      var c := 4 * l + s.pos - 1;
      if s.pos > 0 && s.h[c].Some? && s.h[c].value.state != Merged && SameValue(s.h[c].value, s.h[b].value) {
        LineMerge(h1, l, k, s, s');
      } else {
        LineAppend(h1, l, k, s, s');
      }
    }
  }

  lemma {:induction false} ScanLineRule(h1: Board, l: nat, k: nat, s: Scan)
    requires |h1| == 16 && |s.h| == 16 && l < 4 && k <= 4
    requires LineInv(h1, l, k, s)
    ensures LineInv(h1, l, 4, ScanLine(false, l, k, s))
    decreases 4 - k
  {
    if k < 4 {
      VisitLine(h1, l, k, s);
      ScanLineRule(h1, l, k + 1, Visit(false, l, k, s));
    }
  }

  /** With the candidate kept in the line, the inner loop turns line `l`
      into its image under the line rule and leaves every other entry
      alone. */
  lemma LineScanned(l: nat, s: Scan)
    requires |s.h| == 16 && l < 4
    ensures var s' := ScanLine(false, l, 0, s.(pos := 0));
      && LineOf(s'.h, l) == SlideLine(LineOf(s.h, l))
      && (forall r :: 0 <= r < 16 && !(4 * l <= r < 4 * l + 4) ==> s'.h[r] == s.h[r])
  {
    var s0 := s.(pos := 0);
    assert s.h[4 * l .. 4 * l + 0] == [];
    assert LineInv(s.h, l, 0, s0);
    ScanLineRule(s.h, l, 0, s0);
    LineDone(s.h, l, ScanLine(false, l, 0, s0));
  }

  /** Once the scan has read the whole of line `l`, that line holds the
      line rule's image of the line it found, and every other entry is as
      it found it. */
  lemma LineDone(h1: Board, l: nat, t: Scan)
    requires |h1| == 16 && |t.h| == 16 && l < 4
    requires LineInv(h1, l, 4, t)
    ensures LineOf(t.h, l) == SlideLine(LineOf(h1, l))
    ensures forall r :: 0 <= r < 16 && !(4 * l <= r < 4 * l + 4) ==> t.h[r] == h1[r]
  {
    assert LineOf(h1, l) == h1[4 * l .. 4 * l + 4];
    forall i | 0 <= i < 4
      ensures LineOf(t.h, l)[i] == SlideLine(LineOf(h1, l))[i]
    {
      assert LineOf(t.h, l)[i] == t.h[4 * l + i];
    }
  }

  /** One pass of the outer loop: line `l` is slid by the line rule, the
      other entries stay, and the rest of the loop continues from there. */
  lemma LineStep(l: nat, s: Scan) returns (s1: Scan)
    requires |s.h| == 16 && l < 4
    ensures |s1.h| == 16 && ScanFrom(false, l, s) == ScanFrom(false, l + 1, s1)
    ensures LineOf(s1.h, l) == SlideLine(LineOf(s.h, l))
    ensures forall r :: 0 <= r < 16 && !(4 * l <= r < 4 * l + 4) ==> s1.h[r] == s.h[r]
  {
    s1 := ScanLine(false, l, 0, s.(pos := 0));
    LineScanned(l, s);
  }

  /** The outer loop from line `l` on leaves the lines before `l` alone. */
  lemma {:induction false} ScanFromKeepsEarlier(l: nat, s: Scan)
    requires |s.h| == 16 && l <= 4
    ensures forall r :: 0 <= r < 4 * l ==> ScanFrom(false, l, s).h[r] == s.h[r]
    decreases 4 - l
  {
    if l < 4 {
      var s1 := LineStep(l, s);
      ScanFromKeepsEarlier(l + 1, s1);
    }
  }

  /** With the candidate kept in the line, the outer loop from line `l`
      on applies the line rule to every remaining line on its own. */
  lemma {:induction false} LinesScanned(l: nat, s: Scan)
    requires |s.h| == 16 && l <= 4
    ensures forall l' :: l <= l' < 4 ==> LineOf(ScanFrom(false, l, s).h, l') == SlideLine(LineOf(s.h, l'))
    decreases 4 - l
  {
    if l < 4 {
      var s1 := LineStep(l, s);
      LinesScanned(l + 1, s1);
      ScanFromKeepsEarlier(l + 1, s1);
      var t := ScanFrom(false, l + 1, s1);
      forall l' | l <= l' < 4
        ensures LineOf(t.h, l') == SlideLine(LineOf(s.h, l'))
      {
        if l' == l {
          SameLine(t.h, s1.h, l);
        } else {
          SameLine(s1.h, s.h, l');
        }
      }
    }
  }

  /** Boards that agree on every entry of line `l` agree on that line. */
  lemma SameLine(a: Board, b: Board, l: nat)
    requires |a| == 16 && |b| == 16 && l < 4
    requires forall r :: 4 * l <= r < 4 * l + 4 ==> a[r] == b[r]
    ensures LineOf(a, l) == LineOf(b, l)
  {
  }

  /** Under the intended rule, and as written for Up and Down, a move
      applies the line rule to each line of the prepared grid separately:
      read in scan order, line `l` of the result is the line rule's image
      of line `l` before the move. */
  lemma SlideByLines(rule: Rule, d: Direction, g: Board, score: nat, won: bool)
    requires |g| == 16
    requires rule == LineBounded || d == Up || d == Down
    ensures forall l :: 0 <= l < 4 ==>
      LineOf(Lines(d, Slide(rule, d, g, score, won).grid), l) == SlideLine(LineOf(Lines(d, Prepared(g)), l))
  {
    var s0 := SlideScanned(rule, d, g, score, won);
    LinesScanned(0, s0);
  }

  /** The scan a move runs when it does not cross lines: its grid, read
      back in scan order, is the move's result. */
  lemma SlideScanned(rule: Rule, d: Direction, g: Board, score: nat, won: bool) returns (s0: Scan)
    requires |g| == 16
    requires rule == LineBounded || d == Up || d == Down
    ensures s0 == Scan(Lines(d, Prepared(g)), 0, score, won, false) && |s0.h| == 16
    ensures Lines(d, Slide(rule, d, g, score, won).grid) == ScanFrom(false, 0, s0).h
  {
    s0 := Scan(Lines(d, Prepared(g)), 0, score, won, false);
    assert !Crosses(rule, d);
    SlideLines(rule, d, g, score, won);
  }

}
