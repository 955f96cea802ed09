/** What the triangle filler guarantees about the lines it draws: the branch
    it takes never divides by a zero height where the result is used, every
    line is horizontal, each row is drawn at most once, and every line stays
    within the triangle's bounding box. */
module RasterProperties {
  import opened Basics
  import opened Raster

  /** The branch selection guards every slope division that is used. A flat-top
      or split triangle has nonzero heights on all edges it walks; only a
      triangle whose three vertices share a row reaches a zero height, in the
      flat-bottom branch, where the loop draws that one row before the slope is
      used. */
  lemma DivisorsNonzero(a: Vec2, b: Vec2, c: Vec2)
    requires a.y <= b.y <= c.y
    ensures Classify(a, b, c) == FlatTop ==> c.y - a.y != 0 && c.y - b.y != 0
    ensures Classify(a, b, c) == Split ==> b.y - a.y != 0 && c.y - a.y != 0 && c.y - b.y != 0
    ensures Classify(a, b, c) == FlatBottom ==> (b.y - a.y == 0 <==> a.y == c.y)
    ensures a.y == c.y <==> Classify(a, b, c) == FlatBottom && |FlatBottomSpans(a, b, c)| == 1
  {
  }

  lemma RowsAppend(s0: seq<Segment>, s1: seq<Segment>)
    ensures Rows(s0 + s1) == Rows(s0) + Rows(s1)
  {
    assert |Rows(s0 + s1)| == |Rows(s0) + Rows(s1)|;
    forall k | 0 <= k < |s0 + s1|
      ensures Rows(s0 + s1)[k] == (Rows(s0) + Rows(s1))[k]
    {
      if k < |s0| {
        assert (s0 + s1)[k] == s0[k];
      } else {
        assert (s0 + s1)[k] == s1[k - |s0|];
      }
    }
  }

  /** Two row lists covering adjacent ranges cover their union, each row once. */
  lemma EachRowOnceAppend(r0: seq<int>, r1: seq<int>, lo: int, mid: int, hi: int)
    requires lo <= mid + 1 && mid <= hi
    requires EachRowOnce(r0, lo, mid) && EachRowOnce(r1, mid + 1, hi)
    ensures EachRowOnce(r0 + r1, lo, hi)
  {
    var r := r0 + r1;
    forall y | lo <= y <= hi
      ensures y in r
    {
      if y <= mid {
        assert y in r0;
        var k :| 0 <= k < |r0| && r0[k] == y;
        assert r[k] == y;
      } else {
        assert y in r1;
        var k :| 0 <= k < |r1| && r1[k] == y;
        assert r[|r0| + k] == y;
      }
    }
    forall i, j | 0 <= i < j < |r|
      ensures r[i] != r[j]
    {
      if j < |r0| {
        assert r[i] == r0[i] && r[j] == r0[j];
      } else if i >= |r0| {
        assert r[i] == r1[i - |r0|] && r[j] == r1[j - |r0|];
      } else {
        assert r[i] == r0[i] && r[j] == r1[j - |r0|];
      }
    }
  }

  /** `drawFlatBottom` draws one horizontal line on each row from the apex
      row a.y to the base row b.y, both included. */
  lemma FlatBottomRows(a: Vec2, b: Vec2, c: Vec2)
    requires a.y <= b.y
    ensures var spans := FlatBottomSpans(a, b, c);
      |spans| == b.y - a.y + 1 && Horizontal(spans) && EachRowOnce(Rows(spans), a.y, b.y)
  {
    var spans := FlatBottomSpans(a, b, c);
    var rows := Rows(spans);
    forall k | 0 <= k < |spans|
      ensures spans[k].y0 == spans[k].y1 == rows[k] == a.y + k
    {
      FlatBottomSpanAt(a, b, c, k);
    }
    forall y | a.y <= y <= b.y
      ensures y in rows
    {
      assert rows[y - a.y] == y;
    }
  }

  /** `drawFlatTop` draws one horizontal line on each row from the apex row c.y
      up to a.y + 1; the row a.y of its flat edge is not drawn. */
  lemma FlatTopRows(a: Vec2, b: Vec2, c: Vec2)
    requires a.y <= c.y
    ensures var spans := FlatTopSpans(a, b, c);
      |spans| == c.y - a.y && Horizontal(spans) && EachRowOnce(Rows(spans), a.y + 1, c.y) &&
      a.y !in Rows(spans)
  {
    var spans := FlatTopSpans(a, b, c);
    var rows := Rows(spans);
    forall k | 0 <= k < |spans|
      ensures spans[k].y0 == spans[k].y1 == rows[k] == c.y - k
    {
      FlatTopSpanAt(a, b, c, k);
    }
    forall y | a.y + 1 <= y <= c.y
      ensures y in rows
    {
      assert rows[c.y - y] == y;
    }
  }

  /** Every line the filler draws is horizontal. A flat-bottom or split triangle
      gets exactly one line on every row from its top vertex to its bottom
      vertex (in a split triangle the two halves meet at the middle row without
      overlapping). A flat-top triangle gets one line on every row except the
      row of its flat top edge, which is not drawn. */
  lemma TriangleRows(v0: Vec2, v1: Vec2, v2: Vec2)
    ensures var (a, b, c) := Sort3(v0, v1, v2);
      var spans := TriangleSpans(v0, v1, v2);
      Horizontal(spans) &&
      (Classify(a, b, c) != FlatTop ==> EachRowOnce(Rows(spans), a.y, c.y)) &&
      (Classify(a, b, c) == FlatTop ==> EachRowOnce(Rows(spans), a.y + 1, c.y) && a.y !in Rows(spans))
  {
    var (a, b, c) := Sort3(v0, v1, v2);
    match Classify(a, b, c)
    case FlatBottom =>
      FlatBottomRows(a, b, c);
    case FlatTop =>
      FlatTopRows(a, b, c);
    case Split =>
      var m := SplitVertex(a, b, c);
      var top, bottom := FlatBottomSpans(a, b, m), FlatTopSpans(b, m, c);
      FlatBottomRows(a, b, m);
      FlatTopRows(b, m, c);
      RowsAppend(top, bottom);
      EachRowOnceAppend(Rows(top), Rows(bottom), a.y, b.y, c.y);
  }

  /** Every triangle, however degenerate, gets at least one line: a triangle
      that is not flat-topped covers its top row, and a flat-topped one has its
      bottom vertex strictly below the flat edge, so it covers that row. */
  lemma TriangleSpansNonEmpty(v0: Vec2, v1: Vec2, v2: Vec2)
    ensures |TriangleSpans(v0, v1, v2)| > 0
  {
    var (a, b, c) := Sort3(v0, v1, v2);
    var rows := Rows(TriangleSpans(v0, v1, v2));
    TriangleRows(v0, v1, v2);
    if Classify(a, b, c) == FlatTop {
      assert c.y in rows;
    } else {
      assert a.y in rows;
    }
  }

  /** A flat-bottom walk never leaves the box spanned by its three vertices. */
  lemma FlatBottomInBox(a: Vec2, b: Vec2, c: Vec2, xlo: int, xhi: int)
    requires b.y == c.y
    requires xlo <= a.x <= xhi && xlo <= b.x <= xhi && xlo <= c.x <= xhi
    ensures forall k :: 0 <= k < |FlatBottomSpans(a, b, c)| ==>
      var sp := FlatBottomSpans(a, b, c)[k];
      xlo <= sp.x0 <= xhi && xlo <= sp.x1 <= xhi && a.y <= sp.y0 == sp.y1 <= b.y
  {
    var spans := FlatBottomSpans(a, b, c);
    forall k | 0 <= k < |spans|
      ensures xlo <= spans[k].x0 <= xhi && xlo <= spans[k].x1 <= xhi && a.y <= spans[k].y0 == spans[k].y1 <= b.y
    {
      FlatBottomSpanAt(a, b, c, k);
      EdgeBetween(a, b, a.y + k);
      EdgeBetween(a, c, a.y + k);
      TruncBetween(xlo, xhi, EdgeX(a, b, a.y + k));
      TruncBetween(xlo, xhi, EdgeX(a, c, a.y + k));
    }
  }

  /** A flat-top walk never leaves the box spanned by its three vertices. */
  lemma FlatTopInBox(a: Vec2, b: Vec2, c: Vec2, xlo: int, xhi: int)
    requires a.y == b.y
    requires xlo <= a.x <= xhi && xlo <= b.x <= xhi && xlo <= c.x <= xhi
    ensures forall k :: 0 <= k < |FlatTopSpans(a, b, c)| ==>
      var sp := FlatTopSpans(a, b, c)[k];
      xlo <= sp.x0 <= xhi && xlo <= sp.x1 <= xhi && a.y < sp.y0 == sp.y1 <= c.y
  {
    var spans := FlatTopSpans(a, b, c);
    forall k | 0 <= k < |spans|
      ensures xlo <= spans[k].x0 <= xhi && xlo <= spans[k].x1 <= xhi && a.y < spans[k].y0 == spans[k].y1 <= c.y
    {
      FlatTopSpanAt(a, b, c, k);
      EdgeBetween(a, c, c.y - k);
      EdgeBetween(b, c, c.y - k);
      TruncBetween(xlo, xhi, EdgeX(a, c, c.y - k));
      TruncBetween(xlo, xhi, EdgeX(b, c, c.y - k));
    }
  }

  /** No line the filler draws sticks out of the triangle's bounding box. */
  lemma TriangleInBox(v0: Vec2, v1: Vec2, v2: Vec2)
    ensures InBox(TriangleSpans(v0, v1, v2), v0, v1, v2)
  {
    var (a, b, c) := Sort3(v0, v1, v2);
    var xlo, xhi := Min(Min(v0.x, v1.x), v2.x), Max(Max(v0.x, v1.x), v2.x);
    assert xlo <= a.x <= xhi && xlo <= b.x <= xhi && xlo <= c.x <= xhi;
    var spans := TriangleSpans(v0, v1, v2);
    match Classify(a, b, c)
    case FlatBottom =>
      FlatBottomInBox(a, b, c, xlo, xhi);
    case FlatTop =>
      FlatTopInBox(a, b, c, xlo, xhi);
    case Split =>
      var m := SplitVertex(a, b, c);
      var top, bottom := FlatBottomSpans(a, b, m), FlatTopSpans(b, m, c);
      FlatBottomInBox(a, b, m, xlo, xhi);
      FlatTopInBox(b, m, c, xlo, xhi);
      forall k | 0 <= k < |spans|
        ensures xlo <= spans[k].x0 <= xhi && xlo <= spans[k].x1 <= xhi && a.y <= spans[k].y0 == spans[k].y1 <= c.y
      {
        if k < |top| {
          assert spans[k] == top[k];
        } else {
          assert spans[k] == bottom[k - |top|];
        }
      }
  }

  /** The edge walks start and end on the vertices: a flat-bottom fill's first
      line is the apex itself, and its last line runs exactly from b to c. */
  lemma FlatBottomEnds(a: Vec2, b: Vec2, c: Vec2)
    requires a.y < b.y == c.y
    ensures var spans := FlatBottomSpans(a, b, c);
      spans[0] == Segment(a.x, a.y, a.x, a.y) && spans[|spans| - 1] == Segment(b.x, b.y, c.x, b.y)
  {
    FlatBottomSpanAt(a, b, c, 0);
    FlatBottomSpanAt(a, b, c, b.y - a.y);
    EdgeEnds(a, b);
    EdgeEnds(a, c);
  }

  /** A flat-top fill's first line is its apex c itself. */
  lemma FlatTopStartsAtApex(a: Vec2, b: Vec2, c: Vec2)
    requires a.y == b.y < c.y
    ensures FlatTopSpans(a, b, c)[0] == Segment(c.x, c.y, c.x, c.y)
  {
    FlatTopSpanAt(a, b, c, 0);
    EdgeEnds(a, c);
    EdgeEnds(b, c);
  }

  // ---------------------------------------------------------------------------
  // The flat-top branch as written drops the row of the flat edge

  /** As written, the triangle (0,0), (10,0), (5,10) is filled as flat-top and
      gets rows 1 to 10: row 0, its top edge, is not drawn. */
  lemma FlatTopExampleMissesTopRow()
    ensures var rows := Rows(TriangleSpans(Vec2(0, 0), Vec2(10, 0), Vec2(5, 10)));
      0 !in rows && EachRowOnce(rows, 1, 10)
  {
    assert Sort3(Vec2(0, 0), Vec2(10, 0), Vec2(5, 10)) == (Vec2(0, 0), Vec2(10, 0), Vec2(5, 10));
    TriangleRows(Vec2(0, 0), Vec2(10, 0), Vec2(5, 10));
  }

  /** Corrected, every triangle gets exactly one horizontal line on every row
      from its top vertex to its bottom vertex; a flat-top triangle's extra
      line is its flat edge, from a to b. */
  lemma CorrectedTriangleRows(v0: Vec2, v1: Vec2, v2: Vec2)
    ensures var (a, b, c) := Sort3(v0, v1, v2);
      var spans := CorrectedTriangleSpans(v0, v1, v2);
      Horizontal(spans) && EachRowOnce(Rows(spans), a.y, c.y) &&
      (Classify(a, b, c) == FlatTop ==> spans[|spans| - 1] == Segment(a.x, a.y, b.x, a.y))
  {
    var (a, b, c) := Sort3(v0, v1, v2);
    if Classify(a, b, c) == FlatTop {
      CorrectedFlatTopRows(a, b, c);
    } else {
      TriangleRows(v0, v1, v2);
    }
  }

  /** The corrected flat-top walk: rows c.y down to a.y + 1, then the flat edge
      itself on row a.y. */
  lemma CorrectedFlatTopRows(a: Vec2, b: Vec2, c: Vec2)
    requires a.y == b.y < c.y
    ensures var spans := FlatTopSpans(a, b, c) + [Span(a.y, EdgeX(a, c, a.y), EdgeX(b, c, a.y))];
      Horizontal(spans) && EachRowOnce(Rows(spans), a.y, c.y) &&
      spans[|spans| - 1] == Segment(a.x, a.y, b.x, a.y)
  {
    var excl := FlatTopSpans(a, b, c);
    var last := [Span(a.y, EdgeX(a, c, a.y), EdgeX(b, c, a.y))];
    FlatEdgeSpan(a, b, c);
    assert last == [Segment(a.x, a.y, b.x, a.y)];
    FlatTopRows(a, b, c);
    RowsAppend(excl, last);
    assert Rows(last) == [a.y];
    EachRowOnceDescending(Rows(excl), a.y, c.y);
    forall k | 0 <= k < |excl + last|
      ensures (excl + last)[k].y0 == (excl + last)[k].y1
    {
      if k < |excl| {
        assert (excl + last)[k] == excl[k];
      }
    }
  }

  /** A row list for (lo, hi] followed by the single row lo covers [lo, hi] once. */
  lemma EachRowOnceDescending(r: seq<int>, lo: int, hi: int)
    requires lo <= hi && EachRowOnce(r, lo + 1, hi)
    ensures EachRowOnce(r + [lo], lo, hi)
  {
    var r' := r + [lo];
    forall y | lo <= y <= hi
      ensures y in r'
    {
      if y == lo {
        assert r'[|r|] == lo;
      } else {
        assert y in r;
        var k :| 0 <= k < |r| && r[k] == y;
        assert r'[k] == y;
      }
    }
  }

  /** Corrected, the example triangle gets every row 0 to 10. */
  lemma CorrectedExampleCoversTopRow()
    ensures EachRowOnce(Rows(CorrectedTriangleSpans(Vec2(0, 0), Vec2(10, 0), Vec2(5, 10))), 0, 10)
  {
    assert Sort3(Vec2(0, 0), Vec2(10, 0), Vec2(5, 10)) == (Vec2(0, 0), Vec2(10, 0), Vec2(5, 10));
    CorrectedTriangleRows(Vec2(0, 0), Vec2(10, 0), Vec2(5, 10));
  }

  /** Corrected, every triangle still gets at least one line. */
  lemma CorrectedTriangleSpansNonEmpty(v0: Vec2, v1: Vec2, v2: Vec2)
    ensures |CorrectedTriangleSpans(v0, v1, v2)| > 0
  {
    var (a, b, c) := Sort3(v0, v1, v2);
    CorrectedTriangleRows(v0, v1, v2);
    assert a.y in Rows(CorrectedTriangleSpans(v0, v1, v2));
  }

  /** Corrected, no line of a fill leaves the triangle's bounding box: the
      extra line is the flat edge itself. */
  lemma CorrectedTriangleInBox(v0: Vec2, v1: Vec2, v2: Vec2)
    ensures InBox(CorrectedTriangleSpans(v0, v1, v2), v0, v1, v2)
  {
    var (a, b, c) := Sort3(v0, v1, v2);
    TriangleInBox(v0, v1, v2);
    if Classify(a, b, c) == FlatTop {
      var spans, extra := TriangleSpans(v0, v1, v2), Segment(a.x, a.y, b.x, a.y);
      FlatEdgeSpan(a, b, c);
      assert CorrectedTriangleSpans(v0, v1, v2) == spans + [extra];
      assert multiset{a, b, c} == multiset{v0, v1, v2};
      assert a in multiset{v0, v1, v2} && b in multiset{v0, v1, v2};
      forall k | 0 <= k < |spans + [extra]|
        ensures var g := (spans + [extra])[k];
          Min(Min(v0.x, v1.x), v2.x) <= g.x0 <= Max(Max(v0.x, v1.x), v2.x) &&
          Min(Min(v0.x, v1.x), v2.x) <= g.x1 <= Max(Max(v0.x, v1.x), v2.x) &&
          Min(Min(v0.y, v1.y), v2.y) <= g.y0 <= Max(Max(v0.y, v1.y), v2.y) &&
          Min(Min(v0.y, v1.y), v2.y) <= g.y1 <= Max(Max(v0.y, v1.y), v2.y)
      {
        if k < |spans| {
          assert (spans + [extra])[k] == spans[k];
        }
      }
    }
  }
}
