/** The scanline triangle filler. The vertices are sorted by row, the triangle
    is classified as flat-bottom, flat-top or general, and a general triangle is
    split at its middle row into a flat-bottom half and a flat-top half. Each
    half walks its two edges one row at a time, adding an inverse slope to two
    `float` x-intercepts, and draws one horizontal line per row.

    The render target is modelled as the list of lines drawn on it. The
    intercepts are exact reals here: the spans' x-values are the truncations of
    the true edge crossings, which is what the `float` walk computes up to
    rounding. */
module Raster {
  import opened Basics

  /** One line drawn on the target, from (x0, y0) to (x1, y1). */
  datatype Segment = Segment(x0: int, y0: int, x1: int, y1: int)

  /** The render target. Drawing a line appends it to `segments`. */
  class Surface {
    var segments: seq<Segment>

    constructor ()
      ensures segments == []
    {
      segments := [];
    }

    method RenderLine(x0: int, y0: int, x1: int, y1: int)
      modifies this
      ensures segments == old(segments) + [Segment(x0, y0, x1, y1)]
    {
      segments := segments + [Segment(x0, y0, x1, y1)];
    }
  }

  // ---------------------------------------------------------------------------
  // Specification of what the filler draws

  /** r lists v0, v1 and v2 in some order. */
  predicate Reordering(r: (Vec2, Vec2, Vec2), v0: Vec2, v1: Vec2, v2: Vec2)
  {
    r == (v0, v1, v2) || r == (v0, v2, v1) || r == (v1, v0, v2) ||
    r == (v1, v2, v0) || r == (v2, v0, v1) || r == (v2, v1, v0)
  }

  /** The three conditional swaps: the vertices, reordered by row. */
  function Sort3(v0: Vec2, v1: Vec2, v2: Vec2): (r: (Vec2, Vec2, Vec2))
    ensures r.0.y <= r.1.y <= r.2.y
    ensures Reordering(r, v0, v1, v2)
  {
    var (p0, p1) := if v1.y < v0.y then (v1, v0) else (v0, v1);
    var (q0, p2) := if v2.y < p0.y then (v2, p0) else (p0, v2);
    var (q1, q2) := if p2.y < p1.y then (p2, p1) else (p1, p2);
    (q0, q1, q2)
  }

  /** A reordering keeps the multiset of vertices. */
  lemma ReorderingPermutes(r: (Vec2, Vec2, Vec2), v0: Vec2, v1: Vec2, v2: Vec2)
    requires Reordering(r, v0, v1, v2)
    ensures multiset{r.0, r.1, r.2} == multiset{v0, v1, v2}
  {
  }

  datatype Shape = FlatBottom | FlatTop | Split

  /** The branch taken for vertices already sorted by row. On sorted
      vertices each branch gets exactly one shape of triangle: the flat-bottom
      branch every triangle whose lower half has no height (a degenerate one
      included), the flat-top branch one whose upper half has none, and the
      split branch one whose two halves both have height. */
  function Classify(a: Vec2, b: Vec2, c: Vec2): (r: Shape)
    ensures a.y <= b.y <= c.y ==>
      (r == FlatBottom <==> b.y == c.y) &&
      (r == FlatTop <==> a.y == b.y < c.y) &&
      (r == Split <==> a.y < b.y < c.y)
  {
    if b.y == c.y then FlatBottom else if a.y == b.y then FlatTop else Split
  }

  /** The x where the line through p and q crosses row y; on a horizontal edge,
      the x of p (the only row such an edge is walked on). */
  function EdgeX(p: Vec2, q: Vec2, y: int): real
  {
    if p.y == q.y then p.x as real
    else p.x as real + (y - p.y) as real * ((q.x - p.x) as real / (q.y - p.y) as real)
  }

  /** The line drawn on row y between two real intercepts, each cast to int. */
  function Span(y: int, xa: real, xb: real): Segment
  {
    Segment(Trunc(xa), y, Trunc(xb), y)
  }

  /** What `drawFlatBottom(a, b, c)` draws: rows a.y to b.y, walking the edges
      a-b and a-c. */
  function FlatBottomSpans(a: Vec2, b: Vec2, c: Vec2): seq<Segment>
  {
    seq(if a.y <= b.y then b.y - a.y + 1 else 0,
        k => Span(a.y + k, EdgeX(a, b, a.y + k), EdgeX(a, c, a.y + k)))
  }

  /** What `drawFlatTop(a, b, c)` draws: rows c.y down to a.y + 1, walking the
      edges c-a and c-b. */
  function FlatTopSpans(a: Vec2, b: Vec2, c: Vec2): seq<Segment>
  {
    seq(if a.y <= c.y then c.y - a.y else 0,
        k => Span(c.y - k, EdgeX(a, c, c.y - k), EdgeX(b, c, c.y - k)))
  }

  /** `vSplit`: the long edge a-c interpolated at the middle row with the
      parameter t = (b.y - a.y) / (c.y - a.y). It is the long edge's crossing of
      that row, cast to int, so it lies between the long edge's ends. */
  function SplitVertex(a: Vec2, b: Vec2, c: Vec2): (m: Vec2)
    requires a.y < b.y < c.y
    ensures m.y == b.y
    ensures m.x == Trunc(EdgeX(a, c, b.y))
    ensures Min(a.x, c.x) <= m.x <= Max(a.x, c.x)
  {
    SplitCrossing(a, b, c);
    Vec2(Trunc(a.x as real + Quotient(b.y - a.y, c.y - a.y).v * (c.x - a.x) as real), b.y)
  }

  /** Everything `drawFilledTriangle2D(v0, v1, v2)` draws, in order. */
  function TriangleSpans(v0: Vec2, v1: Vec2, v2: Vec2): seq<Segment>
  {
    var (a, b, c) := Sort3(v0, v1, v2);
    match Classify(a, b, c)
    case FlatBottom => FlatBottomSpans(a, b, c)
    case FlatTop => FlatTopSpans(a, b, c)
    case Split =>
      var m := SplitVertex(a, b, c);
      FlatBottomSpans(a, b, m) + FlatTopSpans(b, m, c)
  }

  /** The rows of a list of lines, in drawing order. */
  function Rows(spans: seq<Segment>): seq<int>
  {
    seq(|spans|, k requires 0 <= k < |spans| => spans[k].y0)
  }

  ghost predicate Horizontal(spans: seq<Segment>)
  {
    forall k :: 0 <= k < |spans| ==> spans[k].y0 == spans[k].y1
  }

  /** Every row of [lo, hi] occurs in `rows` exactly once, and no other row occurs. */
  ghost predicate EachRowOnce(rows: seq<int>, lo: int, hi: int)
  {
    (forall k :: 0 <= k < |rows| ==> lo <= rows[k] <= hi) &&
    (forall y :: lo <= y <= hi ==> y in rows) &&
    (forall i, j :: 0 <= i < j < |rows| ==> rows[i] != rows[j])
  }

  /** Every line lies in the bounding box of the triangle (x0, x1, y0 and y1
      between the least and greatest vertex coordinates). */
  ghost predicate InBox(spans: seq<Segment>, v0: Vec2, v1: Vec2, v2: Vec2)
  {
    var xlo, xhi := Min(Min(v0.x, v1.x), v2.x), Max(Max(v0.x, v1.x), v2.x);
    var ylo, yhi := Min(Min(v0.y, v1.y), v2.y), Max(Max(v0.y, v1.y), v2.y);
    forall k :: 0 <= k < |spans| ==>
      xlo <= spans[k].x0 <= xhi && xlo <= spans[k].x1 <= xhi &&
      ylo <= spans[k].y0 <= yhi && ylo <= spans[k].y1 <= yhi
  }

  // ---------------------------------------------------------------------------
  // Edges

  /** One row further along an edge adds the inverse slope. */
  lemma EdgeStep(p: Vec2, q: Vec2, y: int)
    requires p.y != q.y
    ensures EdgeX(p, q, y + 1) == EdgeX(p, q, y) + (q.x - p.x) as real / (q.y - p.y) as real
  {
    var s := (q.x - p.x) as real / (q.y - p.y) as real;
    assert (y + 1 - p.y) as real * s == (y - p.y) as real * s + s;
  }

  /** An edge's walk starts at its first vertex and, if the edge is not
      horizontal, lands exactly on its second vertex. */
  lemma EdgeEnds(p: Vec2, q: Vec2)
    ensures EdgeX(p, q, p.y) == p.x as real
    ensures p.y != q.y ==> EdgeX(p, q, q.y) == q.x as real
  {
    if p.y != q.y {
      var dy := (q.y - p.y) as real;
      var dx := (q.x - p.x) as real;
      assert dy * (dx / dy) == dx;
    }
  }

  /** The crossing of a row between the edge's ends lies between their x's. */
  lemma EdgeBetween(p: Vec2, q: Vec2, y: int)
    requires p.y <= y <= q.y || q.y <= y <= p.y
    ensures Min(p.x, q.x) as real <= EdgeX(p, q, y) <= Max(p.x, q.x) as real
  {
    if p.y != q.y {
      var k := (y - p.y) as real;
      var dy := (q.y - p.y) as real;
      var dx := (q.x - p.x) as real;
      var t := k / dy;
      UnitFraction(k, dy);
      assert k * (dx / dy) == t * dx;
      assert EdgeX(p, q, y) == p.x as real + t * dx;
      FractionBetween(t, dx);
      if p.x <= q.x {
        assert p.x as real <= EdgeX(p, q, y) <= q.x as real;
      } else {
        assert q.x as real <= EdgeX(p, q, y) <= p.x as real;
      }
    }
  }

  /** The parameter of a row between an edge's ends is in [0, 1]. */
  lemma UnitFraction(k: real, dy: real)
    requires 0.0 <= k <= dy || dy <= k <= 0.0
    requires dy != 0.0
    ensures 0.0 <= k / dy <= 1.0
  {
    var t := k / dy;
    assert t * dy == k;
    if dy > 0.0 {
      assert 0.0 <= t by {
        ProductSign(t, dy);
      }
      assert t <= 1.0 by {
        assert (1.0 - t) * dy == dy - k;
        ProductSign(1.0 - t, dy);
      }
    } else {
      assert 0.0 <= t by {
        ProductSign(-t, -dy);
      }
      assert t <= 1.0 by {
        assert (t - 1.0) * (-dy) == dy - k;
        ProductSign(t - 1.0, -dy);
      }
    }
  }

  /** A product with a positive factor has the sign of the other factor. */
  lemma ProductSign(a: real, b: real)
    requires b > 0.0
    ensures a * b >= 0.0 <==> a >= 0.0
  {
  }

  /** A fraction t in [0, 1] of d lies between 0 and d. */
  lemma FractionBetween(t: real, d: real)
    requires 0.0 <= t <= 1.0
    ensures d >= 0.0 ==> 0.0 <= t * d <= d
    ensures d < 0.0 ==> d <= t * d <= 0.0
  {
    if d >= 0.0 {
      assert (1.0 - t) * d >= 0.0;
    } else {
      assert (1.0 - t) * d <= 0.0;
    }
  }

  /** The split vertex's column is the long edge's crossing of the middle row,
      truncated, and so lies between the long edge's ends. */
  lemma SplitCrossing(a: Vec2, b: Vec2, c: Vec2)
    requires a.y < b.y < c.y
    ensures Quotient(b.y - a.y, c.y - a.y).Finite?
    ensures var x := Trunc(a.x as real + Quotient(b.y - a.y, c.y - a.y).v * (c.x - a.x) as real);
      x == Trunc(EdgeX(a, c, b.y)) && Min(a.x, c.x) <= x <= Max(a.x, c.x)
  {
    SplitParameter(a, c, b.y);
    EdgeBetween(a, c, b.y);
    TruncBetween(Min(a.x, c.x), Max(a.x, c.x), EdgeX(a, c, b.y));
  }

  /** The split's interpolation `v0.x + t * (v2.x - v0.x)` with
      `t = (v1.y - v0.y) / (v2.y - v0.y)` is the long edge's crossing of row v1.y. */
  lemma SplitParameter(a: Vec2, c: Vec2, y: int)
    requires a.y != c.y
    ensures Quotient(y - a.y, c.y - a.y).Finite?
    ensures a.x as real + Quotient(y - a.y, c.y - a.y).v * (c.x - a.x) as real == EdgeX(a, c, y)
  {
    var k := (y - a.y) as real;
    var dy := (c.y - a.y) as real;
    var dx := (c.x - a.x) as real;
    assert (k / dy) * dx == (k * dx) / dy;
    assert k * (dx / dy) == (k * dx) / dy;
  }

  /** One step of a `float` walk along a non-horizontal edge, in either direction. */
  lemma WalkStep(p: Vec2, q: Vec2, y: int, x: Float)
    requires p.y != q.y && x == Finite(EdgeX(p, q, y))
    ensures Plus(x, Quotient(q.x - p.x, q.y - p.y)) == Finite(EdgeX(p, q, y + 1))
    ensures Minus(x, Quotient(q.x - p.x, q.y - p.y)) == Finite(EdgeX(p, q, y - 1))
  {
    EdgeStep(p, q, y);
    EdgeStep(p, q, y - 1);
  }

  /** The line `drawFlatBottom` draws k rows below its apex. */
  lemma FlatBottomSpanAt(a: Vec2, b: Vec2, c: Vec2, k: nat)
    requires a.y + k <= b.y
    ensures |FlatBottomSpans(a, b, c)| > k
    ensures FlatBottomSpans(a, b, c)[k] == Span(a.y + k, EdgeX(a, b, a.y + k), EdgeX(a, c, a.y + k))
  {
  }

  /** The line `drawFlatTop` draws k rows above its apex. */
  lemma FlatTopSpanAt(a: Vec2, b: Vec2, c: Vec2, k: nat)
    requires a.y < c.y - k
    ensures |FlatTopSpans(a, b, c)| > k
    ensures FlatTopSpans(a, b, c)[k] == Span(c.y - k, EdgeX(a, c, c.y - k), EdgeX(b, c, c.y - k))
  {
  }

  /** What the three branches of the filler append adds up to `TriangleSpans`. */
  lemma TriangleSpansByCase(v0: Vec2, v1: Vec2, v2: Vec2, a: Vec2, b: Vec2, c: Vec2,
                            before: seq<Segment>, after: seq<Segment>)
    requires (a, b, c) == Sort3(v0, v1, v2)
    requires b.y == c.y ==> after == before + FlatBottomSpans(a, b, c)
    requires b.y != c.y && a.y == b.y ==> after == before + FlatTopSpans(a, b, c)
    requires b.y != c.y && a.y != b.y ==>
      a.y < b.y < c.y && after == before + FlatBottomSpans(a, b, SplitVertex(a, b, c)) + FlatTopSpans(b, SplitVertex(a, b, c), c)
    ensures after == before + TriangleSpans(v0, v1, v2)
  {
    if b.y != c.y && a.y != b.y {
      var m := SplitVertex(a, b, c);
      assert before + FlatBottomSpans(a, b, m) + FlatTopSpans(b, m, c)
          == before + (FlatBottomSpans(a, b, m) + FlatTopSpans(b, m, c));
    }
  }

  // ---------------------------------------------------------------------------
  // The drawing routines

  /** `drawFlatBottom`. Callers pass b and c on one row. When a is on that row
      too, both inverse slopes are divisions by zero; the loop then runs once,
      before either is added, so no non-finite value is ever cast. */
  method DrawFlatBottom(s: Surface, a: Vec2, b: Vec2, c: Vec2)
    requires b.y == c.y
    modifies s
    ensures s.segments == old(s.segments) + FlatBottomSpans(a, b, c)
  {
    var invSlope1 := Quotient(b.x - a.x, b.y - a.y);
    var invSlope2 := Quotient(c.x - a.x, c.y - a.y);
    var x1 := Finite(a.x as real);
    var x2 := Finite(a.x as real);
    EdgeEnds(a, b);
    EdgeEnds(a, c);
    ghost var spans := FlatBottomSpans(a, b, c);
    var y := a.y;
    while y <= b.y
      invariant a.y <= y && (a.y <= b.y ==> y <= b.y + 1)
      invariant a.y > b.y ==> y == a.y
      invariant y <= b.y ==> x1 == Finite(EdgeX(a, b, y)) && x2 == Finite(EdgeX(a, c, y))
      invariant s.segments == old(s.segments) + spans[..y - a.y]
      decreases b.y + 1 - y
    {
      FlatBottomSpanAt(a, b, c, y - a.y);
      s.RenderLine(Trunc(x1.v), y, Trunc(x2.v), y);
      assert spans[..y + 1 - a.y] == spans[..y - a.y] + [spans[y - a.y]];
      if y + 1 <= b.y {
        WalkStep(a, b, y, x1);
        WalkStep(a, c, y, x2);
      }
      x1 := Plus(x1, invSlope1);
      x2 := Plus(x2, invSlope2);
      y := y + 1;
    }
    assert spans[..y - a.y] == spans;
  }

  /** `drawFlatTop`. Callers pass a and b on one row; the walk starts at the
      apex c and stops before that row. */
  method DrawFlatTop(s: Surface, a: Vec2, b: Vec2, c: Vec2)
    requires a.y == b.y
    modifies s
    ensures s.segments == old(s.segments) + FlatTopSpans(a, b, c)
  {
    var invSlope1 := Quotient(c.x - a.x, c.y - a.y);
    var invSlope2 := Quotient(c.x - b.x, c.y - b.y);
    var x1 := Finite(c.x as real);
    var x2 := Finite(c.x as real);
    EdgeEnds(a, c);
    EdgeEnds(b, c);
    ghost var spans := FlatTopSpans(a, b, c);
    var y := c.y;
    while y > a.y
      invariant y <= c.y && (a.y <= c.y ==> a.y <= y)
      invariant a.y > c.y ==> y == c.y
      invariant y > a.y ==> x1 == Finite(EdgeX(a, c, y)) && x2 == Finite(EdgeX(b, c, y))
      invariant s.segments == old(s.segments) + spans[..c.y - y]
      decreases y - a.y
    {
      FlatTopSpanAt(a, b, c, c.y - y);
      s.RenderLine(Trunc(x1.v), y, Trunc(x2.v), y);
      assert spans[..c.y - y + 1] == spans[..c.y - y] + [spans[c.y - y]];
      WalkStep(a, c, y, x1);
      WalkStep(b, c, y, x2);
      x1 := Minus(x1, invSlope1);
      x2 := Minus(x2, invSlope2);
      y := y - 1;
    }
    assert spans[..c.y - y] == spans;
  }

  /** `drawFilledTriangle2D`: sort, classify, and fill. */
  method DrawFilledTriangle2D(s: Surface, v0: Vec2, v1: Vec2, v2: Vec2)
    modifies s
    ensures s.segments == old(s.segments) + TriangleSpans(v0, v1, v2)
  {
    var p0, p1, p2 := v0, v1, v2;
    if p1.y < p0.y {
      p0, p1 := p1, p0;
    }
    if p2.y < p0.y {
      p0, p2 := p2, p0;
    }
    if p2.y < p1.y {
      p1, p2 := p2, p1;
    }
    assert (p0, p1, p2) == Sort3(v0, v1, v2);
    ghost var before := s.segments;
    if p1.y == p2.y {
      DrawFlatBottom(s, p0, p1, p2);
    } else if p0.y == p1.y {
      DrawFlatTop(s, p0, p1, p2);
    } else {
      var split := SplitVertex(p0, p1, p2);
      DrawFlatBottom(s, p0, p1, split);
      DrawFlatTop(s, p1, split, p2);
    }
    TriangleSpansByCase(v0, v1, v2, p0, p1, p2, before, s.segments);
  }

  // ---------------------------------------------------------------------------
  // The fill with the flat-top branch drawing its flat edge

  /** What the filler draws when `drawFlatTop`'s loop runs down to `y >= a.y`
      in the flat-top branch, so that the row of the flat edge is drawn too.
      The split branch keeps its exclusive bound: there the row is the
      flat-bottom half's last row. */
  function CorrectedTriangleSpans(v0: Vec2, v1: Vec2, v2: Vec2): seq<Segment>
  {
    var (a, b, c) := Sort3(v0, v1, v2);
    if Classify(a, b, c) == FlatTop then
      FlatTopSpans(a, b, c) + [Span(a.y, EdgeX(a, c, a.y), EdgeX(b, c, a.y))]
    else
      TriangleSpans(v0, v1, v2)
  }

  /** The flat-top walk's line on the flat edge's row runs exactly from a to b. */
  lemma FlatEdgeSpan(a: Vec2, b: Vec2, c: Vec2)
    requires a.y == b.y < c.y
    ensures Span(a.y, EdgeX(a, c, a.y), EdgeX(b, c, a.y)) == Segment(a.x, a.y, b.x, a.y)
  {
    EdgeEnds(a, c);
    EdgeEnds(b, c);
    assert Trunc(a.x as real) == a.x;
    assert Trunc(b.x as real) == b.x;
  }

  /** The filler with the flat edge of a flat-top triangle drawn: the one
      further iteration of the flat-top loop draws the edge from a to b. */
  method DrawFilledTriangle2DCorrected(s: Surface, v0: Vec2, v1: Vec2, v2: Vec2)
    modifies s
    ensures s.segments == old(s.segments) + CorrectedTriangleSpans(v0, v1, v2)
  {
    DrawFilledTriangle2D(s, v0, v1, v2);
    var (a, b, c) := Sort3(v0, v1, v2);
    if b.y != c.y && a.y == b.y {
      FlatEdgeSpan(a, b, c);
      s.RenderLine(a.x, a.y, b.x, a.y);
    }
  }
}
