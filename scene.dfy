/** The scene builder: 3D lines and triangles drawn through the projector, all
    or nothing, and the cube made of eight corners, twelve edges and twelve
    triangles (two per face). */
module Scene {
  import opened Basics
  import opened Cameras
  import opened Projection
  import opened Raster
  import opened RasterProperties

  // ---------------------------------------------------------------------------
  // Primitives

  /** What `draw3DLine` draws once its endpoints are projected: one line
      between the two projections, or nothing when either endpoint is at or
      behind the eye. */
  function Line(pa: Option<Vec2>, pb: Option<Vec2>): (r: seq<Segment>)
    ensures |r| <= 1
    ensures r != [] <==> pa.Some? && pb.Some?
  {
    match (pa, pb)
    case (Some(u), Some(v)) => [Segment(u.x, u.y, v.x, v.y)]
    case _ => []
  }

  /** What `draw3DTriangle` draws once its vertices are projected: the fill of
      the three projections, or nothing when any vertex is at or behind the
      eye. A triangle whose three vertices all project always gets at least
      one line. */
  function Fill(pa: Option<Vec2>, pb: Option<Vec2>, pc: Option<Vec2>): (r: seq<Segment>)
    ensures r != [] <==> pa.Some? && pb.Some? && pc.Some?
  {
    match (pa, pb, pc)
    case (Some(u), Some(v), Some(x)) =>
      TriangleSpansNonEmpty(u, v, x);
      TriangleSpans(u, v, x)
    case _ => []
  }

  /** `draw3DLine`: the second endpoint is projected only if the first one is. */
  method Draw3DLine(s: Surface, camera: Camera, t: Trig, a: Vec3, b: Vec3, w: int, h: int)
    modifies s
    ensures s.segments == old(s.segments) +
      Line(ProjectPoint(camera.State(), t, a, w, h), ProjectPoint(camera.State(), t, b, w, h))
  {
    var pa := ProjectPoint(camera.State(), t, a, w, h);
    if pa.Some? {
      var pb := ProjectPoint(camera.State(), t, b, w, h);
      if pb.Some? {
        s.RenderLine(pa.value.x, pa.value.y, pb.value.x, pb.value.y);
      }
    }
  }

  /** `draw3DTriangle`: projects the vertices in order and returns at the
      first one that is at or behind the eye, then fills the projections. */
  method Draw3DTriangle(s: Surface, camera: Camera, t: Trig, a: Vec3, b: Vec3, c: Vec3, w: int, h: int)
    modifies s
    ensures s.segments == old(s.segments) +
      Fill(ProjectPoint(camera.State(), t, a, w, h), ProjectPoint(camera.State(), t, b, w, h),
           ProjectPoint(camera.State(), t, c, w, h))
  {
    var p0 := ProjectPoint(camera.State(), t, a, w, h);
    if p0.None? {
      return;
    }
    var p1 := ProjectPoint(camera.State(), t, b, w, h);
    if p1.None? {
      return;
    }
    var p2 := ProjectPoint(camera.State(), t, c, w, h);
    if p2.None? {
      return;
    }
    DrawFilledTriangle2D(s, p0.value, p1.value, p2.value);
  }

  // ---------------------------------------------------------------------------
  // The cube

  /** An index into the cube's eight corners. */
  type Corner = i: int | 0 <= i < 8

  /** The corners of the cube with the given centre and edge length: corners
      0-3 on the face z = cz - size/2, corners 4-7 on the face z = cz + size/2,
      each face listed around its rim. */
  function CubeCorners(c: Vec3, size: real): (v: seq<Vec3>)
    ensures |v| == 8
  {
    var s := size / 2.0;
    [Vec3(c.x - s, c.y - s, c.z - s), Vec3(c.x + s, c.y - s, c.z - s),
     Vec3(c.x + s, c.y + s, c.z - s), Vec3(c.x - s, c.y + s, c.z - s),
     Vec3(c.x - s, c.y - s, c.z + s), Vec3(c.x + s, c.y - s, c.z + s),
     Vec3(c.x + s, c.y + s, c.z + s), Vec3(c.x - s, c.y + s, c.z + s)]
  }

  /** The twelve edges: the rim of the back face, the rim of the front face,
      and the four edges joining them. */
  const Edges: seq<(Corner, Corner)> :=
    [(0, 1), (1, 2), (2, 3), (3, 0),
     (4, 5), (5, 6), (6, 7), (7, 4),
     (0, 4), (1, 5), (2, 6), (3, 7)]

  /** The twelve triangles, two per face, in the face order of FaceOf. */
  const Triangles: seq<(Corner, Corner, Corner)> :=
    [(0, 1, 2), (0, 2, 3),
     (4, 6, 5), (4, 7, 6),
     (0, 3, 7), (0, 7, 4),
     (1, 5, 6), (1, 6, 2),
     (0, 4, 5), (0, 5, 1),
     (3, 2, 6), (3, 6, 7)]

  datatype Axis = X | Y | Z

  function Coord(v: Vec3, ax: Axis): real
  {
    match ax
    case X => v.x
    case Y => v.y
    case Z => v.z
  }

  /** The face that triangle i belongs to, as its axis and side (-1 or +1):
      back (-Z), front (+Z), left (-X), right (+X), bottom (-Y), top (+Y). */
  function FaceOf(i: nat): (Axis, real)
    requires i < 12
  {
    [(Z, -1.0), (Z, 1.0), (X, -1.0), (X, 1.0), (Y, -1.0), (Y, 1.0)][i / 2]
  }

  /** p and q differ on exactly one axis, by the edge length (when it is nonzero). */
  predicate OneEdgeApart(p: Vec3, q: Vec3, size: real)
  {
    (p.y == q.y && p.z == q.z && (q.x - p.x == size || p.x - q.x == size)) ||
    (p.x == q.x && p.z == q.z && (q.y - p.y == size || p.y - q.y == size)) ||
    (p.x == q.x && p.y == q.y && (q.z - p.z == size || p.z - q.z == size))
  }

  function Sub(a: Vec3, b: Vec3): Vec3
  {
    Vec3(a.x - b.x, a.y - b.y, a.z - b.z)
  }

  function Cross(a: Vec3, b: Vec3): Vec3
  {
    Vec3(a.y * b.z - a.z * b.y, a.z * b.x - a.x * b.z, a.x * b.y - a.y * b.x)
  }

  /** The normal (b - a) x (c - a) of triangle i of the cube. */
  function TriangleNormal(v: seq<Vec3>, i: nat): Vec3
    requires |v| == 8 && i < 12
  {
    var (a, b, c) := Triangles[i];
    Cross(Sub(v[b], v[a]), Sub(v[c], v[a]))
  }

  /** Both tables have twelve entries. Every entry is a corner index, which
      the `Corner` type of the entries already guarantees. */
  lemma TablesWellFormed()
    ensures |Edges| == 12 && |Triangles| == 12
    ensures forall i :: 0 <= i < 12 ==> 0 <= Edges[i].0 < 8 && 0 <= Edges[i].1 < 8
    ensures forall i :: 0 <= i < 12 ==>
      0 <= Triangles[i].0 < 8 && 0 <= Triangles[i].1 < 8 && 0 <= Triangles[i].2 < 8
  {
  }

  /** No edge is listed twice, in either direction; with EdgesJoinNeighbours,
      the table lists the twelve edges of the cube. */
  lemma EdgesAllDifferent()
    ensures forall i, j :: 0 <= i < j < |Edges| ==> {Edges[i].0, Edges[i].1} != {Edges[j].0, Edges[j].1}
  {
  }

  /** Every edge joins two corners that differ in one coordinate only, by the
      cube's edge length. */
  lemma EdgesJoinNeighbours(c: Vec3, size: real)
    ensures forall i :: 0 <= i < 12 ==>
      OneEdgeApart(CubeCorners(c, size)[Edges[i].0], CubeCorners(c, size)[Edges[i].1], size)
  {
    var v := CubeCorners(c, size);
    var s := size / 2.0;
    assert (c.x + s) - (c.x - s) == size && (c.y + s) - (c.y - s) == size && (c.z + s) - (c.z - s) == size;
    assert OneEdgeApart(v[0], v[1], size) && OneEdgeApart(v[1], v[2], size);
    assert OneEdgeApart(v[2], v[3], size) && OneEdgeApart(v[3], v[0], size);
    assert OneEdgeApart(v[4], v[5], size) && OneEdgeApart(v[5], v[6], size);
    assert OneEdgeApart(v[6], v[7], size) && OneEdgeApart(v[7], v[4], size);
    assert OneEdgeApart(v[0], v[4], size) && OneEdgeApart(v[1], v[5], size);
    assert OneEdgeApart(v[2], v[6], size) && OneEdgeApart(v[3], v[7], size);
  }

  /** Both triangles of each face lie in that face's plane: all three corners
      have the face's coordinate at the centre's plus the side times half the
      edge length (for the back face, z = cz - size/2). */
  lemma TrianglesLieOnTheirFace(c: Vec3, size: real)
    ensures forall i :: 0 <= i < 12 ==>
      var (ax, side) := FaceOf(i);
      var (p, q, r) := Triangles[i];
      var v := CubeCorners(c, size);
      Coord(v[p], ax) == Coord(c, ax) + side * (size / 2.0) &&
      Coord(v[q], ax) == Coord(c, ax) + side * (size / 2.0) &&
      Coord(v[r], ax) == Coord(c, ax) + side * (size / 2.0)
  {
  }

  /** All twelve triangles are wound the same way: each one's normal lies
      along its face's axis, on the side opposite to the face (into the cube
      when size > 0), and has length size^2. */
  lemma TrianglesWoundAlike(c: Vec3, size: real)
    ensures forall i :: 0 <= i < 12 ==>
      var (ax, side) := FaceOf(i);
      var n := TriangleNormal(CubeCorners(c, size), i);
      Coord(n, ax) == -side * size * size &&
      (ax != X ==> n.x == 0.0) && (ax != Y ==> n.y == 0.0) && (ax != Z ==> n.z == 0.0)
  {
    forall i | 0 <= i < 12
      ensures var (ax, side) := FaceOf(i);
        var n := TriangleNormal(CubeCorners(c, size), i);
        Coord(n, ax) == -side * size * size &&
        (ax != X ==> n.x == 0.0) && (ax != Y ==> n.y == 0.0) && (ax != Z ==> n.z == 0.0)
    {
      TriangleNormalValue(c, size, i);
    }
  }

  /** The normal of triangle i, worked out from its two edges. */
  lemma TriangleNormalValue(c: Vec3, size: real, i: nat)
    requires i < 12
    ensures var n := TriangleNormal(CubeCorners(c, size), i);
      (i == 0 ==> n == Vec3(0.0, 0.0, size * size)) &&
      (i == 1 ==> n == Vec3(0.0, 0.0, size * size)) &&
      (i == 2 ==> n == Vec3(0.0, 0.0, -(size * size))) &&
      (i == 3 ==> n == Vec3(0.0, 0.0, -(size * size))) &&
      (i == 4 ==> n == Vec3(size * size, 0.0, 0.0)) &&
      (i == 5 ==> n == Vec3(size * size, 0.0, 0.0)) &&
      (i == 6 ==> n == Vec3(-(size * size), 0.0, 0.0)) &&
      (i == 7 ==> n == Vec3(-(size * size), 0.0, 0.0)) &&
      (i == 8 ==> n == Vec3(0.0, size * size, 0.0)) &&
      (i == 9 ==> n == Vec3(0.0, size * size, 0.0)) &&
      (i == 10 ==> n == Vec3(0.0, -(size * size), 0.0)) &&
      (i == 11 ==> n == Vec3(0.0, -(size * size), 0.0))
  {
    TriangleEdges(c, size, i);
  }

  /** The two edges (b - a) and (c - a) of triangle i, which the normal is
      the cross product of. */
  lemma TriangleEdges(c: Vec3, size: real, i: nat)
    requires i < 12
    ensures var v, (p, q, r) := CubeCorners(c, size), Triangles[i];
      (i == 0 ==> Sub(v[q], v[p]) == Vec3(size, 0.0, 0.0) && Sub(v[r], v[p]) == Vec3(size, size, 0.0)) &&
      (i == 1 ==> Sub(v[q], v[p]) == Vec3(size, size, 0.0) && Sub(v[r], v[p]) == Vec3(0.0, size, 0.0)) &&
      (i == 2 ==> Sub(v[q], v[p]) == Vec3(size, size, 0.0) && Sub(v[r], v[p]) == Vec3(size, 0.0, 0.0)) &&
      (i == 3 ==> Sub(v[q], v[p]) == Vec3(0.0, size, 0.0) && Sub(v[r], v[p]) == Vec3(size, size, 0.0)) &&
      (i == 4 ==> Sub(v[q], v[p]) == Vec3(0.0, size, 0.0) && Sub(v[r], v[p]) == Vec3(0.0, size, size)) &&
      (i == 5 ==> Sub(v[q], v[p]) == Vec3(0.0, size, size) && Sub(v[r], v[p]) == Vec3(0.0, 0.0, size)) &&
      (i == 6 ==> Sub(v[q], v[p]) == Vec3(0.0, 0.0, size) && Sub(v[r], v[p]) == Vec3(0.0, size, size)) &&
      (i == 7 ==> Sub(v[q], v[p]) == Vec3(0.0, size, size) && Sub(v[r], v[p]) == Vec3(0.0, size, 0.0)) &&
      (i == 8 ==> Sub(v[q], v[p]) == Vec3(0.0, 0.0, size) && Sub(v[r], v[p]) == Vec3(size, 0.0, size)) &&
      (i == 9 ==> Sub(v[q], v[p]) == Vec3(size, 0.0, size) && Sub(v[r], v[p]) == Vec3(size, 0.0, 0.0)) &&
      (i == 10 ==> Sub(v[q], v[p]) == Vec3(size, 0.0, 0.0) && Sub(v[r], v[p]) == Vec3(size, 0.0, size)) &&
      (i == 11 ==> Sub(v[q], v[p]) == Vec3(size, 0.0, size) && Sub(v[r], v[p]) == Vec3(0.0, 0.0, size))
  {
  }

  /** The projections of the cube's corners, in corner order. */
  function Projections(p: Pose, t: Trig, v: seq<Vec3>, w: int, h: int): (r: seq<Option<Vec2>>)
    requires |v| == 8
    ensures |r| == 8
  {
    seq(8, k requires 0 <= k < 8 => ProjectPoint(p, t, v[k], w, h))
  }

  /** The edge and triangle drawn in iteration i of `drawCube`'s loop, given
      the projections of the corners. */
  function CubeStep(proj: seq<Option<Vec2>>, i: nat): seq<Segment>
    requires |proj| == 8 && i < 12
  {
    Line(proj[Edges[i].0], proj[Edges[i].1]) +
    Fill(proj[Triangles[i].0], proj[Triangles[i].1], proj[Triangles[i].2])
  }

  /** Everything the first n iterations of `drawCube`'s loop draw. */
  function CubeSegments(proj: seq<Option<Vec2>>, n: nat): seq<Segment>
    requires |proj| == 8 && n <= 12
  {
    if n == 0 then [] else CubeSegments(proj, n - 1) + CubeStep(proj, n - 1)
  }

  lemma AppendAssoc<T>(a: seq<T>, b: seq<T>, c: seq<T>)
    ensures (a + b) + c == a + (b + c)
  {
  }

  /** `drawCube`: each of the twelve iterations draws one edge and one triangle. */
  method DrawCube(s: Surface, camera: Camera, t: Trig, centre: Vec3, size: real, w: int, h: int)
    modifies s
    ensures s.segments == old(s.segments) +
      CubeSegments(Projections(camera.State(), t, CubeCorners(centre, size), w, h), 12)
  {
    var v := CubeCorners(centre, size);
    ghost var proj := Projections(camera.State(), t, v, w, h);
    for i := 0 to 12
      invariant s.segments == old(s.segments) + CubeSegments(proj, i)
    {
      ghost var before := s.segments;
      var (e0, e1) := Edges[i];
      Draw3DLine(s, camera, t, v[e0], v[e1], w, h);
      var (a, b, c) := Triangles[i];
      Draw3DTriangle(s, camera, t, v[a], v[b], v[c], w, h);
      assert proj[e0] == ProjectPoint(camera.State(), t, v[e0], w, h);
      assert proj[e1] == ProjectPoint(camera.State(), t, v[e1], w, h);
      assert proj[a] == ProjectPoint(camera.State(), t, v[a], w, h);
      assert proj[b] == ProjectPoint(camera.State(), t, v[b], w, h);
      assert proj[c] == ProjectPoint(camera.State(), t, v[c], w, h);
      AppendAssoc(before, Line(proj[e0], proj[e1]), Fill(proj[a], proj[b], proj[c]));
      AppendAssoc(old(s.segments), CubeSegments(proj, i), CubeStep(proj, i));
    }
  }

  // ---------------------------------------------------------------------------
  // What the cube looks like on screen

  /** Both endpoints of the line lie in the rectangle [xlo, xhi] x [ylo, yhi]. */
  predicate Within(g: Segment, xlo: int, xhi: int, ylo: int, yhi: int)
  {
    xlo <= g.x0 <= xhi && xlo <= g.x1 <= xhi && ylo <= g.y0 <= yhi && ylo <= g.y1 <= yhi
  }

  /** Every corner projects, into the rectangle [xlo, xhi] x [ylo, yhi]. */
  predicate AllCornersWithin(proj: seq<Option<Vec2>>, xlo: int, xhi: int, ylo: int, yhi: int)
    requires |proj| == 8
  {
    forall k :: 0 <= k < 8 ==>
      proj[k].Some? && xlo <= proj[k].value.x <= xhi && ylo <= proj[k].value.y <= yhi
  }

  /** One iteration of the loop over a cube whose corners all project into a
      rectangle draws its edge and a nonempty fill, all inside the rectangle. */
  lemma CubeStepWithin(proj: seq<Option<Vec2>>, i: nat, xlo: int, xhi: int, ylo: int, yhi: int)
    requires |proj| == 8 && i < 12
    requires AllCornersWithin(proj, xlo, xhi, ylo, yhi)
    ensures |Line(proj[Edges[i].0], proj[Edges[i].1])| == 1
    ensures Fill(proj[Triangles[i].0], proj[Triangles[i].1], proj[Triangles[i].2]) != []
    ensures forall k :: 0 <= k < |CubeStep(proj, i)| ==> Within(CubeStep(proj, i)[k], xlo, xhi, ylo, yhi)
  {
    var line := Line(proj[Edges[i].0], proj[Edges[i].1]);
    var u, v, x := proj[Triangles[i].0].value, proj[Triangles[i].1].value, proj[Triangles[i].2].value;
    var fill := TriangleSpans(u, v, x);
    assert Fill(proj[Triangles[i].0], proj[Triangles[i].1], proj[Triangles[i].2]) == fill;
    TriangleInBox(u, v, x);
    assert CubeStep(proj, i) == line + fill;
    forall k | 0 <= k < |line + fill|
      ensures Within((line + fill)[k], xlo, xhi, ylo, yhi)
    {
      if k >= |line| {
        assert (line + fill)[k] == fill[k - |line|];
      }
    }
  }

  /** A cube whose eight corners all project into a rectangle is drawn inside
      that rectangle, with one line per edge and at least one per triangle. */
  lemma {:induction false} CubeWithin(proj: seq<Option<Vec2>>, n: nat, xlo: int, xhi: int, ylo: int, yhi: int)
    requires |proj| == 8 && n <= 12
    requires AllCornersWithin(proj, xlo, xhi, ylo, yhi)
    ensures |CubeSegments(proj, n)| >= 2 * n
    ensures forall k :: 0 <= k < |CubeSegments(proj, n)| ==>
      Within(CubeSegments(proj, n)[k], xlo, xhi, ylo, yhi)
  {
    if n > 0 {
      CubeWithin(proj, n - 1, xlo, xhi, ylo, yhi);
      CubeStepWithin(proj, n - 1, xlo, xhi, ylo, yhi);
      var prefix, step := CubeSegments(proj, n - 1), CubeStep(proj, n - 1);
      assert CubeSegments(proj, n) == prefix + step;
      forall k | 0 <= k < |prefix + step|
        ensures Within((prefix + step)[k], xlo, xhi, ylo, yhi)
      {
        if k >= |prefix| {
          assert (prefix + step)[k] == step[k - |prefix|];
        }
      }
    }
  }

  /** The starting camera: at the origin, looking down -z, focal length 400. */
  const StartPose: Pose := Pose(0.0, 0.0, 0.0, 0.0, 0.0, 400.0)

  /** The screen positions of the opening cube's corners in the opening frame:
      the start camera, an 800 x 600 window and the cube of edge 2 centred
      five units in front of the eye. The back face (z = -6) projects to the
      square [333, 466] x [233, 366], the front face (z = -4) to the larger
      square [300, 500] x [200, 400], both centred on the screen centre
      (400, 300). */
  const OpeningFrame: seq<Option<Vec2>> :=
    [Some(Vec2(333, 366)), Some(Vec2(466, 366)), Some(Vec2(466, 233)), Some(Vec2(333, 233)),
     Some(Vec2(300, 400)), Some(Vec2(500, 400)), Some(Vec2(500, 200)), Some(Vec2(300, 200))]

  /** The corners' perspective positions with focal length f in a w x h window. */
  function Perspectives(v: seq<Vec3>, f: real, w: int, h: int): (r: seq<Option<Vec2>>)
    requires |v| == 8
    ensures |r| == 8
  {
    seq(8, k requires 0 <= k < 8 => Perspective(v[k], f, w, h))
  }

  /** The start camera projects the corners to their opening-frame positions. */
  lemma OpeningFrameCorners(t: Trig)
    requires t.sin(0.0) == 0.0 && t.cos(0.0) == 1.0
    ensures Projections(StartPose, t, CubeCorners(Vec3(0.0, 0.0, -5.0), 2.0), 800, 600) == OpeningFrame
  {
    var v := CubeCorners(Vec3(0.0, 0.0, -5.0), 2.0);
    StartProjections(t, v);
    OpeningPerspectives();
  }

  /** From the start camera camera space is world space, so projecting is
      taking the perspective with the start focal length. */
  lemma StartProjections(t: Trig, v: seq<Vec3>)
    requires t.sin(0.0) == 0.0 && t.cos(0.0) == 1.0
    requires |v| == 8
    ensures Projections(StartPose, t, v, 800, 600) == Perspectives(v, 400.0, 800, 600)
  {
    forall k | 0 <= k < 8
      ensures Projections(StartPose, t, v, 800, 600)[k] == Perspectives(v, 400.0, 800, 600)[k]
    {
      assert CameraSpace(StartPose, t, v[k]) == v[k];
    }
  }

  /** The perspective positions of the opening cube's corners. */
  lemma OpeningPerspectives()
    ensures Perspectives(CubeCorners(Vec3(0.0, 0.0, -5.0), 2.0), 400.0, 800, 600) == OpeningFrame
  {
    var v := CubeCorners(Vec3(0.0, 0.0, -5.0), 2.0);
    assert v ==
      [Vec3(-1.0, -1.0, -6.0), Vec3(1.0, -1.0, -6.0),
       Vec3(1.0, 1.0, -6.0), Vec3(-1.0, 1.0, -6.0),
       Vec3(-1.0, -1.0, -4.0), Vec3(1.0, -1.0, -4.0),
       Vec3(1.0, 1.0, -4.0), Vec3(-1.0, 1.0, -4.0)];
    var proj := Perspectives(v, 400.0, 800, 600);
    OpeningCorner(Vec3(-1.0, -1.0, -6.0), 333, 366);
    OpeningCorner(Vec3(1.0, -1.0, -6.0), 466, 366);
    OpeningCorner(Vec3(1.0, 1.0, -6.0), 466, 233);
    OpeningCorner(Vec3(-1.0, 1.0, -6.0), 333, 233);
    OpeningCorner(Vec3(-1.0, -1.0, -4.0), 300, 400);
    OpeningCorner(Vec3(1.0, -1.0, -4.0), 500, 400);
    OpeningCorner(Vec3(1.0, 1.0, -4.0), 500, 200);
    OpeningCorner(Vec3(-1.0, 1.0, -4.0), 300, 200);
  }

  /** One corner of the opening cube: its perspective position in the
      opening frame is its truncated screen position. */
  lemma OpeningCorner(p: Vec3, sx: int, sy: int)
    requires p.z < 0.0
    requires Trunc(400.0 + (p.x / -p.z) * 400.0) == sx && Trunc(300.0 - (p.y / -p.z) * 400.0) == sy
    ensures Perspective(p, 400.0, 800, 600) == Some(Vec2(sx, sy))
  {
    assert HalfTowardZero(800) == 400 && HalfTowardZero(600) == 300;
  }

  /** In the opening frame the whole cube is drawn: every triangle gets a
      fill, and nothing is drawn outside the front face's square, which is
      centred on the screen. */
  lemma OpeningFrameDrawn()
    ensures var drawn := CubeSegments(OpeningFrame, 12);
      |drawn| >= 24 && forall k :: 0 <= k < |drawn| ==> Within(drawn[k], 300, 500, 200, 400)
  {
    assert AllCornersWithin(OpeningFrame, 300, 500, 200, 400);
    CubeWithin(OpeningFrame, 12, 300, 500, 200, 400);
  }

  /** In the opening frame every one of the twelve edges is drawn as a line
      of nonzero length. */
  lemma OpeningFrameEdges()
    ensures forall i :: 0 <= i < 12 ==>
      var line := Line(OpeningFrame[Edges[i].0], OpeningFrame[Edges[i].1]);
      |line| == 1 && (line[0].x0 != line[0].x1 || line[0].y0 != line[0].y1)
  {
    forall i | 0 <= i < 12
      ensures var line := Line(OpeningFrame[Edges[i].0], OpeningFrame[Edges[i].1]);
        |line| == 1 && (line[0].x0 != line[0].x1 || line[0].y0 != line[0].y1)
    {
      assert OpeningFrame[Edges[i].0] != OpeningFrame[Edges[i].1];
    }
  }
}
