# Software renderer of the Minecraft clone, in Dafny

This project models the software renderer in `main.cpp`, and proves properties of the model. The renderer has five parts:

- The camera holds a position, a yaw, a pitch and a focal length. The keyboard moves it (`moveForward`, `moveRight`, `moveUp`). The mouse turns it, and the pitch is clamped to [-1.55, 1.55].
- `projectPoint` does three things:
  - it translates a world point by the camera position, then rotates it by the yaw and by the pitch;
  - it rejects the point when the rotated depth is not negative;
  - otherwise it divides by the depth and truncates the result to a pixel.
- `drawFilledTriangle2D` fills a screen triangle:
  - it sorts the three vertices by row with three conditional swaps;
  - it classifies the triangle as flat-bottom, flat-top or general;
  - it splits a general triangle at its middle row;
  - it walks the edges of each half with `float` inverse slopes, drawing one horizontal line per row.
- `draw3DLine` and `draw3DTriangle` draw a primitive only if every vertex projects.
- `drawCube` builds the eight corners of a cube. It then loops over a 12-entry edge table and a 12-entry triangle table.

Modelling choices:

- `double` and `float` are modelled as exact `real`s.
- `sin` and `cos` are left uninterpreted. They are a `Trig` value passed as a parameter. Lemmas that need sin² + cos² = 1 ask for it at the angles they use.
- The C++ `(int)` cast is truncation toward zero (`Basics.Trunc`). The `screenWidth / 2` is integer division that also truncates toward zero (`Basics.HalfTowardZero`).
- A `float` division is a `Basics.Float`, which is `NonFinite` exactly when the divisor is zero. The draw methods are proved never to cast a non-finite intercept.
- The render target is a `Raster.Surface` object. Its `segments` list grows by one entry per `SDL_RenderLine` call.
- Every drawing method is proved against a specification function: `FlatBottomSpans`, `FlatTopSpans`, `TriangleSpans`, `CorrectedTriangleSpans`, `Line`, `Fill` and `CubeSegments`. The lemmas about those functions state what gets drawn. The x-intercepts in the specification are the truncations of the exact edge crossings.

Modules:

- `Basics`: integer and float conversions.
- `Cameras`: the camera object and its updates.
- `Projection`: the projector.
- `Raster`: the filler and its specification.
- `RasterProperties`: what the filler draws.
- `Scene`: 3D primitives and the cube.

Two places where the code's behaviour is easy to misread:

- `moveForward` moves along the full view direction, pitch included: besides x and z it also changes `y`, by `-sin(pitch)·amount` (main.cpp:27). It is a fly-through move, not a walk at a fixed height.
- The branch selection (main.cpp:131-141) does not keep every zero height out of a division. The code divides by zero for a triangle whose three vertices share a row: both slopes in `drawFlatBottom` are `x/0`. The loop draws its one line from the finite start value `a.x`, then adds the slopes and exits, so the non-finite sums are never cast. `Raster.DrawFlatBottom` proves this, and `RasterProperties.DivisorsNonzero` states which divisors can be zero.

## Model

| member | source | states |
|---|---|---|
| Basics.Trunc | main.cpp:83-84 | The `(int)` cast truncates toward zero: the result is within 1 of the value, at or below it for non-negative values and at or above it for negative ones. |
| Basics.TruncBetween | main.cpp:146 | Truncating a value that lies between two integers gives a result between them. |
| Basics.HalfTowardZero | main.cpp:83-84 | `n / 2` on `int` rounds toward zero: for n ≥ 0, n = 2q or 2q + 1; for n < 0, n = 2q or 2q - 1. |
| Basics.Quotient | main.cpp:100-101 | The `float` inverse slope is non-finite exactly when the height is zero; otherwise it times the height gives the width. |
| Cameras.ClampPitch | main.cpp:311-312 | The clamped pitch is in [-1.55, 1.55]. It equals the input when the input is in range, and otherwise saturates at the bound on the input's side. |
| Cameras.ClampPitchIdempotent | main.cpp:311-312 | Clamping an already clamped pitch changes nothing. |
| Cameras.MovesKeepOrientation | main.cpp:24-41 | No move touches yaw, pitch or focal length. `moveUp` changes only y, by the amount. `moveRight` leaves y alone. A nonzero `moveForward` leaves y alone exactly when sin(pitch) = 0. |
| Cameras.LookKeepsPitchInRange | main.cpp:308-312 | Whatever the mouse deltas, the pitch after a look update is in [-1.55, 1.55]. The yaw drops by xrel·0.002, and the position and focal length are unchanged. |
| Cameras.Camera.constructor | main.cpp:19-22 | A new camera is at the origin with yaw and pitch 0 and focal length 400, and its pitch is in range. |
| Cameras.Camera.MoveForward | main.cpp:24-29 | The new state is `MovedForward` of the old: the position moves along the view direction, pitch included. The pitch invariant is kept. |
| Cameras.Camera.MoveRight | main.cpp:33-37 | The new state is `MovedRight` of the old: a horizontal strafe. The pitch invariant is kept. |
| Cameras.Camera.MoveUp | main.cpp:38-41 | The new state is `MovedUp` of the old: y grows by the amount. The pitch invariant is kept. |
| Cameras.Camera.Look | main.cpp:308-312 | The new state is `Looked` of the old: the yaw turns and the pitch is updated and clamped. Afterwards the pitch is in range whatever it was before. |
| Projection.YawedKeepsLength | main.cpp:61-66 | Given sin² + cos² = 1, the yaw step (rx, ry, rz) to (x1, ry, z1) keeps the squared distance from the eye: it is a rotation. |
| Projection.PitchedKeepsLength | main.cpp:68-73 | Given sin² + cos² = 1, the pitch step (x1, ry, z1) to (x1, y2, z2) keeps the squared distance from the eye. |
| Projection.CameraSpaceKeepsDistance | main.cpp:56-73 | The camera-space coordinates (x1, y2, z2), translate then yaw then pitch, are as far from the eye as the world point is from the camera: the transform turns the world and does not stretch it. |
| Projection.ProjectPoint | main.cpp:49-87 | The point is rejected (`false`, outputs unwritten) exactly when its rotated depth z2 ≥ 0. |
| Projection.Perspective | main.cpp:75-84 | The second half of `projectPoint`, on camera-space coordinates, rejects a point exactly when its depth is not negative. |
| Projection.ProjectionSides | main.cpp:79-84 | With a positive focal length, a projected point lands at or right of, at or left of, or on the centre column as its camera-space x is positive, negative or zero. It lands at or above, at or below, or on the centre row as its camera-space y is positive, negative or zero. "At" is reachable: the `(int)` cast puts an offset under one pixel on the centre itself. |
| Projection.PerspectiveSides | main.cpp:79-84 | With a positive focal length, a point in front of the eye lands on the centre column or on the side of it that its x points to, and on the centre row or on the opposite side of it from its y, since rows grow downward. It lands exactly on the centre when the coordinate is zero. |
| Projection.SubPixelLandsOnCentre | main.cpp:83-84 | The camera-space point (0.001, -0.001, -1), right of and below the view axis by less than a pixel, lands on the centre pixel (400, 300) of an 800×600 window with focal length 400. |
| Projection.ColumnSide | main.cpp:80-83 | `(int)(width/2 + x/d·f)`, for d, f > 0, is ≥, ≤ or = the centre column as x is positive, negative or zero. |
| Projection.RowSide | main.cpp:81-84 | `(int)(height/2 - y/d·f)`, for d, f > 0, is ≤, ≥ or = the centre row as y is positive, negative or zero. |
| Projection.EyeAtOrigin | main.cpp:56-73 | The camera's own position is the camera-space origin. |
| Projection.OnAxisProjectsToCentre | main.cpp:79-84 | A point on the view axis in front of the eye projects to (width/2, height/2). |
| Projection.MoveForwardShiftsDepth | main.cpp:24-29 | If sin² + cos² = 1 at the yaw and pitch, then after `moveForward(d)` every point keeps its camera-space x and y, and its depth z2 grows by d. |
| Projection.MoveRightShiftsSideways | main.cpp:33-37 | If sin² + cos² = 1 at the yaw, then after `moveRight(d)` every point's camera-space x drops by d, and its y and z2 are unchanged. |
| Projection.AdvancedView | main.cpp:24-29 | For any unit-circle sines and cosines of yaw and pitch, the pose `moveForward` reaches sees every point at the same camera-space x and y, with depth grown by the amount. |
| Projection.ForwardIsViewAxis | main.cpp:24-29 | The step `moveForward` takes, rotated by the yaw and then the pitch, is (0, 0, amount): it lies on the view axis. |
| Projection.StrafedView | main.cpp:33-37 | For a unit-circle sine and cosine of the yaw and any pitch, the pose `moveRight` reaches sees every point `amount` further left, with y and depth unchanged. |
| Projection.RightIsScreenAxis | main.cpp:33-37 | The step `moveRight` takes, rotated into camera space, is (-amount, 0, 0): it lies along the screen's x axis. |
| Projection.ForwardPointProjectsToCentre | main.cpp:24-29 | The point `moveForward(d)` would reach, for d > 0, projects exactly to the screen centre, whatever the yaw and pitch. |
| Raster.Surface.RenderLine | main.cpp:108 | Drawing a line appends exactly that line to the target. |
| Raster.Sort3 | main.cpp:93-96 | After the three swaps the vertices are sorted by y and are one of the six orderings of the inputs, hence a permutation of them. |
| Raster.Classify | main.cpp:130-141 | On row-sorted vertices the flat-bottom branch is taken exactly when the lower half has no height, the flat-top branch exactly when only the upper half has none, and the split branch exactly when both halves have height. |
| Raster.SplitVertex | main.cpp:143-148 | `vSplit` lies on the middle row. Its x is the truncated crossing of the long edge with that row, between the long edge's end x's. |
| Raster.EdgeStep | main.cpp:109-110 | One row further along a non-horizontal edge, the crossing grows by the inverse slope. |
| Raster.EdgeEnds | main.cpp:103-104 | An edge walk starts at its first vertex's x. For a non-horizontal edge it ends exactly at the second vertex's x. |
| Raster.EdgeBetween | main.cpp:146 | On every row between an edge's ends, its crossing lies between the ends' x's. |
| Raster.SplitCrossing | main.cpp:143-146 | The split vertex's x, computed from main.cpp's `t`, is the truncation of the long edge's exact crossing of the middle row, and lies between the long edge's end x's. |
| Raster.SplitParameter | main.cpp:143-146 | `v0.x + t·(v2.x - v0.x)` with `t = (v1.y - v0.y)/(v2.y - v0.y)` is the long edge's crossing of row v1.y. |
| Raster.WalkStep | main.cpp:109-110 | Adding (or subtracting) the `float` inverse slope to a finite intercept gives the edge's crossing on the next (or previous) row, and it stays finite. |
| Raster.FlatBottomSpanAt | main.cpp:106-111 | The k-th line of a flat-bottom fill is on row a.y + k, between the truncated crossings of edges a-b and a-c. |
| Raster.FlatTopSpanAt | main.cpp:122-127 | The k-th line of a flat-top fill is on row c.y - k, between the truncated crossings of edges a-c and b-c. |
| Raster.TriangleSpansByCase | main.cpp:130-152 | Whichever branch runs, the lines it appends are `TriangleSpans` of the original vertices. |
| Raster.DrawFlatBottom | main.cpp:98-112 | The `drawFlatBottom` loop appends `FlatBottomSpans(a, b, c)` and nothing else. Every intercept it casts is finite. |
| Raster.DrawFlatTop | main.cpp:114-128 | The `drawFlatTop` loop appends `FlatTopSpans(a, b, c)` and nothing else. Every intercept it casts is finite. |
| Raster.DrawFilledTriangle2D | main.cpp:88-153 | Filling a triangle appends `TriangleSpans(v0, v1, v2)`. The swaps are done in place, and the split vertex is computed from main.cpp's `t`. |
| Raster.FlatEdgeSpan | main.cpp:122-124 | The line the flat-top walk would draw on its flat edge's row runs exactly from a to b. |
| Raster.DrawFilledTriangle2DCorrected | main.cpp:88-153 | The corrected filler appends `CorrectedTriangleSpans`: the code's fill plus, for a flat-top triangle, its flat edge. |
| RasterProperties.DivisorsNonzero | main.cpp:98-152 | In the flat-top and split branches, every height the code divides by is nonzero. In the flat-bottom branch a height is zero only when all three vertices share a row, and then exactly one line is drawn. |
| RasterProperties.FlatBottomRows | main.cpp:106-111 | `drawFlatBottom` draws b.y - a.y + 1 horizontal lines, one on each row a.y..b.y. |
| RasterProperties.FlatTopRows | main.cpp:122-127 | `drawFlatTop` draws c.y - a.y horizontal lines, one on each row a.y+1..c.y, and none on row a.y. |
| RasterProperties.TriangleRows | main.cpp:130-152 | Every line is horizontal. A flat-bottom or split triangle gets exactly one line on every row from its top to its bottom vertex; the halves do not overlap at the middle row. A flat-top triangle gets every row except that of its flat edge. |
| RasterProperties.TriangleSpansNonEmpty | main.cpp:130-152 | Every triangle, however degenerate, gets at least one line. |
| RasterProperties.FlatBottomInBox | main.cpp:98-112 | Every flat-bottom line lies between the vertices' x-range and rows a.y..b.y. |
| RasterProperties.FlatTopInBox | main.cpp:114-128 | Every flat-top line lies between the vertices' x-range and rows a.y+1..c.y. |
| RasterProperties.TriangleInBox | main.cpp:88-153 | No line of a fill leaves the triangle's bounding box. |
| RasterProperties.FlatBottomEnds | main.cpp:103-111 | A flat-bottom fill's first line is the apex point, and its last line runs exactly from b to c. |
| RasterProperties.FlatTopStartsAtApex | main.cpp:119-124 | A flat-top fill's first line is the apex point c. |
| RasterProperties.FlatTopExampleMissesTopRow | main.cpp:122 | As written, the triangle (0,0), (10,0), (5,10) gets rows 1..10 once each and no line on row 0. |
| RasterProperties.CorrectedTriangleRows | main.cpp:122 | With the flat-top loop running to `y >= a.y`, every triangle gets exactly one horizontal line on every row from its top to its bottom vertex. A flat-top triangle's extra line is its flat edge from a to b. |
| RasterProperties.CorrectedFlatTopRows | main.cpp:122 | The corrected flat-top walk covers rows a.y..c.y once each and ends with the flat edge. |
| RasterProperties.CorrectedExampleCoversTopRow | main.cpp:122 | Corrected, the triangle (0,0), (10,0), (5,10) gets every row 0..10. |
| RasterProperties.CorrectedTriangleSpansNonEmpty | main.cpp:88-153 | Corrected, every triangle still gets at least one line. |
| RasterProperties.CorrectedTriangleInBox | main.cpp:88-153 | Corrected, no line of a fill leaves the triangle's bounding box. |
| Scene.Line | main.cpp:188-192 | `draw3DLine` draws at most one line, and one exactly when both endpoints project. |
| Scene.Fill | main.cpp:169-172 | `draw3DTriangle` draws something exactly when all three vertices project, and then it draws the fill of `drawFilledTriangle2D`. |
| Scene.Draw3DLine | main.cpp:178-193 | Appends `Line` of the two projections. The second point is projected only after the first succeeds. |
| Scene.Draw3DTriangle | main.cpp:157-173 | Appends `Fill` of the three projections, returning at the first vertex that fails. The fill is `drawFilledTriangle2D`'s, as the code calls it. |
| Scene.CubeCorners | main.cpp:206-214 | The cube has eight corners. |
| Scene.TablesWellFormed | main.cpp:216-241 | Both tables have 12 entries. Every index is in [0, 8); the `Corner` type of the entries already bounds them. |
| Scene.EdgesAllDifferent | main.cpp:216-221 | No edge is listed twice, in either direction. |
| Scene.EdgesJoinNeighbours | main.cpp:208-221 | Each edge joins two corners that differ in exactly one coordinate, by `size`. |
| Scene.TrianglesLieOnTheirFace | main.cpp:222-241 | Both triangles of each face have all three corners on the plane its comment names: back z = cz - s, front z = cz + s, left x = cx - s, right x = cx + s, bottom y = cy - s, top y = cy + s. |
| Scene.TriangleNormalValue | main.cpp:222-241 | Triangle i's normal (b - a) × (c - a) is ±size² along its face's axis: +z for 0-1, -z for 2-3, +x for 4-5, -x for 6-7, +y for 8-9, -y for 10-11. |
| Scene.TrianglesWoundAlike | main.cpp:222-241 | All twelve triangles are wound the same way: (b - a) × (c - a) lies along the face's axis, has length size², and lies on the side opposite to the face, which is into the cube when size > 0. |
| Scene.DrawCube | main.cpp:198-259 | The loop appends, for i = 0..11 in order, edge i's line and triangle i's fill: `CubeSegments` of the corners' projections. |
| Scene.CubeStepWithin | main.cpp:243-257 | If all eight corners project into a rectangle, one iteration draws its edge and a nonempty fill, all inside the rectangle. |
| Scene.CubeWithin | main.cpp:243-257 | If all eight corners project into a rectangle, the cube loop draws at least two lines per iteration, all inside the rectangle. |
| Scene.StartProjections | main.cpp:56-73 | From the start camera (origin, yaw and pitch 0) camera space is world space: every corner's projection is its perspective with focal length 400 in the 800×600 window. |
| Scene.OpeningPerspectives | main.cpp:79-84 | The perspectives of the opening cube's corners are exactly the eight screen points of the opening frame. |
| Scene.OpeningCorner | main.cpp:79-84 | In an 800×600 window with focal length 400, a point in front of the eye lands at (trunc(400 + 400·x/-z), trunc(300 - 400·y/-z)). |
| Scene.OpeningFrameCorners | main.cpp:335 | In the opening frame (start camera, 800×600, cube of size 2 at (0, 0, -5)), the corners project to the constant `OpeningFrame`: the back face to the square [333, 466] × [233, 366] and the front face to [300, 500] × [200, 400]. |
| Scene.OpeningFrameDrawn | main.cpp:335 | In the opening frame the whole cube is drawn, at least 24 lines. Nothing falls outside [300, 500] × [200, 400], which is centred on the screen centre (400, 300). |
| Scene.OpeningFrameEdges | main.cpp:335 | In the opening frame each of the twelve edges is one line of nonzero length. |

## Left out

- Floating-point rounding: `float` and `double` are exact reals, so the x-intercepts are exact crossings rather than accumulated `float` sums. Pixel x-values can differ by one from the program's where the `float` walk rounds across an integer.
- 32-bit `int` overflow, and the undefined behaviour of casting an out-of-range `double` to `int`: integers are unbounded.
- The values of `sin` and `cos`: they are uninterpreted, and only sin² + cos² = 1 at a given angle, or sin 0 = 0 and cos 0 = 1, is ever assumed, as a lemma's precondition.
- The SDL main loop (main.cpp:264-341): window and renderer creation, event polling, key dispatch (the ±0.15 moves), clearing, presenting and the console print are I/O.
- The ground grid (main.cpp:321-334) runs inside the SDL frame loop and is not part of this model.
- Draw colours (`SDL_SetRenderDrawColor`, main.cpp:245 and elsewhere) are not recorded on the surface.
- block.cpp, block.h, camera.cpp, camera.h and input.cpp (the OpenGL renderer, its matrix camera and its input glue) are not part of this model.
- Scene.TrianglesWoundAlike: states that the winding is consistent (clockwise seen from outside the cube). It does not say which screen-space orientation counts as front-facing, since the renderer never culls.

## Findings

| source | as written | input that shows it | evidently intended | confidence | as-written member | corrected member |
|---|---|---|---|---|---|---|
| main.cpp:122 | The flat-top loop runs `for (y = c.y; y > a.y; y--)`, so a triangle whose top edge is horizontal never gets the row of that edge. | The triangle (0,0), (10,0), (5,10) is drawn on rows 1..10 only, and the edge from (0,0) to (10,0) is missing. | Every row from the top vertex to the bottom vertex is drawn, 0..10 here. For a flat-top triangle this means running the loop to `y >= a.y`. | high, not executed | RasterProperties.FlatTopExampleMissesTopRow | RasterProperties.CorrectedTriangleRows |

`Raster.DrawFilledTriangle2D` models the code as written, and the lemmas about `TriangleSpans` describe it. `Scene.Draw3DTriangle` and `Scene.DrawCube` call it, as main.cpp:172 does, so a flat-top triangle of the cube is drawn without its flat edge's row. `Raster.CorrectedTriangleSpans` is the corrected fill, and `Raster.DrawFilledTriangle2DCorrected` draws it. In the split case the exclusive bound is what keeps the two halves from overlapping at the middle row, so the correction changes only the flat-top branch.
