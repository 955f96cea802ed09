/** The projector: a world point is translated by the camera position, rotated
    by yaw and then by pitch, rejected when it is not in front of the eye, and
    otherwise divided by its depth and scaled onto the screen. */
module Projection {
  import opened Basics
  import opened Cameras

  datatype Vec3 = Vec3(x: real, y: real, z: real)

  /** The camera's position as a point. */
  function Position(p: Pose): Vec3
  {
    Vec3(p.x, p.y, p.z)
  }

  function Add(a: Vec3, b: Vec3): Vec3
  {
    Vec3(a.x + b.x, a.y + b.y, a.z + b.z)
  }

  /** The world point relative to the eye: (rx, ry, rz). */
  function Offset(p: Pose, w: Vec3): Vec3
  {
    Vec3(w.x - p.x, w.y - p.y, w.z - p.z)
  }

  /** Rotation about the vertical axis by the angle whose sine and cosine are
      s and c: (rx, ry, rz) to (x1, ry, z1). */
  function Yawed(s: real, c: real, r: Vec3): Vec3
  {
    Vec3(c * r.x - s * r.z, r.y, s * r.x + c * r.z)
  }

  /** Rotation about the right axis by the angle whose sine and cosine are
      s and c: (x1, ry, z1) to (x1, y2, z2). */
  function Pitched(s: real, c: real, u: Vec3): Vec3
  {
    Vec3(u.x, c * u.y - s * u.z, s * u.y + c * u.z)
  }

  /** Camera-space coordinates (x1, y2, z2) of a world point: translate, rotate
      about the vertical axis by the yaw, then about the right axis by the pitch. */
  function CameraSpace(p: Pose, t: Trig, w: Vec3): Vec3
  {
    Pitched(t.sin(p.pitch), t.cos(p.pitch), Yawed(t.sin(p.yaw), t.cos(p.yaw), Offset(p, w)))
  }

  /** The squared distance of a point from the origin. */
  function SquaredLength(v: Vec3): real
  {
    v.x * v.x + v.y * v.y + v.z * v.z
  }

  /** The yaw step (rx, ry, rz) to (x1, ry, z1) is a rotation: it keeps the
      distance from the eye. */
  lemma YawedKeepsLength(s: real, c: real, r: Vec3)
    requires s * s + c * c == 1.0
    ensures SquaredLength(Yawed(s, c, r)) == SquaredLength(r)
  {
    assert (c * r.x - s * r.z) * (c * r.x - s * r.z) + (s * r.x + c * r.z) * (s * r.x + c * r.z)
      == (s * s + c * c) * (r.x * r.x + r.z * r.z);
  }

  /** The pitch step (x1, ry, z1) to (x1, y2, z2) is a rotation: it keeps the
      distance from the eye. */
  lemma PitchedKeepsLength(s: real, c: real, u: Vec3)
    requires s * s + c * c == 1.0
    ensures SquaredLength(Pitched(s, c, u)) == SquaredLength(u)
  {
    assert (c * u.y - s * u.z) * (c * u.y - s * u.z) + (s * u.y + c * u.z) * (s * u.y + c * u.z)
      == (s * s + c * c) * (u.y * u.y + u.z * u.z);
  }

  /** Camera space is the world seen from the eye and turned, not stretched:
      every point keeps its distance from the camera. */
  lemma CameraSpaceKeepsDistance(p: Pose, t: Trig, w: Vec3)
    requires UnitCircle(t, p.yaw) && UnitCircle(t, p.pitch)
    ensures SquaredLength(CameraSpace(p, t, w)) == SquaredLength(Offset(p, w))
  {
    YawedKeepsLength(t.sin(p.yaw), t.cos(p.yaw), Offset(p, w));
    PitchedKeepsLength(t.sin(p.pitch), t.cos(p.pitch), Yawed(t.sin(p.yaw), t.cos(p.yaw), Offset(p, w)));
  }

  /** `projectPoint`: None (the function returns false and writes nothing) for a
      point at or behind the eye, else the truncated screen position. */
  function ProjectPoint(p: Pose, t: Trig, w: Vec3, width: int, height: int): (r: Option<Vec2>)
    ensures r.None? <==> CameraSpace(p, t, w).z >= 0.0
  {
    Perspective(CameraSpace(p, t, w), p.focalLength, width, height)
  }

  /** The second half of `projectPoint`, on camera-space coordinates: reject a
      point at or behind the eye, else divide by the depth, scale by the focal
      length and truncate the offset from the screen centre. */
  function Perspective(c: Vec3, focalLength: real, width: int, height: int): (r: Option<Vec2>)
    ensures r.None? <==> c.z >= 0.0
  {
    if c.z >= 0.0 then None
    else
      var projectedX := (c.x / -c.z) * focalLength;
      var projectedY := (c.y / -c.z) * focalLength;
      Some(Vec2(Trunc(HalfTowardZero(width) as real + projectedX),
                Trunc(HalfTowardZero(height) as real - projectedY)))
  }

  /** Camera space keeps its orientation on screen: a point right of the view
      axis lands on or right of the centre column, a point above it lands on
      or above (at a smaller or equal y than) the centre row, and a point on it
      lands on it. "On" is reachable off the axis: the truncating cast puts an
      offset under one pixel on the centre (SubPixelLandsOnCentre). */
  lemma ProjectionSides(p: Pose, t: Trig, w: Vec3, width: int, height: int)
    requires p.focalLength > 0.0 && width >= 0 && height >= 0
    requires ProjectPoint(p, t, w, width, height).Some?
    ensures var c, v := CameraSpace(p, t, w), ProjectPoint(p, t, w, width, height).value;
      (c.x > 0.0 ==> v.x >= HalfTowardZero(width)) && (c.x < 0.0 ==> v.x <= HalfTowardZero(width)) &&
      (c.x == 0.0 ==> v.x == HalfTowardZero(width)) &&
      (c.y > 0.0 ==> v.y <= HalfTowardZero(height)) && (c.y < 0.0 ==> v.y >= HalfTowardZero(height)) &&
      (c.y == 0.0 ==> v.y == HalfTowardZero(height))
  {
    PerspectiveSides(CameraSpace(p, t, w), p.focalLength, width, height);
  }

  /** ProjectionSides on camera-space coordinates. */
  lemma PerspectiveSides(c: Vec3, focalLength: real, width: int, height: int)
    requires focalLength > 0.0 && c.z < 0.0
    ensures var v := Perspective(c, focalLength, width, height).value;
      (c.x > 0.0 ==> v.x >= HalfTowardZero(width)) && (c.x < 0.0 ==> v.x <= HalfTowardZero(width)) &&
      (c.x == 0.0 ==> v.x == HalfTowardZero(width)) &&
      (c.y > 0.0 ==> v.y <= HalfTowardZero(height)) && (c.y < 0.0 ==> v.y >= HalfTowardZero(height)) &&
      (c.y == 0.0 ==> v.y == HalfTowardZero(height))
  {
    ColumnSide(HalfTowardZero(width), c.x, -c.z, focalLength);
    RowSide(HalfTowardZero(height), c.y, -c.z, focalLength);
  }

  /** A point just right of and below the view axis, less than a pixel off
      it, lands on the centre pixel of an 800 x 600 window. */
  lemma SubPixelLandsOnCentre()
    ensures Perspective(Vec3(0.001, -0.001, -1.0), 400.0, 800, 600) == Some(Vec2(400, 300))
  {
    assert HalfTowardZero(800) == 400 && HalfTowardZero(600) == 300;
    assert Trunc(400.0 + (0.001 / 1.0) * 400.0) == 400;
    assert Trunc(300.0 - (-0.001 / 1.0) * 400.0) == 300;
  }

  /** The column of a point at camera-space x = a and depth d is on a's side
      of the centre column. */
  lemma ColumnSide(centre: int, a: real, d: real, f: real)
    requires d > 0.0 && f > 0.0
    ensures a > 0.0 ==> Trunc(centre as real + (a / d) * f) >= centre
    ensures a < 0.0 ==> Trunc(centre as real + (a / d) * f) <= centre
    ensures a == 0.0 ==> Trunc(centre as real + (a / d) * f) == centre
  {
    ScaledSign(a, d, f);
    OffsetSide(centre, (a / d) * f);
  }

  /** The row of a point at camera-space y = a and depth d is on the opposite
      side of the centre row from a: screen rows grow downward. */
  lemma RowSide(centre: int, a: real, d: real, f: real)
    requires d > 0.0 && f > 0.0
    ensures a > 0.0 ==> Trunc(centre as real - (a / d) * f) <= centre
    ensures a < 0.0 ==> Trunc(centre as real - (a / d) * f) >= centre
    ensures a == 0.0 ==> Trunc(centre as real - (a / d) * f) == centre
  {
    ScaledSign(a, d, f);
    OffsetSide(centre, -((a / d) * f));
    assert centre as real - (a / d) * f == centre as real + -((a / d) * f);
  }

  /** Dividing by a positive depth and scaling by a positive focal length keeps
      the sign of a coordinate. */
  lemma ScaledSign(a: real, d: real, f: real)
    requires d > 0.0 && f > 0.0
    ensures (a > 0.0 ==> (a / d) * f > 0.0) && (a < 0.0 ==> (a / d) * f < 0.0) &&
      (a == 0.0 ==> (a / d) * f == 0.0)
  {
    if a > 0.0 {
      assert a / d > 0.0;
    } else if a < 0.0 {
      assert a / d < 0.0;
    }
  }

  /** Truncating the centre plus an offset lands on the side of the centre
      that the offset points to. */
  lemma OffsetSide(centre: int, offset: real)
    ensures offset > 0.0 ==> Trunc(centre as real + offset) >= centre
    ensures offset < 0.0 ==> Trunc(centre as real + offset) <= centre
    ensures offset == 0.0 ==> Trunc(centre as real + offset) == centre
  {
    if offset > 0.0 {
      TruncBetween(centre, centre + offset.Floor + 1, centre as real + offset);
    } else if offset < 0.0 {
      TruncBetween(centre - (-offset).Floor - 1, centre, centre as real + offset);
    }
  }

  /** Moving forward by `amount` brings every world point `amount` closer along
      the view axis and leaves its camera-space x and y unchanged. */
  lemma MoveForwardShiftsDepth(p: Pose, t: Trig, amount: real, w: Vec3)
    requires UnitCircle(t, p.yaw) && UnitCircle(t, p.pitch)
    ensures var c, c' := CameraSpace(p, t, w), CameraSpace(MovedForward(p, t, amount), t, w);
      c'.x == c.x && c'.y == c.y && c'.z == c.z + amount
  {
    AdvancedView(t.sin(p.yaw), t.cos(p.yaw), t.sin(p.pitch), t.cos(p.pitch),
      p, MovedForward(p, t, amount), w, amount);
  }

  /** MoveForwardShiftsDepth with the sines and cosines of the yaw (sy, cy) and
      the pitch (sp, cp) given as numbers. */
  lemma AdvancedView(sy: real, cy: real, sp: real, cp: real, p: Pose, q: Pose, w: Vec3, amount: real)
    requires sy * sy + cy * cy == 1.0 && sp * sp + cp * cp == 1.0
    requires q.x == p.x - sy * cp * amount && q.y == p.y - sp * amount && q.z == p.z - cy * cp * amount
    ensures Pitched(sp, cp, Yawed(sy, cy, Offset(q, w))) ==
      Add(Pitched(sp, cp, Yawed(sy, cy, Offset(p, w))), Vec3(0.0, 0.0, amount))
  {
    var r := Offset(p, w);
    var d := Vec3(sy * cp * amount, sp * amount, cy * cp * amount);
    assert Offset(q, w) == Add(r, d);
    YawedIsLinear(sy, cy, r, d);
    PitchedIsLinear(sp, cp, Yawed(sy, cy, r), Yawed(sy, cy, d));
    ForwardIsViewAxis(sy, cy, sp, cp, amount);
  }

  /** The yaw rotation distributes over the sum of two offsets. */
  lemma YawedIsLinear(s: real, c: real, r: Vec3, d: Vec3)
    ensures Yawed(s, c, Add(r, d)) == Add(Yawed(s, c, r), Yawed(s, c, d))
  {
  }

  /** The pitch rotation distributes over the sum of two offsets. */
  lemma PitchedIsLinear(s: real, c: real, u: Vec3, e: Vec3)
    ensures Pitched(s, c, Add(u, e)) == Add(Pitched(s, c, u), Pitched(s, c, e))
  {
  }

  /** `moveForward`'s step, rotated into camera space, lies on the view axis:
      a step of length `amount` toward the eye. */
  lemma ForwardIsViewAxis(sy: real, cy: real, sp: real, cp: real, amount: real)
    requires sy * sy + cy * cy == 1.0 && sp * sp + cp * cp == 1.0
    ensures Pitched(sp, cp, Yawed(sy, cy, Vec3(sy * cp * amount, sp * amount, cy * cp * amount)))
      == Vec3(0.0, 0.0, amount)
  {
    assert Yawed(sy, cy, Vec3(sy * cp * amount, sp * amount, cy * cp * amount))
      == Vec3(0.0, sp * amount, cp * amount) by {
      assert sy * (sy * cp * amount) + cy * (cy * cp * amount) == (sy * sy + cy * cy) * (cp * amount);
    }
    assert sp * (sp * amount) + cp * (cp * amount) == (sp * sp + cp * cp) * amount;
  }

  /** Strafing right by `amount` moves every world point `amount` to the left in
      camera space and changes nothing else about it. */
  lemma MoveRightShiftsSideways(p: Pose, t: Trig, amount: real, w: Vec3)
    requires UnitCircle(t, p.yaw)
    ensures var c, c' := CameraSpace(p, t, w), CameraSpace(MovedRight(p, t, amount), t, w);
      c'.x == c.x - amount && c'.y == c.y && c'.z == c.z
  {
    StrafedView(t.sin(p.yaw), t.cos(p.yaw), t.sin(p.pitch), t.cos(p.pitch),
      p, MovedRight(p, t, amount), w, amount);
  }

  /** MoveRightShiftsSideways with the sines and cosines of the yaw (sy, cy)
      and the pitch (sp, cp) given as numbers. */
  lemma StrafedView(sy: real, cy: real, sp: real, cp: real, p: Pose, q: Pose, w: Vec3, amount: real)
    requires sy * sy + cy * cy == 1.0
    requires q.x == p.x + cy * amount && q.y == p.y && q.z == p.z - sy * amount
    ensures Pitched(sp, cp, Yawed(sy, cy, Offset(q, w))) ==
      Add(Pitched(sp, cp, Yawed(sy, cy, Offset(p, w))), Vec3(-amount, 0.0, 0.0))
  {
    var r := Offset(p, w);
    var d := Vec3(-cy * amount, 0.0, sy * amount);
    assert Offset(q, w) == Add(r, d);
    YawedIsLinear(sy, cy, r, d);
    PitchedIsLinear(sp, cp, Yawed(sy, cy, r), Yawed(sy, cy, d));
    RightIsScreenAxis(sy, cy, sp, cp, amount);
  }

  /** `moveRight`'s step, rotated into camera space, lies along the screen's x
      axis: every point moves `amount` to the left. */
  lemma RightIsScreenAxis(sy: real, cy: real, sp: real, cp: real, amount: real)
    requires sy * sy + cy * cy == 1.0
    ensures Pitched(sp, cp, Yawed(sy, cy, Vec3(-cy * amount, 0.0, sy * amount))) == Vec3(-amount, 0.0, 0.0)
  {
    assert cy * (-cy * amount) - sy * (sy * amount) == -((sy * sy + cy * cy) * amount);
  }

  /** The eye itself sits at the camera-space origin. */
  lemma EyeAtOrigin(p: Pose, t: Trig)
    ensures CameraSpace(p, t, Position(p)) == Vec3(0.0, 0.0, 0.0)
  {
  }

  /** A point in front of the eye on the view axis projects onto the screen centre. */
  lemma OnAxisProjectsToCentre(p: Pose, t: Trig, w: Vec3, width: int, height: int)
    requires var c := CameraSpace(p, t, w); c.x == 0.0 && c.y == 0.0 && c.z < 0.0
    ensures ProjectPoint(p, t, w, width, height) == Some(Vec2(HalfTowardZero(width), HalfTowardZero(height)))
  {
    var c := CameraSpace(p, t, w);
    assert (c.x / -c.z) * p.focalLength == 0.0;
    assert (c.y / -c.z) * p.focalLength == 0.0;
    var hw, hh := HalfTowardZero(width), HalfTowardZero(height);
    assert Trunc(hw as real + 0.0) == hw;
    assert Trunc(hh as real - 0.0) == hh;
  }

  /** The direction `moveForward` travels is the view axis: the point the camera
      would reach by moving forward a positive distance projects exactly onto
      the centre of the screen, whatever the yaw and pitch. */
  lemma ForwardPointProjectsToCentre(p: Pose, t: Trig, d: real, width: int, height: int)
    requires UnitCircle(t, p.yaw) && UnitCircle(t, p.pitch)
    requires d > 0.0
    ensures ProjectPoint(p, t, Position(MovedForward(p, t, d)), width, height)
         == Some(Vec2(HalfTowardZero(width), HalfTowardZero(height)))
  {
    var q := MovedForward(p, t, d);
    EyeAtOrigin(q, t);
    MoveForwardShiftsDepth(p, t, d, Position(q));
    OnAxisProjectsToCentre(p, t, Position(q), width, height);
  }
}
