/** The software renderer's camera: a position, a yaw/pitch orientation and a
    focal length, moved by the keyboard and turned by the mouse. */
module Cameras {

  /** `sin` and `cos`, left uninterpreted: the model never evaluates them. */
  datatype Trig = Trig(sin: real -> real, cos: real -> real)

  /** The identity sin^2 + cos^2 = 1 at one angle; lemmas that depend on the
      rotations being rotations ask for it at the angles they use. */
  predicate UnitCircle(t: Trig, angle: real)
  {
    t.sin(angle) * t.sin(angle) + t.cos(angle) * t.cos(angle) == 1.0
  }

  /** The camera's state as a value. */
  datatype Pose = Pose(x: real, y: real, z: real, yaw: real, pitch: real, focalLength: real)

  /** Radians of turn per unit of relative mouse motion. */
  const Sensitivity: real := 0.002
  /** Pitch is kept within [-PitchLimit, PitchLimit], just short of straight up or down. */
  const PitchLimit: real := 1.55

  /** The pose after `moveForward(amount)`: along the view direction, pitch included. */
  function MovedForward(p: Pose, t: Trig, amount: real): Pose
  {
    p.(x := p.x - t.sin(p.yaw) * t.cos(p.pitch) * amount,
       y := p.y - t.sin(p.pitch) * amount,
       z := p.z - t.cos(p.yaw) * t.cos(p.pitch) * amount)
  }

  /** The pose after `moveRight(amount)`: a strafe in the horizontal plane. */
  function MovedRight(p: Pose, t: Trig, amount: real): Pose
  {
    p.(x := p.x + t.cos(p.yaw) * amount, z := p.z - t.sin(p.yaw) * amount)
  }

  /** The pose after `moveUp(amount)`: along the world's vertical axis. */
  function MovedUp(p: Pose, amount: real): Pose
  {
    p.(y := p.y + amount)
  }

  /** The two conditional assignments that follow a pitch update. */
  function ClampPitch(pitch: real): (r: real)
    ensures -PitchLimit <= r <= PitchLimit
    ensures -PitchLimit <= pitch <= PitchLimit ==> r == pitch
    ensures pitch != r ==> (pitch > PitchLimit && r == PitchLimit) || (pitch < -PitchLimit && r == -PitchLimit)
  {
    var p := if pitch > PitchLimit then PitchLimit else pitch;
    if p < -PitchLimit then -PitchLimit else p
  }

  /** The pose after one mouse-motion event with relative motion (xrel, yrel). */
  function Looked(p: Pose, xrel: real, yrel: real): Pose
  {
    p.(yaw := p.yaw - xrel * Sensitivity, pitch := ClampPitch(p.pitch + yrel * Sensitivity))
  }

  /** Moving forward also moves the camera vertically unless it looks level;
      strafing and vertical moves keep the orientation and each move leaves
      the coordinates it does not name alone. */
  lemma MovesKeepOrientation(p: Pose, t: Trig, amount: real)
    ensures var q := MovedForward(p, t, amount);
      q.yaw == p.yaw && q.pitch == p.pitch && q.focalLength == p.focalLength &&
      (t.sin(p.pitch) == 0.0 ==> q.y == p.y) &&
      (t.sin(p.pitch) != 0.0 && amount != 0.0 ==> q.y != p.y)
    ensures var q := MovedRight(p, t, amount);
      q.y == p.y && q.yaw == p.yaw && q.pitch == p.pitch && q.focalLength == p.focalLength
    ensures var q := MovedUp(p, amount);
      q.x == p.x && q.z == p.z && q.y - p.y == amount &&
      q.yaw == p.yaw && q.pitch == p.pitch && q.focalLength == p.focalLength
  {
  }

  /** Whatever the mouse deltas, the pitch after a look update is in range, and
      the update changes nothing but the orientation. */
  lemma LookKeepsPitchInRange(p: Pose, xrel: real, yrel: real)
    ensures -PitchLimit <= Looked(p, xrel, yrel).pitch <= PitchLimit
    ensures var q := Looked(p, xrel, yrel);
      q.x == p.x && q.y == p.y && q.z == p.z && q.focalLength == p.focalLength &&
      q.yaw == p.yaw - xrel * Sensitivity
  {
  }

  /** Clamping twice is clamping once. */
  lemma ClampPitchIdempotent(pitch: real)
    ensures ClampPitch(ClampPitch(pitch)) == ClampPitch(pitch)
  {
  }

  /** The camera object, whose fields the input handling updates in place. */
  class Camera {
    var x: real
    var y: real
    var z: real
    var yaw: real
    var pitch: real
    var focalLength: real

    /** The fields as a value. */
    function State(): Pose
      reads this
    {
      Pose(x, y, z, yaw, pitch, focalLength)
    }

    /** The pitch invariant that the look update maintains. */
    ghost predicate Valid()
      reads this
    {
      -PitchLimit <= pitch <= PitchLimit
    }

    /** At the origin, looking down -z, with focal length 400. */
    constructor ()
      ensures State() == Pose(0.0, 0.0, 0.0, 0.0, 0.0, 400.0)
      ensures Valid()
    {
      x, y, z := 0.0, 0.0, 0.0;
      yaw, pitch := 0.0, 0.0;
      focalLength := 400.0;
    }

    method MoveForward(t: Trig, amount: real)
      modifies this
      ensures State() == MovedForward(old(State()), t, amount)
      ensures old(Valid()) ==> Valid()
    {
      x := x - t.sin(yaw) * t.cos(pitch) * amount;
      y := y - t.sin(pitch) * amount;
      z := z - t.cos(yaw) * t.cos(pitch) * amount;
    }

    method MoveRight(t: Trig, amount: real)
      modifies this
      ensures State() == MovedRight(old(State()), t, amount)
      ensures old(Valid()) ==> Valid()
    {
      x := x + t.cos(yaw) * amount;
      z := z - t.sin(yaw) * amount;
    }

    method MoveUp(amount: real)
      modifies this
      ensures State() == MovedUp(old(State()), amount)
      ensures old(Valid()) ==> Valid()
    {
      y := y + amount;
    }

    /** The mouse-motion handler: turn, then clamp the pitch. */
    method Look(xrel: real, yrel: real)
      modifies this
      ensures State() == Looked(old(State()), xrel, yrel)
      ensures Valid()
    {
      yaw := yaw - xrel * Sensitivity;
      pitch := pitch + yrel * Sensitivity;
      if pitch > PitchLimit {
        pitch := PitchLimit;
      }
      if pitch < -PitchLimit {
        pitch := -PitchLimit;
      }
    }
  }
}
