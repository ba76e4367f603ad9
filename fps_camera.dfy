/** The first-person camera: a position, a yaw/pitch orientation and the
    front/right/up basis derived from it, updated by keyboard movement and
    mouse look. */
module Cameras {
  import opened Mgl

  const DefaultYaw: real := -90.0
  const DefaultPitch: real := 0.0
  const Speed: real := 2.5
  const Sensitivity: real := 0.1
  const PitchLimit: real := 89.0

  /** CameraMovement is a uint32; the six named directions are 0 through 5. */
  newtype CameraMovement = m: int | 0 <= m < 0x1_0000_0000

  const Forward: CameraMovement := 0
  const Backward: CameraMovement := 1
  const Left: CameraMovement := 2
  const Right: CameraMovement := 3
  const Up: CameraMovement := 4
  const Down: CameraMovement := 5

  /** The opposite of each named direction. */
  function Opposite(m: CameraMovement): (o: CameraMovement)
    requires m <= Down
    ensures o <= Down && o != m
  {
    if m == Forward then Backward
    else if m == Backward then Forward
    else if m == Left then Right
    else if m == Right then Left
    else if m == Up then Down
    else Up
  }

  /** The pairing is symmetric: the opposite of the opposite is the movement itself. */
  lemma OppositeIsInvolution(m: CameraMovement)
    requires m <= Down
    ensures Opposite(Opposite(m)) == m
  {
  }

  /** The two sequential bound checks of ProcessMouseMovement. */
  function ClampPitch(p: real): (r: real)
    ensures -PitchLimit <= r <= PitchLimit
    ensures -PitchLimit <= p <= PitchLimit ==> r == p
    ensures p > PitchLimit ==> r == PitchLimit
    ensures p < -PitchLimit ==> r == -PitchLimit
  {
    var q := if p > PitchLimit then PitchLimit else p;
    if q < -PitchLimit then -PitchLimit else q
  }

  /** The (unnormalised) view direction for yaw and pitch in degrees. */
  function Direction(lib: MathLib, yaw: real, pitch: real): Vec3
  {
    var ry, rp := DegToRad(yaw), DegToRad(pitch);
    Vec3(lib.cos(ry) * lib.cos(rp), lib.sin(rp), lib.sin(ry) * lib.cos(rp))
  }

  function FrontFor(lib: MathLib, yaw: real, pitch: real): Vec3
  {
    lib.normalize(Direction(lib, yaw, pitch))
  }

  function RightFor(lib: MathLib, front: Vec3, worldUp: Vec3): Vec3
  {
    lib.normalize(Cross(front, worldUp))
  }

  function UpFor(lib: MathLib, right: Vec3, front: Vec3): Vec3
  {
    lib.normalize(Cross(right, front))
  }

  /** Where one keyboard step of the given movement and velocity puts the position. */
  function Moved(p: Vec3, m: CameraMovement, velocity: real, front: Vec3, right: Vec3, worldUp: Vec3): Vec3
  {
    if m == Forward then Add(p, Scaled(front, velocity))
    else if m == Backward then Sub(p, Scaled(front, velocity))
    else if m == Left then Sub(p, Scaled(right, velocity))
    else if m == Right then Add(p, Scaled(right, velocity))
    else if m == Up then Add(p, Scaled(worldUp, velocity))
    else if m == Down then Sub(p, Scaled(worldUp, velocity))
    else p
  }

  /** The axis a named movement travels along. */
  function AxisOf(m: CameraMovement, front: Vec3, right: Vec3, worldUp: Vec3): Vec3
  {
    if m == Forward || m == Backward then front
    else if m == Left || m == Right then right
    else worldUp
  }

  /** The sign of a named movement along its axis. */
  function SignOf(m: CameraMovement): real
  {
    if m == Forward || m == Right || m == Up then 1.0 else -1.0
  }

  /** A named movement displaces the position by exactly velocity along its axis,
      forwards or backwards; any other value leaves it where it is. */
  lemma MovedDisplacement(p: Vec3, m: CameraMovement, velocity: real, front: Vec3, right: Vec3, worldUp: Vec3)
    ensures m <= Down ==>
      Moved(p, m, velocity, front, right, worldUp)
      == Add(p, Scaled(AxisOf(m, front, right, worldUp), SignOf(m) * velocity))
    ensures m > Down ==> Moved(p, m, velocity, front, right, worldUp) == p
  {
  }

  /** A step and then its opposite, with the same velocity and basis, restores the position. */
  lemma MoveThenOppositeRestores(p: Vec3, m: CameraMovement, velocity: real, front: Vec3, right: Vec3, worldUp: Vec3)
    requires m <= Down
    ensures Moved(Moved(p, m, velocity, front, right, worldUp), Opposite(m), velocity, front, right, worldUp) == p
  {
  }

  /** The default orientation (yaw -90, pitch 0) faces -Z, strafes along +X and
      has +Y up, given the trigonometric values at those angles and that
      normalising a unit axis leaves it unchanged. */
  lemma DefaultBasis(lib: MathLib)
    requires lib.cos(DegToRad(DefaultYaw)) == 0.0 && lib.sin(DegToRad(DefaultYaw)) == -1.0
    requires lib.cos(DegToRad(DefaultPitch)) == 1.0 && lib.sin(DegToRad(DefaultPitch)) == 0.0
    requires lib.normalize(Vec3(0.0, 0.0, -1.0)) == Vec3(0.0, 0.0, -1.0)
    requires lib.normalize(Vec3(1.0, 0.0, 0.0)) == Vec3(1.0, 0.0, 0.0)
    requires lib.normalize(Vec3(0.0, 1.0, 0.0)) == Vec3(0.0, 1.0, 0.0)
    ensures FrontFor(lib, DefaultYaw, DefaultPitch) == Vec3(0.0, 0.0, -1.0)
    ensures RightFor(lib, Vec3(0.0, 0.0, -1.0), Vec3(0.0, 1.0, 0.0)) == Vec3(1.0, 0.0, 0.0)
    ensures UpFor(lib, Vec3(1.0, 0.0, 0.0), Vec3(0.0, 0.0, -1.0)) == Vec3(0.0, 1.0, 0.0)
  {
    assert Vec3(0.0 * 1.0, 0.0, -1.0 * 1.0) == Vec3(0.0, 0.0, -1.0);
  }

  /** One mouse-look update of the yaw: scaled and added, no clamping, no wrap-around. */
  function LookYaw(yaw: real, xOffset: real): real { yaw + Sensitivity * xOffset }

  /** One mouse-look update of the pitch: scaled, subtracted, then clamped. */
  function LookPitch(pitch: real, yOffset: real): (r: real)
    ensures -PitchLimit <= r <= PitchLimit
  {
    ClampPitch(pitch - Sensitivity * yOffset)
  }

  /** From the default orientation, a horizontal delta of 100 turns the yaw to -80
      and keeps the pitch; a vertical delta of 1000 drives the pitch to -89. */
  lemma LookScenario()
    ensures LookYaw(DefaultYaw, 100.0) == -80.0 && LookPitch(DefaultPitch, 0.0) == 0.0
    ensures LookPitch(DefaultPitch, 1000.0) == -PitchLimit
  {
  }

  /** The pitch after a sequence of vertical look deltas. */
  function PitchAfter(pitch: real, yOffsets: seq<real>): real
    decreases |yOffsets|
  {
    if yOffsets == [] then pitch
    else PitchAfter(LookPitch(pitch, yOffsets[0]), yOffsets[1..])
  }

  /** Whatever the deltas, the pitch ends within the limits once at least one
      update has happened, and stays put if it started within them and there were none. */
  lemma {:induction false} PitchAfterInRange(pitch: real, yOffsets: seq<real>)
    requires yOffsets != [] || -PitchLimit <= pitch <= PitchLimit
    ensures -PitchLimit <= PitchAfter(pitch, yOffsets) <= PitchLimit
    decreases |yOffsets|
  {
    if yOffsets != [] {
      PitchAfterInRange(LookPitch(pitch, yOffsets[0]), yOffsets[1..]);
    }
  }

  /** The yaw after a sequence of horizontal look deltas. */
  function YawAfter(yaw: real, xOffsets: seq<real>): real
    decreases |xOffsets|
  {
    if xOffsets == [] then yaw
    else YawAfter(LookYaw(yaw, xOffsets[0]), xOffsets[1..])
  }

  function Sum(s: seq<real>): real
    decreases |s|
  {
    if s == [] then 0.0 else s[0] + Sum(s[1..])
  }

  /** The yaw accumulates every delta without clamping or wrap-around. */
  lemma {:induction false} YawAfterAccumulates(yaw: real, xOffsets: seq<real>)
    ensures YawAfter(yaw, xOffsets) == yaw + Sensitivity * Sum(xOffsets)
    decreases |xOffsets|
  {
    if xOffsets != [] {
      YawAfterAccumulates(LookYaw(yaw, xOffsets[0]), xOffsets[1..]);
    }
  }

  /** The aspect argument of ProjectionMatrix: the untyped constant expression
      4/3 is an integer division before it becomes a float. */
  const ProjectionAspect: real := (4 / 3) as real

  class FpsCamera {
    var position: Vec3
    var front: Vec3
    var up: Vec3
    var right: Vec3
    var worldUp: Vec3
    var fov: real
    var aspect: real
    var near: real
    var far: real
    var yaw: real
    var pitch: real
    var deltaTime: real
    /** The library routines the camera calls. */
    const lib: MathLib

    /** The basis is the one derived from the current yaw, pitch and world up. */
    ghost predicate BasisCurrent()
      reads this
    {
      front == FrontFor(lib, yaw, pitch) &&
      right == RightFor(lib, front, worldUp) &&
      up == UpFor(lib, right, front)
    }

    /** The invariant of every reachable camera state. */
    ghost predicate Valid()
      reads this
    {
      -PitchLimit <= pitch <= PitchLimit && BasisCurrent()
    }

    /** NewFpsCamera */
    constructor (lib: MathLib, aspectRatio: real, fov: real)
      ensures this.lib == lib
      ensures position == Vec3(0.0, 0.0, 3.0) && worldUp == Vec3(0.0, 1.0, 0.0)
      ensures yaw == DefaultYaw && pitch == DefaultPitch
      ensures this.fov == fov && aspect == aspectRatio
      ensures near == 0.1 && far == 100.0 && deltaTime == 0.0
      ensures Valid()
    {
      this.lib := lib;
      position := Vec3(0.0, 0.0, 3.0);
      front := Vec3(0.0, 0.0, -1.0);
      worldUp := Vec3(0.0, 1.0, 0.0);
      yaw := DefaultYaw;
      pitch := DefaultPitch;
      this.fov := fov;
      aspect := aspectRatio;
      near := 0.1;
      far := 100.0;
      up := Vec3(0.0, 0.0, 0.0);
      right := Vec3(0.0, 0.0, 0.0);
      deltaTime := 0.0;
      new;
      // The basis update leaves every configured setting as it was.
      ghost var settings := (this.fov, aspect, near, far, deltaTime, position, worldUp, yaw, pitch);
      UpdateVectors();
      assert settings == (this.fov, aspect, near, far, deltaTime, position, worldUp, yaw, pitch);
    }

    /** A look-at matrix from the position towards position + front, with up as up. */
    function ViewMatrix(): Mat4
      reads this
    {
      lib.lookAt(position, Add(position, front), up)
    }

    /** Built from fixed parameters only: 45 degrees, aspect 1, near 0.1, far 100.
        It reads none of the camera's fields. */
    function ProjectionMatrix(): (r: Mat4)
      ensures r == lib.perspective(DegToRad(45.0), 1.0, 0.1, 100.0)
    {
      lib.perspective(DegToRad(45.0), ProjectionAspect, 0.1, 100.0)
    }

    method ProcessKeyboard(movement: CameraMovement)
      modifies this`position
      ensures position == Moved(old(position), movement, Speed * deltaTime, front, right, worldUp)
    {
      var velocity := Speed * deltaTime;
      if movement == Forward {
        position := Add(position, Scaled(front, velocity));
      }
      if movement == Backward {
        position := Sub(position, Scaled(front, velocity));
      }
      if movement == Left {
        position := Sub(position, Scaled(right, velocity));
      }
      if movement == Right {
        position := Add(position, Scaled(right, velocity));
      }
      if movement == Up {
        position := Add(position, Scaled(worldUp, velocity));
      }
      if movement == Down {
        position := Sub(position, Scaled(worldUp, velocity));
      }
    }

    method ProcessMouseMovement(xOffset: real, yOffset: real)
      modifies this`yaw, this`pitch, this`front, this`right, this`up
      ensures yaw == LookYaw(old(yaw), xOffset)
      ensures pitch == LookPitch(old(pitch), yOffset)
      ensures BasisCurrent() && Valid()
    {
      var x := xOffset * Sensitivity;
      var y := yOffset * Sensitivity;
      yaw := yaw + x;
      pitch := pitch - y;
      if pitch > PitchLimit {
        pitch := PitchLimit;
      }
      if pitch < -PitchLimit {
        pitch := -PitchLimit;
      }
      UpdateVectors();
    }

    /** updateVectors: front from yaw and pitch, then right from front and world
        up, then up from right and front, in that order. */
    method UpdateVectors()
      modifies this`front, this`right, this`up
      ensures BasisCurrent()
    {
      var direction := Direction(lib, yaw, pitch);
      front := lib.normalize(direction);
      right := lib.normalize(Cross(front, worldUp));
      up := lib.normalize(Cross(right, front));
    }
  }

  /** The view depends on the position, front and up only: two cameras that agree
      on those (and on the library) see the same view, whatever their yaw, pitch,
      field of view or clip planes. */
  lemma ViewFollowsPose(a: FpsCamera, b: FpsCamera)
    requires a.lib == b.lib && a.position == b.position && a.front == b.front && a.up == b.up
    ensures a.ViewMatrix() == b.ViewMatrix()
  {
  }

  /** Two cameras with the same library routines return the same projection,
      whatever their fields hold. */
  lemma ProjectionIgnoresState(a: FpsCamera, b: FpsCamera)
    requires a.lib == b.lib
    ensures a.ProjectionMatrix() == b.ProjectionMatrix()
  {
  }
}
