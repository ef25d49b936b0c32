/**
 * The camera state machine (`src/camera.rs`): a position, yaw and pitch
 * angles, the forward/right/up basis derived from them, and a target kept one
 * forward step ahead whenever the basis is recomputed.
 */
module Cameras {
  import opened Vectors

  /** Pi as a real number; the rounding of the `f32` constant is not modelled. */
  const Pi: real := 3.141592653589793

  /** `to_radians`. */
  function Radians(degrees: real): real {
    degrees * (Pi / 180.0)
  }

  /** Pitch is kept within 89 degrees of the horizon. */
  const MaxPitch: real := Radians(89.0)

  const WorldUp: Vec3 := Vec3(0.0, 1.0, 0.0)

  datatype Camera = Camera(
    position: Vec3,
    target: Vec3,
    up: Vec3,
    right: Vec3,
    forward: Vec3,
    yaw: real,
    pitch: real,
    fov: real,
    aspectRatio: real,
    near: real,
    far: real)

  /** The unnormalised viewing direction for the angles: yaw 0 and pitch 0 look along -Z. */
  function LookVector(yaw: real, pitch: real, m: MathLib): Vec3 {
    Vec3(m.sin(yaw) * m.cos(pitch), m.sin(pitch), -(m.cos(yaw) * m.cos(pitch)))
  }

  function LookDirection(yaw: real, pitch: real, m: MathLib): Vec3 {
    Normalize(LookVector(yaw, pitch, m), m)
  }

  /** The right vector depends on yaw alone and is always horizontal. */
  function RightDirection(yaw: real, m: MathLib): (r: Vec3)
    ensures r.y == 0.0
  {
    Normalize(Vec3(m.cos(yaw), 0.0, m.sin(yaw)), m)
  }

  /** The basis is the one the angles determine, with the fixed world up. */
  ghost predicate Oriented(c: Camera, m: MathLib) {
    && c.forward == LookDirection(c.yaw, c.pitch, m)
    && c.right == RightDirection(c.yaw, m)
    && c.up == WorldUp
  }

  /** The target lies one forward step ahead of the position. */
  predicate Aimed(c: Camera) {
    c.target == Add(c.position, c.forward)
  }

  /** Position, field of view, aspect ratio and clip planes agree. */
  predicate SameMount(a: Camera, b: Camera) {
    a.position == b.position && a.fov == b.fov && a.aspectRatio == b.aspectRatio && a.near == b.near && a.far == b.far
  }

  /** An oriented basis has no roll: right is horizontal and orthogonal to both forward and up. */
  lemma OrientedBasisOrthogonal(c: Camera, m: MathLib)
    requires Oriented(c, m)
    ensures c.up == WorldUp && c.right.y == 0.0
    ensures Dot(c.right, c.forward) == 0.0
    ensures Dot(c.up, c.right) == 0.0
  {
    var sy, cy, sp, cp := m.sin(c.yaw), m.cos(c.yaw), m.sin(c.pitch), m.cos(c.pitch);
    var f := LookVector(c.yaw, c.pitch, m);
    var r := Vec3(cy, 0.0, sy);
    assert Dot(r, f) == cy * (sy * cp) + 0.0 * sp + sy * -(cy * cp);
    assert cy * (sy * cp) == sy * (cy * cp);
    NormalizeKeepsOrthogonal(r, f, m);
  }

  /** `update_vectors`: recompute the basis from the angles and re-aim the target; nothing else moves. */
  function UpdateVectors(c: Camera, m: MathLib): (r: Camera)
    ensures Oriented(r, m) && Aimed(r)
    ensures SameMount(r, c) && r.yaw == c.yaw && r.pitch == c.pitch
  {
    var forward := LookDirection(c.yaw, c.pitch, m);
    c.(forward := forward, up := WorldUp, right := RightDirection(c.yaw, m), target := Add(c.position, forward))
  }

  /** `Camera::new`: level and facing -Z, 45 degree field of view, clip planes 0.1 and 100. */
  function NewCamera(position: Vec3, target: Vec3, aspectRatio: real, m: MathLib): (c: Camera)
    ensures Oriented(c, m) && Aimed(c)
    ensures c.position == position && c.aspectRatio == aspectRatio
    ensures c.yaw == 0.0 && c.pitch == 0.0
    ensures c.fov == Radians(45.0) && c.near == 0.1 && c.far == 100.0
  {
    UpdateVectors(Camera(position, target, WorldUp, Vec3(1.0, 0.0, 0.0), Vec3(0.0, 0.0, -1.0),
                         0.0, 0.0, Radians(45.0), aspectRatio, 0.1, 100.0), m)
  }

  /** The constructor's target argument is overwritten by the re-aim: it has no effect at all. */
  lemma NewCameraIgnoresTarget(position: Vec3, t1: Vec3, t2: Vec3, aspectRatio: real, m: MathLib)
    ensures NewCamera(position, t1, aspectRatio, m) == NewCamera(position, t2, aspectRatio, m)
  {
  }

  /**
   * `move_relative`: walk in the horizontal plane by yaw alone (pitch is
   * ignored) and climb along world up. Only the position changes; the target
   * is not re-aimed.
   */
  function MoveRelative(c: Camera, forward: real, right: real, up: real, m: MathLib): (r: Camera)
    ensures r.(position := c.position) == c
    ensures r.position.y == c.position.y + up
  {
    var s, k := m.sin(c.yaw), m.cos(c.yaw);
    var walked := Add(c.position, Scale(Vec3(s, 0.0, k), forward));
    var strafed := Add(walked, Scale(Vec3(k, 0.0, -s), right));
    c.(position := Add(strafed, Scale(WorldUp, up)))
  }

  /**
   * The horizontal step of `move_relative` has length `sqrt(forward² + right²)`
   * whenever the library's sine and cosine of the yaw satisfy sin² + cos² = 1.
   */
  lemma MoveRelativeHorizontalDistance(c: Camera, forward: real, right: real, up: real, m: MathLib)
    requires m.sin(c.yaw) * m.sin(c.yaw) + m.cos(c.yaw) * m.cos(c.yaw) == 1.0
    ensures var d := Sub(MoveRelative(c, forward, right, up, m).position, c.position);
      d.x * d.x + d.z * d.z == forward * forward + right * right
  {
    var s, k := m.sin(c.yaw), m.cos(c.yaw);
    var d := Sub(MoveRelative(c, forward, right, up, m).position, c.position);
    assert d.x == s * forward + k * right;
    assert d.z == k * forward - s * right;
    calc {
      d.x * d.x + d.z * d.z;
      (s * forward + k * right) * (s * forward + k * right) + (k * forward - s * right) * (k * forward - s * right);
      (s * s + k * k) * (forward * forward) + (s * s + k * k) * (right * right);
      forward * forward + right * right;
    }
  }

  /**
   * At yaw 0 (with sin 0 = 0 and cos 0 = 1) a forward step moves along +Z
   * and a right step along +X, while the camera looks along -Z.
   */
  lemma MoveRelativeAtYawZero(c: Camera, forward: real, right: real, up: real, m: MathLib)
    requires c.yaw == 0.0 && m.sin(0.0) == 0.0 && m.cos(0.0) == 1.0
    ensures MoveRelative(c, forward, right, up, m).position == Add(c.position, Vec3(right, up, forward))
    ensures LookVector(c.yaw, c.pitch, m).z == -m.cos(c.pitch)
  {
  }

  /** `move_absolute`: only the position changes; the target is not re-aimed. */
  function MoveAbsolute(c: Camera, x: real, y: real, z: real): (r: Camera)
    ensures r.position == Vec3(x, y, z)
    ensures r.(position := c.position) == c
  {
    c.(position := Vec3(x, y, z))
  }

  /** Moving keeps the orientation, but a camera that actually moves is no longer aimed at its target. */
  lemma MovesLeaveTargetBehind(c: Camera, x: real, y: real, z: real, m: MathLib)
    requires Aimed(c)
    ensures Oriented(c, m) ==> Oriented(MoveAbsolute(c, x, y, z), m)
    ensures Vec3(x, y, z) != c.position ==> !Aimed(MoveAbsolute(c, x, y, z))
  {
  }

  /**
   * `rotate`: yaw accumulates without bound; pitch accumulates and is then
   * clamped to within 89 degrees of the horizon; the basis is recomputed.
   */
  function Rotate(c: Camera, yawDelta: real, pitchDelta: real, m: MathLib): (r: Camera)
    ensures r.yaw == c.yaw + yawDelta
    ensures -MaxPitch <= r.pitch <= MaxPitch
    ensures -MaxPitch <= c.pitch + pitchDelta <= MaxPitch ==> r.pitch == c.pitch + pitchDelta
    ensures c.pitch + pitchDelta > MaxPitch ==> r.pitch == MaxPitch
    ensures c.pitch + pitchDelta < -MaxPitch ==> r.pitch == -MaxPitch
    ensures Oriented(r, m) && Aimed(r) && SameMount(r, c)
  {
    var turned := c.(yaw := c.yaw + yawDelta, pitch := c.pitch + pitchDelta);
    UpdateVectors(turned.(pitch := Clamp(turned.pitch, -MaxPitch, MaxPitch)), m)
  }

  /** `set_aspect_ratio`: only the aspect ratio changes. */
  function SetAspectRatio(c: Camera, aspectRatio: real): (r: Camera)
    ensures r.aspectRatio == aspectRatio
    ensures r.(aspectRatio := c.aspectRatio) == c
  {
    c.(aspectRatio := aspectRatio)
  }

  /** `set_fov` takes degrees and stores radians; nothing else changes. */
  function SetFov(c: Camera, degrees: real): (r: Camera)
    ensures r.fov == Radians(degrees)
    ensures r.(fov := c.fov) == c
  {
    c.(fov := Radians(degrees))
  }

  /** Changing the lens keeps a camera oriented and aimed. */
  lemma LensChangesKeepAim(c: Camera, aspectRatio: real, degrees: real, m: MathLib)
    requires Oriented(c, m) && Aimed(c)
    ensures Oriented(SetAspectRatio(c, aspectRatio), m) && Aimed(SetAspectRatio(c, aspectRatio))
    ensures Oriented(SetFov(c, degrees), m) && Aimed(SetFov(c, degrees))
  {
  }

  /** `set_position`: move and re-aim; the angles, and so the whole basis of an oriented camera, stay. */
  function SetPosition(c: Camera, position: Vec3, m: MathLib): (r: Camera)
    ensures r.position == position
    ensures r.yaw == c.yaw && r.pitch == c.pitch
    ensures Oriented(r, m) && Aimed(r)
    ensures Oriented(c, m) ==> r.forward == c.forward && r.right == c.right && r.up == c.up
    ensures r.fov == c.fov && r.aspectRatio == c.aspectRatio && r.near == c.near && r.far == c.far
  {
    UpdateVectors(c.(position := position), m)
  }

  /** The unit direction from the camera to a point. */
  function Direction(c: Camera, target: Vec3, m: MathLib): Vec3 {
    Normalize(Sub(target, c.position), m)
  }

  /**
   * `set_target` as the source writes it: yaw is `atan2(d.z, d.x)`, which is
   * the convention of a forward vector `(cos yaw, _, sin yaw)`, not of the
   * `(sin yaw, _, -cos yaw)` that `update_vectors` builds. The pitch is not clamped.
   */
  function SetTargetAsWritten(c: Camera, target: Vec3, m: MathLib): (r: Camera)
    ensures r.position == c.position
    ensures r.yaw == m.atan2(Direction(c, target, m).z, Direction(c, target, m).x)
    ensures r.pitch == m.asin(Direction(c, target, m).y)
    ensures Oriented(r, m) && Aimed(r) && SameMount(r, c)
  {
    var d := Direction(c, target, m);
    UpdateVectors(c.(target := target, yaw := m.atan2(d.z, d.x), pitch := m.asin(d.y)), m)
  }

  /** `look_at` has the same body as `set_target`. */
  function LookAtAsWritten(c: Camera, target: Vec3, m: MathLib): (r: Camera)
    ensures r == SetTargetAsWritten(c, target, m)
  {
    var d := Direction(c, target, m);
    UpdateVectors(c.(target := target, yaw := m.atan2(d.z, d.x), pitch := m.asin(d.y)), m)
  }

  /**
   * Under the laws of sine, cosine, arcsine and two-argument arctangent at the
   * angles involved, the as-written `set_target` faces `(d.z, d.y, -d.x)`:
   * the direction to the target turned a quarter turn about the vertical.
   */
  lemma SetTargetAsWrittenTurnsAside(c: Camera, target: Vec3, m: MathLib)
    requires var d := Direction(c, target, m);
      var yaw, pitch := m.atan2(d.z, d.x), m.asin(d.y);
      && Length(d, m) == 1.0
      && m.sin(pitch) == d.y
      && m.sin(yaw) * m.cos(pitch) == d.z
      && m.cos(yaw) * m.cos(pitch) == d.x
    ensures var d := Direction(c, target, m);
      SetTargetAsWritten(c, target, m).forward == Vec3(d.z, d.y, -d.x)
    ensures var d := Direction(c, target, m);
      (d.x != 0.0 || d.z != 0.0) ==> SetTargetAsWritten(c, target, m).forward != d
  {
    var d := Direction(c, target, m);
    var yaw, pitch := m.atan2(d.z, d.x), m.asin(d.y);
    QuarterTurnKeepsLength(d, m);
    LookDirectionOfUnit(yaw, pitch, Vec3(d.z, d.y, -d.x), m);
  }

  /** The viewing direction whose unnormalised components are those of a unit vector is that vector. */
  lemma LookDirectionOfUnit(yaw: real, pitch: real, v: Vec3, m: MathLib)
    requires m.sin(yaw) * m.cos(pitch) == v.x && m.sin(pitch) == v.y && m.cos(yaw) * m.cos(pitch) == -v.z
    requires Length(v, m) == 1.0
    ensures LookDirection(yaw, pitch, m) == v
  {
    assert LookVector(yaw, pitch, m) == v;
  }

  lemma QuarterTurnKeepsLength(d: Vec3, m: MathLib)
    ensures Length(Vec3(d.z, d.y, -d.x), m) == Length(d, m)
  {
    assert LengthSquared(Vec3(d.z, d.y, -d.x)) == LengthSquared(d);
  }

  /**
   * A concrete case: from the origin, a target straight ahead at (0, 0, -1)
   * leaves the as-written camera facing (-1, 0, 0), given the textbook values
   * of the library functions at the angles involved.
   */
  lemma SetTargetAsWrittenStraightAhead(c: Camera, m: MathLib)
    requires c.position == Zero
    requires m.sqrt(1.0) == 1.0
    requires m.atan2(-1.0, 0.0) == -Pi / 2.0 && m.asin(0.0) == 0.0
    requires m.sin(-Pi / 2.0) == -1.0 && m.cos(-Pi / 2.0) == 0.0
    requires m.sin(0.0) == 0.0 && m.cos(0.0) == 1.0
    ensures SetTargetAsWritten(c, Vec3(0.0, 0.0, -1.0), m).forward == Vec3(-1.0, 0.0, 0.0)
  {
    var t := Vec3(0.0, 0.0, -1.0);
    assert Sub(t, c.position) == t;
    assert Length(t, m) == 1.0;
    assert Direction(c, t, m) == t;
    SetTargetAsWrittenTurnsAside(c, t, m);
  }

  /** `set_target` with the yaw convention of `update_vectors`: yaw is `atan2(d.x, -d.z)`. */
  function SetTarget(c: Camera, target: Vec3, m: MathLib): (r: Camera)
    ensures r.position == c.position
    ensures r.yaw == m.atan2(Direction(c, target, m).x, -Direction(c, target, m).z)
    ensures r.pitch == m.asin(Direction(c, target, m).y)
    ensures Oriented(r, m) && Aimed(r) && SameMount(r, c)
  {
    var d := Direction(c, target, m);
    UpdateVectors(c.(target := target, yaw := m.atan2(d.x, -d.z), pitch := m.asin(d.y)), m)
  }

  /** `look_at` with the same correction. */
  function LookAt(c: Camera, target: Vec3, m: MathLib): (r: Camera)
    ensures r == SetTarget(c, target, m)
  {
    var d := Direction(c, target, m);
    UpdateVectors(c.(target := target, yaw := m.atan2(d.x, -d.z), pitch := m.asin(d.y)), m)
  }

  /**
   * Under the same laws of the library functions, the corrected `set_target`
   * faces the target: forward is the unit direction to it, and the target
   * lies on the forward ray.
   */
  lemma SetTargetFacesTarget(c: Camera, target: Vec3, m: MathLib)
    requires var d := Direction(c, target, m);
      var yaw, pitch := m.atan2(d.x, -d.z), m.asin(d.y);
      && Length(d, m) == 1.0
      && m.sin(pitch) == d.y
      && m.sin(yaw) * m.cos(pitch) == d.x
      && m.cos(yaw) * m.cos(pitch) == -d.z
    ensures SetTarget(c, target, m).forward == Direction(c, target, m)
    ensures exists s: real :: s > 0.0 && Sub(target, c.position) == Scale(SetTarget(c, target, m).forward, s)
  {
    var d := Direction(c, target, m);
    var yaw, pitch := m.atan2(d.x, -d.z), m.asin(d.y);
    LookDirectionOfUnit(yaw, pitch, d, m);
    var v := Sub(target, c.position);
    var k := NormalizeFactor(v, m);
    assert d == Scale(v, k);
    assert v == Scale(d, 1.0 / k);
  }
}
