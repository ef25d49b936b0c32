/**
 * The host-facing API of the renderer (`src/lib.rs`): the `Raytracer`
 * state, the sphere add/get/set/remove calls with their index guards, scene
 * reset and randomisation, camera controls, and the frame-time window that
 * `render` keeps before handing the scene to the renderer.
 */
module Host {
  import opened Vectors
  import opened Materials
  import opened Scenes
  import opened Cameras

  newtype u32 = x: int | 0 <= x < 0x1_0000_0000

  /** The renderer's state; the WebGL context, program and buffers are not modelled. */
  datatype Raytracer = Raytracer(
    camera: Camera,
    scene: Scene,
    lastFrameTime: real,
    frameTimes: seq<real>,
    fps: real,
    width: u32,
    height: u32)

  /** How many frame durations the frame-rate average covers. */
  const FrameWindow: nat := 60

  /** `width as f32 / height as f32`. */
  function AspectRatio(width: u32, height: u32, m: MathLib): (a: real)
    ensures height != 0 ==> a * height as real == width as real
  {
    Divide(width as real, height as real, m)
  }

  // ---------------------------------------------------------------------
  // Fixed scene content

  const GroundMaterial: Material := NewMaterial(Lambertian, Vec3(0.5, 0.5, 0.5), 0.0, 0.0)

  /** The ground plane through (0, -1, 0) facing up. */
  function Ground(m: MathLib): (p: Plane)
    ensures p.point == Vec3(0.0, -1.0, 0.0) && p.material == GroundMaterial
    ensures m.sqrt(1.0) == 1.0 ==> p.normal == WorldUp
  {
    assert LengthSquared(WorldUp) == 1.0;
    NewPlane(Vec3(0.0, -1.0, 0.0), WorldUp, GroundMaterial, m)
  }

  /** The sun, sky and overhead lights of the default and random scenes. */
  const StandardLights: seq<Light> := [
    Light(Vec3(10.0, 10.0, 10.0), Vec3(1.0, 1.0, 0.9), 200.0),
    Light(Vec3(-5.0, 8.0, 5.0), Vec3(0.7, 0.8, 1.0), 80.0),
    Light(Vec3(0.0, 15.0, 0.0), Vec3(0.9, 0.9, 0.8), 150.0)]

  const DefaultSpheres: seq<Sphere> := [
    Sphere(Vec3(0.0, 0.0, 0.0), 1.0, NewMaterial(Lambertian, Vec3(0.7, 0.3, 0.3), 0.0, 0.0)),
    Sphere(Vec3(-2.0, 0.0, -1.0), 0.5, NewMaterial(Metal, Vec3(0.8, 0.8, 0.9), 0.1, 0.0)),
    Sphere(Vec3(2.0, 0.0, -1.0), 0.5, NewMaterial(Dielectric, Vec3(0.9, 1.0, 0.9), 0.0, 1.5)),
    Sphere(Vec3(0.0, 1.0, -2.0), 0.3, NewMaterial(Dielectric, Vec3(1.0, 0.9, 0.9), 0.0, 1.3))]

  /** `Raytracer::new` once the WebGL setup has succeeded: the default scene, a camera at (0, 2, 5), no frames yet. */
  function NewRaytracer(width: u32, height: u32, now: real, m: MathLib): (r: Raytracer)
    ensures r.scene.spheres == DefaultSpheres && r.scene.planes == [Ground(m)] && r.scene.lights == StandardLights
    ensures r.scene.boxes == [] && r.scene.cylinders == [] && r.scene.triangles == [] && r.scene.background == SkyBlue
    ensures r.camera.position == Vec3(0.0, 2.0, 5.0) && r.camera.aspectRatio == AspectRatio(width, height, m)
    ensures r.camera == NewCamera(Vec3(0.0, 2.0, 5.0), Zero, AspectRatio(width, height, m), m)
    ensures r.camera.yaw == 0.0 && r.camera.pitch == 0.0
    ensures r.camera.fov == Radians(45.0) && r.camera.near == 0.1 && r.camera.far == 100.0
    ensures Oriented(r.camera, m) && Aimed(r.camera)
    ensures r.frameTimes == [] && r.fps == 0.0 && r.lastFrameTime == now
    ensures r.width == width && r.height == height
  {
    var camera := NewCamera(Vec3(0.0, 2.0, 5.0), Zero, AspectRatio(width, height, m), m);
    var s0 := NewScene();
    var s1 := Scenes.AddSphere(s0, DefaultSpheres[0]);
    var s2 := Scenes.AddSphere(s1, DefaultSpheres[1]);
    var s3 := Scenes.AddSphere(s2, DefaultSpheres[2]);
    var s4 := Scenes.AddSphere(s3, DefaultSpheres[3]);
    var s5 := AddPlane(s4, Ground(m));
    var s6 := AddLight(s5, StandardLights[0]);
    var s7 := AddLight(s6, StandardLights[1]);
    var s8 := AddLight(s7, StandardLights[2]);
    Raytracer(camera, s8, now, [], 0.0, width, height)
  }

  // ---------------------------------------------------------------------
  // Rendering: the frame-time window and what is handed to the renderer

  function Sum(xs: seq<real>): real {
    if xs == [] then 0.0 else Sum(xs[..|xs| - 1]) + xs[|xs| - 1]
  }

  /** The last `n` elements of `xs`, or all of them when there are fewer. */
  function LastN<T>(xs: seq<T>, n: nat): (r: seq<T>)
    ensures |r| == Min(|xs|, n)
    ensures xs == xs[..|xs| - |r|] + r
  {
    xs[|xs| - Min(|xs|, n)..]
  }

  /** Everything one frame hands to the renderer. */
  datatype Frame = Frame(
    width: real,
    height: real,
    cameraPosition: Vec3,
    cameraForward: Vec3,
    cameraRight: Vec3,
    cameraUp: Vec3,
    time: real,
    uniforms: Uniforms)

  /**
   * The frame-time window after one more frame: the new duration is appended
   * and, once the window holds more than `FrameWindow`, the oldest is dropped.
   */
  function Slide(window: seq<real>, delta: real): (w: seq<real>)
    ensures |w| > 0 && w[|w| - 1] == delta
    ensures |window| < FrameWindow ==> w == window + [delta]
    ensures |window| >= FrameWindow ==> w == window[1..] + [delta]
    ensures |window| <= FrameWindow ==> |w| <= FrameWindow
  {
    var pushed := window + [delta];
    if |pushed| > FrameWindow then pushed[1..] else pushed
  }

  /** Frames per second from the mean duration in milliseconds. */
  function FrameRate(window: seq<real>, m: MathLib): (fps: real)
    requires |window| > 0
    ensures Sum(window) != 0.0 ==> fps * (Sum(window) / |window| as real) == 1000.0
  {
    Divide(1000.0, Sum(window) / |window| as real, m)
  }

  /**
   * `render` at clock reading `now` (milliseconds): slide the frame-time
   * window, recompute the frame rate, and hand the camera basis and the
   * scene's upload records to the renderer. Scene and camera stay as they are.
   */
  function Render(rt: Raytracer, now: real, m: MathLib): (r: (Raytracer, Frame))
    ensures r.0.frameTimes == Slide(rt.frameTimes, now - rt.lastFrameTime)
    ensures r.0.fps == FrameRate(r.0.frameTimes, m)
    ensures r.0 == rt.(frameTimes := r.0.frameTimes, fps := r.0.fps, lastFrameTime := now)
    ensures r.1.uniforms == SetUniforms(rt.scene)
    ensures r.1.cameraPosition == rt.camera.position && r.1.cameraForward == rt.camera.forward
    ensures r.1.cameraRight == rt.camera.right && r.1.cameraUp == rt.camera.up
    ensures r.1.time * 1000.0 == now
    ensures r.1.width == rt.width as real && r.1.height == rt.height as real
  {
    var window := Slide(rt.frameTimes, now - rt.lastFrameTime);
    var frame := Frame(rt.width as real, rt.height as real, rt.camera.position,
                       rt.camera.forward, rt.camera.right, rt.camera.up, now / 1000.0, SetUniforms(rt.scene));
    (rt.(frameTimes := window, fps := FrameRate(window, m), lastFrameTime := now), frame)
  }

  /** The durations between successive clock readings, the first measured from `start`. */
  function Deltas(start: real, times: seq<real>): (d: seq<real>)
    ensures |d| == |times|
    decreases |times|
  {
    if times == [] then [] else [times[0] - start] + Deltas(times[0], times[1..])
  }

  /** Rendering one frame per clock reading, in order. */
  function RenderAll(rt: Raytracer, times: seq<real>, m: MathLib): Raytracer
    decreases |times|
  {
    if times == [] then rt else RenderAll(Render(rt, times[0], m).0, times[1..], m)
  }

  lemma SeqAssoc<T>(a: seq<T>, b: seq<T>, c: seq<T>)
    ensures a + b + c == a + (b + c)
  {
  }

  lemma LastNOfLastN<T>(xs: seq<T>, ys: seq<T>, n: nat)
    ensures LastN(LastN(xs, n) + ys, n) == LastN(xs + ys, n)
  {
    var l := LastN(xs, n);
    assert xs + ys == xs[..|xs| - |l|] + (l + ys);
  }

  /** A window of at most `FrameWindow` entries, after one frame, is the last `FrameWindow` of it extended by the new delta. */
  lemma RenderSlides(rt: Raytracer, now: real, m: MathLib)
    requires |rt.frameTimes| <= FrameWindow
    ensures Render(rt, now, m).0.frameTimes == LastN(rt.frameTimes + [now - rt.lastFrameTime], FrameWindow)
  {
  }

  /**
   * The sliding window: after any sequence of frames, starting from a window
   * of at most `FrameWindow` entries, the window holds exactly the most recent
   * `FrameWindow` durations, oldest first.
   */
  lemma {:induction false} RenderAllWindow(rt: Raytracer, times: seq<real>, m: MathLib)
    requires |rt.frameTimes| <= FrameWindow
    ensures RenderAll(rt, times, m).frameTimes == LastN(rt.frameTimes + Deltas(rt.lastFrameTime, times), FrameWindow)
    decreases |times|
  {
    if times == [] {
      assert rt.frameTimes + Deltas(rt.lastFrameTime, times) == rt.frameTimes;
    } else {
      var next := Render(rt, times[0], m).0;
      var d := times[0] - rt.lastFrameTime;
      var rest := Deltas(times[0], times[1..]);
      assert RenderAll(rt, times, m) == RenderAll(next, times[1..], m);
      assert next.lastFrameTime == times[0];
      RenderSlides(rt, times[0], m);
      RenderAllWindow(next, times[1..], m);
      LastNOfLastN(rt.frameTimes + [d], rest, FrameWindow);
      var all := Deltas(rt.lastFrameTime, times);
      assert all == [d] + rest;
      SeqAssoc(rt.frameTimes, [d], rest);
    }
  }

  /** From a fresh renderer, `n` frames leave `min(n, FrameWindow)` durations in the window. */
  lemma WindowSizeAfterFrames(width: u32, height: u32, start: real, times: seq<real>, m: MathLib)
    ensures |RenderAll(NewRaytracer(width, height, start, m), times, m).frameTimes| == Min(|times|, FrameWindow)
  {
    RenderAllWindow(NewRaytracer(width, height, start, m), times, m);
  }

  // ---------------------------------------------------------------------
  // Spheres

  /** The host's integer material code: 1 is metal, 2 is dielectric, anything else Lambertian. */
  function DecodeMaterialKind(code: u32): (k: MaterialKind)
    ensures k == Metal <==> code == 1
    ensures k == Dielectric <==> code == 2
    ensures k == Lambertian <==> code != 1 && code != 2
  {
    match code
    case 1 => Metal
    case 2 => Dielectric
    case _ => Lambertian
  }

  /** Decoding inverts the renderer's material code for every kind. */
  lemma DecodeInvertsMaterialCode(k: MaterialKind)
    ensures DecodeMaterialKind(MaterialCode(k) as u32) == k
  {
  }

  /** Every code below 3 is the renderer's code for the kind it decodes to. */
  lemma MaterialCodeInvertsDecode(code: u32)
    requires code < 3
    ensures MaterialCode(DecodeMaterialKind(code)) == code as int
  {
  }

  /** The material every host-added or host-recoloured sphere gets: roughness 0.1, index of refraction 1.5. */
  function HostMaterial(r: real, g: real, b: real, code: u32): (mat: Material)
    ensures mat.kind == DecodeMaterialKind(code) && mat.albedo == Vec3(r, g, b)
    ensures mat.roughness == 0.1 && mat.ior == 1.5
  {
    NewMaterial(DecodeMaterialKind(code), Vec3(r, g, b), 0.1, 1.5)
  }

  /** `get_sphere_count`: every sphere counts, including those past the upload limit. */
  function GetSphereCount(rt: Raytracer): (n: nat)
    ensures n == Count(rt.scene, Spheres)
    ensures SetUniforms(rt.scene).sphereCount == Min(n, Cap(Spheres))
  {
    |rt.scene.spheres|
  }

  /** `b` differs from `a` at most in sphere `i`: same number of spheres, same everything else. */
  predicate SameExceptSphere(a: Raytracer, b: Raytracer, i: nat) {
    && |b.scene.spheres| == |a.scene.spheres|
    && (forall j :: 0 <= j < |a.scene.spheres| && j != i ==> b.scene.spheres[j] == a.scene.spheres[j])
    && b.scene.(spheres := a.scene.spheres) == a.scene
    && b.(scene := a.scene) == a
  }

  /** `add_sphere`: append one sphere at the end; no capacity check. */
  function AddSphere(rt: Raytracer, x: real, y: real, z: real, radius: real, r: real, g: real, b: real, code: u32): (res: Raytracer)
    ensures GetSphereCount(res) == GetSphereCount(rt) + 1
    ensures res.scene.spheres[..GetSphereCount(rt)] == rt.scene.spheres
    ensures res.scene.spheres[GetSphereCount(rt)] == Sphere(Vec3(x, y, z), radius, HostMaterial(r, g, b, code))
    ensures res.scene.(spheres := rt.scene.spheres) == rt.scene
    ensures res.(scene := rt.scene) == rt
  {
    rt.(scene := Scenes.AddSphere(rt.scene, Sphere(Vec3(x, y, z), radius, HostMaterial(r, g, b, code))))
  }

  /** `get_sphere_position`: the centre as three numbers, or the origin for an index out of range. */
  function GetSpherePosition(rt: Raytracer, index: nat): (p: seq<real>)
    ensures |p| == 3
    ensures index < GetSphereCount(rt) ==> p == [rt.scene.spheres[index].center.x, rt.scene.spheres[index].center.y, rt.scene.spheres[index].center.z]
    ensures index >= GetSphereCount(rt) ==> p == [0.0, 0.0, 0.0]
  {
    if index < |rt.scene.spheres| then
      var c := rt.scene.spheres[index].center;
      [c.x, c.y, c.z]
    else
      [0.0, 0.0, 0.0]
  }

  /** `get_sphere_radius`: the radius, or 1 for an index out of range. */
  function GetSphereRadius(rt: Raytracer, index: nat): (radius: real)
    ensures index < GetSphereCount(rt) ==> radius == rt.scene.spheres[index].radius
    ensures index >= GetSphereCount(rt) ==> radius == 1.0
  {
    if index < |rt.scene.spheres| then rt.scene.spheres[index].radius else 1.0
  }

  /** `set_sphere_position`: move one sphere's centre; an index out of range changes nothing. */
  function SetSpherePosition(rt: Raytracer, index: nat, x: real, y: real, z: real): (res: Raytracer)
    ensures index >= GetSphereCount(rt) ==> res == rt
    ensures SameExceptSphere(rt, res, index)
    ensures index < GetSphereCount(rt) ==>
      res.scene.spheres[index] == rt.scene.spheres[index].(center := Vec3(x, y, z))
  {
    if index < |rt.scene.spheres| then
      var s := rt.scene.spheres[index];
      rt.(scene := rt.scene.(spheres := rt.scene.spheres[index := s.(center := Vec3(x, y, z))]))
    else rt
  }

  /** `set_sphere_radius`: change one sphere's radius; an index out of range changes nothing. */
  function SetSphereRadius(rt: Raytracer, index: nat, radius: real): (res: Raytracer)
    ensures index >= GetSphereCount(rt) ==> res == rt
    ensures SameExceptSphere(rt, res, index)
    ensures index < GetSphereCount(rt) ==>
      res.scene.spheres[index] == rt.scene.spheres[index].(radius := radius)
  {
    if index < |rt.scene.spheres| then
      var s := rt.scene.spheres[index];
      rt.(scene := rt.scene.(spheres := rt.scene.spheres[index := s.(radius := radius)]))
    else rt
  }

  /** `set_sphere_material`: replace one sphere's material (roughness 0.1, ior 1.5); an index out of range changes nothing. */
  function SetSphereMaterial(rt: Raytracer, index: nat, r: real, g: real, b: real, code: u32): (res: Raytracer)
    ensures index >= GetSphereCount(rt) ==> res == rt
    ensures SameExceptSphere(rt, res, index)
    ensures index < GetSphereCount(rt) ==>
      res.scene.spheres[index] == rt.scene.spheres[index].(material := HostMaterial(r, g, b, code))
  {
    if index < |rt.scene.spheres| then
      var s := rt.scene.spheres[index];
      rt.(scene := rt.scene.(spheres := rt.scene.spheres[index := s.(material := HostMaterial(r, g, b, code))]))
    else rt
  }

  /** Reading back a position after setting it gives what was set; other spheres read as before. */
  lemma GetAfterSetPosition(rt: Raytracer, i: nat, j: nat, x: real, y: real, z: real)
    requires i < GetSphereCount(rt)
    ensures GetSpherePosition(SetSpherePosition(rt, i, x, y, z), j) ==
      if j == i then [x, y, z] else GetSpherePosition(rt, j)
  {
  }

  /** Reading back a radius after setting it gives what was set; other spheres read as before. */
  lemma GetAfterSetRadius(rt: Raytracer, i: nat, j: nat, radius: real)
    requires i < GetSphereCount(rt)
    ensures GetSphereRadius(SetSphereRadius(rt, i, radius), j) ==
      if j == i then radius else GetSphereRadius(rt, j)
  {
  }

  /** `remove_sphere`: later spheres shift down by one; an index out of range changes nothing. */
  function RemoveSphere(rt: Raytracer, index: nat): (res: Raytracer)
    ensures index >= GetSphereCount(rt) ==> res == rt
    ensures index < GetSphereCount(rt) ==>
      && GetSphereCount(res) == GetSphereCount(rt) - 1
      && (forall j :: 0 <= j < index ==> res.scene.spheres[j] == rt.scene.spheres[j])
      && (forall j :: index <= j < GetSphereCount(res) ==> res.scene.spheres[j] == rt.scene.spheres[j + 1])
    ensures res.scene.(spheres := rt.scene.spheres) == rt.scene
    ensures res.(scene := rt.scene) == rt
  {
    if index < |rt.scene.spheres| then
      var s := rt.scene.spheres;
      rt.(scene := rt.scene.(spheres := s[..index] + s[index + 1..]))
    else rt
  }

  /** Removing the sphere just added restores the previous state. */
  lemma RemoveUndoesAdd(rt: Raytracer, x: real, y: real, z: real, radius: real, r: real, g: real, b: real, code: u32)
    ensures RemoveSphere(AddSphere(rt, x, y, z, radius, r, g, b, code), GetSphereCount(rt)) == rt
  {
    var added := AddSphere(rt, x, y, z, radius, r, g, b, code);
    var s := added.scene.spheres;
    assert s[..GetSphereCount(rt)] + s[GetSphereCount(rt) + 1..] == rt.scene.spheres;
  }

  // ---------------------------------------------------------------------
  // Scene reset and randomisation

  /** `clear_scene`: a new scene holding only the ground plane; camera and frame state untouched. */
  function ClearScene(rt: Raytracer, m: MathLib): (res: Raytracer)
    ensures forall c: Collection :: Count(res.scene, c) == if c == Planes then 1 else 0
    ensures |res.scene.planes| == 1
    ensures res.scene.planes[0].point == Vec3(0.0, -1.0, 0.0) && res.scene.planes[0].material == GroundMaterial
    ensures m.sqrt(1.0) == 1.0 ==> res.scene.planes[0].normal == WorldUp
    ensures res.scene.background == SkyBlue
    ensures res.(scene := rt.scene) == rt
  {
    rt.(scene := AddPlane(NewScene(), Ground(m)))
  }

  /** The seven random draws `random_scene` makes for one sphere, in the order it makes them. */
  datatype SphereDraw = SphereDraw(jitter: real, depth: real, size: real, kind: real, red: real, green: real, blue: real)

  /** The saturating float-to-`u32` cast: truncation toward zero, negatives to 0, overflow to the maximum. */
  function CastToU32(v: real): (r: u32)
    ensures 0.0 <= v < 0x1_0000_0000 as real ==> r as int == v.Floor
    ensures v < 0.0 ==> r == 0
    ensures v >= 0x1_0000_0000 as real ==> r == 0xFFFF_FFFF
  {
    if v < 0.0 then 0
    else if v >= 0x1_0000_0000 as real then 0xFFFF_FFFF
    else v.Floor as u32
  }

  /** The sphere `random_scene` adds as number `i` for the given draws. */
  function DrawnSphere(i: nat, d: SphereDraw): Sphere {
    var x := (i as real - 4.0) * 2.0 + (d.jitter - 0.5) * 1.5;
    var z := -2.0 + d.depth * -4.0;
    Sphere(Vec3(x, 0.0, z), 0.3 + d.size * 0.5, HostMaterial(d.red, d.green, d.blue, CastToU32(d.kind * 3.0)))
  }

  /**
   * With draws in `[0, 1)`, as the random source gives them, sphere `i` lies
   * on the ground line near x = 2(i - 4), its radius is in `[0.3, 0.8)`, and
   * each third of the kind draw picks one material kind.
   */
  lemma DrawnSphereBounds(i: nat, d: SphereDraw)
    requires 0.0 <= d.jitter < 1.0 && 0.0 <= d.depth < 1.0 && 0.0 <= d.size < 1.0 && 0.0 <= d.kind < 1.0
    ensures var s := DrawnSphere(i, d);
      && (i as real - 4.0) * 2.0 - 0.75 <= s.center.x < (i as real - 4.0) * 2.0 + 0.75
      && s.center.y == 0.0 && -6.0 < s.center.z <= -2.0
      && 0.3 <= s.radius < 0.8
      && (s.material.kind == Lambertian <==> d.kind < 1.0 / 3.0)
      && (s.material.kind == Metal <==> 1.0 / 3.0 <= d.kind < 2.0 / 3.0)
      && (s.material.kind == Dielectric <==> 2.0 / 3.0 <= d.kind)
  {
    var code := CastToU32(d.kind * 3.0);
    assert code as int == (d.kind * 3.0).Floor;
    if d.kind < 1.0 / 3.0 {
      assert code == 0;
    } else if d.kind < 2.0 / 3.0 {
      assert code == 1;
    } else {
      assert code == 2;
    }
  }

  /**
   * `random_scene` with its random draws as a parameter: clear the scene,
   * add eight drawn spheres in order, then the three standard lights.
   */
  method RandomScene(rt: Raytracer, draws: seq<SphereDraw>, m: MathLib) returns (res: Raytracer)
    requires |draws| == 8
    ensures GetSphereCount(res) == 8
    ensures forall i :: 0 <= i < 8 ==> res.scene.spheres[i] == DrawnSphere(i, draws[i])
    ensures res.scene.planes == [Ground(m)] && res.scene.lights == StandardLights
    ensures res.scene.boxes == [] && res.scene.cylinders == [] && res.scene.triangles == []
    ensures res.scene.background == SkyBlue
    ensures res.(scene := rt.scene) == rt
  {
    res := ClearScene(rt, m);
    var i := 0;
    while i < 8
      invariant 0 <= i <= 8
      invariant GetSphereCount(res) == i
      invariant forall k :: 0 <= k < i ==> res.scene.spheres[k] == DrawnSphere(k, draws[k])
      invariant res.scene.planes == [Ground(m)] && res.scene.lights == []
      invariant res.scene.boxes == [] && res.scene.cylinders == [] && res.scene.triangles == []
      invariant res.scene.background == SkyBlue
      invariant res.(scene := rt.scene) == rt
    {
      var d := draws[i];
      var x := (i as real - 4.0) * 2.0 + (d.jitter - 0.5) * 1.5;
      var z := -2.0 + d.depth * -4.0;
      var y := 0.0;
      var radius := 0.3 + d.size * 0.5;
      var code := CastToU32(d.kind * 3.0);
      res := AddSphere(res, x, y, z, radius, d.red, d.green, d.blue, code);
      i := i + 1;
    }
    res := res.(scene := AddLight(res.scene, StandardLights[0]));
    res := res.(scene := AddLight(res.scene, StandardLights[1]));
    res := res.(scene := AddLight(res.scene, StandardLights[2]));
  }

  // ---------------------------------------------------------------------
  // Camera controls and resizing

  function MoveCamera(rt: Raytracer, forward: real, right: real, up: real, m: MathLib): (res: Raytracer)
    ensures res.camera == MoveRelative(rt.camera, forward, right, up, m)
    ensures res.camera.position.y == rt.camera.position.y + up
    ensures res.camera.(position := rt.camera.position) == rt.camera
    ensures res.(camera := rt.camera) == rt
  {
    rt.(camera := MoveRelative(rt.camera, forward, right, up, m))
  }

  function RotateCamera(rt: Raytracer, yaw: real, pitch: real, m: MathLib): (res: Raytracer)
    ensures res.camera == Rotate(rt.camera, yaw, pitch, m)
    ensures SameMount(res.camera, rt.camera)
    ensures -MaxPitch <= res.camera.pitch <= MaxPitch
    ensures res.camera.yaw == rt.camera.yaw + yaw
    ensures Oriented(res.camera, m) && Aimed(res.camera)
    ensures res.(camera := rt.camera) == rt
  {
    rt.(camera := Rotate(rt.camera, yaw, pitch, m))
  }

  function SetCameraPosition(rt: Raytracer, x: real, y: real, z: real, m: MathLib): (res: Raytracer)
    ensures res.camera == SetPosition(rt.camera, Vec3(x, y, z), m)
    ensures Oriented(rt.camera, m) ==> res.camera.forward == rt.camera.forward && res.camera.right == rt.camera.right
    ensures res.camera.fov == rt.camera.fov && res.camera.aspectRatio == rt.camera.aspectRatio
    ensures res.camera.near == rt.camera.near && res.camera.far == rt.camera.far
    ensures res.camera.position == Vec3(x, y, z)
    ensures res.camera.yaw == rt.camera.yaw && res.camera.pitch == rt.camera.pitch
    ensures Aimed(res.camera)
    ensures res.(camera := rt.camera) == rt
  {
    rt.(camera := SetPosition(rt.camera, Vec3(x, y, z), m))
  }

  function GetCameraPosition(rt: Raytracer): (p: seq<real>)
    ensures p == [rt.camera.position.x, rt.camera.position.y, rt.camera.position.z]
  {
    var c := rt.camera.position;
    [c.x, c.y, c.z]
  }

  /** `set_camera_target` as the source writes it, through the as-written `set_target`. */
  function SetCameraTarget(rt: Raytracer, x: real, y: real, z: real, m: MathLib): (res: Raytracer)
    ensures res.camera == SetTargetAsWritten(rt.camera, Vec3(x, y, z), m)
    ensures res.camera.position == rt.camera.position && Aimed(res.camera)
    ensures SameMount(res.camera, rt.camera)
    ensures res.(camera := rt.camera) == rt
  {
    rt.(camera := SetTargetAsWritten(rt.camera, Vec3(x, y, z), m))
  }

  /** `set_camera_target` with the corrected yaw convention of `Cameras.SetTarget`. */
  function SetCameraTargetCorrected(rt: Raytracer, x: real, y: real, z: real, m: MathLib): (res: Raytracer)
    ensures res.camera == SetTarget(rt.camera, Vec3(x, y, z), m)
    ensures res.camera.position == rt.camera.position && Aimed(res.camera)
    ensures SameMount(res.camera, rt.camera)
    ensures res.(camera := rt.camera) == rt
  {
    rt.(camera := SetTarget(rt.camera, Vec3(x, y, z), m))
  }

  /** `resize`: new output size and aspect ratio; the scene and everything else stay. */
  function Resize(rt: Raytracer, width: u32, height: u32, m: MathLib): (res: Raytracer)
    ensures res.width == width && res.height == height
    ensures height != 0 ==> res.camera.aspectRatio * height as real == width as real
    ensures res.camera.(aspectRatio := rt.camera.aspectRatio) == rt.camera
    ensures res.(width := rt.width, height := rt.height, camera := rt.camera) == rt
  {
    rt.(width := width, height := height, camera := SetAspectRatio(rt.camera, AspectRatio(width, height, m)))
  }
}
