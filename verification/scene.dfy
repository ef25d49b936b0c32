/**
 * The scene store (`src/scene.rs`): insertion-ordered collections of
 * primitives and lights, the append-only `add_*` operations, and the records
 * `set_uniforms` hands to the renderer, at most a fixed number per kind.
 */
module Scenes {
  import opened Vectors
  import opened Materials

  datatype Sphere = Sphere(center: Vec3, radius: real, material: Material)
  datatype Plane = Plane(point: Vec3, normal: Vec3, material: Material)
  /** `size` holds width, height and depth. */
  datatype Box = Box(center: Vec3, size: Vec3, material: Material)
  /** `axis` holds both the direction and the length of the cylinder. */
  datatype Cylinder = Cylinder(base: Vec3, axis: Vec3, radius: real, material: Material)
  datatype Triangle = Triangle(v0: Vec3, v1: Vec3, v2: Vec3, material: Material)
  datatype Light = Light(position: Vec3, color: Vec3, intensity: real)

  datatype Scene = Scene(
    spheres: seq<Sphere>,
    planes: seq<Plane>,
    boxes: seq<Box>,
    cylinders: seq<Cylinder>,
    triangles: seq<Triangle>,
    lights: seq<Light>,
    background: Vec3)

  /** `Plane::new` normalises the normal it is given; a normal that already has length 1 is kept. */
  function NewPlane(point: Vec3, normal: Vec3, material: Material, m: MathLib): (p: Plane)
    ensures p.point == point && p.material == material
    ensures Length(normal, m) == 1.0 ==> p.normal == normal
    ensures p.normal == Scale(normal, NormalizeFactor(normal, m))
  {
    Plane(point, Normalize(normal, m), material)
  }

  /** `Triangle::normal`: the normalised cross product of the two edges from `v0`, orthogonal to both. */
  function TriangleNormal(t: Triangle, m: MathLib): (n: Vec3)
    ensures Dot(n, Sub(t.v1, t.v0)) == 0.0 && Dot(n, Sub(t.v2, t.v0)) == 0.0
    ensures var c := Cross(Sub(t.v1, t.v0), Sub(t.v2, t.v0)); n == Scale(c, NormalizeFactor(c, m))
  {
    var c := Cross(Sub(t.v1, t.v0), Sub(t.v2, t.v0));
    NormalizeKeepsOrthogonal(c, Sub(t.v1, t.v0), m);
    NormalizeKeepsOrthogonal(c, Sub(t.v2, t.v0), m);
    Normalize(c, m)
  }

  // ---------------------------------------------------------------------
  // Collections, counts and upload capacities

  /** The six collections of a scene. */
  datatype Collection = Spheres | Planes | Boxes | Cylinders | Triangles | Lights

  function Count(s: Scene, c: Collection): nat {
    match c
    case Spheres => |s.spheres|
    case Planes => |s.planes|
    case Boxes => |s.boxes|
    case Cylinders => |s.cylinders|
    case Triangles => |s.triangles|
    case Lights => |s.lights|
  }

  /** How many items of each collection the renderer receives. */
  function Cap(c: Collection): nat {
    match c
    case Spheres => 10
    case Planes => 5
    case Boxes => 5
    case Cylinders => 5
    case Triangles => 10
    case Lights => 4
  }

  const SkyBlue: Vec3 := Vec3(0.5, 0.7, 1.0)

  /** `Scene::new`: every collection empty, sky-blue background. */
  function NewScene(): (s: Scene)
    ensures forall c: Collection :: Count(s, c) == 0
    ensures s.background == SkyBlue
  {
    Scene([], [], [], [], [], [], SkyBlue)
  }

  // ---------------------------------------------------------------------
  // Appending. There is no capacity check: a collection grows without bound.

  function AddSphere(s: Scene, x: Sphere): (r: Scene)
    ensures r.spheres == s.spheres + [x]
    ensures r.(spheres := s.spheres) == s
  {
    s.(spheres := s.spheres + [x])
  }

  function AddPlane(s: Scene, x: Plane): (r: Scene)
    ensures r.planes == s.planes + [x]
    ensures r.(planes := s.planes) == s
  {
    s.(planes := s.planes + [x])
  }

  function AddBox(s: Scene, x: Box): (r: Scene)
    ensures r.boxes == s.boxes + [x]
    ensures r.(boxes := s.boxes) == s
  {
    s.(boxes := s.boxes + [x])
  }

  function AddCylinder(s: Scene, x: Cylinder): (r: Scene)
    ensures r.cylinders == s.cylinders + [x]
    ensures r.(cylinders := s.cylinders) == s
  {
    s.(cylinders := s.cylinders + [x])
  }

  function AddTriangle(s: Scene, x: Triangle): (r: Scene)
    ensures r.triangles == s.triangles + [x]
    ensures r.(triangles := s.triangles) == s
  {
    s.(triangles := s.triangles + [x])
  }

  function AddLight(s: Scene, x: Light): (r: Scene)
    ensures r.lights == s.lights + [x]
    ensures r.(lights := s.lights) == s
  {
    s.(lights := s.lights + [x])
  }

  /** `set_background` replaces the colour and leaves every collection alone. */
  function SetBackground(s: Scene, color: Vec3): (r: Scene)
    ensures r.background == color
    ensures forall c: Collection :: Count(r, c) == Count(s, c)
    ensures r.(background := s.background) == s
  {
    s.(background := color)
  }

  /** One item of any collection, so that the six `add_*` operations can be reasoned about together. */
  datatype Item =
    | SphereItem(sphere: Sphere)
    | PlaneItem(plane: Plane)
    | BoxItem(box: Box)
    | CylinderItem(cylinder: Cylinder)
    | TriangleItem(triangle: Triangle)
    | LightItem(light: Light)

  function CollectionOf(item: Item): Collection {
    match item
    case SphereItem(_) => Spheres
    case PlaneItem(_) => Planes
    case BoxItem(_) => Boxes
    case CylinderItem(_) => Cylinders
    case TriangleItem(_) => Triangles
    case LightItem(_) => Lights
  }

  /** The `add_*` operation for the item's own collection. */
  function Insert(s: Scene, item: Item): Scene {
    match item
    case SphereItem(x) => AddSphere(s, x)
    case PlaneItem(x) => AddPlane(s, x)
    case BoxItem(x) => AddBox(s, x)
    case CylinderItem(x) => AddCylinder(s, x)
    case TriangleItem(x) => AddTriangle(s, x)
    case LightItem(x) => AddLight(s, x)
  }

  /** Every insertion grows exactly its own collection by one; the background is untouched. */
  lemma InsertGrowsOneCollection(s: Scene, item: Item)
    ensures forall c: Collection ::
      Count(Insert(s, item), c) == Count(s, c) + (if c == CollectionOf(item) then 1 else 0)
    ensures Insert(s, item).background == s.background
  {
  }

  // ---------------------------------------------------------------------
  // The renderer upload of `set_uniforms`

  /** The integer the renderer uses for a material kind. */
  function MaterialCode(k: MaterialKind): (code: int)
    ensures 0 <= code <= 2
  {
    match k
    case Lambertian => 0
    case Metal => 1
    case Dielectric => 2
  }

  lemma MaterialCodeInjective(a: MaterialKind, b: MaterialKind)
    ensures MaterialCode(a) == MaterialCode(b) <==> a == b
  {
  }

  datatype SphereRecord = SphereRecord(center: Vec3, radius: real, albedo: Vec3, materialType: int, roughness: real, ior: real)
  /** Planes are uploaded without roughness or index of refraction. */
  datatype PlaneRecord = PlaneRecord(point: Vec3, normal: Vec3, albedo: Vec3, materialType: int)
  datatype BoxRecord = BoxRecord(center: Vec3, size: Vec3, albedo: Vec3, materialType: int, roughness: real, ior: real)
  datatype CylinderRecord = CylinderRecord(base: Vec3, axis: Vec3, radius: real, albedo: Vec3, materialType: int, roughness: real, ior: real)
  datatype TriangleRecord = TriangleRecord(v0: Vec3, v1: Vec3, v2: Vec3, albedo: Vec3, materialType: int, roughness: real, ior: real)

  /** Everything `set_uniforms` sends: a count and the records for each kind, then the background. */
  datatype Uniforms = Uniforms(
    sphereCount: int, spheres: seq<SphereRecord>,
    planeCount: int, planes: seq<PlaneRecord>,
    boxCount: int, boxes: seq<BoxRecord>,
    cylinderCount: int, cylinders: seq<CylinderRecord>,
    triangleCount: int, triangles: seq<TriangleRecord>,
    lightCount: int, lights: seq<Light>,
    background: Vec3)

  function SphereRecordOf(x: Sphere): SphereRecord {
    SphereRecord(x.center, x.radius, x.material.albedo, MaterialCode(x.material.kind), x.material.roughness, x.material.ior)
  }

  function PlaneRecordOf(x: Plane): PlaneRecord {
    PlaneRecord(x.point, x.normal, x.material.albedo, MaterialCode(x.material.kind))
  }

  function BoxRecordOf(x: Box): BoxRecord {
    BoxRecord(x.center, x.size, x.material.albedo, MaterialCode(x.material.kind), x.material.roughness, x.material.ior)
  }

  function CylinderRecordOf(x: Cylinder): CylinderRecord {
    CylinderRecord(x.base, x.axis, x.radius, x.material.albedo, MaterialCode(x.material.kind), x.material.roughness, x.material.ior)
  }

  function TriangleRecordOf(x: Triangle): TriangleRecord {
    TriangleRecord(x.v0, x.v1, x.v2, x.material.albedo, MaterialCode(x.material.kind), x.material.roughness, x.material.ior)
  }

  function Min(a: nat, b: nat): nat {
    if a < b then a else b
  }

  /** The first `min(|xs|, cap)` items, each turned into its record, in insertion order. */
  function Upload<T, R>(xs: seq<T>, cap: nat, record: T -> R): (r: seq<R>)
    ensures |r| == Min(|xs|, cap)
    ensures forall i :: 0 <= i < |r| ==> r[i] == record(xs[i])
  {
    seq(Min(|xs|, cap), i requires 0 <= i < Min(|xs|, cap) => record(xs[i]))
  }

  /**
   * The upload of `set_uniforms`: for every kind the count is `min(len, cap)`
   * and the records are those of the first that many items, in insertion order.
   */
  function SetUniforms(s: Scene): (u: Uniforms)
    ensures u.sphereCount == Min(Count(s, Spheres), Cap(Spheres)) == |u.spheres|
    ensures u.planeCount == Min(Count(s, Planes), Cap(Planes)) == |u.planes|
    ensures u.boxCount == Min(Count(s, Boxes), Cap(Boxes)) == |u.boxes|
    ensures u.cylinderCount == Min(Count(s, Cylinders), Cap(Cylinders)) == |u.cylinders|
    ensures u.triangleCount == Min(Count(s, Triangles), Cap(Triangles)) == |u.triangles|
    ensures u.lightCount == Min(Count(s, Lights), Cap(Lights)) == |u.lights|
    ensures forall i :: 0 <= i < |u.spheres| ==> u.spheres[i] == SphereRecordOf(s.spheres[i])
    ensures forall i :: 0 <= i < |u.planes| ==> u.planes[i] == PlaneRecordOf(s.planes[i])
    ensures forall i :: 0 <= i < |u.boxes| ==> u.boxes[i] == BoxRecordOf(s.boxes[i])
    ensures forall i :: 0 <= i < |u.cylinders| ==> u.cylinders[i] == CylinderRecordOf(s.cylinders[i])
    ensures forall i :: 0 <= i < |u.triangles| ==> u.triangles[i] == TriangleRecordOf(s.triangles[i])
    ensures u.lights == s.lights[..|u.lights|]
    ensures u.background == s.background
  {
    var lights := Upload(s.lights, Cap(Lights), (x: Light) => x);
    assert lights == s.lights[..|lights|];
    Uniforms(
      |Upload(s.spheres, Cap(Spheres), SphereRecordOf)|, Upload(s.spheres, Cap(Spheres), SphereRecordOf),
      |Upload(s.planes, Cap(Planes), PlaneRecordOf)|, Upload(s.planes, Cap(Planes), PlaneRecordOf),
      |Upload(s.boxes, Cap(Boxes), BoxRecordOf)|, Upload(s.boxes, Cap(Boxes), BoxRecordOf),
      |Upload(s.cylinders, Cap(Cylinders), CylinderRecordOf)|, Upload(s.cylinders, Cap(Cylinders), CylinderRecordOf),
      |Upload(s.triangles, Cap(Triangles), TriangleRecordOf)|, Upload(s.triangles, Cap(Triangles), TriangleRecordOf),
      |lights|, lights,
      s.background)
  }

  /** Items past a kind's capacity never reach the renderer: inserting into a full collection changes nothing uploaded. */
  lemma InsertBeyondCapacityNotUploaded(s: Scene, item: Item)
    requires Count(s, CollectionOf(item)) >= Cap(CollectionOf(item))
    ensures SetUniforms(Insert(s, item)) == SetUniforms(s)
  {
    var u, v := SetUniforms(s), SetUniforms(Insert(s, item));
    assert u.spheres == v.spheres;
    assert u.planes == v.planes;
    assert u.boxes == v.boxes;
    assert u.cylinders == v.cylinders;
    assert u.triangles == v.triangles;
    assert u.lights == v.lights;
  }

  /** Later insertions never displace what is already uploaded: the old records stay a prefix. */
  lemma InsertKeepsUploadedPrefix(s: Scene, item: Item)
    ensures SetUniforms(s).spheres <= SetUniforms(Insert(s, item)).spheres
    ensures SetUniforms(s).planes <= SetUniforms(Insert(s, item)).planes
    ensures SetUniforms(s).boxes <= SetUniforms(Insert(s, item)).boxes
    ensures SetUniforms(s).cylinders <= SetUniforms(Insert(s, item)).cylinders
    ensures SetUniforms(s).triangles <= SetUniforms(Insert(s, item)).triangles
    ensures SetUniforms(s).lights <= SetUniforms(Insert(s, item)).lights
  {
  }

  /** A plane's upload does not depend on its material's roughness or index of refraction. */
  lemma PlaneUploadIgnoresRoughnessAndIor(s: Scene, t: Scene)
    requires |s.planes| == |t.planes|
    requires forall i :: 0 <= i < |s.planes| ==>
      s.planes[i].(material := s.planes[i].material.(roughness := 0.0, ior := 0.0))
      == t.planes[i].(material := t.planes[i].material.(roughness := 0.0, ior := 0.0))
    ensures SetUniforms(s).planes == SetUniforms(t).planes
  {
    var u, v := SetUniforms(s).planes, SetUniforms(t).planes;
    forall i | 0 <= i < |u|
      ensures u[i] == v[i]
    {
      var p, q := s.planes[i], t.planes[i];
      assert p.(material := p.material.(roughness := 0.0, ior := 0.0)).point == p.point;
      assert p.(material := p.material.(roughness := 0.0, ior := 0.0)).material.albedo == p.material.albedo;
      assert p.(material := p.material.(roughness := 0.0, ior := 0.0)).material.kind == p.material.kind;
      assert q.(material := q.material.(roughness := 0.0, ior := 0.0)).material.kind == q.material.kind;
    }
  }
}
