/**
 * `Scene::from_blender_json` over an already-parsed document: each element of
 * the top-level `objects` array that is a "MESH" becomes a sphere and each
 * "LIGHT" becomes a light, in document order, with fixed defaults.
 */
module BlenderImport {
  import opened Options
  import opened Vectors
  import opened Materials
  import opened Scenes
  import opened JsonValues

  /** Every imported mesh gets this grey Lambertian material. */
  const MeshMaterial: Material := LambertianMaterial(Vec3(0.7, 0.7, 0.7))
  const LightColor: Vec3 := Vec3(1.0, 1.0, 1.0)
  const DefaultEnergy: real := 10.0

  /** `as_f64().unwrap_or(default)`: a number element, or the default for anything else. */
  function NumberOr(v: Json, default: real): (r: real)
    ensures v.Number? ==> r == v.n
    ensures !v.Number? ==> r == default
  {
    AsNumber(v).GetOr(default)
  }

  /** The first three entries of a coordinate array, non-numbers read as 0. */
  function Point(a: seq<Json>): Vec3
    requires |a| >= 3
  {
    Vec3(NumberOr(a[0], 0.0), NumberOr(a[1], 0.0), NumberOr(a[2], 0.0))
  }

  /** The top-level `objects` array; no objects when the member is missing or not an array. */
  function Objects(doc: Json): seq<Json> {
    GetArray(doc, "objects").GetOr([])
  }

  /**
   * What one object contributes as a sphere: a "MESH" whose `location` and
   * `scale` are arrays of at least three entries, centred at the location
   * with radius `scale[0]` (1 when not a number). Anything else gives none.
   */
  function MeshSphere(o: Json): (r: Option<Sphere>)
    ensures r.Some? <==>
      && GetStr(o, "type") == Some("MESH")
      && GetArray(o, "location").Some? && |GetArray(o, "location").value| >= 3
      && GetArray(o, "scale").Some? && |GetArray(o, "scale").value| >= 3
    ensures r.Some? ==>
      && r.value.center == Point(o.fields["location"].items)
      && r.value.radius == NumberOr(o.fields["scale"].items[0], 1.0)
      && r.value.material == MeshMaterial
  {
    if GetStr(o, "type") == Some("MESH") then
      match (GetArray(o, "location"), GetArray(o, "scale"))
      case (Some(location), Some(scale)) =>
        if |location| >= 3 && |scale| >= 3 then
          Some(Sphere(Point(location), NumberOr(scale[0], 1.0), MeshMaterial))
        else None
      case _ => None
    else None
  }

  /**
   * What one object contributes as a light: a "LIGHT" whose `location` is an
   * array of at least three entries, white, with intensity `energy` (10 when
   * absent or not a number). Anything else gives none.
   */
  function LampLight(o: Json): (r: Option<Light>)
    ensures r.Some? <==>
      && GetStr(o, "type") == Some("LIGHT")
      && GetArray(o, "location").Some? && |GetArray(o, "location").value| >= 3
    ensures r.Some? ==>
      && r.value.position == Point(o.fields["location"].items)
      && r.value.color == LightColor
      && r.value.intensity == GetNumber(o, "energy").GetOr(DefaultEnergy)
  {
    if GetStr(o, "type") == Some("LIGHT") then
      match GetArray(o, "location")
      case Some(location) =>
        if |location| >= 3 then
          Some(Light(Point(location), LightColor, GetNumber(o, "energy").GetOr(DefaultEnergy)))
        else None
      case None => None
    else None
  }

  /** No object is both a sphere and a light, and an object without a recognised string `type` is neither. */
  lemma AtMostOneContribution(o: Json)
    ensures !(MeshSphere(o).Some? && LampLight(o).Some?)
    ensures GetStr(o, "type") !in {Some("MESH"), Some("LIGHT")} ==> MeshSphere(o).None? && LampLight(o).None?
  {
  }

  /** The spheres contributed by `objs`, in order. */
  function ImportedSpheres(objs: seq<Json>): (r: seq<Sphere>)
    ensures |r| <= |objs|
    ensures forall i :: 0 <= i < |r| ==> r[i].material == MeshMaterial
  {
    if objs == [] then []
    else ImportedSpheres(objs[..|objs| - 1]) + MeshSphere(objs[|objs| - 1]).ToSeq()
  }

  /** The lights contributed by `objs`, in order. */
  function ImportedLights(objs: seq<Json>): (r: seq<Light>)
    ensures |r| <= |objs|
    ensures forall i :: 0 <= i < |r| ==> r[i].color == LightColor
  {
    if objs == [] then []
    else ImportedLights(objs[..|objs| - 1]) + LampLight(objs[|objs| - 1]).ToSeq()
  }

  /** Import is compositional: the objects of `a + b` give the spheres of `a` followed by those of `b`. */
  lemma {:induction false} ImportedSpheresAppend(a: seq<Json>, b: seq<Json>)
    ensures ImportedSpheres(a + b) == ImportedSpheres(a) + ImportedSpheres(b)
    decreases |b|
  {
    if b == [] {
      assert a + b == a;
    } else {
      var b', o := b[..|b| - 1], b[|b| - 1];
      var ab := a + b;
      assert ab[..|ab| - 1] == a + b';
      assert ab[|ab| - 1] == o;
      assert ImportedSpheres(ab) == ImportedSpheres(a + b') + MeshSphere(o).ToSeq();
      ImportedSpheresAppend(a, b');
      assert ImportedSpheres(b) == ImportedSpheres(b') + MeshSphere(o).ToSeq();
    }
  }

  /** Import is compositional: the objects of `a + b` give the lights of `a` followed by those of `b`. */
  lemma {:induction false} ImportedLightsAppend(a: seq<Json>, b: seq<Json>)
    ensures ImportedLights(a + b) == ImportedLights(a) + ImportedLights(b)
    decreases |b|
  {
    if b == [] {
      assert a + b == a;
    } else {
      var b', o := b[..|b| - 1], b[|b| - 1];
      var ab := a + b;
      assert ab[..|ab| - 1] == a + b';
      assert ab[|ab| - 1] == o;
      assert ImportedLights(ab) == ImportedLights(a + b') + LampLight(o).ToSeq();
      ImportedLightsAppend(a, b');
      assert ImportedLights(b) == ImportedLights(b') + LampLight(o).ToSeq();
    }
  }

  /** One more object extends the import by exactly its own contribution. */
  lemma ImportStep(objs: seq<Json>, i: nat)
    requires i < |objs|
    ensures ImportedSpheres(objs[..i + 1]) == ImportedSpheres(objs[..i]) + MeshSphere(objs[i]).ToSeq()
    ensures ImportedLights(objs[..i + 1]) == ImportedLights(objs[..i]) + LampLight(objs[i]).ToSeq()
  {
    assert objs[..i + 1][..i] == objs[..i];
  }

  /** A single object contributes exactly what `MeshSphere` and `LampLight` say. */
  lemma ImportedSingle(o: Json)
    ensures ImportedSpheres([o]) == MeshSphere(o).ToSeq()
    ensures ImportedLights([o]) == LampLight(o).ToSeq()
  {
    assert [o][..0] == [];
  }

  /** Spheres and lights together never outnumber the objects. */
  lemma {:induction false} ImportedTotalBound(objs: seq<Json>)
    ensures |ImportedSpheres(objs)| + |ImportedLights(objs)| <= |objs|
  {
    if objs != [] {
      ImportedTotalBound(objs[..|objs| - 1]);
      AtMostOneContribution(objs[|objs| - 1]);
    }
  }

  /**
   * `Scene::from_blender_json`: a new scene holding only the imported spheres
   * and lights, with the default background.
   */
  method FromBlenderJson(doc: Json) returns (scene: Scene)
    ensures scene == NewScene().(spheres := ImportedSpheres(Objects(doc)), lights := ImportedLights(Objects(doc)))
  {
    scene := NewScene();
    var objects: seq<Json> := [];
    match GetArray(doc, "objects") {
      case Some(a) => objects := a;
      case None =>
    }
    var i := 0;
    while i < |objects|
      invariant 0 <= i <= |objects|
      invariant scene == NewScene().(spheres := ImportedSpheres(objects[..i]), lights := ImportedLights(objects[..i]))
    {
      var obj := objects[i];
      ImportStep(objects, i);
      AtMostOneContribution(obj);
      match GetStr(obj, "type") {
        case Some(objType) =>
          if objType == "MESH" {
            match (GetArray(obj, "location"), GetArray(obj, "scale")) {
              case (Some(location), Some(scale)) =>
                if |location| >= 3 && |scale| >= 3 {
                  var center := Vec3(NumberOr(location[0], 0.0), NumberOr(location[1], 0.0), NumberOr(location[2], 0.0));
                  var radius := NumberOr(scale[0], 1.0);
                  scene := AddSphere(scene, Sphere(center, radius, MeshMaterial));
                }
              case _ =>
            }
          } else if objType == "LIGHT" {
            match GetArray(obj, "location") {
              case Some(location) =>
                if |location| >= 3 {
                  var position := Vec3(NumberOr(location[0], 0.0), NumberOr(location[1], 0.0), NumberOr(location[2], 0.0));
                  var intensity := GetNumber(obj, "energy").GetOr(DefaultEnergy);
                  scene := AddLight(scene, Light(position, LightColor, intensity));
                }
              case None =>
            }
          }
        case None =>
      }
      i := i + 1;
    }
    assert objects[..|objects|] == objects;
  }

  /** A document without an `objects` array imports as an empty scene. */
  lemma NoObjectsEmptyScene(doc: Json)
    requires GetArray(doc, "objects").None?
    ensures NewScene().(spheres := ImportedSpheres(Objects(doc)), lights := ImportedLights(Objects(doc))) == NewScene()
  {
  }
}
