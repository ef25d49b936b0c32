# Ray tracer scene store: a Dafny model

This project models the host side of a WebGL ray tracer written in Rust
and compiled to WebAssembly. It covers the discrete bookkeeping that
decides what the GPU shader is given:

- the scene store: insertion-ordered collections of spheres, planes, boxes,
  cylinders, triangles and lights, plus a background colour;
- the per-frame upload (`set_uniforms`): how many items of each kind reach
  the shader and which ones;
- the importer for the simplified Blender document;
- the material constructors;
- the camera state machine (yaw/pitch angles, the derived basis, the target);
- the `Raytracer` API the page calls: sphere add/get/set/remove with index
  guards, scene reset and randomisation, camera controls, resize, and the
  frame-time window kept by `render`.

The shader's ray-tracing maths is not part of this model.

Modelling choices:

- Everything is an immutable datatype, and every operation is a pure
  function or a method that returns the new state.
- `f32` and `f64` values are modelled as `real`. Rounding, NaN and
  infinities are not modelled.
- `sqrt`, `sin`, `cos`, `asin`, `atan2`, and the value of a floating-point
  division by zero, are fields of a `MathLib` record (`vectors.dfy`). They
  stay uninterpreted. A property that needs a fact about one of them (say
  `sqrt(1) = 1`) names that fact as a premise.
- `to_radians` multiplies by pi / 180 with pi as a real number; the rounding
  of the `f32` constant and of the product is not modelled.
- The clock (`Date::now`) and the random source (`Math.random`) are
  parameters. A clock reading is a `real` in milliseconds. The random draws
  are a sequence of `SphereDraw` records.
- The JSON text parser is not modelled. The Blender importer takes an
  already-parsed `Json` value. Objects are maps with unique keys.

Modules follow the source files: `Vectors` (`src/math.rs`), `Materials`
(`src/material.rs`), `Cameras` (`src/camera.rs`) and `Host` (`src/lib.rs`).
`src/scene.rs` is split in two: `Scenes` holds the store and the upload,
and `BlenderImport` holds the importer. There are two small
support modules: `Options` and `JsonValues`.

Behaviour of the code worth knowing, which the model keeps:

- There is no capacity error: `add_*` always appends. The limits
  (10 spheres, 5 planes, 5 boxes, 5 cylinders, 10 triangles, 4 lights)
  only cut off what is uploaded. `Scenes.InsertBeyondCapacityNotUploaded`
  states this.
- There is no index error either. Out-of-range sphere indices are silently
  ignored by the setters and `remove_sphere`; the getters return (0, 0, 0)
  or 1.0.
- `Camera::new` takes a target but never uses it: `update_vectors`
  overwrites it with position + forward (`Cameras.NewCameraIgnoresTarget`).
  So the default camera at (0, 2, 5) looks along -Z, not at the origin.
- `render` in `src/lib.rs` calls `get_forward`, `get_right` and `get_up`,
  but `src/camera.rs` does not define them. The model reads the camera's
  `forward`, `right` and `up` fields directly.
- `move_relative` walks forward along (sin yaw, 0, cos yaw). The camera's
  horizontal view direction is (sin yaw, _, -cos yaw). At yaw 0, "forward"
  therefore moves along +Z while the camera looks along -Z, although the
  comment at `src/camera.rs:60` says yaw 0 should point along -Z. The model
  keeps the code's formula.

## Model

| member | source | states |
|---|---|---|
| Vectors.Normalize | src/math.rs:31-38 | normalising multiplies every component by one and the same positive factor, the reciprocal length (or 1 when the length is not positive) |
| Vectors.NormalizeKeepsUnit | src/math.rs:31-38 | a vector whose length is already 1 comes back unchanged |
| Vectors.NormalizeKeepsZeros | src/math.rs:31-38 | a component of the result is zero exactly when the same component of the input is zero |
| Vectors.NormalizeKeepsOrthogonal | src/math.rs:31-38 | normalising either or both sides of a dot product does not change whether the dot product is zero |
| Vectors.Cross | src/math.rs:44-50 | the cross product is orthogonal to both of its arguments |
| Materials.NewMaterial | src/material.rs:20-27 | `Material::new` stores kind, albedo, roughness and ior exactly as given |
| Materials.LambertianMaterial | src/material.rs:29-31 | kind Lambertian, the given albedo, roughness 0, ior 1 |
| Materials.MetalMaterial | src/material.rs:33-35 | kind Metal, ior 1; the roughness is the argument clamped into [0, 1]: kept when in range, 0 below, 1 above |
| Materials.DielectricMaterial | src/material.rs:37-39 | kind Dielectric, white albedo, roughness 0, the given ior |
| Materials.EmissiveMaterial | src/material.rs:41-43 | equals the Lambertian material of the same colour, field for field |
| Scenes.NewPlane | src/scene.rs:32-38 | `Plane::new` keeps point and material and always stores the normal scaled by the positive normalising factor, so its direction is kept; a normal that already has length 1 is kept as given |
| Scenes.TriangleNormal | src/scene.rs:95-99 | the normal is edge1 × edge2 scaled by a positive factor, so its sign follows the winding order, and it is orthogonal to both edges from `v0` |
| Scenes.NewScene | src/scene.rs:131-141 | all six collections are empty and the background is (0.5, 0.7, 1.0) |
| Scenes.AddSphere | src/scene.rs:143-145 | appends the sphere at the end of the sphere list; nothing else in the scene changes |
| Scenes.AddPlane | src/scene.rs:147-149 | appends at the end of the plane list; nothing else changes |
| Scenes.AddBox | src/scene.rs:151-153 | appends at the end of the box list; nothing else changes |
| Scenes.AddCylinder | src/scene.rs:155-157 | appends at the end of the cylinder list; nothing else changes |
| Scenes.AddTriangle | src/scene.rs:159-161 | appends at the end of the triangle list; nothing else changes |
| Scenes.AddLight | src/scene.rs:163-165 | appends at the end of the light list; nothing else changes |
| Scenes.SetBackground | src/scene.rs:167-169 | replaces only the background colour; every collection keeps its size and contents |
| Scenes.InsertGrowsOneCollection | src/scene.rs:143-165 | each `add_*` grows exactly its own collection by one, with no capacity check, and leaves the background alone |
| Scenes.MaterialCode | src/scene.rs:207-211 | the material-kind code is always 0, 1 or 2 |
| Scenes.MaterialCodeInjective | src/scene.rs:207-211 | two kinds get the same code exactly when they are the same kind |
| Scenes.Upload | src/scene.rs:177-182 | `iter().take(cap)`: `min(len, cap)` records, record `i` made from item `i` |
| Scenes.SetUniforms | src/scene.rs:171-452 | for each kind, the count sent is `min(len, cap)` (10, 5, 5, 5, 10, 4), there are exactly that many records, and record `i` comes from item `i` in insertion order; the background is sent as is |
| Scenes.InsertBeyondCapacityNotUploaded | src/scene.rs:171-452 | adding to a collection already at its upload limit leaves the whole upload unchanged |
| Scenes.InsertKeepsUploadedPrefix | src/scene.rs:171-418 | adding an item never displaces uploaded records: the old records of every kind stay a prefix of the new ones |
| Scenes.PlaneUploadIgnoresRoughnessAndIor | src/scene.rs:228-264 | plane records do not depend on a plane material's roughness or ior; only point, normal, albedo and kind code are sent |
| BlenderImport.NumberOr | src/scene.rs:485-489 | a numeric array entry is read as its value and anything else as the default |
| BlenderImport.MeshSphere | src/scene.rs:477-496 | an object gives a sphere exactly when its `type` is the string "MESH" and its `location` and `scale` arrays both have at least 3 entries. The centre is `location[0..3]` (non-numbers read as 0), the radius is `scale[0]` (1 if not a number), and the material is grey Lambertian 0.7 |
| BlenderImport.LampLight | src/scene.rs:497-514 | an object gives a light exactly when its `type` is "LIGHT" and its `location` has at least 3 entries; the colour is white and the intensity is `energy`, or 10 when that is absent or not a number |
| BlenderImport.AtMostOneContribution | src/scene.rs:475-516 | no object gives both a sphere and a light; an object without a string `type` of "MESH" or "LIGHT" gives nothing |
| BlenderImport.ImportedSpheres | src/scene.rs:473-496 | the imported spheres never outnumber the objects and all carry the mesh material |
| BlenderImport.ImportedLights | src/scene.rs:497-514 | the imported lights never outnumber the objects and are all white |
| BlenderImport.ImportedSpheresAppend | src/scene.rs:474 | importing `a + b` gives the spheres of `a` followed by those of `b`, so output order follows input order |
| BlenderImport.ImportedLightsAppend | src/scene.rs:474 | the same for lights |
| BlenderImport.ImportStep | src/scene.rs:474-518 | one more object extends the import by exactly its own sphere or light |
| BlenderImport.ImportedSingle | src/scene.rs:475-516 | a single object contributes exactly what `MeshSphere` and `LampLight` give |
| BlenderImport.ImportedTotalBound | src/scene.rs:474-518 | spheres and lights together never outnumber the objects |
| BlenderImport.FromBlenderJson | src/scene.rs:464-522 | the result is a new scene holding only the imported spheres and lights, in document order, with the default background; planes, boxes, cylinders and triangles are empty |
| BlenderImport.NoObjectsEmptyScene | src/scene.rs:473 | a document without an `objects` array imports as the empty default scene |
| Cameras.RightDirection | src/camera.rs:118 | the right vector is always horizontal |
| Cameras.OrientedBasisOrthogonal | src/camera.rs:100-122 | a recomputed basis has no roll: right is horizontal and orthogonal to forward and to the world up |
| Cameras.UpdateVectors | src/camera.rs:100-122 | afterwards forward, right and up are those the angles determine, up is (0, 1, 0), and target = position + forward; position, angles and lens are untouched |
| Cameras.NewCamera | src/camera.rs:18-35 | the new camera is level (yaw 0, pitch 0), has a 45° field of view and clip planes 0.1 and 100, and has its basis and target recomputed |
| Cameras.NewCameraIgnoresTarget | src/camera.rs:18-35 | the target argument of the constructor has no effect on the result |
| Cameras.MoveRelative | src/camera.rs:49-74 | only the position changes (yaw, pitch, forward, right, up and target stay), and its height changes by exactly the `up` argument, whatever the pitch |
| Cameras.MoveRelativeHorizontalDistance | src/camera.rs:49-74 | when sin² + cos² = 1 holds at the yaw, the horizontal step has squared length `forward² + right²` |
| Cameras.MoveRelativeAtYawZero | src/camera.rs:49-74 | at yaw 0 a forward step moves along +Z and a right step along +X, while the view vector points along -Z |
| Cameras.MoveAbsolute | src/camera.rs:76-78 | only the position changes, to the given point |
| Cameras.MovesLeaveTargetBehind | src/camera.rs:76-78 | moving keeps the orientation but does not re-aim, so a camera that moves no longer has target = position + forward |
| Cameras.Rotate | src/camera.rs:80-90 | yaw increases by the delta without bound; pitch is the old pitch plus the delta, clamped to ±89°; the basis is recomputed and position and lens are untouched |
| Cameras.SetAspectRatio | src/camera.rs:92-94 | only the aspect ratio changes |
| Cameras.SetFov | src/camera.rs:96-98 | only the field of view changes, to the given degrees in radians |
| Cameras.LensChangesKeepAim | src/camera.rs:92-98 | changing aspect ratio or field of view keeps the camera oriented and aimed |
| Cameras.SetPosition | src/camera.rs:150-153 | the position is set, yaw, pitch, field of view, aspect ratio and clip planes stay, the basis of an oriented camera stays, and target = position + forward again |
| Cameras.SetTargetAsWritten | src/camera.rs:159-168 | as written: yaw = atan2(d.z, d.x) and pitch = asin(d.y) (not clamped) for the unit direction `d` to the target; the position stays and the target becomes position + forward |
| Cameras.LookAtAsWritten | src/camera.rs:124-133 | `look_at` behaves exactly like `set_target` |
| Cameras.SetTargetAsWrittenTurnsAside | src/camera.rs:164 | under the usual laws of the trig functions at these angles, the as-written camera faces (d.z, d.y, -d.x), not `d`, unless it looks straight up or down |
| Cameras.SetTargetAsWrittenStraightAhead | src/camera.rs:164 | from the origin with a target at (0, 0, -1), the as-written camera ends up facing (-1, 0, 0) |
| Cameras.SetTarget | src/camera.rs:159-168 | corrected yaw = atan2(d.x, -d.z), in the convention `update_vectors` uses; otherwise as written |
| Cameras.LookAt | src/camera.rs:124-133 | the corrected `look_at` is the corrected `set_target` |
| Cameras.SetTargetFacesTarget | src/camera.rs:159-168 | under the same laws, the corrected camera's forward is the unit direction to the target, and the target lies on the forward ray |
| Host.AspectRatio | src/lib.rs:239-244 | the aspect ratio times the height is the width, whenever the height is non-zero |
| Host.Ground | src/lib.rs:277-281 | the ground plane passes through (0, -1, 0) with a grey Lambertian material and, when `sqrt(1) = 1`, has normal (0, 1, 0) |
| Host.NewRaytracer | src/lib.rs:45-137 | the default scene holds 4 spheres, 1 plane and 3 lights; the camera is `Camera::new` at (0, 2, 5): level (yaw 0, pitch 0), with a 45° lens and clip planes 0.1 and 100, oriented and aimed; the frame-time window is empty and the frame rate is 0 |
| Host.Slide | src/lib.rs:145-148 | the newest duration is last; below 60 entries it is appended, otherwise the oldest is dropped first; a window of at most 60 entries stays within 60 |
| Host.FrameRate | src/lib.rs:150-154 | the frame rate times the mean duration is 1000 when the mean is non-zero |
| Host.Render | src/lib.rs:140-221 | a frame slides the window and updates the frame rate and clock; scene and camera are unchanged; the renderer gets the resolution (width, height), the camera position and basis, the time in seconds, and exactly `set_uniforms` of the scene |
| Host.RenderSlides | src/lib.rs:145-148 | a window of at most 60 entries becomes the last 60 of itself extended by the new duration |
| Host.RenderAllWindow | src/lib.rs:145-148 | after any number of frames, the window holds exactly the most recent 60 durations (or all of them), oldest first |
| Host.WindowSizeAfterFrames | src/lib.rs:130-148 | starting from a new renderer, `n` frames leave `min(n, 60)` entries in the window |
| Host.DecodeMaterialKind | src/lib.rs:258-262 | code 1 decodes to Metal, code 2 to Dielectric, and every other `u32` to Lambertian |
| Host.DecodeInvertsMaterialCode | src/lib.rs:258-262 | decoding the renderer's code of a kind gives that kind back, for all three kinds |
| Host.MaterialCodeInvertsDecode | src/lib.rs:258-262 | every code below 3 is the renderer's code of the kind it decodes to |
| Host.HostMaterial | src/lib.rs:267 | a host-made material has the decoded kind, the given colour, roughness 0.1 and ior 1.5 |
| Host.GetSphereCount | src/lib.rs:296-298 | counts every sphere in the store, including those past the upload limit, of which only the first 10 are sent |
| Host.AddSphere | src/lib.rs:247-271 | the sphere count goes up by exactly one; earlier spheres are unchanged; the new sphere is last, with the given centre and radius and the host material; nothing else changes |
| Host.GetSpherePosition | src/lib.rs:301-308 | the centre of sphere `index` as three numbers, or (0, 0, 0) when the index is out of range |
| Host.GetSphereRadius | src/lib.rs:325-331 | the radius of sphere `index`, or 1.0 when the index is out of range |
| Host.SetSpherePosition | src/lib.rs:311-315 | out of range: no change; in range: only that sphere's centre changes, and count, other spheres and everything else stay |
| Host.SetSphereRadius | src/lib.rs:318-322 | out of range: no change; in range: only that sphere's radius changes |
| Host.SetSphereMaterial | src/lib.rs:334-351 | out of range: no change; in range: only that sphere's material changes, to the decoded kind with roughness 0.1 and ior 1.5 |
| Host.GetAfterSetPosition | src/lib.rs:301-315 | reading a position back after setting it gives the value set; other indices read as before |
| Host.GetAfterSetRadius | src/lib.rs:318-331 | reading a radius back after setting it gives the value set; other indices read as before |
| Host.RemoveSphere | src/lib.rs:354-358 | in range: one fewer sphere, earlier ones stay, later ones shift down by one; out of range: no change; nothing else changes |
| Host.RemoveUndoesAdd | src/lib.rs:354-358 | removing the sphere just added restores the previous state exactly |
| Host.ClearScene | src/lib.rs:274-282 | exactly one plane (the ground) and no spheres, boxes, cylinders, triangles or lights; default background; camera and frame state untouched |
| Host.CastToU32 | src/lib.rs:387 | the float-to-`u32` cast truncates in-range values, sends negatives to 0 and saturates at 4294967295 |
| Host.DrawnSphereBounds | src/lib.rs:381-392 | with draws in [0, 1): sphere `i` is within 0.75 of x = 2(i-4), on y = 0, with z in (-6, -2] and radius in [0.3, 0.8). Each third of the kind draw gives one material kind |
| Host.RandomScene | src/lib.rs:377-411 | afterwards there are exactly 8 spheres (sphere `i` built from draw `i`), the ground plane, the 3 standard lights and nothing else; camera and frame state are untouched |
| Host.MoveCamera | src/lib.rs:229-231 | the camera becomes `move_relative` of the old one: only its position changes, and its height rises by exactly `up`; nothing outside the camera changes |
| Host.RotateCamera | src/lib.rs:234-236 | the camera becomes `rotate` of the old one: yaw accumulates, pitch is the clamped sum within ±89°, the camera is re-oriented and re-aimed, position and lens stay; nothing outside the camera changes |
| Host.SetCameraPosition | src/lib.rs:361-363 | the camera becomes `set_position` of the old one: it moves to the point, keeps its angles, its basis (when oriented) and its lens, and is re-aimed; nothing outside the camera changes |
| Host.GetCameraPosition | src/lib.rs:366-369 | the camera position as three numbers |
| Host.SetCameraTarget | src/lib.rs:372-374 | the camera becomes the as-written `set_target` of the old one (yaw = atan2(d.z, d.x)); position and lens are kept and the camera is re-aimed; nothing outside the camera changes |
| Host.SetCameraTargetCorrected | src/lib.rs:372-374 | the same call through the corrected `set_target`, which faces the target |
| Host.Resize | src/lib.rs:239-244 | stores the new size and sets the camera's aspect ratio to width/height; scene, frame state and the rest of the camera stay |

## Left out

- WebGL and wasm plumbing is not modelled: context creation, shader
  compilation, uniform locations, and the `gl` calls in `set_uniforms` and
  `render`. The model keeps only which records would be uploaded. So
  `Raytracer::new` cannot fail in the model.
- The GLSL shader (intersection, materials, path integration, tone mapping)
  is not part of this model.
- The vector algebra of `src/math.rs` beyond what the scene and camera use
  is not modelled: `reflect`, `refract`, `Mat4`, `random_in_unit_sphere`.
  These are floating-point numerics or depend on the random source.
- `view_matrix`, `projection_matrix` and `get_ray_direction` are not
  modelled: they are floating-point maths over `tan` and matrices.
- `to_json`, `from_json`, `load_scene_json` and `export_scene_json` are not
  modelled: they are thin wrappers around the JSON serializer. The text
  parse at the start of `from_blender_json`, and its parse error, are left
  out for the same reason.
- `get_fps`, `position`, `get_position` and `get_target` are not modelled
  separately: they only read a field.
- Floating-point rounding, NaN, infinity and `f32` overflow are not
  modelled. A division by zero gives the library's opaque value.
- Host.CastToU32: the cast takes a real. Whatever it returns for NaN is
  not modelled.
- Vectors.Normalize: the length is an uninterpreted square root. So a
  vector is known to be unit-length only under a stated premise such as
  `sqrt(1) = 1`.

## Findings

| source | as written | input that shows it | evidently intended | confidence | as-written member | corrected member |
|---|---|---|---|---|---|---|
| src/camera.rs:164 (and :129 in `look_at`) | yaw = atan2(d.z, d.x). This suits a forward vector (cos yaw, _, sin yaw), but `update_vectors` builds (sin yaw, _, -cos yaw) | camera at the origin, `set_target((0, 0, -1))`: the camera ends up facing (-1, 0, 0) | yaw = atan2(d.x, -d.z), so that the camera faces its target | high, not executed | Cameras.SetTargetAsWrittenTurnsAside, Cameras.SetTargetAsWrittenStraightAhead | Cameras.SetTarget, Cameras.LookAt, proved by Cameras.SetTargetFacesTarget; Host.SetCameraTargetCorrected is the host call with the fix (Host.SetCameraTarget keeps the code as written) |
