/** Surface materials and their constructors (`src/material.rs`). */
module Materials {
  import opened Vectors

  datatype MaterialKind = Lambertian | Metal | Dielectric

  /** Roughness matters only to metals and the index of refraction only to dielectrics. */
  datatype Material = Material(kind: MaterialKind, albedo: Vec3, roughness: real, ior: real)

  /** `Material::new`: every field exactly as given. */
  function NewMaterial(kind: MaterialKind, albedo: Vec3, roughness: real, ior: real): (r: Material)
    ensures r.kind == kind && r.albedo == albedo && r.roughness == roughness && r.ior == ior
  {
    Material(kind, albedo, roughness, ior)
  }

  function LambertianMaterial(albedo: Vec3): (r: Material)
    ensures r.kind == Lambertian && r.albedo == albedo
    ensures r.roughness == 0.0 && r.ior == 1.0
  {
    NewMaterial(Lambertian, albedo, 0.0, 1.0)
  }

  /** A metal's roughness is clamped into `[0, 1]`; in-range values are kept. */
  function MetalMaterial(albedo: Vec3, roughness: real): (r: Material)
    ensures r.kind == Metal && r.albedo == albedo && r.ior == 1.0
    ensures 0.0 <= r.roughness <= 1.0
    ensures 0.0 <= roughness <= 1.0 ==> r.roughness == roughness
    ensures roughness < 0.0 ==> r.roughness == 0.0
    ensures roughness > 1.0 ==> r.roughness == 1.0
  {
    NewMaterial(Metal, albedo, Clamp(roughness, 0.0, 1.0), 1.0)
  }

  function DielectricMaterial(ior: real): (r: Material)
    ensures r.kind == Dielectric && r.albedo == Vec3(1.0, 1.0, 1.0)
    ensures r.roughness == 0.0 && r.ior == ior
  {
    NewMaterial(Dielectric, Vec3(1.0, 1.0, 1.0), 0.0, ior)
  }

  /** There is no emissive kind: an "emissive" material is a Lambertian one with the colour as albedo. */
  function EmissiveMaterial(color: Vec3): (r: Material)
    ensures r == LambertianMaterial(color)
  {
    NewMaterial(Lambertian, color, 0.0, 1.0)
  }
}
