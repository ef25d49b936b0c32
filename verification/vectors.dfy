/**
 * Three-component vectors (the source's `Vec3` of `f32`, here over `real`)
 * and the floating-point library functions the model leaves uninterpreted.
 */
module Vectors {

  datatype Vec3 = Vec3(x: real, y: real, z: real)

  const Zero: Vec3 := Vec3(0.0, 0.0, 0.0)

  function Add(a: Vec3, b: Vec3): Vec3 {
    Vec3(a.x + b.x, a.y + b.y, a.z + b.z)
  }

  function Sub(a: Vec3, b: Vec3): Vec3 {
    Vec3(a.x - b.x, a.y - b.y, a.z - b.z)
  }

  function Scale(a: Vec3, s: real): Vec3 {
    Vec3(a.x * s, a.y * s, a.z * s)
  }

  function Dot(a: Vec3, b: Vec3): real {
    a.x * b.x + a.y * b.y + a.z * b.z
  }

  function Cross(a: Vec3, b: Vec3): (r: Vec3)
    ensures Dot(r, a) == 0.0 && Dot(r, b) == 0.0
  {
    Vec3(a.y * b.z - a.z * b.y, a.z * b.x - a.x * b.z, a.x * b.y - a.y * b.x)
  }

  function LengthSquared(v: Vec3): real {
    Dot(v, v)
  }

  /** `f32::clamp` over reals: the nearest point of `[lo, hi]`. */
  function Clamp(v: real, lo: real, hi: real): (r: real)
    requires lo <= hi
    ensures lo <= r <= hi
    ensures lo <= v <= hi ==> r == v
    ensures v < lo ==> r == lo
    ensures hi < v ==> r == hi
  {
    if v < lo then lo else if hi < v then hi else v
  }

  /**
   * The math library the source calls into: square root, trigonometry and
   * the non-finite value an `f32` division by zero produces. None of them is
   * interpreted; a property that depends on one names the fact it needs.
   */
  datatype MathLib = MathLib(
    sqrt: real -> real,
    sin: real -> real,
    cos: real -> real,
    asin: real -> real,
    atan2: (real, real) -> real,
    divByZero: real -> real)

  /** Floating-point division: `a / b`, or the library's non-finite value when `b` is zero. */
  function Divide(a: real, b: real, m: MathLib): (r: real)
    ensures b != 0.0 ==> r * b == a
  {
    if b != 0.0 then a / b else m.divByZero(a)
  }

  function Length(v: Vec3, m: MathLib): real {
    m.sqrt(LengthSquared(v))
  }

  /** The positive factor `Vec3::normalize` multiplies by: the reciprocal length, or 1 when the length is not positive. */
  function NormalizeFactor(v: Vec3, m: MathLib): (s: real)
    ensures s > 0.0
  {
    var len := Length(v, m);
    if len > 0.0 then 1.0 / len else 1.0
  }

  /**
   * `Vec3::normalize`: divides by the length when the length is positive,
   * otherwise returns the vector unchanged.
   */
  function Normalize(v: Vec3, m: MathLib): (r: Vec3)
    ensures r == Scale(v, NormalizeFactor(v, m))
  {
    var len := Length(v, m);
    if len > 0.0 then Vec3(v.x / len, v.y / len, v.z / len) else v
  }

  /** A vector that already has length 1 comes back unchanged. */
  lemma NormalizeKeepsUnit(v: Vec3, m: MathLib)
    requires Length(v, m) == 1.0
    ensures Normalize(v, m) == v
  {
  }

  /** Normalising never turns a zero component into a non-zero one, or the other way round. */
  lemma NormalizeKeepsZeros(v: Vec3, m: MathLib)
    ensures var r := Normalize(v, m);
      (r.x == 0.0 <==> v.x == 0.0) && (r.y == 0.0 <==> v.y == 0.0) && (r.z == 0.0 <==> v.z == 0.0)
  {
  }

  /** Scaling a vector by a positive factor keeps it orthogonal to whatever it was orthogonal to. */
  lemma ScaleKeepsOrthogonal(a: Vec3, s: real, b: Vec3)
    requires s > 0.0
    ensures Dot(Scale(a, s), b) == 0.0 <==> Dot(a, b) == 0.0
  {
    assert Dot(Scale(a, s), b) == s * Dot(a, b);
  }

  /** Normalising either side of a dot product does not change whether it vanishes. */
  lemma {:induction false} NormalizeKeepsOrthogonal(a: Vec3, b: Vec3, m: MathLib)
    ensures Dot(Normalize(a, m), b) == 0.0 <==> Dot(a, b) == 0.0
    ensures Dot(Normalize(a, m), Normalize(b, m)) == 0.0 <==> Dot(a, b) == 0.0
  {
    var s := NormalizeFactor(a, m);
    var t := NormalizeFactor(b, m);
    ScaleKeepsOrthogonal(a, s, b);
    ScaleKeepsOrthogonal(b, t, Normalize(a, m));
    assert Dot(Normalize(a, m), Normalize(b, m)) == Dot(Normalize(b, m), Normalize(a, m));
    assert Dot(b, Normalize(a, m)) == Dot(Normalize(a, m), b);
  }
}
