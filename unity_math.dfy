/**
 * The small part of Unity's math library that the locomotion scripts use, over
 * unbounded reals instead of 32-bit floats.  Lerp, InverseLerp and Vector3.Lerp
 * are written out as Unity defines them (their parameter is clamped to [0, 1]);
 * the transcendental and engine functions (Mathf.Sin, Mathf.Cos, the magnitude
 * of a vector, Vector3.Angle, Quaternion.Euler, eulerAngles, Quaternion.Slerp)
 * and the animation curves are left uninterpreted: they travel as the fields of
 * a UnityLib record, and a lemma that needs a fact about one of them says so in
 * its requires clause (SinCosBounded, IsMagnitude).
 */
module UnityMath {

  datatype Vec3 = Vec3(x: real, y: real, z: real)

  /** Unity's Quaternion, kept as its four components; its algebra is not modelled. */
  datatype Quaternion = Quaternion(x: real, y: real, z: real, w: real)

  const Zero: Vec3 := Vec3(0.0, 0.0, 0.0)
  const Identity: Quaternion := Quaternion(0.0, 0.0, 0.0, 1.0)

  /** Mathf.PI, the float nearest to pi. */
  const PI: real := 3.14159274
  /** Mathf.Deg2Rad. */
  const Deg2Rad: real := PI / 180.0
  /** Below this magnitude Vector3.normalized returns the zero vector. */
  const NormalizeEpsilon: real := 0.00001

  /** The engine functions the scripts call and this model does not interpret. */
  datatype UnityLib = UnityLib(
    sin: real -> real,
    cos: real -> real,
    magnitude: Vec3 -> real,
    angle: (Vec3, Vec3) -> real,
    euler: Vec3 -> Quaternion,
    eulerAngles: Quaternion -> Vec3,
    slerp: (Quaternion, Quaternion, real) -> Quaternion)

  function Add(a: Vec3, b: Vec3): Vec3 { Vec3(a.x + b.x, a.y + b.y, a.z + b.z) }

  function Sub(a: Vec3, b: Vec3): Vec3 { Vec3(a.x - b.x, a.y - b.y, a.z - b.z) }

  /** v * k */
  function Scale(v: Vec3, k: real): Vec3 { Vec3(v.x * k, v.y * k, v.z * k) }

  function Abs(x: real): real { if x < 0.0 then -x else x }

  /** Mathf.Sin and Mathf.Cos never leave [-1, 1]. */
  ghost predicate SinCosBounded(lib: UnityLib) {
    && (forall t :: -1.0 <= lib.sin(t) <= 1.0)
    && (forall t :: -1.0 <= lib.cos(t) <= 1.0)
  }

  /** What the model assumes of Vector3.magnitude: a norm. */
  ghost predicate IsMagnitude(lib: UnityLib) {
    && (forall v :: lib.magnitude(v) >= 0.0)
    && (forall v :: lib.magnitude(v) == 0.0 ==> v == Zero)
    && (forall v, k :: lib.magnitude(Scale(v, k)) == Abs(k) * lib.magnitude(v))
  }

  /** Vector3.Distance(a, b), which Unity defines as (a - b).magnitude. */
  function Distance(a: Vec3, b: Vec3, lib: UnityLib): real {
    lib.magnitude(Sub(a, b))
  }

  /** Vector3.normalized: the unit vector along v, or zero for a vector too short to normalise. */
  function Normalized(v: Vec3, lib: UnityLib): (u: Vec3)
    ensures lib.magnitude(v) <= NormalizeEpsilon ==> u == Zero
    ensures IsMagnitude(lib) && lib.magnitude(v) > NormalizeEpsilon ==> lib.magnitude(u) == 1.0
  {
    var m := lib.magnitude(v);
    if m > NormalizeEpsilon then Scale(v, 1.0 / m) else Zero
  }

  /** Mathf.Clamp01 */
  function Clamp01(v: real): (r: real)
    ensures 0.0 <= r <= 1.0
    ensures 0.0 <= v <= 1.0 ==> r == v
    ensures v <= 0.0 ==> r == 0.0
    ensures v >= 1.0 ==> r == 1.0
  {
    if v < 0.0 then 0.0 else if v > 1.0 then 1.0 else v
  }

  /** Mathf.LerpUnclamped: a + (b - a) * s. */
  function LerpUnclamped(a: real, b: real, s: real): real {
    a + (b - a) * s
  }

  /** Mathf.Lerp: LerpUnclamped with the parameter clamped to [0, 1]. */
  function Lerp(a: real, b: real, t: real): (r: real)
    ensures a <= b ==> a <= r <= b
    ensures b <= a ==> b <= r <= a
    ensures t <= 0.0 ==> r == a
    ensures t >= 1.0 ==> r == b
  {
    FractionBetween(a, b, Clamp01(t));
    LerpUnclamped(a, b, Clamp01(t))
  }

  /** For s in [0, 1] LerpUnclamped stays between a and b, at a for s = 0 and at b for s = 1. */
  lemma FractionBetween(a: real, b: real, s: real)
    requires 0.0 <= s <= 1.0
    ensures a <= b ==> a <= LerpUnclamped(a, b, s) <= b
    ensures b <= a ==> b <= LerpUnclamped(a, b, s) <= a
    ensures s == 0.0 ==> LerpUnclamped(a, b, s) == a
    ensures s == 1.0 ==> LerpUnclamped(a, b, s) == b
  {
    var d := b - a;
    if d >= 0.0 {
      MulNonneg(d, s);
      MulNonneg(d, 1.0 - s);
    } else {
      MulNonneg(-d, s);
      MulNonneg(-d, 1.0 - s);
    }
  }

  lemma MulNonneg(x: real, y: real)
    requires x >= 0.0 && y >= 0.0
    ensures x * y >= 0.0
  {
  }

  /** Mathf.InverseLerp: where value sits between a and b, clamped to [0, 1]; 0 when a == b. */
  function InverseLerp(a: real, b: real, value: real): (r: real)
    ensures 0.0 <= r <= 1.0
    ensures a == b ==> r == 0.0
    ensures a != b && value == a ==> r == 0.0
    ensures a != b && value == b ==> r == 1.0
  {
    if a != b then
      var q := (value - a) / (b - a);
      DivSelf(b - a);
      Clamp01(q)
    else 0.0
  }

  /** Vector3.Lerp: a + (b - a) * Clamp01(t). */
  function LerpVec(a: Vec3, b: Vec3, t: real): (r: Vec3)
    ensures t <= 0.0 ==> r == a
    ensures t >= 1.0 ==> r == b
    ensures 0.0 <= t <= 1.0 ==> Sub(r, a) == Scale(Sub(b, a), t)
  {
    Add(a, Scale(Sub(b, a), Clamp01(t)))
  }

  lemma DivSelf(d: real)
    requires d != 0.0
    ensures d / d == 1.0
  {
  }

  lemma ScaleScale(v: Vec3, a: real, b: real)
    ensures Scale(Scale(v, a), b) == Scale(v, a * b)
  {
    assert (v.x * a) * b == v.x * (a * b);
    assert (v.y * a) * b == v.y * (a * b);
    assert (v.z * a) * b == v.z * (a * b);
  }

  /** Scaling by 1/m and then by k is scaling by k/m. */
  lemma ScaleAlong(v: Vec3, m: real, k: real)
    requires m != 0.0
    ensures Scale(Scale(v, 1.0 / m), k) == Scale(v, k / m)
  {
    ScaleScale(v, 1.0 / m, k);
    assert (1.0 / m) * k == k / m;
  }

  /** A unit vector scaled by k has magnitude |k|. */
  lemma UnitScaleMagnitude(u: Vec3, k: real, lib: UnityLib)
    requires IsMagnitude(lib) && lib.magnitude(u) == 1.0
    ensures lib.magnitude(Scale(u, k)) == Abs(k)
  {
    assert lib.magnitude(Scale(u, k)) == Abs(k) * lib.magnitude(u);
  }

  /** Scaling by k and then by 1/k gives the vector back. */
  lemma ScaleInverse(v: Vec3, k: real)
    requires k != 0.0
    ensures Scale(Scale(v, 1.0 / k), k) == v
  {
    assert (1.0 / k) * k == 1.0;
  }
}
