/** Optional values, for results C# leaves unspecified. */
module Wrappers {
  datatype Option<T> = None | Some(value: T)
}

/**
 * Single-precision values as the Unity scripts see them, and the small vector
 * algebra they use.  A value is finite, +infinity, -infinity or NaN; the sign
 * rules of IEEE 754 are kept, rounding, overflow and the sign of zero are not.
 * The float library calls (distance, angle, arccosine, magnitude) stay opaque:
 * they are the fields of a `MathLib` value handed to the analysis.
 */
module Numerics {
  import opened Wrappers

  datatype Float = Finite(v: real) | PosInf | NegInf | NaN

  predicate IsInfinite(a: Float) {
    a.PosInf? || a.NegInf?
  }

  predicate IsZero(a: Float) {
    a.Finite? && a.v == 0.0
  }

  /** The sign bit of a non-NaN value; a finite zero is taken as +0. */
  predicate SignClear(a: Float)
    requires !a.NaN?
  {
    a.PosInf? || (a.Finite? && a.v >= 0.0)
  }

  predicate NonNegative(a: Float) {
    a.PosInf? || (a.Finite? && a.v >= 0.0)
  }

  function Neg(a: Float): Float {
    match a
    case Finite(x) => Finite(-x)
    case PosInf => NegInf
    case NegInf => PosInf
    case NaN => NaN
  }

  function Add(a: Float, b: Float): Float {
    if a.NaN? || b.NaN? then NaN
    else if a.Finite? && b.Finite? then Finite(a.v + b.v)
    else if (a.PosInf? && b.NegInf?) || (a.NegInf? && b.PosInf?) then NaN
    else if a.PosInf? || b.PosInf? then PosInf
    else NegInf
  }

  function Sub(a: Float, b: Float): Float {
    Add(a, Neg(b))
  }

  function Mul(a: Float, b: Float): Float {
    if a.NaN? || b.NaN? then NaN
    else if a.Finite? && b.Finite? then Finite(a.v * b.v)
    else if IsZero(a) || IsZero(b) then NaN
    else if SignClear(a) == SignClear(b) then PosInf
    else NegInf
  }

  function Div(a: Float, b: Float): Float {
    if a.NaN? || b.NaN? then NaN
    else if a.Finite? && b.Finite? then
      if b.v != 0.0 then Finite(a.v / b.v)
      else if a.v == 0.0 then NaN
      else if a.v > 0.0 then PosInf
      else NegInf
    else if a.Finite? then Finite(0.0)
    else if b.Finite? then (if SignClear(a) == SignClear(b) then PosInf else NegInf)
    else NaN
  }

  /** The comparison `a > c` against a finite constant; false for NaN. */
  predicate Greater(a: Float, c: real) {
    a.PosInf? || (a.Finite? && a.v > c)
  }

  /**
   * The C# cast `(int)a`: truncation toward zero when the value fits in an
   * int; otherwise (NaN, infinities, out of range) C# leaves the result
   * unspecified, which is `None` here.
   */
  function TruncateToInt(a: Float): (r: Option<int>)
    ensures r.Some? <==> a.Finite? && -2147483649.0 < a.v < 2147483648.0
    ensures r.Some? && a.v >= 0.0 ==> 0 <= r.value && r.value as real <= a.v < r.value as real + 1.0
    ensures r.Some? && a.v < 0.0 ==> r.value <= 0 && r.value as real - 1.0 < a.v <= r.value as real
  {
    if a.Finite? && -2147483649.0 < a.v < 2147483648.0 then
      Some(if a.v >= 0.0 then a.v.Floor else -((-a.v).Floor))
    else None
  }

  /** `Mathf.PI`, the single-precision value of pi. */
  const PI: real := 3.14159274

  /** A Unity Vector2 built from sensor data: each axis may be non-finite. */
  datatype Vec2 = Vec2(x: Float, y: Float)

  /** A Unity Vector3 built from sensor data. */
  datatype Vec3 = Vec3(x: Float, y: Float, z: Float)

  /** A Unity Quaternion, components in X, Y, Z, W order. */
  datatype Quat = Quat(x: Float, y: Float, z: Float, w: Float)

  /** Scene vectors (a transform's scale or position), always finite. */
  datatype Real2 = Real2(x: real, y: real)
  datatype Real3 = Real3(x: real, y: real, z: real)

  function Minus(a: Vec3, b: Vec3): Vec3 {
    Vec3(Sub(a.x, b.x), Sub(a.y, b.y), Sub(a.z, b.z))
  }

  /** `Vector3 * float`. */
  function Times(a: Vec3, k: real): Vec3 {
    Vec3(Mul(a.x, Finite(k)), Mul(a.y, Finite(k)), Mul(a.z, Finite(k)))
  }

  /** The implicit Vector3 to Vector2 conversion: keeps (x, y). */
  function XY(a: Vec3): Vec2 {
    Vec2(a.x, a.y)
  }

  /** `Vector3.Dot`, summed left to right. */
  function Dot(a: Vec3, b: Vec3): Float {
    Add(Add(Mul(a.x, b.x), Mul(a.y, b.y)), Mul(a.z, b.z))
  }

  /** `Vector2.up` and `Vector2.down`. */
  const Up := Vec2(Finite(0.0), Finite(1.0))
  const Down := Vec2(Finite(0.0), Finite(-1.0))

  /** The guard every marker update uses: neither axis is +infinity or -infinity. */
  predicate Usable(p: Vec2) {
    !IsInfinite(p.x) && !IsInfinite(p.y)
  }

  /**
   * The float library the analysis calls: `Vector2.Distance`,
   * `Vector3.Distance`, `Vector2.Angle` (degrees), `Mathf.Acos` (radians) and
   * `Vector3.Magnitude`.  Their numerics are not modelled.
   */
  datatype MathLib = MathLib(
    distance2: (Vec2, Vec2) -> Float,
    distance3: (Vec3, Vec3) -> Float,
    angle: (Vec2, Vec2) -> Float,
    acos: Float -> Float,
    magnitude: Vec3 -> Float)

  /** What every metric promises: a distance is never negative (it may be +infinity). */
  ghost predicate DistancesNonNegative(math: MathLib) {
    && (forall a, b :: NonNegative(math.distance2(a, b)))
    && (forall a, b :: NonNegative(math.distance3(a, b)))
  }

  lemma AddNonNegative(a: Float, b: Float)
    requires NonNegative(a) && NonNegative(b)
    ensures NonNegative(Add(a, b))
  {
  }

  /** Adding a finite zero on the left changes nothing, NaN and infinities included. */
  lemma AddZeroLeft(a: Float)
    ensures Add(Finite(0.0), a) == a
  {
  }
}
