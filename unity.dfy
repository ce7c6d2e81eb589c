/**
 * The slice of the Unity engine that the car scripts lean on, over real numbers.
 *
 * Vectors are `Vec3` values with exact polynomial operations (sum, scaling, dot and cross
 * products, squared length). What needs a square root or trigonometry -- `magnitude`,
 * `normalized`, `Vector3.Angle`, `Vector3.SignedAngle`, `Quaternion.AngleAxis(a, up) * v` and
 * the right axis of `Quaternion.LookRotation` -- is not computed here: an `Engine` value
 * carries those operations as uninterpreted functions, and a lemma may assume about them only
 * what `MagnitudeIsLength` and `NormalizedScales` state.  The scalar helpers (`Mathf.Clamp`, `Mathf.Lerp`,
 * `Mathf.InverseLerp`, `Mathf.RoundToInt`, `Mathf.Sign`, `Random.Range`) are written out.
 */
module Unity {

  datatype Option<T> = None | Some(value: T)

  datatype Vec3 = Vec3(x: real, y: real, z: real)

  const Zero := Vec3(0.0, 0.0, 0.0)
  /** `Vector3.up` */
  const Up := Vec3(0.0, 1.0, 0.0)
  /** `Vector3.forward` */
  const Forward := Vec3(0.0, 0.0, 1.0)

  function Add(a: Vec3, b: Vec3): Vec3 { Vec3(a.x + b.x, a.y + b.y, a.z + b.z) }

  function Sub(a: Vec3, b: Vec3): Vec3 { Vec3(a.x - b.x, a.y - b.y, a.z - b.z) }

  function Scale(a: Vec3, k: real): Vec3 { Vec3(a.x * k, a.y * k, a.z * k) }

  function Dot(a: Vec3, b: Vec3): real { a.x * b.x + a.y * b.y + a.z * b.z }

  function Cross(a: Vec3, b: Vec3): Vec3 {
    Vec3(a.y * b.z - a.z * b.y, a.z * b.x - a.x * b.z, a.x * b.y - a.y * b.x)
  }

  /** `Vector3.sqrMagnitude` */
  function SqrMagnitude(a: Vec3): real { Dot(a, a) }

  /**
   * The engine operations that involve square roots or trigonometry. They are parameters of
   * the model, not definitions: nothing is proved about them beyond `MagnitudeIsLength`.
   */
  datatype Engine = Engine(
    magnitude: Vec3 -> real,            // Vector3.magnitude
    normalized: Vec3 -> Vec3,           // Vector3.normalized
    angle: (Vec3, Vec3) -> real,        // Vector3.Angle, in degrees, unsigned
    signedAngle: (Vec3, Vec3) -> real,  // Vector3.SignedAngle(from, to, Vector3.up)
    rotateUp: (real, Vec3) -> Vec3,     // Quaternion.AngleAxis(degrees, Vector3.up) * v
    lookRight: Vec3 -> Vec3             // the right axis of Quaternion.LookRotation(forward)
  )

  /** What `magnitude` is: the non-negative square root of the squared length. */
  ghost predicate MagnitudeIsLength(e: Engine)
  {
    forall v :: 0.0 <= e.magnitude(v) && e.magnitude(v) * e.magnitude(v) == SqrMagnitude(v)
  }

  /** The part of `MagnitudeIsLength` that says a magnitude is never negative. */
  ghost predicate MagnitudeNonnegative(e: Engine)
  {
    forall v :: 0.0 <= e.magnitude(v)
  }

  /** `Vector3.magnitude` */
  function Magnitude(e: Engine, v: Vec3): real { e.magnitude(v) }

  /** `v.magnitude * dt`: the distance velocity v covers in one tick of length dt. */
  function Travel(e: Engine, v: Vec3, dt: real): real { Magnitude(e, v) * dt }

  /** `Vector3.Distance(a, b)` */
  function Distance(e: Engine, a: Vec3, b: Vec3): real { e.magnitude(Sub(a, b)) }

  /**
   * What `normalized` is: the vector divided by its magnitude, or the zero vector when the
   * magnitude is at most 1e-5.
   */
  ghost predicate NormalizedScales(e: Engine)
  {
    forall v :: e.normalized(v) == if e.magnitude(v) > 0.00001 then Scale(v, 1.0 / e.magnitude(v)) else Zero
  }

  /** `Vector3.normalized` */
  function Normalized(e: Engine, v: Vec3): Vec3 { e.normalized(v) }

  /** Normalizing a level vector gives a level vector. */
  lemma NormalizedIsLevel(e: Engine, v: Vec3)
    requires NormalizedScales(e)
    requires v.y == 0.0
    ensures Normalized(e, v).y == 0.0
  {
    assert e.normalized(v) == if e.magnitude(v) > 0.00001 then Scale(v, 1.0 / e.magnitude(v)) else Zero;
  }

  /** A normalized vector that is not the zero vector has length one. */
  lemma NormalizedIsUnit(e: Engine, v: Vec3)
    requires MagnitudeIsLength(e) && NormalizedScales(e)
    requires e.magnitude(v) > 0.00001
    ensures SqrMagnitude(Normalized(e, v)) == 1.0
  {
    var m := e.magnitude(v);
    var k := 1.0 / m;
    assert m * m == SqrMagnitude(v);
    assert k * m == 1.0;
    calc {
      SqrMagnitude(Normalized(e, v));
      (v.x * k) * (v.x * k) + (v.y * k) * (v.y * k) + (v.z * k) * (v.z * k);
      (v.x * v.x + v.y * v.y + v.z * v.z) * (k * k);
      (m * m) * (k * k);
      (k * m) * (k * m);
    }
  }

  /** Scaling a unit vector by p gives squared length p * p. */
  lemma ScaledUnit(u: Vec3, p: real)
    requires SqrMagnitude(u) == 1.0
    ensures SqrMagnitude(Scale(u, p)) == p * p
  {
    calc {
      SqrMagnitude(Scale(u, p));
      (u.x * p) * (u.x * p) + (u.y * p) * (u.y * p) + (u.z * p) * (u.z * p);
      (u.x * u.x + u.y * u.y + u.z * u.z) * (p * p);
    }
  }

  /** `Mathf.Clamp(value, min, max)`: the lower bound is compared first. */
  function Clamp(value: real, min: real, max: real): (r: real)
    ensures min <= max ==> min <= r <= max
    ensures min <= value <= max ==> r == value
    ensures value < min ==> r == min
    ensures min <= value && max < value ==> r == max
  {
    if value < min then min else if value > max then max else value
  }

  /** `Mathf.Clamp01` */
  function Clamp01(t: real): (r: real)
    ensures 0.0 <= r <= 1.0
    ensures 0.0 <= t <= 1.0 ==> r == t
  {
    Clamp(t, 0.0, 1.0)
  }

  /** `Mathf.Lerp(a, b, t)`: the parameter is clamped to [0, 1], so the result lies between a and b. */
  function Lerp(a: real, b: real, t: real): (r: real)
    ensures a <= b ==> a <= r <= b
    ensures b <= a ==> b <= r <= a
  {
    var c := Clamp01(t);
    var p := (b - a) * c;
    FractionBetween(a, b, c, p);
    a + p
  }

  /** A fraction c in [0, 1] of the way from a to b stays between a and b. */
  lemma FractionBetween(a: real, b: real, c: real, p: real)
    requires 0.0 <= c <= 1.0 && p == (b - a) * c
    ensures a <= b ==> a <= a + p <= b
    ensures b <= a ==> b <= a + p <= a
  {
    var d := b - a;
    assert p == d - d * (1.0 - c);
    if d >= 0.0 {
      MulNonneg(d, c);
      MulNonneg(d, 1.0 - c);
    } else {
      MulNonneg(-d, c);
      MulNonneg(-d, 1.0 - c);
      assert (-d) * c == -(d * c);
      assert (-d) * (1.0 - c) == -(d * (1.0 - c));
    }
  }

  lemma MulNonneg(x: real, y: real)
    requires x >= 0.0 && y >= 0.0
    ensures x * y >= 0.0
  {
  }

  /** `Vector3.Lerp(a, b, t)`, also with t clamped to [0, 1]. */
  function LerpVec(a: Vec3, b: Vec3, t: real): (r: Vec3)
    ensures t <= 0.0 ==> r == a
    ensures t >= 1.0 ==> r == b
  {
    Vec3(Lerp(a.x, b.x, t), Lerp(a.y, b.y, t), Lerp(a.z, b.z, t))
  }

  /** `Mathf.InverseLerp(a, b, value)`: zero when a == b, otherwise a clamped ratio. */
  function InverseLerp(a: real, b: real, value: real): (r: real)
    ensures 0.0 <= r <= 1.0
    ensures a != b && value == b ==> r == 1.0
    ensures a != b && value == a ==> r == 0.0
  {
    if a != b then Clamp01((value - a) / (b - a)) else 0.0
  }

  /** `Mathf.Sign`: one for zero and positive values, minus one otherwise. */
  function Sign(f: real): (r: real)
    ensures r == 1.0 || r == -1.0
    ensures r * f >= 0.0
  {
    if f >= 0.0 then 1.0 else -1.0
  }

  /** `Mathf.Abs` */
  function Abs(f: real): (r: real)
    ensures r >= 0.0 && (r == f || r == -f)
  {
    if f < 0.0 then -f else f
  }

  /** `Mathf.Max` on integers. */
  function MaxInt(a: int, b: int): (r: int)
    ensures r >= a && r >= b && (r == a || r == b)
  {
    if a >= b then a else b
  }

  /**
   * `Mathf.RoundToInt`: round to the nearest integer, halves to the even neighbour
   * (the rounding of `Math.Round`).
   */
  function RoundToInt(x: real): (r: int)
    ensures x - 0.5 <= r as real <= x + 0.5
    ensures x == x.Floor as real ==> r == x.Floor
  {
    var f := x.Floor;
    var frac := x - f as real;
    if frac < 0.5 then f
    else if frac > 0.5 then f + 1
    else if f % 2 == 0 then f
    else f + 1
  }

  /** A uniform draw from [0, 1] that the random source supplies. */
  predicate Unit(u: real) { 0.0 <= u <= 1.0 }

  /**
   * `Random.Range(min, max)` on floats, given the unit draw u the engine used; both ends are
   * reachable, and the result lies between the bounds whichever is larger.
   */
  function Range(min: real, max: real, u: real): (r: real)
    requires Unit(u)
    ensures min <= max ==> min <= r <= max
    ensures max <= min ==> max <= r <= min
    ensures u == 0.0 ==> r == min
    ensures u == 1.0 ==> r == max
  {
    Lerp(min, max, u)
  }
}
