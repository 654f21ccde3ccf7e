/** An immutable three-component Cartesian vector (vector.py), over the reals.
    Python's floating-point primitives that Dafny lacks (sqrt, acos, cos, sin)
    are supplied as a `MathLib` value; `Lawful` states the facts about them
    that the lemmas rely on. */
module Vectors {

  /** The module-level tolerance of `==` and of the angle guard. */
  const Epsilon: real := 0.000000001

  /** Python's math.pi, written out; degrees and radians are converted through it. */
  const Pi: real := 3.141592653589793

  /** The exceptions the modelled code can raise. */
  datatype Error = ZeroDivisionError | AttributeError | TypeError | ValueError | IndexError

  datatype Option<+T> = None | Some(value: T)

  /** A value, or the exception raised instead of returning it. */
  datatype Result<+T> = Ok(value: T) | Err(error: Error) {
    predicate IsFailure() { Err? }
    function PropagateFailure<U>(): Result<U> requires Err? { Err(error) }
    function Extract(): T requires Ok? { value }
  }

  /** The exception carried by a result, if any. */
  function ErrorOf<T>(r: Result<T>): (e: Option<Error>)
    ensures e.None? <==> r.Ok?
    ensures r.Err? ==> e == Some(r.error)
  {
    if r.Ok? then None else Some(r.error)
  }

  /** The functions of Python's math module the vector code calls. */
  datatype MathLib = MathLib(sqrt: real -> real, acos: real -> real, cos: real -> real, sin: real -> real)

  function Sqrt(m: MathLib, v: real): real { m.sqrt(v) }
  function Acos(m: MathLib, c: real): real { m.acos(c) }
  function Cos(m: MathLib, t: real): real { m.cos(t) }
  function Sin(m: MathLib, t: real): real { m.sin(t) }

  /** What the lemmas assume of the math primitives: sqrt is the non-negative
      square root; acos is strictly decreasing on [-1, 1], lands in [0, Pi],
      passes through Pi / 2 at zero and inverts cos there; cos and sin lie on
      the unit circle. */
  ghost predicate Lawful(m: MathLib) {
    && (forall v :: 0.0 <= v ==> 0.0 <= Sqrt(m, v) && Sqrt(m, v) * Sqrt(m, v) == v)
    && (forall c :: -1.0 <= c <= 1.0 ==> 0.0 <= Acos(m, c) <= Pi)
    && (forall c, d :: -1.0 <= c < d <= 1.0 ==> Acos(m, d) < Acos(m, c))
    && Acos(m, 1.0) == 0.0
    && Acos(m, 0.0) == Pi / 2.0
    && Acos(m, -1.0) == Pi
    && (forall t :: Cos(m, t) * Cos(m, t) + Sin(m, t) * Sin(m, t) == 1.0)
    && (forall t :: 0.0 <= t <= Pi ==> Acos(m, Cos(m, t)) == t)
  }

  datatype Vector = Vector(x: real, y: real, z: real)

  /** `Vector.zero`, <0, 0, 0>. */
  function Zero(): Vector { Vector(0.0, 0.0, 0.0) }

  /** `Vector.plus_x`, <1, 0, 0>. */
  function PlusX(): Vector { Vector(1.0, 0.0, 0.0) }

  function Abs(r: real): real { if r < 0.0 then -r else r }

  /** How far apart two numbers are. */
  function Gap(u: real, v: real): real { Abs(u - v) }

  /** `__neg__` */
  function Neg(a: Vector): (r: Vector)
    ensures Add(a, r) == Zero()
  {
    Vector(-a.x, -a.y, -a.z)
  }

  /** `__add__` */
  function Add(a: Vector, b: Vector): Vector {
    Vector(a.x + b.x, a.y + b.y, a.z + b.z)
  }

  /** `__sub__` */
  function Sub(a: Vector, b: Vector): (r: Vector)
    ensures Add(r, b) == a
  {
    Vector(a.x - b.x, a.y - b.y, a.z - b.z)
  }

  /** `__mul__` and `__rmul__`: scaling by a number. */
  function Scale(a: Vector, k: real): Vector {
    Vector(a.x * k, a.y * k, a.z * k)
  }

  /** `__truediv__`: multiplies by `1.0 / k`, which raises for a zero divisor. */
  function Div(a: Vector, k: real): (r: Result<Vector>)
    ensures r.Err? <==> k == 0.0
    ensures r.Err? ==> r.error == ZeroDivisionError
  {
    if k == 0.0 then Err(ZeroDivisionError) else Ok(Scale(a, 1.0 / k))
  }

  /** `__eq__`: every component differs by less than Epsilon. */
  predicate ApproxEq(a: Vector, b: Vector) {
    Abs(a.x - b.x) < Epsilon && Abs(a.y - b.y) < Epsilon && Abs(a.z - b.z) < Epsilon
  }

  /** `__ne__`: some component differs exactly. */
  predicate NotEq(a: Vector, b: Vector)
    ensures NotEq(a, b) <==> a != b
  {
    a.x != b.x || a.y != b.y || a.z != b.z
  }

  /** `__iter__`: the components, in the order x, y, z. */
  function Components(a: Vector): (r: seq<real>)
    ensures |r| == 3
  {
    [a.x, a.y, a.z]
  }

  /** `__getitem__` with an integer index: indexes the tuple of components,
      negative indexes counting from the end. */
  function GetItem(a: Vector, i: int): (r: Result<real>)
    ensures r.Ok? <==> -3 <= i < 3
    ensures r.Err? ==> r.error == IndexError
    ensures 0 <= i < 3 ==> r == Ok(Components(a)[i])
    ensures -3 <= i < 0 ==> r == Ok(Components(a)[i + 3])
  {
    if 0 <= i < 3 then Ok(Components(a)[i])
    else if -3 <= i < 0 then Ok(Components(a)[i + 3])
    else Err(IndexError)
  }

  function Dot(a: Vector, b: Vector): real {
    a.x * b.x + a.y * b.y + a.z * b.z
  }

  /** Right-handed cross product. */
  function Cross(a: Vector, b: Vector): Vector {
    Vector(a.y * b.z - a.z * b.y, -(a.x * b.z - a.z * b.x), a.x * b.y - a.y * b.x)
  }

  /** The sum of the squared components, `x**2 + y**2 + z**2`. */
  function SquaredLength(a: Vector): (r: real)
    ensures r == Dot(a, a)
  {
    a.x * a.x + a.y * a.y + a.z * a.z
  }

  function Magnitude(m: MathLib, a: Vector): real {
    Sqrt(m, SquaredLength(a))
  }

  /** `a.distance(b)`: the magnitude of `b - a`. */
  function Distance(m: MathLib, a: Vector, b: Vector): real {
    Magnitude(m, Sub(b, a))
  }

  /** Clamps a cosine into [-1, 1]: the point of that interval nearest to `c`. */
  function Clamp(c: real): (r: real)
    ensures -1.0 <= r <= 1.0
    ensures forall v :: -1.0 <= v <= 1.0 ==> Gap(r, c) <= Gap(v, c)
  {
    if c < -1.0 then -1.0 else if c > 1.0 then 1.0 else c
  }

  /** The angle between two vectors in radians; raises when the product of
      their magnitudes is below Epsilon. */
  function Angle(m: MathLib, a: Vector, b: Vector): (r: Result<real>)
    ensures r.Err? ==> r.error == ZeroDivisionError
  {
    AngleOf(m, Dot(a, b), MagnitudeProduct(m, a, b))
  }

  /** The denominator of `angle`: the product of the two magnitudes. */
  function MagnitudeProduct(m: MathLib, a: Vector, b: Vector): real {
    Magnitude(m, a) * Magnitude(m, b)
  }

  /** The scalar half of `angle`: `acos` of the clamped ratio of a dot product
      to the product of magnitudes, refused when that product is below Epsilon. */
  function AngleOf(m: MathLib, dot: real, denominator: real): (r: Result<real>)
    ensures r.Err? <==> denominator < Epsilon
  {
    if denominator < Epsilon then Err(ZeroDivisionError)
    else Ok(Acos(m, Clamp(dot / denominator)))
  }

  /** math.degrees */
  function Degrees(radians: real): real { radians * 180.0 / Pi }

  /** math.radians */
  function Radians(degrees: real): (r: real)
    ensures Degrees(r) == degrees
  {
    degrees * Pi / 180.0
  }

  function AngleDegrees(m: MathLib, a: Vector, b: Vector): (r: Result<real>)
    ensures r.Err? <==> Angle(m, a, b).Err?
    ensures r.Ok? ==> Radians(r.value) == Angle(m, a, b).value
  {
    var radians :- Angle(m, a, b);
    Ok(Degrees(radians))
  }

  /** `normalized`: divides by the magnitude, so it raises only at magnitude zero. */
  function Normalized(m: MathLib, a: Vector): Result<Vector> {
    Div(a, Magnitude(m, a))
  }

  /** `rotate_towards`: turns `a` by `angle` radians in the plane of `a` and `b`,
      along the normalized axis `(a x b) x a`. */
  function RotateTowards(m: MathLib, a: Vector, b: Vector, angle: real): Result<Vector> {
    var axis :- Normalized(m, Cross(Cross(a, b), a));
    Ok(Add(Scale(a, Cos(m, angle)), Scale(axis, Sin(m, angle))))
  }

  /** `rotate_towards_degrees` */
  function RotateTowardsDegrees(m: MathLib, a: Vector, b: Vector, degrees: real): Result<Vector> {
    RotateTowards(m, a, b, Radians(degrees))
  }

  // ---------------------------------------------------------------------
  // Laws of the component-wise operations

  lemma NegInvolutive(a: Vector)
    ensures Neg(Neg(a)) == a
  {
  }

  lemma AddCommutative(a: Vector, b: Vector)
    ensures Add(a, b) == Add(b, a)
  {
  }

  lemma AddZeroIdentity(a: Vector)
    ensures Add(a, Zero()) == a && Add(Zero(), a) == a
  {
  }

  /** Subtraction is addition of the negation, component by component. */
  lemma SubIsAddNeg(a: Vector, b: Vector)
    ensures Sub(a, b) == Add(a, Neg(b))
    ensures forall i :: 0 <= i < 3 ==> Components(Sub(a, b))[i] == Components(a)[i] - Components(b)[i]
  {
  }

  /** Negation, addition and scaling act on each component separately. */
  lemma ComponentWise(a: Vector, b: Vector, k: real)
    ensures forall i :: 0 <= i < 3 ==> Components(Neg(a))[i] == -Components(a)[i]
    ensures forall i :: 0 <= i < 3 ==> Components(Add(a, b))[i] == Components(a)[i] + Components(b)[i]
    ensures forall i :: 0 <= i < 3 ==> Components(Scale(a, k))[i] == Components(a)[i] * k
  {
  }

  /** Iteration and integer indexing both give x, y, z in that order. */
  lemma IterationOrder(a: Vector)
    ensures Components(a) == [GetItem(a, 0).value, GetItem(a, 1).value, GetItem(a, 2).value]
    ensures GetItem(a, 0) == Ok(a.x) && GetItem(a, 1) == Ok(a.y) && GetItem(a, 2) == Ok(a.z)
    ensures GetItem(a, -1) == Ok(a.z) && GetItem(a, 3) == Err(IndexError)
  {
  }

  /** Indexing from the end: `v[i - 3]` is `v[i]` for every valid
      non-negative index, and exactly the indexes in `[-3, 3)` succeed. */
  lemma IndexFromEnd(a: Vector, i: int)
    ensures GetItem(a, i).Ok? <==> -3 <= i < 3
    ensures 0 <= i < 3 ==> GetItem(a, i - 3) == GetItem(a, i) && GetItem(a, i) == Ok(Components(a)[i])
  {
  }

  // ---------------------------------------------------------------------
  // Equality

  lemma ApproxEqReflexive(a: Vector)
    ensures ApproxEq(a, a)
  {
  }

  lemma ApproxEqSymmetric(a: Vector, b: Vector)
    ensures ApproxEq(a, b) <==> ApproxEq(b, a)
  {
  }

  /** `==` and `!=` are not each other's negation: vectors closer than
      Epsilon but not identical are both equal and unequal. */
  lemma EqAndNeBothHold()
    ensures ApproxEq(Zero(), Vector(Epsilon / 2.0, 0.0, 0.0))
    ensures NotEq(Zero(), Vector(Epsilon / 2.0, 0.0, 0.0))
  {
  }

  /** Exactly equal vectors are never `!=`, and `!=` fails only for them. */
  lemma NotEqIsExact(a: Vector, b: Vector)
    ensures !NotEq(a, b) ==> ApproxEq(a, b)
  {
  }

  /** The tolerance makes `==` intransitive. */
  lemma ApproxEqNotTransitive()
    ensures ApproxEq(Zero(), Vector(0.6 * Epsilon, 0.0, 0.0))
    ensures ApproxEq(Vector(0.6 * Epsilon, 0.0, 0.0), Vector(1.2 * Epsilon, 0.0, 0.0))
    ensures !ApproxEq(Zero(), Vector(1.2 * Epsilon, 0.0, 0.0))
  {
  }

  // ---------------------------------------------------------------------
  // Dot and cross products

  lemma DotSymmetric(a: Vector, b: Vector)
    ensures Dot(a, b) == Dot(b, a)
  {
  }

  /** Squaring is strictly increasing on the non-negative numbers. */
  lemma SquareMonotonic(p: real, q: real)
    requires 0.0 <= p < q
    ensures p * p < q * q
  {
    assert p * (q - p) >= 0.0;
    assert q * (q - p) > 0.0;
  }

  lemma SquareFacts(r: real)
    ensures 0.0 <= r * r
    ensures r * r == 0.0 <==> r == 0.0
  {
    if r < 0.0 {
      SquareMonotonic(0.0, -r);
      assert r * r == (-r) * (-r);
    } else if 0.0 < r {
      SquareMonotonic(0.0, r);
    }
  }

  /** For non-negative `p` and positive `e`, comparing `p` with `e` is comparing
      their squares. */
  lemma CompareBySquares(p: real, e: real)
    requires 0.0 <= p && 0.0 < e
    ensures p < e <==> p * p < e * e
  {
    if p < e {
      SquareMonotonic(p, e);
    } else if e < p {
      SquareMonotonic(e, p);
    }
  }

  /** For non-negative numbers, `e < p` exactly when `e * e < p * p`. */
  lemma ExceedsBySquares(p: real, e: real)
    requires 0.0 <= p && 0.0 <= e
    ensures e < p <==> e * e < p * p
  {
    if e < p {
      SquareMonotonic(e, p);
    } else if p < e {
      SquareMonotonic(p, e);
    }
  }

  lemma DotSelfNonNegative(a: Vector)
    ensures 0.0 <= Dot(a, a)
    ensures Dot(a, a) == 0.0 <==> a == Zero()
  {
    SquareFacts(a.x);
    SquareFacts(a.y);
    SquareFacts(a.z);
  }

  lemma DotScale(a: Vector, b: Vector, k: real)
    ensures Dot(a, Scale(b, k)) == k * Dot(a, b)
    ensures Dot(Scale(b, k), a) == k * Dot(b, a)
  {
  }

  lemma DotScaleSelf(a: Vector, k: real)
    ensures Dot(Scale(a, k), Scale(a, k)) == k * k * Dot(a, a)
  {
  }

  /** The dot product is linear in its second argument. */
  lemma DotLinear(c: Vector, a: Vector, b: Vector, p: real, q: real)
    ensures Dot(c, Add(Scale(a, p), Scale(b, q))) == p * Dot(c, a) + q * Dot(c, b)
  {
  }

  /** Dividing a vector of squared length `mag * mag` by `mag` gives unit squared length. */
  lemma ScaleToUnit(a: Vector, mag: real)
    requires 0.0 < mag && mag * mag == Dot(a, a)
    ensures Dot(Scale(a, 1.0 / mag), Scale(a, 1.0 / mag)) == 1.0
  {
    var k := 1.0 / mag;
    DotScaleSelf(a, k);
    assert k * mag == 1.0;
    calc {
      k * k * Dot(a, a);
      k * k * (mag * mag);
      (k * mag) * (k * mag);
      1.0;
    }
  }

  lemma CrossAntiCommutative(a: Vector, b: Vector)
    ensures Cross(a, b) == Neg(Cross(b, a))
    ensures ApproxEq(Cross(a, b), Neg(Cross(b, a)))
  {
  }

  lemma CrossOrthogonal(a: Vector, b: Vector)
    ensures Dot(a, Cross(a, b)) == 0.0
    ensures Dot(b, Cross(a, b)) == 0.0
  {
  }

  // ---------------------------------------------------------------------
  // Magnitude, normalization, angles

  /** A non-negative number whose square is `v` is the square root of `v`. */
  lemma SqrtUnique(m: MathLib, v: real, r: real)
    requires Lawful(m)
    requires 0.0 <= r && r * r == v
    ensures Sqrt(m, v) == r
  {
    var s := Sqrt(m, v);
    assert 0.0 <= s && s * s == v;
    if s < r {
      SquareMonotonic(s, r);
    } else if r < s {
      SquareMonotonic(r, s);
    }
  }

  lemma MagnitudeFacts(m: MathLib, a: Vector)
    requires Lawful(m)
    ensures 0.0 <= Magnitude(m, a)
    ensures Magnitude(m, a) * Magnitude(m, a) == Dot(a, a)
    ensures Magnitude(m, a) == 0.0 <==> a == Zero()
  {
    DotSelfNonNegative(a);
    var mag := Magnitude(m, a);
    assert 0.0 <= mag && mag * mag == Dot(a, a);
    SquareFacts(mag);
  }

  lemma MagnitudeScale(m: MathLib, a: Vector, k: real)
    requires Lawful(m)
    requires 0.0 <= k
    ensures Magnitude(m, Scale(a, k)) == k * Magnitude(m, a)
  {
    MagnitudeFacts(m, a);
    var r := k * Magnitude(m, a);
    calc {
      r * r;
      k * k * (Magnitude(m, a) * Magnitude(m, a));
      k * k * Dot(a, a);
      Dot(Scale(a, k), Scale(a, k));
    }
    SqrtUnique(m, Dot(Scale(a, k), Scale(a, k)), r);
  }

  /** Comparing a magnitude with a bound is comparing squared length with the
      bound's square, for a non-negative bound. */
  lemma MagnitudeCompare(m: MathLib, a: Vector, bound: real)
    requires Lawful(m)
    ensures Magnitude(m, a) <= bound <==> 0.0 <= bound && Dot(a, a) <= bound * bound
  {
    MagnitudeFacts(m, a);
    if 0.0 <= bound {
      ExceedsBySquares(Magnitude(m, a), bound);
    }
  }

  /** A vector of unit squared length has magnitude one. */
  lemma UnitMagnitude(m: MathLib, a: Vector)
    requires Lawful(m)
    requires Dot(a, a) == 1.0
    ensures Magnitude(m, a) == 1.0
  {
    SqrtUnique(m, 1.0, 1.0);
  }

  lemma PlusXIsUnit(m: MathLib)
    requires Lawful(m)
    ensures Magnitude(m, PlusX()) == 1.0 && Magnitude(m, Zero()) == 0.0
  {
    UnitMagnitude(m, PlusX());
    MagnitudeFacts(m, Zero());
  }

  lemma DistanceSymmetric(m: MathLib, a: Vector, b: Vector)
    ensures Distance(m, a, b) == Distance(m, b, a)
  {
    var u, w := Sub(b, a), Sub(a, b);
    assert u.x * u.x == w.x * w.x && u.y * u.y == w.y * w.y && u.z * u.z == w.z * w.z;
    assert SquaredLength(u) == SquaredLength(w);
  }

  lemma AbsSquare(k: real)
    ensures 0.0 <= Abs(k) && Abs(k) * Abs(k) == k * k
  {
  }

  /** Stepping `k` along a unit vector moves a point by exactly `|k|`. */
  lemma AdvanceDistance(m: MathLib, p: Vector, u: Vector, k: real)
    requires Lawful(m)
    requires Dot(u, u) == 1.0
    ensures Distance(m, p, Add(p, Scale(u, k))) == Abs(k)
  {
    var w := Scale(u, k);
    assert Sub(Add(p, w), p) == w;
    DotScaleSelf(u, k);
    AbsSquare(k);
    SqrtUnique(m, SquaredLength(w), Abs(k));
  }

  /** Dividing by a non-zero number is undone by multiplying by it. */
  lemma DivUndoneByScale(a: Vector, k: real)
    requires k != 0.0
    ensures Scale(Div(a, k).value, k) == a
  {
    var q := 1.0 / k;
    assert q * k == 1.0;
    assert a.x * q * k == a.x * (q * k);
    assert a.y * q * k == a.y * (q * k);
    assert a.z * q * k == a.z * (q * k);
  }

  /** `normalized` raises exactly for the zero vector, and otherwise yields a
      unit vector which, scaled back by the positive magnitude, gives `a`. */
  lemma NormalizedIsUnit(m: MathLib, a: Vector)
    requires Lawful(m)
    ensures Normalized(m, a).Err? <==> a == Zero()
    ensures Normalized(m, a).Ok? ==>
      && Dot(Normalized(m, a).value, Normalized(m, a).value) == 1.0
      && 0.0 < Magnitude(m, a)
      && Scale(Normalized(m, a).value, Magnitude(m, a)) == a
  {
    MagnitudeFacts(m, a);
    if a != Zero() {
      NormalizedNonZero(m, a);
    }
  }

  lemma NormalizedNonZero(m: MathLib, a: Vector)
    requires Lawful(m) && a != Zero()
    ensures Normalized(m, a).Ok?
    ensures Dot(Normalized(m, a).value, Normalized(m, a).value) == 1.0
    ensures Scale(Normalized(m, a).value, Magnitude(m, a)) == a
  {
    MagnitudeFacts(m, a);
    var mag := Magnitude(m, a);
    ScaleToUnit(a, mag);
    DivUndoneByScale(a, mag);
  }

  /** A unit vector normalizes to itself. */
  lemma NormalizedOfUnit(m: MathLib, a: Vector)
    requires Lawful(m)
    requires Dot(a, a) == 1.0
    ensures Normalized(m, a) == Ok(a)
  {
    UnitMagnitude(m, a);
    assert 1.0 / 1.0 == 1.0;
  }

  /** The angle lies in [0, Pi], and it is refused exactly when the product of
      the squared lengths is below Epsilon squared. */
  lemma AngleRange(m: MathLib, a: Vector, b: Vector)
    requires Lawful(m)
    ensures Angle(m, a, b).Err? <==> Dot(a, a) * Dot(b, b) < Epsilon * Epsilon
    ensures Angle(m, a, b).Ok? ==> 0.0 <= Angle(m, a, b).value <= Pi
    ensures AngleDegrees(m, a, b).Ok? ==> 0.0 <= AngleDegrees(m, a, b).value <= 180.0
  {
    MagnitudeFacts(m, a);
    MagnitudeFacts(m, b);
    var ma, mb := Magnitude(m, a), Magnitude(m, b);
    var p := ma * mb;
    assert 0.0 <= p;
    assert p * p == (ma * ma) * (mb * mb);
    CompareBySquares(p, Epsilon);
  }

  lemma AngleSymmetric(m: MathLib, a: Vector, b: Vector)
    ensures Angle(m, a, b) == Angle(m, b, a)
    ensures AngleDegrees(m, a, b) == AngleDegrees(m, b, a)
  {
    DotSymmetric(a, b);
  }

  /** A vector makes angle zero with itself and Pi with its negation. */
  lemma AngleSelfAndNeg(m: MathLib, a: Vector)
    requires Lawful(m)
    requires Angle(m, a, a).Ok?
    ensures Angle(m, a, a) == Ok(0.0)
    ensures Angle(m, a, Neg(a)) == Ok(Pi)
  {
    MagnitudeFacts(m, a);
    var n := Neg(a);
    assert SquaredLength(n) == SquaredLength(a);
    var den := MagnitudeProduct(m, a, a);
    assert MagnitudeProduct(m, a, n) == den;
    assert den == Dot(a, a);
    assert Dot(a, n) == -Dot(a, a);
    AngleUnfold(m, a, a);
    AngleUnfold(m, a, n);
    AngleOfExtremes(m, den);
  }

  /** Scaling the second vector by a positive factor leaves the angle alone. */
  lemma AngleScaleInvariant(m: MathLib, a: Vector, b: Vector, k: real)
    requires Lawful(m)
    requires 0.0 < k
    requires Angle(m, a, b).Ok? && Angle(m, a, Scale(b, k)).Ok?
    ensures Angle(m, a, Scale(b, k)) == Angle(m, a, b)
  {
    MagnitudeScale(m, b, k);
    DotScale(a, b, k);
    var ma, mb := Magnitude(m, a), Magnitude(m, b);
    var d := MagnitudeProduct(m, a, b);
    assert d == ma * mb;
    assert MagnitudeProduct(m, a, Scale(b, k)) == ma * (k * mb);
    assert ma * (k * mb) == k * d;
    AngleUnfold(m, a, b);
    AngleUnfold(m, a, Scale(b, k));
    AngleOfScale(m, Dot(a, b), d, Dot(a, Scale(b, k)), MagnitudeProduct(m, a, Scale(b, k)), k);
  }

  /** `Angle` in terms of its scalar half, for use inside larger proofs. */
  lemma AngleUnfold(m: MathLib, a: Vector, b: Vector)
    ensures Angle(m, a, b) == AngleOf(m, Dot(a, b), MagnitudeProduct(m, a, b))
  {
  }

  /** Equal and opposite ratios give the ends of the range of acos. */
  lemma AngleOfExtremes(m: MathLib, den: real)
    requires Lawful(m)
    requires Epsilon <= den
    ensures AngleOf(m, den, den) == Ok(0.0)
    ensures AngleOf(m, -den, den) == Ok(Pi)
  {
    assert den / den == 1.0;
    assert (-den) / den == -1.0;
  }

  /** The angle depends only on the ratio of its two arguments. */
  lemma AngleOfScale(m: MathLib, dot: real, den: real, dot': real, den': real, k: real)
    requires Epsilon <= den && 0.0 < k
    requires dot' == k * dot && den' == k * den
    ensures AngleOf(m, dot', den').Ok? ==> AngleOf(m, dot', den') == AngleOf(m, dot, den)
  {
    assert (k * dot) / (k * den) == dot / den;
  }

  /** `|p·a + q·b|²` expanded. */
  lemma DotOfCombination(a: Vector, b: Vector, p: real, q: real)
    ensures var v := Add(Scale(a, p), Scale(b, q));
      Dot(v, v) == p * p * Dot(a, a) + 2.0 * p * q * Dot(a, b) + q * q * Dot(b, b)
  {
  }

  /** `rotate_towards` raises exactly when its axis `(a x b) x a` is the zero vector. */
  lemma RotateTowardsFails(m: MathLib, a: Vector, b: Vector, angle: real)
    requires Lawful(m)
    ensures RotateTowards(m, a, b, angle).Err? <==> Cross(Cross(a, b), a) == Zero()
  {
    NormalizedIsUnit(m, Cross(Cross(a, b), a));
  }

  /** Rotating a unit vector by `angle` in [0, Pi] gives a unit vector at exactly
      that angle from it. */
  lemma RotateTowardsIsExact(m: MathLib, a: Vector, b: Vector, angle: real)
    requires Lawful(m)
    requires Dot(a, a) == 1.0 && 0.0 <= angle <= Pi
    requires RotateTowards(m, a, b, angle).Ok?
    ensures Dot(RotateTowards(m, a, b, angle).value, RotateTowards(m, a, b, angle).value) == 1.0
    ensures Angle(m, a, RotateTowards(m, a, b, angle).value) == Ok(angle)
  {
    var c := Cross(Cross(a, b), a);
    NormalizedIsUnit(m, c);
    var axis := Normalized(m, c).value;
    var k := 1.0 / Magnitude(m, c);
    CrossOrthogonal(Cross(a, b), a);
    DotScale(a, c, k);
    assert Dot(a, axis) == 0.0;
    var co, si := Cos(m, angle), Sin(m, angle);
    var r := Add(Scale(a, co), Scale(axis, si));
    DotOfCombination(a, axis, co, si);
    assert Dot(r, r) == 1.0;
    DotLinear(a, a, axis, co, si);
    assert Dot(a, r) == co;
    UnitMagnitude(m, a);
    UnitMagnitude(m, r);
    assert co * co <= 1.0;
    assert -1.0 <= co <= 1.0;
    AngleUnfold(m, a, r);
    assert Clamp(co / 1.0) == co;
  }

  /** An angle is acute exactly when the dot product is positive. */
  lemma AcuteIffPositiveDot(m: MathLib, a: Vector, b: Vector)
    requires Lawful(m)
    requires Angle(m, a, b).Ok?
    ensures AngleDegrees(m, a, b).value < 90.0 <==> 0.0 < Dot(a, b)
  {
    AngleUnfold(m, a, b);
    AngleOfAcute(m, Dot(a, b), MagnitudeProduct(m, a, b));
  }

  /** Of `c` and `-c`, the one at the strictly smaller angle to `b` is `c`
      exactly when `c` has a positive dot product with `b`; at a right angle
      the two angles tie. */
  lemma NegationAngles(m: MathLib, c: Vector, b: Vector)
    requires Lawful(m)
    requires Angle(m, c, b).Ok?
    ensures Angle(m, Neg(c), b).Ok?
    ensures AngleDegrees(m, c, b).value < AngleDegrees(m, Neg(c), b).value <==> 0.0 < Dot(c, b)
  {
    var n := Neg(c);
    assert SquaredLength(n) == SquaredLength(c);
    var den := MagnitudeProduct(m, c, b);
    assert MagnitudeProduct(m, n, b) == den;
    assert Dot(n, b) == -Dot(c, b);
    AngleUnfold(m, c, b);
    AngleUnfold(m, n, b);
    AngleOfNegated(m, Dot(c, b), den);
  }

  lemma AngleOfAcute(m: MathLib, dot: real, den: real)
    requires Lawful(m)
    requires Epsilon <= den
    ensures Degrees(AngleOf(m, dot, den).value) < 90.0 <==> 0.0 < dot
  {
    var q := dot / den;
    assert 0.0 < q <==> 0.0 < dot;
    var c := Clamp(q);
    if 0.0 < c {
      assert Acos(m, c) < Acos(m, 0.0);
    } else if c < 0.0 {
      assert Acos(m, 0.0) < Acos(m, c);
    }
  }

  lemma AngleOfNegated(m: MathLib, dot: real, den: real)
    requires Lawful(m)
    requires Epsilon <= den
    ensures AngleOf(m, -dot, den).Ok?
    ensures Degrees(AngleOf(m, dot, den).value) < Degrees(AngleOf(m, -dot, den).value) <==> 0.0 < dot
  {
    var q := dot / den;
    assert (-dot) / den == -q;
    assert 0.0 < q <==> 0.0 < dot;
    var c := Clamp(q);
    assert Clamp(-q) == -c;
    AcosOfNegated(m, c);
    DegreesMonotonic(Acos(m, c), Acos(m, -c));
  }

  lemma AcosOfNegated(m: MathLib, c: real)
    requires Lawful(m)
    requires -1.0 <= c <= 1.0
    ensures Acos(m, c) < Acos(m, -c) <==> 0.0 < c
  {
    if 0.0 < c {
      assert Acos(m, c) < Acos(m, -c);
    } else if c < 0.0 {
      assert Acos(m, -c) < Acos(m, c);
    }
  }

  lemma DegreesMonotonic(x: real, y: real)
    ensures Degrees(x) < Degrees(y) <==> x < y
  {
  }
}
