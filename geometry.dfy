/** Vector helpers and the arithmetic of a wrapped (circular) axis, as used by the flocking agent
    in src/boid.ts. Every number is a `real`: floating-point rounding, NaN and Infinity are not modelled. */
module Geometry {

  /** Math.PI: the exact value of the double nearest to π (its shortest decimal form is
      3.141592653589793). It is slightly above π, so Math.atan2 never leaves [-Pi, Pi]. */
  const Pi: real := 3.141592653589793115997963468544185161590576171875

  /** A plane position or a relative offset. */
  datatype Vector = Vector(x: real, y: real)

  function Add(a: Vector, b: Vector): Vector
  {
    Vector(a.x + b.x, a.y + b.y)
  }

  function Scale(v: Vector, k: real): Vector
  {
    Vector(k * v.x, k * v.y)
  }

  function Square(r: real): real
  {
    r * r
  }

  function Abs(r: real): real
  {
    if r < 0.0 then -r else r
  }

  /** Math.sqrt, Math.atan2, Math.cos and Math.sin. They are not defined here: every operation that
      needs them takes them as this record, and `Lawful` lists the only facts the model uses. */
  datatype Numerics = Numerics(
    sqrt: real -> real,
    atan2: (real, real) -> real,
    cos: real -> real,
    sin: real -> real)

  /** The facts about the four primitives that the proofs rely on (exact real arithmetic). */
  ghost predicate Lawful(m: Numerics)
  {
    SqrtLaw(m) && AngleRange(m) && UnitRange(m) && PolarLaw(m)
  }

  /** Math.sqrt gives the non-negative square root. */
  ghost predicate SqrtLaw(m: Numerics)
  {
    forall v: real :: 0.0 <= v ==> 0.0 <= m.sqrt(v) && Square(m.sqrt(v)) == v
  }

  /** Math.atan2 lies in [-Pi, Pi]. */
  ghost predicate AngleRange(m: Numerics)
  {
    forall y: real, x: real :: -Pi <= m.atan2(y, x) <= Pi
  }

  /** Math.cos and Math.sin lie in [-1, 1]. */
  ghost predicate UnitRange(m: Numerics)
  {
    (forall a: real :: -1.0 <= m.cos(a) <= 1.0) && (forall a: real :: -1.0 <= m.sin(a) <= 1.0)
  }

  /** Converting a vector to polar form and back gives the vector again. */
  ghost predicate PolarLaw(m: Numerics)
  {
    forall v: Vector :: FromPolar(m, Magnitude(m, v), Angle(m, v)) == v
  }

  /** Vector.magnitude: the Euclidean length. */
  function Magnitude(m: Numerics, v: Vector): (r: real)
    ensures SqrtLaw(m) ==> 0.0 <= r
  {
    m.sqrt(v.x * v.x + v.y * v.y)
  }

  /** The magnitude squared is the sum of the squared components. */
  lemma MagnitudeSquared(m: Numerics, v: Vector)
    requires SqrtLaw(m)
    ensures Square(Magnitude(m, v)) == Square(v.x) + Square(v.y)
  {
    assert 0.0 <= v.x * v.x + v.y * v.y;
  }

  /** Vector.angle: the heading of `v`, in [-Pi, Pi]. */
  function Angle(m: Numerics, v: Vector): (r: real)
    ensures AngleRange(m) ==> -Pi <= r <= Pi
  {
    m.atan2(v.y, v.x)
  }

  /** Vector.fromPolar. */
  function FromPolar(m: Numerics, magnitude: real, angle: real): (r: Vector)
  {
    Vector(magnitude * m.cos(angle), magnitude * m.sin(angle))
  }

  /** No component of a polar vector is longer than its magnitude. */
  lemma FromPolarBound(m: Numerics, magnitude: real, angle: real)
    requires UnitRange(m)
    ensures Abs(FromPolar(m, magnitude, angle).x) <= Abs(magnitude)
    ensures Abs(FromPolar(m, magnitude, angle).y) <= Abs(magnitude)
  {
    var c, s := m.cos(angle), m.sin(angle);
    assert -1.0 <= c <= 1.0;
    assert -1.0 <= s <= 1.0;
    var r := FromPolar(m, magnitude, angle);
    assert r.x == magnitude * c && r.y == magnitude * s;
    CosineScaleBound(magnitude, c);
    CosineScaleBound(magnitude, s);
  }

  /** The same bound, for any numerics: it holds whenever cos and sin lie in [-1, 1]. */
  lemma PolarBounded(m: Numerics, magnitude: real, angle: real)
    ensures UnitRange(m) ==>
              Abs(FromPolar(m, magnitude, angle).x) <= Abs(magnitude) &&
              Abs(FromPolar(m, magnitude, angle).y) <= Abs(magnitude)
  {
    if UnitRange(m) {
      FromPolarBound(m, magnitude, angle);
    }
  }

  lemma CosineScaleBound(k: real, c: real)
    requires -1.0 <= c <= 1.0
    ensures Abs(k * c) <= Abs(k)
  {
    if k >= 0.0 {
      assert -k <= k * c <= k;
    } else {
      assert k <= k * c <= -k;
    }
  }

  /** Vector.distance: straight-line distance (the magnitude of the difference), not aware of wrapping. */
  function Distance(m: Numerics, v1: Vector, v2: Vector): (r: real)
    ensures SqrtLaw(m) ==> 0.0 <= r
  {
    Magnitude(m, Vector(v1.x - v2.x, v1.y - v2.y))
  }

  /** closestWrappedPoint: the copy of `to` (shifted by one axis length or not) nearest to `from`. */
  function ClosestWrappedPoint(from: real, to: real, axisLength: real): (r: real)
    ensures r == to || r == to + axisLength || r == to - axisLength
    ensures 0.0 <= axisLength ==>
              Abs(from - r) <= Abs(from - to) &&
              Abs(from - r) <= Abs(from - (to + axisLength)) &&
              Abs(from - r) <= Abs(from - (to - axisLength))
  {
    var diff := from - to;
    if diff > axisLength / 2.0 then to + axisLength
    else if diff < -axisLength / 2.0 then to - axisLength
    else to
  }

  /** wrappedDistance: the shortest distance between two points of a circular axis. It agrees with
      the offset to the copy that closestWrappedPoint picks, since both branch on the same difference. */
  function WrappedDistance(p1: real, p2: real, axisLength: real): (d: real)
    ensures 0.0 <= d
    ensures d == Abs(p1 - ClosestWrappedPoint(p1, p2, axisLength))
    ensures Abs(p1 - p2) <= axisLength / 2.0 ==> d == Abs(p1 - p2)
    ensures 0.0 <= axisLength && Abs(p1 - p2) <= 3.0 * axisLength / 2.0 ==> d <= axisLength / 2.0
    ensures 0.0 <= p1 < axisLength && 0.0 <= p2 < axisLength ==> d <= axisLength / 2.0
  {
    var diff := p1 - p2;
    var unwrapped :=
      if diff > axisLength / 2.0 then diff - axisLength
      else if diff < -axisLength / 2.0 then diff + axisLength
      else diff;
    Abs(unwrapped)
  }

  /** Truncation toward zero, as JavaScript's `%` uses it. */
  function Trunc(q: real): (k: int)
    ensures 0.0 <= q ==> k as real <= q < k as real + 1.0
    ensures q < 0.0 ==> k as real - 1.0 < q <= k as real
  {
    if 0.0 <= q then q.Floor else -((-q).Floor)
  }

  /** JavaScript's `a % b` on numbers: the remainder of the truncating division, with the sign of `a`.
      (b == 0 gives NaN in JavaScript and is excluded here.) */
  function JsRem(a: real, b: real): (r: real)
    requires b != 0.0
    ensures 0.0 < b && 0.0 <= a ==> 0.0 <= r < b
    ensures 0.0 < b && a < 0.0 ==> -b < r <= 0.0
    ensures 0.0 <= a < Abs(b) ==> r == a
    ensures var q := (a - r) / b; q == q.Floor as real
  {
    var k := Trunc(a / b);
    RemainderBounds(a, b, k);
    var r := a - b * k as real;
    WholeQuotient(a - r, b, k);
    r
  }

  /** A multiple `b·k` of `b`, divided by `b`, gives back the whole number `k`. */
  lemma WholeQuotient(c: real, b: real, k: int)
    requires b != 0.0 && c == b * k as real
    ensures var q := c / b; q == q.Floor as real
  {
    assert c / b == k as real;
  }

  lemma RemainderBounds(a: real, b: real, k: int)
    requires b != 0.0 && k == Trunc(a / b)
    ensures 0.0 < b && 0.0 <= a ==> 0.0 <= a - b * k as real < b
    ensures 0.0 < b && a < 0.0 ==> -b < a - b * k as real <= 0.0
    ensures 0.0 <= a < Abs(b) ==> k == 0
  {
    var q, kr := a / b, k as real;
    assert a == b * q;
    if 0.0 < b {
      // the quotient has the sign of the dividend
      ScaleMonotone(b, q, 0.0);
      ScaleMonotone(b, 0.0, q);
      if 0.0 <= a {
        ScaleMonotone(b, kr, q);
        ScaleMonotone(b, q, kr + 1.0);
        calc { b * kr; <= b * q; == a; }
        calc { a; == b * q; < b * (kr + 1.0); == b * kr + b; }
        if a < b {
          calc { b * q; == a; < b; == b * 1.0; }
          ScaleMonotone(b, q, 1.0);
          assert q < 1.0;
        }
      } else {
        ScaleMonotone(b, kr - 1.0, q);
        ScaleMonotone(b, q, kr);
        calc { b * kr - b; == b * (kr - 1.0); < b * q; == a; }
        calc { a; == b * q; <= b * kr; }
      }
    } else if 0.0 <= a < -b {
      var c := -b;
      ScaleMonotone(c, -q, 0.0);
      calc { c * -q; == a; < c; == c * 1.0; }
      ScaleMonotone(c, -q, 1.0);
      assert -1.0 < q <= 0.0;
    }
  }

  lemma ScaleMonotone(b: real, u: real, v: real)
    requires 0.0 < b
    ensures u <= v ==> b * u <= b * v
    ensures u < v ==> b * u < b * v
    ensures b * u < b * v ==> u < v
  {
    assert b * v - b * u == b * (v - u);
  }

  /** The position wrap at the end of Boid.update: add the axis length once if the coordinate is
      negative, then take JavaScript's remainder. */
  function WrapCoordinate(v: real, axisLength: real): (r: real)
    requires axisLength != 0.0
    ensures 0.0 < axisLength && -axisLength <= v ==> 0.0 <= r < axisLength
    ensures 0.0 <= v < axisLength ==> r == v
    ensures var q := (r - v) / axisLength; q == q.Floor as real
  {
    var shifted := if v < 0.0 then v + axisLength else v;
    var r := JsRem(shifted, axisLength);
    WholeShift(v, shifted, r, axisLength);
    r
  }

  /** The wrap is the only coordinate in [0, L) that differs from `v` by whole area sizes, so
      WrapCoordinate's contract fixes its value for every coordinate no more than L below zero. */
  lemma WrapUnique(v: real, axisLength: real, r: real)
    requires 0.0 < axisLength && -axisLength <= v && 0.0 <= r < axisLength
    requires var q := (r - v) / axisLength; q == q.Floor as real
    ensures r == WrapCoordinate(v, axisLength)
  {
    var w := WrapCoordinate(v, axisLength);
    assert 0.0 <= w < axisLength;
    var n1 := WholeMultiple(r - v, axisLength);
    var n2 := WholeMultiple(w - v, axisLength);
    var d := MultipleDifference(r - v, w - v, axisLength, n1, n2);
    SmallMultiple(r - w, axisLength, d);
  }

  /** The difference of two multiples of `b` is a multiple of `b`. */
  lemma MultipleDifference(c1: real, c2: real, b: real, n1: int, n2: int) returns (d: int)
    requires c1 == b * n1 as real && c2 == b * n2 as real
    ensures c1 - c2 == b * d as real
  {
    d := n1 - n2;
    assert b * n1 as real - b * n2 as real == b * (n1 as real - n2 as real);
  }

  /** A quotient that is a whole number `n` makes the dividend `n` times the divisor. */
  lemma WholeMultiple(c: real, b: real) returns (n: int)
    requires b != 0.0
    requires var q := c / b; q == q.Floor as real
    ensures c == b * n as real
  {
    n := (c / b).Floor;
  }

  /** The only whole multiple of `b` strictly between -b and b is zero. */
  lemma SmallMultiple(c: real, b: real, d: int)
    requires 0.0 < b && c == b * d as real && -b < c < b
    ensures d == 0
  {
    ScaleMonotone(b, 1.0, d as real);
    ScaleMonotone(b, d as real, -1.0);
  }

  /** Shifting by a whole number of axis lengths twice is shifting by a whole number once. */
  lemma WholeShift(v: real, shifted: real, r: real, axisLength: real)
    requires axisLength != 0.0
    requires shifted == v || shifted == v + axisLength
    requires var q := (shifted - r) / axisLength; q == q.Floor as real
    ensures var q := (r - v) / axisLength; q == q.Floor as real
  {
    var n := ((shifted - r) / axisLength).Floor;
    var s := if shifted == v then 0 else 1;
    assert shifted - r == axisLength * n as real;
    assert r - v == axisLength * (s - n) as real;
    assert (r - v) / axisLength == (s - n) as real;
  }
}
