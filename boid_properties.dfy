/** Properties of the flocking model that relate several operations, and the worked examples of
    test/boid.test.ts restated over the model: distance symmetry, unit pushes, the separation filter,
    the composed steering step, the position wrap and the field of view. */
module FlockingProperties {
  import opened Geometry
  import opened Steering
  import opened Flocking

  // ---------------------------------------------------------------------------------------------
  // Square roots: the only facts used are those of SqrtLaw.

  /** Between non-negative numbers, a smaller square means a smaller number. */
  lemma SquareLess(s: real, a: real)
    requires 0.0 <= s && 0.0 < a && Square(s) < Square(a)
    ensures s < a
  {
    var b := s + a;
    assert b * a - b * s == a * a - s * s;
    ScaleMonotone(b, s, a);
  }

  /** Non-negative numbers with the same square are equal. */
  lemma SquareInjective(s: real, a: real)
    requires 0.0 <= s && 0.0 <= a && Square(s) == Square(a)
    ensures s == a
  {
    var b := s + a;
    if 0.0 < b {
      assert b * a - b * s == a * a - s * s;
      ScaleMonotone(b, s, a);
      ScaleMonotone(b, a, s);
    }
  }

  // ---------------------------------------------------------------------------------------------
  // Distances on the wrapped area.

  /** wrappedDistance does not depend on the order of its points (for a non-negative axis). */
  lemma WrappedDistanceSymmetric(p1: real, p2: real, axisLength: real)
    requires 0.0 <= axisLength
    ensures WrappedDistance(p1, p2, axisLength) == WrappedDistance(p2, p1, axisLength)
  {
  }

  /** distanceTo is symmetric, so inRadius is too: `a` has `b` within `r` exactly when `b` has `a`. */
  lemma InRadiusSymmetric(a: Boid, b: Boid, r: real, cfg: Config, m: Numerics)
    requires 0.0 <= cfg.areaWidth && 0.0 <= cfg.areaHeight
    ensures a.DistanceTo(b, cfg, m) == b.DistanceTo(a, cfg, m)
    ensures a.InRadius(b, r, cfg, m) <==> b.InRadius(a, r, cfg, m)
  {
    WrappedDistanceSymmetric(a.x, b.x, cfg.areaWidth);
    WrappedDistanceSymmetric(a.y, b.y, cfg.areaHeight);
    assert a.DistanceTo(b, cfg, m) == DistanceBetween(a.Position(), b.Position(), cfg, m);
    assert b.DistanceTo(a, cfg, m) == DistanceBetween(b.Position(), a.Position(), cfg, m);
  }

  /** distanceTo is the length of the relative position whose bearing inAngle measures. */
  lemma DistanceToOffset(a: Boid, b: Boid, cfg: Config, m: Numerics)
    requires SqrtLaw(m)
    ensures var off := RelativeOffset(a.Position(), b.Position(), cfg);
            var d := a.DistanceTo(b, cfg, m);
            0.0 <= d && Square(d) == Square(off.x) + Square(off.y)
  {
    var p, q := a.Position(), b.Position();
    var off := RelativeOffset(p, q, cfg);
    var v := Vector(WrappedDistance(p.x, q.x, cfg.areaWidth), WrappedDistance(p.y, q.y, cfg.areaHeight));
    assert a.DistanceTo(b, cfg, m) == Magnitude(m, v);
    MagnitudeSquared(m, v);
    SquareOfAbs(off.x);
    SquareOfAbs(off.y);
  }

  /** The square of distanceTo is the sum of the squared offsets to the nearest copy. */
  lemma DistanceSquared(p: Vector, q: Vector, cfg: Config, m: Numerics)
    requires SqrtLaw(m)
    ensures var c := ClosestCopy(p, q, cfg);
            Square(DistanceBetween(p, q, cfg, m)) == Square(p.x - c.x) + Square(p.y - c.y)
  {
    var c := ClosestCopy(p, q, cfg);
    var wx, wy := WrappedDistance(p.x, q.x, cfg.areaWidth), WrappedDistance(p.y, q.y, cfg.areaHeight);
    MagnitudeSquared(m, Vector(wx, wy));
    SquareOfAbs(p.x - c.x);
    SquareOfAbs(p.y - c.y);
  }

  /** Away from the borders, distanceTo is the plain Euclidean distance of Vector.distance. */
  lemma DistanceWithoutWrap(p: Vector, q: Vector, cfg: Config, m: Numerics)
    requires SqrtLaw(m)
    requires Abs(p.x - q.x) <= cfg.areaWidth / 2.0 && Abs(p.y - q.y) <= cfg.areaHeight / 2.0
    ensures DistanceBetween(p, q, cfg, m) == Distance(m, p, q)
  {
    var dx, dy := p.x - q.x, p.y - q.y;
    assert WrappedDistance(p.x, q.x, cfg.areaWidth) == Abs(dx);
    assert WrappedDistance(p.y, q.y, cfg.areaHeight) == Abs(dy);
    MagnitudeSquared(m, Vector(Abs(dx), Abs(dy)));
    MagnitudeSquared(m, Vector(dx, dy));
    SquareOfAbs(dx);
    SquareOfAbs(dy);
    SquareInjective(DistanceBetween(p, q, cfg, m), Distance(m, p, q));
  }

  lemma SquareOfAbs(r: real)
    ensures Square(Abs(r)) == Square(r)
  {
    if r < 0.0 {
      assert Abs(r) * Abs(r) == (-r) * (-r) == r * r;
    }
  }

  /** Each push of avoidBoids is a unit vector: the offset from the nearest copy, divided by its
      own length. */
  lemma PushIsUnit(p: Vector, q: Vector, cfg: Config, m: Numerics)
    requires SqrtLaw(m) && DistanceBetween(p, q, cfg, m) != 0.0
    ensures Square(Push(p, q, cfg, m).x) + Square(Push(p, q, cfg, m).y) == 1.0
  {
    var d := DistanceBetween(p, q, cfg, m);
    var c := ClosestCopy(p, q, cfg);
    DistanceSquared(p, q, cfg, m);
    QuotientSquares(p.x - c.x, p.y - c.y, d);
  }

  lemma QuotientSquares(a: real, b: real, d: real)
    requires d != 0.0 && Square(d) == Square(a) + Square(b)
    ensures Square(a / d) + Square(b / d) == 1.0
  {
    var u, v := a / d, b / d;
    assert u * d == a && v * d == b;
    assert Square(u) * Square(d) == Square(a) by {
      assert (u * u) * (d * d) == (u * d) * (u * d);
    }
    assert Square(v) * Square(d) == Square(b) by {
      assert (v * v) * (d * d) == (v * d) * (v * d);
    }
    var sum, dd := Square(u) + Square(v), Square(d);
    assert sum * dd == Square(u) * dd + Square(v) * dd;
    assert sum * dd == Square(a) + Square(b) == dd;
    assert dd * sum == dd * 1.0;
    SquarePositive(d);
    ScaleMonotone(dd, sum, 1.0);
    ScaleMonotone(dd, 1.0, sum);
  }

  lemma SquarePositive(d: real)
    requires d != 0.0
    ensures 0.0 < Square(d)
  {
    var e := if 0.0 < d then d else -d;
    ScaleMonotone(e, 0.0, e);
    calc {
      Square(d);
      e * e;
    >
      e * 0.0;
    }
  }

  // ---------------------------------------------------------------------------------------------
  // The close positions of avoidBoids.

  /** The close positions keep the order of `qs` and are exactly the positions within `r`, each as
      often as in `qs`. */
  lemma {:induction false} CloseFilter(p: Vector, qs: seq<Vector>, r: real, cfg: Config, m: Numerics)
    ensures var close := Close(p, qs, r, cfg, m);
            Subsequence(close, qs) &&
            (forall q :: q in close <==> q in qs && DistanceBetween(p, q, cfg, m) <= r) &&
            (forall q :: multiset(close)[q] == if DistanceBetween(p, q, cfg, m) <= r then multiset(qs)[q] else 0)
  {
    if qs != [] {
      CloseFilter(p, qs[1..], r, cfg, m);
      assert qs == [qs[0]] + qs[1..];
    }
  }

  /** avoidBoids has nothing to push away from exactly when every position is farther than the
      repel radius, and then its vector is zero. */
  lemma NoneClose(p: Vector, qs: seq<Vector>, cfg: Config, m: Numerics)
    ensures Close(p, qs, cfg.repelRadius, cfg, m) == [] <==>
            forall i :: 0 <= i < |qs| ==> cfg.repelRadius < DistanceBetween(p, qs[i], cfg, m)
    ensures Close(p, qs, cfg.repelRadius, cfg, m) == [] ==>
            Separation(p, Close(p, qs, cfg.repelRadius, cfg, m), cfg, m) == Vector(0.0, 0.0)
  {
    var close := Close(p, qs, cfg.repelRadius, cfg, m);
    CloseFilter(p, qs, cfg.repelRadius, cfg, m);
    if close != [] {
      assert close[0] in close;
    }
  }

  // ---------------------------------------------------------------------------------------------
  // Steering.

  /** The three steerTo calls of update add their weighted vectors to the direction vector, in
      order; the alignment vector has the speed left after the first two. */
  lemma SteeringAddsVectors(h0: Heading, center: Vector, separation: Vector, meanAngle: real,
                            cfg: Config, m: Numerics)
    requires Lawful(m)
    ensures var h1 := SteerHeading(h0, center, cfg.centerWeight, m);
            var h2 := SteerHeading(h1, separation, cfg.separationWeight, m);
            var r := SteeringSteps(h0, center, separation, meanAngle, cfg, m);
            PolarOf(m, r) ==
              Add(Add(Add(PolarOf(m, h0), Scale(center, cfg.centerWeight)),
                      Scale(separation, cfg.separationWeight)),
                  Scale(FromPolar(m, h2.speed, meanAngle), cfg.alignmentWeight)) &&
            0.0 <= r.speed && -Pi <= r.angle <= Pi
  {
    var h1 := SteerHeading(h0, center, cfg.centerWeight, m);
    var h2 := SteerHeading(h1, separation, cfg.separationWeight, m);
    SteerAddsVector(h0, center, cfg.centerWeight, m);
    SteerAddsVector(h1, separation, cfg.separationWeight, m);
    SteerAddsVector(h2, FromPolar(m, h2.speed, meanAngle), cfg.alignmentWeight, m);
  }

  /** The steerTo example: heading straight up at speed 1, steering towards (3, 1) with weight 1
      gives direction (3, 2): speed sqrt(13) and heading atan2(2, 3). */
  lemma SteerToExample(a: real, m: Numerics)
    requires m.cos(a) == 0.0 && m.sin(a) == 1.0
    ensures SteerHeading(Heading(1.0, a), Vector(3.0, 1.0), 1.0, m) == Heading(m.sqrt(13.0), m.atan2(2.0, 3.0))
  {
    assert PolarOf(m, Heading(1.0, a)) == Vector(0.0, 1.0);
  }

  /** With the source's default tunables, minSpeed lies below maxSpeed, so the clamp of update
      keeps every speed within [minSpeed, maxSpeed]. */
  lemma DefaultSpeedRange(s: real)
    ensures DEFAULTS.minSpeed <= ClampSpeed(s, DEFAULTS) <= DEFAULTS.maxSpeed
  {
    assert DEFAULTS.minSpeed <= DEFAULTS.maxSpeed;
  }

  // ---------------------------------------------------------------------------------------------
  // Moving and wrapping.

  /** One move keeps a boid inside the area, provided the step is no longer than the area on
      either axis. */
  lemma StepStaysInArea(p: Vector, h: Heading, time: real, cfg: Config, m: Numerics)
    requires UnitRange(m) && 0.0 < cfg.areaWidth && 0.0 < cfg.areaHeight
    requires 0.0 <= p.x < cfg.areaWidth && 0.0 <= p.y < cfg.areaHeight
    requires Abs(time * h.speed) <= cfg.areaWidth && Abs(time * h.speed) <= cfg.areaHeight
    ensures var q := WrapInArea(Add(p, Scale(PolarOf(m, h), time)), cfg);
            0.0 <= q.x < cfg.areaWidth && 0.0 <= q.y < cfg.areaHeight
  {
    var c, s := m.cos(h.angle), m.sin(h.angle);
    assert time * (h.speed * c) == (time * h.speed) * c;
    assert time * (h.speed * s) == (time * h.speed) * s;
    assert Scale(PolarOf(m, h), time) == FromPolar(m, time * h.speed, h.angle);
    FromPolarBound(m, time * h.speed, h.angle);
  }

  /** The wrap examples of the test suite: 450 and 550 stay in a 500×600 area; in a 400×500
      area they become 50 and 50; -10 and -20 become 390 and 480. */
  lemma WrapExamples()
    ensures WrapCoordinate(450.0, 500.0) == 450.0 && WrapCoordinate(550.0, 600.0) == 550.0
    ensures WrapCoordinate(450.0, 400.0) == 50.0 && WrapCoordinate(550.0, 500.0) == 50.0
    ensures WrapCoordinate(-10.0, 400.0) == 390.0 && WrapCoordinate(-20.0, 500.0) == 480.0
  {
    assert Trunc(450.0 / 400.0) == 1;
    assert Trunc(550.0 / 500.0) == 1;
  }

  // ---------------------------------------------------------------------------------------------
  // The field of view and the neighbour examples.

  /** With a sight angle of a full circle, inAngle accepts every other boid, as long as the
      heading lies in [-Pi, 2·Pi] (the random start heading and every steered heading do). */
  lemma FullCircleInAngle(a: Boid, b: Boid, cfg: Config, m: Numerics)
    requires AngleRange(m) && -Pi <= a.angle <= 2.0 * Pi && a != b
    ensures a.InAngle(b, Pi * 2.0, cfg, m)
  {
    var bearing := Angle(m, RelativeOffset(a.Position(), b.Position(), cfg));
    assert -Pi <= bearing <= Pi;
    assert Abs(a.angle - bearing) <= 3.0 * (Pi * 2.0) / 2.0;
  }

  /** A wider angle limit admits every boid a narrower one does, and no limit admits the boid itself. */
  lemma InAngleWidens(a: Boid, b: Boid, narrow: real, wide: real, cfg: Config, m: Numerics)
    requires narrow <= wide
    ensures a.InAngle(b, narrow, cfg, m) ==> a.InAngle(b, wide, cfg, m)
    ensures !a.InAngle(a, wide, cfg, m)
  {
  }

  /** The skipped border test: boids at (199, 99) and (1, 1) of a 200×100 area are sqrt(8) apart
      across the corner, so each has the other within a sight radius of 10. */
  lemma BorderExample(a: Boid, b: Boid, cfg: Config, m: Numerics)
    requires SqrtLaw(m) && cfg.areaWidth == 200.0 && cfg.areaHeight == 100.0
    requires a.Position() == Vector(199.0, 99.0) && b.Position() == Vector(1.0, 1.0) && a != b
    ensures Square(a.DistanceTo(b, cfg, m)) == 8.0 && Square(b.DistanceTo(a, cfg, m)) == 8.0
    ensures a.InRadius(b, 10.0, cfg, m) && b.InRadius(a, 10.0, cfg, m)
  {
    var p, q := a.Position(), b.Position();
    assert ClosestCopy(p, q, cfg) == Vector(201.0, 101.0);
    DistanceSquared(p, q, cfg, m);
    var d := DistanceBetween(p, q, cfg, m);
    assert a.DistanceTo(b, cfg, m) == d;
    SquareLess(d, 10.0);
    InRadiusSymmetric(a, b, 10.0, cfg, m);
  }

  /** The positions of the test boid and of its neighbours b1, b2 and b3 in the test suite. */
  const Here: Vector := Vector(10.0, 20.0)
  const Above: Vector := Vector(10.0, 29.0)
  const Below: Vector := Vector(10.0, 31.0)
  const Beside: Vector := Vector(16.0, 13.0)

  /** From (10, 20), the boid at (10, 29) is at distance 9, the one at (10, 31) at distance 11 and
      the one at (16, 13) at distance sqrt(85), which lies between 9 and 10. */
  lemma ExampleDistances(cfg: Config, m: Numerics)
    requires SqrtLaw(m) && cfg.areaWidth == 800.0 && cfg.areaHeight == 600.0
    ensures DistanceBetween(Here, Above, cfg, m) == 9.0
    ensures DistanceBetween(Here, Below, cfg, m) == 11.0
    ensures var d := DistanceBetween(Here, Beside, cfg, m);
            Square(d) == 85.0 && 9.0 < d < 10.0
  {
    assert ClosestCopy(Here, Above, cfg) == Above;
    assert ClosestCopy(Here, Below, cfg) == Below;
    assert ClosestCopy(Here, Beside, cfg) == Beside;
    DistanceSquared(Here, Above, cfg, m);
    DistanceSquared(Here, Below, cfg, m);
    DistanceSquared(Here, Beside, cfg, m);
    var d1, d2, d3 := DistanceBetween(Here, Above, cfg, m), DistanceBetween(Here, Below, cfg, m),
                      DistanceBetween(Here, Beside, cfg, m);
    assert Square(d1) == 81.0 == Square(9.0);
    assert Square(d2) == 121.0 == Square(11.0);
    assert Square(d3) == 85.0;
    SquareInjective(d1, 9.0);
    SquareInjective(d2, 11.0);
    SquareLess(9.0, d3);
    SquareLess(d3, 10.0);
  }

  /** The neighbourhood example: a boid at (10, 20) with sight radius 10 and a full circle of
      sight sees the boids at (10, 29) and (16, 13), but not the one at (10, 31). */
  lemma VisibleExample(a: Boid, b1: Boid, b2: Boid, b3: Boid, cfg: Config, m: Numerics)
    requires Lawful(m)
    requires cfg.sightRadius == 10.0 && cfg.sightAngle == Pi * 2.0
    requires cfg.areaWidth == 800.0 && cfg.areaHeight == 600.0
    requires a.Position() == Here && -Pi <= a.angle <= 2.0 * Pi
    requires b1.Position() == Above && b2.Position() == Below && b3.Position() == Beside
    requires a != b1 && a != b2 && a != b3
    ensures a.GetVisibleBoids([b1, b2, b3], cfg, m) == [b1, b3]
  {
    ExampleDistances(cfg, m);
    FullCircleInAngle(a, b1, cfg, m);
    FullCircleInAngle(a, b3, cfg, m);
    assert a.Sees(b1, cfg, m) && !a.Sees(b2, cfg, m) && a.Sees(b3, cfg, m);
    assert [b1, b2, b3][1..] == [b2, b3];
    assert [b2, b3][1..] == [b3];
    assert [b3][1..] == [];
    assert a.GetVisibleBoids([b3], cfg, m) == [b3];
    assert a.GetVisibleBoids([b2, b3], cfg, m) == [b3];
  }

  /** The findCenter example: seen from (10, 20), the boids at (10, 29) and (16, 13) have their
      center at offset (3, 1). */
  lemma FindCenterExample(cfg: Config)
    requires cfg.areaWidth == 800.0 && cfg.areaHeight == 600.0
    ensures CenterOf(Vector(10.0, 20.0), [Vector(10.0, 29.0), Vector(16.0, 13.0)], cfg) == Vector(3.0, 1.0)
  {
    var p, qs := Vector(10.0, 20.0), [Vector(10.0, 29.0), Vector(16.0, 13.0)];
    assert qs[..1] == [Vector(10.0, 29.0)];
    assert qs[..1][..0] == [];
    assert ClosestCopy(p, qs[0], cfg) == Vector(10.0, 29.0);
    assert ClosestCopy(p, qs[1], cfg) == Vector(16.0, 13.0);
    assert SumClosest(p, qs[..1], cfg) == Vector(10.0, 29.0);
    assert SumClosest(p, qs, cfg) == Vector(26.0, 42.0);
  }

  /** The alignAngles example: the mean of 45° and 90° is 67.5°. It is an arithmetic mean, not a
      circular one: 359° and 1° average to 180°, the opposite of both. */
  lemma MeanAngleExamples()
    ensures MeanAngle([45.0 * Pi / 180.0, 90.0 * Pi / 180.0]) == 67.5 * Pi / 180.0
    ensures MeanAngle([359.0 * Pi / 180.0, 1.0 * Pi / 180.0]) == 180.0 * Pi / 180.0
  {
    var a, b := 45.0 * Pi / 180.0, 90.0 * Pi / 180.0;
    assert [a, b][..1] == [a] && [a][..0] == [];
    assert SumAngles([a]) == a;
    assert SumAngles([a, b]) == a + b;
    var c, d := 359.0 * Pi / 180.0, 1.0 * Pi / 180.0;
    assert [c, d][..1] == [c] && [c][..0] == [];
    assert SumAngles([c]) == c;
    assert SumAngles([c, d]) == c + d;
  }

  /** The avoidBoids examples, which boids are close: none with repel radius 0, the boid at
      (10, 29) with radius 9, both with radius 10. */
  lemma CloseExamples(cfg: Config, m: Numerics)
    requires SqrtLaw(m) && cfg.areaWidth == 800.0 && cfg.areaHeight == 600.0
    ensures Close(Here, [Above, Beside], 0.0, cfg, m) == []
    ensures Close(Here, [Above, Beside], 9.0, cfg, m) == [Above]
    ensures Close(Here, [Above, Beside], 10.0, cfg, m) == [Above, Beside]
  {
    ExampleDistances(cfg, m);
    CloseOfTwo(Here, Above, Beside, 0.0, cfg, m);
    CloseOfTwo(Here, Above, Beside, 9.0, cfg, m);
    CloseOfTwo(Here, Above, Beside, 10.0, cfg, m);
  }

  lemma CloseOfTwo(p: Vector, q1: Vector, q2: Vector, r: real, cfg: Config, m: Numerics)
    ensures Close(p, [q1, q2], r, cfg, m) ==
            (if DistanceBetween(p, q1, cfg, m) <= r then [q1] else []) +
            (if DistanceBetween(p, q2, cfg, m) <= r then [q2] else [])
  {
    CloseCons(p, q1, [q2], r, cfg, m);
    CloseCons(p, q2, [], r, cfg, m);
    assert [q1] + [q2] == [q1, q2] && [q2] + [] == [q2];
  }

  lemma CloseCons(p: Vector, q: Vector, qs: seq<Vector>, r: real, cfg: Config, m: Numerics)
    ensures Close(p, [q] + qs, r, cfg, m) ==
            (if DistanceBetween(p, q, cfg, m) <= r then [q] else []) + Close(p, qs, r, cfg, m)
  {
    assert ([q] + qs)[0] == q && ([q] + qs)[1..] == qs;
  }

  /** The separation vector of one position is its push; that of two is the mean of the two pushes. */
  lemma SeparationOfOneAndTwo(p: Vector, a: Vector, b: Vector, pushA: Vector, pushB: Vector, cfg: Config, m: Numerics)
    requires DistanceBetween(p, a, cfg, m) != 0.0 && DistanceBetween(p, b, cfg, m) != 0.0
    requires pushA == Push(p, a, cfg, m) && pushB == Push(p, b, cfg, m)
    ensures Apart(p, [a], cfg, m) && Apart(p, [a, b], cfg, m)
    ensures Separation(p, [a], cfg, m) == pushA
    ensures Separation(p, [a, b], cfg, m) == Vector((pushA.x + pushB.x) / 2.0, (pushA.y + pushB.y) / 2.0)
  {
    var qs := [a, b];
    assert qs[0] == a && qs[1] == b && [a][0] == a;
    assert SumPush(p, [a], 1, cfg, m) == Add(Vector(0.0, 0.0), pushA);
    assert SumPush(p, qs, 1, cfg, m) == Add(Vector(0.0, 0.0), pushA);
  }

  /** The pushes away from the two close boids of the avoidBoids test. */
  lemma PushExamples(cfg: Config, m: Numerics)
    requires SqrtLaw(m) && cfg.areaWidth == 800.0 && cfg.areaHeight == 600.0
    ensures DistanceBetween(Here, Above, cfg, m) != 0.0 && DistanceBetween(Here, Beside, cfg, m) != 0.0
    ensures Push(Here, Above, cfg, m) == Vector(0.0, -1.0)
    ensures var d := DistanceBetween(Here, Beside, cfg, m);
            Push(Here, Beside, cfg, m) == Vector(-6.0 / d, 7.0 / d)
  {
    ExampleDistances(cfg, m);
    assert ClosestCopy(Here, Above, cfg) == Above && ClosestCopy(Here, Beside, cfg) == Beside;
    PushFrom(Here, Above, Above, 9.0, cfg, m);
    PushFrom(Here, Beside, Beside, DistanceBetween(Here, Beside, cfg, m), cfg, m);
  }

  /** The separation vectors of the avoidBoids test: one boid straight above pushes straight
      down; with a second one the push is the mean of the two. */
  lemma SeparationExamples(cfg: Config, m: Numerics)
    requires SqrtLaw(m) && cfg.areaWidth == 800.0 && cfg.areaHeight == 600.0
    ensures Apart(Here, [Above, Beside], cfg, m)
    ensures Separation(Here, [Above], cfg, m) == Vector(0.0, -1.0)
    ensures var d := DistanceBetween(Here, Beside, cfg, m);
            Separation(Here, [Above, Beside], cfg, m) == Vector((-6.0 / d) / 2.0, (-1.0 + 7.0 / d) / 2.0)
  {
    PushExamples(cfg, m);
    var d := DistanceBetween(Here, Beside, cfg, m);
    SeparationOfOneAndTwo(Here, Above, Beside, Vector(0.0, -1.0), Vector(-6.0 / d, 7.0 / d), cfg, m);
  }
}
