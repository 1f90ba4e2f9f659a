/** The Boid class of src/boid.ts: four mutable fields, neighbour selection, the three behaviour
    vectors and the per-tick update, each proved against the value-level functions of Steering. */
module Flocking {
  import opened Geometry
  import opened Steering

  /** `r` keeps the elements of `s` in their order, dropping some (matched greedily from the front). */
  predicate Subsequence<T(==)>(r: seq<T>, s: seq<T>)
    decreases |s|
  {
    if r == [] then true
    else if s == [] then false
    else if r[0] == s[0] then Subsequence(r[1..], s[1..])
    else Subsequence(r, s[1..])
  }

  /** The positions of `boids`, in order. */
  function Positions(boids: seq<Boid>): (ps: seq<Vector>)
    reads boids`x, boids`y
    ensures |ps| == |boids|
    ensures forall i :: 0 <= i < |boids| ==> ps[i] == boids[i].Position()
  {
    if boids == [] then [] else [boids[0].Position()] + Positions(boids[1..])
  }

  /** The headings of `boids`, in order. */
  function Angles(boids: seq<Boid>): (angles: seq<real>)
    reads boids`angle
    ensures |angles| == |boids|
    ensures forall i :: 0 <= i < |boids| ==> angles[i] == boids[i].angle
  {
    if boids == [] then [] else [boids[0].angle] + Angles(boids[1..])
  }

  /** The headings of `boids` are `angles` when the two agree element by element. */
  lemma AnglesAre(boids: seq<Boid>, angles: seq<real>)
    requires |angles| == |boids| && forall i :: 0 <= i < |boids| ==> angles[i] == boids[i].angle
    ensures Angles(boids) == angles
  {
  }

  class Boid {
    var x: real
    var y: real
    var angle: real
    var speed: real

    /** The constructor, with the random position and heading given as arguments. */
    constructor (x0: real, y0: real, heading: real, cfg: Config)
      ensures x == x0 && y == y0 && angle == heading && speed == cfg.maxSpeed
    {
      x, y := x0, y0;
      angle := heading;
      speed := cfg.maxSpeed;
    }

    function Position(): Vector
      reads this`x, this`y
    {
      Vector(x, y)
    }

    /** getDirection: the velocity vector of the boid. */
    function Direction(m: Numerics): (d: Vector)
      reads this`speed, this`angle
      ensures d == PolarOf(m, Heading(speed, angle))
      ensures UnitRange(m) ==> Abs(d.x) <= Abs(speed) && Abs(d.y) <= Abs(speed)
    {
      PolarBounded(m, speed, angle);
      FromPolar(m, speed, angle)
    }

    /** steerTo: add `weight·v` to the direction vector, then take speed and heading from the sum. */
    method SteerTo(v: Vector, weight: real, m: Numerics)
      modifies this`speed, this`angle
      ensures Heading(speed, angle) == SteerHeading(old(Heading(speed, angle)), v, weight, m)
      ensures Lawful(m) ==> Direction(m) == Add(old(Direction(m)), Scale(v, weight))
    {
      var direction := Direction(m);
      direction := Vector(direction.x + weight * v.x, direction.y + weight * v.y);
      assert direction == Add(PolarOf(m, Heading(speed, angle)), Scale(v, weight));
      speed := Magnitude(m, direction);
      angle := Angle(m, direction);
      if Lawful(m) {
        SteerAddsVector(old(Heading(speed, angle)), v, weight, m);
      }
    }

    /** distanceTo. */
    function DistanceTo(b: Boid, cfg: Config, m: Numerics): real
      reads this`x, this`y, b`x, b`y
    {
      DistanceBetween(Position(), b.Position(), cfg, m)
    }

    /** inRadius: `b` is another boid (by identity) no farther than `r`. */
    predicate InRadius(b: Boid, r: real, cfg: Config, m: Numerics)
      reads this`x, this`y, b`x, b`y
    {
      b != this && DistanceTo(b, cfg, m) <= r
    }

    /** inAngle: `b` is another boid whose bearing differs from this boid's heading by at most
        half of `angleLimit`. */
    predicate InAngle(b: Boid, angleLimit: real, cfg: Config, m: Numerics)
      reads this`x, this`y, this`angle, b`x, b`y
    {
      b != this && BearingGap(Position(), angle, b.Position(), cfg, m) <= angleLimit / 2.0
    }

    /** The boids a boid can see: within sightRadius and inside the field of view. */
    predicate Sees(b: Boid, cfg: Config, m: Numerics)
      reads this`x, this`y, this`angle, b`x, b`y
    {
      InRadius(b, cfg.sightRadius, cfg, m) && InAngle(b, cfg.sightAngle, cfg, m)
    }

    /** getVisibleBoids: the order-preserving filter of `boids` by Sees (its filter property is
        VisibleBoidsFilter). */
    function GetVisibleBoids(boids: seq<Boid>, cfg: Config, m: Numerics): (r: seq<Boid>)
      reads this`x, this`y, this`angle, boids`x, boids`y
      ensures forall b :: b in r ==> b in boids
      ensures this !in r
    {
      if boids == [] then []
      else
        var rest := GetVisibleBoids(boids[1..], cfg, m);
        if Sees(boids[0], cfg, m) then [boids[0]] + rest else rest
    }

    /** The visible boids are exactly the boids this boid sees, in their original order and each as
        often as in `boids`; each is another boid within sightRadius. */
    lemma {:induction false} VisibleBoidsFilter(boids: seq<Boid>, cfg: Config, m: Numerics)
      ensures var r := GetVisibleBoids(boids, cfg, m);
              Subsequence(r, boids) &&
              (forall b :: b in r <==> b in boids && Sees(b, cfg, m)) &&
              (forall b :: multiset(r)[b] == if Sees(b, cfg, m) then multiset(boids)[b] else 0) &&
              (forall b :: b in r ==> b != this && DistanceTo(b, cfg, m) <= cfg.sightRadius)
    {
      if boids != [] {
        VisibleBoidsFilter(boids[1..], cfg, m);
        assert boids == [boids[0]] + boids[1..];
      }
    }

    /** The filter `boids.filter(b => this.inRadius(b, r))` of avoidBoids (its filter property is
        NeighboursFilter). */
    function Neighbours(boids: seq<Boid>, r: real, cfg: Config, m: Numerics): (close: seq<Boid>)
      reads this`x, this`y, boids`x, boids`y
      ensures forall i :: 0 <= i < |close| ==> close[i] in boids
    {
      if boids == [] then []
      else
        var rest := Neighbours(boids[1..], r, cfg, m);
        if InRadius(boids[0], r, cfg, m) then [boids[0]] + rest else rest
    }

    /** The neighbours within `r` are exactly the other boids within `r`, in their original order
        and each as often as in `boids`. */
    lemma {:induction false} NeighboursFilter(boids: seq<Boid>, r: real, cfg: Config, m: Numerics)
      ensures var close := Neighbours(boids, r, cfg, m);
              Subsequence(close, boids) &&
              (forall b :: b in close <==> b in boids && InRadius(b, r, cfg, m)) &&
              (forall b :: multiset(close)[b] == if InRadius(b, r, cfg, m) then multiset(boids)[b] else 0)
    {
      if boids != [] {
        NeighboursFilter(boids[1..], r, cfg, m);
        assert boids == [boids[0]] + boids[1..];
      }
    }

    /** findCenter: the mean nearest-copy position of `boids`, relative to this boid. */
    method FindCenter(boids: seq<Boid>, cfg: Config) returns (center: Vector)
      requires |boids| > 0
      ensures center == CenterOf(Position(), Positions(boids), cfg)
    {
      ghost var ps := Positions(boids);
      var cx, cy := 0.0, 0.0;
      for i := 0 to |boids|
        invariant Vector(cx, cy) == SumClosest(Position(), ps[..i], cfg)
      {
        assert ps[..i + 1][..i] == ps[..i];
        cx := cx + ClosestWrappedPoint(x, boids[i].x, cfg.areaWidth);
        cy := cy + ClosestWrappedPoint(y, boids[i].y, cfg.areaHeight);
      }
      assert ps[..|boids|] == ps;
      center := Vector(cx / |boids| as real - x, cy / |boids| as real - y);
    }

    /** alignAngles: a vector of this boid's speed along the mean heading of `boids`. */
    method AlignAngles(boids: seq<Boid>, m: Numerics) returns (v: Vector)
      requires |boids| > 0
      ensures v == FromPolar(m, speed, MeanAngle(Angles(boids)))
    {
      ghost var angles := Angles(boids);
      var sum := 0.0;
      for i := 0 to |boids|
        invariant sum == SumAngles(angles[..i])
      {
        assert angles[..i + 1][..i] == angles[..i];
        sum := sum + boids[i].angle;
      }
      assert angles[..|boids|] == angles;
      var meanAngle := sum / |boids| as real;
      v := FromPolar(m, speed, meanAngle);
    }

    /** The close positions are the positions of the close boids, when this boid is not among
        the boids it looks at. */
    lemma {:induction false} NeighbourPositions(boids: seq<Boid>, r: real, cfg: Config, m: Numerics)
      requires this !in boids
      ensures Positions(Neighbours(boids, r, cfg, m)) == Close(Position(), Positions(boids), r, cfg, m)
    {
      if boids != [] {
        NeighbourPositions(boids[1..], r, cfg, m);
        assert Positions(boids)[1..] == Positions(boids[1..]);
      }
    }

    /** No boid within repelRadius, whom avoidBoids divides by the distance to, is at distance zero. */
    predicate NoCoincident(boids: seq<Boid>, cfg: Config, m: Numerics)
      reads this`x, this`y, boids`x, boids`y
    {
      Apart(Position(), Positions(Neighbours(boids, cfg.repelRadius, cfg, m)), cfg, m)
    }

    /** The forEach of avoidBoids: the sum of the pushes away from `close`, none of which is at
        distance zero. */
    method SumPushes(close: seq<Boid>, cfg: Config, m: Numerics) returns (sum: Vector)
      requires Apart(Position(), Positions(close), cfg, m)
      ensures sum == SumPush(Position(), Positions(close), |close|, cfg, m)
    {
      var p := Position();
      ghost var ps := Positions(close);
      sum := Vector(0.0, 0.0);
      for i := 0 to |close|
        invariant sum == SumPush(p, ps, i, cfg, m)
      {
        var b := close[i];
        assert b.Position() == ps[i];
        var dist := DistanceTo(b, cfg, m);
        var nearX := ClosestWrappedPoint(p.x, b.x, cfg.areaWidth);
        var nearY := ClosestWrappedPoint(p.y, b.y, cfg.areaHeight);
        var push := Vector((p.x - nearX) / dist, (p.y - nearY) / dist);
        assert push == Push(p, ps[i], cfg, m) by {
          PushFrom(p, ps[i], Vector(nearX, nearY), dist, cfg, m);
        }
        sum := Add(sum, push);
      }
    }

    /** avoidBoids: the mean push away from the boids within repelRadius, or zero if none is. */
    method AvoidBoids(boids: seq<Boid>, cfg: Config, m: Numerics) returns (direction: Vector)
      requires NoCoincident(boids, cfg, m)
      ensures direction == Separation(Position(), Positions(Neighbours(boids, cfg.repelRadius, cfg, m)), cfg, m)
    {
      var close := Neighbours(boids, cfg.repelRadius, cfg, m);
      ghost var p, ps := Position(), Positions(close);
      ghost var separation := Separation(p, ps, cfg, m);
      direction := Vector(0.0, 0.0);
      if |close| > 0 {
        var sum := SumPushes(close, cfg, m);
        assert Position() == p && Positions(close) == ps;
        direction := Vector(sum.x / |close| as real, sum.y / |close| as real);
      }
      assert direction == separation;
      assert Neighbours(boids, cfg.repelRadius, cfg, m) == close;
    }

    /** `this.steerTo(this.findCenter(visible), centerWeight)`. */
    method SteerToCenter(visible: seq<Boid>, cfg: Config, m: Numerics)
      requires |visible| > 0 && this !in visible
      modifies this`speed, this`angle
      ensures Angles(visible) == old(Angles(visible))
      ensures Heading(speed, angle) ==
              SteerHeading(old(Heading(speed, angle)), old(CenterOf(Position(), Positions(visible), cfg)), cfg.centerWeight, m)
    {
      ghost var h0, c, angles := Heading(speed, angle), CenterOf(Position(), Positions(visible), cfg), Angles(visible);
      var center := FindCenter(visible, cfg);
      assert Heading(speed, angle) == h0 && center == c;
      SteerTo(center, cfg.centerWeight, m);
      assert forall i :: 0 <= i < |visible| ==> angles[i] == visible[i].angle;
      AnglesAre(visible, angles);
    }

    /** `this.steerTo(this.avoidBoids(visible), separationWeight)`. */
    method SteerApart(visible: seq<Boid>, cfg: Config, m: Numerics)
      requires this !in visible && Separable(Position(), Positions(visible), cfg, m)
      modifies this`speed, this`angle
      ensures Angles(visible) == old(Angles(visible))
      ensures Heading(speed, angle) ==
              SteerHeading(old(Heading(speed, angle)),
                           old(Separation(Position(), Close(Position(), Positions(visible), cfg.repelRadius, cfg, m), cfg, m)),
                           cfg.separationWeight, m)
    {
      NeighbourPositions(visible, cfg.repelRadius, cfg, m);
      ghost var h0, p, angles := Heading(speed, angle), Position(), Angles(visible);
      ghost var close := Neighbours(visible, cfg.repelRadius, cfg, m);
      ghost var cps := Positions(close);
      ghost var s := Separation(p, cps, cfg, m);
      var separation := AvoidBoids(visible, cfg, m);
      assert Heading(speed, angle) == h0 && Position() == p;
      assert Neighbours(visible, cfg.repelRadius, cfg, m) == close;
      assert Positions(close) == cps;
      assert separation == s;
      SteerTo(separation, cfg.separationWeight, m);
      assert forall i :: 0 <= i < |visible| ==> angles[i] == visible[i].angle;
      AnglesAre(visible, angles);
    }

    /** `this.steerTo(this.alignAngles(visible), alignmentWeight)`. */
    method SteerAlong(visible: seq<Boid>, cfg: Config, m: Numerics)
      requires |visible| > 0
      modifies this`speed, this`angle
      ensures Heading(speed, angle) ==
              SteerHeading(old(Heading(speed, angle)), old(FromPolar(m, speed, MeanAngle(Angles(visible)))), cfg.alignmentWeight, m)
    {
      ghost var h0, a := Heading(speed, angle), FromPolar(m, speed, MeanAngle(Angles(visible)));
      var alignment := AlignAngles(visible, m);
      assert Heading(speed, angle) == h0 && alignment == a;
      SteerTo(alignment, cfg.alignmentWeight, m);
    }

    /** The steering part of update: nothing when no boid is visible, otherwise steerTo towards
        the center, away from the close boids, and along the mean heading, in that order. */
    method SteerAll(visible: seq<Boid>, cfg: Config, m: Numerics)
      requires this !in visible && Separable(Position(), Positions(visible), cfg, m)
      modifies this`speed, this`angle
      ensures Heading(speed, angle) ==
              old(Steered(Heading(speed, angle), Position(), Positions(visible), Angles(visible), cfg, m))
    {
      if |visible| > 0 {
        ghost var h0, p, ps, angles := Heading(speed, angle), Position(), Positions(visible), Angles(visible);
        ghost var center := CenterOf(p, ps, cfg);
        ghost var separation := Separation(p, Close(p, ps, cfg.repelRadius, cfg, m), cfg, m);
        assert Steered(h0, p, ps, angles, cfg, m) == SteeringSteps(h0, center, separation, MeanAngle(angles), cfg, m);
        SteerToCenter(visible, cfg, m);
        ghost var h1 := Heading(speed, angle);
        assert h1 == SteerHeading(h0, center, cfg.centerWeight, m);
        assert Position() == p && Positions(visible) == ps;
        SteerApart(visible, cfg, m);
        ghost var h2 := Heading(speed, angle);
        assert h2 == SteerHeading(h1, separation, cfg.separationWeight, m);
        SteerAlong(visible, cfg, m);
        assert Heading(speed, angle) ==
               SteerHeading(h2, FromPolar(m, h2.speed, MeanAngle(angles)), cfg.alignmentWeight, m);
      }
    }

    /** The position wrap at the end of update: add the area size once to a negative coordinate,
        then take JavaScript's remainder by the area size. */
    method WrapPosition(cfg: Config)
      requires cfg.areaWidth != 0.0 && cfg.areaHeight != 0.0
      modifies this`x, this`y
      ensures x == WrapCoordinate(old(x), cfg.areaWidth) && y == WrapCoordinate(old(y), cfg.areaHeight)
    {
      if x < 0.0 {
        x := x + cfg.areaWidth;
      }
      if y < 0.0 {
        y := y + cfg.areaHeight;
      }
      x := JsRem(x, cfg.areaWidth);
      y := JsRem(y, cfg.areaHeight);
    }

    /** The end of update: move by `time` times the direction vector, then wrap into the area. */
    method Move(time: real, cfg: Config, m: Numerics)
      requires cfg.areaWidth != 0.0 && cfg.areaHeight != 0.0
      modifies this`x, this`y
      ensures Position() == WrapInArea(Add(old(Position()), Scale(Direction(m), time)), cfg)
    {
      var step := Scale(Direction(m), time);
      x := x + step.x;
      y := y + step.y;
      WrapPosition(cfg);
    }

    /** The first half of update: steer towards the boids this boid sees, then clamp the speed. */
    method Steer(boids: seq<Boid>, cfg: Config, m: Numerics)
      requires Separable(Position(), Positions(GetVisibleBoids(boids, cfg, m)), cfg, m)
      modifies this`speed, this`angle
      ensures var visible := old(GetVisibleBoids(boids, cfg, m));
              var h := old(Steered(Heading(speed, angle), Position(), Positions(visible), Angles(visible), cfg, m));
              speed == ClampSpeed(h.speed, cfg) && angle == h.angle
    {
      var visible := GetVisibleBoids(boids, cfg, m);
      ghost var h := Steered(Heading(speed, angle), Position(), Positions(visible), Angles(visible), cfg, m);
      SteerAll(visible, cfg, m);
      assert Heading(speed, angle) == h;

      speed := if speed < cfg.maxSpeed then speed else cfg.maxSpeed;
      speed := if speed < cfg.minSpeed then cfg.minSpeed else speed;
    }

    /** update: steer towards the visible boids, clamp the speed, move by `time` times the
        direction vector, and wrap the position into the area. */
    method Update(time: real, boids: seq<Boid>, cfg: Config, m: Numerics)
      requires cfg.areaWidth != 0.0 && cfg.areaHeight != 0.0
      requires Separable(Position(), Positions(GetVisibleBoids(boids, cfg, m)), cfg, m)
      modifies this
      ensures var visible := old(GetVisibleBoids(boids, cfg, m));
              var h := old(Steered(Heading(speed, angle), Position(), Positions(visible), Angles(visible), cfg, m));
              speed == ClampSpeed(h.speed, cfg) && angle == h.angle
      ensures Position() == WrapInArea(Add(old(Position()), Scale(Direction(m), time)), cfg)
    {
      Steer(boids, cfg, m);
      Move(time, cfg, m);
    }
  }
}
