/** The arithmetic of one boid's behaviour in src/boid.ts, stated on plain values (positions,
    headings, angles) so that the Boid class can be proved against it: the tunables, steerTo as
    a function of a heading, the speed clamp, and the cohesion, separation and alignment vectors. */
module Steering {
  import opened Geometry

  /** The static tunables of class Boid, as one record that every operation reads. */
  datatype Config = Config(
    sightRadius: real,
    sightAngle: real,
    repelRadius: real,
    maxSpeed: real,
    minSpeed: real,
    areaWidth: real,
    areaHeight: real,
    centerWeight: real,
    alignmentWeight: real,
    separationWeight: real)

  /** The values the source starts with. */
  const DEFAULTS: Config := Config(
    sightRadius := 70.0,
    sightAngle := Pi * (5.0 / 4.0),
    repelRadius := 30.0,
    maxSpeed := 0.2,
    minSpeed := 0.05,
    areaWidth := 800.0,
    areaHeight := 600.0,
    centerWeight := 0.001,
    alignmentWeight := 0.005,
    separationWeight := 0.03)

  /** Speed and heading: the part of a boid that steering changes. */
  datatype Heading = Heading(speed: real, angle: real)

  /** The direction vector a heading stands for (getDirection). */
  function PolarOf(m: Numerics, h: Heading): Vector
  {
    FromPolar(m, h.speed, h.angle)
  }

  /** One steerTo call on values: add `weight·v` to the direction vector and read speed and heading
      back from the sum. */
  function SteerHeading(h: Heading, v: Vector, weight: real, m: Numerics): Heading
  {
    var direction := Add(PolarOf(m, h), Scale(v, weight));
    Heading(Magnitude(m, direction), Angle(m, direction))
  }

  /** Steering adds `weight·v` to the direction vector, and leaves a non-negative speed and a
      heading in [-Pi, Pi]. So steering composes linearly on direction vectors. */
  lemma SteerAddsVector(h: Heading, v: Vector, weight: real, m: Numerics)
    requires Lawful(m)
    ensures var r := SteerHeading(h, v, weight, m);
            PolarOf(m, r) == Add(PolarOf(m, h), Scale(v, weight)) && 0.0 <= r.speed && -Pi <= r.angle <= Pi
  {
    var direction := Add(PolarOf(m, h), Scale(v, weight));
    assert FromPolar(m, Magnitude(m, direction), Angle(m, direction)) == direction;
  }

  /** The three steerTo calls of update, in their order and with their weights: towards the
      center, away from the close boids, then along the mean heading at the speed left by the
      first two. */
  function SteeringSteps(h0: Heading, center: Vector, separation: Vector, meanAngle: real,
                         cfg: Config, m: Numerics): Heading
  {
    var h1 := SteerHeading(h0, center, cfg.centerWeight, m);
    var h2 := SteerHeading(h1, separation, cfg.separationWeight, m);
    SteerHeading(h2, FromPolar(m, h2.speed, meanAngle), cfg.alignmentWeight, m)
  }

  /** The speed clamp of update: first capped at maxSpeed, then raised to minSpeed. */
  function ClampSpeed(s: real, cfg: Config): (r: real)
    ensures cfg.minSpeed <= r
    ensures r <= cfg.maxSpeed || r == cfg.minSpeed
    ensures cfg.minSpeed <= cfg.maxSpeed ==> r <= cfg.maxSpeed
    ensures cfg.minSpeed <= s <= cfg.maxSpeed ==> r == s
    ensures s < cfg.minSpeed ==> r == cfg.minSpeed
    ensures cfg.minSpeed <= cfg.maxSpeed < s ==> r == cfg.maxSpeed
  {
    var capped := if s < cfg.maxSpeed then s else cfg.maxSpeed;
    if capped < cfg.minSpeed then cfg.minSpeed else capped
  }

  /** A position wrapped into the area, axis by axis. */
  function WrapInArea(p: Vector, cfg: Config): Vector
    requires cfg.areaWidth != 0.0 && cfg.areaHeight != 0.0
  {
    Vector(WrapCoordinate(p.x, cfg.areaWidth), WrapCoordinate(p.y, cfg.areaHeight))
  }

  /** The copy of `q` nearest to `p` on the wrapped area, axis by axis. */
  function ClosestCopy(p: Vector, q: Vector, cfg: Config): Vector
  {
    Vector(ClosestWrappedPoint(p.x, q.x, cfg.areaWidth), ClosestWrappedPoint(p.y, q.y, cfg.areaHeight))
  }

  /** distanceTo on positions: the length of the shortest offset on the wrapped area. */
  function DistanceBetween(p: Vector, q: Vector, cfg: Config, m: Numerics): (d: real)
    ensures SqrtLaw(m) ==> 0.0 <= d
  {
    Magnitude(m, Vector(WrappedDistance(p.x, q.x, cfg.areaWidth), WrappedDistance(p.y, q.y, cfg.areaHeight)))
  }

  /** The offset from `p` to the nearest copy of `q` (the relative position of inAngle); each
      component is as long as the wrapped distance on its axis. */
  function RelativeOffset(p: Vector, q: Vector, cfg: Config): (v: Vector)
    ensures Abs(v.x) == WrappedDistance(p.x, q.x, cfg.areaWidth)
    ensures Abs(v.y) == WrappedDistance(p.y, q.y, cfg.areaHeight)
  {
    var c := ClosestCopy(p, q, cfg);
    Vector(c.x - p.x, c.y - p.y)
  }

  /** How far the bearing from `p` to `q` is from `heading`, measured on a circle of length 2·Pi. */
  /** It is never negative, and never more than Pi for a heading in [-Pi, 2·Pi] (the random start
      heading and every steered one): so a sight angle of 2·Pi sees in every direction. */
  function BearingGap(p: Vector, heading: real, q: Vector, cfg: Config, m: Numerics): (gap: real)
    ensures 0.0 <= gap
    ensures AngleRange(m) && -Pi <= heading <= 2.0 * Pi ==> gap <= Pi
  {
    var bearing := Angle(m, RelativeOffset(p, q, cfg));
    assert AngleRange(m) && -Pi <= heading <= 2.0 * Pi ==> Abs(heading - bearing) <= 3.0 * (Pi * 2.0) / 2.0;
    WrappedDistance(heading, bearing, Pi * 2.0)
  }

  /** The sum of the nearest copies of `qs` as seen from `p` (the loop of findCenter). */
  function SumClosest(p: Vector, qs: seq<Vector>, cfg: Config): Vector
  {
    if qs == [] then Vector(0.0, 0.0)
    else Add(SumClosest(p, qs[..|qs| - 1], cfg), ClosestCopy(p, qs[|qs| - 1], cfg))
  }

  /** The cohesion vector: the mean of the nearest copies of `qs`, relative to `p`. */
  function CenterOf(p: Vector, qs: seq<Vector>, cfg: Config): Vector
    requires |qs| > 0
  {
    var sum := SumClosest(p, qs, cfg);
    Vector(sum.x / |qs| as real - p.x, sum.y / |qs| as real - p.y)
  }

  /** No position of `qs` is at wrapped distance zero from `p`. */
  predicate Apart(p: Vector, qs: seq<Vector>, cfg: Config, m: Numerics)
  {
    forall i {:trigger DistanceBetween(p, qs[i], cfg, m)} :: 0 <= i < |qs| ==> DistanceBetween(p, qs[i], cfg, m) != 0.0
  }

  /** The positions of `qs` within `r` of `p` (by wrapped distance), in their order. */
  function Close(p: Vector, qs: seq<Vector>, r: real, cfg: Config, m: Numerics): seq<Vector>
  {
    if qs == [] then []
    else if DistanceBetween(p, qs[0], cfg, m) <= r then [qs[0]] + Close(p, qs[1..], r, cfg, m)
    else Close(p, qs[1..], r, cfg, m)
  }

  /** No position within repelRadius of `p` is at distance zero from it: the separation vector
      of `qs` is defined. */
  predicate Separable(p: Vector, qs: seq<Vector>, cfg: Config, m: Numerics)
  {
    Apart(p, Close(p, qs, cfg.repelRadius, cfg, m), cfg, m)
  }

  /** The push away from `q`: the offset from its nearest copy to `p`, over the distance. */
  function Push(p: Vector, q: Vector, cfg: Config, m: Numerics): Vector
    requires DistanceBetween(p, q, cfg, m) != 0.0
  {
    var dist := DistanceBetween(p, q, cfg, m);
    var c := ClosestCopy(p, q, cfg);
    Vector((p.x - c.x) / dist, (p.y - c.y) / dist)
  }

  /** The push away from `q`, given its nearest copy and its distance as computed separately. */
  lemma PushFrom(p: Vector, q: Vector, near: Vector, dist: real, cfg: Config, m: Numerics)
    requires DistanceBetween(p, q, cfg, m) != 0.0
    ensures dist == DistanceBetween(p, q, cfg, m) && near == ClosestCopy(p, q, cfg) ==>
              Push(p, q, cfg, m) == Vector((p.x - near.x) / dist, (p.y - near.y) / dist)
  {
  }

  /** The sum of the pushes away from the first `n` positions of `qs` (the loop of avoidBoids). */
  function SumPush(p: Vector, qs: seq<Vector>, n: nat, cfg: Config, m: Numerics): Vector
    requires Apart(p, qs, cfg, m) && n <= |qs|
  {
    if n == 0 then Vector(0.0, 0.0)
    else Add(SumPush(p, qs, n - 1, cfg, m), Push(p, qs[n - 1], cfg, m))
  }

  /** The separation vector: the mean push away from `qs`, or zero if there are none. */
  function Separation(p: Vector, qs: seq<Vector>, cfg: Config, m: Numerics): Vector
    requires Apart(p, qs, cfg, m)
  {
    if qs == [] then Vector(0.0, 0.0)
    else
      var sum := SumPush(p, qs, |qs|, cfg, m);
      Vector(sum.x / |qs| as real, sum.y / |qs| as real)
  }

  /** The sum of `angles` (the loop of alignAngles). */
  function SumAngles(angles: seq<real>): real
  {
    if angles == [] then 0.0 else SumAngles(angles[..|angles| - 1]) + angles[|angles| - 1]
  }

  /** The arithmetic mean of `angles` (not a circular mean). */
  function MeanAngle(angles: seq<real>): real
    requires |angles| > 0
  {
    SumAngles(angles) / |angles| as real
  }

  /** The heading after the steering part of update, for a boid at `p` with heading `h` that sees
      boids at `ps` with headings `angles`: unchanged when it sees none, otherwise the three steerTo
      steps towards the center, away from the close positions and along the mean heading. */
  function Steered(h: Heading, p: Vector, ps: seq<Vector>, angles: seq<real>, cfg: Config, m: Numerics): (r: Heading)
    requires |angles| == |ps| && Separable(p, ps, cfg, m)
    ensures ps == [] ==> r == h
  {
    if ps == [] then h
    else
      SteeringSteps(h, CenterOf(p, ps, cfg), Separation(p, Close(p, ps, cfg.repelRadius, cfg, m), cfg, m),
                    MeanAngle(angles), cfg, m)
  }
}
