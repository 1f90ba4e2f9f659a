# Boids: a verified model of the flocking agent

This project models `src/boid.ts`, the agent of a two-dimensional boids simulation. Each boid has a position (`x`, `y`), a heading (`angle`) and a `speed`. On every frame it:

1. Looks at the other boids within its sight radius and field of view.
2. Steers towards their center, away from the ones that are too close, and along their mean heading.
3. Clamps its speed.
4. Moves, wrapping around the edges of a rectangular area that behaves like a torus.

The model has four modules:

- **`Geometry`** (`geometry.dfy`):
  - the `Vector` helpers: magnitude, angle, distance and fromPolar;
  - the wrapped-axis functions `wrappedDistance` and `closestWrappedPoint`;
  - JavaScript's truncating `%` and the coordinate wrap of `update`.
- **`Steering`** (`steering.dfy`):
  - the static tunables of `Boid`, as one `Config` record with the source's defaults;
  - the behaviour of one boid, stated on plain values: `steerTo` as a function of a heading, the speed clamp, the cohesion vector (`CenterOf`), the separation vector (`Separation` over the positions that `Close` selects) and the mean heading;
  - `Steered`, the whole steering step of `update`.
- **`Flocking`** (`boid.dfy`): the class `Boid`, with its four mutable fields and its methods.
  - The state-changing operations are methods with `modifies` clauses: `steerTo`, `update`, and the extracted parts of `update`.
  - The loops of `findCenter`, `alignAngles` and `avoidBoids` are methods with loop invariants.
  - The queries `distanceTo`, `inRadius`, `inAngle` and `getVisibleBoids` are functions that read the fields.
  - Each method is proved against the matching function of `Steering`.
- **`FlockingProperties`** (`boid_properties.dfy`): lemmas relating the operations to one another, and the examples of `test/boid.test.ts` restated as lemmas.

`Math.sqrt`, `Math.atan2`, `Math.cos` and `Math.sin` are passed as a `Numerics` record of functions, because they cannot be computed exactly on reals. Each proof assumes only the facts it needs about them:

- `SqrtLaw`: `sqrt` is a non-negative square root.
- `AngleRange`: `atan2` lies in [-Pi, Pi], where `Pi` is the exact value of the double `Math.PI` (slightly above π).
- `UnitRange`: `cos` and `sin` lie in [-1, 1].
- `PolarLaw`: polar form converts back to the same vector.

Numbers are mathematical reals.

## Model

| member | source | states |
|---|---|---|
| Geometry.Magnitude | src/boid.ts:7-9 | the magnitude is never negative when `sqrt` is a square root |
| Geometry.MagnitudeSquared | src/boid.ts:7-9 | the squared magnitude is the sum of the squared components |
| Geometry.Angle | src/boid.ts:11-13 | the angle of a vector lies in [-Pi, Pi] |
| Geometry.FromPolarBound | src/boid.ts:19-24 | no component of a polar vector is longer than its magnitude |
| Geometry.Distance | src/boid.ts:15-17 | the straight-line distance is never negative |
| Geometry.ClosestWrappedPoint | src/boid.ts:47-61 | the result is `to`, `to + L` or `to - L`, and no other one of these three copies is nearer to `from` |
| Geometry.WrappedDistance | src/boid.ts:35-45 | never negative. It equals the offset to the copy closestWrappedPoint picks. It equals the plain distance when that is at most half the axis. It is at most half the axis for two points on the axis, or within one and a half axis lengths of each other |
| Geometry.JsRem | src/boid.ts:112-113 | JavaScript's `%`: the dividend minus a whole multiple of the divisor. For a positive divisor the result lies in [0, b) for a non-negative dividend and in (-b, 0] for a negative one. A dividend already in [0, b) is returned unchanged |
| Geometry.WrapCoordinate | src/boid.ts:106-113 | the coordinate shifted by a whole number of area sizes. A coordinate no more than one area size below zero lands in [0, L); a coordinate already in [0, L) is unchanged |
| Geometry.WrapUnique | src/boid.ts:106-113 | the wrap is the only value in [0, L) that differs from the coordinate by whole area sizes, so the contract alone fixes the result (450 becomes 50 in a 400-wide area) |
| Steering.SteerAddsVector | src/boid.ts:127-134 | steering adds `weight·v` to the direction vector and leaves a non-negative speed and a heading in [-Pi, Pi] |
| Steering.ClampSpeed | src/boid.ts:99-100 | the speed is at least minSpeed and at most maxSpeed (when minSpeed <= maxSpeed). A speed in range is unchanged. Below range it becomes minSpeed; above range it becomes maxSpeed |
| Steering.RelativeOffset | src/boid.ts:137-140 | each component of the offset to the nearest copy is as long as the wrapped distance on its axis |
| Steering.BearingGap | src/boid.ts:137-143 | the gap between heading and bearing is never negative, and is at most Pi for a heading in [-Pi, 2·Pi] |
| Steering.DistanceBetween | src/boid.ts:148-155 | the wrapped distance between two positions is never negative |
| Steering.Steered | src/boid.ts:91-97 | with no boid in sight the heading is unchanged |
| Flocking.Boid.constructor | src/boid.ts:83-88 | the boid starts at the given position and heading, at maxSpeed |
| Flocking.Boid.Direction | src/boid.ts:116-118 | the direction is the polar vector of speed and heading, and neither component is longer than the speed when cos and sin lie in [-1, 1] |
| Flocking.Boid.SteerTo | src/boid.ts:127-134 | speed and heading become those of the direction vector plus `weight·v`; with lawful numerics the new direction vector is exactly that sum |
| Flocking.Boid.GetVisibleBoids | src/boid.ts:161-166 | the visible boids are taken from the list, and a boid never sees itself |
| Flocking.Boid.VisibleBoidsFilter | src/boid.ts:161-166 | the visible boids are an order-preserving sub-list of the input. A boid is in it exactly when it is in the list and inside both the sight radius and the field of view, and then as often as in the list. Each visible boid is another boid within sightRadius |
| Flocking.Boid.Neighbours | src/boid.ts:192 | the close boids are taken from the list |
| Flocking.Boid.NeighboursFilter | src/boid.ts:192 | the close boids are an order-preserving sub-list, holding exactly the other boids within the radius, each as often as in the list |
| Flocking.Boid.NeighbourPositions | src/boid.ts:192 | the positions of the close boids are the positions within the radius, in order |
| Flocking.Boid.FindCenter | src/boid.ts:168-180 | the loop computes the mean of the nearest copies of the boids, relative to this boid |
| Flocking.Boid.AlignAngles | src/boid.ts:182-189 | the loop computes a vector of this boid's speed along the arithmetic mean of the headings |
| Flocking.Boid.SumPushes | src/boid.ts:196-203 | the loop computes the sum of the unit pushes away from the nearest copies of the close boids |
| Flocking.Boid.AvoidBoids | src/boid.ts:191-210 | the result is zero when no boid is within repelRadius, otherwise the mean push away from those that are |
| Flocking.Boid.SteerToCenter | src/boid.ts:94 | the boid steers towards the center of the visible boids with centerWeight |
| Flocking.Boid.SteerApart | src/boid.ts:95 | the boid steers along the separation vector of the visible boids with separationWeight |
| Flocking.Boid.SteerAlong | src/boid.ts:96 | the boid steers along the mean heading, at its current speed, with alignmentWeight |
| Flocking.Boid.SteerAll | src/boid.ts:93-97 | no steering without visible boids; otherwise the three steerTo calls in order: center, separation, alignment |
| Flocking.Boid.WrapPosition | src/boid.ts:106-113 | each coordinate is wrapped into the area |
| Flocking.Boid.Move | src/boid.ts:102-113 | the new position is the old one plus `time` times the direction vector, wrapped into the area |
| Flocking.Boid.Steer | src/boid.ts:91-100 | the new heading is the steered heading of the visible boids, and the new speed is its clamp |
| Flocking.Boid.Update | src/boid.ts:90-114 | the heading is the steered heading and the speed its clamp. The position is the old one moved by `time` times the new direction vector, then wrapped into the area |
| FlockingProperties.WrappedDistanceSymmetric | src/boid.ts:35-45 | the wrapped distance does not depend on the order of the two points |
| FlockingProperties.DistanceToOffset | src/boid.ts:148-155 | distanceTo is non-negative and is the length of the relative position that inAngle takes the bearing of |
| FlockingProperties.InRadiusSymmetric | src/boid.ts:157-159 | distanceTo is symmetric, so `a` has `b` in radius exactly when `b` has `a` |
| FlockingProperties.DistanceSquared | src/boid.ts:148-155 | the squared wrapped distance is the squared length of the offset to the nearest copy |
| FlockingProperties.DistanceWithoutWrap | src/boid.ts:148-155 | when two positions are less than half the area apart on each axis, distanceTo equals Vector.distance |
| FlockingProperties.PushIsUnit | src/boid.ts:197-202 | each push of avoidBoids is a unit vector |
| FlockingProperties.CloseFilter | src/boid.ts:192 | the close positions are an order-preserving sub-list, holding exactly the positions within the radius, each as often as in the list |
| FlockingProperties.NoneClose | src/boid.ts:191-210 | no position is close exactly when every one is farther than repelRadius, and then the separation vector is zero |
| FlockingProperties.SteeringAddsVectors | src/boid.ts:93-97 | the three steering steps add the weighted center, separation and alignment vectors to the direction vector, in order; the final speed is non-negative and the heading lies in [-Pi, Pi] |
| FlockingProperties.DefaultSpeedRange | src/boid.ts:67-68 | with the default tunables the clamped speed always lies in [minSpeed, maxSpeed] |
| FlockingProperties.SteerToExample | test/boid.test.ts:184-195 | steering a unit-speed boid heading up by (3, 1) gives speed sqrt(13) and heading atan2(2, 3) |
| FlockingProperties.StepStaysInArea | src/boid.ts:102-113 | a step no longer than the area, from inside the area, lands inside it |
| FlockingProperties.WrapExamples | test/boid.test.ts:47-72 | the wrap keeps (450, 550) in a 500×600 area, turns it into (50, 50) in a 400×500 area, and turns (-10, -20) into (390, 480) |
| FlockingProperties.InAngleWidens | src/boid.ts:136-146 | a wider angle limit admits every boid a narrower one does, and no limit admits the boid itself |
| FlockingProperties.FullCircleInAngle | src/boid.ts:136-146 | a field of view of 2·Pi contains every other boid |
| FlockingProperties.BorderExample | test/boid.test.ts:141-151 | boids at (199, 99) and (1, 1) of a 200×100 area are sqrt(8) apart across the corner, so each has the other within radius 10 |
| FlockingProperties.ExampleDistances | test/boid.test.ts:209-210 | from (10, 20) the boids at (10, 29), (10, 31) and (16, 13) are 9, 11 and sqrt(85) away |
| FlockingProperties.VisibleExample | test/boid.test.ts:109-117 | with sight radius 10 and a full field of view, the boid at (10, 20) sees exactly the first and third of those boids, in order |
| FlockingProperties.FindCenterExample | test/boid.test.ts:158-160 | the center of (10, 29) and (16, 13) seen from (10, 20) is (3, 1) |
| FlockingProperties.MeanAngleExamples | test/boid.test.ts:197-206 | the mean of 45° and 90° is 67.5°; the mean of 359° and 1° is 180° (an arithmetic, not circular, mean) |
| FlockingProperties.CloseExamples | test/boid.test.ts:208-218 | with repel radius 0, 9 and 10, none, the first, and both of (10, 29) and (16, 13) are close |
| FlockingProperties.PushExamples | test/boid.test.ts:208-216 | the push away from (10, 29) is (0, -1), and that away from (16, 13) is (-6, 7) over its distance |
| FlockingProperties.SeparationOfOneAndTwo | src/boid.ts:196-206 | the separation vector of one position is its push, and that of two is the mean of their pushes |
| FlockingProperties.SeparationExamples | test/boid.test.ts:208-223 | the separation vector of (10, 29) alone is (0, -1), and that of (10, 29) and (16, 13) is the mean of the two pushes |

## Left out

- Floating point is not modelled: numbers are exact reals, with no rounding, NaN or Infinity. The test that sets `maxSpeed` to Infinity therefore has no counterpart; ClampSpeed covers its finite half.
- Math.sqrt, Math.atan2, Math.cos and Math.sin are parameters (the `Numerics` record), known only through the laws listed above. Examples that need their concrete values are stated in terms of the functions themselves:
  - SteerToExample assumes `cos a = 0` and `sin a = 1` in place of 90°;
  - the angle-window test (`test/boid.test.ts:119-139`) is not restated;
  - the exact position after "moves in a direction" is not restated.
- Flocking.Boid.constructor: takes the position and heading as arguments. It does not model `Math.random` or the `x || random` fallback, which replaces a given coordinate of 0 with a random one.
- Flocking.Boid.AvoidBoids: requires that no boid within repelRadius sits at wrapped distance zero (`NoCoincident`). The source divides by that distance and would produce NaN or Infinity.
- Flocking.Boid.SteerApart, Flocking.Boid.SteerAll, Flocking.Boid.Steer and Flocking.Boid.Update: require the same of the visible boids (`Separable`), for the same reason.
- Flocking.Boid.FindCenter and Flocking.Boid.AlignAngles: require a non-empty list. The source divides by its length (NaN for an empty list), and `update` only calls them when a boid is visible.
- Flocking.Boid.WrapPosition, Flocking.Boid.Move and Flocking.Boid.Update: require a non-zero area size, because `%` by zero gives NaN.
- Flocking.Boid.SteerToCenter, SteerApart, SteerAlong, SteerAll, Steer, Move and WrapPosition are consecutive lines of `update`, taken out as methods so that each can be proved on its own.
- Flocking.Boid.SteerToCenter, SteerApart and SteerAll: require that the boid is not in its own list of visible boids. `update` guarantees this, because getVisibleBoids never returns the boid itself.
- The module-level `Vector` object is modelled as the functions of `Geometry`; sharing a mutable direction object between calls does not arise, because each call builds a fresh one.
- The skipped test ("sees beyond the borders of the area") is modelled only in its distance half (BorderExample). Its field-of-view half depends on the random headings of the two boids, and inAngle is not symmetric, so it holds for some headings and not for others. The todo test names no behaviour and is not modelled.
- `src/app.ts` (canvas drawing, animation frames and the main loop) is not part of this model.
