/** One wormhole particle — the record built at main.js:1243-1269 — and its
    per-frame update, `updateParticleState` (main.js:1371-1563), together with
    the trail fading and sweeping that `animateParticles` does to a particle's
    trail (main.js:1946-1980). The pure function `Updated` is the reference
    definition of one update; `Particle.Update` performs it in place. */
module ParticleModel {
  import opened Numerics
  import opened PhaseScheduler

  datatype Point = Point(x: real, y: real)

  /** One entry of a particle's `trail`. */
  datatype TrailPoint = TrailPoint(x: real, y: real, size: real, opacity: real)

  /** The fields of a particle record that the update reads but never writes. */
  datatype Traits = Traits(
    targetX: real,
    targetY: real,
    speed: real,
    baseSize: real,
    z: real,
    convergenceSpeed: real,
    startTime: real,
    controlPoints: seq<Point>,
    distributionType: int,
    pulseFactor: real)

  /** The fields of a particle record that the update writes. */
  datatype Motion = Motion(
    x: real,
    y: real,
    angle: real,
    radius: real,
    size: real,
    visualSize: real,
    alpha: real,
    started: bool,
    pathProgress: real,
    trail: seq<TrailPoint>)

  /** The closure variables of the run that the update reads. */
  datatype View = View(
    formationComplete: bool,
    shrinkStarted: bool,
    explosionStarted: bool,
    explosionProgress: real,
    rotationSpeed: real,
    currentRotation: real,
    accelerationStartTime: real,
    centerX: real,
    centerY: real,
    trailLength: nat)

  /** The closure variables the update writes: `pulseFrequency`, `pulseIntensity`
      and `sizeMultiplier`. */
  datatype Pulse = Pulse(frequency: real, intensity: real, sizeMultiplier: real)

  /** The `Math.random()` results one update can draw, in the order the code
      draws them: the jitter test and its two offsets (converging along a
      path), the spread of the expansion (exploding), the trail test (rotating). */
  datatype Draws = Draws(jitter: real, jitterX: real, jitterY: real, spread: real, trail: real)

  /** What `Math.random()` guarantees of every draw. */
  predicate DrawsInRange(d: Draws)
  {
    0.0 <= d.jitter < 1.0 && 0.0 <= d.jitterX < 1.0 && 0.0 <= d.jitterY < 1.0
    && 0.0 <= d.spread < 1.0 && 0.0 <= d.trail < 1.0
  }

  /** The outcome of one update: the new particle fields, the returned
      "in place" flag and the new pulse variables. */
  datatype StepResult = StepResult(motion: Motion, inPlace: bool, pulse: Pulse)

  const FadeInRate: real := 0.06
  const FadeInCeiling: real := 0.95
  /** A trail point is kept by the sweep while its opacity is above this. */
  const VisibleOpacity: real := 0.1
  /** Half-width of the box around the target inside which a converging
      particle counts as in place. */
  const PlaceTolerance: real := 8.0

  // ---------------------------------------------------------------------------
  // Fade-in
  // ---------------------------------------------------------------------------

  /** `if (alpha < 0.95) alpha = Math.min(alpha + 0.06 * deltaTime, 0.95)`. */
  function FadeIn(alpha: real, dt: real): (r: real)
    ensures 0.0 <= dt ==> alpha <= r
    ensures alpha < FadeInCeiling ==> r <= FadeInCeiling
    ensures FadeInCeiling <= alpha ==> r == alpha
    ensures 0.0 <= alpha <= 1.0 && 0.0 <= dt ==> 0.0 <= r <= 1.0
  {
    if alpha < FadeInCeiling then Min(alpha + FadeInRate * dt, FadeInCeiling) else alpha
  }

  // ---------------------------------------------------------------------------
  // Convergence along a path (main.js:1394-1451)
  // ---------------------------------------------------------------------------

  /** `pathProgress` after one update: advanced by `convergenceSpeed * 0.5 *
      deltaTime` and capped at 1. */
  function AdvancePath(pathProgress: real, convergenceSpeed: real, dt: real): (r: real)
    ensures r <= 1.0
    ensures pathProgress <= 1.0 && 0.0 <= convergenceSpeed && 0.0 <= dt ==> pathProgress <= r
    ensures r == 1.0 <==> pathProgress + convergenceSpeed * 0.5 * dt >= 1.0
  {
    ProductNonNegative(convergenceSpeed * 0.5, dt);
    Min(pathProgress + convergenceSpeed * 0.5 * dt, 1.0)
  }

  lemma ProductNonNegative(a: real, b: real)
    ensures 0.0 <= a && 0.0 <= b ==> 0.0 <= a * b
  {
  }

  /** Linear interpolation from `a` to `b`. */
  function Lerp(a: Point, b: Point, t: real): Point
  {
    Point(a.x + (b.x - a.x) * t, a.y + (b.y - a.y) * t)
  }

  /** The quadratic Bézier coordinate with start `a`, control `c` and end `b`. */
  function Quadratic(a: real, c: real, b: real, t: real): real
  {
    (1.0 - t) * (1.0 - t) * a + 2.0 * (1.0 - t) * t * c + t * t * b
  }

  /** The cubic Bézier coordinate with start `a`, controls `c1`, `c2`, end `b`. */
  function Cubic(a: real, c1: real, c2: real, b: real, t: real): real
  {
    (1.0 - t) * (1.0 - t) * (1.0 - t) * a + 3.0 * (1.0 - t) * (1.0 - t) * t * c1
    + 3.0 * (1.0 - t) * t * t * c2 + t * t * t * b
  }

  /** Both curves start at their start point and end at their end point. */
  lemma BezierEndpoints(a: real, c1: real, c2: real, b: real)
    ensures Quadratic(a, c1, b, 0.0) == a && Quadratic(a, c1, b, 1.0) == b
    ensures Cubic(a, c1, c2, b, 0.0) == a && Cubic(a, c1, c2, b, 1.0) == b
  {
  }

  /** The Bézier weights sum to one, so a curve whose points all coincide is
      that point for every parameter. */
  lemma BezierOfConstant(a: real, t: real)
    ensures Quadratic(a, a, a, t) == a
    ensures Cubic(a, a, a, a, t) == a
  {
    var s := 1.0 - t;
    assert s + t == 1.0;
    assert s * s + 2.0 * s * t + t * t == (s + t) * (s + t);
    assert Quadratic(a, a, a, t) == (s * s + 2.0 * s * t + t * t) * a;
    assert s * s * s + 3.0 * s * s * t + 3.0 * s * t * t + t * t * t == (s + t) * (s + t) * (s + t);
    assert Cubic(a, a, a, a, t) == (s * s * s + 3.0 * s * s * t + 3.0 * s * t * t + t * t * t) * a;
  }

  /** Which straight segment of a polyline path a progress value falls on, and
      how far along it. */
  datatype Segment = Segment(index: int, t: real)

  /** `segmentProgress = progress * segmentCount`, `currentSegment =
      Math.min(Math.floor(segmentProgress), segmentCount - 1)` and `segmentT =
      segmentProgress - currentSegment`. */
  function PolylineSegment(progress: real, segmentCount: int): (s: Segment)
    requires 1 <= segmentCount
    ensures s.index <= segmentCount - 1
    ensures 0.0 <= progress ==> 0 <= s.index && 0.0 <= s.t
    ensures s.index as real + s.t == progress * segmentCount as real
    ensures 0.0 <= progress < 1.0 ==>
              s.index == (progress * segmentCount as real).Floor && s.t < 1.0
  {
    var segmentProgress := progress * segmentCount as real;
    MulLtOne(progress, segmentCount as real);
    var currentSegment := if segmentProgress.Floor <= segmentCount - 1 then segmentProgress.Floor else segmentCount - 1;
    Segment(currentSegment, segmentProgress - currentSegment as real)
  }

  lemma MulLtOne(p: real, c: real)
    requires 0.0 < c
    ensures 0.0 <= p ==> 0.0 <= p * c
    ensures p < 1.0 ==> p * c < c
  {
    if p < 1.0 {
      MulLt(p, 1.0, c);
    }
  }

  /** The point of the multi-segment polyline path from `from` through the
      control points to `target`. */
  function PolylinePoint(from: Point, controlPoints: seq<Point>, target: Point, progress: real): Point
    requires 1 <= |controlPoints| && 0.0 <= progress
  {
    var segmentCount := |controlPoints| + 1;
    var s := PolylineSegment(progress, segmentCount);
    var start := if s.index == 0 then from else controlPoints[s.index - 1];
    var end :=
      if s.index == 0 then controlPoints[0]
      else if s.index == segmentCount - 1 then target
      else controlPoints[s.index];
    Lerp(start, end, s.t)
  }

  /** The polyline passes through its control points: at progress k/(n+1) it is
      at the k-th control point. */
  lemma PolylineThroughControlPoints(from: Point, controlPoints: seq<Point>, target: Point, k: int)
    requires 1 <= |controlPoints| && 1 <= k <= |controlPoints|
    ensures PolylinePoint(from, controlPoints, target, k as real / (|controlPoints| + 1) as real)
            == controlPoints[k - 1]
  {
    var n := (|controlPoints| + 1) as real;
    var progress := k as real / n;
    assert progress * n == k as real;
    assert progress < 1.0;
    var s := PolylineSegment(progress, |controlPoints| + 1);
    assert s.index == k && s.t == 0.0;
  }

  /** The point on the path of a particle with control points, at the new
      progress, measured from where the particle now is. */
  function CurvePoint(tr: Traits, from: Point, t: real): Point
    requires 1 <= |tr.controlPoints| && 0.0 <= t
  {
    var cps := tr.controlPoints;
    if |cps| == 1 then
      Point(Quadratic(from.x, cps[0].x, tr.targetX, t), Quadratic(from.y, cps[0].y, tr.targetY, t))
    else if |cps| == 2 then
      Point(Cubic(from.x, cps[0].x, cps[1].x, tr.targetX, t), Cubic(from.y, cps[0].y, cps[1].y, tr.targetY, t))
    else
      PolylinePoint(from, cps, Point(tr.targetX, tr.targetY), t)
  }

  /** The random nudge of at most one unit per axis, drawn one time in ten. */
  function Jitter(p: Point, d: Draws): (r: Point)
    ensures d.jitter >= 0.1 ==> r == p
    ensures 0.0 <= d.jitterX < 1.0 && 0.0 <= d.jitterY < 1.0 ==>
              Abs(r.x - p.x) <= 1.0 && Abs(r.y - p.y) <= 1.0
  {
    if d.jitter < 0.1 then Point(p.x + (d.jitterX - 0.5) * 2.0, p.y + (d.jitterY - 0.5) * 2.0) else p
  }

  // ---------------------------------------------------------------------------
  // Straight-line convergence (main.js:1452-1473)
  // ---------------------------------------------------------------------------

  /** The speed factor of a particle without control points: faster on the
      circle distribution, and on the border distribution faster the closer it
      is to its target. */
  function SpeedMultiplier(distributionType: int, dist: real): (r: real)
    ensures 0.0 <= dist ==> 0.8 <= r <= 1.2
    ensures distributionType == 0 ==> r == 1.2
    ensures distributionType != 0 && distributionType != 3 ==> r == 1.0
  {
    if distributionType == 0 then 1.2
    else if distributionType == 3 then 0.8 + 0.4 * (1.0 - Min(dist / 500.0, 1.0))
    else 1.0
  }

  lemma BorderSpeedCloserIsFaster(d1: real, d2: real)
    requires 0.0 <= d1 <= d2
    ensures SpeedMultiplier(3, d2) <= SpeedMultiplier(3, d1)
  {
    assert d1 / 500.0 <= d2 / 500.0;
  }

  /** The distance of `p` from the target, as `Math.sqrt` reports it. */
  function DistanceToTarget(tr: Traits, p: Point, m: Maths): real
  {
    var dx := tr.targetX - p.x;
    var dy := tr.targetY - p.y;
    m.sqrt(dx * dx + dy * dy)
  }

  /** `moveSpeed = convergenceSpeed * speedMultiplier * deltaTime`. */
  function MoveSpeed(tr: Traits, dist: real, dt: real): real
  {
    tr.convergenceSpeed * SpeedMultiplier(tr.distributionType, dist) * dt
  }

  /** One straight-line step: farther than 5 units away, move each coordinate
      by `(d / dist) * moveSpeed * Math.min(dist, 200)`, which is the step
      fraction times the remaining difference `d`; otherwise snap to the target. */
  function StraightStep(tr: Traits, p: Point, dt: real, m: Maths): Point
  {
    var dist := DistanceToTarget(tr, p, m);
    if dist > 5.0 then
      var k := StepFraction(tr, p, dt, m);
      Point(p.x + k * (tr.targetX - p.x), p.y + k * (tr.targetY - p.y))
    else
      Point(tr.targetX, tr.targetY)
  }

  /** `moveSpeed * Math.min(dist, 200) / dist`: the fraction of the remaining way
      that one straight-line step covers. */
  function StepFraction(tr: Traits, p: Point, dt: real, m: Maths): real
    requires DistanceToTarget(tr, p, m) != 0.0
  {
    var dist := DistanceToTarget(tr, p, m);
    MoveSpeed(tr, dist, dt) * Min(dist, 200.0) / dist
  }

  /** With the convergence speeds the run creates (below 0.02) and a clamped
      frame step, a straight-line step covers a fraction in [0, 1) of the
      remaining way along the line to the target: it never overshoots. */
  lemma StraightStepNeverOvershoots(tr: Traits, p: Point, dt: real, m: Maths)
    requires 0.0 <= tr.convergenceSpeed <= 0.02 && 0.0 <= dt <= 2.0
    requires DistanceToTarget(tr, p, m) > 5.0
    ensures 0.0 <= StepFraction(tr, p, dt, m) < 1.0
  {
    var dist := DistanceToTarget(tr, p, m);
    var near := Min(dist, 200.0);
    MoveSpeedBound(tr.convergenceSpeed, SpeedMultiplier(tr.distributionType, dist), dt);
    FractionBound(MoveSpeed(tr, dist, dt), near, dist);
    assert StepFraction(tr, p, dt, m) == MoveSpeed(tr, dist, dt) * near / dist;
  }

  lemma MoveSpeedBound(cs: real, sm: real, dt: real)
    requires 0.0 <= cs <= 0.02 && 0.8 <= sm <= 1.2 && 0.0 <= dt <= 2.0
    ensures 0.0 <= cs * sm * dt <= 0.048
  {
    ScaledBound(cs, sm, 0.02, 1.2);
    ScaledBound(cs * sm, dt, 0.024, 2.0);
  }

  lemma ScaledBound(a: real, b: real, bound1: real, bound2: real)
    requires 0.0 <= a <= bound1 && 0.0 <= b <= bound2
    ensures 0.0 <= a * b <= bound1 * bound2
  {
    MulMono(0.0, a, b);
    MulMono(a, bound1, b);
    MulMono(b, bound2, bound1);
  }

  lemma MulMono(x: real, y: real, c: real)
    requires x <= y && 0.0 <= c
    ensures x * c <= y * c
  {
    assert (y - x) * c >= 0.0;
  }

  lemma FractionBound(moveSpeed: real, near: real, dist: real)
    requires 0.0 <= moveSpeed <= 0.048 && 0.0 < near <= dist
    ensures 0.0 <= moveSpeed * near / dist < 1.0
  {
    var mn := moveSpeed * near;
    ProductNonNegative(moveSpeed, near);
    MulMono(near, dist, moveSpeed);
    assert near * moveSpeed == mn;
    MulMono(moveSpeed, 0.048, dist);
    assert mn < dist;
    DivBelowOne(mn, dist);
  }

  lemma DivBelowOne(x: real, d: real)
    requires 0.0 <= x < d
    ensures 0.0 <= x / d < 1.0
  {
    var q := x / d;
    assert q * d == x;
    if q >= 1.0 {
      MulMono(1.0, q, d);
      assert false;
    }
  }

  /** `Math.abs(x - targetX) < 8 && Math.abs(y - targetY) < 8`. */
  predicate InPlace(tr: Traits, x: real, y: real)
  {
    Abs(x - tr.targetX) < PlaceTolerance && Abs(y - tr.targetY) < PlaceTolerance
  }

  /** The converging move: along the path when the particle has control points
      (snapping to the target once the path is complete), else in a straight
      line. */
  function Converged(tr: Traits, mo: Motion, dt: real, d: Draws, m: Maths): (r: Motion)
    requires 0.0 <= mo.pathProgress && 0.0 <= tr.convergenceSpeed && 0.0 <= dt
    ensures r.started == mo.started && r.alpha == mo.alpha && r.trail == mo.trail
    ensures r.angle == mo.angle && r.radius == mo.radius && r.size == mo.size && r.visualSize == mo.visualSize
  {
    if |tr.controlPoints| > 0 then
      var progress := AdvancePath(mo.pathProgress, tr.convergenceSpeed, dt);
      if progress < 1.0 then
        var p := Jitter(CurvePoint(tr, Point(mo.x, mo.y), progress), d);
        mo.(pathProgress := progress, x := p.x, y := p.y)
      else
        mo.(pathProgress := progress, x := tr.targetX, y := tr.targetY)
    else
      var p := StraightStep(tr, Point(mo.x, mo.y), dt, m);
      mo.(x := p.x, y := p.y)
  }

  // ---------------------------------------------------------------------------
  // Explosion (main.js:1475-1491)
  // ---------------------------------------------------------------------------

  /** Compression below 30% of the explosion, then expansion. */
  function Exploded(mo: Motion, explosionProgress: real, dt: real, d: Draws, m: Maths): Motion
  {
    var explosionFactor := m.pow(explosionProgress, 0.7) * 20.0;
    if explosionProgress < 0.3 then
      mo.(radius := mo.radius * (1.0 - 0.08 * dt),
          size := mo.size * (1.0 + 0.05 * dt),
          alpha := Min(1.0, mo.alpha * (1.0 + 0.05 * dt)))
    else
      mo.(radius := mo.radius + explosionFactor * dt * (1.0 + d.spread * 0.5),
          alpha := mo.alpha * (1.0 - 0.03 * dt * explosionProgress),
          size := mo.size * (1.0 - 0.01 * dt))
  }

  /** The explosion keeps `alpha` in [0, 1]; the compression pulls the particle
      in and the expansion (given a non-negative `pow`) pushes it out. */
  lemma ExplodedBounds(mo: Motion, explosionProgress: real, dt: real, d: Draws, m: Maths)
    requires 0.0 <= mo.alpha <= 1.0 && 0.0 <= mo.radius
    requires 0.0 <= dt <= 2.0 && 0.0 <= explosionProgress <= 1.0 && 0.0 <= d.spread
    requires 0.0 <= m.pow(explosionProgress, 0.7)
    ensures var r := Exploded(mo, explosionProgress, dt, d, m); 0.0 <= r.alpha <= 1.0
    ensures explosionProgress < 0.3 ==> 0.0 <= Exploded(mo, explosionProgress, dt, d, m).radius <= mo.radius
    ensures 0.3 <= explosionProgress ==> mo.radius <= Exploded(mo, explosionProgress, dt, d, m).radius
  {
    var r := Exploded(mo, explosionProgress, dt, d, m);
    if explosionProgress < 0.3 {
      ScaleWithin(mo.radius, 1.0 - 0.08 * dt);
      ScaleNonNegative(mo.alpha, 1.0 + 0.05 * dt);
    } else {
      var f := m.pow(explosionProgress, 0.7) * 20.0;
      ProductNonNegative(f, dt);
      ProductNonNegative(f * dt, 1.0 + d.spread * 0.5);
      ScaleBelowOne(dt, explosionProgress, 2.0);
      ScaleWithin(mo.alpha, 1.0 - 0.03 * dt * explosionProgress);
    }
  }

  lemma ScaleWithin(a: real, c: real)
    requires 0.0 <= a && 0.0 <= c <= 1.0
    ensures 0.0 <= a * c <= a
  {
    assert a * c <= a * 1.0;
  }

  lemma ScaleNonNegative(a: real, c: real)
    requires 0.0 <= a && 0.0 <= c
    ensures 0.0 <= a * c
  {
  }

  lemma ScaleBelowOne(x: real, p: real, bound: real)
    requires 0.0 <= x <= bound && 0.0 <= p <= 1.0
    ensures 0.0 <= x * p <= bound
  {
    assert x * p <= x * 1.0;
  }

  // ---------------------------------------------------------------------------
  // Rotation (main.js:1492-1545)
  // ---------------------------------------------------------------------------

  /** Seconds since the ring formed, `(currentTime - accelerationStartTime) / 1000`. */
  function SecondsSinceFormation(v: View, now: real): real
  {
    (now - v.accelerationStartTime) / 1000.0
  }

  /** The pulse variables after a rotating update: past the acceleration segment
      the frequency and intensity follow the pulse phase; the size multiplier
      always follows the rotation speed. */
  function PulseAfter(v: View, pulse: Pulse, now: real): (r: Pulse)
    ensures SecondsSinceFormation(v, now) > PulseStart ==>
              0.5 < r.frequency <= 2.0 && 0.2 < r.intensity <= 0.7
    ensures SecondsSinceFormation(v, now) <= PulseStart ==>
              r.frequency == pulse.frequency && r.intensity == pulse.intensity
    ensures 0.0 <= v.rotationSpeed <= MaxRotationSpeed ==> 1.0 <= r.sizeMultiplier <= 2.5
  {
    var tsf := SecondsSinceFormation(v, now);
    var ratio := v.rotationSpeed / MaxRotationSpeed;
    if tsf > PulseStart then
      var pulsePhase := Min((tsf - PulseStart) / PulsingDuration, 1.0);
      Pulse(0.5 + pulsePhase * 1.5, 0.2 + pulsePhase * 0.5, 1.0 + ratio * 1.5)
    else
      pulse.(sizeMultiplier := 1.0 + ratio * 0.5)
  }

  /** The size pulse of a rotating particle. */
  function SizePulse(tr: Traits, v: View, pulse: Pulse, now: real, m: Maths): real
    requires SecondsSinceFormation(v, now) > PulseStart ==> pulse.frequency != 0.0
  {
    if SecondsSinceFormation(v, now) > PulseStart then
      1.0 + m.sin(now / (1000.0 / pulse.frequency) + tr.pulseFactor * 10.0) * pulse.intensity
    else
      m.sin(now / 200.0) * 0.2 + 1.0
  }

  /** Push a point onto the trail, then drop the oldest point when the trail is
      over its cap. */
  function PushTrail(trail: seq<TrailPoint>, pt: TrailPoint, cap: nat): (r: seq<TrailPoint>)
    ensures |trail| <= cap ==> |r| <= cap
    ensures |r| <= |trail| + 1 && r == (trail + [pt])[|trail| + 1 - |r|..]
    ensures |trail| < cap ==> r == trail + [pt]
    ensures 1 <= cap ==> 1 <= |r| && r[|r| - 1] == pt
  {
    var pushed := trail + [pt];
    if |pushed| > cap then pushed[1..] else pushed
  }

  /** Starting from an empty trail, repeated pushes keep exactly the newest
      `cap` points, oldest first. */
  lemma PushTrailKeepsNewest(trail: seq<TrailPoint>, pt: TrailPoint, cap: nat)
    requires 1 <= cap && |trail| <= cap
    ensures PushTrail(trail, pt, cap) == (trail + [pt])[NewestFrom(|trail| + 1, cap)..]
  {
  }

  /** Index of the first of the newest `cap` entries of a sequence of length n. */
  function NewestFrom(n: nat, cap: nat): (r: nat)
    ensures r <= n
    ensures n <= cap ==> r == 0
    ensures cap <= n ==> n - r == cap
  {
    if n > cap then n - cap else 0
  }

  /** `baseSize * sizePulse * sizeMultiplier` with the new pulse variables. */
  function PulsedSize(tr: Traits, v: View, pulse: Pulse, now: real, m: Maths): real
    requires SecondsSinceFormation(v, now) > PulseStart ==> pulse.frequency != 0.0
  {
    tr.baseSize * SizePulse(tr, v, pulse, now, m) * pulse.sizeMultiplier
  }

  /** A rotating particle leaves a trail point when the wormhole spins faster
      than 0.04 and the draw falls under `Math.min(rotationSpeed * 6, 0.8)`. */
  predicate LeavesTrailPoint(v: View, d: Draws)
  {
    v.rotationSpeed > 0.04 && d.trail < Min(v.rotationSpeed * 6.0, 0.8)
  }

  /** `angle + (speed * rotationSpeed * 12) * deltaTime`. */
  function Turned(tr: Traits, angle: real, v: View, dt: real): real
  {
    angle + (tr.speed * v.rotationSpeed * 12.0) * dt
  }

  /** `radius * (1 - 0.015 * deltaTime)` while the wormhole shrinks. */
  function Shrunk(radius: real, v: View, dt: real): real
  {
    if v.shrinkStarted then radius * (1.0 - 0.015 * dt) else radius
  }

  /** The rotating update: advance the angle, resize with the pulse,
      shrink when the wormhole shrinks, and maybe leave a trail point at the
      position of the previous frame. */
  function Rotated(tr: Traits, mo: Motion, v: View, pulse: Pulse, dt: real, now: real, d: Draws, m: Maths): StepResult
  {
    var angle := Turned(tr, mo.angle, v, dt);
    var pulse' := PulseAfter(v, pulse, now);
    var size := PulsedSize(tr, v, pulse', now, m);
    var radius := Shrunk(mo.radius, v, dt);
    StepResult(mo.(angle := angle, size := size, radius := radius, trail := TrailAfter(mo.trail, mo.x, mo.y, mo.alpha, size, v, d)), true, pulse')
  }

  /** The trail after a rotating update: when the update leaves a trail point,
      the position and opacity of the previous frame at nine tenths, with nine
      tenths of the new size, are pushed onto it. */
  function TrailAfter(trail: seq<TrailPoint>, x: real, y: real, alpha: real, size: real, v: View, d: Draws): seq<TrailPoint>
  {
    if LeavesTrailPoint(v, d) then
      PushTrail(trail, TrailPoint(x, y, size * 0.9, alpha * 0.9), v.trailLength)
    else trail
  }

  // ---------------------------------------------------------------------------
  // Position (main.js:1548-1560) and the whole update
  // ---------------------------------------------------------------------------

  /** The position update after the explosion or rotation step. The last
      branch is unreachable: a converging update has already returned. */
  function Placed(tr: Traits, mo: Motion, v: View, m: Maths): Motion
  {
    if v.explosionStarted then
      mo.(x := v.centerX + m.cos(mo.angle) * mo.radius, y := v.centerY + m.sin(mo.angle) * mo.radius)
    else if v.formationComplete then
      var zScale := 1.0 + tr.z;
      mo.(x := v.centerX + m.cos(mo.angle + v.currentRotation) * mo.radius * zScale,
          y := v.centerY + m.sin(mo.angle + v.currentRotation) * mo.radius * zScale,
          visualSize := mo.size * zScale)
    else
      mo.(visualSize := mo.size)
  }

  /** With cos² + sin² = 1, a placed particle lies on the circle of radius
      `radius` (exploding) or `radius * (1 + z)` (rotating) around the centre. */
  lemma PlacedOnCircle(tr: Traits, mo: Motion, v: View, m: Maths)
    requires v.formationComplete || v.explosionStarted
    requires var a := if v.explosionStarted then mo.angle else mo.angle + v.currentRotation;
             m.cos(a) * m.cos(a) + m.sin(a) * m.sin(a) == 1.0
    ensures var r := Placed(tr, mo, v, m);
            var rad := if v.explosionStarted then mo.radius else mo.radius * (1.0 + tr.z);
            (r.x - v.centerX) * (r.x - v.centerX) + (r.y - v.centerY) * (r.y - v.centerY) == rad * rad
  {
    if v.explosionStarted {
      UnitCircle(m.cos(mo.angle), m.sin(mo.angle), mo.radius);
    } else {
      UnitCircleScaled(m.cos(mo.angle + v.currentRotation), m.sin(mo.angle + v.currentRotation), mo.radius, 1.0 + tr.z);
    }
  }

  lemma UnitCircle(c: real, s: real, r: real)
    requires c * c + s * s == 1.0
    ensures (c * r) * (c * r) + (s * r) * (s * r) == r * r
  {
    assert (c * r) * (c * r) + (s * r) * (s * r) == (c * c + s * s) * (r * r);
  }

  lemma UnitCircleScaled(c: real, s: real, r: real, z: real)
    requires c * c + s * s == 1.0
    ensures (c * r * z) * (c * r * z) + (s * r * z) * (s * r * z) == (r * z) * (r * z)
  {
    assert c * r * z == c * (r * z) && s * r * z == s * (r * z);
    UnitCircle(c, s, r * z);
  }

  /** The reference definition of `updateParticleState(p, deltaTime, currentTime)`. */
  function Updated(tr: Traits, mo: Motion, v: View, pulse: Pulse, dt: real, now: real, d: Draws, m: Maths): StepResult
    requires 0.0 <= mo.pathProgress && 0.0 <= tr.convergenceSpeed && 0.0 <= dt
  {
    var mo1 := if !mo.started && now >= tr.startTime then mo.(started := true, alpha := 0.0) else mo;
    if !mo1.started then
      StepResult(mo1, false, pulse)
    else
      var mo2 := mo1.(alpha := FadeIn(mo1.alpha, dt));
      if !v.formationComplete then
        var mo3 := Converged(tr, mo2, dt, d, m);
        StepResult(mo3, InPlace(tr, mo3.x, mo3.y), pulse)
      else if v.explosionStarted then
        StepResult(Placed(tr, Exploded(mo2, v.explosionProgress, dt, d, m), v, m), true, pulse)
      else
        var r := Rotated(tr, mo2, v, pulse, dt, now, d, m);
        StepResult(Placed(tr, r.motion, v, m), true, r.pulse)
  }

  // ---------------------------------------------------------------------------
  // Properties of one update
  // ---------------------------------------------------------------------------

  /** `started` is raised exactly when the start time has come, and never
      lowered; a particle that has not started is left alone and is not in place. */
  lemma UpdateStartGate(tr: Traits, mo: Motion, v: View, pulse: Pulse, dt: real, now: real, d: Draws, m: Maths)
    requires 0.0 <= mo.pathProgress && 0.0 <= tr.convergenceSpeed && 0.0 <= dt
    ensures var r := Updated(tr, mo, v, pulse, dt, now, d, m);
            (r.motion.started <==> mo.started || now >= tr.startTime)
            && (!r.motion.started ==> r.motion == mo && !r.inPlace && r.pulse == pulse)
            && (r.inPlace ==> r.motion.started)
  {
  }

  /** The invariant every particle keeps between updates. */
  predicate WellBehaved(tr: Traits, mo: Motion, trailLength: nat)
  {
    0.0 <= tr.convergenceSpeed
    && 0.0 <= mo.alpha <= 1.0
    && 0.0 <= mo.radius
    && 0.0 <= mo.pathProgress <= 1.0
    && |mo.trail| <= trailLength
  }

  /** For a clamped frame step and an explosion progress in [0, 1], an update
      keeps alpha in [0, 1], keeps `pathProgress` in [0, 1] without lowering it,
      and keeps the trail within its cap. */
  lemma UpdatePreservesWellBehaved(tr: Traits, mo: Motion, v: View, pulse: Pulse, dt: real, now: real, d: Draws, m: Maths)
    requires WellBehaved(tr, mo, v.trailLength)
    requires 0.0 <= dt <= 2.0 && 0.0 <= v.explosionProgress <= 1.0 && 0.0 <= d.spread
    requires 0.0 <= m.pow(v.explosionProgress, 0.7)
    ensures var r := Updated(tr, mo, v, pulse, dt, now, d, m);
            WellBehaved(tr, r.motion, v.trailLength) && mo.pathProgress <= r.motion.pathProgress
  {
    var mo1 := if !mo.started && now >= tr.startTime then mo.(started := true, alpha := 0.0) else mo;
    if mo1.started {
      var mo2 := mo1.(alpha := FadeIn(mo1.alpha, dt));
      assert WellBehaved(tr, mo2, v.trailLength);
      if !v.formationComplete {
        var mo3 := Converged(tr, mo2, dt, d, m);
        assert Updated(tr, mo, v, pulse, dt, now, d, m).motion == mo3;
        assert mo.pathProgress <= mo3.pathProgress <= 1.0;
      } else if v.explosionStarted {
        var e := Exploded(mo2, v.explosionProgress, dt, d, m);
        ExplodedBounds(mo2, v.explosionProgress, dt, d, m);
        assert WellBehaved(tr, e, v.trailLength);
        assert Updated(tr, mo, v, pulse, dt, now, d, m).motion == Placed(tr, e, v, m);
      } else {
        var r := Rotated(tr, mo2, v, pulse, dt, now, d, m);
        RotatedKeepsWellBehaved(tr, mo2, v, pulse, dt, now, d, m);
        assert Updated(tr, mo, v, pulse, dt, now, d, m).motion == Placed(tr, r.motion, v, m);
      }
    }
  }

  lemma RotatedKeepsWellBehaved(tr: Traits, mo: Motion, v: View, pulse: Pulse, dt: real, now: real, d: Draws, m: Maths)
    requires WellBehaved(tr, mo, v.trailLength) && 0.0 <= dt <= 2.0
    ensures var r := Rotated(tr, mo, v, pulse, dt, now, d, m).motion;
            WellBehaved(tr, r, v.trailLength) && r.pathProgress == mo.pathProgress
  {
    ScaleWithin(mo.radius, 1.0 - 0.015 * dt);
  }

  /** Once the path progress reaches 1, a particle with control points sits
      exactly on its target, and so is in place. */
  lemma PathEndSnapsToTarget(tr: Traits, mo: Motion, v: View, pulse: Pulse, dt: real, now: real, d: Draws, m: Maths)
    requires 0.0 <= mo.pathProgress && 0.0 <= tr.convergenceSpeed && 0.0 <= dt
    requires mo.started && !v.formationComplete && 1 <= |tr.controlPoints|
    requires mo.pathProgress + tr.convergenceSpeed * 0.5 * dt >= 1.0
    ensures var r := Updated(tr, mo, v, pulse, dt, now, d, m);
            r.motion.pathProgress == 1.0 && r.motion.x == tr.targetX && r.motion.y == tr.targetY && r.inPlace
  {
    var mo2 := mo.(alpha := FadeIn(mo.alpha, dt));
    assert AdvancePath(mo2.pathProgress, tr.convergenceSpeed, dt) == 1.0;
    var mo3 := mo2.(pathProgress := 1.0, x := tr.targetX, y := tr.targetY);
    assert Converged(tr, mo2, dt, d, m) == mo3;
    assert InPlace(tr, mo3.x, mo3.y);
    assert Updated(tr, mo, v, pulse, dt, now, d, m) == StepResult(mo3, true, pulse);
  }

  /** While the run is converging, the returned flag is exactly the in-place
      test on the new position of a started particle. */
  lemma ConvergingInPlace(tr: Traits, mo: Motion, v: View, pulse: Pulse, dt: real, now: real, d: Draws, m: Maths)
    requires 0.0 <= mo.pathProgress && 0.0 <= tr.convergenceSpeed && 0.0 <= dt
    requires !v.formationComplete
    ensures var r := Updated(tr, mo, v, pulse, dt, now, d, m);
            r.inPlace <==> r.motion.started && InPlace(tr, r.motion.x, r.motion.y)
  {
  }

  /** Past the converging phase every started particle reports in place, and
      only a rotating update changes the pulse variables. */
  lemma FormedUpdates(tr: Traits, mo: Motion, v: View, pulse: Pulse, dt: real, now: real, d: Draws, m: Maths)
    requires 0.0 <= mo.pathProgress && 0.0 <= tr.convergenceSpeed && 0.0 <= dt
    requires v.formationComplete
    ensures var r := Updated(tr, mo, v, pulse, dt, now, d, m);
            (r.inPlace <==> r.motion.started)
            && (v.explosionStarted ==> r.pulse == pulse && r.motion.trail == mo.trail)
            && r.motion.pathProgress == mo.pathProgress
  {
  }

  // ---------------------------------------------------------------------------
  // Trail fading and sweeping (main.js:1968-1980)
  // ---------------------------------------------------------------------------

  /** One drawn trail point after its fade: `opacity -= 0.04 * deltaTime`,
      `size -= 0.02 * size * deltaTime`. */
  function Faded(t: TrailPoint, dt: real): (r: TrailPoint)
    ensures r.x == t.x && r.y == t.y
    ensures 0.0 <= dt ==> r.opacity <= t.opacity
    ensures 0.0 <= t.size && 0.0 <= dt <= 2.0 ==> 0.0 <= r.size <= t.size
  {
    DecayWithin(t.size, dt);
    TrailPoint(t.x, t.y, t.size - 0.02 * t.size * dt, t.opacity - 0.04 * dt)
  }

  lemma DecayWithin(s: real, dt: real)
    ensures 0.0 <= s && 0.0 <= dt <= 2.0 ==> 0.0 <= s - 0.02 * s * dt <= s
  {
    if 0.0 <= s && 0.0 <= dt <= 2.0 {
      assert 0.0 <= 0.02 * dt <= 1.0;
      ScaleWithin(s, 0.02 * dt);
      assert s * (0.02 * dt) == 0.02 * s * dt;
    }
  }

  /** Every point of a trail faded once. */
  function FadedAll(trail: seq<TrailPoint>, dt: real): (r: seq<TrailPoint>)
    ensures |r| == |trail|
    ensures forall j :: 0 <= j < |r| ==> r[j] == Faded(trail[j], dt)
  {
    seq(|trail|, j requires 0 <= j < |trail| => Faded(trail[j], dt))
  }

  /** `trail.filter(t => t.opacity > 0.1)`. */
  function Visible(trail: seq<TrailPoint>): (r: seq<TrailPoint>)
    ensures |r| <= |trail|
    ensures forall t :: t in r <==> t in trail && t.opacity > VisibleOpacity
  {
    if trail == [] then []
    else if trail[0].opacity > VisibleOpacity then [trail[0]] + Visible(trail[1..])
    else Visible(trail[1..])
  }

  /** The sweep keeps the order: sweeping a concatenation sweeps each part. */
  lemma {:induction false} VisibleOfConcat(a: seq<TrailPoint>, b: seq<TrailPoint>)
    ensures Visible(a + b) == Visible(a) + Visible(b)
  {
    if a == [] {
      assert a + b == b;
    } else {
      assert (a + b)[0] == a[0];
      assert (a + b)[1..] == a[1..] + b;
      VisibleOfConcat(a[1..], b);
    }
  }

  /** Sweeping twice is sweeping once. */
  lemma {:induction false} VisibleIdempotent(trail: seq<TrailPoint>)
    ensures Visible(Visible(trail)) == Visible(trail)
  {
    if trail != [] {
      VisibleIdempotent(trail[1..]);
      if trail[0].opacity > VisibleOpacity {
        assert ([trail[0]] + Visible(trail[1..]))[1..] == Visible(trail[1..]);
      }
    }
  }

  /** A trail whose points are all visible is left unchanged by the sweep. */
  lemma {:induction false} VisibleKeepsVisibleTrail(trail: seq<TrailPoint>)
    requires forall j :: 0 <= j < |trail| ==> trail[j].opacity > VisibleOpacity
    ensures Visible(trail) == trail
  {
    if trail != [] {
      VisibleKeepsVisibleTrail(trail[1..]);
    }
  }

  // ---------------------------------------------------------------------------
  // One visit of the frame loop (main.js:1929-1980)
  // ---------------------------------------------------------------------------

  /** A particle's trail is drawn, and so faded, when the ring is formed, has not
      exploded, spins faster than 0.04 and the trail is not empty. */
  predicate TrailDrawn(v: View, trail: seq<TrailPoint>)
  {
    v.formationComplete && !v.explosionStarted && v.rotationSpeed > 0.04 && |trail| > 0
  }

  /** One visit of the pass: the update, then for a started particle the fade
      of its drawn trail and, on a sweeping frame, the sweep. */
  function Visited(tr: Traits, mo: Motion, v: View, pulse: Pulse, dt: real, now: real,
                 d: Draws, m: Maths, sweep: bool): (r: StepResult)
    requires 0.0 <= mo.pathProgress && 0.0 <= tr.convergenceSpeed && 0.0 <= dt
    ensures r.inPlace ==> r.motion.started
  {
    var u := Updated(tr, mo, v, pulse, dt, now, d, m);
    UpdateStartGate(tr, mo, v, pulse, dt, now, d, m);
    if u.motion.started && TrailDrawn(v, u.motion.trail) then
      var faded := FadedAll(u.motion.trail, dt);
      u.(motion := u.motion.(trail := if sweep then Visible(faded) else faded))
    else u
  }

  /** A visit keeps a particle well behaved and does not lower its path progress. */
  lemma VisitKeepsWellBehaved(tr: Traits, mo: Motion, v: View, pulse: Pulse, dt: real, now: real,
                              d: Draws, m: Maths, sweep: bool)
    requires WellBehaved(tr, mo, v.trailLength)
    requires 0.0 <= dt <= 2.0 && 0.0 <= v.explosionProgress <= 1.0 && 0.0 <= d.spread
    requires 0.0 <= m.pow(v.explosionProgress, 0.7)
    ensures var r := Visited(tr, mo, v, pulse, dt, now, d, m, sweep).motion;
            WellBehaved(tr, r, v.trailLength) && mo.pathProgress <= r.pathProgress
  {
    UpdatePreservesWellBehaved(tr, mo, v, pulse, dt, now, d, m);
  }

  // ---------------------------------------------------------------------------
  // The particle record
  // ---------------------------------------------------------------------------

  /** A particle record of `wormholeParticles`. The update writes its fields in
      place; the record is shared with the drawing code of the run. */
  class Particle {
    const traits: Traits
    var x: real
    var y: real
    var angle: real
    var radius: real
    var size: real
    var visualSize: real
    var alpha: real
    var started: bool
    var pathProgress: real
    var trail: seq<TrailPoint>

    /** The written fields as one value. */
    function State(): Motion
      reads this
    {
      Motion(x, y, angle, radius, size, visualSize, alpha, started, pathProgress, trail)
    }

    ghost predicate Valid(trailLength: nat)
      reads this
    {
      WellBehaved(traits, State(), trailLength)
    }

    /** A fresh record: at its start point, transparent, not started, no trail.
        The record literal has no `visualSize` until the first rotating or
        exploding update, and drawing falls back to `size` meanwhile; the model
        starts `visualSize` at that fallback, the base size. */
    constructor (traits: Traits, startX: real, startY: real, angle: real, radius: real)
      requires 0.0 <= traits.convergenceSpeed && 0.0 <= radius
      ensures this.traits == traits
      ensures State() == Motion(startX, startY, angle, radius, traits.baseSize, traits.baseSize, 0.0, false, 0.0, [])
      ensures forall trailLength: nat :: Valid(trailLength)
    {
      this.traits := traits;
      x, y := startX, startY;
      this.angle, this.radius := angle, radius;
      size, visualSize := traits.baseSize, traits.baseSize;
      alpha, started, pathProgress, trail := 0.0, false, 0.0, [];
    }

    /** `updateParticleState(p, deltaTime, currentTime)`: updates the record in
        place and returns whether it is in place and the new pulse variables. */
    method Update(v: View, pulse: Pulse, dt: real, now: real, d: Draws, m: Maths)
        returns (inPlace: bool, pulse': Pulse)
      requires 0.0 <= pathProgress && 0.0 <= traits.convergenceSpeed && 0.0 <= dt
      modifies this
      ensures var r := Updated(traits, old(State()), v, pulse, dt, now, d, m);
              State() == r.motion && inPlace == r.inPlace && pulse' == r.pulse
    {
      ghost var before := State();
      if !started && now >= traits.startTime {
        started := true;
        alpha := 0.0;
      }
      if !started {
        return false, pulse;
      }
      if alpha < FadeInCeiling {
        alpha := Min(alpha + FadeInRate * dt, FadeInCeiling);
      }
      ghost var faded := State();
      if !v.formationComplete {
        Converge(dt, d, m);
        assert State() == Converged(traits, faded, dt, d, m);
        return InPlace(traits, x, y), pulse;
      } else if v.explosionStarted {
        Explode(v.explosionProgress, dt, d, m);
        pulse' := pulse;
      } else {
        pulse' := Rotate(v, pulse, dt, now, d, m);
      }
      ghost var moved := State();
      Place(v, m);
      assert State() == Placed(traits, moved, v, m);
      inPlace := true;
    }

    /** One visit of the frame loop: the update, then for a started particle
        the fade of its drawn trail and, on a sweeping frame, the sweep. */
    method Visit(v: View, pulse: Pulse, dt: real, now: real, d: Draws, m: Maths, sweep: bool)
        returns (inPlace: bool, pulse': Pulse)
      requires 0.0 <= pathProgress && 0.0 <= traits.convergenceSpeed && 0.0 <= dt
      modifies this
      ensures var r := Visited(traits, old(State()), v, pulse, dt, now, d, m, sweep);
              State() == r.motion && inPlace == r.inPlace && pulse' == r.pulse
    {
      inPlace, pulse' := Update(v, pulse, dt, now, d, m);
      if started && TrailDrawn(v, trail) {
        FadeTrail(dt);
        if sweep {
          SweepTrail();
        }
      }
    }

    /** The converging branch of the update. */
    method Converge(dt: real, d: Draws, m: Maths)
      requires 0.0 <= pathProgress && 0.0 <= traits.convergenceSpeed && 0.0 <= dt
      modifies this`x, this`y, this`pathProgress
      ensures State() == Converged(traits, old(State()), dt, d, m)
    {
      ghost var before := State();
      if |traits.controlPoints| > 0 {
        pathProgress := pathProgress + traits.convergenceSpeed * 0.5 * dt;
        pathProgress := Min(pathProgress, 1.0);
        assert pathProgress == AdvancePath(before.pathProgress, traits.convergenceSpeed, dt);
        if pathProgress < 1.0 {
          var p := Jitter(CurvePoint(traits, Point(x, y), pathProgress), d);
          x, y := p.x, p.y;
          assert State() == before.(pathProgress := pathProgress, x := p.x, y := p.y);
        } else {
          x, y := traits.targetX, traits.targetY;
          assert State() == before.(pathProgress := pathProgress, x := traits.targetX, y := traits.targetY);
        }
      } else {
        var p := StraightStep(traits, Point(x, y), dt, m);
        x, y := p.x, p.y;
        assert State() == before.(x := p.x, y := p.y);
      }
    }

    /** The exploding branch of the update. */
    method Explode(explosionProgress: real, dt: real, d: Draws, m: Maths)
      modifies this`radius, this`size, this`alpha
      ensures State() == Exploded(old(State()), explosionProgress, dt, d, m)
    {
      var explosionFactor := m.pow(explosionProgress, 0.7) * 20.0;
      if explosionProgress < 0.3 {
        radius := radius * (1.0 - 0.08 * dt);
        size := size * (1.0 + 0.05 * dt);
        alpha := Min(1.0, alpha * (1.0 + 0.05 * dt));
      } else {
        radius := radius + explosionFactor * dt * (1.0 + d.spread * 0.5);
        alpha := alpha * (1.0 - 0.03 * dt * explosionProgress);
        size := size * (1.0 - 0.01 * dt);
      }
    }

    /** The rotating branch of the update; returns the new pulse variables. */
    method Rotate(v: View, pulse: Pulse, dt: real, now: real, d: Draws, m: Maths) returns (pulse': Pulse)
      modifies this`angle, this`size, this`radius, this`trail
      ensures var r := Rotated(traits, old(State()), v, pulse, dt, now, d, m);
              State() == r.motion && pulse' == r.pulse
    {
      ghost var before := State();
      angle := Turned(traits, angle, v, dt);
      pulse' := PulseAfter(v, pulse, now);
      size := PulsedSize(traits, v, pulse', now, m);
      radius := Shrunk(radius, v, dt);
      LeaveTrail(v, d);
      assert State() == before.(angle := angle, size := size, radius := radius, trail := trail);
    }

    /** Maybe leave a trail point at the current position, at the current size. */
    method LeaveTrail(v: View, d: Draws)
      modifies this`trail
      ensures trail == TrailAfter(old(trail), x, y, alpha, size, v, d)
    {
      if LeavesTrailPoint(v, d) {
        Push(TrailPoint(x, y, size * 0.9, alpha * 0.9), v.trailLength);
      }
    }

    /** `trail.push(point)`, then `trail.shift()` once the trail is longer than `cap`. */
    method Push(point: TrailPoint, cap: nat)
      modifies this`trail
      ensures trail == PushTrail(old(trail), point, cap)
    {
      trail := trail + [point];
      if |trail| > cap {
        trail := trail[1..];
      }
    }

    /** The position update that ends a non-converging update. */
    method Place(v: View, m: Maths)
      modifies this`x, this`y, this`visualSize
      ensures State() == Placed(traits, old(State()), v, m)
    {
      ghost var before := State();
      if v.explosionStarted {
        x, y := v.centerX + m.cos(angle) * radius, v.centerY + m.sin(angle) * radius;
        assert State() == before.(x := x, y := y);
      } else if v.formationComplete {
        var zScale := 1.0 + traits.z;
        x, y := v.centerX + m.cos(angle + v.currentRotation) * radius * zScale,
                v.centerY + m.sin(angle + v.currentRotation) * radius * zScale;
        visualSize := size * zScale;
        assert State() == before.(x := x, y := y, visualSize := visualSize);
      } else {
        visualSize := size;
      }
    }

    /** The fade loop over the drawn trail. */
    method FadeTrail(dt: real)
      modifies this`trail
      ensures trail == FadedAll(old(trail), dt)
    {
      var j := 0;
      while j < |trail|
        invariant 0 <= j <= |trail| == |old(trail)|
        invariant forall k :: 0 <= k < j ==> trail[k] == Faded(old(trail)[k], dt)
        invariant forall k :: j <= k < |trail| ==> trail[k] == old(trail)[k]
      {
        trail := trail[j := Faded(trail[j], dt)];
        j := j + 1;
      }
    }

    /** `p.trail = p.trail.filter(t => t.opacity > 0.1)`. */
    method SweepTrail()
      modifies this`trail
      ensures trail == Visible(old(trail))
    {
      trail := Visible(trail);
    }
  }
}
