/** The phase logic of one wormhole run (createWormholeEffect / animateParticles):
    the phase the closure flags encode, the four-segment rotation-speed curve,
    the globe speed-up, the explosion and fade progress and the ring-formation
    test. The state itself lives in Wormhole.WormholeRun; here are the pure parts. */
module PhaseScheduler {
  import opened Numerics
  import opened DeviceProfile

  /** The global `const particleCount = 1000` (main.js:58). Inside animateParticles
      the formation test's `particleCount` resolves to this name. */
  const GlobalParticleCount: int := 1000

  /** `rotationTimings`, in seconds. */
  const InitialDuration: real := 5.0
  const AccelerationDuration: real := 6.0
  const PulsingDuration: real := 6.0
  const FinalDuration: real := 3.0
  const TotalRotationDuration: real := InitialDuration + AccelerationDuration + PulsingDuration + FinalDuration

  /** Seconds after formation at which the pulsing segment begins. */
  const PulseStart: real := InitialDuration + AccelerationDuration

  const InitialRotationSpeed: real := 0.008
  const MaxRotationSpeed: real := 0.15

  /** `explosionDuration` and `wormholeFadeDuration`, in milliseconds. */
  const ExplosionDuration: real := 1500.0
  const FadeDuration: real := 1000.0

  /** `earthBaseRotationSpeed`. */
  const EarthBaseRotationSpeed: real := 0.001

  // ---------------------------------------------------------------------------
  // Phases
  // ---------------------------------------------------------------------------

  datatype Phase = Converging | Rotating | Shrinking | Exploding | Fading | Done

  /** The phase that the closure flags encode; `finished` is the teardown at the
      end of the fade. */
  function PhaseOf(formationComplete: bool, shrinkStarted: bool, explosionStarted: bool,
                   wormholeFading: bool, finished: bool): Phase
  {
    if finished then Done
    else if wormholeFading then Fading
    else if explosionStarted then Exploding
    else if shrinkStarted then Shrinking
    else if formationComplete then Rotating
    else Converging
  }

  /** Position of a phase in the run. */
  function Rank(p: Phase): nat
  {
    match p
    case Converging => 0
    case Rotating => 1
    case Shrinking => 2
    case Exploding => 3
    case Fading => 4
    case Done => 5
  }

  /** The flags imply one another in the order they are raised. */
  predicate FlagsOrdered(formationComplete: bool, shrinkStarted: bool, explosionStarted: bool,
                         wormholeFading: bool, finished: bool)
  {
    (finished ==> wormholeFading) && (wormholeFading ==> explosionStarted)
    && (explosionStarted ==> shrinkStarted) && (shrinkStarted ==> formationComplete)
  }

  /** With ordered flags, the phase rank counts the raised flags, so raising
      flags (never lowering one) can only move the run forward. */
  lemma RankCountsRaisedFlags(f: bool, s: bool, e: bool, w: bool, d: bool)
    requires FlagsOrdered(f, s, e, w, d)
    ensures Rank(PhaseOf(f, s, e, w, d))
            == (if f then 1 else 0) + (if s then 1 else 0) + (if e then 1 else 0)
               + (if w then 1 else 0) + (if d then 1 else 0)
  {
  }

  lemma PhaseAdvances(f: bool, s: bool, e: bool, w: bool, d: bool,
                      f': bool, s': bool, e': bool, w': bool, d': bool)
    requires FlagsOrdered(f, s, e, w, d) && FlagsOrdered(f', s', e', w', d')
    requires (f ==> f') && (s ==> s') && (e ==> e') && (w ==> w') && (d ==> d')
    ensures Rank(PhaseOf(f, s, e, w, d)) <= Rank(PhaseOf(f', s', e', w', d'))
  {
    RankCountsRaisedFlags(f, s, e, w, d);
    RankCountsRaisedFlags(f', s', e', w', d');
  }

  // ---------------------------------------------------------------------------
  // Ring formation (main.js:2013-2016)
  // ---------------------------------------------------------------------------

  /** The formation test: more than 30% of the global particle count active, and
      at least half of the active particles in place. */
  predicate FormationTest(active: int, inPlace: int)
  {
    active as real > GlobalParticleCount as real * 0.3 && inPlace as real >= active as real * 0.5
  }

  /** How many indices `for (i = 0; i < n; i += step)` visits. */
  function VisitedCount(n: nat, step: nat): (r: nat)
    requires 1 <= step
    ensures r * step >= n
    ensures 0 < n ==> (r - 1) * step < n
  {
    var r := (n + step - 1) / step;
    ModMultiplePlus(r, (n + step - 1) % step, step);
    assert n + step - 1 == r * step + (n + step - 1) % step;
    r
  }

  /** The counts a pass over the ring can produce: no more active particles than
      visited ones, no more in place than active. */
  ghost predicate Attainable(p: PerformanceProfile, active: int, inPlace: int)
    requires 1 <= p.renderStep
  {
    0 <= inPlace <= active <= VisitedCount(p.particleCount, p.renderStep)
  }

  /** On the device tiers, a pass over the ring (at render step `renderStep`) can
      meet the formation test exactly on the tier that is neither low-end nor
      mobile (400 particles, render step 1). On every other tier the run stays
      in the converging phase. */
  lemma FormationReachableOnlyOnFullTier(d: Device)
    ensures (exists active, inPlace :: Attainable(ProfileFor(d), active, inPlace) && FormationTest(active, inPlace))
            <==> !d.lowEnd && !d.mobile
  {
    var p := ProfileFor(d);
    var n := VisitedCount(p.particleCount, p.renderStep);
    if !d.lowEnd && !d.mobile {
      assert n == 400;
      assert Attainable(p, 400, 400) && FormationTest(400, 400);
    } else {
      assert n <= 200;
      forall active, inPlace | Attainable(p, active, inPlace)
        ensures !FormationTest(active, inPlace)
      {
      }
    }
  }

  // ---------------------------------------------------------------------------
  // Rotation-speed curve (main.js:1844-1881) and globe speed (main.js:1909-1910)
  // ---------------------------------------------------------------------------

  /** Segment 1: linear from 0.008 to 0.02 over the initial duration. */
  function InitialSegment(t: real): real
  {
    InitialRotationSpeed + (t / InitialDuration) * 0.012
  }

  /** Segment 2: 0.02 plus 0.06 times `pow(progress, 1.5)`. */
  function AccelerationSegment(t: real, m: Maths): real
  {
    var accelerationProgress := (t - InitialDuration) / AccelerationDuration;
    0.02 + m.pow(accelerationProgress, 1.5) * 0.06
  }

  /** Segment 3: a base rising linearly from 0.08 to 0.13, plus a sine term. */
  function PulsingSegment(t: real, m: Maths): real
  {
    var pulseTime := t - (InitialDuration + AccelerationDuration);
    var pulseProgress := pulseTime / PulsingDuration;
    var basePulseRotation := 0.08 + pulseProgress * 0.05;
    basePulseRotation + m.sin(pulseTime * 1.5) * 0.03
  }

  /** Segment 4: quadratic from 0.13 to the maximum speed. */
  function FinalSegment(t: real): real
  {
    var finalProgress := (t - (InitialDuration + AccelerationDuration + PulsingDuration)) / FinalDuration;
    0.13 + finalProgress * finalProgress * (MaxRotationSpeed - 0.13)
  }

  /** The rotation speed `t` seconds after the ring formed. */
  function RotationSpeedAt(t: real, m: Maths): (r: real)
    ensures 0.0 <= t <= InitialDuration ==> InitialRotationSpeed <= r <= 0.02
    ensures 17.0 < t <= TotalRotationDuration ==> 0.13 <= r <= MaxRotationSpeed
    ensures TotalRotationDuration < t ==> r == MaxRotationSpeed
  {
    if t <= InitialDuration then InitialSegment(t)
    else if t <= InitialDuration + AccelerationDuration then AccelerationSegment(t, m)
    else if t <= InitialDuration + AccelerationDuration + PulsingDuration then PulsingSegment(t, m)
    else if t <= TotalRotationDuration then
      FinalSegmentBounds(t);
      FinalSegment(t)
    else MaxRotationSpeed
  }

  lemma FinalSegmentBounds(t: real)
    requires InitialDuration + AccelerationDuration + PulsingDuration < t <= TotalRotationDuration
    ensures 0.13 <= FinalSegment(t) <= MaxRotationSpeed
  {
    UnitSquareScaled((t - (InitialDuration + AccelerationDuration + PulsingDuration)) / FinalDuration);
  }

  lemma UnitSquareScaled(x: real)
    requires 0.0 < x <= 1.0
    ensures 0.13 < 0.13 + x * x * (MaxRotationSpeed - 0.13) <= MaxRotationSpeed
  {
    assert 0.0 < x * x;
    assert x * x <= x;
  }

  /** Segment 2 stays between the speeds at its two ends when `pow(·, 1.5)` maps
      the unit interval into itself. */
  lemma AccelerationSegmentBounds(t: real, m: Maths)
    requires InitialDuration < t <= InitialDuration + AccelerationDuration
    requires var x := (t - InitialDuration) / AccelerationDuration; 0.0 <= m.pow(x, 1.5) <= 1.0
    ensures 0.02 <= RotationSpeedAt(t, m) <= 0.08
  {
  }

  /** Segment 3 rides a base in (0.08, 0.13] and swings by at most 0.03 when sine
      stays in [-1, 1]; its peak can therefore exceed the maximum speed 0.15. */
  lemma PulsingSegmentBounds(t: real, m: Maths)
    requires InitialDuration + AccelerationDuration < t <= InitialDuration + AccelerationDuration + PulsingDuration
    requires var s := m.sin((t - 11.0) * 1.5); -1.0 <= s <= 1.0
    ensures 0.05 < RotationSpeedAt(t, m) <= 0.16
  {
    var pulseTime := t - 11.0;
    var base := 0.08 + (pulseTime / 6.0) * 0.05;
    assert 0.08 < base <= 0.13;
    assert RotationSpeedAt(t, m) == base + m.sin(pulseTime * 1.5) * 0.03;
  }

  /** Segments 1 and 2 meet at 0.02 and segments 2 and 3 at 0.08, given
      pow(0, 1.5) = 0, pow(1, 1.5) = 1 and sin(0) = 0. */
  lemma SegmentsMeet(m: Maths)
    requires m.pow(0.0, 1.5) == 0.0 && m.pow(1.0, 1.5) == 1.0 && m.sin(0.0) == 0.0
    ensures InitialSegment(5.0) == AccelerationSegment(5.0, m) == 0.02
    ensures AccelerationSegment(11.0, m) == PulsingSegment(11.0, m) == 0.08
    ensures FinalSegment(20.0) == MaxRotationSpeed
  {
  }

  /** Segments 3 and 4 meet only if sin(9) = 0: at 17 s the pulsing segment is
      0.13 + 0.03 sin(9) while the final segment starts from 0.13. */
  lemma PulsingToFinalJump(m: Maths)
    ensures PulsingSegment(17.0, m) - FinalSegment(17.0) == 0.03 * m.sin(9.0)
  {
  }

  /** `Math.min(1 + timeSinceFormation * 0.5, 6)`. */
  function GlobeSpeedFactor(t: real): (r: real)
    ensures r <= 6.0
    ensures 0.0 <= t ==> 1.0 <= r
    ensures 10.0 <= t ==> r == 6.0
  {
    Min(1.0 + t * 0.5, 6.0)
  }

  lemma GlobeSpeedFactorMonotone(t1: real, t2: real)
    requires t1 <= t2
    ensures GlobeSpeedFactor(t1) <= GlobeSpeedFactor(t2)
  {
  }

  // ---------------------------------------------------------------------------
  // Explosion and fade progress (main.js:1917, 1592)
  // ---------------------------------------------------------------------------

  /** `Math.min((currentTime - startTime) / duration, 1)`. */
  function Progress(currentTime: real, startTime: real, duration: real): (r: real)
    requires 0.0 < duration
    ensures r <= 1.0
    ensures startTime <= currentTime ==> 0.0 <= r
    ensures r == 1.0 <==> currentTime - startTime >= duration
  {
    Min((currentTime - startTime) / duration, 1.0)
  }

  /** The render step of one frame: doubled once the explosion is past 40%. */
  function RenderStepFor(baseStep: nat, explosionStarted: bool, explosionProgress: real): (r: nat)
    ensures baseStep <= r <= 2 * baseStep
  {
    if explosionStarted then (if explosionProgress > 0.4 then baseStep * 2 else baseStep) else baseStep
  }
}
