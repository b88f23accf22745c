/** One wormhole run: the closure variables of `createWormholeEffect`
    (main.js:1313-1354, 1565-1568) and its frame loop `animateParticles`
    (main.js:1572-2024) without the drawing, together with the throttled frame
    request (main.js:1358-1368) and the two timer callbacks that raise the
    explosion and fade flags (main.js:1888-1904, 2074-2077).

    The pure function `Frame` is the reference definition of one call of the
    frame loop; `WormholeRun.AnimateParticles` performs it in place on the run's
    variables and on the particle records. */
module Wormhole {
  import opened Numerics
  import opened DeviceProfile
  import opened FramePacing
  import opened PhaseScheduler
  import opened ParticleModel
  import Scoring

  /** Every fifth counted frame sweeps the faded trail points (main.js:1977). */
  const SweepStride: int := 5

  // ---------------------------------------------------------------------------
  // The run's variables
  // ---------------------------------------------------------------------------

  /** The closure variables the frame loop reads and writes, and the global
      `earthCurrentRotationSpeed`. `finished` records the teardown at the end of
      the fade, after which no further frame is requested. */
  datatype Closure = Closure(
    formationComplete: bool,
    shrinkStarted: bool,
    explosionStarted: bool,
    wormholeFading: bool,
    finished: bool,
    rotationSpeed: real,
    currentRotation: real,
    accelerationStartTime: real,
    explosionProgress: real,
    explosionTime: real,
    fadeProgress: real,
    fadeStartTime: real,
    earthRotationSpeed: real,
    pulse: Pulse,
    frameCounter: int,
    lastTime: real,
    lastFrameTime: real)

  /** The variables as `createWormholeEffect` initialises them; `now` is the
      clock reading at creation. */
  function Initial(now: real): (c: Closure)
    ensures PhaseOfRun(c) == Converging && Ordered(c)
  {
    Closure(false, false, false, false, false,
            InitialRotationSpeed, 0.0, 0.0, 0.0, 0.0, 0.0, 0.0, EarthBaseRotationSpeed,
            Pulse(0.5, 0.0, 1.0), 0, now, 0.0)
  }

  function PhaseOfRun(c: Closure): Phase
  {
    PhaseOf(c.formationComplete, c.shrinkStarted, c.explosionStarted, c.wormholeFading, c.finished)
  }

  predicate Ordered(c: Closure)
  {
    FlagsOrdered(c.formationComplete, c.shrinkStarted, c.explosionStarted, c.wormholeFading, c.finished)
  }

  /** Every flag raised in `c` is still raised in `c'`. */
  predicate Raised(c: Closure, c': Closure)
  {
    (c.formationComplete ==> c'.formationComplete) && (c.shrinkStarted ==> c'.shrinkStarted)
    && (c.explosionStarted ==> c'.explosionStarted) && (c.wormholeFading ==> c'.wormholeFading)
    && (c.finished ==> c'.finished)
  }

  /** The clock has not gone back behind any time the run recorded. */
  predicate NotBefore(c: Closure, now: real)
  {
    c.lastTime <= now && (c.explosionStarted ==> c.explosionTime <= now)
    && (c.wormholeFading ==> c.fadeStartTime <= now)
  }

  /** What one particle update reads of the run. */
  function ViewOf(c: Closure, centerX: real, centerY: real, trailLength: nat): View
  {
    View(c.formationComplete, c.shrinkStarted, c.explosionStarted, c.explosionProgress,
         c.rotationSpeed, c.currentRotation, c.accelerationStartTime, centerX, centerY, trailLength)
  }

  // ---------------------------------------------------------------------------
  // The steps of one frame
  // ---------------------------------------------------------------------------

  /** The fade check (main.js:1591-1615): while fading, the fade progress follows
      the clock, and the run is torn down once it reaches 1. */
  function FadeChecked(c: Closure, now: real): (r: Closure)
    requires !c.finished
    ensures r == c.(fadeProgress := r.fadeProgress, finished := r.finished)
    ensures !c.wormholeFading ==> r == c
    ensures c.wormholeFading ==> (r.finished <==> now - c.fadeStartTime >= FadeDuration)
    ensures c.wormholeFading && c.fadeStartTime <= now ==> 0.0 <= r.fadeProgress <= 1.0
  {
    if c.wormholeFading then
      var progress := Progress(now, c.fadeStartTime, FadeDuration);
      c.(fadeProgress := progress, finished := progress >= 1.0)
    else c
  }

  /** Seconds since the ring formed. */
  function SinceFormation(c: Closure, now: real): real
  {
    (now - c.accelerationStartTime) / 1000.0
  }

  /** The rotation update of a formed ring that has not exploded
      (main.js:1840-1911): the speed follows the four-segment curve, the shrink
      starts once the curve is over, and the globe speeds up. */
  function Rotation(c: Closure, now: real, m: Maths): (r: Closure)
    ensures r == c.(rotationSpeed := r.rotationSpeed, shrinkStarted := r.shrinkStarted,
                    earthRotationSpeed := r.earthRotationSpeed)
    ensures !c.formationComplete || c.explosionStarted ==> r == c
    ensures c.formationComplete && !c.explosionStarted ==>
              r.rotationSpeed == RotationSpeedAt(SinceFormation(c, now), m)
              && (r.shrinkStarted <==> c.shrinkStarted || SinceFormation(c, now) > TotalRotationDuration)
    ensures c.formationComplete && !c.explosionStarted && c.accelerationStartTime <= now ==>
              EarthBaseRotationSpeed <= r.earthRotationSpeed <= 6.0 * EarthBaseRotationSpeed
  {
    if c.formationComplete && !c.explosionStarted then
      var t := SinceFormation(c, now);
      c.(rotationSpeed := RotationSpeedAt(t, m),
         shrinkStarted := c.shrinkStarted || t > TotalRotationDuration,
         earthRotationSpeed := EarthBaseRotationSpeed * GlobeSpeedFactor(t))
    else c
  }

  /** `currentRotation += rotationSpeed * deltaTime`, then the explosion progress
      (main.js:1913-1918). */
  function Spun(c: Closure, dt: real, now: real): (r: Closure)
    ensures r == c.(currentRotation := r.currentRotation, explosionProgress := r.explosionProgress)
    ensures !c.explosionStarted ==> r.explosionProgress == c.explosionProgress
    ensures c.explosionStarted && c.explosionTime <= now ==> 0.0 <= r.explosionProgress <= 1.0
    ensures c.explosionStarted ==> (r.explosionProgress == 1.0 <==> now - c.explosionTime >= ExplosionDuration)
  {
    c.(currentRotation := c.currentRotation + c.rotationSpeed * dt,
       explosionProgress := if c.explosionStarted then Progress(now, c.explosionTime, ExplosionDuration)
                            else c.explosionProgress)
  }

  /** The formation test after the pass over the ring (main.js:2013-2020). */
  function Formed(c: Closure, active: int, inPlace: int, now: real): (r: Closure)
    ensures r.formationComplete <==> c.formationComplete || FormationTest(active, inPlace)
    ensures c.formationComplete ==> r == c
    ensures !c.formationComplete && r.formationComplete ==>
              r == c.(formationComplete := true, accelerationStartTime := now,
                      earthRotationSpeed := EarthBaseRotationSpeed * 1.5)
    ensures !r.formationComplete ==> r == c
  {
    if !c.formationComplete && FormationTest(active, inPlace) then
      c.(formationComplete := true, accelerationStartTime := now,
         earthRotationSpeed := EarthBaseRotationSpeed * 1.5)
    else c
  }

  // ---------------------------------------------------------------------------
  // One pass over the ring (main.js:1927-2009)
  // ---------------------------------------------------------------------------

  /** How many indices `for (i = from; i < n; i += step)` visits. */
  function Visits(n: nat, from: nat, step: nat): nat
    requires 1 <= step
    decreases n - from
  {
    if from >= n then 0 else 1 + Visits(n, from + step, step)
  }

  /** The outcome of a pass: the particle fields, the two counts and the pulse
      variables the last rotating update left. */
  datatype PassResult = PassResult(motions: seq<Motion>, active: nat, inPlace: nat, pulse: Pulse)

  /** One visit of the frame loop: from a particle's traits, its fields, the
      pulse variables and its random draws to the outcome of the visit. */
  type ParticleStep = (Traits, Motion, Pulse, Draws) --> StepResult

  /** The visit of the frame loop (main.js:1929-1980) in view `v`:
      `updateParticleState`, then the fade and the sweep of the trail. */
  function VisitOf(v: View, dt: real, now: real, m: Maths, sweep: bool): ParticleStep
  {
    (tr: Traits, mo: Motion, pl: Pulse, d: Draws)
      requires 0.0 <= mo.pathProgress && 0.0 <= tr.convergenceSpeed && 0.0 <= dt
      => Visited(tr, mo, v, pl, dt, now, d, m, sweep)
  }

  /** `visit` may run on every particle from index `i` on, whatever the pulse. */
  ghost predicate Ready(visit: ParticleStep, ts: seq<Traits>, ms: seq<Motion>, draws: seq<Draws>, i: nat)
    requires |ts| == |ms| == |draws|
  {
    forall j, pl :: i <= j < |ms| ==> visit.requires(ts[j], ms[j], pl, draws[j])
  }

  /** The pass from index `i` on: visit every `step`-th particle in order,
      threading the pulse variables through the visits, and add to `active` the
      started particles and to `inPlace` those of them that are in place. */
  function PassFrom(ts: seq<Traits>, ms: seq<Motion>, draws: seq<Draws>, step: nat, visit: ParticleStep,
                    i: nat, pulse: Pulse, active: nat, inPlace: nat): (r: PassResult)
    requires |ts| == |ms| == |draws| && 1 <= step && Ready(visit, ts, ms, draws, i)
    ensures |r.motions| == |ms|
    ensures active <= r.active <= active + Visits(|ms|, i, step)
    ensures inPlace <= r.inPlace && r.inPlace - inPlace <= r.active - active
    ensures forall j :: 0 <= j < i && j < |ms| ==> r.motions[j] == ms[j]
    decreases |ms| - i
  {
    if i >= |ms| then PassResult(ms, active, inPlace, pulse)
    else
      var u := visit(ts[i], ms[i], pulse, draws[i]);
      PassFrom(ts, ms[i := u.motion], draws, step, visit, i + step, u.pulse,
               active + (if u.motion.started then 1 else 0),
               inPlace + (if u.motion.started && u.inPlace then 1 else 0))
  }

  /** A pass leaves the particles it skips as they were. */
  lemma {:induction false} PassSkipsOthers(ts: seq<Traits>, ms: seq<Motion>, draws: seq<Draws>, step: nat,
                                           visit: ParticleStep, i: nat, pulse: Pulse, active: nat, inPlace: nat,
                                           j: nat)
    requires |ts| == |ms| == |draws| && 1 <= step && Ready(visit, ts, ms, draws, i)
    requires i <= j < |ms| && (j - i) % step != 0
    ensures PassFrom(ts, ms, draws, step, visit, i, pulse, active, inPlace).motions[j] == ms[j]
    decreases |ms| - i
  {
    var u := visit(ts[i], ms[i], pulse, draws[i]);
    assert j != i;
    if i + step <= j {
      assert (j - (i + step)) % step != 0 by {
        ModShift(j - i, step);
      }
      PassSkipsOthers(ts, ms[i := u.motion], draws, step, visit, i + step, u.pulse,
                      active + (if u.motion.started then 1 else 0),
                      inPlace + (if u.motion.started && u.inPlace then 1 else 0), j);
    } else {
      assert j < i + step;
    }
  }

  lemma ModShift(k: int, step: int)
    requires 1 <= step && step <= k
    ensures (k - step) % step == k % step
  {
    ModMultiplePlus((k - step) / step, (k - step) % step, step);
    ModMultiplePlus((k - step) / step + 1, (k - step) % step, step);
    assert k == ((k - step) / step + 1) * step + (k - step) % step;
  }

  /** `visit` keeps every well-behaved particle well behaved. */
  ghost predicate KeepsWellBehaved(visit: ParticleStep, trailLength: nat)
  {
    forall tr, mo, pl, d :: visit.requires(tr, mo, pl, d) && WellBehaved(tr, mo, trailLength) && 0.0 <= d.spread
      ==> WellBehaved(tr, visit(tr, mo, pl, d).motion, trailLength)
  }

  /** The visit of the frame loop keeps particles well behaved, for a clamped
      frame step and an explosion progress in [0, 1]. */
  lemma VisitOfKeepsWellBehaved(v: View, dt: real, now: real, m: Maths, sweep: bool)
    requires 0.0 <= dt <= 2.0 && 0.0 <= v.explosionProgress <= 1.0 && 0.0 <= m.pow(v.explosionProgress, 0.7)
    ensures KeepsWellBehaved(VisitOf(v, dt, now, m, sweep), v.trailLength)
  {
    var visit := VisitOf(v, dt, now, m, sweep);
    forall tr, mo, pl, d | visit.requires(tr, mo, pl, d) && WellBehaved(tr, mo, v.trailLength) && 0.0 <= d.spread
      ensures WellBehaved(tr, visit(tr, mo, pl, d).motion, v.trailLength)
    {
      VisitKeepsWellBehaved(tr, mo, v, pl, dt, now, d, m, sweep);
    }
  }

  /** A pass whose visit keeps particles well behaved keeps every particle well
      behaved. */
  lemma {:induction false} PassKeepsWellBehaved(ts: seq<Traits>, ms: seq<Motion>, draws: seq<Draws>, step: nat,
                                                visit: ParticleStep, trailLength: nat,
                                                i: nat, pulse: Pulse, active: nat, inPlace: nat)
    requires |ts| == |ms| == |draws| && 1 <= step && Ready(visit, ts, ms, draws, i)
    requires KeepsWellBehaved(visit, trailLength)
    requires forall k :: 0 <= k < |draws| ==> 0.0 <= draws[k].spread
    requires forall k :: 0 <= k < |ms| ==> WellBehaved(ts[k], ms[k], trailLength)
    ensures var r := PassFrom(ts, ms, draws, step, visit, i, pulse, active, inPlace);
            forall k :: 0 <= k < |ms| ==> WellBehaved(ts[k], r.motions[k], trailLength)
    decreases |ms| - i
  {
    if i < |ms| {
      var u := visit(ts[i], ms[i], pulse, draws[i]);
      var ms' := ms[i := u.motion];
      assert forall k :: 0 <= k < |ms'| ==> WellBehaved(ts[k], ms'[k], trailLength);
      PassKeepsWellBehaved(ts, ms', draws, step, visit, trailLength, i + step, u.pulse,
                           active + (if u.motion.started then 1 else 0),
                           inPlace + (if u.motion.started && u.inPlace then 1 else 0));
    }
  }

  /** Counting from index `from`, the loop visits `ceil((n - from) / step)`
      indices. */
  lemma {:induction false} VisitsCount(n: nat, from: nat, step: nat)
    requires 1 <= step && from < n
    ensures Visits(n, from, step) == VisitedCount(n - from, step)
    decreases n - from
  {
    var k := n - from;
    var a := VisitedCount(k, step);
    if from + step >= n {
      CountUnique(k, step, a, 1);
    } else {
      VisitsCount(n, from + step, step);
      var b := VisitedCount(k - step, step);
      assert (b + 1) * step == b * step + step;
      assert b * step == (b - 1) * step + step;
      CountUnique(k, step, a, b + 1);
    }
  }

  /** At most one count of visits fits a given number of indices. */
  lemma CountUnique(k: int, step: int, a: int, b: int)
    requires 1 <= step && 0 < k
    requires a * step >= k && (a - 1) * step < k
    requires b * step >= k && (b - 1) * step < k
    ensures a == b
  {
    if a < b {
      MulNonNegative(b - 1 - a, step);
      assert false;
    } else if b < a {
      MulNonNegative(a - 1 - b, step);
      assert false;
    }
  }

  /** The counts of a full pass are attainable in the sense of the formation
      test: at most one per visited index, and no more in place than active. */
  lemma PassAttainable(p: PerformanceProfile, ts: seq<Traits>, ms: seq<Motion>, draws: seq<Draws>,
                       visit: ParticleStep, pulse: Pulse)
    requires |ts| == |ms| == |draws| == p.particleCount && 0 < p.particleCount
    requires 1 <= p.renderStep && Ready(visit, ts, ms, draws, 0)
    ensures var r := PassFrom(ts, ms, draws, p.renderStep, visit, 0, pulse, 0, 0);
            Attainable(p, r.active, r.inPlace)
  {
    VisitsCount(|ms|, 0, p.renderStep);
  }

  /** The loop over the ring (main.js:1929-2009) at render step `step`: the
      particle fields, the two counts and the pulse variables it leaves. */
  method Pass(ts: seq<Traits>, ms: seq<Motion>, draws: seq<Draws>, step: nat, visit: ParticleStep, pulse: Pulse)
      returns (ms': seq<Motion>, active: nat, inPlace: nat, pulse': Pulse)
    requires |ts| == |ms| == |draws| && 1 <= step && Ready(visit, ts, ms, draws, 0)
    ensures PassResult(ms', active, inPlace, pulse') == PassFrom(ts, ms, draws, step, visit, 0, pulse, 0, 0)
  {
    ghost var total := PassFrom(ts, ms, draws, step, visit, 0, pulse, 0, 0);
    ms', active, inPlace, pulse' := ms, 0, 0, pulse;
    var i := 0;
    while i < |ms'|
      invariant |ms'| == |ms| && Ready(visit, ts, ms', draws, i)
      invariant PassFrom(ts, ms', draws, step, visit, i, pulse', active, inPlace) == total
      decreases |ms'| - i
    {
      var r := visit(ts[i], ms'[i], pulse', draws[i]);
      ms' := ms'[i := r.motion];
      pulse' := r.pulse;
      active := active + (if r.motion.started then 1 else 0);
      inPlace := inPlace + (if r.motion.started && r.inPlace then 1 else 0);
      i := i + step;
    }
  }

  // ---------------------------------------------------------------------------
  // One frame
  // ---------------------------------------------------------------------------

  /** The outcome of one frame: the run's variables and the particle fields. */
  datatype FrameResult = FrameResult(vars: Closure, motions: seq<Motion>)

  /** The render step of a frame. */
  function StepOf(p: PerformanceProfile, c: Closure): nat
  {
    RenderStepFor(p.renderStep, c.explosionStarted, c.explosionProgress)
  }

  /** The reference definition of `animateParticles(currentTime)` on a run with
      profile `p`, ring centre (`centerX`, `centerY`), particle traits `ts` and
      particle fields `ms`; `draws[j]` are the random draws of particle `j`. */
  function Frame(c: Closure, p: PerformanceProfile, centerX: real, centerY: real, ts: seq<Traits>,
                 ms: seq<Motion>, now: real, draws: seq<Draws>, m: Maths): FrameResult
    requires WellFormed(p) && !c.finished && c.lastTime <= now
    requires |ts| == |ms| == |draws|
    requires forall j :: 0 <= j < |ms| ==> 0.0 <= ms[j].pathProgress && 0.0 <= ts[j].convergenceSpeed
  {
    var counted := c.(frameCounter := c.frameCounter + 1);
    if !DoesWork(counted.frameCounter, p.skipFrames) then FrameResult(counted, ms)
    else Worked(counted, p, centerX, centerY, ts, ms, now, draws, m)
  }

  /** A frame the frame skip lets through (main.js:1581-2020): the frame step
      since the previous such frame, the fade check, and the rest of the frame
      unless the fade has just ended the run. */
  function Worked(c: Closure, p: PerformanceProfile, centerX: real, centerY: real, ts: seq<Traits>,
                  ms: seq<Motion>, now: real, draws: seq<Draws>, m: Maths): FrameResult
    requires WellFormed(p) && !c.finished && c.lastTime <= now
    requires |ts| == |ms| == |draws|
    requires forall j :: 0 <= j < |ms| ==> 0.0 <= ms[j].pathProgress && 0.0 <= ts[j].convergenceSpeed
  {
    Concluded(c.(lastTime := now), p, centerX, centerY, ts, ms, now, DeltaTime(now, c.lastTime), draws, m)
  }

  /** The fade check at `now`, then the rest of the frame, `dt` after the
      previous one, unless the fade has just ended the run (main.js:1591-2020). */
  function Concluded(c: Closure, p: PerformanceProfile, centerX: real, centerY: real, ts: seq<Traits>,
                     ms: seq<Motion>, now: real, dt: real, draws: seq<Draws>, m: Maths): FrameResult
    requires WellFormed(p) && !c.finished && 0.0 <= dt
    requires |ts| == |ms| == |draws|
    requires forall j :: 0 <= j < |ms| ==> 0.0 <= ms[j].pathProgress && 0.0 <= ts[j].convergenceSpeed
  {
    var faded := FadeChecked(c, now);
    if faded.finished then FrameResult(faded, ms)
    else Advanced(faded, p, centerX, centerY, ts, ms, now, dt, draws, m)
  }

  /** The rest of a frame the fade check lets go on, `dt` seconds after the
      previous one: the rotation curve, the ring's spin, the pass over the ring
      and the formation test (main.js:1840-2020). */
  function Advanced(c: Closure, p: PerformanceProfile, centerX: real, centerY: real, ts: seq<Traits>,
                    ms: seq<Motion>, now: real, dt: real, draws: seq<Draws>, m: Maths): FrameResult
    requires WellFormed(p) && 0.0 <= dt
    requires |ts| == |ms| == |draws|
    requires forall j :: 0 <= j < |ms| ==> 0.0 <= ms[j].pathProgress && 0.0 <= ts[j].convergenceSpeed
  {
    var spun := Spun(Rotation(c, now, m), dt, now);
    var pass := Ring(spun, p, centerX, centerY, ts, ms, now, dt, draws, m);
    FrameResult(Formed(spun.(pulse := pass.pulse), pass.active, pass.inPlace, now), pass.motions)
  }

  /** The pass over the ring in a frame whose variables are `c`: every
      `StepOf(p, c)`-th particle is visited, and the trails are swept on every
      fifth counted frame (main.js:1924-2009). */
  function Ring(c: Closure, p: PerformanceProfile, centerX: real, centerY: real, ts: seq<Traits>,
                ms: seq<Motion>, now: real, dt: real, draws: seq<Draws>, m: Maths): PassResult
    requires WellFormed(p) && 0.0 <= dt
    requires |ts| == |ms| == |draws|
    requires forall j :: 0 <= j < |ms| ==> 0.0 <= ms[j].pathProgress && 0.0 <= ts[j].convergenceSpeed
  {
    var visit := VisitOf(ViewOf(c, centerX, centerY, p.trailLength), dt, now, m, c.frameCounter % SweepStride == 0);
    PassFrom(ts, ms, draws, StepOf(p, c), visit, 0, c.pulse, 0, 0)
  }

  /** A frame never lowers a flag, keeps the flags in order, and so never moves
      the run back to an earlier phase. */
  lemma FrameAdvancesPhase(c: Closure, p: PerformanceProfile, centerX: real, centerY: real, ts: seq<Traits>,
                           ms: seq<Motion>, now: real, draws: seq<Draws>, m: Maths)
    requires WellFormed(p) && !c.finished && c.lastTime <= now
    requires |ts| == |ms| == |draws|
    requires forall j :: 0 <= j < |ms| ==> 0.0 <= ms[j].pathProgress && 0.0 <= ts[j].convergenceSpeed
    requires Ordered(c)
    ensures var r := Frame(c, p, centerX, centerY, ts, ms, now, draws, m).vars;
            Ordered(r) && Raised(c, r) && Rank(PhaseOfRun(c)) <= Rank(PhaseOfRun(r))
  {
    var r := Frame(c, p, centerX, centerY, ts, ms, now, draws, m).vars;
    PhaseAdvances(c.formationComplete, c.shrinkStarted, c.explosionStarted, c.wormholeFading, c.finished,
                  r.formationComplete, r.shrinkStarted, r.explosionStarted, r.wormholeFading, r.finished);
  }

  /** Once the explosion has started, a frame no longer changes the rotation speed. */
  lemma FrameFreezesRotationAfterExplosion(c: Closure, p: PerformanceProfile, centerX: real, centerY: real,
                                           ts: seq<Traits>, ms: seq<Motion>, now: real, draws: seq<Draws>,
                                           m: Maths)
    requires WellFormed(p) && !c.finished && c.lastTime <= now
    requires |ts| == |ms| == |draws|
    requires forall j :: 0 <= j < |ms| ==> 0.0 <= ms[j].pathProgress && 0.0 <= ts[j].convergenceSpeed
    requires c.explosionStarted
    ensures Frame(c, p, centerX, centerY, ts, ms, now, draws, m).vars.rotationSpeed == c.rotationSpeed
  {
  }

  /** The explosion progress stays in [0, 1] from frame to frame. */
  lemma FrameKeepsExplosionProgress(c: Closure, p: PerformanceProfile, centerX: real, centerY: real,
                                    ts: seq<Traits>, ms: seq<Motion>, now: real, draws: seq<Draws>, m: Maths)
    requires WellFormed(p) && !c.finished && NotBefore(c, now)
    requires |ts| == |ms| == |draws|
    requires forall j :: 0 <= j < |ms| ==> 0.0 <= ms[j].pathProgress && 0.0 <= ts[j].convergenceSpeed
    requires 0.0 <= c.explosionProgress <= 1.0
    ensures 0.0 <= Frame(c, p, centerX, centerY, ts, ms, now, draws, m).vars.explosionProgress <= 1.0
  {
  }

  /** The ring can only form on the device tier that is neither low-end nor
      mobile: on the others a pass never counts more than 300 started particles.
      When it forms, the formation test holds and the clock of the rotation
      curve starts at this frame. */
  lemma FrameFormsOnlyOnFullTier(d: Device, c: Closure, centerX: real, centerY: real, ts: seq<Traits>,
                                 ms: seq<Motion>, now: real, draws: seq<Draws>, m: Maths)
    requires !c.finished && c.lastTime <= now && Ordered(c)
    requires |ts| == |ms| == |draws| == ProfileFor(d).particleCount
    requires forall j :: 0 <= j < |ms| ==> 0.0 <= ms[j].pathProgress && 0.0 <= ts[j].convergenceSpeed
    requires !c.formationComplete
    requires Frame(c, ProfileFor(d), centerX, centerY, ts, ms, now, draws, m).vars.formationComplete
    ensures !d.lowEnd && !d.mobile
    ensures Frame(c, ProfileFor(d), centerX, centerY, ts, ms, now, draws, m).vars.accelerationStartTime == now
  {
    var p := ProfileFor(d);
    var counted := c.(frameCounter := c.frameCounter + 1);
    var dt := DeltaTime(now, c.lastTime);
    var faded := FadeChecked(counted.(lastTime := now), now);
    var spun := Spun(Rotation(faded, now, m), dt, now);
    assert !spun.explosionStarted && StepOf(p, spun) == p.renderStep;
    var v := ViewOf(spun, centerX, centerY, p.trailLength);
    var sweep := spun.frameCounter % SweepStride == 0;
    var visit := VisitOf(v, dt, now, m, sweep);
    var pass := PassFrom(ts, ms, draws, p.renderStep, visit, 0, spun.pulse, 0, 0);
    PassAttainable(p, ts, ms, draws, visit, spun.pulse);
    assert FormationTest(pass.active, pass.inPlace);
    FormationReachableOnlyOnFullTier(d);
  }

  /** A frame keeps every particle well behaved. */
  lemma FrameKeepsParticlesWellBehaved(c: Closure, p: PerformanceProfile, centerX: real, centerY: real,
                                       ts: seq<Traits>, ms: seq<Motion>, now: real, draws: seq<Draws>,
                                       m: Maths)
    requires WellFormed(p) && !c.finished && NotBefore(c, now) && 0.0 <= c.explosionProgress <= 1.0
    requires |ts| == |ms| == |draws| && PowNonNegative(m)
    requires forall j :: 0 <= j < |draws| ==> DrawsInRange(draws[j])
    requires forall j :: 0 <= j < |ms| ==> 0.0 <= ms[j].pathProgress && 0.0 <= ts[j].convergenceSpeed
    requires forall j :: 0 <= j < |ms| ==> WellBehaved(ts[j], ms[j], p.trailLength)
    ensures var r := Frame(c, p, centerX, centerY, ts, ms, now, draws, m).motions;
            |r| == |ms| && forall j :: 0 <= j < |ms| ==> WellBehaved(ts[j], r[j], p.trailLength)
  {
    var counted := c.(frameCounter := c.frameCounter + 1);
    if DoesWork(counted.frameCounter, p.skipFrames) {
      var dt := DeltaTime(now, c.lastTime);
      var faded := FadeChecked(counted.(lastTime := now), now);
      if !faded.finished {
        var spun := Spun(Rotation(faded, now, m), dt, now);
        var v := ViewOf(spun, centerX, centerY, p.trailLength);
        var visit := VisitOf(v, dt, now, m, spun.frameCounter % SweepStride == 0);
        VisitOfKeepsWellBehaved(v, dt, now, m, spun.frameCounter % SweepStride == 0);
        PassKeepsWellBehaved(ts, ms, draws, StepOf(p, spun), visit, p.trailLength, 0, spun.pulse, 0, 0);
      }
    }
  }

  // ---------------------------------------------------------------------------
  // The run
  // ---------------------------------------------------------------------------

  /** One call of `createWormholeEffect`: the global frame rate monitor, the
      particle records of the ring and the closure variables. The records are
      kept as values: particle `j` has the fixed traits `traits[j]` and the
      mutable fields `motions[j]`. */
  class WormholeRun {
    const device: Device
    const profile: PerformanceProfile
    const centerX: real
    const centerY: real
    const monitor: Scoring.FrameRateMonitor
    const traits: seq<Traits>
    var motions: seq<Motion>
    /** The closure variables the frame loop and the timers update. */
    var vars: Closure

    /** What a particle update reads of the run. */
    function CurrentView(): View
      reads this
    {
      ViewOf(vars, centerX, centerY, profile.trailLength)
    }

    /** Every particle keeps the invariant of a particle record. */
    ghost predicate ParticlesWellBehaved()
      reads this
    {
      && |traits| == |motions|
      && (forall j :: 0 <= j < |motions| ==> 0.0 <= motions[j].pathProgress && 0.0 <= traits[j].convergenceSpeed)
      && (forall j :: 0 <= j < |motions| ==> WellBehaved(traits[j], motions[j], profile.trailLength))
    }

    ghost predicate Valid()
      reads this, monitor
    {
      && profile == ProfileFor(device)
      && |traits| == |motions| == profile.particleCount
      && ParticlesWellBehaved()
      && Ordered(vars)
      && 0.0 <= vars.explosionProgress <= 1.0
      && monitor.Valid()
    }

    /** The run's set-up: the variables' initial values, and `frameRateMonitor.start()`
        (main.js:1058). */
    constructor (device: Device, traits: seq<Traits>, motions: seq<Motion>, centerX: real, centerY: real,
                 monitor: Scoring.FrameRateMonitor, now: real)
      requires |traits| == |motions| == ProfileFor(device).particleCount
      requires forall j :: 0 <= j < |motions| ==> 0.0 <= motions[j].pathProgress && 0.0 <= traits[j].convergenceSpeed
      requires forall j :: 0 <= j < |motions| ==> WellBehaved(traits[j], motions[j], ProfileFor(device).trailLength)
      modifies monitor
      ensures Valid() && vars == Initial(now)
      ensures this.device == device && this.traits == traits && this.motions == motions && this.monitor == monitor
      ensures this.centerX == centerX && this.centerY == centerY
      ensures monitor.active && monitor.records == [] && monitor.startTime == now && monitor.lastRecordTime == now
      ensures unchanged(monitor`endTime, monitor`totalTime, monitor`averageFPS, monitor`minFPS, monitor`maxFPS, monitor`stability)
    {
      this.device := device;
      profile := ProfileFor(device);
      this.traits, this.motions := traits, motions;
      this.centerX, this.centerY := centerX, centerY;
      this.monitor := monitor;
      vars := Initial(now);
      new;
      monitor.Start(now);
    }

    /** `throttledRAF(callback)`: whether the callback runs at `currentTime`. */
    method ThrottledRAF(currentTime: real) returns (fire: bool)
      requires Valid()
      modifies this`vars
      ensures Valid()
      ensures var g := Throttle(old(vars.lastFrameTime), currentTime, FrameInterval(profile.maxFPS));
              fire == g.fire && vars == old(vars).(lastFrameTime := g.lastFrameTime)
    {
      var frameInterval := FrameInterval(profile.maxFPS);
      var timeElapsed := currentTime - vars.lastFrameTime;
      if timeElapsed > frameInterval {
        vars := vars.(lastFrameTime := currentTime - FMod(timeElapsed, frameInterval));
        fire := true;
      } else {
        fire := false;
      }
    }

    /** The timer set when the shrink starts: 200 ms later the explosion begins
        (main.js:1892-1903). Flash, shockwave and camera are not modelled. */
    method BeginExplosion(now: real)
      requires Valid() && vars.shrinkStarted && !vars.explosionStarted
      modifies this`vars
      ensures Valid()
      ensures vars == old(vars).(explosionStarted := true, explosionTime := now)
    {
      vars := vars.(explosionStarted := true, explosionTime := now);
    }

    /** The timer set when the camera animation ends: the fade begins
        (main.js:2074-2077). The camera animation starts with the explosion. */
    method BeginFading(now: real)
      requires Valid() && vars.explosionStarted && !vars.wormholeFading
      modifies this`vars
      ensures Valid()
      ensures vars == old(vars).(wormholeFading := true, fadeStartTime := now)
    {
      vars := vars.(wormholeFading := true, fadeStartTime := now);
    }

    /** `animateParticles(currentTime)`, with the displayed frame rate
        `currentFPS` and the random draws of every particle; returns the score
        handed to `showResult` when this frame ends the run. */
    method AnimateParticles(currentTime: real, currentFPS: real, draws: seq<Draws>, m: Maths)
        returns (score: Option<int>)
      requires Valid() && !vars.finished && NotBefore(vars, currentTime)
      requires 0.0 <= currentFPS && |draws| == |motions|
      requires forall j :: 0 <= j < |draws| ==> DrawsInRange(draws[j])
      requires PowNonNegative(m) && SqrtNonNegative(m)
      modifies this`vars, this`motions, monitor
      ensures Valid()
      ensures FrameResult(vars, motions)
                == Frame(old(vars), profile, centerX, centerY, traits, old(motions), currentTime, draws, m)
      ensures !DoesWork(vars.frameCounter, profile.skipFrames) ==> unchanged(monitor) && score == None
      ensures score.Some? ==> vars.finished && 0 <= score.value <= 100
      ensures DoesWork(vars.frameCounter, profile.skipFrames) ==>
                monitor.Tracked(currentFPS, currentTime, vars.finished, profile.maxFPS as real, m, score)
    {
      vars := vars.(frameCounter := vars.frameCounter + 1);
      if !DoesWork(vars.frameCounter, profile.skipFrames) {
        return None;
      }
      score := Work(currentTime, currentFPS, draws, m);
    }

    /** A frame the frame skip lets through: the frame step, the sample for the
        monitor, the fade check, and either the end of the run with its score or
        the rest of the frame. The page takes the sample before the fade check;
        `record` reads no variable of the run and the fade check writes no field
        of the monitor, so the model takes it together with the stop, after the
        check, with the same result. */
    method Work(currentTime: real, currentFPS: real, draws: seq<Draws>, m: Maths) returns (score: Option<int>)
      requires Valid() && !vars.finished && vars.lastTime <= currentTime
      requires vars.explosionStarted ==> vars.explosionTime <= currentTime
      requires 0.0 <= currentFPS && |draws| == |motions|
      requires forall j :: 0 <= j < |draws| ==> DrawsInRange(draws[j])
      requires PowNonNegative(m) && SqrtNonNegative(m)
      modifies this`vars, this`motions, monitor
      ensures Valid()
      ensures FrameResult(vars, motions)
                == Worked(old(vars), profile, centerX, centerY, traits, old(motions), currentTime, draws, m)
      ensures score.Some? ==> vars.finished && 0 <= score.value <= 100
      ensures monitor.Tracked(currentFPS, currentTime, vars.finished, profile.maxFPS as real, m, score)
    {
      var dt := DeltaTime(currentTime, vars.lastTime);
      vars := vars.(lastTime := currentTime);
      CheckFade(currentTime);
      score := monitor.Track(currentFPS, currentTime, vars.finished, profile.maxFPS as real, m);
      if !vars.finished {
        Advance(dt, currentTime, draws, m);
      }
    }

    /** The rest of the frame once the fade check lets it go on. */
    method Advance(dt: real, now: real, draws: seq<Draws>, m: Maths)
      requires profile == ProfileFor(device) && |traits| == |motions| == profile.particleCount
      requires ParticlesWellBehaved() && Ordered(vars) && 0.0 <= vars.explosionProgress <= 1.0
      requires (vars.explosionStarted ==> vars.explosionTime <= now) && 0.0 <= dt <= 2.0
      requires |draws| == |motions| && forall j :: 0 <= j < |draws| ==> DrawsInRange(draws[j])
      requires PowNonNegative(m)
      modifies this`vars, this`motions
      ensures FrameResult(vars, motions)
                == Advanced(old(vars), profile, centerX, centerY, traits, old(motions), now, dt, draws, m)
      ensures |motions| == profile.particleCount && ParticlesWellBehaved()
      ensures Ordered(vars) && 0.0 <= vars.explosionProgress <= 1.0
    {
      UpdateRotation(now, m);
      Spin(dt, now);
      var active, inPlace := UpdateRing(dt, now, draws, m);
      CheckFormation(active, inPlace, now);
    }

    /** The pass over the ring of the frame. */
    method UpdateRing(dt: real, now: real, draws: seq<Draws>, m: Maths) returns (active: nat, inPlace: nat)
      requires WellFormed(profile) && ParticlesWellBehaved() && 0.0 <= vars.explosionProgress <= 1.0
      requires 0.0 <= dt <= 2.0 && |draws| == |motions| && forall j :: 0 <= j < |draws| ==> DrawsInRange(draws[j])
      requires PowNonNegative(m)
      modifies this`vars, this`motions
      ensures PassResult(motions, active, inPlace, vars.pulse)
                == Ring(old(vars), profile, centerX, centerY, traits, old(motions), now, dt, draws, m)
      ensures vars == old(vars).(pulse := vars.pulse) && ParticlesWellBehaved()
    {
      var step, sweep := StepOf(profile, vars), vars.frameCounter % SweepStride == 0;
      var visit := VisitOf(CurrentView(), dt, now, m, sweep);
      VisitOfKeepsWellBehaved(CurrentView(), dt, now, m, sweep);
      PassKeepsWellBehaved(traits, motions, draws, step, visit, profile.trailLength, 0, vars.pulse, 0, 0);
      var ms', pulse';
      ms', active, inPlace, pulse' := Pass(traits, motions, draws, step, visit, vars.pulse);
      motions, vars := ms', vars.(pulse := pulse');
    }

    /** The fade check of the frame. */
    method CheckFade(now: real)
      requires !vars.finished
      modifies this`vars
      ensures vars == FadeChecked(old(vars), now)
    {
      if vars.wormholeFading {
        vars := vars.(fadeProgress := Progress(now, vars.fadeStartTime, FadeDuration));
        if vars.fadeProgress >= 1.0 {
          vars := vars.(finished := true);
        }
      }
    }

    /** The rotation update of the frame. */
    method UpdateRotation(now: real, m: Maths)
      modifies this`vars
      ensures vars == Rotation(old(vars), now, m)
    {
      if vars.formationComplete && !vars.explosionStarted {
        var timeSinceFormation := (now - vars.accelerationStartTime) / 1000.0;
        vars := vars.(rotationSpeed := RotationSpeedAt(timeSinceFormation, m));
        if timeSinceFormation > TotalRotationDuration && !vars.shrinkStarted {
          vars := vars.(shrinkStarted := true);
        }
        vars := vars.(earthRotationSpeed := EarthBaseRotationSpeed * GlobeSpeedFactor(timeSinceFormation));
      }
    }

    /** The ring's rotation and the explosion progress of the frame. */
    method Spin(dt: real, now: real)
      modifies this`vars
      ensures vars == Spun(old(vars), dt, now)
    {
      vars := vars.(currentRotation := vars.currentRotation + vars.rotationSpeed * dt);
      if vars.explosionStarted {
        vars := vars.(explosionProgress := Progress(now, vars.explosionTime, ExplosionDuration));
      }
    }

    /** The formation test that ends the frame. */
    method CheckFormation(active: int, inPlace: int, now: real)
      modifies this`vars
      ensures vars == Formed(old(vars), active, inPlace, now)
    {
      if !vars.formationComplete && FormationTest(active, inPlace) {
        vars := vars.(formationComplete := true, accelerationStartTime := now,
                      earthRotationSpeed := EarthBaseRotationSpeed * 1.5);
      }
    }
  }
}
