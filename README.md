# Wormhole animation core, modelled in Dafny

`main.js` is a browser page that plays a wormhole animation on a canvas over a
Three.js globe and scores how smoothly the device ran it. This project models
the sequential logic inside that page, without the drawing:

- **The frame-rate scorer** (`frameRateMonitor`), in `scoring.dfy`:
  - `start`, `record` and `stop` update a class whose `records` field is a
    sequence of samples.
  - `calculateScore` combines four piecewise sub-scores with weights
    0.3/0.2/0.2/0.3 and rounds the sum.
  - `getTimeRating` and the grade chain of `showResult` map the results to
    bands.
- **The device tier** (`performanceSettings`, `getActualFpsLimit`), in
  `profile.dfy`. The answers of the device tests are inputs.
- **The frame pacer**, in `pacing.dfy`: the `throttledRAF` time gate, the
  skip-frames stride and the clamped `deltaTime`.
- **The phase logic**, in `phases.dfy`:
  - the phases the closure flags encode: converging, rotating, shrinking,
    exploding, fading and done;
  - the four-segment rotation-speed curve and the globe speed factor;
  - the explosion and fade progress, and the render step;
  - the ring-formation test.
- **One particle**, in `particle.dfy`. `updateParticleState` is the pure
  reference function `Updated`, and the class `Particle` performs it in place:
  - the `started` gate and the fade-in;
  - convergence along a Bézier curve, along a polyline or in a straight line;
  - the explosion;
  - rotation with size pulse, shrink and the bounded trail buffer;
  - the position update;
  - the fade and the periodic sweep of the drawn trail.
- **One run** (`createWormholeEffect` and `animateParticles`), in
  `wormhole.dfy`:
  - The class `WormholeRun` holds the closure variables, the particle records
    and the monitor.
  - `AnimateParticles` performs one frame in place.
  - It is proved equal to the pure reference function `Frame`.
  - The lemmas about one frame are stated over `Frame`.
  - The two timer callbacks that start the explosion and the fade are
    separate methods.

Math.sqrt, Math.sin, Math.cos and Math.pow with a non-integer exponent are
fields of a `Maths` value passed in by the caller. The model leaves them
uninterpreted: a property that needs a fact about one of them says so in its
`requires`. Each call of `Math.random()` is a field of a `Draws` value, one per
particle per frame. Clock readings (`performance.now()`, the frame timestamp)
are parameters.

The formation test compares the count of started particles with
`particleCount * 0.3`. Inside `animateParticles` that name is the global
`const particleCount = 1000` (main.js:58), not the tier's particle count. The
model follows the code, so the threshold is 300 started particles.
`FrameFormsOnlyOnFullTier` shows the consequence: the ring can only form on
the tier that is neither low-end nor mobile.

## Model

| member | source | states |
|---|---|---|
| Numerics.Round | main.js:592 | `Math.round` gives the integer within half a unit of its argument, halves rounded up |
| Numerics.FMod | main.js:1363 | `%` on a non-negative elapsed time leaves a remainder in [0, divisor) that differs from the dividend by whole divisors |
| Scoring.FpsValues | main.js:503 | the frame rates of the samples, in order, one per sample |
| Scoring.Sum | main.js:504 | the `reduce((a, b) => a + b, 0)` fold: 0 for no samples, else the sum of all but the last plus the last; `MeanBetweenExtremes` and `MeanNonNegative` bound it |
| Scoring.Mean | main.js:504 | `averageFPS`, the sum divided by the number of samples, for at least one sample; `MeanBetweenExtremes` places it between the minimum and the maximum |
| Scoring.MinOf | main.js:505 | `Math.min(...)` is a value of the sequence and no larger than any of them |
| Scoring.MaxOf | main.js:506 | `Math.max(...)` is a value of the sequence and no smaller than any of them |
| Scoring.Variance | main.js:509-511 | the mean squared deviation from the mean is non-negative |
| Scoring.Stability | main.js:512-516 | the stability percentage is non-negative, and at most 100 when the mean and the standard deviation are non-negative |
| Scoring.MeanBetweenExtremes | main.js:504-506 | on any non-empty run `minFPS <= averageFPS <= maxFPS` |
| Scoring.MeanNonNegative | main.js:504 | the mean of non-negative frame rates is non-negative |
| Scoring.AverageScore | main.js:537-542 | the average-FPS sub-score lies in [0, 100] for a non-negative ratio; it is 100 exactly from ratio 0.9 and at least 90 from ratio 0.7 |
| Scoring.MinimumScore | main.js:546-550 | the minimum-FPS sub-score lies in [0, 100] for a non-negative ratio; it is 100 exactly from ratio 0.7 and at least 90 from ratio 0.5 |
| Scoring.StabilityScore | main.js:554-558 | the stability sub-score lies in [0, 100] for a percentage in [0, 100]; it is 100 exactly from 85 and at least 90 from 70 |
| Scoring.TimeScore | main.js:561-580 | the time score is 100 up to 30 s, in [80, 100) up to 40 s, in [60, 80) up to 50 s and in [40, 60) beyond |
| Scoring.WeightedScore | main.js:583-588 | the weighted sum of four sub-scores in [0, 100] lies in [0, 100] |
| Scoring.CalculateScore | main.js:530-593 | the rounded score of a run with non-negative frame rates and a stability in [0, 100] is an integer in 0..100 |
| Scoring.WeightsSumToOne | main.js:464-469 | the four weights sum to 1, so four full sub-scores give 100 |
| Scoring.TimeScoreNonIncreasing | main.js:561-580 | a slower run never gets a higher time score |
| Scoring.TimeScoreExample | main.js:570-574 | a 45 s run scores 70 for time |
| Scoring.AverageScoreDipsAtThreeTenths | main.js:541-542 | the average-FPS curve is not monotone: just below ratio 0.3 it exceeds its value at 0.3 |
| Scoring.MinimumScoreMonotone | main.js:547-550 | the minimum-FPS sub-score never falls as the ratio rises |
| Scoring.StabilityScoreMonotone | main.js:555-558 | the stability sub-score never falls as the percentage rises |
| Scoring.GradeOf | main.js:665-695 | the `showResult` chain: S from 90, A from 80, B from 70, C from 60, D from 40, else E; `GradeBands` states each band as an if-and-only-if |
| Scoring.TimeRatingOf | main.js:596-610 | the `getTimeRating` chain over `totalTime` with the fast, standard and slow reference times; `TimeRatingBands` states the six bands in milliseconds |
| Scoring.GradeBands | main.js:665-695 | each score gets exactly one grade: S from 90, A from 80, B from 70, C from 60, D from 40, else E |
| Scoring.TimeRatingBands | main.js:596-610 | the six time ratings split the time axis into disjoint, exhaustive bands at 27, 30, 40, 50 and 60 s |
| Scoring.FrameRateMonitor.constructor | main.js:446-469 | the monitor starts inactive, with no samples and every statistic 0 |
| Scoring.FrameRateMonitor.Start | main.js:472-478 | `start()` activates the monitor, empties the samples and sets both the start and the last record time to now |
| Scoring.FrameRateMonitor.Record | main.js:481-492 | `record` appends exactly one sample and moves `lastRecordTime` when active and at least 1000 ms have passed; otherwise it changes nothing |
| Scoring.FrameRateMonitor.Stop | main.js:495-527 | `stop()` changes nothing and returns no score when inactive or when no sample was taken, so `active` stays true in the empty case. Otherwise the monitor ends in the `Stopped` state: inactive, so a second `stop()` does nothing, with end time now, total time since the start, mean, minimum, maximum and stability of the samples, and the returned score equal to `CalculateScore` of those. The score lies in 0..100, with `minFPS <= averageFPS <= maxFPS` and stability in [0, 100] |
| Scoring.FrameRateMonitor.Tracked | main.js:1585-1613 | the monitor after its part of a frame: start time kept; one sample appended and `lastRecordTime` moved when it was active and 1000 ms had passed, else samples and `lastRecordTime` kept; `Stopped` with the score exactly when the frame finished the run while it was active with samples, else no score with `active` and all six statistics kept |
| Scoring.FrameRateMonitor.Track | main.js:1585-1613 | `record` then, on the frame that ends the run, `stop()`: the monitor ends `Tracked`, valid, with a score in 0..100 |
| DeviceProfile.ActualFpsLimit | main.js:949-957 | `getActualFpsLimit()`: 60 on macOS, else 60 on a mobile device, else 120; `ProfileFor` caps every tier's frame rate by it |
| DeviceProfile.ProfileFor | main.js:959-983 | every tier has 120, 200 or 400 particles, render step 1 or 2 and skip stride 1 to 3; the frame-rate cap is 60 on macOS or mobile and 120 otherwise; 400 particles exactly on the tier that is neither low-end nor mobile |
| FramePacing.FrameInterval | main.js:1355 | the frame interval `1000 / targetFPS` is positive |
| FramePacing.Throttle | main.js:1358-1368 | the callback runs exactly when more than one frame interval has elapsed; then the new `lastFrameTime` lies in (now - interval, now]; otherwise it is unchanged |
| FramePacing.ThrottleStaysOnGrid | main.js:1362-1363 | a firing throttle moves `lastFrameTime` forward by a whole, positive number of frame intervals |
| FramePacing.WorkOncePerStride | main.js:1574-1578 | of every `skipFrames` consecutive counter values from a multiple of the stride, exactly the first does work |
| FramePacing.DeltaTime | main.js:1581 | `deltaTime` never exceeds 2, is non-negative when the clock does not go back, and below the clamp is the elapsed time in nominal frame periods |
| PhaseScheduler.RankCountsRaisedFlags | main.js:1313-1318 | with the flags in their order of raising, the phase's position in the run is the number of raised flags |
| PhaseScheduler.PhaseAdvances | main.js:1883-1892 | raising flags, never lowering one, never moves the run back to an earlier phase |
| PhaseScheduler.VisitedCount | main.js:1929 | the loop `i += step` over n indices visits `ceil(n / step)` of them |
| PhaseScheduler.FormationTest | main.js:2013-2014 | more than 30% of the global `particleCount` active and at least half of the active particles in place; `FormationReachableOnlyOnFullTier` says when it can hold |
| PhaseScheduler.FormationReachableOnlyOnFullTier | main.js:2013-2014 | counts that one pass can produce meet the formation test on exactly the tier that is neither low-end nor mobile |
| PhaseScheduler.RotationSpeedAt | main.js:1844-1881 | the speed is in [0.008, 0.02] for the first 5 s, in [0.13, 0.15] on (17, 20] s, and 0.15 after 20 s |
| PhaseScheduler.FinalSegmentBounds | main.js:1870-1877 | the final quadratic segment stays within [0.13, 0.15] |
| PhaseScheduler.AccelerationSegmentBounds | main.js:1849-1854 | the acceleration segment stays within [0.02, 0.08] when `pow(·, 1.5)` maps [0, 1] into itself |
| PhaseScheduler.PulsingSegmentBounds | main.js:1856-1868 | the pulsing segment lies in (0.05, 0.16] when sine lies in [-1, 1], so it can exceed the maximum speed |
| PhaseScheduler.SegmentsMeet | main.js:1844-1877 | segments 1 and 2 meet at 0.02, segments 2 and 3 at 0.08, and segment 4 ends at 0.15 |
| PhaseScheduler.PulsingToFinalJump | main.js:1856-1877 | at 17 s the speed jumps by `0.03 sin(9)` from the pulsing to the final segment |
| PhaseScheduler.GlobeSpeedFactor | main.js:1909-1910 | the globe speed factor is at most 6, at least 1 after formation, and 6 from 10 s on |
| PhaseScheduler.GlobeSpeedFactorMonotone | main.js:1909 | the globe speed factor never falls over time |
| PhaseScheduler.Progress | main.js:1917 | the explosion or fade progress is at most 1, non-negative once started, and 1 exactly when the duration has passed |
| PhaseScheduler.RenderStepFor | main.js:1925-1927 | the render step is the tier's step, doubled at most |
| ParticleModel.FadeIn | main.js:1381-1383 | the fade-in never lowers `alpha`, never lifts it past 0.95, leaves it alone from 0.95 on and keeps it in [0, 1] |
| ParticleModel.AdvancePath | main.js:1389-1390 | the path progress never decreases, is capped at 1, and reaches 1 exactly when the step carries it there |
| ParticleModel.BezierEndpoints | main.js:1395-1409 | both Bézier curves start at the particle and end at the target |
| ParticleModel.BezierOfConstant | main.js:1399-1409 | the Bézier weights sum to one |
| ParticleModel.PolylinePoint | main.js:1410-1437 | the multi-segment path: the segment `PolylineSegment` picks runs from the particle, or the previous control point, to the next control point, or the target on the last segment, and the point is interpolated at the local `t`; `PolylineThroughControlPoints` shows it passes through each control point |
| ParticleModel.CurvePoint | main.js:1392-1438 | the path point at the new progress: the quadratic Bézier curve for one control point, the cubic for two, the polyline for more; `BezierEndpoints` and `BezierOfConstant` constrain the curves |
| ParticleModel.PolylineSegment | main.js:1412-1415 | the segment index lies in [0, segmentCount - 1], `segmentT >= 0`, index plus `segmentT` is the scaled progress, and below progress 1 the index is its floor and `segmentT < 1` |
| ParticleModel.PolylineThroughControlPoints | main.js:1412-1436 | at progress k/(n+1) the polyline is at the k-th control point |
| ParticleModel.Jitter | main.js:1440-1443 | the jitter changes the position only when its draw is below 0.1, and by at most one unit per axis |
| ParticleModel.SpeedMultiplier | main.js:1459-1464 | the speed factor lies in [0.8, 1.2]: 1.2 on the circle distribution, 1 on the distributions other than circle and border |
| ParticleModel.BorderSpeedCloserIsFaster | main.js:1462-1463 | on the border distribution a closer particle moves no slower |
| ParticleModel.StraightStep | main.js:1452-1474 | a particle without control points farther than 5 units from its target moves by the step fraction of the remaining difference on each axis, and otherwise snaps to the target; `StraightStepNeverOvershoots` bounds the fraction in [0, 1) |
| ParticleModel.StraightStepNeverOvershoots | main.js:1466-1469 | farther than 5 units away, a straight step covers a fraction in [0, 1) of the way to the target, so it never overshoots |
| ParticleModel.Converged | main.js:1385-1474 | convergence moves only the position and the path progress |
| ParticleModel.Exploded | main.js:1478-1492 | below 30% progress the radius shrinks by `0.08 * dt`, the size grows and alpha rises capped at 1; from 30% the radius grows by `pow(progress, 0.7) * 20 * dt * (1 + spread / 2)` while alpha and size fall; `ExplodedBounds` states the bounds |
| ParticleModel.ExplodedBounds | main.js:1478-1492 | the explosion keeps `alpha` in [0, 1]; the compression never grows the radius and the expansion never shrinks it |
| ParticleModel.PulseAfter | main.js:1501-1519 | in the pulsing phase the frequency lies in (0.5, 2] and the intensity in (0.2, 0.7]; before it both are unchanged; the size multiplier lies in [1, 2.5] |
| ParticleModel.Rotated | main.js:1493-1546 | the rotating update turns the angle, resizes with the pulse, shrinks the radius once the wormhole shrinks, and passes the trail through `TrailAfter`; `RotatedKeepsWellBehaved` states what it keeps |
| ParticleModel.TrailAfter | main.js:1529-1545 | when the rotation speed and the draw leave a trail point, the previous position with nine tenths of the new size and of the opacity is pushed by `PushTrail`; otherwise the trail is unchanged |
| ParticleModel.PushTrail | main.js:1533-1543 | push-then-shift keeps a trail within its cap, keeps the newest points of the old trail plus the new one, and leaves the new point last |
| ParticleModel.PushTrailKeepsNewest | main.js:1540-1543 | a push keeps exactly the newest `trailLength` points, oldest first |
| ParticleModel.Placed | main.js:1548-1561 | an exploding particle is put at its angle and radius around the centre; a rotating one at its angle plus the ring's rotation, at the radius scaled by `1 + z`, with that scale on its visual size; otherwise only the visual size is reset; `PlacedOnCircle` shows both positions lie on their circles |
| ParticleModel.PlacedOnCircle | main.js:1549-1557 | a placed particle lies on the circle of its radius (exploding) or of its radius times `1 + z` (rotating) |
| ParticleModel.Updated | main.js:1371-1563 | `updateParticleState`: the start gate, the fade-in, then convergence with the in-place test, or the explosion, or the rotation, each followed by the position update; `UpdateStartGate`, `UpdatePreservesWellBehaved`, `PathEndSnapsToTarget`, `ConvergingInPlace` and `FormedUpdates` state its properties |
| ParticleModel.UpdateStartGate | main.js:1373-1378 | `started` is raised exactly when the start time has come and never lowered; a particle not started is left alone and is not in place |
| ParticleModel.UpdatePreservesWellBehaved | main.js:1371-1563 | for `deltaTime` in [0, 2] and an explosion progress in [0, 1], an update keeps `alpha` and `pathProgress` in [0, 1], never lowers the path progress and keeps the trail within its cap |
| ParticleModel.RotatedKeepsWellBehaved | main.js:1493-1546 | a rotating update keeps those bounds and leaves the path progress alone |
| ParticleModel.PathEndSnapsToTarget | main.js:1389-1451 | once the path progress reaches 1, a particle with control points sits exactly on its target and is in place |
| ParticleModel.ConvergingInPlace | main.js:1476-1477 | while converging, "in place" is exactly both axis distances below 8 for a started particle |
| ParticleModel.FormedUpdates | main.js:1478-1562 | after formation every started particle reports in place, the path progress is unchanged, and the explosion changes neither the pulse variables nor the trail |
| ParticleModel.Faded | main.js:1972-1973 | a fade keeps a trail point's position, never raises its opacity, and keeps its size in [0, size] |
| ParticleModel.FadedAll | main.js:1960-1974 | the fade loop fades every trail point once, in order |
| ParticleModel.Visible | main.js:1977-1979 | the filter keeps exactly the points with opacity above 0.1 |
| ParticleModel.VisibleOfConcat | main.js:1978 | the filter keeps the order of the points |
| ParticleModel.VisibleIdempotent | main.js:1978 | filtering twice is filtering once |
| ParticleModel.VisibleKeepsVisibleTrail | main.js:1978 | a trail whose points are all visible is left unchanged |
| ParticleModel.Visited | main.js:1933-1980 | only a started particle can be in place after a visit |
| ParticleModel.VisitKeepsWellBehaved | main.js:1933-1980 | a visit (update, fade, sweep) keeps a particle within its bounds and never lowers its path progress |
| ParticleModel.Particle.constructor | main.js:1244-1269 | a new record is at its start point, transparent, not started, with no trail and its base size |
| ParticleModel.Particle.Update | main.js:1371-1563 | `updateParticleState` updates the record in place to `Updated` of its old fields and returns its in-place flag and the pulse variables |
| ParticleModel.Particle.Visit | main.js:1929-1980 | one visit of the frame loop updates the record in place to `Visited` of its old fields |
| ParticleModel.Particle.Converge | main.js:1385-1474 | the converging branch writes the position and path progress of `Converged` |
| ParticleModel.Particle.Explode | main.js:1478-1492 | the exploding branch writes radius, size and alpha of `Exploded` |
| ParticleModel.Particle.Rotate | main.js:1493-1546 | the rotating branch writes angle, size, radius and trail of `Rotated` and returns the pulse variables |
| ParticleModel.Particle.LeaveTrail | main.js:1530-1545 | the trail gets the point the rotating update leaves, if any |
| ParticleModel.Particle.Push | main.js:1533-1543 | `push` then `shift` over the cap gives `PushTrail` of the old trail |
| ParticleModel.Particle.Place | main.js:1548-1560 | the position update writes the position and visual size of `Placed` |
| ParticleModel.Particle.FadeTrail | main.js:1960-1974 | the fade loop leaves `FadedAll` of the old trail |
| ParticleModel.Particle.SweepTrail | main.js:1977-1979 | the filter leaves `Visible` of the old trail |
| Wormhole.Initial | main.js:1313-1354 | a new run is converging, with its flags in order |
| Wormhole.FadeChecked | main.js:1591-1616 | the fade check changes only the fade progress and the teardown flag; while fading the run ends exactly when the fade duration has passed, and the progress stays in [0, 1] |
| Wormhole.Rotation | main.js:1840-1911 | on a formed ring that has not exploded, the speed follows the curve, the shrink starts once the curve is over (and never stops) and the globe speed stays within 1 to 6 times its base; otherwise nothing changes |
| Wormhole.Spun | main.js:1913-1918 | the spin changes only the rotation and the explosion progress, which is in [0, 1] once the explosion started and 1 exactly when its duration has passed |
| Wormhole.Formed | main.js:2013-2020 | the ring is formed afterwards exactly when it was already formed or the formation test holds; on forming, only the flag, the curve's start time and the globe speed change |
| Wormhole.PassFrom | main.js:1929-2010 | a pass keeps the number of particles, counts at most one started particle per visited index and no more in place than started, and leaves the particles before its start alone |
| Wormhole.PassSkipsOthers | main.js:1929 | a pass leaves every particle it skips as it was |
| Wormhole.VisitOfKeepsWellBehaved | main.js:1933-1980 | the frame loop's visit keeps every particle within its bounds |
| Wormhole.PassKeepsWellBehaved | main.js:1929-2010 | a pass whose visit keeps particles within their bounds keeps all of them within their bounds |
| Wormhole.VisitsCount | main.js:1929 | the loop visits `ceil(n / step)` indices |
| Wormhole.PassAttainable | main.js:1935-1937 | the two counts of a full pass are counts the formation test can be asked about: in place <= active <= visited |
| Wormhole.Pass | main.js:1929-2010 | the loop over the ring leaves the particle fields, the two counts and the pulse variables that `PassFrom` defines |
| Wormhole.Frame | main.js:1572-2024 | `animateParticles`: the frame counter rises; a frame the skip holds back changes nothing else, any other frame is `Worked`; the `Frame…` lemmas below state its properties |
| Wormhole.Worked | main.js:1580-2020 | a frame that does work: `deltaTime` from the previous such frame, `lastTime` moved to now, then `Concluded` |
| Wormhole.Concluded | main.js:1591-2020 | the fade check, and unless it has ended the run, `Advanced` |
| Wormhole.Advanced | main.js:1840-2020 | the rotation curve, the spin, the pass over the ring with `Ring`, and the formation test on the pass's counts |
| Wormhole.Ring | main.js:1921-2010 | the pass over the ring: every render-step-th particle is visited, and trails are swept on every fifth counted frame; `PassKeepsWellBehaved` and `PassAttainable` bound it |
| Wormhole.FrameAdvancesPhase | main.js:1572-2024 | a frame never lowers a flag, keeps the flags in order and never moves the run back to an earlier phase |
| Wormhole.FrameFreezesRotationAfterExplosion | main.js:1840 | once the explosion has started, a frame no longer changes the rotation speed |
| Wormhole.FrameKeepsExplosionProgress | main.js:1916-1918 | the explosion progress stays in [0, 1] from frame to frame |
| Wormhole.FrameFormsOnlyOnFullTier | main.js:2013-2016 | a frame that forms the ring runs on the tier that is neither low-end nor mobile, and starts the rotation curve's clock at that frame |
| Wormhole.FrameKeepsParticlesWellBehaved | main.js:1929-2010 | a frame keeps the number of particles and every particle within its bounds |
| Wormhole.WormholeRun.constructor | main.js:1313-1354 | a run starts with the initial variables and the tier's particle records; the monitor is started (`start()` at main.js:1058): active, no samples, start time and last record time now, and its statistics unchanged |
| Wormhole.WormholeRun.ThrottledRAF | main.js:1358-1368 | `throttledRAF` fires as `Throttle` decides and changes only `lastFrameTime` |
| Wormhole.WormholeRun.BeginExplosion | main.js:1891-1904 | the shrink timer raises `explosionStarted` and records the explosion time, keeping the run valid |
| Wormhole.WormholeRun.BeginFading | main.js:2074-2077 | the post-explosion timer raises `wormholeFading` and records the fade start, keeping the run valid |
| Wormhole.WormholeRun.AnimateParticles | main.js:1572-2024 | one frame updates the variables and particles to `Frame` of the old ones and keeps the run valid. A skipped frame leaves the monitor unchanged and returns no score. A frame that does work leaves the monitor `Tracked`: a sample by `record`'s rule, and the `Stopped` state with a `CalculateScore` score exactly when the frame ends the run while the monitor is active with samples; otherwise no score, and neither `active` nor any statistic changed. A score lies in 0..100 |
| Wormhole.WormholeRun.Work | main.js:1580-1617 | a frame the skip lets through moves the variables and particles to `Worked` of the old ones, keeps the run valid and leaves the monitor `Tracked` for this frame's rate, time and end of run |
| Wormhole.WormholeRun.Advance | main.js:1840-2020 | the rest of a frame (rotation, spin, pass, formation test) keeps the particles within their bounds, the flags in order and the explosion progress in [0, 1] |
| Wormhole.WormholeRun.UpdateRing | main.js:1921-2010 | the pass over the ring changes only the particles and the pulse variables, as `Ring` defines, and keeps the particles within their bounds |
| Wormhole.WormholeRun.CheckFade | main.js:1591-1617 | the fade check updates the variables to `FadeChecked` |
| Wormhole.WormholeRun.UpdateRotation | main.js:1840-1911 | the rotation update updates the variables to `Rotation` |
| Wormhole.WormholeRun.Spin | main.js:1913-1918 | `currentRotation += rotationSpeed * deltaTime` and the explosion progress, as `Spun` |
| Wormhole.WormholeRun.CheckFormation | main.js:2013-2020 | the formation test updates the variables to `Formed` |

## Left out

- Scoring.FrameRateMonitor.Track: `record()` (main.js:484) and `stop()` (main.js:499) each read `performance.now()` themselves; the model gives both the frame's own timestamp, so a sample's time, `lastRecordTime`, `endTime` and `totalTime` use one clock reading per frame, not the slightly later readings of the page.
- Drawing is not modelled: the canvas, the Three.js scene, the globe, the lights, the glow, the shockwave, the explosion sprites and the colours. The model keeps only the state that drawing reads or writes: the trail fade and sweep are kept because they change particle state.
- Background particles are not modelled. Their motion and random placement only feed the drawing.
- The camera tween (`animateCamera` with its easing) is not modelled. Its end is the `BeginFading` timer.
- `resetView`, the ESC handler and all DOM and UI work are not modelled: the FPS counter, the hints, the result panel and responsive sizing.
- The flash opacity and the shockwave radius are not modelled. They are drawing state that nothing else reads.
- `rotationPhase` and the unused `accelerationFactor` are not modelled. Nothing reads them.
- `requestAnimationFrame`, `setTimeout` and `cancelAnimationFrame` are not modelled as scheduling. A frame, a throttle check and each timer callback are separate methods the caller invokes. The 200 ms and 1500 ms delays are the caller's business.
- Device detection (user agent, core count, window width) is an input: the three flags of `Device`.
- `Math.random()` is not modelled. Each draw is a field of `Draws`, and `DrawsInRange` states the range `Math.random()` guarantees.
- Math.sqrt, Math.sin, Math.cos and Math.pow with a non-integer exponent are uninterpreted functions. Properties that need a fact about one of them assume only that fact.
- IEEE double arithmetic is not modelled. The model computes on exact reals, so rounding, overflow and NaN are absent.
- Scoring.Stability: a run whose samples are all 0 has stability NaN in JavaScript (0/0); the model gives it stability 0. Its grade is E either way.
- Wormhole.Initial: the globe speed of a new run starts at its base value. In the page, `earthCurrentRotationSpeed` is a global (main.js:85) that `createWormholeEffect` does not reset, so a second run in the same page starts from the value the camera tween of the previous run left (main.js:2063). The model starts every run from the base value.
- Wormhole.WormholeRun: the run keeps the particle records as values (`traits` and `motions`) rather than as shared objects. In-place update of one record is modelled by `ParticleModel.Particle`, but aliasing between records and the run is not.
- ParticleModel.Visited: its contract states only that an in-place particle has started. Its bounds are stated by `VisitKeepsWellBehaved`, and its relation to `updateParticleState` by its definition through `Updated`.
- The final `else` of the position update (main.js:1558-1560) is unreachable, because a converging update has already returned. The model keeps it as written.
- The console logging in `start` and `stop` and the `showResult` timer are not modelled.
