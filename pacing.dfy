/** The frame pacer of the wormhole run: the `throttledRAF` time gate
    (main.js:1358-1368), the skip-frames stride and the clamped `deltaTime`
    (main.js:1574-1582). Scheduling itself (requestAnimationFrame) is the
    caller's business; these functions say when work runs and with what step. */
module FramePacing {
  import opened Numerics

  /** The nominal frame period that `deltaTime` is measured in, in milliseconds. */
  const NominalFramePeriod: real := 16.67

  /** The largest `deltaTime` a frame may use. */
  const MaxDeltaTime: real := 2.0

  /** `1000 / targetFPS`: the shortest time between two executed frames. */
  function FrameInterval(targetFPS: nat): (r: real)
    requires 0 < targetFPS
    ensures 0.0 < r
  {
    1000.0 / targetFPS as real
  }

  /** What one call of `throttledRAF` decides: whether the callback runs now, and
      the new value of `lastFrameTime`. */
  datatype Gate = Gate(fire: bool, lastFrameTime: real)

  /** The throttle: the callback runs only when more than one frame interval has
      elapsed since `lastFrameTime`; then `lastFrameTime` moves forward to the
      latest point of the frame-interval grid that is not after `currentTime`. */
  function Throttle(lastFrameTime: real, currentTime: real, frameInterval: real): (g: Gate)
    requires 0.0 < frameInterval
    ensures g.fire <==> currentTime - lastFrameTime > frameInterval
    ensures g.fire ==> currentTime - frameInterval < g.lastFrameTime <= currentTime
    ensures !g.fire ==> g.lastFrameTime == lastFrameTime
  {
    var timeElapsed := currentTime - lastFrameTime;
    if timeElapsed > frameInterval then
      Gate(true, currentTime - FMod(timeElapsed, frameInterval))
    else
      Gate(false, lastFrameTime)
  }

  /** A fired throttle advances `lastFrameTime` by a whole, positive number of
      frame intervals, so executed frames stay on one grid. */
  lemma ThrottleStaysOnGrid(lastFrameTime: real, currentTime: real, frameInterval: real)
    requires 0.0 < frameInterval
    requires Throttle(lastFrameTime, currentTime, frameInterval).fire
    ensures exists k: int :: 1 <= k &&
              Throttle(lastFrameTime, currentTime, frameInterval).lastFrameTime
                == GridPoint(lastFrameTime, k, frameInterval)
  {
    var timeElapsed := currentTime - lastFrameTime;
    var k := (timeElapsed / frameInterval).Floor;
    assert timeElapsed - FMod(timeElapsed, frameInterval) == (k as real) * frameInterval;
    assert 1.0 < timeElapsed / frameInterval by {
      assert timeElapsed / frameInterval * frameInterval == timeElapsed;
      if timeElapsed / frameInterval <= 1.0 {
        MulLe(timeElapsed / frameInterval, 1.0, frameInterval);
      }
    }
    assert 1 <= k;
    assert Throttle(lastFrameTime, currentTime, frameInterval).lastFrameTime
             == GridPoint(lastFrameTime, k, frameInterval);
  }

  /** The `k`-th point of the frame grid that starts at `origin`. */
  function GridPoint(origin: real, k: int, frameInterval: real): real
  {
    origin + k as real * frameInterval
  }

  /** `frameCounter % skipFrames === 0`: whether the counted frame does work. */
  predicate DoesWork(frameCounter: int, skipFrames: int)
    requires 1 <= skipFrames
  {
    frameCounter % skipFrames == 0
  }

  /** Of every `skipFrames` consecutive counter values starting at a multiple of
      the stride, exactly the first does work. */
  lemma WorkOncePerStride(k: int, j: int, skipFrames: int)
    requires 1 <= skipFrames && 0 <= j < skipFrames
    ensures DoesWork(k * skipFrames + j, skipFrames) <==> j == 0
  {
    ModMultiplePlus(k, j, skipFrames);
  }

  /** `Math.min((currentTime - lastTime) / 16.67, 2)`: never above 2, and not
      negative when the clock does not run backwards. */
  function DeltaTime(currentTime: real, lastTime: real): (dt: real)
    ensures dt <= MaxDeltaTime
    ensures lastTime <= currentTime ==> 0.0 <= dt
    ensures currentTime - lastTime <= 2.0 * NominalFramePeriod ==> dt * NominalFramePeriod == currentTime - lastTime
  {
    Min((currentTime - lastTime) / NominalFramePeriod, MaxDeltaTime)
  }
}
