/** The device-tier settings the wormhole run reads (`performanceSettings`,
    main.js:959-983, and `getActualFpsLimit`, main.js:947-957). Device detection
    itself (user agent, core count, window width) is an input: the three flags. */
module DeviceProfile {

  /** The answers of `isLowEndDevice()`, `isMobileDevice()` and `isMacOS()`. */
  datatype Device = Device(lowEnd: bool, mobile: bool, macOS: bool)

  /** The settings of `performanceSettings` that the modelled core uses. */
  datatype PerformanceProfile = PerformanceProfile(
    particleCount: nat,
    skipFrames: nat,
    trailLength: nat,
    renderStep: nat,
    maxFPS: nat)

  /** The settings every tier satisfies and the run relies on. */
  predicate WellFormed(p: PerformanceProfile)
  {
    1 <= p.skipFrames && 1 <= p.renderStep && 1 <= p.trailLength && 0 < p.maxFPS
  }

  /** `performanceSettings` for a device. */
  function ProfileFor(d: Device): (p: PerformanceProfile)
    ensures WellFormed(p)
    ensures p.particleCount in {120, 200, 400} && p.renderStep in {1, 2} && p.skipFrames in {1, 2, 3}
    ensures p.maxFPS == (if d.macOS || d.mobile then 60 else 120)
    ensures p.particleCount == 400 <==> !d.lowEnd && !d.mobile
  {
    PerformanceProfile(
      particleCount := if d.lowEnd then (if d.mobile then 120 else 200) else (if d.mobile then 200 else 400),
      skipFrames := if d.lowEnd then (if d.mobile then 3 else 2) else (if d.mobile then 2 else 1),
      trailLength := if d.lowEnd then (if d.mobile then 3 else 4) else (if d.mobile then 5 else 7),
      renderStep := if d.mobile then 2 else 1,
      maxFPS := ActualFpsLimit(d))
  }

  /** `getActualFpsLimit()`. */
  function ActualFpsLimit(d: Device): nat
  {
    if d.macOS then 60 else if d.mobile then 60 else 120
  }
}
