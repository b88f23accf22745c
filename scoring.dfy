/** The frame-rate scorer of main.js (the `frameRateMonitor` object): it samples the
    displayed frame rate about once a second during a run and, when the run ends,
    turns the samples and the elapsed time into a weighted 0-100 score, a letter
    grade and a completion-time rating. */
module Scoring {
  import opened Numerics

  /** Minimum time between two samples, in milliseconds (`recordInterval`). */
  const RecordInterval: real := 1000.0

  /** Reference completion times in milliseconds (`referenceCompletionTime`). */
  const FastTime: real := 30000.0
  const StandardTime: real := 40000.0
  const SlowTime: real := 50000.0

  /** Weights of the four sub-scores (`weightDistribution`). */
  const AverageWeight: real := 0.3
  const MinimumWeight: real := 0.2
  const StabilityWeight: real := 0.2
  const TimeWeight: real := 0.3

  /** One recorded sample: seconds since the run started and the frame rate then. */
  datatype Sample = Sample(time: real, fps: real)

  /** `records.map(r => r.fps)`. */
  function FpsValues(records: seq<Sample>): (s: seq<real>)
    ensures |s| == |records|
    ensures forall i :: 0 <= i < |s| ==> s[i] == records[i].fps
  {
    seq(|records|, i requires 0 <= i < |records| => records[i].fps)
  }

  // ---------------------------------------------------------------------------
  // Statistics over the sampled frame rates (main.js:509-523)
  // ---------------------------------------------------------------------------

  /** `fpsValues.reduce((a, b) => a + b, 0)`, a fold from the left. */
  function Sum(s: seq<real>): real
  {
    if s == [] then 0.0 else Sum(s[..|s| - 1]) + s[|s| - 1]
  }

  /** The arithmetic mean (`averageFPS`). */
  function Mean(s: seq<real>): real
    requires |s| > 0
  {
    Sum(s) / |s| as real
  }

  /** `Math.min(...fpsValues)`: the smallest value, which occurs in the sequence. */
  function MinOf(s: seq<real>): (r: real)
    requires |s| > 0
    ensures r in s
    ensures forall i :: 0 <= i < |s| ==> r <= s[i]
  {
    if |s| == 1 then s[0] else Min(MinOf(s[..|s| - 1]), s[|s| - 1])
  }

  /** `Math.max(...fpsValues)`: the largest value, which occurs in the sequence. */
  function MaxOf(s: seq<real>): (r: real)
    requires |s| > 0
    ensures r in s
    ensures forall i :: 0 <= i < |s| ==> s[i] <= r
  {
    if |s| == 1 then s[0] else Max(MaxOf(s[..|s| - 1]), s[|s| - 1])
  }

  /** The sum of squared deviations from `mean`, folded from the left. */
  function SquaredDeviations(s: seq<real>, mean: real): (r: real)
    ensures 0.0 <= r
  {
    if s == [] then 0.0
    else
      var d := s[|s| - 1] - mean;
      SquaredDeviations(s[..|s| - 1], mean) + d * d
  }

  /** The population variance of the samples. */
  function Variance(s: seq<real>): (r: real)
    requires |s| > 0
    ensures 0.0 <= r
  {
    SquaredDeviations(s, Mean(s)) / |s| as real
  }

  /** `Math.max(0, 100 - stdDeviation / averageFPS * 100)`, where the standard
      deviation is `sqrt` of the variance. An all-zero run (mean 0) would divide
      zero by zero in JavaScript; the model gives it stability 0. */
  function Stability(s: seq<real>, sqrt: real -> real): (r: real)
    requires |s| > 0
    ensures 0.0 <= r
    ensures 0.0 <= Mean(s) && 0.0 <= sqrt(Variance(s)) ==> r <= 100.0
  {
    var mean := Mean(s);
    if mean == 0.0 then 0.0
    else
      var sd := sqrt(Variance(s));
      assert 0.0 < mean && 0.0 <= sd ==> 0.0 <= sd / mean;
      Max(0.0, 100.0 - sd / mean * 100.0)
  }

  lemma {:induction false} SumBounds(s: seq<real>, lo: real, hi: real)
    requires forall i :: 0 <= i < |s| ==> lo <= s[i] <= hi
    ensures |s| as real * lo <= Sum(s) <= |s| as real * hi
  {
    if s != [] {
      var init := s[..|s| - 1];
      assert forall i :: 0 <= i < |init| ==> init[i] == s[i];
      SumBounds(init, lo, hi);
      var last := s[|s| - 1];
      assert lo <= last <= hi;
      assert Sum(s) == Sum(init) + last;
      assert |s| as real == |init| as real + 1.0;
      assert (|init| as real + 1.0) * lo == |init| as real * lo + lo;
      assert (|init| as real + 1.0) * hi == |init| as real * hi + hi;
    }
  }

  /** On any non-empty run `minFPS <= averageFPS <= maxFPS`. */
  lemma MeanBetweenExtremes(s: seq<real>)
    requires |s| > 0
    ensures MinOf(s) <= Mean(s) <= MaxOf(s)
  {
    MeanBounds(s, MinOf(s), MaxOf(s));
  }

  /** A mean lies within any bounds of the values. */
  lemma MeanBounds(s: seq<real>, lo: real, hi: real)
    requires |s| > 0
    requires forall i :: 0 <= i < |s| ==> lo <= s[i] <= hi
    ensures lo <= Mean(s) <= hi
  {
    SumBounds(s, lo, hi);
    DivBounds(Sum(s), |s| as real, lo, hi);
  }

  lemma DivBounds(x: real, n: real, lo: real, hi: real)
    requires 0.0 < n && n * lo <= x <= n * hi
    ensures lo <= x / n <= hi
  {
    assert x / n * n == x;
  }

  /** The mean of non-negative frame rates is non-negative. */
  lemma MeanNonNegative(s: seq<real>)
    requires |s| > 0
    requires forall i :: 0 <= i < |s| ==> 0.0 <= s[i]
    ensures 0.0 <= Mean(s)
  {
    MeanBetweenExtremes(s);
  }

  // ---------------------------------------------------------------------------
  // Sub-scores and the weighted score (calculateScore, main.js:532-592)
  // ---------------------------------------------------------------------------

  /** Score for the ratio of the mean frame rate to the target frame rate. */
  function AverageScore(ratio: real): (r: real)
    ensures 0.0 <= ratio ==> 0.0 <= r <= 100.0
    ensures r == 100.0 <==> ratio >= 0.9
    ensures 0.7 <= ratio ==> 90.0 <= r
  {
    if ratio >= 0.9 then 100.0
    else if ratio >= 0.7 then 90.0 + (ratio - 0.7) * 50.0
    else if ratio >= 0.5 then 75.0 + (ratio - 0.5) * 75.0
    else if ratio >= 0.3 then 50.0 + (ratio - 0.3) * 125.0
    else ratio * 166.67
  }

  /** Score for the ratio of the lowest frame rate to the target frame rate. */
  function MinimumScore(ratio: real): (r: real)
    ensures 0.0 <= ratio ==> 0.0 <= r <= 100.0
    ensures r == 100.0 <==> ratio >= 0.7
    ensures 0.5 <= ratio ==> 90.0 <= r
  {
    if ratio >= 0.7 then 100.0
    else if ratio >= 0.5 then 90.0 + (ratio - 0.5) * 50.0
    else if ratio >= 0.3 then 70.0 + (ratio - 0.3) * 100.0
    else ratio * 233.33
  }

  /** Score for the stability percentage. */
  function StabilityScore(stability: real): (r: real)
    ensures 0.0 <= stability <= 100.0 ==> 0.0 <= r <= 100.0
    ensures r == 100.0 <==> stability >= 85.0
    ensures 70.0 <= stability ==> 90.0 <= r
  {
    if stability >= 85.0 then 100.0
    else if stability >= 70.0 then 90.0 + (stability - 70.0) * (10.0 / 15.0)
    else if stability >= 50.0 then 75.0 + (stability - 50.0) * (15.0 / 20.0)
    else stability
  }

  /** Score for the completion time in milliseconds: full marks up to the fast
      reference, then falling through the standard and slow bands to a floor of 40. */
  function TimeScore(totalTime: real): (r: real)
    ensures totalTime <= FastTime ==> r == 100.0
    ensures FastTime < totalTime <= StandardTime ==> 80.0 <= r < 100.0
    ensures StandardTime < totalTime <= SlowTime ==> 60.0 <= r < 80.0
    ensures SlowTime < totalTime ==> 40.0 <= r < 60.0
  {
    if totalTime <= FastTime then 100.0
    else if totalTime <= StandardTime then
      var ratio := (StandardTime - totalTime) / (StandardTime - FastTime);
      80.0 + ratio * 20.0
    else if totalTime <= SlowTime then
      var ratio := (SlowTime - totalTime) / (SlowTime - StandardTime);
      60.0 + ratio * 20.0
    else
      var ratio := Min(1.0, (totalTime - SlowTime) / SlowTime);
      Max(40.0, 60.0 - ratio * 20.0)
  }

  /** The weighted sum of the four sub-scores before rounding. */
  function WeightedScore(average: real, minimum: real, stability: real, time: real): (r: real)
    ensures (0.0 <= average <= 100.0 && 0.0 <= minimum <= 100.0 && 0.0 <= stability <= 100.0
             && 0.0 <= time <= 100.0) ==> 0.0 <= r <= 100.0
  {
    average * AverageWeight + minimum * MinimumWeight + stability * StabilityWeight + time * TimeWeight
  }

  /** `calculateScore()`: the rounded weighted score of a finished run. */
  function CalculateScore(averageFPS: real, minFPS: real, stability: real, totalTime: real, targetFPS: real): (r: int)
    requires 0.0 < targetFPS
    ensures 0.0 <= averageFPS && 0.0 <= minFPS && 0.0 <= stability <= 100.0 ==> 0 <= r <= 100
  {
    var averageScore := AverageScore(averageFPS / targetFPS);
    var minScore := MinimumScore(minFPS / targetFPS);
    var stabilityScore := StabilityScore(stability);
    var timeScore := TimeScore(totalTime);
    Round(WeightedScore(averageScore, minScore, stabilityScore, timeScore))
  }

  /** The weights sum to one, so a run that is perfect on all four counts scores 100. */
  lemma WeightsSumToOne()
    ensures AverageWeight + MinimumWeight + StabilityWeight + TimeWeight == 1.0
    ensures WeightedScore(100.0, 100.0, 100.0, 100.0) == 100.0
  {
  }

  /** The completion-time score never rises as the run gets slower. */
  lemma TimeScoreNonIncreasing(t1: real, t2: real)
    requires t1 <= t2
    ensures TimeScore(t2) <= TimeScore(t1)
  {
    if SlowTime < t1 {
      var r1 := Min(1.0, (t1 - SlowTime) / SlowTime);
      var r2 := Min(1.0, (t2 - SlowTime) / SlowTime);
      assert (t1 - SlowTime) / SlowTime <= (t2 - SlowTime) / SlowTime;
      assert r1 <= r2;
    }
  }

  /** 45 s lies half-way through the standard-to-slow band and scores 70. */
  lemma TimeScoreExample()
    ensures TimeScore(45000.0) == 70.0
  {
  }

  /** The average-FPS curve is not monotone as written: its last segment uses the
      rounded slope 166.67, which at ratios just below 0.3 overshoots the value 50
      that the next segment starts from. */
  lemma AverageScoreDipsAtThreeTenths()
    ensures AverageScore(0.299999) > AverageScore(0.3)
  {
  }

  /** The other sub-scores are non-decreasing in their inputs. */
  lemma MinimumScoreMonotone(r1: real, r2: real)
    requires r1 <= r2
    ensures MinimumScore(r1) <= MinimumScore(r2)
  {
  }

  lemma StabilityScoreMonotone(s1: real, s2: real)
    requires s1 <= s2
    ensures StabilityScore(s1) <= StabilityScore(s2)
  {
  }

  // ---------------------------------------------------------------------------
  // Grade and completion-time rating (showResult main.js:665-695, getTimeRating 596-610)
  // ---------------------------------------------------------------------------

  datatype Grade = S | A | B | C | D | E

  /** The grade chain of `showResult`. */
  function GradeOf(score: int): Grade
  {
    if score >= 90 then S
    else if score >= 80 then A
    else if score >= 70 then B
    else if score >= 60 then C
    else if score >= 40 then D
    else E
  }

  /** Each score falls in exactly one grade band. */
  lemma GradeBands(score: int)
    ensures GradeOf(score) == S <==> 90 <= score
    ensures GradeOf(score) == A <==> 80 <= score < 90
    ensures GradeOf(score) == B <==> 70 <= score < 80
    ensures GradeOf(score) == C <==> 60 <= score < 70
    ensures GradeOf(score) == D <==> 40 <= score < 60
    ensures GradeOf(score) == E <==> score < 40
  {
  }

  /** The six completion-time ratings, fastest first. */
  datatype TimeRating = Blazing | Excellent | Good | Passing | Slower | Slow

  /** `getTimeRating()`. */
  function TimeRatingOf(totalTime: real): TimeRating
  {
    if totalTime <= FastTime * 0.9 then Blazing
    else if totalTime <= FastTime then Excellent
    else if totalTime <= StandardTime then Good
    else if totalTime <= SlowTime then Passing
    else if totalTime <= SlowTime * 1.2 then Slower
    else Slow
  }

  /** The ratings partition the time axis into six disjoint, exhaustive bands. */
  lemma TimeRatingBands(t: real)
    ensures TimeRatingOf(t) == Blazing <==> t <= 27000.0
    ensures TimeRatingOf(t) == Excellent <==> 27000.0 < t <= 30000.0
    ensures TimeRatingOf(t) == Good <==> 30000.0 < t <= 40000.0
    ensures TimeRatingOf(t) == Passing <==> 40000.0 < t <= 50000.0
    ensures TimeRatingOf(t) == Slower <==> 50000.0 < t <= 60000.0
    ensures TimeRatingOf(t) == Slow <==> 60000.0 < t
  {
  }

  // ---------------------------------------------------------------------------
  // The monitor object (start / record / stop, main.js:446-528)
  // ---------------------------------------------------------------------------

  class FrameRateMonitor {
    var active: bool
    var records: seq<Sample>
    var startTime: real
    var endTime: real
    var totalTime: real
    var lastRecordTime: real
    var averageFPS: real
    var minFPS: real
    var maxFPS: real
    var stability: real

    /** Every recorded frame rate is non-negative (the displayed FPS is a rounded
        frame count per second). */
    ghost predicate Valid()
      reads this
    {
      forall i :: 0 <= i < |records| ==> 0.0 <= records[i].fps
    }

    /** The monitor after a `stop()` at `now` that took effect: inactive, with
        the statistics of its samples, and `score` the calculated score. */
    ghost predicate Stopped(now: real, targetFPS: real, m: Maths, score: Option<int>)
      reads this
      requires 0.0 < targetFPS
    {
      var fps := FpsValues(records);
      && records != [] && !active && endTime == now && totalTime == now - startTime
      && averageFPS == Mean(fps) && minFPS == MinOf(fps) && maxFPS == MaxOf(fps)
      && stability == Stability(fps, m.sqrt)
      && score == Some(CalculateScore(averageFPS, minFPS, stability, totalTime, targetFPS))
    }

    /** The object literal's initial field values. */
    constructor ()
      ensures Valid() && !active && records == []
      ensures startTime == 0.0 && endTime == 0.0 && totalTime == 0.0 && lastRecordTime == 0.0
      ensures averageFPS == 0.0 && minFPS == 0.0 && maxFPS == 0.0 && stability == 0.0
    {
      active := false;
      records := [];
      startTime, endTime, totalTime, lastRecordTime := 0.0, 0.0, 0.0, 0.0;
      averageFPS, minFPS, maxFPS, stability := 0.0, 0.0, 0.0, 0.0;
    }

    /** `start()`: activates the monitor and empties the sample buffer; `now`
        is the clock reading (performance.now()). */
    method Start(now: real)
      modifies this`active, this`records, this`startTime, this`lastRecordTime
      ensures Valid()
      ensures active && records == [] && startTime == now && lastRecordTime == now
    {
      active := true;
      records := [];
      startTime := now;
      lastRecordTime := startTime;
    }

    /** `record(currentFPS)`: appends one sample when active and at least one
        record interval has passed since the previous sample, else does nothing. */
    method Record(currentFPS: real, now: real)
      requires Valid() && 0.0 <= currentFPS
      modifies this`records, this`lastRecordTime
      ensures Valid()
      ensures if old(active) && now - old(lastRecordTime) >= RecordInterval
              then records == old(records) + [Sample((now - startTime) / 1000.0, currentFPS)] && lastRecordTime == now
              else records == old(records) && lastRecordTime == old(lastRecordTime)
    {
      if !active {
        return;
      }
      if now - lastRecordTime >= RecordInterval {
        records := records + [Sample((now - startTime) / 1000.0, currentFPS)];
        lastRecordTime := now;
      }
    }

    /** `stop()`: a no-op (returning None) when inactive or when nothing was
        recorded; otherwise deactivates the monitor, computes the statistics and
        returns the score that is handed to `showResult`. */
    method Stop(now: real, targetFPS: real, m: Maths) returns (score: Option<int>)
      requires Valid() && 0.0 < targetFPS && SqrtNonNegative(m)
      modifies this`active, this`endTime, this`totalTime, this`averageFPS, this`minFPS, this`maxFPS, this`stability
      ensures Valid()
      ensures old(!active || records == []) ==>
                score == None && active == old(active) && endTime == old(endTime) && totalTime == old(totalTime)
                && averageFPS == old(averageFPS) && minFPS == old(minFPS) && maxFPS == old(maxFPS)
                && stability == old(stability)
      ensures old(active && records != []) ==> Stopped(now, targetFPS, m, score)
      ensures score.Some? ==>
                && 0 <= score.value <= 100
                && minFPS <= averageFPS <= maxFPS
                && 0.0 <= stability <= 100.0
    {
      if !active || |records| == 0 {
        return None;
      }
      active := false;
      endTime := now;
      totalTime := endTime - startTime;
      var fpsValues := FpsValues(records);
      averageFPS := Mean(fpsValues);
      minFPS := MinOf(fpsValues);
      maxFPS := MaxOf(fpsValues);
      stability := Stability(fpsValues, m.sqrt);
      assert forall i :: 0 <= i < |fpsValues| ==> 0.0 <= fpsValues[i];
      MeanBetweenExtremes(fpsValues);
      assert 0.0 <= minFPS <= averageFPS;
      assert 0.0 <= m.sqrt(Variance(fpsValues));
      assert 0.0 <= stability <= 100.0;
      var s := CalculateScore(averageFPS, minFPS, stability, totalTime, targetFPS);
      score := Some(s);
    }

    /** The monitor after its part of a frame at `now`: the sample `record(currentFPS)`
        takes, then, when the frame `finished` the run and the monitor was active
        with samples, the `Stopped` state with `score`; otherwise no score, and
        neither `active` nor any statistic changed. */
    twostate predicate Tracked(currentFPS: real, now: real, finished: bool, targetFPS: real, m: Maths,
                               new score: Option<int>)
      reads this
      requires 0.0 < targetFPS
    {
      && startTime == old(startTime)
      && (if old(active) && now - old(lastRecordTime) >= RecordInterval
          then records == old(records) + [Sample((now - startTime) / 1000.0, currentFPS)] && lastRecordTime == now
          else records == old(records) && lastRecordTime == old(lastRecordTime))
      && (if finished && old(active) && records != []
          then Stopped(now, targetFPS, m, score)
          else score == None && active == old(active) && endTime == old(endTime) && totalTime == old(totalTime)
               && averageFPS == old(averageFPS) && minFPS == old(minFPS) && maxFPS == old(maxFPS)
               && stability == old(stability))
    }

    /** The monitor's part of a frame: `record(currentFPS)`, then `stop()` when
        the frame has finished the run. */
    method Track(currentFPS: real, now: real, finished: bool, targetFPS: real, m: Maths) returns (score: Option<int>)
      requires Valid() && 0.0 <= currentFPS && 0.0 < targetFPS && SqrtNonNegative(m)
      modifies this`records, this`lastRecordTime, this`active, this`endTime, this`totalTime
      modifies this`averageFPS, this`minFPS, this`maxFPS, this`stability
      ensures Valid() && Tracked(currentFPS, now, finished, targetFPS, m, score)
      ensures score.Some? ==> 0 <= score.value <= 100
    {
      Record(currentFPS, now);
      if finished {
        score := Stop(now, targetFPS, m);
      } else {
        score := None;
      }
    }
  }
}
