/** The step function from average latency to the capture rate of the video stream component. */
module RateController {
  import opened LatencyStats

  const LowFps: int := 15
  const MediumFps: int := 20
  const FullFps: int := 30
  /** Above this average (milliseconds) the rate drops to `LowFps`. */
  const HighLatencyMs: real := 100.0
  /** Above this average and up to `HighLatencyMs` the rate is `MediumFps`. */
  const ModerateLatencyMs: real := 50.0

  /** One of the three rates the component ever uses. */
  predicate IsRate(fps: int)
  {
    fps == LowFps || fps == MediumFps || fps == FullFps
  }

  /** The rate decided for an average latency: strict `>` at both thresholds. */
  function FpsFor(avgLatency: real): (fps: int)
    ensures IsRate(fps)
    ensures fps == LowFps <==> avgLatency > HighLatencyMs
    ensures fps == MediumFps <==> ModerateLatencyMs < avgLatency <= HighLatencyMs
    ensures fps == FullFps <==> avgLatency <= ModerateLatencyMs
  {
    if avgLatency > HighLatencyMs then LowFps
    else if avgLatency > ModerateLatencyMs then MediumFps
    else FullFps
  }

  /** A higher average latency never yields a higher rate. */
  lemma FpsMonotone(a: real, b: real)
    requires a <= b
    ensures FpsFor(b) <= FpsFor(a)
  {
  }

  /** The boundary values fall on the lower-latency side of each threshold. */
  lemma FpsBoundaries()
    ensures FpsFor(100.0) == MediumFps && FpsFor(50.0) == FullFps
    ensures FpsFor(150.0) == LowFps && FpsFor(75.0) == MediumFps && FpsFor(10.0) == FullFps
  {
  }

  /**
   * The rate after each received annotation, when `samples` are the latencies in arrival
   * order: decision k uses the mean of the first k + 1 samples.
   */
  function FpsHistory(samples: seq<real>): (h: seq<int>)
    ensures |h| == |samples|
    ensures forall k :: 0 <= k < |h| ==> h[k] == FpsFor(Mean(samples[..k + 1]))
  {
    if samples == [] then []
    else
      var rest := FpsHistory(samples[..|samples| - 1]);
      assert forall k {:trigger rest[k]} :: 0 <= k < |rest| ==> samples[..|samples| - 1][..k + 1] == samples[..k + 1];
      assert samples[..|samples|] == samples;
      rest + [FpsFor(Mean(samples))]
  }

  /**
   * Five round trips of 120, 130, 110, 90 and 40 ms give the rates 15, 15, 15, 15, 20: the
   * decision follows the running mean (98 ms at the end), not the last sample (40 ms, which
   * alone would give 30).
   */
  lemma AverageNotLastSample()
    ensures FpsHistory([120.0, 130.0, 110.0, 90.0, 40.0]) == [15, 15, 15, 15, 20]
    ensures FpsFor(40.0) == FullFps
  {
    var s := [120.0, 130.0, 110.0, 90.0, 40.0];
    assert s[..1] == [120.0] && s[..2] == [120.0, 130.0] && s[..3] == [120.0, 130.0, 110.0];
    assert s[..4] == [120.0, 130.0, 110.0, 90.0] && s[..5] == s;
    assert Sum([120.0]) == 120.0 by { assert [120.0][..0] == []; }
    assert Sum([120.0, 130.0]) == 250.0 by { assert [120.0, 130.0][..1] == [120.0]; }
    assert Sum(s[..3]) == 360.0 by { assert s[..3][..2] == [120.0, 130.0]; }
    assert Sum(s[..4]) == 450.0 by { assert s[..4][..3] == s[..3]; }
    assert Sum(s) == 490.0 by { assert s[..4] == s[..|s| - 1]; }
    var h := FpsHistory(s);
    assert h[0] == 15 && h[1] == 15 && h[2] == 15;
    assert h[3] == 15 && h[4] == 20;
  }

  /** When every sample exceeds the high threshold the rate is low; when none exceeds the moderate one, full. */
  lemma FpsFromUniformSamples(samples: seq<real>)
    requires samples != []
    ensures (forall i :: 0 <= i < |samples| ==> samples[i] > HighLatencyMs) ==> FpsFor(Mean(samples)) == LowFps
    ensures (forall i :: 0 <= i < |samples| ==> samples[i] <= ModerateLatencyMs) ==> FpsFor(Mean(samples)) == FullFps
  {
    if forall i :: 0 <= i < |samples| ==> samples[i] > HighLatencyMs {
      MeanAbove(samples, HighLatencyMs);
    }
    if forall i :: 0 <= i < |samples| ==> samples[i] <= ModerateLatencyMs {
      MeanAtMost(samples, ModerateLatencyMs);
    }
  }
}
