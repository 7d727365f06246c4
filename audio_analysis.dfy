/** The audio analysis helpers of the web app's server side: waveform peaks,
    energy-window beat detection with a 120 bpm fallback grid, tempo, mean
    energy, a 12-bucket chroma fold and the sliding-window segment scorer.
    Samples are decoded PCM values, modelled as reals. */
module AudioAnalysis {
  import opened Common
  import opened SegmentScorer

  // -----------------------------------------------------------------------
  // Waveform

  const MaxWaveformBins: int := 720
  const WaveformBinsPerSecond: real := 12.0

  /** The number of waveform bins requested for a track: twelve per second,
      rounded up, and never more than 720. */
  function WaveformBinCount(duration: real): (bins: int)
    ensures bins <= MaxWaveformBins
    ensures bins < MaxWaveformBins ==> (bins - 1) as real < duration * WaveformBinsPerSecond <= bins as real
    ensures bins == MaxWaveformBins ==> duration * WaveformBinsPerSecond > (MaxWaveformBins - 1) as real
    ensures duration > 0.0 ==> bins >= 1
  {
    var wanted := Ceil(duration * WaveformBinsPerSecond);
    if wanted < MaxWaveformBins then wanted else MaxWaveformBins
  }

  /** The largest magnitude in `s`, or 0 when `s` is empty. */
  function PeakAbs(s: seq<real>): real
  {
    if s == [] then 0.0 else Max(PeakAbs(s[..|s| - 1]), Abs(s[|s| - 1]))
  }

  /** `PeakAbs` is a maximum: it bounds every magnitude and is one of them
      (or 0 for the empty sequence). */
  lemma {:induction false} PeakAbsIsMaximum(s: seq<real>)
    ensures PeakAbs(s) >= 0.0
    ensures forall j :: 0 <= j < |s| ==> Abs(s[j]) <= PeakAbs(s)
    ensures PeakAbs(s) == 0.0 || exists j :: 0 <= j < |s| && PeakAbs(s) == Abs(s[j])
  {
    if s != [] {
      var n := |s| - 1;
      PeakAbsIsMaximum(s[..n]);
      assert forall j :: 0 <= j < n ==> s[..n][j] == s[j];
    }
  }

  /** `max(1, floor(total / bins))` samples per bin. */
  function BinSize(total: nat, bins: int): nat
  {
    if bins <= 0 then 1 else if total / bins < 1 then 1 else total / bins
  }

  function BinStart(total: nat, bins: int, i: nat): nat { i * BinSize(total, bins) }

  function BinEnd(total: nat, bins: int, i: nat): nat
  {
    if total < BinStart(total, bins, i) + BinSize(total, bins) then total
    else BinStart(total, bins, i) + BinSize(total, bins)
  }

  /** The peak of bin `i`; a bin that starts past the last sample is 0. */
  function BinPeak(samples: seq<real>, bins: int, i: nat): real
  {
    var lo, hi := BinStart(|samples|, bins, i), BinEnd(|samples|, bins, i);
    if lo < hi then PeakAbs(samples[lo..hi]) else 0.0
  }

  /** The inner loop of `buildWaveform`: the largest magnitude among
      `samples[lo..hi]`. */
  method ScanPeak(samples: seq<real>, lo: nat, hi: nat) returns (peak: real)
    requires lo <= hi <= |samples|
    ensures peak == PeakAbs(samples[lo..hi])
  {
    peak := 0.0;
    for j := lo to hi
      invariant peak == PeakAbs(samples[lo..j])
    {
      assert samples[lo..j + 1][..j - lo] == samples[lo..j];
      var value := Abs(samples[j]);
      if value > peak {
        peak := value;
      }
    }
  }

  /** `buildWaveform`: `bins` values, the i-th being the largest magnitude in
      its bin of samples, clamped to 1. */
  method BuildWaveform(samples: seq<real>, bins: int) returns (waveform: seq<real>)
    ensures |waveform| == if bins > 0 then bins else 0
    ensures forall i :: 0 <= i < |waveform| ==> waveform[i] == Min(1.0, BinPeak(samples, bins, i))
    ensures forall i :: 0 <= i < |waveform| ==> 0.0 <= waveform[i] <= 1.0
  {
    var total := |samples|;
    var binSize := BinSize(total, bins);
    waveform := [];
    var i := 0;
    while i < bins
      invariant 0 <= i <= (if bins > 0 then bins else 0)
      invariant |waveform| == i
      invariant forall k :: 0 <= k < i ==> waveform[k] == Min(1.0, BinPeak(samples, bins, k))
      invariant forall k :: 0 <= k < i ==> 0.0 <= waveform[k] <= 1.0
    {
      var start := i * binSize;
      var end := if total < start + binSize then total else start + binSize;
      assert start == BinStart(total, bins, i) && end == BinEnd(total, bins, i);
      var peak := 0.0;
      if start < end {
        peak := ScanPeak(samples, start, end);
        PeakAbsIsMaximum(samples[start..end]);
      }
      assert peak == BinPeak(samples, bins, i) && peak >= 0.0;
      waveform := waveform + [Min(1.0, peak)];
      i := i + 1;
    }
  }

  // -----------------------------------------------------------------------
  // Beats

  /** Beats are registered at most this often, in seconds. */
  const MinBeatGap: real := 0.3
  /** The windowed mean square that a beat must exceed: an RMS of 0.2. */
  const LoudMeanSquare: real := 0.04
  /** The spacing of the fallback grid: 120 beats per minute. */
  const FallbackSpacing: real := 0.5

  function SumSquares(s: seq<real>): real
  {
    if s == [] then 0.0 else SumSquares(s[..|s| - 1]) + s[|s| - 1] * s[|s| - 1]
  }

  /** Detection reads windows of half a second of samples. */
  function WindowSize(sampleRate: nat): nat { sampleRate / 2 }

  function WindowEnd(total: nat, windowSize: nat, offset: nat): nat
  {
    if total < offset + windowSize then total else offset + windowSize
  }

  /** The `k`-th detection window (starting at sample `k` times the window
      size, before the end of the samples) has an RMS energy above 0.2. */
  ghost predicate LoudWindow(samples: seq<real>, sampleRate: nat, k: nat)
    requires sampleRate >= 2
  {
    var lo := k * WindowSize(sampleRate);
    lo < |samples| &&
    var hi := WindowEnd(|samples|, WindowSize(sampleRate), lo);
    SumSquares(samples[lo..hi]) / (hi - lo) as real > LoudMeanSquare
  }

  /** The start time of the `k`-th detection window, in seconds. */
  function WindowTime(sampleRate: nat, k: nat): real
    requires sampleRate > 0
  {
    (k * WindowSize(sampleRate)) as real / sampleRate as real
  }

  lemma MulMonotone(a: nat, b: nat, c: nat)
    requires a <= b
    ensures a * c <= b * c
  {
  }

  lemma WindowTimeMonotone(sampleRate: nat, k1: nat, k2: nat)
    requires sampleRate >= 2 && k1 < k2
    ensures WindowTime(sampleRate, k1) < WindowTime(sampleRate, k2)
  {
    var ws := WindowSize(sampleRate);
    MulMonotone(k1 + 1, k2, ws);
    assert k1 * ws < k2 * ws;
    var r := sampleRate as real;
    assert WindowTime(sampleRate, k2) - WindowTime(sampleRate, k1) == (k2 * ws - k1 * ws) as real / r;
  }

  /** The latest value of `s` that is earlier than `t`, or 0 when there is
      none: the `lastPeak` in effect when the window at time `t` is read. */
  function PrevBeat(s: seq<real>, t: real): real
  {
    if s == [] then 0.0
    else if s[|s| - 1] < t then Max(s[|s| - 1], PrevBeat(s[..|s| - 1], t))
    else PrevBeat(s[..|s| - 1], t)
  }

  ghost predicate Increasing(s: seq<real>)
  {
    forall i, j :: 0 <= i < j < |s| ==> s[i] < s[j]
  }

  /** A loud window past the first `n` is a beat exactly when it starts more
      than 0.3 s after the previous beat (or after time 0). */
  ghost predicate BeatsExactly(samples: seq<real>, sampleRate: nat, beats: seq<real>, n: nat)
    requires sampleRate >= 2
  {
    forall k: nat :: k < n && LoudWindow(samples, sampleRate, k) ==>
      (WindowTime(sampleRate, k) in beats <==>
       WindowTime(sampleRate, k) - PrevBeat(beats, WindowTime(sampleRate, k)) > MinBeatGap)
  }

  /** What detection guarantees of its beats: they increase, each is the
      start time of a loud window, and a loud window is a beat exactly when it
      starts more than 0.3 s after the previous beat (or after time 0). */
  ghost predicate IsDetection(samples: seq<real>, sampleRate: nat, beats: seq<real>)
    requires sampleRate >= 2
  {
    && Increasing(beats)
    && (forall i :: 0 <= i < |beats| ==>
          exists k: nat :: LoudWindow(samples, sampleRate, k) && beats[i] == WindowTime(sampleRate, k))
    && (forall k: nat :: LoudWindow(samples, sampleRate, k) ==>
          (WindowTime(sampleRate, k) in beats <==>
           WindowTime(sampleRate, k) - PrevBeat(beats, WindowTime(sampleRate, k)) > MinBeatGap))
  }

  /** No loud window starts later than 0.3 s into the track. */
  ghost predicate Quiet(samples: seq<real>, sampleRate: nat)
    requires sampleRate >= 2
  {
    forall k: nat :: LoudWindow(samples, sampleRate, k) ==> WindowTime(sampleRate, k) <= MinBeatGap
  }

  lemma PrevBeatAppendLater(s: seq<real>, x: real, t: real)
    requires x >= t
    ensures PrevBeat(s + [x], t) == PrevBeat(s, t)
  {
    assert (s + [x])[..|s|] == s;
  }

  lemma {:induction false} PrevBeatAtMost(s: seq<real>, t: real, m: real)
    requires m >= 0.0 && forall i :: 0 <= i < |s| ==> s[i] <= m
    ensures PrevBeat(s, t) <= m
  {
    if s != [] {
      PrevBeatAtMost(s[..|s| - 1], t, m);
    }
  }

  /** For increasing non-negative beats all earlier than `t`, the previous
      beat of `t` is the last one. */
  lemma PrevBeatIsLast(s: seq<real>, t: real)
    requires s != [] && Increasing(s) && s[0] >= 0.0 && s[|s| - 1] < t
    ensures PrevBeat(s, t) == s[|s| - 1]
  {
    PrevBeatAtMost(s[..|s| - 1], t, s[|s| - 1]);
  }

  /** Values not earlier than `t` at the end of `s` do not matter. */
  lemma {:induction false} PrevBeatPrefix(s: seq<real>, i: nat, t: real)
    requires i <= |s| && forall j :: i <= j < |s| ==> s[j] >= t
    ensures PrevBeat(s, t) == PrevBeat(s[..i], t)
  {
    if i < |s| {
      var p := s[..|s| - 1];
      PrevBeatPrefix(p, i, t);
      assert p[..i] == s[..i];
    } else {
      assert s[..i] == s;
    }
  }

  /** In increasing non-negative beats, the previous beat of the `i`-th is
      the one before it, or 0 for the first. */
  lemma PrevBeatOfBeat(beats: seq<real>, i: nat)
    requires i < |beats| && Increasing(beats) && beats[0] >= 0.0
    ensures PrevBeat(beats, beats[i]) == if i == 0 then 0.0 else beats[i - 1]
  {
    PrevBeatPrefix(beats, i, beats[i]);
    if i > 0 {
      PrevBeatIsLast(beats[..i], beats[i]);
    }
  }

  /** Times of detection windows are never negative. */
  lemma WindowTimeNonNegative(sampleRate: nat, k: nat)
    requires sampleRate >= 2
    ensures WindowTime(sampleRate, k) >= 0.0
  {
  }

  /** The `i`-th detected beat starts more than 0.3 s after the one before
      it, or after time 0 for the first. */
  lemma DetectionGap(samples: seq<real>, sampleRate: nat, beats: seq<real>, i: nat)
    requires sampleRate >= 2 && IsDetection(samples, sampleRate, beats) && i < |beats|
    ensures beats[i] - (if i == 0 then 0.0 else beats[i - 1]) > MinBeatGap
  {
    var b, b0 := beats[i], beats[0];
    var k: nat :| LoudWindow(samples, sampleRate, k) && b == WindowTime(sampleRate, k);
    var k0: nat :| LoudWindow(samples, sampleRate, k0) && beats[0] == WindowTime(sampleRate, k0);
    WindowTimeNonNegative(sampleRate, k0);
    PrevBeatOfBeat(beats, i);
  }

  /** The spacing that detection yields: the first beat is more than 0.3 s
      after time 0 and each later beat more than 0.3 s after the one before. */
  lemma DetectionSpacing(samples: seq<real>, sampleRate: nat, beats: seq<real>)
    requires sampleRate >= 2 && IsDetection(samples, sampleRate, beats)
    ensures |beats| > 0 ==> beats[0] > MinBeatGap
    ensures forall i :: 0 < i < |beats| ==> beats[i] - beats[i - 1] > MinBeatGap
  {
    if |beats| > 0 {
      DetectionGap(samples, sampleRate, beats, 0);
    }
    forall i | 0 < i < |beats| ensures beats[i] - beats[i - 1] > MinBeatGap {
      DetectionGap(samples, sampleRate, beats, i);
    }
  }

  /** One window of the detection loop keeps the loop's invariant. */
  lemma DetectStep(samples: seq<real>, sampleRate: nat, beats: seq<real>, k: nat, next: seq<real>)
    requires sampleRate >= 2
    requires Increasing(beats) && (beats != [] ==> beats[0] >= 0.0)
    requires forall i :: 0 <= i < |beats| ==> beats[i] < WindowTime(sampleRate, k)
    requires BeatsExactly(samples, sampleRate, beats, k)
    requires var lastPeak := if beats == [] then 0.0 else beats[|beats| - 1];
             next == if LoudWindow(samples, sampleRate, k) && WindowTime(sampleRate, k) - lastPeak > MinBeatGap
                     then beats + [WindowTime(sampleRate, k)] else beats
    ensures BeatsExactly(samples, sampleRate, next, k + 1)
  {
    var time := WindowTime(sampleRate, k);
    assert PrevBeat(beats, time) == if beats == [] then 0.0 else beats[|beats| - 1] by {
      if beats != [] {
        PrevBeatIsLast(beats, time);
      }
    }
    if next != beats {
      PrevBeatAppendLater(beats, time, time);
    }
    forall j: nat | j < k + 1 && LoudWindow(samples, sampleRate, j)
      ensures WindowTime(sampleRate, j) in next <==>
              WindowTime(sampleRate, j) - PrevBeat(next, WindowTime(sampleRate, j)) > MinBeatGap
    {
      if j < k {
        WindowTimeMonotone(sampleRate, j, k);
        if next != beats {
          PrevBeatAppendLater(beats, time, WindowTime(sampleRate, j));
        }
      }
    }
  }

  /** The inner loop of `detectBeats`: the sum of squares of one window. */
  method WindowSumSquares(samples: seq<real>, lo: nat, hi: nat) returns (sum: real)
    requires lo <= hi <= |samples|
    ensures sum == SumSquares(samples[lo..hi])
  {
    sum := 0.0;
    for i := lo to hi
      invariant sum == SumSquares(samples[lo..i])
    {
      assert samples[lo..i + 1][..i - lo] == samples[lo..i];
      sum := sum + samples[i] * samples[i];
    }
  }

  /** The state of the detection loop after reading the first `k` windows:
      increasing non-negative beats, all before window `k`, each the time of
      the loud window recorded for it in `windows`, and chosen as
      `BeatsExactly` says. */
  ghost predicate DetectInv(samples: seq<real>, sampleRate: nat, beats: seq<real>, windows: seq<nat>, k: nat)
    requires sampleRate >= 2
  {
    && Increasing(beats) && (beats != [] ==> beats[0] >= 0.0)
    && (forall i :: 0 <= i < |beats| ==> beats[i] < WindowTime(sampleRate, k))
    && |windows| == |beats|
    && (forall i :: 0 <= i < |beats| ==>
          LoudWindow(samples, sampleRate, windows[i]) && beats[i] == WindowTime(sampleRate, windows[i]))
    && BeatsExactly(samples, sampleRate, beats, k)
  }

  /** Reading window `k` keeps the loop's state. */
  lemma DetectAdvance(samples: seq<real>, sampleRate: nat, beats: seq<real>, windows: seq<nat>, k: nat,
                      next: seq<real>, nextWindows: seq<nat>)
    requires sampleRate >= 2 && DetectInv(samples, sampleRate, beats, windows, k)
    requires var lastPeak := if beats == [] then 0.0 else beats[|beats| - 1];
             if LoudWindow(samples, sampleRate, k) && WindowTime(sampleRate, k) - lastPeak > MinBeatGap
             then next == beats + [WindowTime(sampleRate, k)] && nextWindows == windows + [k]
             else next == beats && nextWindows == windows
    ensures DetectInv(samples, sampleRate, next, nextWindows, k + 1)
  {
    DetectStep(samples, sampleRate, beats, k, next);
    WindowTimeMonotone(sampleRate, k, k + 1);
    forall i | 0 <= i < |next| ensures next[i] < WindowTime(sampleRate, k + 1) {
      if i < |beats| {
        assert next[i] == beats[i];
      }
    }
    if next != beats {
      WindowTimeNonNegative(sampleRate, k);
    }
  }

  /** Once every window has been read, the loop's state is the detection
      property, and the beats are empty exactly for a quiet track. */
  lemma DetectDone(samples: seq<real>, sampleRate: nat, beats: seq<real>, windows: seq<nat>, k: nat)
    requires sampleRate >= 2 && |samples| <= k * WindowSize(sampleRate)
    requires DetectInv(samples, sampleRate, beats, windows, k)
    ensures IsDetection(samples, sampleRate, beats)
    ensures beats == [] <==> Quiet(samples, sampleRate)
  {
    forall j: nat | LoudWindow(samples, sampleRate, j) ensures j < k {
      if j >= k {
        MulMonotone(k, j, WindowSize(sampleRate));
      }
    }
    forall i | 0 <= i < |beats|
      ensures exists j: nat :: LoudWindow(samples, sampleRate, j) && beats[i] == WindowTime(sampleRate, j)
    {
      var j := windows[i];
      assert LoudWindow(samples, sampleRate, j) && beats[i] == WindowTime(sampleRate, j);
    }
    if beats != [] {
      var b := beats[0];
      assert LoudWindow(samples, sampleRate, windows[0]) && b == WindowTime(sampleRate, windows[0]);
      PrevBeatPrefix(beats, 0, b);
      assert WindowTime(sampleRate, windows[0]) > MinBeatGap;
    }
  }

  /** The detection loop of `detectBeats`: windows of half a second of
      samples, read in order; the window count needs at least two samples per
      second to advance. */
  method DetectEnergyBeats(samples: seq<real>, sampleRate: nat) returns (beats: seq<real>)
    requires sampleRate >= 2
    ensures IsDetection(samples, sampleRate, beats)
    ensures beats == [] <==> Quiet(samples, sampleRate)
  {
    var windowSize := sampleRate / 2;
    beats := [];
    var lastPeak := 0.0;
    var offset: nat := 0;
    ghost var k: nat := 0;
    ghost var windows: seq<nat> := [];
    while offset < |samples|
      invariant offset == k * windowSize
      invariant lastPeak == if beats == [] then 0.0 else beats[|beats| - 1]
      invariant DetectInv(samples, sampleRate, beats, windows, k)
      decreases |samples| - offset
    {
      var end := if |samples| < offset + windowSize then |samples| else offset + windowSize;
      var sum := WindowSumSquares(samples, offset, end);
      var time := offset as real / sampleRate as real;
      assert time == WindowTime(sampleRate, k);
      var loud := sum / (end - offset) as real > LoudMeanSquare;
      assert loud <==> LoudWindow(samples, sampleRate, k);
      ghost var before, beforeWindows := beats, windows;
      if loud && time - lastPeak > MinBeatGap {
        beats := beats + [time];
        windows := windows + [k];
        lastPeak := time;
      }
      DetectAdvance(samples, sampleRate, before, beforeWindows, k, beats, windows);
      offset := offset + windowSize;
      k := k + 1;
    }
    DetectDone(samples, sampleRate, beats, windows, k);
  }

  /** `detectBeats`: the detected beats, or, for a track with no loud window
      past 0.3 s, the 120 bpm grid over its duration. */
  method DetectBeats(samples: seq<real>, sampleRate: nat, duration: real) returns (beats: seq<real>)
    requires sampleRate >= 2
    ensures !Quiet(samples, sampleRate) ==> beats != [] && IsDetection(samples, sampleRate, beats)
    ensures Quiet(samples, sampleRate) ==> beats == FallbackGrid(duration)
  {
    beats := DetectEnergyBeats(samples, sampleRate);
    if beats == [] {
      var t := 0.0;
      var n: nat := 0;
      while t < duration
        invariant t == FallbackSpacing * n as real
        invariant n <= GridCount(duration)
        invariant beats == seq(n, j => FallbackSpacing * j as real)
        decreases GridCount(duration) - n
      {
        beats := beats + [t];
        t := t + FallbackSpacing;
        n := n + 1;
      }
      assert n == GridCount(duration);
    }
  }

  function GridCount(duration: real): nat
  {
    if duration <= 0.0 then 0 else Ceil(duration * 2.0)
  }

  /** The fallback beat grid: 0, 0.5, 1.0, ... strictly below the duration. */
  function FallbackGrid(duration: real): (grid: seq<real>)
    ensures |grid| == GridCount(duration)
  {
    seq(GridCount(duration), k => FallbackSpacing * k as real)
  }

  /** The grid is every multiple of 0.5 below the duration: each point lies
      below it and the next multiple does not. */
  lemma FallbackGridFacts(duration: real)
    ensures forall k :: 0 <= k < |FallbackGrid(duration)| ==> FallbackGrid(duration)[k] < duration
    ensures FallbackSpacing * |FallbackGrid(duration)| as real >= duration
    ensures duration > 0.0 ==> |FallbackGrid(duration)| >= 1 && FallbackGrid(duration)[0] == 0.0
  {
  }

  // -----------------------------------------------------------------------
  // Tempo

  const DefaultTempo: int := 120
  const MinInterval: real := 0.01

  /** The tempo the source computes: 120 for fewer than two beats, otherwise
      60 over the mean interval between beats (at least 0.01 s), rounded. The
      mean interval is the span from first to last beat over the count of
      intervals. */
  function TempoOf(beats: seq<real>): (tempo: int)
    ensures 0 <= tempo <= 6000
    ensures |beats| < 2 ==> tempo == DefaultTempo
  {
    if |beats| < 2 then DefaultTempo
    else
      var mean := (beats[|beats| - 1] - beats[0]) / (|beats| - 1) as real;
      var interval := Max(mean, MinInterval);
      DivideCompare(60.0, interval, 6000.0);
      Round(60.0 / interval)
  }

  /** `estimateTempo`: collect the intervals, average them and convert. */
  method EstimateTempo(beats: seq<real>) returns (tempo: int)
    ensures tempo == TempoOf(beats)
  {
    if |beats| < 2 {
      return DefaultTempo;
    }
    var intervals: seq<real> := [];
    for i := 1 to |beats|
      invariant |intervals| == i - 1
      invariant Sum(intervals) == beats[i - 1] - beats[0]
    {
      assert (intervals + [beats[i] - beats[i - 1]])[..|intervals|] == intervals;
      intervals := intervals + [beats[i] - beats[i - 1]];
    }
    var average := Sum(intervals) / |intervals| as real;
    tempo := Round(60.0 / Max(average, MinInterval));
  }

  /** The 120 bpm fallback grid measures as 120 bpm. */
  lemma FallbackGridTempo(duration: real)
    ensures TempoOf(FallbackGrid(duration)) == DefaultTempo
  {
    var g := FallbackGrid(duration);
    if |g| >= 2 {
      var n := |g| - 1;
      assert g[n] - g[0] == FallbackSpacing * n as real;
      assert (g[n] - g[0]) / n as real == FallbackSpacing;
    }
  }

  // -----------------------------------------------------------------------
  // Energy

  /** `computeEnergy`: the mean of the waveform, 0 for an empty one. */
  function ComputeEnergy(waveform: seq<real>): (energy: real)
    ensures waveform == [] ==> energy == 0.0
    ensures waveform != [] ==> energy * |waveform| as real == Sum(waveform)
    ensures AllWithin(waveform, 0.0, 1.0) ==> 0.0 <= energy <= 1.0
  {
    if waveform == [] then 0.0
    else
      MeanWithin(waveform, 0.0, 1.0);
      Sum(waveform) / |waveform| as real
  }

  // -----------------------------------------------------------------------
  // Chroma

  const ChromaBins: int := 12

  /** The bucket of sample `i`: the samples are folded into repeating runs of
      12 windows of `window` samples each. */
  function Bucket(i: nat, window: nat): (b: nat)
    requires window > 0
    ensures b < ChromaBins
  {
    (i % (window * ChromaBins)) / window
  }

  /** The summed magnitude of the first `n` samples that fall in bucket `b`. */
  function BucketSum(samples: seq<real>, window: nat, b: int, n: nat): (r: real)
    requires window > 0 && n <= |samples|
    ensures r >= 0.0
  {
    if n == 0 then 0.0
    else BucketSum(samples, window, b, n - 1) + (if Bucket(n - 1, window) == b then Abs(samples[n - 1]) else 0.0)
  }

  /** The twelve bucket sums of a whole track. */
  function ChromaSums(samples: seq<real>, sampleRate: nat): (sums: seq<real>)
    requires sampleRate >= ChromaBins
    ensures |sums| == ChromaBins
    ensures forall b :: 0 <= b < ChromaBins ==> sums[b] == BucketSum(samples, sampleRate / ChromaBins, b, |samples|)
  {
    seq(ChromaBins, b => BucketSum(samples, sampleRate / ChromaBins, b, |samples|))
  }

  /** The largest of a sequence and a floor value. */
  function MaxWith(s: seq<real>, floor: real): (m: real)
    ensures m >= floor
    ensures forall i :: 0 <= i < |s| ==> s[i] <= m
    ensures m == floor || exists i :: 0 <= i < |s| && m == s[i]
  {
    if s == [] then floor else Max(MaxWith(s[..|s| - 1], floor), s[|s| - 1])
  }

  /** Each value over the largest one, or over 1 if every value is smaller:
      `values.map(v => v / Math.max(...values, 1))`. */
  function ScaleByMax(values: seq<real>): (scaled: seq<real>)
    ensures |scaled| == |values|
  {
    var max := MaxWith(values, 1.0);
    seq(|values|, i requires 0 <= i < |values| => values[i] / max)
  }

  /** Scaled non-negative values lie in [0, 1]. */
  lemma ScaleByMaxWithin(values: seq<real>)
    requires AllWithin(values, 0.0, MaxWith(values, 1.0))
    ensures AllWithin(ScaleByMax(values), 0.0, 1.0)
  {
    var max := MaxWith(values, 1.0);
    forall i | 0 <= i < |values| ensures 0.0 <= ScaleByMax(values)[i] <= 1.0 {
      DivideBounds(values[i], max, 0.0, 1.0);
    }
  }

  /** Unless every value is below 1, the largest scaled value is exactly 1. */
  lemma ScaleByMaxPeak(values: seq<real>)
    ensures (exists i :: 0 <= i < |values| && ScaleByMax(values)[i] == 1.0) ||
            forall i :: 0 <= i < |values| ==> values[i] < 1.0
  {
    var max := MaxWith(values, 1.0);
    if i :| 0 <= i < |values| && values[i] >= 1.0 {
      var top := i;
      if max != 1.0 {
        top :| 0 <= top < |values| && max == values[top];
      }
      assert values[top] == max && max > 0.0;
      assert ScaleByMax(values)[top] == values[top] / max;
      DivideSelf(max);
    }
  }

  /** Scaling keeps the order of the values. */
  lemma ScaleByMaxOrder(values: seq<real>, i: int, j: int)
    requires 0 <= i < |values| && 0 <= j < |values| && values[i] <= values[j]
    ensures ScaleByMax(values)[i] <= ScaleByMax(values)[j]
  {
    var max := MaxWith(values, 1.0);
    var q := values[i] / max;
    assert q * max == values[i];
    DivideCompare(values[j], max, q);
  }

  /** The chroma vector of a track. */
  function Chroma(samples: seq<real>, sampleRate: nat): (chroma: seq<real>)
    requires sampleRate >= ChromaBins
    ensures |chroma| == ChromaBins
  {
    ScaleByMax(ChromaSums(samples, sampleRate))
  }

  /** Chroma values lie in [0, 1]; unless every bucket sum is below 1, the
      largest of them is exactly 1; and buckets keep the order of their sums. */
  lemma ChromaFacts(samples: seq<real>, sampleRate: nat)
    requires sampleRate >= ChromaBins
    ensures AllWithin(Chroma(samples, sampleRate), 0.0, 1.0)
    ensures (exists b :: 0 <= b < ChromaBins && Chroma(samples, sampleRate)[b] == 1.0) ||
            forall b :: 0 <= b < ChromaBins ==> ChromaSums(samples, sampleRate)[b] < 1.0
    ensures forall b, c :: 0 <= b < ChromaBins && 0 <= c < ChromaBins ==>
              (ChromaSums(samples, sampleRate)[b] <= ChromaSums(samples, sampleRate)[c] ==>
               Chroma(samples, sampleRate)[b] <= Chroma(samples, sampleRate)[c])
  {
    var sums := ChromaSums(samples, sampleRate);
    ScaleByMaxWithin(sums);
    ScaleByMaxPeak(sums);
    forall b, c | 0 <= b < ChromaBins && 0 <= c < ChromaBins && sums[b] <= sums[c]
      ensures ScaleByMax(sums)[b] <= ScaleByMax(sums)[c]
    {
      ScaleByMaxOrder(sums, b, c);
    }
  }

  /** `estimateChroma`, accumulating the bucket sums in a 12-element array. */
  method EstimateChroma(samples: seq<real>, sampleRate: nat) returns (chroma: seq<real>)
    requires sampleRate >= ChromaBins
    ensures chroma == Chroma(samples, sampleRate)
  {
    var window := sampleRate / ChromaBins;
    var buckets := new real[ChromaBins](_ => 0.0);
    for i := 0 to |samples|
      invariant forall b :: 0 <= b < ChromaBins ==> buckets[b] == BucketSum(samples, window, b, i)
    {
      var bucket := Bucket(i, window);
      buckets[bucket] := buckets[bucket] + Abs(samples[i]);
    }
    var sums := buckets[..];
    assert sums == ChromaSums(samples, sampleRate);
    var max := MaxWith(sums, 1.0);
    chroma := seq(ChromaBins, b requires 0 <= b < ChromaBins => sums[b] / max);
    assert chroma == ScaleByMax(sums);
  }

  // -----------------------------------------------------------------------
  // Segment candidates

  /** At most this many candidates are kept. */
  const MaxSegments: nat := 8
  /** Beat support counts the beats expected every half second. */
  const ExpectedBeatSpacing: real := 0.5

  /** The largest value of `s`, or 0 when all are below 0 or `s` is empty. */
  function Peak(s: seq<real>): real
  {
    if s == [] then 0.0 else Max(Peak(s[..|s| - 1]), s[|s| - 1])
  }

  lemma {:induction false} PeakWithin(s: seq<real>, lo: real, hi: real)
    requires lo <= 0.0 <= hi && AllWithin(s, lo, hi)
    ensures 0.0 <= Peak(s) <= hi
  {
    if s != [] {
      PeakWithin(s[..|s| - 1], lo, hi);
    }
  }

  /** The number of beats in [lo, hi]: `beats.filter(...).length`. */
  function CountWithin(beats: seq<real>, lo: real, hi: real): (n: nat)
    ensures n <= |beats|
  {
    if beats == [] then 0
    else CountWithin(beats[..|beats| - 1], lo, hi) + (if lo <= beats[|beats| - 1] <= hi then 1 else 0)
  }

  function SecondsPerBin(duration: real, bins: nat): real
    requires bins > 0
  {
    duration / bins as real
  }

  /** The window length in bins: the target over the bin length, rounded, at
      least 1. */
  function WindowBins(duration: real, bins: nat, target: real): (w: nat)
    requires bins > 0 && duration > 0.0
    ensures w >= 1
  {
    var r := Round(target / SecondsPerBin(duration, bins));
    if r < 1 then 1 else r
  }

  /** The hop between window starts: a quarter window, at least 1 bin. */
  function Hop(windowBins: nat): (h: nat)
    ensures h >= 1
  {
    if windowBins / 4 < 1 then 1 else windowBins / 4
  }

  /** The candidate for the window starting at bin `startBin`: its mean bin
      value as energy, a pseudo-loudness of -6 − 12·peak dB, and as confidence
      the beats inside the window over the beats expected in a target-length
      window, at most 1. */
  function WindowCandidate(waveform: seq<real>, beats: seq<real>, duration: real, target: real,
                           windowBins: nat, startBin: nat): SegmentCandidate
    requires |waveform| > 0 && duration > 0.0 && target > 0.0
    requires windowBins >= 1 && startBin + windowBins < |waveform|
  {
    var spb := SecondsPerBin(duration, |waveform|);
    var endBin := startBin + windowBins;
    var window := waveform[startBin..endBin];
    var startTime := startBin as real * spb;
    var endTime := Min(duration, endBin as real * spb);
    var support := CountWithin(beats, startTime, endTime) as real / (target / ExpectedBeatSpacing);
    SegmentCandidate(startTime, endTime, Sum(window) / windowBins as real, -6.0 + Peak(window) * -12.0, Min(1.0, support))
  }

  /** The candidates of the windows starting at `startBin`, `startBin` plus
      the hop, and so on, while the window ends before the last bin. */
  function WindowsFrom(waveform: seq<real>, beats: seq<real>, duration: real, target: real, startBin: nat)
    : seq<SegmentCandidate>
    requires |waveform| > 0 && duration > 0.0 && target > 0.0
    decreases |waveform| - startBin
  {
    var wb := WindowBins(duration, |waveform|, target);
    if startBin + wb < |waveform| then
      [WindowCandidate(waveform, beats, duration, target, wb, startBin)] +
      WindowsFrom(waveform, beats, duration, target, startBin + Hop(wb))
    else []
  }

  /** Every window candidate, in the order of their start bins. */
  function Windows(waveform: seq<real>, beats: seq<real>, duration: real, target: real): seq<SegmentCandidate>
    requires |waveform| > 0 && duration > 0.0 && target > 0.0
  {
    WindowsFrom(waveform, beats, duration, target, 0)
  }

  /** The ranking key: energy plus confidence. */
  function SegmentKey(c: SegmentCandidate): real { c.energy + c.confidence }

  /** The eight best candidates by descending key, ties in input order. */
  function TopSegments(candidates: seq<SegmentCandidate>): seq<SegmentCandidate>
  {
    Take(SortDesc(candidates, SegmentKey), MaxSegments)
  }

  /** The inner loop of `scoreSegments`: the sum and the peak of the bins
      from `lo` up to `hi` (or the end of the waveform). */
  method WindowSumPeak(waveform: seq<real>, lo: nat, hi: nat) returns (sum: real, loudPeak: real)
    requires lo <= hi <= |waveform|
    ensures sum == Sum(waveform[lo..hi])
    ensures loudPeak == Peak(waveform[lo..hi])
  {
    sum := 0.0;
    loudPeak := 0.0;
    var i := lo;
    while i < hi && i < |waveform|
      invariant lo <= i <= hi
      invariant sum == Sum(waveform[lo..i])
      invariant loudPeak == Peak(waveform[lo..i])
    {
      assert waveform[lo..i + 1][..i - lo] == waveform[lo..i];
      var value := waveform[i];
      sum := sum + value;
      if value > loudPeak {
        loudPeak := value;
      }
      i := i + 1;
    }
  }

  /** The candidate of the window starting at `startBin`, as the body of the
      loop in `scoreSegments` computes it. */
  method ScoreWindow(waveform: seq<real>, beats: seq<real>, duration: real, target: real,
                     windowBins: nat, startBin: nat) returns (candidate: SegmentCandidate)
    requires |waveform| > 0 && duration > 0.0 && target > 0.0
    requires windowBins >= 1 && startBin + windowBins < |waveform|
    ensures candidate == WindowCandidate(waveform, beats, duration, target, windowBins, startBin)
  {
    var secondsPerBin := duration / |waveform| as real;
    var endBin := startBin + windowBins;
    var sum, loudPeak := WindowSumPeak(waveform, startBin, endBin);
    var startTime := startBin as real * secondsPerBin;
    var endTime := Min(duration, endBin as real * secondsPerBin);
    var beatSupport := CountWithin(beats, startTime, endTime) as real / (target / ExpectedBeatSpacing);
    candidate := SegmentCandidate(startTime, endTime, sum / windowBins as real,
                                  -6.0 + loudPeak * -12.0, Min(1.0, beatSupport));
  }

  /** `scoreSegments` over a non-empty waveform of a track of positive
      duration, for a positive target length: every window's candidate, then
      the eight best of them. So at most eight segments come back, best
      first, each the candidate of one window and lying inside the track
      with a confidence in [0, 1]; for a waveform in [0, 1] each has an
      energy in [0, 1] and a loudness between -18 and -6 dB. */
  method ScoreSegments(waveform: seq<real>, beats: seq<real>, duration: real, target: real)
    returns (segments: seq<SegmentCandidate>)
    requires |waveform| > 0 && duration > 0.0 && target > 0.0
    ensures segments == TopSegments(Windows(waveform, beats, duration, target))
    ensures |segments| <= MaxSegments && SortedDesc(segments, SegmentKey)
    ensures forall c :: c in segments ==> IsWindow(waveform, beats, duration, target, c)
    ensures forall c :: c in segments ==> 0.0 <= c.start < c.end < duration && 0.0 <= c.confidence <= 1.0
    ensures AllWithin(waveform, 0.0, 1.0) ==>
              forall c :: c in segments ==> 0.0 <= c.energy <= 1.0 && -18.0 <= c.loudness <= -6.0
  {
    var totalSamples := |waveform|;
    var windowBins := WindowBins(duration, totalSamples, target);
    var scores: seq<SegmentCandidate> := [];
    var startBin: nat := 0;
    while startBin + windowBins < totalSamples
      invariant scores + WindowsFrom(waveform, beats, duration, target, startBin) == Windows(waveform, beats, duration, target)
      decreases totalSamples - startBin
    {
      var candidate := ScoreWindow(waveform, beats, duration, target, windowBins, startBin);
      ghost var rest := WindowsFrom(waveform, beats, duration, target, startBin + Hop(windowBins));
      assert WindowsFrom(waveform, beats, duration, target, startBin) == [candidate] + rest;
      assert (scores + [candidate]) + rest == scores + ([candidate] + rest);
      scores := scores + [candidate];
      startBin := startBin + Hop(windowBins);
    }
    assert WindowsFrom(waveform, beats, duration, target, startBin) == [];
    assert scores == Windows(waveform, beats, duration, target);
    segments := Take(SortDesc(scores, SegmentKey), MaxSegments);
    TopSegmentsFacts(scores);
    TopSegmentsAreWindows(waveform, beats, duration, target);
  }

  /** `c` is the candidate of some window of the waveform: its energy is the
      mean and its loudness -6 − 12·peak of that window's bins. */
  ghost predicate IsWindow(waveform: seq<real>, beats: seq<real>, duration: real, target: real, c: SegmentCandidate)
    requires |waveform| > 0 && duration > 0.0 && target > 0.0
  {
    var wb := WindowBins(duration, |waveform|, target);
    exists b: nat :: b + wb < |waveform|
      && c == WindowCandidate(waveform, beats, duration, target, wb, b)
      && c.energy == Sum(waveform[b..b + wb]) / wb as real
      && c.loudness == -6.0 - 12.0 * Peak(waveform[b..b + wb])
  }

  /** Every candidate from `startBin` on is the candidate of a window. */
  lemma {:induction false} WindowsFromAreWindows(waveform: seq<real>, beats: seq<real>, duration: real, target: real,
                                                 startBin: nat)
    requires |waveform| > 0 && duration > 0.0 && target > 0.0
    ensures forall c :: c in WindowsFrom(waveform, beats, duration, target, startBin) ==>
              IsWindow(waveform, beats, duration, target, c)
    decreases |waveform| - startBin
  {
    var wb := WindowBins(duration, |waveform|, target);
    if startBin + wb < |waveform| {
      var first := WindowCandidate(waveform, beats, duration, target, wb, startBin);
      WindowsFromAreWindows(waveform, beats, duration, target, startBin + Hop(wb));
      assert IsWindow(waveform, beats, duration, target, first);
    }
  }

  /** Each of the best segments is the candidate of a window, lies inside
      the track with a confidence in [0, 1], and for a waveform in [0, 1] has
      an energy in [0, 1] and a loudness between -18 and -6 dB. */
  lemma TopSegmentsAreWindows(waveform: seq<real>, beats: seq<real>, duration: real, target: real)
    requires |waveform| > 0 && duration > 0.0 && target > 0.0
    ensures forall c :: c in TopSegments(Windows(waveform, beats, duration, target)) ==>
              IsWindow(waveform, beats, duration, target, c)
    ensures forall c :: c in TopSegments(Windows(waveform, beats, duration, target)) ==>
              0.0 <= c.start < c.end < duration && 0.0 <= c.confidence <= 1.0
    ensures AllWithin(waveform, 0.0, 1.0) ==>
              forall c :: c in TopSegments(Windows(waveform, beats, duration, target)) ==>
                0.0 <= c.energy <= 1.0 && -18.0 <= c.loudness <= -6.0
  {
    var windows := Windows(waveform, beats, duration, target);
    var top := TopSegments(windows);
    var wb := WindowBins(duration, |waveform|, target);
    TopSegmentsFacts(windows);
    WindowsFromAreWindows(waveform, beats, duration, target, 0);
    forall c | c in top
      ensures IsWindow(waveform, beats, duration, target, c)
      ensures 0.0 <= c.start < c.end < duration && 0.0 <= c.confidence <= 1.0
      ensures AllWithin(waveform, 0.0, 1.0) ==> 0.0 <= c.energy <= 1.0 && -18.0 <= c.loudness <= -6.0
    {
      assert c in multiset(top);
      assert c in windows;
      var b: nat :| b + wb < |waveform| && c == WindowCandidate(waveform, beats, duration, target, wb, b);
      WindowCandidateTimes(waveform, beats, duration, target, wb, b);
      WindowCandidateConfidence(waveform, beats, duration, target, wb, b);
      if AllWithin(waveform, 0.0, 1.0) {
        WindowCandidateLevels(waveform, beats, duration, target, wb, b);
      }
    }
  }

  /** Bin times: a window that starts before it ends, both before the last
      bin, lies inside the track. */
  lemma BinTimes(a: nat, b: nat, n: nat, duration: real)
    requires a < b < n && duration > 0.0
    ensures 0.0 <= a as real * (duration / n as real) < b as real * (duration / n as real) < duration
  {
    var spb := duration / n as real;
    assert spb > 0.0;
    assert n as real * spb == duration;
    assert b as real * spb - a as real * spb == (b - a) as real * spb;
    assert duration - b as real * spb == (n - b) as real * spb;
  }

  /** A window starts at or after 0 and ends after it starts and before the
      end of the track. */
  lemma WindowCandidateTimes(waveform: seq<real>, beats: seq<real>, duration: real, target: real,
                              windowBins: nat, startBin: nat)
    requires |waveform| > 0 && duration > 0.0 && target > 0.0
    requires windowBins >= 1 && startBin + windowBins < |waveform|
    ensures var c := WindowCandidate(waveform, beats, duration, target, windowBins, startBin);
            0.0 <= c.start < c.end < duration
  {
    var spb := SecondsPerBin(duration, |waveform|);
    var endBin := startBin + windowBins;
    var s, e := startBin as real * spb, endBin as real * spb;
    assert 0.0 <= s < e < duration by {
      BinTimes(startBin, endBin, |waveform|, duration);
    }
    var c := WindowCandidate(waveform, beats, duration, target, windowBins, startBin);
    assert c.start == s && c.end == Min(duration, e);
  }

  /** For a waveform in [0, 1], a window's energy lies in [0, 1] and its
      loudness between -18 and -6 dB. */
  lemma WindowCandidateLevels(waveform: seq<real>, beats: seq<real>, duration: real, target: real,
                               windowBins: nat, startBin: nat)
    requires |waveform| > 0 && duration > 0.0 && target > 0.0 && AllWithin(waveform, 0.0, 1.0)
    requires windowBins >= 1 && startBin + windowBins < |waveform|
    ensures var c := WindowCandidate(waveform, beats, duration, target, windowBins, startBin);
            0.0 <= c.energy <= 1.0 && -18.0 <= c.loudness <= -6.0
  {
    var window := waveform[startBin..startBin + windowBins];
    assert AllWithin(window, 0.0, 1.0) by {
      forall j | 0 <= j < |window| ensures 0.0 <= window[j] <= 1.0 {
        assert window[j] == waveform[startBin + j];
      }
    }
    MeanBounds(window, 0.0, 1.0);
    PeakWithin(window, 0.0, 1.0);
  }

  /** A window's confidence lies in [0, 1]. */
  lemma WindowCandidateConfidence(waveform: seq<real>, beats: seq<real>, duration: real, target: real,
                                   windowBins: nat, startBin: nat)
    requires |waveform| > 0 && duration > 0.0 && target > 0.0
    requires windowBins >= 1 && startBin + windowBins < |waveform|
    ensures 0.0 <= WindowCandidate(waveform, beats, duration, target, windowBins, startBin).confidence <= 1.0
  {
    var c := WindowCandidate(waveform, beats, duration, target, windowBins, startBin);
    var expected := target / ExpectedBeatSpacing;
    var n := CountWithin(beats, c.start, c.end) as real;
    assert c.confidence == Min(1.0, n / expected);
    assert n / expected >= 0.0 by {
      assert expected > 0.0 && n >= 0.0;
    }
  }

  /** What every window candidate satisfies for a waveform in [0, 1]: it
      starts at or after 0, ends after it starts and before the end of the
      track, has energy in [0, 1], a loudness between -18 and -6 dB and a
      confidence in [0, 1]. */
  lemma WindowCandidateFacts(waveform: seq<real>, beats: seq<real>, duration: real, target: real,
                              windowBins: nat, startBin: nat)
    requires |waveform| > 0 && duration > 0.0 && target > 0.0 && AllWithin(waveform, 0.0, 1.0)
    requires windowBins >= 1 && startBin + windowBins < |waveform|
    ensures var c := WindowCandidate(waveform, beats, duration, target, windowBins, startBin);
            && 0.0 <= c.start < c.end < duration
            && 0.0 <= c.energy <= 1.0
            && -18.0 <= c.loudness <= -6.0
            && 0.0 <= c.confidence <= 1.0
  {
    WindowCandidateTimes(waveform, beats, duration, target, windowBins, startBin);
    WindowCandidateLevels(waveform, beats, duration, target, windowBins, startBin);
    WindowCandidateConfidence(waveform, beats, duration, target, windowBins, startBin);
  }

  /** The kept candidates number at most eight, are ordered by descending
      energy + confidence, come from the input, and no dropped candidate
      ranks above a kept one. */
  lemma TopSegmentsFacts(candidates: seq<SegmentCandidate>)
    ensures |TopSegments(candidates)| == if |candidates| < MaxSegments then |candidates| else MaxSegments
    ensures SortedDesc(TopSegments(candidates), SegmentKey)
    ensures multiset(TopSegments(candidates)) <= multiset(candidates)
    ensures forall c, i :: c in multiset(candidates) - multiset(TopSegments(candidates)) && 0 <= i < |TopSegments(candidates)| ==>
              SegmentKey(c) <= SegmentKey(TopSegments(candidates)[i])
  {
    TopOfSortDesc(candidates, SegmentKey, MaxSegments);
  }
}
