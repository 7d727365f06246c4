/** The segment scorer and selector of the analysis package: a weighted score
    of a candidate time window against a target duration, and the choice of
    the best-scoring window among a list of candidates. */
module SegmentScorer {
  import opened Common

  /** A proposed time window with its audio features. */
  datatype SegmentCandidate = SegmentCandidate(
    start: real, end: real, energy: real, loudness: real, confidence: real)

  /** Where a selection came from; the selector always reports `Spotify`. */
  datatype SelectionSource = Spotify | Analysis

  datatype SegmentSelection = SegmentSelection(
    start: real, end: real, score: real, source: SelectionSource)

  datatype Weights = Weights(energy: real, loudness: real, confidence: real, durationFit: real)

  datatype DurationBounds = DurationBounds(minimum: real, maximum: real)

  const DefaultWeights := Weights(0.45, 0.25, 0.2, 0.1)

  /** Loudness is clamped to this range of decibels and mapped onto [0, 1]. */
  const LoudnessFloor: real := -60.0
  const LoudnessCeiling: real := 0.0

  function Duration(c: SegmentCandidate): real { c.end - c.start }

  ghost predicate NonNegative(w: Weights)
  {
    w.energy >= 0.0 && w.loudness >= 0.0 && w.confidence >= 0.0 && w.durationFit >= 0.0
  }

  /** Clamp to [-60, 0] dB and map linearly onto [0, 1]. */
  function Normalize(value: real): (r: real)
    ensures 0.0 <= r <= 1.0
    ensures value <= LoudnessFloor ==> r == 0.0
    ensures value >= LoudnessCeiling ==> r == 1.0
    ensures LoudnessFloor <= value <= LoudnessCeiling ==>
              r * (LoudnessCeiling - LoudnessFloor) == value - LoudnessFloor
  {
    var clamped := Min(Max(value, LoudnessFloor), LoudnessCeiling);
    (clamped - LoudnessFloor) / (LoudnessCeiling - LoudnessFloor)
  }

  /** Louder is never normalised lower. */
  lemma NormalizeMonotone(a: real, b: real)
    requires a <= b
    ensures Normalize(a) <= Normalize(b)
  {
    var ca := Min(Max(a, LoudnessFloor), LoudnessCeiling);
    var cb := Min(Max(b, LoudnessFloor), LoudnessCeiling);
    assert ca <= cb;
    assert Normalize(b) - Normalize(a) == (cb - ca) / 60.0;
  }

  /** How close a duration is to the target: 1 at the target, falling
      linearly to 0 at a distance of one target. */
  function DurationFit(duration: real, target: real): (r: real)
    requires target > 0.0
    ensures 0.0 <= r <= 1.0
    ensures r == 1.0 <==> duration == target
    ensures r == 0.0 <==> Abs(duration - target) >= target
  {
    var d := Abs(duration - target) / target;
    DivideCompare(Abs(duration - target), target, 1.0);
    assert d == 0.0 <==> duration == target;
    1.0 - Min(1.0, d)
  }

  /** A duration closer to the target fits at least as well. */
  lemma DurationFitCloserIsBetter(d1: real, d2: real, target: real)
    requires target > 0.0
    requires Abs(d1 - target) <= Abs(d2 - target)
    ensures DurationFit(d1, target) >= DurationFit(d2, target)
  {
    var a := Abs(d1 - target) / target;
    var b := Abs(d2 - target) / target;
    assert a <= b by {
      assert b - a == (Abs(d2 - target) - Abs(d1 - target)) / target;
    }
  }

  function MinimumDuration(target: real, bounds: Option<DurationBounds>): real
  {
    if bounds.Some? then bounds.value.minimum else target * 0.8
  }

  function MaximumDuration(target: real, bounds: Option<DurationBounds>): real
  {
    if bounds.Some? then bounds.value.maximum else target * 1.2
  }

  ghost predicate InBounds(c: SegmentCandidate, target: real, bounds: Option<DurationBounds>)
  {
    MinimumDuration(target, bounds) <= Duration(c) <= MaximumDuration(target, bounds)
  }

  /** The weighted sum of the four features. */
  function WeightedScore(w: Weights, energy: real, loudness: real, confidence: real, fit: real): real
  {
    energy * w.energy + loudness * w.loudness + confidence * w.confidence + fit * w.durationFit
  }

  /** With non-negative weights, the weighted sum grows with each feature. */
  lemma WeightedScoreMonotone(w: Weights, e1: real, l1: real, c1: real, f1: real,
                              e2: real, l2: real, c2: real, f2: real)
    requires NonNegative(w) && e1 <= e2 && l1 <= l2 && c1 <= c2 && f1 <= f2
    ensures WeightedScore(w, e1, l1, c1, f1) <= WeightedScore(w, e2, l2, c2, f2)
  {
    ScaleMonotone(e1, e2, w.energy);
    ScaleMonotone(l1, l2, w.loudness);
    ScaleMonotone(c1, c2, w.confidence);
    ScaleMonotone(f1, f2, w.durationFit);
    assert WeightedScore(w, e1, l1, c1, f1) == e1 * w.energy + l1 * w.loudness + c1 * w.confidence + f1 * w.durationFit;
    assert WeightedScore(w, e2, l2, c2, f2) == e2 * w.energy + l2 * w.loudness + c2 * w.confidence + f2 * w.durationFit;
  }

  /** The weighted score of a candidate, or `None` (the source's `null`) when
      its duration lies outside the bounds. */
  function ScoreCandidate(c: SegmentCandidate, target: real, weights: Weights,
                          bounds: Option<DurationBounds>): (r: Option<real>)
    requires target > 0.0
    ensures r.None? <==> !InBounds(c, target, bounds)
  {
    var duration := Duration(c);
    if duration < MinimumDuration(target, bounds) || duration > MaximumDuration(target, bounds) then None
    else
      Some(WeightedScore(weights, c.energy, Normalize(c.loudness), c.confidence, DurationFit(duration, target)))
  }

  /** With the default weights, which sum to one, features in [0, 1] give a
      score in [0, 1]. */
  lemma {:induction false} ScoreInUnitInterval(c: SegmentCandidate, target: real, bounds: Option<DurationBounds>)
    requires target > 0.0
    requires 0.0 <= c.energy <= 1.0 && 0.0 <= c.confidence <= 1.0
    requires InBounds(c, target, bounds)
    ensures ScoreCandidate(c, target, DefaultWeights, bounds).Some?
    ensures 0.0 <= ScoreCandidate(c, target, DefaultWeights, bounds).value <= 1.0
  {
    var n := Normalize(c.loudness);
    var f := DurationFit(Duration(c), target);
    assert 0.0 <= n <= 1.0 && 0.0 <= f <= 1.0;
    assert DefaultWeights.energy + DefaultWeights.loudness + DefaultWeights.confidence
           + DefaultWeights.durationFit == 1.0;
  }

  /** For the same window, more energy, more loudness and more confidence
      never lower the score (for non-negative weights). */
  lemma ScoreMonotone(c1: SegmentCandidate, c2: SegmentCandidate, target: real, w: Weights,
                      bounds: Option<DurationBounds>)
    requires target > 0.0 && NonNegative(w)
    requires c1.start == c2.start && c1.end == c2.end
    requires c1.energy <= c2.energy && c1.loudness <= c2.loudness && c1.confidence <= c2.confidence
    ensures ScoreCandidate(c1, target, w, bounds).Some? <==> ScoreCandidate(c2, target, w, bounds).Some?
    ensures ScoreCandidate(c1, target, w, bounds).Some? ==>
              ScoreCandidate(c1, target, w, bounds).value <= ScoreCandidate(c2, target, w, bounds).value
  {
    NormalizeMonotone(c1.loudness, c2.loudness);
    var fit := DurationFit(Duration(c1), target);
    WeightedScoreMonotone(w, c1.energy, Normalize(c1.loudness), c1.confidence, fit,
                          c2.energy, Normalize(c2.loudness), c2.confidence, fit);
  }

  /** Of two windows with the same features, the one whose duration is closer
      to the target scores at least as high (for a non-negative fit weight). */
  lemma ScoreFavoursFit(c1: SegmentCandidate, c2: SegmentCandidate, target: real, w: Weights,
                        bounds: Option<DurationBounds>)
    requires target > 0.0 && w.durationFit >= 0.0
    requires c1.energy == c2.energy && c1.loudness == c2.loudness && c1.confidence == c2.confidence
    requires InBounds(c1, target, bounds) && InBounds(c2, target, bounds)
    requires Abs(Duration(c1) - target) <= Abs(Duration(c2) - target)
    ensures ScoreCandidate(c1, target, w, bounds).value >= ScoreCandidate(c2, target, w, bounds).value
  {
    DurationFitCloserIsBetter(Duration(c1), Duration(c2), target);
    var f1, f2 := DurationFit(Duration(c1), target), DurationFit(Duration(c2), target);
    ScaleMonotone(f2, f1, w.durationFit);
  }

  // -----------------------------------------------------------------------
  // Selection

  /** `best` is what the selector must return: nothing when no candidate is in
      bounds, otherwise the window of the FIRST candidate whose score is the
      highest, with that score, tagged `Spotify`. */
  ghost predicate IsFirstBest(candidates: seq<SegmentCandidate>, target: real, weights: Weights,
                              bounds: Option<DurationBounds>, best: Option<SegmentSelection>)
    requires target > 0.0
  {
    if forall i :: 0 <= i < |candidates| ==> ScoreCandidate(candidates[i], target, weights, bounds).None?
    then best.None?
    else best.Some? && exists i :: 0 <= i < |candidates| && IsFirstBestAt(candidates, target, weights, bounds, best.value, i)
  }

  ghost predicate IsFirstBestAt(candidates: seq<SegmentCandidate>, target: real, weights: Weights,
                                bounds: Option<DurationBounds>, best: SegmentSelection, i: int)
    requires target > 0.0
    requires 0 <= i < |candidates|
  {
    && ScoreCandidate(candidates[i], target, weights, bounds) == Some(best.score)
    && best.start == candidates[i].start && best.end == candidates[i].end
    && best.source == Spotify
    && (forall j :: 0 <= j < |candidates| && ScoreCandidate(candidates[j], target, weights, bounds).Some? ==>
          ScoreCandidate(candidates[j], target, weights, bounds).value <= best.score)
    && (forall j :: 0 <= j < i && ScoreCandidate(candidates[j], target, weights, bounds).Some? ==>
          ScoreCandidate(candidates[j], target, weights, bounds).value < best.score)
  }

  /** `selectBestSegment`: one pass that replaces the best so far only on a
      strictly higher score. Absent bounds default to 0.8 and 1.2 times the
      target. */
  method SelectBestSegment(candidates: seq<SegmentCandidate>, target: real,
                           minimum: Option<real>, maximum: Option<real>, weights: Weights)
    returns (best: Option<SegmentSelection>)
    requires target > 0.0
    ensures IsFirstBest(candidates, target, weights,
                        Some(DurationBounds(minimum.OrElse(target * 0.8), maximum.OrElse(target * 1.2))), best)
  {
    var bounds := Some(DurationBounds(minimum.OrElse(target * 0.8), maximum.OrElse(target * 1.2)));
    if |candidates| == 0 {
      return None;
    }
    best := None;
    ghost var at := 0;
    for k := 0 to |candidates|
      invariant best.None? <==>
        forall i :: 0 <= i < k ==> ScoreCandidate(candidates[i], target, weights, bounds).None?
      invariant best.Some? ==> 0 <= at < k && IsFirstBestAt(candidates[..k], target, weights, bounds, best.value, at)
    {
      var score := ScoreCandidate(candidates[k], target, weights, bounds);
      if score.None? {
        continue;
      }
      if best.None? || score.value > best.value.score {
        best := Some(SegmentSelection(candidates[k].start, candidates[k].end, score.value, Spotify));
        at := k;
      }
    }
    assert candidates[..|candidates|] == candidates;
  }

  /** The selector's contract determines its result. */
  lemma SelectionIsUnique(candidates: seq<SegmentCandidate>, target: real, weights: Weights,
                          bounds: Option<DurationBounds>, b1: Option<SegmentSelection>, b2: Option<SegmentSelection>)
    requires target > 0.0
    requires IsFirstBest(candidates, target, weights, bounds, b1)
    requires IsFirstBest(candidates, target, weights, bounds, b2)
    ensures b1 == b2
  {
    if b1.Some? {
      var i1 :| 0 <= i1 < |candidates| && IsFirstBestAt(candidates, target, weights, bounds, b1.value, i1);
      var i2 :| 0 <= i2 < |candidates| && IsFirstBestAt(candidates, target, weights, bounds, b2.value, i2);
      assert i1 == i2;
    }
  }

  /** A selection is never out of bounds: its window has an in-bounds duration. */
  lemma SelectionInBounds(candidates: seq<SegmentCandidate>, target: real, weights: Weights,
                          bounds: Option<DurationBounds>, best: Option<SegmentSelection>)
    requires target > 0.0
    requires IsFirstBest(candidates, target, weights, bounds, best)
    requires best.Some?
    ensures MinimumDuration(target, bounds) <= best.value.end - best.value.start <= MaximumDuration(target, bounds)
  {
    var i :| 0 <= i < |candidates| && IsFirstBestAt(candidates, target, weights, bounds, best.value, i);
  }

  /** An empty candidate list selects nothing. */
  lemma EmptySelectsNothing(target: real, weights: Weights, bounds: Option<DurationBounds>,
                            best: Option<SegmentSelection>)
    requires target > 0.0
    requires IsFirstBest([], target, weights, bounds, best)
    ensures best.None?
  {
  }

  // -----------------------------------------------------------------------
  // The cases pinned by the package's tests

  const DefaultBounds30 := Some(DurationBounds(30.0 * 0.8, 30.0 * 1.2))

  const ThreeCandidates := [
    SegmentCandidate(0.0, 20.0, 0.4, -8.0, 0.7),
    SegmentCandidate(25.0, 55.0, 0.9, -4.0, 0.6),
    SegmentCandidate(60.0, 90.0, 0.7, -12.0, 0.9)
  ]

  /** With a 30 s target the selector picks the window 25–55. */
  lemma ThreeCandidatesPickSecond(best: Option<SegmentSelection>)
    requires IsFirstBest(ThreeCandidates, 30.0, DefaultWeights, DefaultBounds30, best)
    ensures best.Some? && best.value.start == 25.0 && best.value.end == 55.0
  {
    var s0 := ScoreCandidate(ThreeCandidates[0], 30.0, DefaultWeights, DefaultBounds30);
    var s1 := ScoreCandidate(ThreeCandidates[1], 30.0, DefaultWeights, DefaultBounds30);
    var s2 := ScoreCandidate(ThreeCandidates[2], 30.0, DefaultWeights, DefaultBounds30);
    assert s0.None?;
    assert Normalize(-4.0) == 56.0 / 60.0;
    assert Normalize(-12.0) == 48.0 / 60.0;
    assert DurationFit(30.0, 30.0) == 1.0;
    assert s1 == Some(0.45 * 0.9 + 56.0 / 60.0 * 0.25 + 0.6 * 0.2 + 1.0 * 0.1);
    assert s2 == Some(0.45 * 0.7 + 48.0 / 60.0 * 0.25 + 0.9 * 0.2 + 1.0 * 0.1);
    var i :| 0 <= i < 3 && IsFirstBestAt(ThreeCandidates, 30.0, DefaultWeights, DefaultBounds30, best.value, i);
    assert i == 1;
  }

  /** A single 5 s candidate with a 30 s target selects nothing. */
  lemma TooShortSelectsNothing(best: Option<SegmentSelection>)
    requires IsFirstBest([SegmentCandidate(0.0, 5.0, 1.0, -2.0, 1.0)], 30.0, DefaultWeights, DefaultBounds30, best)
    ensures best.None?
  {
    assert ScoreCandidate(SegmentCandidate(0.0, 5.0, 1.0, -2.0, 1.0), 30.0, DefaultWeights, DefaultBounds30).None?;
  }

  /** The individual score of the 10–40 window is positive. */
  lemma SingleScorePositive()
    ensures ScoreCandidate(SegmentCandidate(10.0, 40.0, 0.7, -6.0, 0.8), 30.0, DefaultWeights, None).Some?
    ensures ScoreCandidate(SegmentCandidate(10.0, 40.0, 0.7, -6.0, 0.8), 30.0, DefaultWeights, None).value > 0.0
  {
    assert DurationFit(30.0, 30.0) == 1.0;
  }
}
