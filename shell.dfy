/** The two computations of the editor shell that are not UI: the music
    gain automation sent with a render request, which dips the music around
    each beat of the chosen segment, and the provisional lyric timings shown
    before an alignment exists. */
module Shell {
  import opened Common
  import opened Lyrics

  // -----------------------------------------------------------------------
  // Gain automation

  /** An automation point: a time in the segment and a gain in dB. */
  datatype Point = Point(at: real, gainDb: real)

  /** How far before and after a beat the dip starts and ends. */
  const BeatSpread: real := 0.12
  /** Points closer than this to their predecessor are smoothed. */
  const MergeWindow: real := 0.02

  /** The beats inside [start, end], relative to start. */
  function InSegment(beats: seq<real>, start: real, end: real): seq<real>
  {
    if beats == [] then []
    else (if start <= beats[0] <= end then [beats[0] - start] else []) + InSegment(beats[1..], start, end)
  }

  /** Every kept beat lies in [0, end - start] and is a beat of the
      segment, shifted. */
  lemma {:induction false} InSegmentBounds(beats: seq<real>, start: real, end: real)
    ensures forall i :: 0 <= i < |InSegment(beats, start, end)| ==>
              0.0 <= InSegment(beats, start, end)[i] <= end - start
              && InSegment(beats, start, end)[i] + start in beats
  {
    if beats != [] {
      var rest := InSegment(beats[1..], start, end);
      InSegmentBounds(beats[1..], start, end);
      var head := if start <= beats[0] <= end then [beats[0] - start] else [];
      var r := InSegment(beats, start, end);
      assert r == head + rest;
      forall i | 0 <= i < |r| ensures 0.0 <= r[i] <= end - start && r[i] + start in beats {
        if i >= |head| {
          assert r[i] == rest[i - |head|];
          assert rest[i - |head|] + start in beats[1..];
        }
      }
    }
  }

  /** No beat is kept exactly when no beat falls in the segment. */
  lemma {:induction false} InSegmentEmpty(beats: seq<real>, start: real, end: real)
    ensures InSegment(beats, start, end) == [] <==> forall i :: 0 <= i < |beats| ==> !(start <= beats[i] <= end)
  {
    if beats != [] {
      InSegmentEmpty(beats[1..], start, end);
      if forall i :: 0 <= i < |beats[1..]| ==> !(start <= beats[1..][i] <= end) {
        forall i | 0 < i < |beats| ensures !(start <= beats[i] <= end) {
          assert beats[i] == beats[1..][i - 1];
        }
      } else {
        var i :| 0 <= i < |beats[1..]| && start <= beats[1..][i] <= end;
        assert beats[i + 1] == beats[1..][i];
      }
    }
  }

  /** The three points pushed for a beat: a dip of half the depth just
      before it, a lift by the depth on it, and a dip of a third just after
      it, kept inside [0, duration]. */
  function BeatPoints(beat: real, base: real, depth: real, duration: real): seq<Point>
  {
    [Point(Max(0.0, beat - BeatSpread), base - depth / 2.0),
     Point(beat, base + depth),
     Point(Min(duration, beat + BeatSpread), base - depth / 3.0)]
  }

  /** The points pushed for a run of beats, in order. */
  function PointsFor(beats: seq<real>, base: real, depth: real, duration: real): (r: seq<Point>)
    ensures |r| == 3 * |beats|
  {
    if beats == [] then []
    else PointsFor(beats[..|beats| - 1], base, depth, duration) + BeatPoints(beats[|beats| - 1], base, depth, duration)
  }

  /** The points before sorting: the base gain at 0, the beats' points, and
      the base gain at the end. */
  function Pushed(beats: seq<real>, base: real, depth: real, duration: real): seq<Point>
  {
    [Point(0.0, base)] + PointsFor(beats, base, depth, duration) + [Point(duration, base)]
  }

  /** Points 3i, 3i+1 and 3i+2 are those of beat i. */
  lemma {:induction false} PointsForBeat(beats: seq<real>, base: real, depth: real, duration: real, i: nat)
    requires i < |beats|
    ensures PointsFor(beats, base, depth, duration)[3 * i..3 * i + 3] == BeatPoints(beats[i], base, depth, duration)
  {
    var n := |beats| - 1;
    var front := PointsFor(beats[..n], base, depth, duration);
    assert PointsFor(beats, base, depth, duration) == front + BeatPoints(beats[n], base, depth, duration);
    if i < n {
      PointsForBeat(beats[..n], base, depth, duration, i);
      assert beats[..n][i] == beats[i];
    }
  }

  /** A beat's points lie in [0, duration] when the beat does, and their
      gains between the base less half the depth and the base plus it. */
  lemma BeatPointsBounded(beat: real, base: real, depth: real, duration: real)
    requires 0.0 <= beat <= duration && depth > 0.0
    ensures forall k :: 0 <= k < 3 ==>
              && 0.0 <= BeatPoints(beat, base, depth, duration)[k].at <= duration
              && base - depth / 2.0 <= BeatPoints(beat, base, depth, duration)[k].gainDb <= base + depth
  {
  }

  /** The pushed points: 3k+2 of them for k beats, starting and ending at
      the base gain; with beats in [0, duration] every time lies in
      [0, duration], and with a positive depth every gain lies between the
      base less half the depth and the base plus the depth. */
  lemma PushedFacts(beats: seq<real>, base: real, depth: real, duration: real)
    requires 0.0 <= duration && forall i :: 0 <= i < |beats| ==> 0.0 <= beats[i] <= duration
    requires depth > 0.0
    ensures var p := Pushed(beats, base, depth, duration);
            && |p| == 3 * |beats| + 2
            && p[0] == Point(0.0, base) && p[|p| - 1] == Point(duration, base)
            && (forall i :: 0 <= i < |beats| ==> p[1 + 3 * i..4 + 3 * i] == BeatPoints(beats[i], base, depth, duration))
            && (forall i :: 0 <= i < |p| ==> 0.0 <= p[i].at <= duration)
            && (forall i :: 0 <= i < |p| ==> base - depth / 2.0 <= p[i].gainDb <= base + depth)
  {
    var p := Pushed(beats, base, depth, duration);
    var q := PointsFor(beats, base, depth, duration);
    forall i | 0 <= i < |beats| ensures p[1 + 3 * i..4 + 3 * i] == BeatPoints(beats[i], base, depth, duration) {
      PointsForBeat(beats, base, depth, duration, i);
      assert p[1 + 3 * i..4 + 3 * i] == q[3 * i..3 * i + 3];
    }
    forall k | 0 <= k < |p| ensures 0.0 <= p[k].at <= duration && base - depth / 2.0 <= p[k].gainDb <= base + depth {
      if 0 < k < |p| - 1 {
        var i, j := (k - 1) / 3, (k - 1) % 3;
        assert k - 1 == 3 * i + j && i < |beats|;
        PointsForBeat(beats, base, depth, duration, i);
        assert p[k] == q[k - 1] == q[3 * i..3 * i + 3][j];
        BeatPointsBounded(beats[i], base, depth, duration);
      }
    }
  }

  /** The method's loop: start with the base gain at 0, push three points
      per beat, and close with the base gain at the end. */
  method PushPoints(beats: seq<real>, base: real, depth: real, duration: real) returns (points: seq<Point>)
    ensures points == Pushed(beats, base, depth, duration)
  {
    points := [Point(0.0, base)];
    for i := 0 to |beats|
      invariant points == [Point(0.0, base)] + PointsFor(beats[..i], base, depth, duration)
    {
      var beat := beats[i];
      var lead := Max(0.0, beat - BeatSpread);
      var trail := Min(duration, beat + BeatSpread);
      assert beats[..i + 1][..i] == beats[..i];
      points := points + [Point(lead, base - depth / 2.0)];
      points := points + [Point(beat, base + depth)];
      points := points + [Point(trail, base - depth / 3.0)];
    }
    assert beats[..|beats|] == beats;
    points := points + [Point(duration, base)];
  }

  /** The sort key: sorting by descending `-at` is `sort((a, b) => a.at - b.at)`,
      ascending in time and stable. */
  function Earliness(p: Point): real { -p.at }

  /** The smoothed point at index i: the mean of its gain and its unmerged
      predecessor's when the two are closer than 0.02 apart. */
  function SmoothAt(sorted: seq<Point>, i: nat): Point
    requires i < |sorted|
  {
    if i > 0 && Abs(sorted[i - 1].at - sorted[i].at) < MergeWindow
    then Point(sorted[i].at, (sorted[i - 1].gainDb + sorted[i].gainDb) / 2.0)
    else sorted[i]
  }

  /** The `map` over the sorted points. */
  function Smooth(sorted: seq<Point>): (r: seq<Point>)
    ensures |r| == |sorted|
  {
    seq(|sorted|, i requires 0 <= i < |sorted| => SmoothAt(sorted, i))
  }

  /** Smoothing keeps every time, averages a gain with its predecessor's
      when the two are closer than 0.02, and keeps the point otherwise. */
  lemma SmoothFacts(sorted: seq<Point>)
    ensures var r := Smooth(sorted);
            && (forall i :: 0 <= i < |r| ==> r[i].at == sorted[i].at)
            && (forall i :: 0 < i < |r| && Abs(sorted[i - 1].at - sorted[i].at) < MergeWindow ==>
                  r[i].gainDb == (sorted[i - 1].gainDb + sorted[i].gainDb) / 2.0)
            && (forall i :: 0 <= i < |r| && !(i > 0 && Abs(sorted[i - 1].at - sorted[i].at) < MergeWindow) ==>
                  r[i] == sorted[i])
  {
    var r := Smooth(sorted);
    forall i | 0 <= i < |r|
      ensures r[i].at == sorted[i].at
      ensures i > 0 && Abs(sorted[i - 1].at - sorted[i].at) < MergeWindow ==>
                r[i].gainDb == (sorted[i - 1].gainDb + sorted[i].gainDb) / 2.0
      ensures !(i > 0 && Abs(sorted[i - 1].at - sorted[i].at) < MergeWindow) ==> r[i] == sorted[i]
    {
      assert r[i] == SmoothAt(sorted, i);
    }
  }

  /** Bounds that every gain keeps still hold after smoothing. */
  lemma SmoothBounded(sorted: seq<Point>, lo: real, hi: real)
    requires forall i :: 0 <= i < |sorted| ==> lo <= sorted[i].gainDb <= hi
    ensures forall i :: 0 <= i < |Smooth(sorted)| ==> lo <= Smooth(sorted)[i].gainDb <= hi
  {
    var r := Smooth(sorted);
    forall i | 0 <= i < |r| ensures lo <= r[i].gainDb <= hi {
      assert r[i] == SmoothAt(sorted, i);
      if i > 0 {
        MeanBetween(sorted[i - 1].gainDb, sorted[i].gainDb, lo, hi);
      }
    }
  }

  /** The mean of two values within bounds is within them. */
  lemma MeanBetween(a: real, b: real, lo: real, hi: real)
    requires lo <= a <= hi && lo <= b <= hi
    ensures lo <= (a + b) / 2.0 <= hi
  {
  }

  /** `points.sort((a, b) => a.at - b.at)`: ascending in time, and stable. */
  function ByTime(points: seq<Point>): seq<Point>
  {
    SortDesc(points, Earliness)
  }

  /** Sorting rearranges the points into time order, so bounds that every
      point keeps still hold. */
  lemma ByTimeFacts(points: seq<Point>, duration: real, lo: real, hi: real)
    ensures var sorted := ByTime(points);
            && |sorted| == |points| && multiset(sorted) == multiset(points)
            && (forall i, j :: 0 <= i < j < |sorted| ==> sorted[i].at <= sorted[j].at)
    ensures (forall i :: 0 <= i < |points| ==> 0.0 <= points[i].at <= duration && lo <= points[i].gainDb <= hi) ==>
              forall i :: 0 <= i < |ByTime(points)| ==>
                0.0 <= ByTime(points)[i].at <= duration && lo <= ByTime(points)[i].gainDb <= hi
  {
    var sorted := ByTime(points);
    SortDescFacts(points, Earliness);
    forall i, j | 0 <= i < j < |sorted| ensures sorted[i].at <= sorted[j].at {
      assert Earliness(sorted[i]) >= Earliness(sorted[j]);
    }
    forall i | 0 <= i < |sorted| ensures sorted[i] in points {
      assert sorted[i] in multiset(points);
    }
  }

  /** The automation of a segment: none without beats, without a positive
      depth, or without a beat inside the segment; otherwise the pushed
      points sorted by time and smoothed. */
  function Automation(beats: seq<real>, start: real, end: real, base: real, depth: real): seq<Point>
  {
    if beats == [] || depth <= 0.0 then []
    else
      var inside := InSegment(beats, start, end);
      if inside == [] then []
      else Smooth(ByTime(Pushed(inside, base, depth, Max(end - start, 0.0))))
  }

  /** The automation builder of the export action. */
  method BuildAutomation(beats: seq<real>, start: real, end: real, base: real, depth: real)
    returns (automation: seq<Point>)
    ensures automation == Automation(beats, start, end, base, depth)
  {
    if |beats| == 0 || depth <= 0.0 {
      return [];
    }
    var duration := Max(end - start, 0.0);
    var inside := InSegment(beats, start, end);
    if |inside| == 0 {
      return [];
    }
    var points := PushPoints(inside, base, depth, duration);
    automation := Smooth(SortDesc(points, Earliness));
  }

  /** No automation exactly when there are no beats, the depth is not
      positive, or no beat falls in [start, end]. */
  lemma AutomationEmpty(beats: seq<real>, start: real, end: real, base: real, depth: real)
    ensures Automation(beats, start, end, base, depth) == [] <==>
              beats == [] || depth <= 0.0 || forall i :: 0 <= i < |beats| ==> !(start <= beats[i] <= end)
  {
    InSegmentEmpty(beats, start, end);
    if beats != [] && depth > 0.0 && InSegment(beats, start, end) != [] {
      var inside := InSegment(beats, start, end);
      var p := Pushed(inside, base, depth, Max(end - start, 0.0));
      ByTimeFacts(p, 0.0, 0.0, 0.0);
      assert |Smooth(ByTime(p))| == |p| > 0;
    }
  }

  /** Sorting and smoothing points that lie in [0, duration] with gains in
      [lo, hi] gives as many points, in time order, within the same bounds,
      at the times of the sorted points. */
  lemma SortedSmoothFacts(points: seq<Point>, duration: real, lo: real, hi: real)
    requires forall i :: 0 <= i < |points| ==> 0.0 <= points[i].at <= duration && lo <= points[i].gainDb <= hi
    ensures var r := Smooth(ByTime(points));
            && |r| == |points|
            && (forall i :: 0 <= i < |r| ==> 0.0 <= r[i].at <= duration && lo <= r[i].gainDb <= hi)
            && (forall i, j :: 0 <= i < j < |r| ==> r[i].at <= r[j].at)
            && (forall i :: 0 <= i < |r| ==> r[i].at == ByTime(points)[i].at)
  {
    ByTimeFacts(points, duration, lo, hi);
    SmoothFacts(ByTime(points));
    SmoothBounded(ByTime(points), lo, hi);
  }

  /** With beats in the segment, the automation is built from beats in
      [0, end - start], the duration is end - start, and the pushed points
      keep the bounds of a positive depth. */
  lemma AutomationUnfolds(beats: seq<real>, start: real, end: real, base: real, depth: real)
    requires depth > 0.0
    requires InSegment(beats, start, end) != []
    ensures 0.0 <= end - start
    ensures Automation(beats, start, end, base, depth)
            == Smooth(ByTime(Pushed(InSegment(beats, start, end), base, depth, end - start)))
    ensures var p := Pushed(InSegment(beats, start, end), base, depth, end - start);
            && |p| == 3 * |InSegment(beats, start, end)| + 2
            && forall i :: 0 <= i < |p| ==>
                 0.0 <= p[i].at <= end - start && base - depth / 2.0 <= p[i].gainDb <= base + depth
  {
    var inside := InSegment(beats, start, end);
    InSegmentBounds(beats, start, end);
    assert 0.0 <= inside[0] <= end - start;
    assert beats != [] && Max(end - start, 0.0) == end - start;
    PushedFacts(inside, base, depth, end - start);
  }

  /** With k beats in the segment and a positive depth, the automation has
      3k+2 points in time order, each at a time in [0, end - start] with a
      gain between the base less half the depth and the base plus the
      depth. */
  lemma AutomationFacts(beats: seq<real>, start: real, end: real, base: real, depth: real)
    requires depth > 0.0
    requires InSegment(beats, start, end) != []
    ensures var r := Automation(beats, start, end, base, depth);
            && |r| == 3 * |InSegment(beats, start, end)| + 2
            && (forall i :: 0 <= i < |r| ==> 0.0 <= r[i].at <= end - start)
            && (forall i, j :: 0 <= i < j < |r| ==> r[i].at <= r[j].at)
            && (forall i :: 0 <= i < |r| ==> base - depth / 2.0 <= r[i].gainDb <= base + depth)
  {
    AutomationUnfolds(beats, start, end, base, depth);
    SortedSmoothFacts(Pushed(InSegment(beats, start, end), base, depth, end - start), end - start, base - depth / 2.0, base + depth);
  }

  /** The automation's times are, in order, those of the pushed points
      rearranged by time. */
  lemma AutomationRearranges(beats: seq<real>, start: real, end: real, base: real, depth: real)
    requires depth > 0.0
    requires InSegment(beats, start, end) != []
    ensures var r := Automation(beats, start, end, base, depth);
            var pushed := Pushed(InSegment(beats, start, end), base, depth, end - start);
            && multiset(ByTime(pushed)) == multiset(pushed)
            && |r| == |ByTime(pushed)| == |pushed|
            && (forall i :: 0 <= i < |r| ==> r[i].at == ByTime(pushed)[i].at)
  {
    AutomationUnfolds(beats, start, end, base, depth);
    var p := Pushed(InSegment(beats, start, end), base, depth, end - start);
    SortedSmoothFacts(p, end - start, base - depth / 2.0, base + depth);
    ByTimeFacts(p, end - start, base - depth / 2.0, base + depth);
  }

  // -----------------------------------------------------------------------
  // Provisional lyric timings

  /** A line as the shell shows it. */
  datatype ShownLine = ShownLine(text: string, start: real, end: real)

  const LineSpacing: real := 2.5
  const WordSpacing: real := 0.4
  const WordLength: real := 0.35
  const WordConfidence: real := 0.4

  /** The lines of an alignment, or else the non-empty pieces of the lyrics
      between line breaks, 2.5 seconds each from the segment's start (0
      without a segment). */
  function ShownLines(alignment: Option<seq<AlignedLine>>, lyrics: string, segmentStart: Option<real>): (r: seq<ShownLine>)
  {
    match alignment
    case Some(lines) => seq(|lines|, i requires 0 <= i < |lines| => ShownLine(lines[i].text, lines[i].start, lines[i].end))
    case None =>
      var s := segmentStart.OrElse(0.0);
      var texts := NonEmpty(Split(lyrics, '\n'));
      seq(|texts|, i requires 0 <= i < |texts| => ShownLine(texts[i], s + i as real * LineSpacing, s + i as real * LineSpacing + LineSpacing))
  }

  /** The words of an alignment when it has some, or else the non-empty
      pieces of the lyrics between spaces, 0.4 seconds apart from the
      segment's start, each lasting 0.35 seconds with confidence 0.4. */
  function ShownWords(alignment: Option<seq<Word>>, lyrics: string, segmentStart: Option<real>): (r: seq<Word>)
  {
    if alignment.Some? && alignment.value != [] then alignment.value
    else
      var s := segmentStart.OrElse(0.0);
      var texts := NonEmpty(Split(lyrics, ' '));
      seq(|texts|, i requires 0 <= i < |texts| =>
        Word(texts[i], s + i as real * WordSpacing, s + i as real * WordSpacing + WordLength, Some(WordConfidence)))
  }

  /** An alignment's lines are shown as they are. Without an alignment
      the lines are the lyrics' non-empty lines, in order, with line i
      spanning [s + 2.5i, s + 2.5i + 2.5]: back to back, each 2.5 seconds
      long and none containing a line break. */
  lemma ShownLinesFacts(alignment: Option<seq<AlignedLine>>, lyrics: string, segmentStart: Option<real>)
    ensures alignment.Some? ==>
              var r := ShownLines(alignment, lyrics, segmentStart);
              && |r| == |alignment.value|
              && forall i :: 0 <= i < |r| ==>
                   && r[i].text == alignment.value[i].text
                   && r[i].start == alignment.value[i].start && r[i].end == alignment.value[i].end
    ensures alignment.None? ==>
              var r := ShownLines(alignment, lyrics, segmentStart);
              var s := if segmentStart.Some? then segmentStart.value else 0.0;
              && |r| == |NonEmpty(Split(lyrics, '\n'))|
              && (forall i :: 0 <= i < |r| ==>
                    && r[i].text == NonEmpty(Split(lyrics, '\n'))[i]
                    && r[i].text != [] && '\n' !in r[i].text
                    && r[i].start == s + 2.5 * i as real
                    && r[i].end - r[i].start == 2.5)
              && (forall i :: 0 < i < |r| ==> r[i].start == r[i - 1].end)
  {
    if alignment.None? {
      PiecesFacts(lyrics, '\n');
    }
  }

  /** Aligned words, when there are any, are shown as they are. Otherwise
      the words are the lyrics' non-empty pieces between spaces, with word i
      spanning [s + 0.4i, s + 0.4i + 0.35] at confidence 0.4, so that
      consecutive words never overlap. */
  lemma ShownWordsFacts(alignment: Option<seq<Word>>, lyrics: string, segmentStart: Option<real>)
    ensures alignment.Some? && alignment.value != [] ==> ShownWords(alignment, lyrics, segmentStart) == alignment.value
    ensures alignment.None? || alignment.value == [] ==>
              var r := ShownWords(alignment, lyrics, segmentStart);
              var s := if segmentStart.Some? then segmentStart.value else 0.0;
              && |r| == |NonEmpty(Split(lyrics, ' '))|
              && (forall i :: 0 <= i < |r| ==>
                    && r[i].text == NonEmpty(Split(lyrics, ' '))[i]
                    && r[i].text != [] && ' ' !in r[i].text
                    && r[i].start == s + 0.4 * i as real
                    && r[i].end - r[i].start == 0.35
                    && r[i].confidence == Some(0.4))
              && (forall i :: 0 < i < |r| ==> r[i - 1].end < r[i].start)
  {
    if alignment.None? || alignment.value == [] {
      PiecesFacts(lyrics, ' ');
    }
  }

  /** The kept pieces of a split are non-empty and free of the separator. */
  lemma PiecesFacts(s: string, sep: char)
    ensures forall i :: 0 <= i < |NonEmpty(Split(s, sep))| ==>
              NonEmpty(Split(s, sep))[i] != [] && sep !in NonEmpty(Split(s, sep))[i]
  {
    var parts := Split(s, sep);
    NonEmptyFacts(parts);
    forall i | 0 <= i < |NonEmpty(parts)| ensures sep !in NonEmpty(parts)[i] {
      var k :| 0 <= k < |parts| && parts[k] == NonEmpty(parts)[i];
    }
  }
}
