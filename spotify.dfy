/** Segment candidates from Spotify's audio analysis: the loudest sections
    and the loudest segments of a track become candidate windows of at
    least the target length, and candidates whose start falls on the same
    tenth of the target length are dropped after the first. */
module Spotify {
  import opened Common
  import opened SegmentScorer

  /** A section of the analysis, or one of its segments with
      `loudness_max` as its loudness. */
  datatype Span = Span(start: real, duration: real, loudness: real, confidence: Option<real>)

  /** The fields of the audio-analysis response the candidates use. A
      missing `sections` or `segments` list reads as an empty one. */
  datatype Analysis = Analysis(sections: seq<Span>, segments: seq<Span>)

  /** The fields of the audio-features response the candidates use. */
  datatype Features = Features(energy: real, loudness: real)

  const MaxCandidates: nat := 6
  const DefaultEnergy: real := 0.6
  const DefaultConfidence: real := 0.5
  /** A section's window is at least its own length; a segment's at least
      four times its length. */
  const SectionStretch: real := 1.0
  const SegmentStretch: real := 4.0

  function Loudness(s: Span): real { s.loudness }

  /** `features?.energy ?? 0.6`. */
  function Energy(features: Option<Features>): real
  {
    match features
    case Some(f) => f.energy
    case None => DefaultEnergy
  }

  /** The candidate window that starts at a span. */
  function SpanCandidate(s: Span, stretch: real, features: Option<Features>, target: real): SegmentCandidate
  {
    SegmentCandidate(s.start, s.start + Max(s.duration * stretch, target), Energy(features), s.loudness,
                     s.confidence.OrElse(DefaultConfidence))
  }

  function CandidatesOf(spans: seq<Span>, stretch: real, features: Option<Features>, target: real): (r: seq<SegmentCandidate>)
    ensures |r| == |spans|
  {
    seq(|spans|, i requires 0 <= i < |spans| => SpanCandidate(spans[i], stretch, features, target))
  }

  /** The six loudest spans, loudest first; equally loud ones keep their
      order. */
  function Loudest(spans: seq<Span>): seq<Span>
  {
    Take(SortDesc(spans, Loudness), MaxCandidates)
  }

  /** The candidates before deduplication: none without an analysis or
      without sections, otherwise those of the loudest sections followed by
      those of the loudest segments. */
  function Candidates(analysis: Option<Analysis>, features: Option<Features>, target: real): seq<SegmentCandidate>
  {
    match analysis
    case None => []
    case Some(a) =>
      if a.sections == [] then []
      else CandidatesOf(Loudest(a.sections), SectionStretch, features, target)
           + CandidatesOf(Loudest(a.segments), SegmentStretch, features, target)
  }

  /** Each candidate starts where its span starts, lasts the stretched
      span's length or the target, whichever is longer, and carries the
      track's energy (0.6 without features), the span's loudness and its
      confidence (0.5 when it has none). */
  lemma CandidatesOfFacts(spans: seq<Span>, stretch: real, features: Option<Features>, target: real)
    ensures var r := CandidatesOf(spans, stretch, features, target);
            forall i :: 0 <= i < |r| ==>
              && r[i].start == spans[i].start
              && r[i].end - r[i].start == Max(spans[i].duration * stretch, target)
              && r[i].end - r[i].start >= target
              && r[i].energy == (if features.Some? then features.value.energy else 0.6)
              && r[i].loudness == spans[i].loudness
              && r[i].confidence == (if spans[i].confidence.Some? then spans[i].confidence.value else 0.5)
  {
  }

  /** At most six spans are chosen, loudest first, all taken from the
      input, and none left out is louder than one chosen. */
  lemma LoudestFacts(spans: seq<Span>)
    ensures |Loudest(spans)| == if |spans| < 6 then |spans| else 6
    ensures SortedDesc(Loudest(spans), Loudness)
    ensures multiset(Loudest(spans)) <= multiset(spans)
    ensures forall s, i :: s in multiset(spans) - multiset(Loudest(spans)) && 0 <= i < |Loudest(spans)| ==>
              Loudness(s) <= Loudness(Loudest(spans)[i])
  {
    TopOfSortDesc(spans, Loudness, MaxCandidates);
  }

  /** The candidates of the loudest spans: at most six, in descending
      loudness, each at least the target long. */
  lemma LoudestCandidatesFacts(spans: seq<Span>, stretch: real, features: Option<Features>, target: real)
    ensures var c := CandidatesOf(Loudest(spans), stretch, features, target);
            && |c| == (if |spans| < 6 then |spans| else 6)
            && (forall i, j :: 0 <= i < j < |c| ==> c[i].loudness >= c[j].loudness)
            && (forall i :: 0 <= i < |c| ==> c[i].end - c[i].start >= target)
  {
    var top := Loudest(spans);
    LoudestFacts(spans);
    CandidatesOfFacts(top, stretch, features, target);
    var c := CandidatesOf(top, stretch, features, target);
    forall i, j | 0 <= i < j < |c| ensures c[i].loudness >= c[j].loudness {
      assert Loudness(top[i]) >= Loudness(top[j]);
    }
  }

  /** No analysis or no sections give no candidates. Otherwise there are
      between one and six section candidates in descending loudness, then at
      most six segment candidates, and every candidate is at least the
      target long. */
  lemma CandidatesFacts(analysis: Option<Analysis>, features: Option<Features>, target: real)
    ensures analysis.None? || analysis.value.sections == [] ==> Candidates(analysis, features, target) == []
    ensures analysis.Some? && analysis.value.sections != [] ==>
              var r := Candidates(analysis, features, target);
              var n := |Loudest(analysis.value.sections)|;
              && 1 <= n <= 6 && |r| - n <= 6
              && r[..n] == CandidatesOf(Loudest(analysis.value.sections), SectionStretch, features, target)
              && r[n..] == CandidatesOf(Loudest(analysis.value.segments), SegmentStretch, features, target)
              && (forall i, j :: 0 <= i < j < n ==> r[i].loudness >= r[j].loudness)
              && (forall i :: 0 <= i < |r| ==> r[i].end - r[i].start >= target)
  {
    if analysis.Some? && analysis.value.sections != [] {
      var a := analysis.value;
      var sec := CandidatesOf(Loudest(a.sections), SectionStretch, features, target);
      var seg := CandidatesOf(Loudest(a.segments), SegmentStretch, features, target);
      LoudestCandidatesFacts(a.sections, SectionStretch, features, target);
      LoudestCandidatesFacts(a.segments, SegmentStretch, features, target);
      var r := sec + seg;
      assert r == Candidates(analysis, features, target);
      assert r[..|sec|] == sec && r[|sec|..] == seg;
      forall i, j | 0 <= i < j < |sec| ensures r[i].loudness >= r[j].loudness {
        assert r[i] == sec[i] && r[j] == sec[j];
      }
      forall i | 0 <= i < |r| ensures r[i].end - r[i].start >= target {
        if i < |sec| {
          assert r[i] == sec[i];
        } else {
          assert r[i] == seg[i - |sec|];
        }
      }
    }
  }

  // -----------------------------------------------------------------------
  // dedupeCandidates

  /** The string `${Math.round(start / target * 10) / 10}`. A zero target
      divides to an infinity, or to NaN for a zero start. */
  datatype Key = Tenths(n: int) | PositiveInfinity | NegativeInfinity | NotANumber

  function KeyOf(start: real, target: real): Key
  {
    if target == 0.0 then
      if start > 0.0 then PositiveInfinity else if start < 0.0 then NegativeInfinity else NotANumber
    else Tenths(Round(start / target * 10.0))
  }

  /** Two starts share a key only when they lie less than a tenth of a
      positive target apart, and starts a target-tenth apart never do. */
  lemma SameKeyClose(a: real, b: real, target: real)
    requires target > 0.0
    ensures KeyOf(a, target) == KeyOf(b, target) ==> Abs(a - b) * 10.0 < target
    ensures Abs(a - b) * 10.0 >= target ==> KeyOf(a, target) != KeyOf(b, target)
  {
    if KeyOf(a, target) == KeyOf(b, target) {
      var x, y := a / target * 10.0, b / target * 10.0;
      assert Round(x) == Round(y);
      assert -1.0 < x - y < 1.0;
      assert x - y == (a - b) * 10.0 / target;
      if a >= b {
        assert Abs(a - b) * 10.0 / target == x - y;
      } else {
        assert Abs(a - b) * 10.0 / target == y - x by {
          assert Abs(a - b) == b - a;
          assert y - x == (b - a) * 10.0 / target;
        }
      }
      DivideLess(Abs(a - b) * 10.0, target);
    }
  }

  lemma DivideLess(p: real, q: real)
    requires q > 0.0 && p / q < 1.0
    ensures p < q
  {
    assert p == (p / q) * q;
  }

  /** The key of a candidate. */
  function KeyFor(target: real): SegmentCandidate -> Key
  {
    (c: SegmentCandidate) => KeyOf(c.start, target)
  }

  /** The candidates kept from `cs` when the keys in `seen` are taken. */
  function DedupeFrom(cs: seq<SegmentCandidate>, seen: set<Key>, key: SegmentCandidate -> Key): seq<SegmentCandidate>
    decreases |cs|
  {
    if cs == [] then []
    else if key(cs[0]) in seen then DedupeFrom(cs[1..], seen, key)
    else [cs[0]] + DedupeFrom(cs[1..], seen + {key(cs[0])}, key)
  }

  function Dedupe(cs: seq<SegmentCandidate>, target: real): seq<SegmentCandidate>
  {
    DedupeFrom(cs, {}, KeyFor(target))
  }

  /** `r` is `s` with some elements left out, in order. */
  ghost predicate Subsequence<T>(r: seq<T>, s: seq<T>)
    decreases |s|
  {
    r == [] || (s != [] && ((r[0] == s[0] && Subsequence(r[1..], s[1..])) || Subsequence(r, s[1..])))
  }

  lemma {:induction false} DedupeSubsequence(cs: seq<SegmentCandidate>, seen: set<Key>, key: SegmentCandidate -> Key)
    ensures Subsequence(DedupeFrom(cs, seen, key), cs)
    decreases |cs|
  {
    if cs != [] {
      var k := key(cs[0]);
      if k in seen {
        DedupeSubsequence(cs[1..], seen, key);
      } else {
        DedupeSubsequence(cs[1..], seen + {k}, key);
        assert DedupeFrom(cs, seen, key)[1..] == DedupeFrom(cs[1..], seen + {k}, key);
      }
    }
  }

  lemma {:induction false} DedupeKeysDistinct(cs: seq<SegmentCandidate>, seen: set<Key>, key: SegmentCandidate -> Key)
    ensures forall i :: 0 <= i < |DedupeFrom(cs, seen, key)| ==> key(DedupeFrom(cs, seen, key)[i]) !in seen
    ensures forall i, j :: 0 <= i < j < |DedupeFrom(cs, seen, key)| ==>
              key(DedupeFrom(cs, seen, key)[i]) != key(DedupeFrom(cs, seen, key)[j])
    decreases |cs|
  {
    if cs != [] {
      var k := key(cs[0]);
      if k in seen {
        DedupeKeysDistinct(cs[1..], seen, key);
        assert DedupeFrom(cs, seen, key) == DedupeFrom(cs[1..], seen, key);
      } else {
        var rest := DedupeFrom(cs[1..], seen + {k}, key);
        DedupeKeysDistinct(cs[1..], seen + {k}, key);
        var r := [cs[0]] + rest;
        assert DedupeFrom(cs, seen, key) == r;
        forall i, j | 0 <= i < j < |r| ensures key(r[i]) != key(r[j]) {
          assert r[j] == rest[j - 1];
          assert key(rest[j - 1]) !in seen + {k};
          if i > 0 {
            assert r[i] == rest[i - 1];
          }
        }
        forall i | 0 <= i < |r| ensures key(r[i]) !in seen {
          if i > 0 {
            assert r[i] == rest[i - 1];
            assert key(rest[i - 1]) !in seen + {k};
          }
        }
      }
    }
  }

  lemma {:induction false} DedupeKeepsFirst(cs: seq<SegmentCandidate>, seen: set<Key>, key: SegmentCandidate -> Key, i: nat)
    requires i < |cs| && key(cs[i]) !in seen
    requires forall j :: 0 <= j < i ==> key(cs[j]) != key(cs[i])
    ensures cs[i] in DedupeFrom(cs, seen, key)
    decreases |cs|
  {
    var k := key(cs[0]);
    if i > 0 {
      var seen' := if k in seen then seen else seen + {k};
      assert cs[1..][i - 1] == cs[i];
      forall j | 0 <= j < i - 1 ensures key(cs[1..][j]) != key(cs[1..][i - 1]) {
        assert cs[1..][j] == cs[j + 1];
      }
      DedupeKeepsFirst(cs[1..], seen', key, i - 1);
    }
  }

  /** `dedupeCandidates` keeps candidates in their order and drops some;
      no two kept candidates share a key; and the first candidate of every
      key is kept. */
  lemma DedupeFacts(cs: seq<SegmentCandidate>, target: real)
    ensures Subsequence(Dedupe(cs, target), cs)
    ensures forall i, j :: 0 <= i < j < |Dedupe(cs, target)| ==>
              KeyOf(Dedupe(cs, target)[i].start, target) != KeyOf(Dedupe(cs, target)[j].start, target)
    ensures forall i :: 0 <= i < |cs| && (forall j :: 0 <= j < i ==> KeyOf(cs[j].start, target) != KeyOf(cs[i].start, target))
              ==> cs[i] in Dedupe(cs, target)
  {
    var key := KeyFor(target);
    DedupeSubsequence(cs, {}, key);
    DedupeKeysDistinct(cs, {}, key);
    var d := Dedupe(cs, target);
    forall i, j | 0 <= i < j < |d| ensures KeyOf(d[i].start, target) != KeyOf(d[j].start, target) {
      assert key(d[i]) != key(d[j]);
    }
    forall i | 0 <= i < |cs| && (forall j :: 0 <= j < i ==> KeyOf(cs[j].start, target) != KeyOf(cs[i].start, target))
      ensures cs[i] in Dedupe(cs, target)
    {
      forall j | 0 <= j < i ensures key(cs[j]) != key(cs[i]) {
        assert KeyOf(cs[j].start, target) != KeyOf(cs[i].start, target);
      }
      DedupeKeepsFirst(cs, {}, key, i);
    }
  }

  /** The loop of `dedupeCandidates`, with its `seen` set of keys. */
  method DedupeCandidates(candidates: seq<SegmentCandidate>, target: real) returns (unique: seq<SegmentCandidate>)
    ensures unique == Dedupe(candidates, target)
  {
    var seen: set<Key> := {};
    unique := [];
    for i := 0 to |candidates|
      invariant unique + DedupeFrom(candidates[i..], seen, KeyFor(target)) == Dedupe(candidates, target)
    {
      assert candidates[i..][0] == candidates[i] && candidates[i..][1..] == candidates[i + 1..];
      var key := KeyOf(candidates[i].start, target);
      assert key == KeyFor(target)(candidates[i]);
      if key in seen {
        continue;
      }
      ghost var rest := DedupeFrom(candidates[i + 1..], seen + {key}, KeyFor(target));
      assert (unique + [candidates[i]]) + rest == unique + ([candidates[i]] + rest);
      seen := seen + {key};
      unique := unique + [candidates[i]];
    }
    assert candidates[|candidates|..] == [];
    assert unique + [] == unique;
  }

  // -----------------------------------------------------------------------
  // fetchAudioAnalysisCandidates

  /** The section loop: a candidate per sorted section, stopping once six
      are there. */
  method SectionCandidates(sections: seq<Span>, features: Option<Features>, target: real)
    returns (candidates: seq<SegmentCandidate>)
    ensures candidates == CandidatesOf(Take(sections, MaxCandidates), SectionStretch, features, target)
  {
    candidates := [];
    var i := 0;
    while i < |sections|
      invariant 0 <= i <= |sections| && i < MaxCandidates
      invariant candidates == CandidatesOf(sections[..i], SectionStretch, features, target)
    {
      candidates := candidates + [SpanCandidate(sections[i], SectionStretch, features, target)];
      i := i + 1;
      assert sections[..i] == sections[..i - 1] + [sections[i - 1]];
      if |candidates| >= MaxCandidates {
        break;
      }
    }
    assert sections[..i] == Take(sections, MaxCandidates);
  }

  /** The segment loop: a candidate per loud segment, after those already
      there. */
  method PushSegmentCandidates(candidates: seq<SegmentCandidate>, segments: seq<Span>, features: Option<Features>, target: real)
    returns (r: seq<SegmentCandidate>)
    ensures r == candidates + CandidatesOf(segments, SegmentStretch, features, target)
  {
    r := candidates;
    for k := 0 to |segments|
      invariant r == candidates + CandidatesOf(segments[..k], SegmentStretch, features, target)
    {
      assert segments[..k + 1] == segments[..k] + [segments[k]];
      r := r + [SpanCandidate(segments[k], SegmentStretch, features, target)];
    }
    assert segments[..|segments|] == segments;
  }

  /** `fetchAudioAnalysisCandidates` given the two responses: the sorted
      sections are pushed until six candidates are there, then the six
      loudest segments, and the list is deduplicated. */
  method AnalysisCandidates(analysis: Option<Analysis>, features: Option<Features>, target: real)
    returns (r: seq<SegmentCandidate>)
    ensures r == Dedupe(Candidates(analysis, features, target), target)
  {
    if analysis.None? || |analysis.value.sections| == 0 {
      return [];
    }
    var sections := SortDesc(analysis.value.sections, Loudness);
    var candidates := SectionCandidates(sections, features, target);
    candidates := PushSegmentCandidates(candidates, Loudest(analysis.value.segments), features, target);
    r := DedupeCandidates(candidates, target);
  }
}
