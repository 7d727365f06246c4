/** Lyric alignment on the web app's server side: lyric text is split into
    trimmed lines, each line is timed either from a word-level transcript
    (the whisper path, searched forward with a cursor) or from the detected
    beats (the beat path), and the resulting lines are snapped onto beats. */
module Lyrics {
  import opened Common

  // -----------------------------------------------------------------------
  // Characters

  /** The characters JavaScript's `\s` and `String.prototype.trim` treat as
      white space or line terminators. */
  predicate IsSpace(c: char)
  {
    c == ' ' || c == '\t' || c == '\n' || c == '\U{000B}' || c == '\U{000C}' || c == '\r'
    || c == '\U{00A0}' || c == '\U{1680}' || '\U{2000}' <= c <= '\U{200A}'
    || c == '\U{2028}' || c == '\U{2029}' || c == '\U{202F}' || c == '\U{205F}'
    || c == '\U{3000}' || c == '\U{FEFF}'
  }

  /** The characters a sanitised token may hold: `[a-z0-9 ']`. */
  predicate TokenChar(c: char)
  {
    'a' <= c <= 'z' || '0' <= c <= '9' || c == ' ' || c == '\''
  }

  /** The characters `/[^a-z0-9\s']/g` keeps. */
  predicate Kept(c: char)
  {
    'a' <= c <= 'z' || '0' <= c <= '9' || IsSpace(c) || c == '\''
  }

  /** `toLowerCase` as far as it matters to the filter that follows it:
      A-Z become a-z, the capital I with dot above becomes "i" followed by a
      combining dot, and the Kelvin sign becomes "k". Every other character
      either lower-cases to a character outside [a-z0-9] or is unchanged. */
  function LowerCase(s: string): string
  {
    if s == [] then []
    else
      var c := s[0];
      var lowered :=
        if 'A' <= c <= 'Z' then [(c as int + 32) as char]
        else if c == '\U{0130}' then ['i', '\U{0307}']
        else if c == '\U{212A}' then ['k']
        else [c];
      lowered + LowerCase(s[1..])
  }

  /** `.replace(/[^a-z0-9\s']/g, "")`. */
  function KeepAllowed(s: string): string
  {
    if s == [] then []
    else if Kept(s[0]) then [s[0]] + KeepAllowed(s[1..])
    else KeepAllowed(s[1..])
  }

  /** The input without its leading white space. */
  function DropSpaces(s: string): (r: string)
    ensures |r| <= |s|
  {
    if s != [] && IsSpace(s[0]) then DropSpaces(s[1..]) else s
  }

  /** What is left is a suffix of the input that does not start with white
      space. */
  lemma {:induction false} DropSpacesFacts(s: string)
    ensures DropSpaces(s) == s[|s| - |DropSpaces(s)|..]
    ensures DropSpaces(s) == [] || !IsSpace(DropSpaces(s)[0])
  {
    if s != [] && IsSpace(s[0]) {
      DropSpacesFacts(s[1..]);
    }
  }

  /** The input without its trailing white space. */
  function DropTrailingSpaces(s: string): string
  {
    if s != [] && IsSpace(s[|s| - 1]) then DropTrailingSpaces(s[..|s| - 1]) else s
  }

  /** What is left is a prefix of the input that does not end with white
      space. */
  lemma {:induction false} DropTrailingSpacesFacts(s: string)
    ensures |DropTrailingSpaces(s)| <= |s| && DropTrailingSpaces(s) == s[..|DropTrailingSpaces(s)|]
    ensures DropTrailingSpaces(s) == [] || !IsSpace(DropTrailingSpaces(s)[|DropTrailingSpaces(s)| - 1])
  {
    if s != [] && IsSpace(s[|s| - 1]) {
      DropTrailingSpacesFacts(s[..|s| - 1]);
    }
  }

  /** `String.prototype.trim`: leading white space goes, then trailing
      white space. */
  function Trim(s: string): string
  {
    if s != [] && IsSpace(s[0]) then Trim(s[1..]) else DropTrailingSpaces(s)
  }

  /** Trimming drops the leading and then the trailing white space. */
  lemma {:induction false} TrimDrops(s: string)
    ensures Trim(s) == DropTrailingSpaces(DropSpaces(s))
  {
    if s != [] && IsSpace(s[0]) {
      TrimDrops(s[1..]);
    }
  }

  /** `.replace(/\s+/g, " ")`: every run of white space becomes one space. */
  function Collapse(s: string): string
    decreases |s|
  {
    if s == [] then []
    else if IsSpace(s[0]) then [' '] + Collapse(DropSpaces(s[1..]))
    else [s[0]] + Collapse(s[1..])
  }

  /** `sanitize`: lower-case, drop everything but letters, digits, white
      space and apostrophes, collapse white space, trim. */
  function Sanitize(s: string): string
  {
    Trim(Collapse(KeepAllowed(LowerCase(s))))
  }

  // -----------------------------------------------------------------------
  // What a sanitised string looks like

  ghost predicate OnlyTokenChars(s: string)
  {
    forall i :: 0 <= i < |s| ==> TokenChar(s[i])
  }

  ghost predicate NoDoubleSpace(s: string)
  {
    forall i :: 0 <= i < |s| - 1 && s[i] == ' ' ==> s[i + 1] != ' '
  }

  ghost predicate Trimmed(s: string)
  {
    s == [] || (!IsSpace(s[0]) && !IsSpace(s[|s| - 1]))
  }

  /** Lower-case letters, digits, apostrophes and single inner spaces. */
  ghost predicate Clean(s: string)
  {
    OnlyTokenChars(s) && NoDoubleSpace(s) && Trimmed(s)
  }

  ghost predicate AllKept(s: string)
  {
    forall i :: 0 <= i < |s| ==> Kept(s[i])
  }

  /** Collapsing starts with the input's first character when that is not
      white space, and a space otherwise. */
  lemma CollapseHead(s: string)
    requires s != []
    ensures Collapse(s) != []
    ensures Collapse(s)[0] == if IsSpace(s[0]) then ' ' else s[0]
  {
  }

  /** Collapsing kept characters leaves only token characters: every run of
      white space has become a plain space. */
  lemma {:induction false} CollapseTokenChars(s: string)
    requires AllKept(s)
    ensures OnlyTokenChars(Collapse(s))
    decreases |s|
  {
    if s != [] {
      var t := if IsSpace(s[0]) then DropSpaces(s[1..]) else s[1..];
      DropSpacesFacts(s[1..]);
      assert AllKept(t) by {
        assert t == s[|s| - |t|..];
        forall i | 0 <= i < |t| ensures Kept(t[i]) {
          assert t[i] == s[|s| - |t| + i];
        }
      }
      CollapseTokenChars(t);
      var head := if IsSpace(s[0]) then ' ' else s[0];
      assert Collapse(s) == [head] + Collapse(t);
      assert TokenChar(head) by {
        assert Kept(s[0]);
      }
    }
  }

  /** Collapsed text never holds two spaces in a row. */
  lemma {:induction false} CollapseNoDoubleSpace(s: string)
    ensures NoDoubleSpace(Collapse(s))
    decreases |s|
  {
    if s != [] {
      var r := Collapse(s);
      var t := if IsSpace(s[0]) then DropSpaces(s[1..]) else s[1..];
      DropSpacesFacts(s[1..]);
      CollapseNoDoubleSpace(t);
      var u := Collapse(t);
      assert r == [r[0]] + u;
      if IsSpace(s[0]) && t != [] {
        CollapseHead(t);
      }
      forall i | 0 <= i < |r| - 1 && r[i] == ' ' ensures r[i + 1] != ' ' {
        assert r[i + 1] == u[i];
        if i > 0 {
          assert r[i] == u[i - 1];
        }
      }
    }
  }

  /** A slice keeps the token characters and the absence of double spaces. */
  lemma SliceKeepsShape(s: string, lo: nat, hi: nat)
    requires lo <= hi <= |s| && OnlyTokenChars(s) && NoDoubleSpace(s)
    ensures OnlyTokenChars(s[lo..hi]) && NoDoubleSpace(s[lo..hi])
  {
    var t := s[lo..hi];
    forall i | 0 <= i < |t| ensures TokenChar(t[i]) {
      assert t[i] == s[lo + i];
    }
    forall i | 0 <= i < |t| - 1 && t[i] == ' ' ensures t[i + 1] != ' ' {
      assert t[i] == s[lo + i] && t[i + 1] == s[lo + i + 1];
    }
  }

  /** The trimmed text is the slice `s[lo..hi]` of its input, with no white
      space at either end. */
  lemma TrimIsSlice(s: string) returns (lo: nat, hi: nat)
    ensures lo <= hi <= |s| && Trim(s) == s[lo..hi]
    ensures Trimmed(Trim(s))
  {
    var d := DropSpaces(s);
    var t := DropTrailingSpaces(d);
    TrimDrops(s);
    DropSpacesFacts(s);
    DropTrailingSpacesFacts(d);
    lo, hi := |s| - |d|, |s| - |d| + |t|;
    assert t == s[lo..hi] by {
      assert d == s[lo..];
      assert t == d[..|t|];
    }
    if t != [] {
      assert t[0] == d[0];
    }
  }

  lemma {:induction false} KeepAllowedKept(s: string)
    ensures AllKept(KeepAllowed(s))
  {
    if s != [] {
      KeepAllowedKept(s[1..]);
    }
  }

  /** Sanitised text is clean. */
  lemma SanitizeIsClean(s: string)
    ensures Clean(Sanitize(s))
  {
    var k := KeepAllowed(LowerCase(s));
    var c := Collapse(k);
    KeepAllowedKept(LowerCase(s));
    CollapseTokenChars(k);
    CollapseNoDoubleSpace(k);
    var lo, hi := TrimIsSlice(c);
    SliceKeepsShape(c, lo, hi);
  }

  lemma {:induction false} LowerCaseKeepsClean(s: string)
    requires OnlyTokenChars(s)
    ensures LowerCase(s) == s
  {
    if s != [] {
      assert OnlyTokenChars(s[1..]) by {
        forall i | 0 <= i < |s[1..]| ensures TokenChar(s[1..][i]) {
          assert s[1..][i] == s[i + 1];
        }
      }
      LowerCaseKeepsClean(s[1..]);
      assert TokenChar(s[0]);
      assert s == [s[0]] + s[1..];
    }
  }

  lemma {:induction false} KeepAllowedKeepsClean(s: string)
    requires OnlyTokenChars(s)
    ensures KeepAllowed(s) == s
  {
    if s != [] {
      assert OnlyTokenChars(s[1..]) by {
        forall i | 0 <= i < |s[1..]| ensures TokenChar(s[1..][i]) {
          assert s[1..][i] == s[i + 1];
        }
      }
      KeepAllowedKeepsClean(s[1..]);
      assert TokenChar(s[0]);
      assert s == [s[0]] + s[1..];
    }
  }

  lemma {:induction false} CollapseKeepsClean(s: string)
    requires OnlyTokenChars(s) && NoDoubleSpace(s)
    ensures Collapse(s) == s
    decreases |s|
  {
    if s != [] {
      SliceKeepsShape(s, 1, |s|);
      var t := s[1..];
      CollapseKeepsClean(t);
      assert s == [s[0]] + t;
      if IsSpace(s[0]) {
        assert TokenChar(s[0]);
        assert t == [] || t[0] != ' ';
        assert t == [] || !IsSpace(t[0]) by {
          if t != [] {
            assert TokenChar(t[0]);
          }
        }
        assert DropSpaces(t) == t;
      }
    }
  }

  /** Sanitising clean text changes nothing. */
  lemma SanitizeKeepsClean(s: string)
    requires Clean(s)
    ensures Sanitize(s) == s
  {
    LowerCaseKeepsClean(s);
    KeepAllowedKeepsClean(s);
    CollapseKeepsClean(s);
    assert DropSpaces(s) == s;
    assert DropTrailingSpaces(s) == s;
  }

  /** `sanitize` yields characters from [a-z0-9 '] only, with no leading,
      trailing or doubled space, and applying it twice is applying it once. */
  lemma SanitizeIdempotent(s: string)
    ensures Clean(Sanitize(s))
    ensures Sanitize(Sanitize(s)) == Sanitize(s)
  {
    SanitizeIsClean(s);
    SanitizeKeepsClean(Sanitize(s));
  }

  // -----------------------------------------------------------------------
  // Lines and tokens

  function TrimAll(parts: seq<string>): (r: seq<string>)
  {
    seq(|parts|, i requires 0 <= i < |parts| => Trim(parts[i]))
  }

  /** `lyrics.split(/\r?\n/).map((line) => line.trim()).filter(Boolean)`.
      Splitting on "\n" alone gives the same lines: a carriage return just
      before a line feed is trailing white space, which trimming removes
      anyway (see `SplitLineBreaksTrimmed`). */
  function LyricLines(lyrics: string): seq<string>
  {
    NonEmpty(TrimAll(Split(lyrics, '\n')))
  }

  /** A carriage return at the end of a piece does not survive the trim. */
  lemma {:induction false} TrimIgnoresCarriageReturn(p: string)
    ensures Trim(p + ['\r']) == Trim(p)
    decreases |p|
  {
    var q := p + ['\r'];
    if p == [] {
      assert DropSpaces(q) == [];
    } else if IsSpace(p[0]) {
      assert q[1..] == p[1..] + ['\r'];
      assert DropSpaces(q) == DropSpaces(q[1..]);
      TrimIgnoresCarriageReturn(p[1..]);
    } else {
      assert DropSpaces(q) == q;
      assert q[..|q| - 1] == p;
      assert DropTrailingSpaces(q) == DropTrailingSpaces(p);
    }
  }

  /** `s.split(/\r?\n/)`: the pieces between line feeds, each piece before a
      line feed losing the one carriage return that ends it. */
  function SplitLineBreaks(s: string): (r: seq<string>)
    ensures |r| == |Split(s, '\n')|
  {
    var pieces := Split(s, '\n');
    seq(|pieces|, i requires 0 <= i < |pieces| =>
      if i < |pieces| - 1 && pieces[i] != [] && pieces[i][|pieces[i]| - 1] == '\r'
      then pieces[i][..|pieces[i]| - 1] else pieces[i])
  }

  /** Trimmed, the pieces of a split on "\r?\n" are the pieces of a split on
      "\n", so `LyricLines` may split on "\n" alone. */
  lemma SplitLineBreaksTrimmed(s: string)
    ensures TrimAll(SplitLineBreaks(s)) == TrimAll(Split(s, '\n'))
    ensures NonEmpty(TrimAll(SplitLineBreaks(s))) == LyricLines(s)
  {
    var pieces := Split(s, '\n');
    var cut := SplitLineBreaks(s);
    forall i | 0 <= i < |pieces| ensures Trim(cut[i]) == Trim(pieces[i]) {
      if cut[i] != pieces[i] {
        assert pieces[i] == cut[i] + ['\r'];
        TrimIgnoresCarriageReturn(cut[i]);
      }
    }
  }

  /** A trimmed piece without a line feed has none either. */
  lemma TrimmedPiece(p: string)
    requires '\n' !in p
    ensures Trimmed(Trim(p)) && '\n' !in Trim(p)
  {
    var lo, hi := TrimIsSlice(p);
  }

  ghost predicate LineShaped(line: string)
  {
    Trimmed(line) && '\n' !in line
  }

  lemma TrimAllShaped(pieces: seq<string>)
    requires forall i :: 0 <= i < |pieces| ==> '\n' !in pieces[i]
    ensures forall j :: 0 <= j < |TrimAll(pieces)| ==> LineShaped(TrimAll(pieces)[j])
  {
    forall j | 0 <= j < |TrimAll(pieces)| ensures LineShaped(TrimAll(pieces)[j]) {
      TrimmedPiece(pieces[j]);
    }
  }

  lemma {:induction false} NonEmptyShaped(parts: seq<string>)
    requires forall j :: 0 <= j < |parts| ==> LineShaped(parts[j])
    ensures forall i :: 0 <= i < |NonEmpty(parts)| ==> NonEmpty(parts)[i] != [] && LineShaped(NonEmpty(parts)[i])
  {
    if parts != [] {
      NonEmptyShaped(parts[1..]);
    }
  }

  /** Lyric lines are non-empty and carry no white space at either end and
      no line feed. */
  lemma LyricLinesShaped(lyrics: string)
    ensures forall i :: 0 <= i < |LyricLines(lyrics)| ==>
              LyricLines(lyrics)[i] != [] && LineShaped(LyricLines(lyrics)[i])
  {
    TrimAllShaped(Split(lyrics, '\n'));
    NonEmptyShaped(TrimAll(Split(lyrics, '\n')));
  }

  /** Empty lyrics give no lines. */
  lemma NoLyricsNoLines()
    ensures LyricLines([]) == []
  {
    assert Split([], '\n') == [[]];
    assert TrimAll([[]]) == [[]];
  }

  /** `sanitize(line).split(" ").filter(Boolean)`. */
  function Tokens(line: string): seq<string>
  {
    NonEmpty(Split(Sanitize(line), ' '))
  }

  // -----------------------------------------------------------------------
  // Substring search

  /** `hay.includes(needle)`. */
  function Includes(hay: string, needle: string): bool
    decreases |hay|
  {
    if needle <= hay then true
    else if hay == [] then false
    else Includes(hay[1..], needle)
  }

  /** `needle` occurs in `hay` at offset `k`. */
  ghost predicate OccursAt(hay: string, needle: string, k: nat)
  {
    k + |needle| <= |hay| && hay[k..k + |needle|] == needle
  }

  /** `includes` holds exactly when the needle occurs at some offset. */
  lemma {:induction false} IncludesOccurs(hay: string, needle: string)
    ensures Includes(hay, needle) <==> exists k: nat :: OccursAt(hay, needle, k)
    decreases |hay|
  {
    if needle <= hay {
      assert OccursAt(hay, needle, 0);
    } else if hay == [] {
    } else {
      IncludesOccurs(hay[1..], needle);
      if exists k: nat :: OccursAt(hay, needle, k) {
        var k: nat :| OccursAt(hay, needle, k);
        assert k != 0;
        assert hay[1..][k - 1..k - 1 + |needle|] == hay[k..k + |needle|];
        assert OccursAt(hay[1..], needle, k - 1);
      }
      if Includes(hay[1..], needle) {
        var k: nat :| OccursAt(hay[1..], needle, k);
        assert hay[1..][k..k + |needle|] == hay[k + 1..k + 1 + |needle|];
        assert OccursAt(hay, needle, k + 1);
      }
    }
  }

  // -----------------------------------------------------------------------
  // Timed lines and transcript words

  /** A lyric line with its time span in seconds and a confidence. */
  datatype AlignedLine = AlignedLine(text: string, start: real, end: real, confidence: real)

  /** A word of the transcript: its text, its time stamps and, when the
      recogniser reports one, its confidence. */
  datatype Word = Word(text: string, start: real, end: real, confidence: Option<real>)

  function Texts(lines: seq<AlignedLine>): (r: seq<string>)
    ensures |r| == |lines|
    ensures forall i :: 0 <= i < |r| ==> r[i] == lines[i].text
  {
    if lines == [] then [] else [lines[0].text] + Texts(lines[1..])
  }

  // -----------------------------------------------------------------------
  // Beat search

  /** The index of the beat nearest `time` among the first `n`; a later beat
      replaces the best one only when it is strictly nearer. */
  function NearestIndex(time: real, beats: seq<real>, n: nat): (k: nat)
    requires 1 <= n <= |beats|
    ensures k < n
  {
    if n == 1 then 0
    else
      var k := NearestIndex(time, beats, n - 1);
      if Abs(time - beats[n - 1]) < Abs(time - beats[k]) then n - 1 else k
  }

  /** The index found is a nearest one, and no earlier beat is as near. */
  lemma {:induction false} NearestIndexIsNearest(time: real, beats: seq<real>, n: nat)
    requires 1 <= n <= |beats|
    ensures var k := NearestIndex(time, beats, n);
            && (forall j :: 0 <= j < n ==> Abs(time - beats[k]) <= Abs(time - beats[j]))
            && (forall j :: 0 <= j < k ==> Abs(time - beats[j]) > Abs(time - beats[k]))
  {
    if n > 1 {
      NearestIndexIsNearest(time, beats, n - 1);
    }
  }

  /** The first index from `from` on whose beat is at or after `time`, or -1. */
  function FirstAtLeast(time: real, beats: seq<real>, from: nat): (k: int)
    ensures k == -1 || from <= k < |beats|
    decreases |beats| - from
  {
    if from >= |beats| then -1
    else if beats[from] >= time then from
    else FirstAtLeast(time, beats, from + 1)
  }

  lemma {:induction false} FirstAtLeastIsFirst(time: real, beats: seq<real>, from: nat)
    ensures var k := FirstAtLeast(time, beats, from);
            && (k == -1 <==> forall j :: from <= j < |beats| ==> beats[j] < time)
            && (k >= 0 ==> beats[k] >= time && forall j :: from <= j < k ==> beats[j] < time)
    decreases |beats| - from
  {
    if from < |beats| && beats[from] < time {
      FirstAtLeastIsFirst(time, beats, from + 1);
    }
  }

  /** `closestBeat(time, beats, searchForward)`. */
  function ClosestBeat(time: real, beats: seq<real>, searchForward: bool): real
  {
    if beats == [] then time
    else if searchForward then
      var k := FirstAtLeast(time, beats, 0);
      if k >= 0 then beats[k] else beats[|beats| - 1]
    else beats[NearestIndex(time, beats, |beats|)]
  }

  /** Without beats the time itself comes back. Otherwise the nearest search
      returns a beat at minimal distance, the earliest of those. */
  lemma ClosestBeatIsNearest(time: real, beats: seq<real>)
    ensures beats == [] ==> ClosestBeat(time, beats, false) == time && ClosestBeat(time, beats, true) == time
    ensures beats != [] ==>
              exists k :: 0 <= k < |beats| && ClosestBeat(time, beats, false) == beats[k]
                && (forall j :: 0 <= j < |beats| ==> Abs(time - beats[k]) <= Abs(time - beats[j]))
                && (forall j :: 0 <= j < k ==> Abs(time - beats[j]) > Abs(time - beats[k]))
  {
    if beats != [] {
      NearestIndexIsNearest(time, beats, |beats|);
      var k := NearestIndex(time, beats, |beats|);
      assert ClosestBeat(time, beats, false) == beats[k];
    }
  }

  /** The forward search returns the first beat at or after the time, or the
      last beat when every beat is earlier. */
  lemma ClosestBeatForward(time: real, beats: seq<real>)
    requires beats != []
    ensures (forall j :: 0 <= j < |beats| ==> beats[j] < time) ==> ClosestBeat(time, beats, true) == beats[|beats| - 1]
    ensures (exists j :: 0 <= j < |beats| && beats[j] >= time) ==>
              exists k :: 0 <= k < |beats| && ClosestBeat(time, beats, true) == beats[k] && beats[k] >= time
                && forall j :: 0 <= j < k ==> beats[j] < time
  {
    FirstAtLeastIsFirst(time, beats, 0);
    var k := FirstAtLeast(time, beats, 0);
    if k >= 0 {
      assert ClosestBeat(time, beats, true) == beats[k];
    }
  }

  /** The loops of `closestBeat`: `beats.find` for the forward search, and
      the scan that keeps the strictly nearer beat otherwise. */
  method SearchClosestBeat(time: real, beats: seq<real>, searchForward: bool) returns (beat: real)
    ensures beat == ClosestBeat(time, beats, searchForward)
  {
    if |beats| == 0 {
      return time;
    }
    if searchForward {
      var i := 0;
      while i < |beats|
        invariant 0 <= i <= |beats|
        invariant FirstAtLeast(time, beats, i) == FirstAtLeast(time, beats, 0)
      {
        if beats[i] >= time {
          return beats[i];
        }
        i := i + 1;
      }
      return beats[|beats| - 1];
    }
    var best := beats[0];
    var bestDistance := Abs(time - best);
    ghost var k := 0;
    for i := 0 to |beats|
      invariant k == NearestIndex(time, beats, if i == 0 then 1 else i)
      invariant best == beats[k] && bestDistance == Abs(time - best)
    {
      var distance := Abs(time - beats[i]);
      if distance < bestDistance {
        best := beats[i];
        bestDistance := distance;
        k := i;
      }
    }
    beat := best;
  }

  // -----------------------------------------------------------------------
  // Snapping

  /** One line of `snapToBeats`: the start moves to the nearest beat, the end
      to the next beat at or after it, capped at the track's duration. */
  function SnapLine(line: AlignedLine, beats: seq<real>, duration: real): AlignedLine
  {
    line.(start := ClosestBeat(line.start, beats, false),
          end := Min(duration, ClosestBeat(line.end, beats, true)))
  }

  /** `snapToBeats`: the lines as they are when there are no beats, and
      otherwise each line snapped, with its text and confidence kept. The
      `??` fallback of the source never applies, since `closestBeat`
      always returns a number. */
  function SnapToBeats(lines: seq<AlignedLine>, beats: seq<real>, duration: real): (r: seq<AlignedLine>)
    ensures |r| == |lines|
    ensures beats == [] ==> r == lines
    ensures forall i :: 0 <= i < |r| ==> r[i].text == lines[i].text && r[i].confidence == lines[i].confidence
    ensures beats != [] ==> forall i :: 0 <= i < |r| ==>
              r[i].start in beats && r[i].end <= duration && (r[i].end == duration || r[i].end in beats)
  {
    if beats == [] then lines
    else seq(|lines|, i requires 0 <= i < |lines| => SnapLine(lines[i], beats, duration))
  }

  /** Beat times that never decrease, as the beat detector reports them. */
  ghost predicate Ascending(beats: seq<real>)
  {
    forall i, j :: 0 <= i < j < |beats| ==> beats[i] <= beats[j]
  }

  /** The nearest beat to a beat is that beat. */
  lemma NearestOfBeat(b: real, beats: seq<real>)
    requires b in beats
    ensures ClosestBeat(b, beats, false) == b
  {
    var j :| 0 <= j < |beats| && beats[j] == b;
    NearestIndexIsNearest(b, beats, |beats|);
    var k := NearestIndex(b, beats, |beats|);
    assert Abs(b - beats[k]) <= Abs(b - beats[j]);
  }

  /** Among ascending beats, the first beat at or after a beat is that
      beat. */
  lemma ForwardOfBeat(b: real, beats: seq<real>)
    requires Ascending(beats) && b in beats
    ensures ClosestBeat(b, beats, true) == b
  {
    var j :| 0 <= j < |beats| && beats[j] == b;
    FirstAtLeastIsFirst(b, beats, 0);
    var k := FirstAtLeast(b, beats, 0);
    assert 0 <= k <= j by {
      assert beats[j] >= b;
    }
    if k < j {
      assert beats[k] <= beats[j];
    }
  }

  /** An end capped at the duration stays capped: some beat lies beyond the
      duration, so the forward search from the duration ends at or beyond
      it. */
  lemma ForwardOfDuration(b: real, beats: seq<real>, duration: real)
    requires b in beats && duration < b
    ensures Min(duration, ClosestBeat(duration, beats, true)) == duration
  {
    var j :| 0 <= j < |beats| && beats[j] == b;
    FirstAtLeastIsFirst(duration, beats, 0);
    var k := FirstAtLeast(duration, beats, 0);
    assert k >= 0 by {
      assert beats[j] >= duration;
    }
  }

  /** Snapping is idempotent over ascending beats: snapped lines snap to
      themselves. */
  lemma SnapIdempotent(lines: seq<AlignedLine>, beats: seq<real>, duration: real)
    requires Ascending(beats)
    ensures SnapToBeats(SnapToBeats(lines, beats, duration), beats, duration) == SnapToBeats(lines, beats, duration)
  {
    if beats != [] {
      var r := SnapToBeats(lines, beats, duration);
      var r2 := SnapToBeats(r, beats, duration);
      forall i | 0 <= i < |lines| ensures r2[i] == r[i] {
        var start := ClosestBeat(lines[i].start, beats, false);
        var end := ClosestBeat(lines[i].end, beats, true);
        assert r[i].start == start && r[i].end == Min(duration, end);
        assert start in beats && end in beats by {
          ClosestBeatIsNearest(lines[i].start, beats);
          ClosestBeatForward(lines[i].end, beats);
        }
        NearestOfBeat(start, beats);
        if end <= duration {
          ForwardOfBeat(end, beats);
        } else {
          ForwardOfDuration(end, beats, duration);
        }
      }
    }
  }

  // -----------------------------------------------------------------------
  // The beat path

  /** The confidence `alignWithBeats` gives every line. */
  const BeatConfidence: real := 0.6

  /** `generateLinearBeats(duration, count)`: count evenly spaced times from 0. */
  function LinearBeats(duration: real, count: nat): (r: seq<real>)
    ensures |r| == count
  {
    if count == 0 then []
    else seq(count, i => i as real * (duration / count as real))
  }

  /** Linear beats start at 0, are a duration/count apart, and for a positive
      duration rise strictly while staying below it. */
  lemma LinearBeatsFacts(duration: real, count: nat)
    ensures count > 0 ==> LinearBeats(duration, count)[0] == 0.0
    ensures forall i :: 0 < i < count ==>
              LinearBeats(duration, count)[i] - LinearBeats(duration, count)[i - 1] == duration / count as real
    ensures duration > 0.0 ==> forall i :: 0 <= i < count ==> 0.0 <= LinearBeats(duration, count)[i] < duration
  {
    if count > 0 {
      LinearBeatsSteps(duration, count);
      if duration > 0.0 {
        LinearBeatsBelow(duration, count);
      }
    }
  }

  /** Consecutive linear beats lie one spacing apart. */
  lemma LinearBeatsSteps(duration: real, count: nat)
    requires count > 0
    ensures forall i :: 0 < i < count ==>
              LinearBeats(duration, count)[i] - LinearBeats(duration, count)[i - 1] == duration / count as real
  {
    var spacing := duration / count as real;
    var r := LinearBeats(duration, count);
    forall i | 0 < i < count ensures r[i] - r[i - 1] == spacing {
      assert r[i] == i as real * spacing && r[i - 1] == (i - 1) as real * spacing;
      StepDifference(i, spacing);
    }
  }

  /** Linear beats of a positive duration lie in [0, duration). */
  lemma LinearBeatsBelow(duration: real, count: nat)
    requires count > 0 && duration > 0.0
    ensures forall i :: 0 <= i < count ==> 0.0 <= LinearBeats(duration, count)[i] < duration
  {
    var r := LinearBeats(duration, count);
    forall i | 0 <= i < count ensures 0.0 <= r[i] < duration {
      assert r[i] == i as real * (duration / count as real);
      ShareBelow(i, count, duration);
    }
  }

  /** Consecutive multiples of a spacing lie one spacing apart. */
  lemma StepDifference(i: nat, spacing: real)
    requires i > 0
    ensures i as real * spacing - (i - 1) as real * spacing == spacing
  {
  }

  /** The i-th of count even shares of a positive duration starts in
      [0, duration). */
  lemma ShareBelow(i: nat, count: nat, duration: real)
    requires i < count && duration > 0.0
    ensures 0.0 <= i as real * (duration / count as real) < duration
  {
    var spacing := duration / count as real;
    assert spacing > 0.0;
    assert spacing * count as real == duration;
    assert duration - i as real * spacing == (count - i) as real * spacing;
    assert (count - i) as real * spacing > 0.0;
  }

  /** The loop of `generateLinearBeats`. */
  method GenerateLinearBeats(duration: real, count: nat) returns (beats: seq<real>)
    ensures beats == LinearBeats(duration, count)
  {
    beats := [];
    if count == 0 {
      return;
    }
    var spacing := duration / count as real;
    for i := 0 to count
      invariant |beats| == i
      invariant forall j :: 0 <= j < i ==> beats[j] == j as real * spacing
    {
      beats := beats + [i as real * spacing];
    }
    assert forall j :: 0 <= j < count ==> LinearBeats(duration, count)[j] == j as real * spacing;
  }

  /** The times `alignWithBeats` allocates lines from: the detected beats,
      or linear beats when there are none. The source slices them to
      `max(lines.length, beats.length)`, which keeps all of them. */
  function Allocations(lines: seq<string>, beats: seq<real>, duration: real): seq<real>
  {
    var available := if beats != [] then beats else LinearBeats(duration, |lines|);
    Take(available, if |lines| > |available| then |lines| else |available|)
  }

  /** Line i as `alignWithBeats` times it before snapping: it starts at
      allocation i and ends at allocation i + 1; past the allocations it
      starts at its even share of the duration and lasts one share, capped
      at the duration. */
  function AllocatedLine(lines: seq<string>, allocations: seq<real>, duration: real, i: nat): (r: AlignedLine)
    requires i < |lines|
    ensures r.text == lines[i] && r.confidence == BeatConfidence
  {
    var share := duration / |lines| as real;
    var start := if i < |allocations| then allocations[i] else share * i as real;
    var end := if i + 1 < |allocations| then allocations[i + 1] else Min(duration, start + share);
    AlignedLine(lines[i], start, end, BeatConfidence)
  }

  /** The lines `alignWithBeats` times before snapping. */
  function Allocate(lines: seq<string>, allocations: seq<real>, duration: real): (r: seq<AlignedLine>)
    ensures |r| == |lines|
    ensures forall i :: 0 <= i < |r| ==> r[i].text == lines[i] && r[i].confidence == BeatConfidence
  {
    seq(|lines|, i requires 0 <= i < |lines| => AllocatedLine(lines, allocations, duration, i))
  }

  lemma NextShare(i: nat, share: real)
    ensures i as real * share + share == (i + 1) as real * share
  {
  }

  /** The last line of an even allocation ends at the duration. */
  lemma LastShare(n: nat, duration: real)
    requires n > 0
    ensures (n - 1) as real * (duration / n as real) + duration / n as real == duration
  {
    var share := duration / n as real;
    NextShare(n - 1, share);
    assert share * n as real == duration;
  }

  /** Line i of an allocation from linear beats spans [i·d/n, (i + 1)·d/n]. */
  lemma EvenLine(lines: seq<string>, duration: real, i: nat)
    requires i < |lines|
    ensures var line := AllocatedLine(lines, LinearBeats(duration, |lines|), duration, i);
            line.start == i as real * (duration / |lines| as real)
            && line.end == (i + 1) as real * (duration / |lines| as real)
  {
    var n := |lines|;
    var share := duration / n as real;
    var alloc := LinearBeats(duration, n);
    var line := AllocatedLine(lines, alloc, duration, i);
    assert alloc[i] == i as real * share;
    if i + 1 < n {
      assert line.end == alloc[i + 1];
    } else {
      LastShare(n, duration);
      assert line.end == Min(duration, alloc[i] + share);
    }
  }

  /** Without detected beats the lines tile the track evenly: line i spans
      [i·d/n, (i + 1)·d/n]. */
  lemma EvenAllocation(lines: seq<string>, duration: real)
    requires lines != []
    ensures var r := Allocate(lines, Allocations(lines, [], duration), duration);
            forall i :: 0 <= i < |r| ==>
              r[i].start == i as real * (duration / |lines| as real)
              && r[i].end == (i + 1) as real * (duration / |lines| as real)
  {
    var alloc := Allocations(lines, [], duration);
    assert alloc == LinearBeats(duration, |lines|);
    forall i | 0 <= i < |lines|
      ensures AllocatedLine(lines, alloc, duration, i).start == i as real * (duration / |lines| as real)
      ensures AllocatedLine(lines, alloc, duration, i).end == (i + 1) as real * (duration / |lines| as real)
    {
      EvenLine(lines, duration, i);
    }
  }

  /** With more detected beats than lines, line i spans from beat i to
      beat i + 1. */
  lemma BeatsAllocation(lines: seq<string>, beats: seq<real>, duration: real)
    requires |beats| > |lines|
    ensures var r := Allocate(lines, Allocations(lines, beats, duration), duration);
            forall i :: 0 <= i < |r| ==> r[i].start == beats[i] && r[i].end == beats[i + 1]
  {
    assert Allocations(lines, beats, duration) == beats;
  }

  /** `alignWithBeats`: one line per lyric line, with its text and the
      confidence 0.6, timed from the allocations and then snapped. */
  method AlignWithBeats(lines: seq<string>, beats: seq<real>, duration: real) returns (aligned: seq<AlignedLine>)
    ensures aligned == SnapToBeats(Allocate(lines, Allocations(lines, beats, duration), duration), beats, duration)
    ensures |aligned| == |lines|
    ensures forall i :: 0 <= i < |aligned| ==> aligned[i].text == lines[i] && aligned[i].confidence == BeatConfidence
  {
    var available := beats;
    if |beats| == 0 {
      available := GenerateLinearBeats(duration, |lines|);
    }
    var allocations := Take(available, if |lines| > |available| then |lines| else |available|);
    var linesTimed := [];
    for i := 0 to |lines|
      invariant |linesTimed| == i
      invariant forall j :: 0 <= j < i ==> linesTimed[j] == AllocatedLine(lines, allocations, duration, j)
    {
      var share := duration / |lines| as real;
      var start := if i < |allocations| then allocations[i] else share * i as real;
      var end := if i + 1 < |allocations| then allocations[i + 1] else Min(duration, start + share);
      linesTimed := linesTimed + [AlignedLine(lines[i], start, end, BeatConfidence)];
    }
    assert linesTimed == Allocate(lines, allocations, duration);
    aligned := SnapToBeats(linesTimed, beats, duration);
  }

  // -----------------------------------------------------------------------
  // Confidence

  /** The numeric confidences of the words, in order. */
  function Confidences(words: seq<Word>): (r: seq<real>)
    ensures r == [] <==> forall i :: 0 <= i < |words| ==> words[i].confidence.None?
  {
    if words == [] then []
    else (if words[0].confidence.Some? then [words[0].confidence.value] else []) + Confidences(words[1..])
  }

  /** `averageConfidence`: null without numeric confidences, their mean
      otherwise. */
  function AverageConfidence(words: seq<Word>): Option<real>
  {
    var values := Confidences(words);
    if values == [] then None else Some(Sum(values) / |values| as real)
  }

  ghost predicate ConfidencesWithin(words: seq<Word>, lo: real, hi: real)
  {
    forall i :: 0 <= i < |words| && words[i].confidence.Some? ==> lo <= words[i].confidence.value <= hi
  }

  lemma {:induction false} ConfidencesBounded(words: seq<Word>, lo: real, hi: real)
    requires ConfidencesWithin(words, lo, hi)
    ensures AllWithin(Confidences(words), lo, hi)
  {
    if words != [] {
      assert ConfidencesWithin(words[1..], lo, hi) by {
        forall i | 0 <= i < |words[1..]| && words[1..][i].confidence.Some?
          ensures lo <= words[1..][i].confidence.value <= hi
        {
          assert words[1..][i] == words[i + 1];
        }
      }
      ConfidencesBounded(words[1..], lo, hi);
    }
  }

  /** The average is absent exactly when no word has a confidence, and lies
      within any bounds every confidence lies within. */
  lemma AverageConfidenceFacts(words: seq<Word>, lo: real, hi: real)
    ensures AverageConfidence(words).None? <==> forall i :: 0 <= i < |words| ==> words[i].confidence.None?
    ensures ConfidencesWithin(words, lo, hi) && AverageConfidence(words).Some? ==>
              lo <= AverageConfidence(words).value <= hi
  {
    if ConfidencesWithin(words, lo, hi) && Confidences(words) != [] {
      ConfidencesBounded(words, lo, hi);
      MeanBounds(Confidences(words), lo, hi);
    }
  }

  // -----------------------------------------------------------------------
  // Token search

  /** A sanitised transcript word matches a sanitised token when either
      contains the other. */
  predicate Matches(word: string, clean: string)
  {
    Includes(word, clean) || Includes(clean, word)
  }

  /** The transcript's words as `findTokenMatch` compares them. */
  function CleanTexts(words: seq<Word>): (r: seq<string>)
    ensures |r| == |words|
  {
    seq(|words|, i requires 0 <= i < |words| => Sanitize(words[i].text))
  }

  /** The least index from `from` on whose word matches, or -1. */
  function FirstMatch(texts: seq<string>, clean: string, from: nat): (k: int)
    ensures k == -1 || from <= k < |texts|
    decreases |texts| - from
  {
    if from >= |texts| then -1
    else if Matches(texts[from], clean) then from
    else FirstMatch(texts, clean, from + 1)
  }

  /** `FirstMatch` finds the least matching index at or after `from`, and -1
      exactly when no word there matches. */
  lemma {:induction false} FirstMatchIsLeast(texts: seq<string>, clean: string, from: nat)
    ensures var k := FirstMatch(texts, clean, from);
            && (k == -1 <==> forall j :: from <= j < |texts| ==> !Matches(texts[j], clean))
            && (k >= 0 ==> Matches(texts[k], clean) && forall j :: from <= j < k ==> !Matches(texts[j], clean))
    decreases |texts| - from
  {
    if from < |texts| && !Matches(texts[from], clean) {
      FirstMatchIsLeast(texts, clean, from + 1);
    }
  }

  /** `findTokenMatch` with its search starting at `max(0, startIndex)`: a
      negative start, which the source passes after an unmatched first
      token, is read as the start of the transcript. */
  method FindTokenMatch(words: seq<Word>, token: string, startIndex: int) returns (index: int)
    ensures index == FirstMatch(CleanTexts(words), Sanitize(token), if startIndex < 0 then 0 else startIndex)
  {
    ghost var texts := CleanTexts(words);
    var clean := Sanitize(token);
    var from: nat := if startIndex < 0 then 0 else startIndex;
    var i := from;
    while i < |words|
      invariant from <= i
      invariant FirstMatch(texts, clean, i) == FirstMatch(texts, clean, from)
      decreases |words| - i
    {
      var word := Sanitize(words[i].text);
      assert word == texts[i];
      if Matches(word, clean) {
        return i;
      }
      i := i + 1;
    }
    return -1;
  }

  /** The outcome of `findTokenMatch` as the source writes it. */
  datatype Search = Found(index: nat) | NotFound | ReadsBeforeFirstWord

  /** `findTokenMatch` as written: from a negative start the loop guard
      `i < words.length` holds (the transcript is never empty here, and -1
      is below even an empty length), so the first iteration reads
      `words[-1]`, which is `undefined`, and taking its `text` throws a
      TypeError. */
  function SearchAsWritten(words: seq<Word>, token: string, startIndex: int): Search
  {
    if startIndex < 0 then ReadsBeforeFirstWord
    else
      var k := FirstMatch(CleanTexts(words), Sanitize(token), startIndex);
      if k < 0 then NotFound else Found(k)
  }

  /** `findTokenMatch` as written. From a start at or after 0 its loop is
      the loop of `FindTokenMatch`; from a negative start the guard
      `i < words.length` holds and the first iteration throws. */
  method FindTokenMatchAsWritten(words: seq<Word>, token: string, startIndex: int) returns (r: Search)
    ensures r == SearchAsWritten(words, token, startIndex)
  {
    if startIndex < 0 {
      return ReadsBeforeFirstWord;
    }
    var index := FindTokenMatch(words, token, startIndex);
    r := if index < 0 then NotFound else Found(index);
  }

  /** A concrete case: with the one-word transcript "a", a line "b a" has
      the unmatched first token "b", so the last token "a" is searched from
      -1. As written that search throws and the whole transcript is
      abandoned for the beat path; the corrected search finds "a" at
      index 0. */
  lemma UnmatchedFirstTokenThrows()
    ensures var words := [Word("a", 0.0, 1.0, None)];
            && FirstMatch(CleanTexts(words), Sanitize("b"), 0) == -1
            && SearchAsWritten(words, "a", -1) == ReadsBeforeFirstWord
            && FirstMatch(CleanTexts(words), Sanitize("a"), 0) == 0
  {
    var words := [Word("a", 0.0, 1.0, None)];
    assert Clean("a") && Clean("b");
    SanitizeKeepsClean("a");
    SanitizeKeepsClean("b");
    assert CleanTexts(words) == ["a"];
    assert !Includes("a", "b") && !Includes("b", "a");
    assert Includes("a", "a");
  }

  // -----------------------------------------------------------------------
  // The whisper path

  /** Which `findTokenMatch` the cursor loop runs: the source's, whose
      search for the last token throws after an unmatched first token, or
      the corrected one, which then searches from the cursor and, for a
      transcript that matches no token at all, gives up on the whole
      request. */
  datatype Lookup = AsWritten | Corrected

  /** What the cursor loop of `alignWithWhisper` makes of one lyric line:
      nothing for a line without tokens, the timed line and the new cursor,
      or the TypeError of a search from -1. */
  datatype Step = Skip | Timed(line: AlignedLine, cursor: nat) | Throws

  /** The confidence of a whisper line whose words report none. */
  const DefaultWhisperConfidence: real := 0.75
  /** The shortest a whisper line is stretched to, in seconds. */
  const MinLineLength: real := 0.25

  /** The timed line for a line of `tokenCount` tokens whose first token
      matched word `s` and whose last token matched word `e` (-1 where
      there was no match): the start is the first word's start (or the beat
      under the cursor, or 0), the end the last word's end (or 0.4 s per
      token, at least 1 s, after the start), stretched to at least 0.25 s
      and capped at the duration; the confidence is the mean over the
      matched words, 0.75 when they report none. */
  function TimedLine(line: string, tokenCount: nat, words: seq<Word>, beats: seq<real>, duration: real,
                     cursor: nat, s: int, e: int): AlignedLine
    requires -1 <= s < |words| && -1 <= e < |words|
  {
    var startTime := if s >= 0 then words[s].start else if cursor < |beats| then beats[cursor] else 0.0;
    var endTime := if e >= 0 then words[e].end else startTime + Max(1.0, tokenCount as real * 0.4);
    var lo := if s < 0 then 0 else s;
    var hi := if s + 1 >= e + 1 then s + 1 else e + 1;
    var confidence := AverageConfidence(words[lo..hi]);
    AlignedLine(line, Max(0.0, startTime), Min(duration, Max(startTime + MinLineLength, endTime)),
                confidence.OrElse(DefaultWhisperConfidence))
  }

  /** One iteration of the cursor loop of `alignWithWhisper`. The first
      token is searched from the cursor. As written, an unmatched first
      token sends the search for the last token to index -1, which throws;
      corrected, that search starts at the cursor. The new cursor is one
      past the last match, or one past the first; the corrected loop keeps
      the cursor where nothing matched instead of resetting it to 0. */
  function WhisperStep(line: string, words: seq<Word>, beats: seq<real>, duration: real, cursor: nat,
                       lookup: Lookup): Step
  {
    var tokens := Tokens(line);
    if tokens == [] then Skip
    else
      var texts := CleanTexts(words);
      var s := FirstMatch(texts, Sanitize(tokens[0]), cursor);
      if s < 0 && lookup.AsWritten? then Throws
      else
        var e := FirstMatch(texts, Sanitize(tokens[|tokens| - 1]), if s < 0 then cursor else s);
        Timed(TimedLine(line, |tokens|, words, beats, duration, cursor, s, e), NextCursor(cursor, s, e))
  }

  /** `Math.max(0, endIndex >= 0 ? endIndex + 1 : startIndex + 1)`, except
      that with neither token matched (which only the corrected search
      reaches) the cursor stays where it was. */
  function NextCursor(cursor: nat, s: int, e: int): nat
  {
    if s < 0 && e < 0 then cursor else MaxInt(0, if e >= 0 then e + 1 else s + 1)
  }

  /** `lines` in front of the lines of `rest`, or None when `rest` is. */
  function Prepend(lines: seq<AlignedLine>, rest: Option<seq<AlignedLine>>): (r: Option<seq<AlignedLine>>)
    ensures r.Some? <==> rest.Some?
    ensures r.Some? ==> |r.value| == |lines| + |rest.value|
                        && r.value[..|lines|] == lines && r.value[|lines|..] == rest.value
  {
    if rest.None? then None else Some(lines + rest.value)
  }

  /** The lines the cursor loop produces from `lines` with the cursor at
      `cursor`, or None when one of its steps throws. */
  function WhisperFrom(lines: seq<string>, words: seq<Word>, beats: seq<real>, duration: real, cursor: nat,
                       lookup: Lookup): Option<seq<AlignedLine>>
    decreases |lines|
  {
    if lines == [] then Some([])
    else
      match WhisperStep(lines[0], words, beats, duration, cursor, lookup)
      case Throws => None
      case Skip => WhisperFrom(lines[1..], words, beats, duration, cursor, lookup)
      case Timed(line, next) => Prepend([line], WhisperFrom(lines[1..], words, beats, duration, next, lookup))
  }

  /** The lines that have at least one sanitised token, in order. */
  function Speakable(lines: seq<string>): seq<string>
  {
    if lines == [] then []
    else if Tokens(lines[0]) == [] then Speakable(lines[1..])
    else [lines[0]] + Speakable(lines[1..])
  }

  /** A whisper line starts at or after 0 and ends by the end of the track. */
  ghost predicate WithinTrack(line: AlignedLine, duration: real)
  {
    line.start >= 0.0 && line.end <= duration
  }

  /** A timed line keeps its text, starts at or after 0, ends by the end of
      the track and has a confidence in [0, 1] when the words' confidences
      are. */
  lemma TimedLineFacts(line: string, tokenCount: nat, words: seq<Word>, beats: seq<real>, duration: real,
                       cursor: nat, s: int, e: int)
    requires -1 <= s < |words| && -1 <= e < |words|
    requires ConfidencesWithin(words, 0.0, 1.0)
    ensures var timed := TimedLine(line, tokenCount, words, beats, duration, cursor, s, e);
            timed.text == line && WithinTrack(timed, duration) && 0.0 <= timed.confidence <= 1.0
  {
    var lo := if s < 0 then 0 else s;
    var hi := if s + 1 >= e + 1 then s + 1 else e + 1;
    var part := words[lo..hi];
    assert ConfidencesWithin(part, 0.0, 1.0) by {
      forall i | 0 <= i < |part| && part[i].confidence.Some?
        ensures 0.0 <= part[i].confidence.value <= 1.0
      {
        assert part[i] == words[lo + i];
      }
    }
    AverageConfidenceFacts(part, 0.0, 1.0);
  }

  /** A line is skipped exactly when it has no tokens, and it throws exactly
      when, as written, its first token matches no word at or after the
      cursor. */
  lemma WhisperStepOutcome(line: string, words: seq<Word>, beats: seq<real>, duration: real, cursor: nat,
                           lookup: Lookup)
    ensures Tokens(line) == [] <==> WhisperStep(line, words, beats, duration, cursor, lookup).Skip?
    ensures WhisperStep(line, words, beats, duration, cursor, lookup).Throws?
            <==> lookup.AsWritten? && Tokens(line) != []
                 && forall j :: cursor <= j < |words| ==> !Matches(CleanTexts(words)[j], Sanitize(Tokens(line)[0]))
  {
    var tokens := Tokens(line);
    if tokens != [] {
      FirstMatchIsLeast(CleanTexts(words), Sanitize(tokens[0]), cursor);
    }
  }

  /** A timed line keeps its text. */
  lemma WhisperStepText(line: string, words: seq<Word>, beats: seq<real>, duration: real, cursor: nat,
                        lookup: Lookup)
    ensures var step := WhisperStep(line, words, beats, duration, cursor, lookup);
            step.Timed? ==> step.line.text == line
  {
  }

  /** A timed line keeps its text, lies within the track and has a
      confidence in [0, 1] when the words' confidences are; the cursor
      never moves back, and as written it moves past the first token's
      match. */
  lemma WhisperStepFacts(line: string, words: seq<Word>, beats: seq<real>, duration: real, cursor: nat,
                         lookup: Lookup)
    requires ConfidencesWithin(words, 0.0, 1.0)
    ensures var step := WhisperStep(line, words, beats, duration, cursor, lookup);
            step.Timed? ==> step.line.text == line && WithinTrack(step.line, duration) && 0.0 <= step.line.confidence <= 1.0
    ensures var step := WhisperStep(line, words, beats, duration, cursor, lookup);
            step.Timed? ==> cursor <= step.cursor && (lookup.AsWritten? ==> cursor < step.cursor)
  {
    var tokens := Tokens(line);
    if tokens != [] {
      var texts := CleanTexts(words);
      var s := FirstMatch(texts, Sanitize(tokens[0]), cursor);
      if !(s < 0 && lookup.AsWritten?) {
        var e := FirstMatch(texts, Sanitize(tokens[|tokens| - 1]), if s < 0 then cursor else s);
        TimedLineFacts(line, |tokens|, words, beats, duration, cursor, s, e);
      }
    }
  }

  /** Where the source's step does not throw, the corrected step is the
      same step. */
  lemma CorrectedStepAgrees(line: string, words: seq<Word>, beats: seq<real>, duration: real, cursor: nat)
    ensures !WhisperStep(line, words, beats, duration, cursor, AsWritten).Throws? ==>
              WhisperStep(line, words, beats, duration, cursor, Corrected)
              == WhisperStep(line, words, beats, duration, cursor, AsWritten)
  {
  }

  /** The corrected cursor loop never throws. */
  lemma {:induction false} CorrectedLoopCompletes(lines: seq<string>, words: seq<Word>, beats: seq<real>,
                                                  duration: real, cursor: nat)
    ensures WhisperFrom(lines, words, beats, duration, cursor, Corrected).Some?
    decreases |lines|
  {
    if lines != [] {
      WhisperStepOutcome(lines[0], words, beats, duration, cursor, Corrected);
      match WhisperStep(lines[0], words, beats, duration, cursor, Corrected)
      case Skip =>
        CorrectedLoopCompletes(lines[1..], words, beats, duration, cursor);
      case Timed(line, next) =>
        CorrectedLoopCompletes(lines[1..], words, beats, duration, next);
    }
  }

  /** Every line starts at or after 0, ends by the end of the track and has
      a confidence in [0, 1]. */
  ghost predicate TimedWithin(timed: seq<AlignedLine>, duration: real)
  {
    forall i :: 0 <= i < |timed| ==> WithinTrack(timed[i], duration) && 0.0 <= timed[i].confidence <= 1.0
  }

  /** The cursor loop, when it does not throw, keeps exactly the lines with
      tokens, in order. */
  lemma {:induction false} WhisperFromTexts(lines: seq<string>, words: seq<Word>, beats: seq<real>, duration: real,
                                            cursor: nat, lookup: Lookup)
    ensures WhisperFrom(lines, words, beats, duration, cursor, lookup).Some? ==>
              Texts(WhisperFrom(lines, words, beats, duration, cursor, lookup).value) == Speakable(lines)
    decreases |lines|
  {
    if lines != [] {
      WhisperStepOutcome(lines[0], words, beats, duration, cursor, lookup);
      WhisperStepText(lines[0], words, beats, duration, cursor, lookup);
      match WhisperStep(lines[0], words, beats, duration, cursor, lookup)
      case Throws =>
      case Skip =>
        WhisperFromTexts(lines[1..], words, beats, duration, cursor, lookup);
      case Timed(line, next) =>
        WhisperFromTexts(lines[1..], words, beats, duration, next, lookup);
        var rest := WhisperFrom(lines[1..], words, beats, duration, next, lookup);
        if rest.Some? {
          assert WhisperFrom(lines, words, beats, duration, cursor, lookup).value == [line] + rest.value;
          assert Texts([line] + rest.value) == [line.text] + Texts(rest.value);
        }
    }
  }

  /** The cursor loop, when it does not throw, times each line within the
      track with a confidence in [0, 1] when the words' confidences are. */
  lemma {:induction false} WhisperFromFacts(lines: seq<string>, words: seq<Word>, beats: seq<real>, duration: real,
                                            cursor: nat, lookup: Lookup)
    requires ConfidencesWithin(words, 0.0, 1.0)
    ensures WhisperFrom(lines, words, beats, duration, cursor, lookup).Some? ==>
              TimedWithin(WhisperFrom(lines, words, beats, duration, cursor, lookup).value, duration)
    decreases |lines|
  {
    if lines != [] {
      WhisperStepFacts(lines[0], words, beats, duration, cursor, lookup);
      match WhisperStep(lines[0], words, beats, duration, cursor, lookup)
      case Throws =>
      case Skip =>
        WhisperFromFacts(lines[1..], words, beats, duration, cursor, lookup);
      case Timed(line, next) =>
        WhisperFromFacts(lines[1..], words, beats, duration, next, lookup);
        var rest := WhisperFrom(lines[1..], words, beats, duration, next, lookup);
        if rest.Some? {
          var all := WhisperFrom(lines, words, beats, duration, cursor, lookup).value;
          assert all == [line] + rest.value;
          forall i | 0 <= i < |all| ensures WithinTrack(all[i], duration) && 0.0 <= all[i].confidence <= 1.0 {
            if i > 0 {
              assert all[i] == rest.value[i - 1];
            }
          }
        }
    }
  }

  /** Wherever the source's loop does not throw, the corrected loop yields
      the same lines. */
  lemma {:induction false} CorrectedLoopAgrees(lines: seq<string>, words: seq<Word>, beats: seq<real>, duration: real,
                                               cursor: nat)
    ensures WhisperFrom(lines, words, beats, duration, cursor, AsWritten).Some? ==>
              WhisperFrom(lines, words, beats, duration, cursor, Corrected)
              == WhisperFrom(lines, words, beats, duration, cursor, AsWritten)
    decreases |lines|
  {
    if lines != [] {
      CorrectedStepAgrees(lines[0], words, beats, duration, cursor);
      match WhisperStep(lines[0], words, beats, duration, cursor, AsWritten)
      case Throws =>
      case Skip =>
        CorrectedLoopAgrees(lines[1..], words, beats, duration, cursor);
      case Timed(line, next) =>
        CorrectedLoopAgrees(lines[1..], words, beats, duration, next);
    }
  }

  /** As written, a transcript in which no word matches the first token of
      any line throws on the first line with tokens: the source's loop
      yields nothing exactly when there is a line to time. */
  lemma {:induction false} UnmatchedTranscriptThrows(lines: seq<string>, words: seq<Word>, beats: seq<real>,
                                                     duration: real, cursor: nat)
    requires forall i, j :: 0 <= i < |lines| && Tokens(lines[i]) != [] && cursor <= j < |words| ==>
               !Matches(CleanTexts(words)[j], Sanitize(Tokens(lines[i])[0]))
    ensures WhisperFrom(lines, words, beats, duration, cursor, AsWritten).None? <==> Speakable(lines) != []
    decreases |lines|
  {
    if lines != [] {
      WhisperStepOutcome(lines[0], words, beats, duration, cursor, AsWritten);
      if Tokens(lines[0]) == [] {
        forall i, j | 0 <= i < |lines[1..]| && Tokens(lines[1..][i]) != [] && cursor <= j < |words|
          ensures !Matches(CleanTexts(words)[j], Sanitize(Tokens(lines[1..][i])[0]))
        {
          assert lines[1..][i] == lines[i + 1];
        }
        UnmatchedTranscriptThrows(lines[1..], words, beats, duration, cursor);
      } else {
        forall j | cursor <= j < |words|
          ensures !Matches(CleanTexts(words)[j], Sanitize(Tokens(lines[0])[0]))
        {
        }
      }
    }
  }

  /** The body of the cursor loop: the two token searches, the times, the
      confidence and the new cursor, or the throw of the second search. */
  method TimeLine(line: string, words: seq<Word>, beats: seq<real>, duration: real, cursor: nat, lookup: Lookup)
    returns (step: Step)
    ensures step == WhisperStep(line, words, beats, duration, cursor, lookup)
  {
    var tokens := Tokens(line);
    if |tokens| == 0 {
      return Skip;
    }
    var startIndex := FindTokenMatch(words, tokens[0], cursor);
    var threw, endIndex := FindLastToken(words, tokens[|tokens| - 1], startIndex, cursor, lookup);
    if threw {
      return Throws;
    }
    step := Timed(TimedLine(line, |tokens|, words, beats, duration, cursor, startIndex, endIndex),
                  NextCursor(cursor, startIndex, endIndex));
  }

  /** The search for a line's last token after its first token matched
      word `startIndex` (-1 for none): as written, from -1 it throws, and
      corrected it starts at the cursor. */
  method FindLastToken(words: seq<Word>, token: string, startIndex: int, cursor: nat, lookup: Lookup)
    returns (threw: bool, endIndex: int)
    requires -1 <= startIndex
    ensures threw <==> lookup.AsWritten? && startIndex < 0
    ensures !threw ==>
              endIndex == FirstMatch(CleanTexts(words), Sanitize(token), if startIndex < 0 then cursor else startIndex)
  {
    if lookup.AsWritten? {
      var search := FindTokenMatchAsWritten(words, token, startIndex);
      match search {
        case ReadsBeforeFirstWord =>
          threw, endIndex := true, -1;
        case NotFound =>
          threw, endIndex := false, -1;
        case Found(k) =>
          threw, endIndex := false, k;
      }
    } else {
      threw := false;
      endIndex := FindTokenMatch(words, token, if startIndex < 0 then cursor else startIndex);
    }
  }

  /** One pass of the cursor loop over the first of the remaining lines:
      whether it threw, and otherwise the line it pushes, if any, and the
      new cursor. */
  method TimeNextLine(rest: seq<string>, words: seq<Word>, beats: seq<real>, duration: real, cursor: nat,
                      lookup: Lookup)
    returns (threw: bool, pushed: seq<AlignedLine>, next: nat)
    requires rest != []
    ensures threw <==> WhisperStep(rest[0], words, beats, duration, cursor, lookup).Throws?
    ensures threw ==> WhisperFrom(rest, words, beats, duration, cursor, lookup).None?
    ensures !threw ==> Prepend(pushed, WhisperFrom(rest[1..], words, beats, duration, next, lookup))
                       == WhisperFrom(rest, words, beats, duration, cursor, lookup)
    ensures |pushed| <= 1
  {
    var step := TimeLine(rest[0], words, beats, duration, cursor, lookup);
    match step {
      case Throws =>
        threw, pushed, next := true, [], cursor;
      case Skip =>
        threw, pushed, next := false, [], cursor;
        var after := WhisperFrom(rest[1..], words, beats, duration, next, lookup);
        if after.Some? {
          assert [] + after.value == after.value;
        }
      case Timed(line, after) =>
        threw, pushed, next := false, [line], after;
    }
  }

  /** No word of the transcript matches the first or the last token of any
      line. */
  predicate NothingMatches(lines: seq<string>, words: seq<Word>)
  {
    forall i, j :: 0 <= i < |lines| && Tokens(lines[i]) != [] && 0 <= j < |words| ==>
      !Matches(CleanTexts(words)[j], Sanitize(Tokens(lines[i])[0]))
      && !Matches(CleanTexts(words)[j], Sanitize(Tokens(lines[i])[|Tokens(lines[i])| - 1]))
  }

  /** The whisper lines of a non-empty transcript: the cursor loop from
      cursor 0, except that the corrected flow yields nothing for a
      transcript that matches no token. */
  function WhisperRun(lines: seq<string>, words: seq<Word>, beats: seq<real>, duration: real, lookup: Lookup)
    : Option<seq<AlignedLine>>
  {
    if lookup.Corrected? && NothingMatches(lines, words) then None
    else WhisperFrom(lines, words, beats, duration, 0, lookup)
  }

  /** The corrected flow yields lines exactly when some token of some line
      matches a word; as written, a transcript matching no token yields
      none whenever some line has tokens. */
  lemma WhisperRunFallsBack(lines: seq<string>, words: seq<Word>, beats: seq<real>, duration: real)
    ensures WhisperRun(lines, words, beats, duration, Corrected).None? <==> NothingMatches(lines, words)
    ensures NothingMatches(lines, words) && Speakable(lines) != [] ==>
              WhisperRun(lines, words, beats, duration, AsWritten).None?
  {
    CorrectedLoopCompletes(lines, words, beats, duration, 0);
    if NothingMatches(lines, words) {
      UnmatchedTranscriptThrows(lines, words, beats, duration, 0);
    }
  }

  /** Wherever the source's run yields lines and some token matches, the
      corrected run yields the same lines. */
  lemma CorrectedRunAgrees(lines: seq<string>, words: seq<Word>, beats: seq<real>, duration: real)
    ensures WhisperRun(lines, words, beats, duration, AsWritten).Some? && !NothingMatches(lines, words) ==>
              WhisperRun(lines, words, beats, duration, Corrected) == WhisperRun(lines, words, beats, duration, AsWritten)
  {
    CorrectedLoopAgrees(lines, words, beats, duration, 0);
  }

  /** `alignWithWhisper` once the transcript is known: null for an empty
      transcript, otherwise the lines of the cursor loop; None also stands
      for the TypeError, which the caller treats as it treats null. The
      corrected flow also answers null for a transcript matching no
      token. */
  method AlignWithWhisper(lines: seq<string>, words: seq<Word>, beats: seq<real>, duration: real, lookup: Lookup)
    returns (timed: Option<seq<AlignedLine>>)
    ensures timed == if words == [] then None else WhisperRun(lines, words, beats, duration, lookup)
  {
    if |words| == 0 {
      return None;
    }
    if lookup.Corrected? && NothingMatches(lines, words) {
      return None;
    }
    var linesTimed := [];
    var cursor: nat := 0;
    var rest := lines;
    while rest != []
      invariant Prepend(linesTimed, WhisperFrom(rest, words, beats, duration, cursor, lookup))
                == WhisperFrom(lines, words, beats, duration, 0, lookup)
      decreases |rest|
    {
      var threw, pushed, next := TimeNextLine(rest, words, beats, duration, cursor, lookup);
      if threw {
        return None;
      }
      PrependTwice(linesTimed, pushed, WhisperFrom(rest[1..], words, beats, duration, next, lookup));
      linesTimed, cursor, rest := linesTimed + pushed, next, rest[1..];
    }
    assert linesTimed + [] == linesTimed;
    return Some(linesTimed);
  }

  /** Prepending twice prepends the concatenation. */
  lemma PrependTwice(first: seq<AlignedLine>, second: seq<AlignedLine>, rest: Option<seq<AlignedLine>>)
    ensures Prepend(first, Prepend(second, rest)) == Prepend(first + second, rest)
  {
    if rest.Some? {
      assert first + (second + rest.value) == (first + second) + rest.value;
    }
  }

  // -----------------------------------------------------------------------
  // alignLyricsToAudio

  /** What the speech recogniser yields for an upload. */
  datatype Transcript =
    | NoMedia                  // the upload has neither an audio nor a video file
    | RecognitionFails         // the pipeline call throws
    | Words(words: seq<Word>)  // `result.chunks ?? []`

  /** Whether whisper could be loaded, and what it made of the upload. */
  datatype Recogniser = WhisperOff | WhisperOn(transcript: Transcript)

  datatype AlignmentModel = BeatModel | WhisperModel

  /** The aligner's answer: the timed lines, the track's duration and the
      path that produced them. */
  datatype Alignment = Alignment(lines: seq<AlignedLine>, duration: real, model: AlignmentModel)

  /** The whisper lines for a transcript, or None when the whisper path has
      nothing to offer (no media, a failing pipeline, no words, a throwing
      token search). */
  function WhisperLines(lines: seq<string>, transcript: Transcript, beats: seq<real>, duration: real,
                        lookup: Lookup): Option<seq<AlignedLine>>
  {
    match transcript
    case NoMedia => None
    case RecognitionFails => None
    case Words(words) => if words == [] then None else WhisperRun(lines, words, beats, duration, lookup)
  }

  /** The beat-path lines for the lyric lines. */
  function BeatLines(lines: seq<string>, beats: seq<real>, duration: real): seq<AlignedLine>
  {
    SnapToBeats(Allocate(lines, Allocations(lines, beats, duration), duration), beats, duration)
  }

  /** `alignLyricsToAudio`, given the analysis' beats and duration, what
      the recogniser produced, and which token search the cursor loop runs
      (`AsWritten` is the source). No lyric lines give no timed lines,
      labelled whisper when the recogniser is loaded. Otherwise the whisper
      lines, snapped to the beats, win when there are any, and the beat
      path answers in every other case, a thrown error included. */
  method AlignLyricsToAudio(lyrics: string, beats: seq<real>, duration: real, recogniser: Recogniser, lookup: Lookup)
    returns (result: Alignment)
    ensures result.duration == duration
    ensures LyricLines(lyrics) == [] ==>
              result.lines == [] && (result.model == WhisperModel <==> recogniser.WhisperOn?)
    ensures LyricLines(lyrics) != [] && recogniser.WhisperOn?
            && WhisperLines(LyricLines(lyrics), recogniser.transcript, beats, duration, lookup).Some? ==>
              result.model == WhisperModel
              && result.lines == SnapToBeats(WhisperLines(LyricLines(lyrics), recogniser.transcript, beats, duration, lookup).value,
                                             beats, duration)
    ensures LyricLines(lyrics) != [] && !(recogniser.WhisperOn?
            && WhisperLines(LyricLines(lyrics), recogniser.transcript, beats, duration, lookup).Some?) ==>
              result.model == BeatModel && result.lines == BeatLines(LyricLines(lyrics), beats, duration)
  {
    var lines := NonEmpty(TrimAll(Split(lyrics, '\n')));
    if |lines| == 0 {
      return Alignment([], duration, if recogniser.WhisperOn? then WhisperModel else BeatModel);
    }
    if recogniser.WhisperOn? {
      match recogniser.transcript
      case Words(words) =>
        var whisperLines := AlignWithWhisper(lines, words, beats, duration, lookup);
        if whisperLines.Some? {
          return Alignment(SnapToBeats(whisperLines.value, beats, duration), duration, WhisperModel);
        }
      case NoMedia =>
      case RecognitionFails =>
    }
    var aligned := AlignWithBeats(lines, beats, duration);
    return Alignment(aligned, duration, BeatModel);
  }

  /** A concrete case of the throw: the lyrics "b a" against the one-word
      transcript "a". The first token "b" matches nothing, so as written the
      search for "a" starts at -1 and throws, and the whole request takes
      the beat path; the corrected search finds "a" at the cursor and the
      line is timed from the transcript. */
  lemma ThrowingLineFallsBack()
    ensures var words := [Word("a", 0.0, 1.0, None)];
            && LyricLines("b a") == ["b a"]
            && WhisperLines(["b a"], Words(words), [], 10.0, AsWritten).None?
            && WhisperLines(["b a"], Words(words), [], 10.0, Corrected).Some?
  {
    var words := [Word("a", 0.0, 1.0, None)];
    LyricLinesOfOneLine();
    TokensOfOneLine();
    UnmatchedFirstTokenThrows();
    assert !NothingMatches(["b a"], words) by {
      assert Tokens(["b a"][0]) == ["b", "a"];
      assert Matches(CleanTexts(words)[0], Sanitize(Tokens(["b a"][0])[1]));
    }
  }

  /** The lyrics "b a" are the one line "b a". */
  lemma LyricLinesOfOneLine()
    ensures LyricLines("b a") == ["b a"]
  {
    assert "b a"[1..] == " a" && " a"[1..] == "a" && "a"[1..] == [];
    assert ['a'] + [] == "a" && [' '] + "a" == " a" && ['b'] + " a" == "b a";
    assert Split("a", '\n') == ["a"];
    assert Split(" a", '\n') == [" a"];
    assert Split("b a", '\n') == ["b a"];
    assert Trim("b a") == "b a";
  }

  /** The line "b a" has the tokens "b" and "a". */
  lemma TokensOfOneLine()
    ensures Tokens("b a") == ["b", "a"]
  {
    assert Clean("b a");
    SanitizeKeepsClean("b a");
    assert Split("a", ' ') == ["a"] && Split(" a", ' ') == ["", "a"] by {
      assert " a"[1..] == "a" && "a"[1..] == [];
    }
    assert Split("b a", ' ') == [['b'] + ""] + ["a"] by {
      assert "b a"[1..] == " a";
    }
    assert ['b'] + "" == "b";
  }

  /** The concrete case through `alignLyricsToAudio`: as written the
      request answers with the beat model, corrected with the whisper
      model. */
  method FallbackExample() returns (asWritten: Alignment, corrected: Alignment)
    ensures asWritten.model == BeatModel && corrected.model == WhisperModel
  {
    ThrowingLineFallsBack();
    var recogniser := WhisperOn(Words([Word("a", 0.0, 1.0, None)]));
    asWritten := AlignLyricsToAudio("b a", [], 10.0, recogniser, AsWritten);
    corrected := AlignLyricsToAudio("b a", [], 10.0, recogniser, Corrected);
  }
}
