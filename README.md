# bratgen core, modelled in Dafny

bratgen turns an uploaded video into a short "brat"-style clip. It finds
the strongest segment of the track, aligns lyric lines to it and renders
the result with the music mixed in. This project models the logic of that
pipeline and proves properties of it:

- **Segment scoring** (`SegmentScorer`, from `packages/analysis`).
  Each candidate window gets a weighted score from its energy, its
  normalised loudness, its beat confidence and how well its length fits the
  target. `selectBestSegment` keeps the first best window within the
  duration bounds.
- **Local audio analysis** (`AudioAnalysis`). This covers the waveform
  peaks, energy-based beat detection with its 120 bpm fallback grid, the
  tempo estimate, the mean energy, the twelve-bucket chroma vector and the
  scoring of sliding windows into the eight best segment candidates.
- **Spotify candidates** (`Spotify`). The loudest sections and segments of
  Spotify's audio analysis become candidate windows. Candidates whose
  start falls on the same tenth of the target length are dropped after
  the first.
- **Lyric alignment** (`Lyrics`):
  - lyric text is split into trimmed lines;
  - lines are timed from a word-level transcript, searched forward with a
    cursor (the whisper path), or spread over the detected beats (the beat
    path);
  - the whisper path is modelled as written, including the TypeError its
    token search throws after an unmatched first token, and, beside it,
    with that search corrected (see "## Findings");
  - the result is snapped onto beats.
- **Render jobs**:
  - `Renders` covers the manifest files, the merge of partial updates, the
    output paths and the download URL.
  - `RenderQueue` covers the worker that walks a job through processing,
    the in-memory queue that drains jobs in order, and the public view of
    a job.
- **Record store** (`Datastore`). Named tables of records keyed by id, held
  in memory and written back to disk after each change.
- **Client logic** (`Shell`). The beat-synchronised music-gain automation
  sent with a render request, and the lines and words shown when no
  alignment is available.

`Common` holds shared definitions used by the other modules:

- `Math.round` and `Math.ceil`;
- sums and means;
- `String.prototype.split`;
- a stable descending insertion sort standing in for `Array.prototype.sort`
  with a numeric comparator;
- `slice(0, n)`.

Numbers are modelled as mathematical reals and integers. Files, the clock,
generated ids, the encoder and the speech recogniser become parameters of
the operations that use them.

Files and the state they change:

- An operation that updates stored state is a method on a class:
  `Renders.ManifestStore`, `Datastore.RecordStore` and
  `RenderQueue.InMemoryRenderQueue`.
- Each such method is proved against a function that specifies the new
  state.
- Loops in the source are `while`/`for` loops with invariants, each proved
  equal to a recursive or comprehension definition.
- The properties are lemmas about those definitions.

## Model

| member | source | states |
|---|---|---|
| Common.Round | apps/web/app/api/_lib/analysis.ts:176 | `Math.round`: the integer within half a unit of x, halves rounding up |
| Common.Ceil | apps/web/app/api/_lib/analysis.ts:43 | `Math.ceil`: the least integer at or above x |
| Common.Sum | apps/web/app/api/_lib/analysis.ts:180 | the left-to-right sum of `reduce((acc, v) => acc + v, 0)`: 0 for no values, otherwise the sum of the values before the last plus the last |
| Common.SumBounds | apps/web/app/api/_lib/analysis.ts:180 | a sum of values that all lie in [lo, hi] lies between the count times lo and the count times hi |
| Common.MeanBounds | apps/web/app/api/_lib/lyrics.ts:221 | the mean of a non-empty list of values in [lo, hi] lies in [lo, hi] |
| Common.MeanWithin | apps/web/app/api/_lib/lyrics.ts:218-221 | for any non-empty list: if all its values lie in [lo, hi], so does the mean |
| Common.Split | apps/web/app/api/_lib/lyrics.ts:52 | `split` on a one-character separator: at least one piece, and no piece holds the separator |
| Common.JoinSplit | apps/web/app/api/_lib/lyrics.ts:52 | splitting loses nothing: joining the pieces with the separator gives back the input |
| Common.NonEmpty | apps/web/app/api/_lib/lyrics.ts:54 | `filter(Boolean)` on strings: the non-empty strings of the list, in order |
| Common.NonEmptyFacts | apps/web/app/api/_lib/lyrics.ts:54 | filtering keeps at most as many pieces, every kept piece is non-empty and from the input, and every non-empty input piece is kept |
| Common.InsertDesc | apps/web/app/api/_lib/analysis.ts:234 | one insertion step of the stable descending sort: x goes in front of the first element whose key does not exceed its own |
| Common.InsertDescFacts | apps/web/app/api/_lib/analysis.ts:234 | inserting into a descending list adds exactly x to the multiset and keeps the list descending |
| Common.SortDesc | apps/web/app/api/_lib/analysis.ts:233-234 | `sort((a, b) => key(b) - key(a))`: a descending insertion sort, stable as SortDescStable proves |
| Common.WithKey | apps/web/app/api/_lib/analysis.ts:234 | the elements of one key, in order: what a stable sort must leave unchanged |
| Common.InsertDescWithKey | apps/web/app/api/_lib/analysis.ts:234 | inserting x puts it ahead of the elements of the same key and keeps their order |
| Common.SortDescStable | apps/web/app/api/_lib/analysis.ts:233-234 | stability: for every key, the elements with that key come out of the sort in their input order |
| Common.WithKeyPrefix | apps/web/app/api/_lib/analysis.ts:235 | a prefix keeps, of each key, a prefix of that key's elements |
| Common.SortDescFacts | apps/web/app/api/_lib/analysis.ts:233-234 | the sort is a permutation of the input (same length, same multiset) in descending order of key |
| Common.Take | apps/web/app/api/_lib/analysis.ts:235 | `slice(0, n)`: the first n elements, or all of them when there are fewer |
| Common.PrefixOfSorted | apps/web/app/api/_lib/analysis.ts:233-235 | a prefix of a descending list is descending, the list splits into the prefix and the rest, and nothing after the prefix has a larger key than anything in it |
| Common.TopOfSortDesc | apps/web/app/api/_lib/analysis.ts:233-235 | the first n of a descending sort: min(n, length) elements, descending, drawn from the input, and no element left out has a larger key than one kept |
| Common.TopOfSortDescStable | apps/web/app/api/_lib/analysis.ts:233-235 | the first n of the sort keep, of each key, the earliest elements of that key in input order, so among ties the first ones are kept |
| SegmentScorer.Normalize | packages/analysis/src/index.ts:83-86 | loudness maps into [0, 1]: 0 at or below -60 dB, 1 at or above 0 dB, linear in between |
| SegmentScorer.NormalizeMonotone | packages/analysis/src/index.ts:83-86 | a louder input never normalises lower |
| SegmentScorer.Duration | packages/analysis/src/index.ts:69 | a candidate lasts from its start to its end: `end - start` |
| SegmentScorer.MinimumDuration | packages/analysis/src/index.ts:34 | the lower bound: the given minimum, or 0.8 times the target when none is given |
| SegmentScorer.MaximumDuration | packages/analysis/src/index.ts:34 | the upper bound: the given maximum, or 1.2 times the target when none is given |
| SegmentScorer.InBounds | packages/analysis/src/index.ts:67-72 | a candidate is scored only when its length lies within the minimum and maximum duration, both inclusive |
| SegmentScorer.DurationFit | packages/analysis/src/index.ts:74 | the fit lies in [0, 1], is 1 exactly at the target length and 0 exactly when the length is off by at least the target |
| SegmentScorer.DurationFitCloserIsBetter | packages/analysis/src/index.ts:74 | a length closer to the target fits at least as well |
| SegmentScorer.WeightedScore | packages/analysis/src/index.ts:75-80 | the weighted sum of energy, normalised loudness, confidence and duration fit |
| SegmentScorer.WeightedScoreMonotone | packages/analysis/src/index.ts:75-80 | with non-negative weights the weighted sum grows with every feature |
| SegmentScorer.ScoreCandidate | packages/analysis/src/index.ts:61-81 | the score is null exactly when the window's length is outside [min, max], the bounds defaulting to 0.8 and 1.2 times the target |
| SegmentScorer.ScoreInUnitInterval | packages/analysis/src/index.ts:23-28 | with the default weights and features in [0, 1], an in-bounds score lies in [0, 1] |
| SegmentScorer.ScoreMonotone | packages/analysis/src/index.ts:75-80 | for the same window, more energy, loudness and confidence never score lower, and both are scored or neither |
| SegmentScorer.ScoreFavoursFit | packages/analysis/src/index.ts:74-80 | of two windows with equal features, the one closer to the target length scores at least as high |
| SegmentScorer.IsFirstBest | packages/analysis/src/index.ts:30-59 | what the selector owes: nothing when no candidate is in bounds, otherwise the first candidate of highest score, with that score, tagged spotify |
| SegmentScorer.SelectBestSegment | packages/analysis/src/index.ts:30-59 | the result is null when no candidate is in bounds, otherwise the first candidate of the highest score, reported with its score and source "spotify" |
| SegmentScorer.SelectionIsUnique | packages/analysis/src/index.ts:30-59 | the selector's contract determines a single result |
| SegmentScorer.SelectionInBounds | packages/analysis/src/index.ts:30-59 | a selected window's length lies within the duration bounds |
| SegmentScorer.EmptySelectsNothing | packages/analysis/src/index.ts:36-38 | no candidates select nothing |
| SegmentScorer.ThreeCandidatesPickSecond | packages/analysis/tests/selectBestSegment.test.ts:5-16 | of the windows 0–20, 25–55 and 60–90 with a 30 s target, 25–55 is selected (0–20 is out of bounds) |
| SegmentScorer.TooShortSelectsNothing | packages/analysis/tests/selectBestSegment.test.ts:18-24 | a lone 5 s window with a 30 s target selects nothing |
| SegmentScorer.SingleScorePositive | packages/analysis/tests/selectBestSegment.test.ts:26-30 | the 10–40 window of the test has a positive score |
| AudioAnalysis.WaveformBinCount | apps/web/app/api/_lib/analysis.ts:43 | the bin count is twelve per second rounded up, capped at 720, and at least 1 for a positive duration |
| AudioAnalysis.PeakAbs | apps/web/app/api/_lib/analysis.ts:128-134 | the peak of the inner loop: 0 for no samples, otherwise the largest absolute value |
| AudioAnalysis.BinPeak | apps/web/app/api/_lib/analysis.ts:126-135 | bin i of the waveform: the peak over the samples from `i * binSize` up to `min(total, start + binSize)`, 0 for an empty range |
| AudioAnalysis.PeakAbsIsMaximum | apps/web/app/api/_lib/analysis.ts:128-135 | the bin peak bounds every magnitude in the bin and is one of them, or 0 for an empty bin |
| AudioAnalysis.ScanPeak | apps/web/app/api/_lib/analysis.ts:128-135 | the inner loop computes the largest magnitude of the bin's samples |
| AudioAnalysis.BuildWaveform | apps/web/app/api/_lib/analysis.ts:121-138 | one value per bin, each the bin's peak magnitude clamped to 1, so every value lies in [0, 1] |
| AudioAnalysis.SumSquares | apps/web/app/api/_lib/analysis.ts:145-149 | the sum of the squares of the window's samples |
| AudioAnalysis.WindowTime | apps/web/app/api/_lib/analysis.ts:152 | the time of window k: its first sample's offset divided by the sample rate |
| AudioAnalysis.LoudWindow | apps/web/app/api/_lib/analysis.ts:146-153 | window k exists and its mean square exceeds 0.04, that is its RMS exceeds 0.2 |
| AudioAnalysis.PrevBeat | apps/web/app/api/_lib/analysis.ts:143-155 | the last beat recorded before time t, 0 when there is none, as `lastPeak` holds it |
| AudioAnalysis.WindowTimeMonotone | apps/web/app/api/_lib/analysis.ts:144-152 | later detection windows start later |
| AudioAnalysis.PrevBeatAppendLater | apps/web/app/api/_lib/analysis.ts:153-156 | a beat appended after time t does not change the beat in effect at t |
| AudioAnalysis.PrevBeatAtMost | apps/web/app/api/_lib/analysis.ts:153-156 | the beat in effect is bounded by any bound on the beats and 0 |
| AudioAnalysis.PrevBeatIsLast | apps/web/app/api/_lib/analysis.ts:153-156 | when every beat is earlier than t, the beat in effect at t is the last one (`lastPeak`) |
| AudioAnalysis.PrevBeatPrefix | apps/web/app/api/_lib/analysis.ts:153-156 | beats at or after t never affect the beat in effect at t |
| AudioAnalysis.PrevBeatOfBeat | apps/web/app/api/_lib/analysis.ts:153-156 | the beat in effect at beat i is beat i - 1, or 0 for the first |
| AudioAnalysis.WindowTimeNonNegative | apps/web/app/api/_lib/analysis.ts:152 | window times are never negative |
| AudioAnalysis.DetectionGap | apps/web/app/api/_lib/analysis.ts:153 | each detected beat is more than 0.3 s after the previous, or after time 0 |
| AudioAnalysis.DetectionSpacing | apps/web/app/api/_lib/analysis.ts:153 | the first beat is later than 0.3 s and consecutive beats are more than 0.3 s apart |
| AudioAnalysis.IsDetection | apps/web/app/api/_lib/analysis.ts:144-157 | the beats the energy loop records: increasing, and exactly the times of the loud windows more than 0.3 s after the previous recorded beat |
| AudioAnalysis.Quiet | apps/web/app/api/_lib/analysis.ts:153 | no loud window lies more than 0.3 s into the track, so the loop records no beat |
| AudioAnalysis.DetectStep | apps/web/app/api/_lib/analysis.ts:144-157 | reading one more window keeps "a loud window is a beat exactly when it is more than 0.3 s after the previous beat" |
| AudioAnalysis.WindowSumSquares | apps/web/app/api/_lib/analysis.ts:147-149 | the inner loop computes the window's sum of squares |
| AudioAnalysis.DetectAdvance | apps/web/app/api/_lib/analysis.ts:144-157 | the detection loop's state is kept by each window read |
| AudioAnalysis.DetectDone | apps/web/app/api/_lib/analysis.ts:144-158 | after the last window the beats are a detection, and empty exactly for a track with no loud window after 0.3 s |
| AudioAnalysis.DetectEnergyBeats | apps/web/app/api/_lib/analysis.ts:141-157 | the beats increase, each is the start of a window with RMS above 0.2, and a loud window is a beat exactly when it starts more than 0.3 s after the previous beat; empty exactly for a quiet track |
| AudioAnalysis.DetectBeats | apps/web/app/api/_lib/analysis.ts:140-165 | a track with a loud window gets its detected beats; a quiet one gets the 120 bpm grid |
| AudioAnalysis.GridCount | apps/web/app/api/_lib/analysis.ts:160 | how many times `t += 0.5` from 0 stays below the duration: none for a non-positive duration, otherwise ceil(2 * duration) |
| AudioAnalysis.FallbackGrid | apps/web/app/api/_lib/analysis.ts:158-163 | the grid has as many points as multiples of 0.5 s below the duration |
| AudioAnalysis.FallbackGridFacts | apps/web/app/api/_lib/analysis.ts:158-163 | every grid point lies below the duration, the grid reaches it, and it starts at 0 for a positive duration |
| AudioAnalysis.TempoOf | apps/web/app/api/_lib/analysis.ts:167-177 | the tempo lies in [0, 6000] bpm, and is the default 120 for fewer than two beats |
| AudioAnalysis.EstimateTempo | apps/web/app/api/_lib/analysis.ts:167-177 | the interval loop and average give 60 over the mean interval (at least 0.01 s), rounded |
| AudioAnalysis.FallbackGridTempo | apps/web/app/api/_lib/analysis.ts:158-177 | the fallback grid measures as 120 bpm |
| AudioAnalysis.ComputeEnergy | apps/web/app/api/_lib/analysis.ts:179-182 | the energy is the waveform's mean, 0 when empty, and in [0, 1] for a waveform in [0, 1] |
| AudioAnalysis.Bucket | apps/web/app/api/_lib/analysis.ts:189 | every sample falls into one of the twelve buckets |
| AudioAnalysis.BucketSum | apps/web/app/api/_lib/analysis.ts:188-191 | a bucket's summed magnitude is never negative |
| AudioAnalysis.ChromaSums | apps/web/app/api/_lib/analysis.ts:184-191 | there are twelve sums, each the summed magnitude of its bucket's samples |
| AudioAnalysis.MaxWith | apps/web/app/api/_lib/analysis.ts:192 | `Math.max(...chroma, 1)` bounds the sums and 1 and is one of them |
| AudioAnalysis.ScaleByMax | apps/web/app/api/_lib/analysis.ts:192-193 | scaling keeps the number of values |
| AudioAnalysis.ScaleByMaxWithin | apps/web/app/api/_lib/analysis.ts:192-193 | scaled non-negative values lie in [0, 1] |
| AudioAnalysis.ScaleByMaxPeak | apps/web/app/api/_lib/analysis.ts:192-193 | unless every value is below 1, the largest scaled value is exactly 1 |
| AudioAnalysis.ScaleByMaxOrder | apps/web/app/api/_lib/analysis.ts:192-193 | scaling keeps the order of the values |
| AudioAnalysis.Chroma | apps/web/app/api/_lib/analysis.ts:184-194 | the chroma vector has twelve entries |
| AudioAnalysis.ChromaFacts | apps/web/app/api/_lib/analysis.ts:184-194 | chroma values lie in [0, 1], peak at 1 unless every sum is below 1, and keep the order of the bucket sums |
| AudioAnalysis.EstimateChroma | apps/web/app/api/_lib/analysis.ts:184-194 | the array loop computes the chroma vector |
| AudioAnalysis.Peak | apps/web/app/api/_lib/analysis.ts:214-220 | `loudPeak`: 0 for no values, otherwise the largest value when that exceeds 0 |
| AudioAnalysis.SecondsPerBin | apps/web/app/api/_lib/analysis.ts:208 | the duration divided by the number of waveform bins |
| AudioAnalysis.PeakWithin | apps/web/app/api/_lib/analysis.ts:214-221 | a window's loud peak lies between 0 and any bound on its bins |
| AudioAnalysis.CountWithin | apps/web/app/api/_lib/analysis.ts:224 | the beats counted in a window are at most all of them |
| AudioAnalysis.WindowBins | apps/web/app/api/_lib/analysis.ts:209 | a window spans at least one bin |
| AudioAnalysis.Hop | apps/web/app/api/_lib/analysis.ts:211 | the hop between windows is at least one bin, so the loop advances |
| AudioAnalysis.WindowSumPeak | apps/web/app/api/_lib/analysis.ts:215-221 | the inner loop gives the sum and the peak of the window's bins |
| AudioAnalysis.ScoreWindow | apps/web/app/api/_lib/analysis.ts:212-231 | the loop body builds the candidate of its window |
| AudioAnalysis.WindowCandidate | apps/web/app/api/_lib/analysis.ts:212-231 | the candidate of the window at `startBin`: its start and capped end time, mean energy over the window, loudness `-6 + peak * -12` and capped beat support |
| AudioAnalysis.WindowsFrom | apps/web/app/api/_lib/analysis.ts:211-232 | the candidates of the windows from `startBin` on, stepping by `max(1, floor(windowBins / 4))` while the window ends before the last bin |
| AudioAnalysis.Windows | apps/web/app/api/_lib/analysis.ts:207-232 | the candidates of all windows, starting at bin 0 |
| AudioAnalysis.SegmentKey | apps/web/app/api/_lib/analysis.ts:234 | the sort key of a candidate: energy plus confidence |
| AudioAnalysis.TopSegments | apps/web/app/api/_lib/analysis.ts:233-235 | the eight candidates with the highest energy plus confidence, highest first, ties in input order (Common.TopOfSortDescStable) |
| AudioAnalysis.IsWindow | apps/web/app/api/_lib/analysis.ts:209-231 | c is the candidate of some window start the loop reaches |
| AudioAnalysis.ScoreSegments | apps/web/app/api/_lib/analysis.ts:196-236 | the result is the eight best of every window's candidate, at most eight and best first; each segment is one window's candidate, with the window's mean bin as energy and −6 − 12·peak as loudness, lies inside the track and has a confidence in [0, 1]; for a waveform in [0, 1] its energy is in [0, 1] and its loudness in [-18, -6] dB |
| AudioAnalysis.WindowsFromAreWindows | apps/web/app/api/_lib/analysis.ts:211-232 | every candidate the window loop pushes is the candidate of a window that ends before the last bin |
| AudioAnalysis.TopSegmentsAreWindows | apps/web/app/api/_lib/analysis.ts:196-236 | each of the eight best is a window's candidate inside the track with a confidence in [0, 1], and for a waveform in [0, 1] has energy in [0, 1] and loudness in [-18, -6] dB |
| AudioAnalysis.BinTimes | apps/web/app/api/_lib/analysis.ts:222-223 | a window that starts before it ends, both before the last bin, lies inside the track |
| AudioAnalysis.WindowCandidateTimes | apps/web/app/api/_lib/analysis.ts:222-226 | a window starts at or after 0 and ends after it starts, within the track |
| AudioAnalysis.WindowCandidateLevels | apps/web/app/api/_lib/analysis.ts:227-229 | for a waveform in [0, 1] a window's energy is in [0, 1] and its loudness between -18 and -6 dB |
| AudioAnalysis.WindowCandidateConfidence | apps/web/app/api/_lib/analysis.ts:224-230 | a window's beat confidence lies in [0, 1] |
| AudioAnalysis.WindowCandidateFacts | apps/web/app/api/_lib/analysis.ts:222-231 | every window candidate has in-track times, energy in [0, 1], loudness in [-18, -6] and confidence in [0, 1] |
| AudioAnalysis.TopSegmentsFacts | apps/web/app/api/_lib/analysis.ts:233-235 | at most eight candidates are kept, in descending energy + confidence, all from the input, and no dropped one ranks above a kept one |
| Spotify.Energy | apps/web/app/api/_lib/spotify.ts:107 | `features?.energy ?? 0.6` |
| Spotify.SpanCandidate | apps/web/app/api/_lib/spotify.ts:102-110 | the candidate of a span: from its start for `max(duration * stretch, target)`, with the track's energy, the span's loudness and its confidence or 0.5 |
| Spotify.CandidatesOf | apps/web/app/api/_lib/spotify.ts:101-110 | one candidate per span |
| Spotify.CandidatesOfFacts | apps/web/app/api/_lib/spotify.ts:102-110 | a candidate starts at its span, lasts max(stretched span, target), and carries the track energy (0.6 without features), the span loudness and its confidence (0.5 by default) |
| Spotify.Loudness | apps/web/app/api/_lib/spotify.ts:98 | the sort key of a span: its loudness |
| Spotify.Loudest | apps/web/app/api/_lib/spotify.ts:117-120 | the six loudest spans, loudest first, equally loud ones in input order (Common.TopOfSortDescStable) |
| Spotify.LoudestFacts | apps/web/app/api/_lib/spotify.ts:117-120 | at most six spans are chosen, loudest first, from the input, and none left out is louder than one chosen |
| Spotify.LoudestCandidatesFacts | apps/web/app/api/_lib/spotify.ts:98-133 | the candidates of the loudest spans number at most six, descend in loudness and last at least the target |
| Spotify.Candidates | apps/web/app/api/_lib/spotify.ts:94-133 | no candidates without an analysis or without sections; otherwise the candidates of the six loudest sections, then those of the six loudest segments |
| Spotify.CandidatesFacts | apps/web/app/api/_lib/spotify.ts:94-133 | no analysis or no sections give no candidates; otherwise one to six section candidates in descending loudness, then at most six segment candidates, all at least the target long |
| Spotify.KeyOf | apps/web/app/api/_lib/spotify.ts:142 | the dedupe key: `start / target` rounded to tenths, or an infinity or NaN for a zero target |
| Spotify.KeyFor | apps/web/app/api/_lib/spotify.ts:142 | the key of a candidate for a given target |
| Spotify.SameKeyClose | apps/web/app/api/_lib/spotify.ts:142 | two starts share a key only when less than a tenth of a positive target apart |
| Spotify.DedupeFrom | apps/web/app/api/_lib/spotify.ts:141-148 | the candidates the loop keeps when the keys in `seen` are taken: each candidate whose key is new, in order, adding its key |
| Spotify.Dedupe | apps/web/app/api/_lib/spotify.ts:138-150 | `dedupeCandidates`: the loop started with an empty set |
| Spotify.DedupeSubsequence | apps/web/app/api/_lib/spotify.ts:138-150 | deduplication keeps candidates in order and only drops some |
| Spotify.DedupeKeysDistinct | apps/web/app/api/_lib/spotify.ts:138-150 | no two kept candidates share a key, nor any key already seen |
| Spotify.DedupeKeepsFirst | apps/web/app/api/_lib/spotify.ts:138-150 | the first candidate of each unseen key is kept |
| Spotify.DedupeFacts | apps/web/app/api/_lib/spotify.ts:138-150 | `dedupeCandidates` keeps a subsequence with pairwise distinct keys that contains the first candidate of every key |
| Spotify.DedupeCandidates | apps/web/app/api/_lib/spotify.ts:138-150 | the loop with its `seen` set computes the deduplication |
| Spotify.SectionCandidates | apps/web/app/api/_lib/spotify.ts:99-114 | the section loop makes the candidates of the first six sorted sections, stopping at six |
| Spotify.PushSegmentCandidates | apps/web/app/api/_lib/spotify.ts:122-132 | the segment loop appends one candidate per loud segment |
| Spotify.AnalysisCandidates | apps/web/app/api/_lib/spotify.ts:90-136 | the result is the deduplicated candidates of the loudest sections and segments, none without an analysis or sections |
| Lyrics.LowerCase | apps/web/app/api/_lib/lyrics.ts:199 | `toLowerCase` on the characters that survive the following filter: A-Z to a-z, U+0130 to "i" and a combining dot, the Kelvin sign to "k" |
| Lyrics.KeepAllowed | apps/web/app/api/_lib/lyrics.ts:200 | the characters that are a-z, 0-9, white space or an apostrophe, in order |
| Lyrics.Trim | apps/web/app/api/_lib/lyrics.ts:53 | `trim`: leading and then trailing white space removed |
| Lyrics.Collapse | apps/web/app/api/_lib/lyrics.ts:201 | every run of white space replaced by one space |
| Lyrics.Sanitize | apps/web/app/api/_lib/lyrics.ts:197-203 | `sanitize`: lower-case, keep the allowed characters, collapse white space, trim |
| Lyrics.DropSpacesFacts | apps/web/app/api/_lib/lyrics.ts:53 | dropping leading white space leaves a suffix that starts with no white space |
| Lyrics.DropTrailingSpacesFacts | apps/web/app/api/_lib/lyrics.ts:53 | dropping trailing white space leaves a prefix that ends with no white space |
| Lyrics.TrimDrops | apps/web/app/api/_lib/lyrics.ts:53 | trimming drops leading, then trailing white space |
| Lyrics.TrimIsSlice | apps/web/app/api/_lib/lyrics.ts:53 | the trimmed text is a slice of its input with no white space at either end |
| Lyrics.CollapseHead | apps/web/app/api/_lib/lyrics.ts:201 | collapsing starts with the first character, or a space for white space |
| Lyrics.CollapseTokenChars | apps/web/app/api/_lib/lyrics.ts:200-201 | collapsing filtered text leaves only `[a-z0-9 ']` |
| Lyrics.CollapseNoDoubleSpace | apps/web/app/api/_lib/lyrics.ts:201 | collapsed text never has two spaces in a row |
| Lyrics.SliceKeepsShape | apps/web/app/api/_lib/lyrics.ts:202 | trimming keeps the token characters and the single spaces |
| Lyrics.KeepAllowedKept | apps/web/app/api/_lib/lyrics.ts:200 | the filter keeps only letters, digits, white space and apostrophes |
| Lyrics.SanitizeIsClean | apps/web/app/api/_lib/lyrics.ts:197-203 | sanitised text holds only `[a-z0-9 ']`, single inner spaces and no space at either end |
| Lyrics.LowerCaseKeepsClean | apps/web/app/api/_lib/lyrics.ts:199 | lower-casing clean text changes nothing |
| Lyrics.KeepAllowedKeepsClean | apps/web/app/api/_lib/lyrics.ts:200 | the filter changes nothing in clean text |
| Lyrics.CollapseKeepsClean | apps/web/app/api/_lib/lyrics.ts:201 | collapsing changes nothing in clean text |
| Lyrics.SanitizeKeepsClean | apps/web/app/api/_lib/lyrics.ts:197-203 | sanitising clean text gives it back |
| Lyrics.SanitizeIdempotent | apps/web/app/api/_lib/lyrics.ts:197-203 | sanitised text is clean, and sanitising twice is sanitising once |
| Lyrics.TrimIgnoresCarriageReturn | apps/web/app/api/_lib/lyrics.ts:52-53 | trimming a piece that ends in a carriage return gives the trimmed piece without it |
| Lyrics.SplitLineBreaks | apps/web/app/api/_lib/lyrics.ts:52 | the split on `\r?\n` has one piece per piece of the split on `\n` |
| Lyrics.SplitLineBreaksTrimmed | apps/web/app/api/_lib/lyrics.ts:51-54 | once trimmed, the pieces of the split on `\r?\n` are those of the split on `\n`, so the lyric lines are the same |
| Lyrics.TrimAll | apps/web/app/api/_lib/lyrics.ts:53 | each piece trimmed |
| Lyrics.LyricLines | apps/web/app/api/_lib/lyrics.ts:51-54 | the lyric lines: the trimmed, non-empty pieces between line breaks |
| Lyrics.TrimmedPiece | apps/web/app/api/_lib/lyrics.ts:52-53 | a trimmed piece of the split has no line feed and no outer white space |
| Lyrics.TrimAllShaped | apps/web/app/api/_lib/lyrics.ts:52-53 | every trimmed piece is shaped as a line |
| Lyrics.NonEmptyShaped | apps/web/app/api/_lib/lyrics.ts:54 | `filter(Boolean)` keeps only non-empty lines, and their shape |
| Lyrics.LyricLinesShaped | apps/web/app/api/_lib/lyrics.ts:51-54 | every lyric line is non-empty, without outer white space and without a line feed |
| Lyrics.NoLyricsNoLines | apps/web/app/api/_lib/lyrics.ts:58-64 | empty lyrics give no lines |
| Lyrics.Tokens | apps/web/app/api/_lib/lyrics.ts:112 | the tokens of a line: the non-empty pieces of the sanitised line between spaces |
| Lyrics.Includes | apps/web/app/api/_lib/lyrics.ts:209 | `includes`: the needle is a prefix of some suffix of the haystack |
| Lyrics.IncludesOccurs | apps/web/app/api/_lib/lyrics.ts:209 | `includes` holds exactly when the needle occurs at some offset |
| Lyrics.Texts | apps/web/app/api/_lib/lyrics.ts:122-123 | the texts of timed lines, one per line |
| Lyrics.NearestIndex | apps/web/app/api/_lib/lyrics.ts:173-182 | the nearest-beat scan yields an index among the beats searched |
| Lyrics.NearestIndexIsNearest | apps/web/app/api/_lib/lyrics.ts:173-182 | the found beat is a nearest one, and no earlier beat is as near |
| Lyrics.FirstAtLeast | apps/web/app/api/_lib/lyrics.ts:169-171 | the forward search yields -1 or an index in range |
| Lyrics.FirstAtLeastIsFirst | apps/web/app/api/_lib/lyrics.ts:169-171 | it is -1 exactly when every beat is earlier, else the first beat at or after the time |
| Lyrics.ClosestBeat | apps/web/app/api/_lib/lyrics.ts:165-183 | `closestBeat`: the time itself without beats; searching forward, the first beat at or after it or else the last beat; otherwise the first beat of least distance |
| Lyrics.ClosestBeatIsNearest | apps/web/app/api/_lib/lyrics.ts:165-183 | without beats the time itself returns; otherwise a nearest beat, the first of the nearest |
| Lyrics.ClosestBeatForward | apps/web/app/api/_lib/lyrics.ts:169-172 | the forward search gives the first beat at or after the time, or the last beat when all are earlier |
| Lyrics.SearchClosestBeat | apps/web/app/api/_lib/lyrics.ts:165-183 | the loops of `closestBeat` compute the closest beat |
| Lyrics.SnapLine | apps/web/app/api/_lib/lyrics.ts:137-144 | one snapped line: its start on the nearest beat, its end on the next beat at or after it, capped at the duration |
| Lyrics.SnapToBeats | apps/web/app/api/_lib/lyrics.ts:133-146 | snapping keeps every line's text and confidence, changes nothing without beats, and otherwise starts each line on a beat and ends it on a beat or the duration |
| Lyrics.NearestOfBeat | apps/web/app/api/_lib/lyrics.ts:174-183 | the nearest beat to a beat is that beat |
| Lyrics.ForwardOfBeat | apps/web/app/api/_lib/lyrics.ts:169-172 | among ascending beats, the first beat at or after a beat is that beat |
| Lyrics.ForwardOfDuration | apps/web/app/api/_lib/lyrics.ts:138-143 | an end capped at the duration snaps back to the duration |
| Lyrics.SnapIdempotent | apps/web/app/api/_lib/lyrics.ts:133-146 | over ascending beats, snapping snapped lines changes nothing |
| Lyrics.LinearBeats | apps/web/app/api/_lib/lyrics.ts:185-195 | `count` linear beats |
| Lyrics.LinearBeatsFacts | apps/web/app/api/_lib/lyrics.ts:185-195 | linear beats start at 0, are duration/count apart, and stay in [0, duration) |
| Lyrics.LinearBeatsSteps | apps/web/app/api/_lib/lyrics.ts:190-193 | consecutive linear beats lie exactly duration/count apart |
| Lyrics.LinearBeatsBelow | apps/web/app/api/_lib/lyrics.ts:190-193 | for a positive duration every linear beat lies in [0, duration) |
| Lyrics.GenerateLinearBeats | apps/web/app/api/_lib/lyrics.ts:185-195 | the loop computes the linear beats |
| Lyrics.Allocations | apps/web/app/api/_lib/lyrics.ts:149-150 | the times lines are allocated from: the beats, or linear beats when there are none; the slice keeps all of them |
| Lyrics.AllocatedLine | apps/web/app/api/_lib/lyrics.ts:155-162 | a beat-path line keeps its text and has confidence 0.6 |
| Lyrics.Allocate | apps/web/app/api/_lib/lyrics.ts:153-163 | one beat-path line per lyric line, with its text and confidence 0.6 |
| Lyrics.EvenLine | apps/web/app/api/_lib/lyrics.ts:150-158 | with linear beats line i spans [i·d/n, (i + 1)·d/n] |
| Lyrics.EvenAllocation | apps/web/app/api/_lib/lyrics.ts:150-158 | without detected beats the lines tile the track evenly |
| Lyrics.BeatsAllocation | apps/web/app/api/_lib/lyrics.ts:150-158 | with more beats than lines, line i spans from beat i to beat i + 1 |
| Lyrics.AlignWithBeats | apps/web/app/api/_lib/lyrics.ts:148-163 | the beat path gives one snapped line per lyric line, with its text and confidence 0.6 |
| Lyrics.Confidences | apps/web/app/api/_lib/lyrics.ts:217-219 | no numeric confidence is collected exactly when no word has one |
| Lyrics.ConfidencesBounded | apps/web/app/api/_lib/lyrics.ts:217-219 | collected confidences keep any bounds the words' confidences have |
| Lyrics.AverageConfidence | apps/web/app/api/_lib/lyrics.ts:216-222 | `averageConfidence`: null without numeric confidences, otherwise their mean |
| Lyrics.AverageConfidenceFacts | apps/web/app/api/_lib/lyrics.ts:216-222 | the average is null exactly when no word has a confidence, and lies within any bounds all confidences lie within |
| Lyrics.CleanTexts | apps/web/app/api/_lib/lyrics.ts:209 | one sanitised text per word |
| Lyrics.Matches | apps/web/app/api/_lib/lyrics.ts:209 | a sanitised word matches a sanitised token when either contains the other |
| Lyrics.FirstMatch | apps/web/app/api/_lib/lyrics.ts:205-214 | the search yields -1 or an index from the start on |
| Lyrics.FirstMatchIsLeast | apps/web/app/api/_lib/lyrics.ts:205-214 | it finds the least matching word from the start on, and -1 exactly when none matches there |
| Lyrics.FindTokenMatch | apps/web/app/api/_lib/lyrics.ts:205-214 | the loop finds the first matching word from max(0, start) |
| Lyrics.FindTokenMatchAsWritten | apps/web/app/api/_lib/lyrics.ts:205-214 | from a negative start the source's loop reads before the first word and throws; otherwise it finds the first match |
| Lyrics.SearchAsWritten | apps/web/app/api/_lib/lyrics.ts:205-214 | the token search as written: a negative start reads `words[-1]` and throws; otherwise the first match from the start, or not found |
| Lyrics.UnmatchedFirstTokenThrows | apps/web/app/api/_lib/lyrics.ts:116-117 | for the transcript "a" and the line "b a", the first token is unmatched, the written search for "a" throws, and the corrected one finds word 0 |
| Lyrics.TimedLine | apps/web/app/api/_lib/lyrics.ts:118-127 | the line timed from its matches: start from the first match, the beat at the cursor or 0; end from the last match or 1 s or 0.4 s per token later; at least 0.25 s long, capped at the duration; confidence the mean over the matched words or 0.75 |
| Lyrics.TimedLineFacts | apps/web/app/api/_lib/lyrics.ts:118-127 | a whisper line keeps its text, starts at or after 0, ends by the duration and has a confidence in [0, 1] for confidences in [0, 1] |
| Lyrics.WhisperStep | apps/web/app/api/_lib/lyrics.ts:111-127 | one iteration of the cursor loop: skip a line without tokens; search the first and then the last token; throw when the as-written search starts below 0; otherwise the timed line and the new cursor |
| Lyrics.NextCursor | apps/web/app/api/_lib/lyrics.ts:120 | the new cursor: one past the last match, else one past the first match, and not below 0; the corrected loop keeps the cursor when neither token matched |
| Lyrics.WhisperStepOutcome | apps/web/app/api/_lib/lyrics.ts:112-117 | a line is skipped exactly when it has no tokens, and throws exactly when, as written, its first token matches no word from the cursor on |
| Lyrics.WhisperStepText | apps/web/app/api/_lib/lyrics.ts:121-122 | a timed line keeps its text |
| Lyrics.WhisperStepFacts | apps/web/app/api/_lib/lyrics.ts:111-127 | a timed line keeps its text, lies within the track and has a confidence in [0, 1]; the cursor never moves back, and as written it moves forward |
| Lyrics.CorrectedStepAgrees | apps/web/app/api/_lib/lyrics.ts:116-120 | wherever the source's step does not throw, the corrected step is the same |
| Lyrics.WhisperFrom | apps/web/app/api/_lib/lyrics.ts:108-130 | the lines the cursor loop produces from a cursor on, or None when an iteration throws |
| Lyrics.Speakable | apps/web/app/api/_lib/lyrics.ts:113-115 | the lines that have at least one token, in order |
| Lyrics.CorrectedLoopCompletes | apps/web/app/api/_lib/lyrics.ts:108-130 | the corrected cursor loop never throws |
| Lyrics.WhisperFromTexts | apps/web/app/api/_lib/lyrics.ts:108-130 | a loop that does not throw keeps exactly the lines with tokens, in order |
| Lyrics.WhisperFromFacts | apps/web/app/api/_lib/lyrics.ts:108-130 | a loop that does not throw times each line within the track with a confidence in [0, 1] |
| Lyrics.CorrectedLoopAgrees | apps/web/app/api/_lib/lyrics.ts:108-130 | wherever the source's loop does not throw, the corrected loop gives the same lines |
| Lyrics.UnmatchedTranscriptThrows | apps/web/app/api/_lib/lyrics.ts:111-117 | as written, a transcript matching no line's first token throws exactly when some line has tokens |
| Lyrics.TimeLine | apps/web/app/api/_lib/lyrics.ts:112-127 | the loop body computes one step of the cursor loop, its throw included |
| Lyrics.FindLastToken | apps/web/app/api/_lib/lyrics.ts:117 | the search for the last token throws, as written, exactly when the first token was unmatched, and otherwise finds the first match from the first token's match (corrected: from the cursor) |
| Lyrics.TimeNextLine | apps/web/app/api/_lib/lyrics.ts:111-128 | one pass throws exactly when its step does, and otherwise pushes at most one line and leaves the rest to the loop |
| Lyrics.NothingMatches | apps/web/app/api/_lib/lyrics.ts:116-117 | no word matches the first or the last token of any line that has tokens |
| Lyrics.WhisperRun | apps/web/app/api/_lib/lyrics.ts:108-130 | the cursor loop from cursor 0; the corrected flow gives up on the whole request when no token matches anywhere |
| Lyrics.WhisperRunFallsBack | apps/web/app/api/_lib/lyrics.ts:108-130 | the corrected flow gives None exactly when no token of any line matches; with speakable lines and nothing matching, the as-written flow gives None as well (it throws) |
| Lyrics.CorrectedRunAgrees | apps/web/app/api/_lib/lyrics.ts:108-130 | whenever the as-written flow produces lines and some token matches, the corrected flow produces the same lines |
| Lyrics.AlignWithWhisper | apps/web/app/api/_lib/lyrics.ts:88-131 | null for an empty transcript; otherwise the lines of the cursor loop, or nothing when the loop throws; the corrected flow also answers null for a transcript that matches no token of any line |
| Lyrics.WhisperLines | apps/web/app/api/_lib/lyrics.ts:66-69 | the whisper lines, or None when there is no media, the pipeline fails, the transcript is empty or the loop gives up |
| Lyrics.BeatLines | apps/web/app/api/_lib/lyrics.ts:81-82 | the beat-path lines: allocated from the beats or linear beats, then snapped |
| Lyrics.AlignLyricsToAudio | apps/web/app/api/_lib/lyrics.ts:44-86 | no lines give none, under the whisper model exactly when whisper loads; whisper lines, when the whisper path yields them, are snapped and reported as whisper; whenever it yields none (no media, a failing pipeline, no words, a throwing search) the beat path answers |
| Lyrics.ThrowingLineFallsBack | apps/web/app/api/_lib/lyrics.ts:76-78 | for the lyrics "b a" and the transcript "a", the source's whisper path yields nothing and the corrected one yields lines |
| Lyrics.FallbackExample | apps/web/app/api/_lib/lyrics.ts:44-86 | for that input the source answers with the beat model and the corrected search with the whisper model |
| Renders.NewManifest | apps/web/app/api/_lib/renders.ts:55-81 | the manifest written for a new job: queued, created and updated now, with no output, error, attempts or progress |
| Renders.NewManifestFacts | apps/web/app/api/_lib/renders.ts:55-81 | a new manifest is queued, without output or error, and carries the request's upload, segment and options with both timestamps set |
| Renders.Merge | apps/web/app/api/_lib/renders.ts:103-110 | the merged manifest: each field is `update.x ?? current.x`, so a present field replaces the stored one and a missing or null output or error keeps the stored one; `updatedAt` becomes now |
| Renders.MergeAll | apps/web/app/api/_lib/renders.ts:94-114 | the manifest after a run of updates, merged in order |
| Renders.MergeComposes | apps/web/app/api/_lib/renders.ts:103-110 | two merges act as one merge of the combined update, in which the later update's keys win |
| Renders.MergeIdempotent | apps/web/app/api/_lib/renders.ts:103-110 | repeating an update changes nothing more |
| Renders.NoChangeOnlyTouches | apps/web/app/api/_lib/renders.ts:103-110 | an empty update only refreshes `updatedAt` |
| Renders.MergeTwo | apps/web/app/api/_lib/renders.ts:103-110 | a run of two updates is the two merges in order |
| Renders.MergeAllKeeps | apps/web/app/api/_lib/renders.ts:103-110 | updates never change the id, upload, creation time, segment or options, never clear a stored output or error, and leave the status of the last update that supplies one, or the old status |
| Renders.LastStatus | apps/web/app/api/_lib/renders.ts:109 | the status of the last update that supplies one, or the given status when none does |
| Renders.LastStatusOfFirst | apps/web/app/api/_lib/renders.ts:109 | the first update's status followed by the last of the rest is the last status of all the updates |
| Renders.NullKeepsError | apps/web/app/api/_lib/renders.ts:106-107 | a null or absent error or output in an update keeps the stored one |
| Renders.JobDir | apps/web/app/api/_lib/renders.ts:47-49 | `jobDir`: the job id joined under the render root |
| Renders.RenderOutputPath | apps/web/app/api/_lib/renders.ts:116-118 | `renderOutputPath`: output.mp4 inside the job directory |
| Renders.OutputPathsDistinct | apps/web/app/api/_lib/renders.ts:116-118 | the output file is `output.mp4` in the job's directory, and two jobs never share it |
| Renders.DownloadUrl | apps/web/app/api/_lib/renders.ts:147-149 | `ensureDownloadUrl`: `/api/render/<id>/file` |
| Renders.RouteId | apps/web/app/api/_lib/renders.ts:147-149 | the id the file route reads back from a download URL, or None for a URL of another shape |
| Renders.DownloadUrlRoundTrip | apps/web/app/api/_lib/renders.ts:147-149 | the file route `/api/render/[id]/file` maps a download URL back to the job, and accepts only download URLs |
| Renders.ManifestStore.Get | apps/web/app/api/_lib/renders.ts:83-90 | a manifest is found exactly for a stored job |
| Renders.ManifestStore.Create | apps/web/app/api/_lib/renders.ts:55-81 | the queued manifest is written under its id, and every manifest stays filed under its own id |
| Renders.ManifestStore.Update | apps/web/app/api/_lib/renders.ts:94-114 | an unknown job gives null and nothing is written; otherwise the merge is written and returned |
| RenderQueue.EncoderRequestFor | apps/web/app/api/_lib/render-queue.ts:80-98 | the encoder call for a job: the video, the music only when it is included and present, the output path, the mute flag, the gains and fade with their defaults, the start, and the duration when positive |
| RenderQueue.EncoderRequestFacts | apps/web/app/api/_lib/render-queue.ts:80-97 | the encoder renders from the segment's start, for its length only when positive, into the job's output file, mixing music exactly when asked and available, with the 0 / 8 / 250 defaults |
| RenderQueue.StartUpdate | apps/web/app/api/_lib/render-queue.ts:57-61 | the first update: processing and one more attempt; it writes `error: null`, which the merge turns into keeping a stored error |
| RenderQueue.FailWith | apps/web/app/api/_lib/render-queue.ts:65-68 | the update that marks the job failed with a message |
| RenderQueue.FinishUpdate | apps/web/app/api/_lib/render-queue.ts:108-118 | the update after the encoder: completed with the output and progress 1, writing `error: null`, which keeps any earlier error; or failed with the error's message, "render failed" without one |
| RenderQueue.ProcessUpdates | apps/web/app/api/_lib/render-queue.ts:57-118 | the updates written to a stored job, in order: the start, then a failure for a missing upload or missing audio, or the encoder's outcome |
| RenderQueue.Process | apps/web/app/api/_lib/render-queue.ts:51-121 | the stored job's manifest once every update is merged |
| RenderQueue.ProcessResult | apps/web/app/api/_lib/render-queue.ts:51-121 | how the call ends: returned, or rethrowing the encoder's error |
| RenderQueue.ProcessStore | apps/web/app/api/_lib/render-queue.ts:51-121 | the store afterwards: the job replaced by its processed manifest, an unknown job left alone |
| RenderQueue.ProcessOutcome | apps/web/app/api/_lib/render-queue.ts:51-121 | a processed job always counts one more attempt; a missing upload or missing audio fails it with its message; a render completes it with output and progress 1 and keeps an old error; a throw fails it with the message or "render failed" and is rethrown |
| RenderQueue.RetryKeepsOldError | apps/web/app/api/_lib/render-queue.ts:100-105 | a failed job that renders on a retry is completed yet still shows its old error |
| RenderQueue.ProcessManifest | apps/web/app/api/_lib/render-queue.ts:51-121 | the store afterwards holds the processed job, unchanged for an unknown id, and the result says whether the encoder's error is rethrown |
| RenderQueue.Drain | apps/web/app/api/_lib/render-queue.ts:193-201 | the store after processing the pending jobs one by one from the front, a failing job not stopping the rest |
| RenderQueue.DrainProcessesEach | apps/web/app/api/_lib/render-queue.ts:194-202 | draining jobs of distinct ids processes each stored one once, from its manifest before the drain, and leaves the others as they were |
| RenderQueue.InMemoryRenderQueue.constructor | apps/web/app/api/_lib/render-queue.ts:176-178 | the queue starts idle and empty |
| RenderQueue.InMemoryRenderQueue.ProcessQueue | apps/web/app/api/_lib/render-queue.ts:187-205 | a running drain makes it return at once; otherwise the queue drains in order and ends idle and empty |
| RenderQueue.InMemoryRenderQueue.Enqueue | apps/web/app/api/_lib/render-queue.ts:180-185 | the job is created queued and pushed; behind a running drain it waits, otherwise the whole queue drains |
| RenderQueue.GetRenderJob | apps/web/app/api/_lib/render-queue.ts:225-254 | `getRenderJob`: null for an unknown job, otherwise its public view |
| RenderQueue.PublicJobFacts | apps/web/app/api/_lib/render-queue.ts:225-254 | the view exists exactly for stored jobs; it copies the id, upload, timestamps, status, segment, options, error and attempts; it has an output exactly when the job does, without the path and with the download URL `/api/render/<id>/file`, which leads back to the job; a present progress is copied and a missing one reads 0 |
| RenderQueue.NewJobView | apps/web/app/api/_lib/render-queue.ts:225-254 | a freshly created job reads queued, with no output, no error and progress 0 |
| Datastore.WithTable | apps/web/app/api/_lib/datastore.ts:39-43 | the table exists afterwards, nothing else is added, and an existing table is kept |
| Datastore.Upserted | apps/web/app/api/_lib/datastore.ts:45-48 | the tables after an upsert: the table created when missing, the record stored under its id |
| Datastore.Present | apps/web/app/api/_lib/datastore.ts:56 | the table exists and holds the id |
| Datastore.Removed | apps/web/app/api/_lib/datastore.ts:54-59 | the tables after a remove: the id deleted from its table, nothing changed when it is missing |
| Datastore.Lookup | apps/web/app/api/_lib/datastore.ts:64-71 | `getRecord`: null for a missing table or id, otherwise the stored record |
| Datastore.UpsertThenGet | apps/web/app/api/_lib/datastore.ts:45-71 | after an upsert the record is found under its id and every other table and id reads as before |
| Datastore.RemoveThenGet | apps/web/app/api/_lib/datastore.ts:54-71 | after a removal the id is gone and everything else reads as before; removing an absent record changes nothing |
| Datastore.UpsertThenRemove | apps/web/app/api/_lib/datastore.ts:45-62 | removing what was just upserted gives back the table without that record |
| Datastore.ResetEmpties | apps/web/app/api/_lib/datastore.ts:82-87 | a reset table exists, lists nothing and reads nothing |
| Datastore.RecordStore.constructor | apps/web/app/api/_lib/datastore.ts:16-28 | loading gives the parsed file, or no tables when it is missing or unreadable |
| Datastore.RecordStore.Persist | apps/web/app/api/_lib/datastore.ts:30-37 | the tables as they are go to disk |
| Datastore.RecordStore.EnsureTable | apps/web/app/api/_lib/datastore.ts:39-43 | a missing table is created empty, nothing written |
| Datastore.RecordStore.Upsert | apps/web/app/api/_lib/datastore.ts:45-52 | the record is stored under its id in its table, written to disk, and returned |
| Datastore.RecordStore.Remove | apps/web/app/api/_lib/datastore.ts:54-62 | the record is removed and written; nothing is written when it is absent |
| Datastore.RecordStore.Get | apps/web/app/api/_lib/datastore.ts:64-71 | the record the store holds for a table and id, as `Lookup` gives it |
| Datastore.RecordStore.List | apps/web/app/api/_lib/datastore.ts:73-80 | a missing table lists nothing; otherwise each record of the table is listed exactly once |
| Datastore.RecordStore.Reset | apps/web/app/api/_lib/datastore.ts:82-87 | the table is emptied or created empty and written |
| Shell.InSegment | apps/web/app/shell.tsx:226-228 | the beats inside the segment, both ends included, relative to its start |
| Shell.InSegmentBounds | apps/web/app/shell.tsx:226-228 | each kept beat lies in [0, end - start] and is a track beat shifted by the start |
| Shell.InSegmentEmpty | apps/web/app/shell.tsx:226-231 | no beat is kept exactly when none lies in the segment |
| Shell.PointsFor | apps/web/app/shell.tsx:233-239 | three points are pushed per beat |
| Shell.PointsForBeat | apps/web/app/shell.tsx:233-239 | points 3i to 3i + 2 are beat i's lead dip, peak and trail dip |
| Shell.BeatPoints | apps/web/app/shell.tsx:234-238 | the three points of a beat: a dip of half the depth just before it, a lift by the depth on it, a dip of a third just after it, kept within the track |
| Shell.BeatPointsBounded | apps/web/app/shell.tsx:234-238 | a beat's points lie in [0, duration] with gains between base - depth/2 and base + depth |
| Shell.Pushed | apps/web/app/shell.tsx:232-240 | the points before sorting: the base gain at 0, the points of each beat, the base gain at the end |
| Shell.PushedFacts | apps/web/app/shell.tsx:232-240 | 3k + 2 points for k beats, the base gain at 0 and at the end, each beat's three points in order, all in [0, duration] with bounded gains |
| Shell.PushPoints | apps/web/app/shell.tsx:232-240 | the push loop builds the pushed points |
| Shell.SmoothAt | apps/web/app/shell.tsx:243-249 | the smoothed point: the mean of its gain and its predecessor's when the two are less than 0.02 s apart, the point itself otherwise |
| Shell.Smooth | apps/web/app/shell.tsx:243-249 | smoothing keeps the number of points |
| Shell.SmoothFacts | apps/web/app/shell.tsx:243-249 | smoothing keeps every time, averages a gain with its predecessor's when closer than 0.02 s, and keeps the point otherwise |
| Shell.SmoothBounded | apps/web/app/shell.tsx:243-249 | bounds every gain keeps still hold after smoothing |
| Shell.ByTime | apps/web/app/shell.tsx:242 | `sort((a, b) => a.at - b.at)`: the points in ascending time; points at the same time keep their order (Common.SortDescStable) |
| Shell.ByTimeFacts | apps/web/app/shell.tsx:242 | sorting rearranges the points into non-decreasing time, keeping their time and gain bounds |
| Shell.Automation | apps/web/app/shell.tsx:217-251 | no points without beats, without a positive depth or without a beat in the segment; otherwise the pushed points sorted by time and smoothed |
| Shell.BuildAutomation | apps/web/app/shell.tsx:217-251 | the builder computes the automation |
| Shell.AutomationEmpty | apps/web/app/shell.tsx:218-231 | the automation is empty exactly when there are no beats, the depth is not positive or no beat lies in the segment |
| Shell.SortedSmoothFacts | apps/web/app/shell.tsx:241-250 | sorted and smoothed points keep their count, their time bounds, time order and gain bounds |
| Shell.AutomationUnfolds | apps/web/app/shell.tsx:217-251 | with beats in the segment the automation is built from the kept beats over the segment's length |
| Shell.AutomationFacts | apps/web/app/shell.tsx:217-251 | k beats in the segment give 3k + 2 points, in time order within [0, end - start], gains between base - depth/2 and base + depth |
| Shell.AutomationRearranges | apps/web/app/shell.tsx:232-249 | the automation's times are those of the sorted pushed points, which are a rearrangement of them |
| Shell.ShownLines | apps/web/app/shell.tsx:307-318 | the alignment's lines, or else the non-empty lyric lines, 2.5 s each from the segment's start |
| Shell.ShownLinesFacts | apps/web/app/shell.tsx:307-318 | an alignment's lines are shown as they are; otherwise the non-empty lyric lines, 2.5 s each, back to back from the segment's start |
| Shell.ShownWords | apps/web/app/shell.tsx:320-333 | the alignment's words when there are any, or else the lyric words 0.4 s apart from the segment's start, each 0.35 s long with confidence 0.4 |
| Shell.ShownWordsFacts | apps/web/app/shell.tsx:320-333 | aligned words are shown as they are; otherwise the non-empty space-separated pieces, 0.35 s each, 0.4 s apart from the segment's start, with confidence 0.4 |
| Shell.PiecesFacts | apps/web/app/shell.tsx:311-312 | the kept pieces of a split are non-empty and free of the separator |

## Left out

- File and network I/O are parameters; none of it is modelled. This covers
  decoding and probing audio with ffmpeg, `ensureLocalPath`, the Spotify
  HTTP calls and token, and whisper's pipeline. An analysis is taken as
  the waveform, beats and duration it yields; a transcript as its words; a
  Spotify response as the `Analysis` and `Features` it decodes to.
- The cache wrapper around `analyzeUploadAudio` and the React `cache` on
  Spotify fetches are not modelled: they change no result.
- AudioAnalysis.ScoreSegments: requires a non-empty waveform, a positive
  duration and a positive target. On the excluded inputs the source divides
  by zero and returns no segments or segments with a NaN or infinite
  confidence; that is not modelled.
- Floating point is modelled as reals. Rounding error, NaN and Infinity are
  not modelled, except for the Spotify dedupe key with a zero target
  (±Infinity or NaN).
- `Math.sqrt` is not modelled. The beat threshold "RMS above 0.2" is the
  equivalent "mean square above 0.04".
- Spotify.KeyOf: the key is the rounded tenth, not the string JavaScript
  prints for it. Equal tenths print equally, so deduplication is the same.
- Spotify: the `?? features.loudness ?? -8` fallbacks have no effect in
  the model, because a span always has a loudness. A missing `sections` or
  `segments` list reads as an empty one.
- Lyrics.LowerCase: only A–Z, U+0130 and U+212A are lower-cased. Every
  other character is either unchanged or lower-cases to a character the
  following filter removes. White space is the set JavaScript's `\s`
  matches.
- Lyrics.AlignLyricsToAudio: whether whisper loads and what the recogniser
  returns come from a `Recogniser` parameter. A failing pipeline and the
  TypeError of the token search both reach the beat path through the
  source's `catch`; no other error of the whisper path is modelled. The
  `lookup` parameter chooses the token search: `AsWritten` is the source,
  `Corrected` the fix of the finding below, which still falls back to the
  beat path when no token of any line matches the transcript.
- Lyrics.SnapIdempotent: idempotence is proved for beats in ascending
  order, as the beat detector produces them. For unordered beats it fails:
  with beats [5, 3] an end at 6 snaps to 3 and then to 5.
- Lyrics.AlignWithWhisper: the model returns None both for the source's
  `null` and for the TypeError it throws, since the caller treats the two
  alike.
- The `console.warn`/`console.error` logging, BullMQ and Redis
  (`BullRenderQueue`, `createQueue`) and progress reporting are not
  modelled.
- Concurrency is not modelled. `void this.process()` starts the drain
  right away, and the interleaving of two async drains is not explored.
- The clock and generated UUIDs are parameters: one `now` per operation,
  the same for every write it makes.
- RenderQueue.ProcessManifest: the encoder and `persistRenderOutput`
  together are a function from the request to its outcome.
- Datastore.RecordStore.List: the order of `Object.values` is not
  modelled. The contract states that each record is listed once, not in
  which order.
- Renders: `path.join` is modelled as concatenation with "/". Its
  normalisation of the root is not modelled.
- JSON parsing and serialisation of the store and of manifests are not
  modelled. A file that does not parse reads as missing.
- `summarizeRenderOutput`, the ffmpeg `renderPreview`, `storage.ts`, the
  routes other than the file route, and the UI of `shell.tsx` beyond the
  automation and the shown lines and words are not part of this model.

## Findings

| source | as written | input that shows it | evidently intended | confidence | as-written member | corrected member |
|---|---|---|---|---|---|---|
| apps/web/app/api/_lib/lyrics.ts:116-117 | when a line's first token matches no word, `findTokenMatch` returns -1 and the last token is searched from -1; the loop's first iteration reads `words[-1].text`, which throws a TypeError, and the `catch` at lines 76-78 sends the whole song to the beat path | transcript with the one word "a", lyric line "b a" | an unmatched first token searches the last token from the cursor, so the line is timed from the transcript and the cursor never moves back; a transcript that matches no token of any line still sends the request to the beat path | not executed | Lyrics.FallbackExample | Lyrics.WhisperRunFallsBack |
