/**
 Acoustic fingerprints: a content digest plus a quantized loudness envelope,
 compared exactly or under a bounded time shift (worker/fingerprint.py).

 SHA-256 digests are opaque numbers, float arithmetic is done over `real`, and the
 loudness curve `log1p(sqrt(x)) / log1p(32768)` is an arbitrary function `loud`.
 */
module Fingerprints {
  import opened Wrappers

  const MAX_LEVEL := 15
  const MIN_OVERLAP := 3

  type Digest = nat

  datatype AcousticFingerprint = AcousticFingerprint(contentHash: Digest, envelope: seq<int>)

  /** The two matching knobs of the worker configuration. */
  datatype Tolerance = Tolerance(maxShift: int, ratio: real)

  /** An envelope that the quantizer can produce. */
  predicate ValidEnvelope(envelope: seq<int>) {
    forall i :: 0 <= i < |envelope| ==> 0 <= envelope[i] <= MAX_LEVEL
  }

  // ---------------------------------------------------------------- distances

  function Abs(x: int): nat {
    if x < 0 then -x else x
  }

  function Max0(x: int): nat {
    if x < 0 then 0 else x
  }

  /** Sum of |left[l + i] - right[r + i]| for i < n. */
  function AbsDiffSum(left: seq<int>, l: nat, right: seq<int>, r: nat, n: nat): nat
    requires l + n <= |left| && r + n <= |right|
  {
    if n == 0 then 0
    else AbsDiffSum(left, l, right, r, n - 1) + Abs(left[l + n - 1] - right[r + n - 1])
  }

  /** Number of frames both envelopes have once `right` is slid by `shift`. */
  function Overlap(left: seq<int>, right: seq<int>, shift: int): int {
    var a := |left| - Max0(shift);
    var b := |right| - Max0(-shift);
    if a <= b then a else b
  }

  /** Mean absolute distance on the overlap, or None when the overlap is too short. */
  function AlignedDistance(left: seq<int>, right: seq<int>, shift: int): Option<real> {
    var n := Overlap(left, right, shift);
    if n < MIN_OVERLAP then None
    else Some(AbsDiffSum(left, Max0(shift), right, Max0(-shift), n) as real / n as real)
  }

  method AlignedMeanAbsDistance(left: seq<int>, right: seq<int>, shift: int) returns (distance: Option<real>)
    ensures distance == AlignedDistance(left, right, shift)
  {
    var leftStart := if shift > 0 then shift else 0;
    var rightStart := if -shift > 0 then -shift else 0;
    var overlap := if |left| - leftStart <= |right| - rightStart then |left| - leftStart else |right| - rightStart;
    if overlap < MIN_OVERLAP {
      return None;
    }
    var total := 0;
    for index := 0 to overlap
      invariant total == AbsDiffSum(left, leftStart, right, rightStart, index)
    {
      total := total + Abs(left[leftStart + index] - right[rightStart + index]);
    }
    return Some(total as real / overlap as real);
  }

  lemma {:induction false} AbsDiffSumSwap(left: seq<int>, l: nat, right: seq<int>, r: nat, n: nat)
    requires l + n <= |left| && r + n <= |right|
    ensures AbsDiffSum(left, l, right, r, n) == AbsDiffSum(right, r, left, l, n)
  {
    if n > 0 {
      AbsDiffSumSwap(left, l, right, r, n - 1);
    }
  }

  /** Sliding `right` by `shift` and sliding `left` by `-shift` measure the same overlap. */
  lemma DistanceSwap(left: seq<int>, right: seq<int>, shift: int)
    ensures AlignedDistance(left, right, shift) == AlignedDistance(right, left, -shift)
  {
    var n := Overlap(left, right, shift);
    assert Overlap(right, left, -shift) == n;
    if n >= MIN_OVERLAP {
      AbsDiffSumSwap(left, Max0(shift), right, Max0(-shift), n);
    }
  }

  lemma {:induction false} ZeroSumIffEqual(left: seq<int>, l: nat, right: seq<int>, r: nat, n: nat)
    requires l + n <= |left| && r + n <= |right|
    ensures AbsDiffSum(left, l, right, r, n) == 0 <==> left[l..l + n] == right[r..r + n]
  {
    if n > 0 {
      ZeroSumIffEqual(left, l, right, r, n - 1);
      var x, y := left[l..l + n], right[r..r + n];
      assert x == left[l..l + n - 1] + [left[l + n - 1]];
      assert y == right[r..r + n - 1] + [right[r + n - 1]];
      if x == y {
        assert x[n - 1] == y[n - 1];
        assert x[..n - 1] == y[..n - 1];
      }
    }
  }

  // ----------------------------------------------------------------- matching

  ghost predicate Within(left: seq<int>, right: seq<int>, shift: int, ratio: real) {
    var d := AlignedDistance(left, right, shift);
    d.Some? && d.value <= ratio * 15.0
  }

  /** Some alignment within the search radius is inside the distance budget. */
  ghost predicate EnvelopesNear(left: seq<int>, right: seq<int>, tolerance: Tolerance) {
    && left != [] && right != []
    && exists shift ::
         -tolerance.maxShift <= shift <= tolerance.maxShift && Within(left, right, shift, tolerance.ratio)
  }

  ghost predicate Matches(left: AcousticFingerprint, right: AcousticFingerprint, tolerance: Tolerance) {
    left.contentHash == right.contentHash || EnvelopesNear(left.envelope, right.envelope, tolerance)
  }

  method EnvelopesNearDuplicate(left: seq<int>, right: seq<int>, tolerance: Tolerance) returns (near: bool)
    ensures near <==> EnvelopesNear(left, right, tolerance)
  {
    if |left| == 0 || |right| == 0 {
      return false;
    }
    var maxDistance := tolerance.ratio * 15.0;
    var shift := -tolerance.maxShift;
    while shift <= tolerance.maxShift
      invariant -tolerance.maxShift <= shift
      invariant forall s :: -tolerance.maxShift <= s < shift ==> s <= tolerance.maxShift ==>
                  !Within(left, right, s, tolerance.ratio)
      decreases tolerance.maxShift - shift
    {
      var distance := AlignedMeanAbsDistance(left, right, shift);
      if distance.Some? && distance.value <= maxDistance {
        assert Within(left, right, shift, tolerance.ratio);
        return true;
      }
      shift := shift + 1;
    }
    return false;
  }

  method FingerprintsMatch(left: AcousticFingerprint, right: AcousticFingerprint, tolerance: Tolerance)
    returns (same: bool)
    ensures same <==> Matches(left, right, tolerance)
  {
    if left.contentHash == right.contentHash {
      return true;
    }
    same := EnvelopesNearDuplicate(left.envelope, right.envelope, tolerance);
  }

  lemma EnvelopesNearSwap(left: seq<int>, right: seq<int>, tolerance: Tolerance)
    requires EnvelopesNear(left, right, tolerance)
    ensures EnvelopesNear(right, left, tolerance)
  {
    var shift :| -tolerance.maxShift <= shift <= tolerance.maxShift && Within(left, right, shift, tolerance.ratio);
    DistanceSwap(left, right, shift);
    assert Within(right, left, -shift, tolerance.ratio);
  }

  /** Which of two recordings was stored first does not change the verdict. */
  lemma MatchesSymmetric(left: AcousticFingerprint, right: AcousticFingerprint, tolerance: Tolerance)
    ensures Matches(left, right, tolerance) <==> Matches(right, left, tolerance)
  {
    if Matches(left, right, tolerance) && left.contentHash != right.contentHash {
      EnvelopesNearSwap(left.envelope, right.envelope, tolerance);
    }
    if Matches(right, left, tolerance) && left.contentHash != right.contentHash {
      EnvelopesNearSwap(right.envelope, left.envelope, tolerance);
    }
  }

  /** A copy whose frames agree on an overlap of three or more, at a shift inside the radius, matches. */
  lemma ShiftedCopyMatches(left: AcousticFingerprint, right: AcousticFingerprint, tolerance: Tolerance, shift: int)
    requires tolerance.ratio >= 0.0
    requires -tolerance.maxShift <= shift <= tolerance.maxShift
    requires Overlap(left.envelope, right.envelope, shift) >= MIN_OVERLAP
    requires var n := Overlap(left.envelope, right.envelope, shift);
             left.envelope[Max0(shift)..Max0(shift) + n] == right.envelope[Max0(-shift)..Max0(-shift) + n]
    ensures Matches(left, right, tolerance)
  {
    var n := Overlap(left.envelope, right.envelope, shift);
    ZeroSumIffEqual(left.envelope, Max0(shift), right.envelope, Max0(-shift), n);
    assert Within(left.envelope, right.envelope, shift, tolerance.ratio);
  }

  lemma FlatEnvelopeDistance(x: int, y: int, shift: int)
    ensures AlignedDistance([x, x, x], [y, y, y], shift) == if shift == 0 then Some(Abs(x - y) as real) else None
  {
    var left, right := [x, x, x], [y, y, y];
    if shift == 0 {
      assert AbsDiffSum(left, 0, right, 0, 1) == Abs(x - y);
      assert AbsDiffSum(left, 0, right, 0, 2) == 2 * Abs(x - y);
    }
  }

  lemma FlatEnvelopesNear(x: int, y: int, tolerance: Tolerance)
    requires tolerance.maxShift >= 0
    ensures EnvelopesNear([x, x, x], [y, y, y], tolerance) <==> Abs(x - y) as real <= tolerance.ratio * 15.0
  {
    forall shift ensures Within([x, x, x], [y, y, y], shift, tolerance.ratio)
                      <==> shift == 0 && Abs(x - y) as real <= tolerance.ratio * 15.0 {
      FlatEnvelopeDistance(x, y, shift);
    }
    assert Within([x, x, x], [y, y, y], 0, tolerance.ratio) <==> Abs(x - y) as real <= tolerance.ratio * 15.0;
  }

  /**
   Matching is not transitive: under the default budget (0.12 of 15 levels) a ladder of
   envelopes one level apart links neighbours but not its ends.  De-duplication therefore
   bounds pairs of recordings, not whole clusters.
   */
  lemma MatchingIsNotTransitive(a: AcousticFingerprint, b: AcousticFingerprint, c: AcousticFingerprint)
    requires a == AcousticFingerprint(0, [0, 0, 0])
    requires b == AcousticFingerprint(1, [1, 1, 1])
    requires c == AcousticFingerprint(2, [2, 2, 2])
    ensures var default := Tolerance(6, 0.12);
            Matches(a, b, default) && Matches(b, c, default) && !Matches(a, c, default)
  {
    var default := Tolerance(6, 0.12);
    FlatEnvelopesNear(0, 1, default);
    FlatEnvelopesNear(1, 2, default);
    FlatEnvelopesNear(0, 2, default);
  }

  // ----------------------------------------------------------------- encoding

  /** Lower-case hexadecimal digits, most significant first. */
  function HexDigits(n: nat): (s: string)
    ensures |s| >= 1
    ensures n < 16 <==> |s| == 1
  {
    if n < 16 then [HexDigit(n)] else HexDigits(n / 16) + [HexDigit(n % 16)]
  }

  function HexDigit(n: nat): char
    requires n < 16
  {
    "0123456789abcdef"[n]
  }

  /** One level in hexadecimal: a negative level gets a minus sign. */
  function EncodeLevel(level: int): string {
    if level < 0 then "-" + HexDigits(-level) else HexDigits(level)
  }

  function EncodeEnvelope(envelope: seq<int>): string {
    if envelope == [] then "" else EncodeLevel(envelope[0]) + EncodeEnvelope(envelope[1..])
  }

  /** Value of a single hexadecimal character; None is the ValueError of the original. */
  function HexValue(c: char): Option<int> {
    if '0' <= c <= '9' then Some(c as int - '0' as int)
    else if 'a' <= c <= 'f' then Some(c as int - 'a' as int + 10)
    else if 'A' <= c <= 'F' then Some(c as int - 'A' as int + 10)
    else None
  }

  function DecodeEnvelope(encoded: string): Option<seq<int>> {
    if encoded == "" then Some([])
    else
      match (HexValue(encoded[0]), DecodeEnvelope(encoded[1..]))
      case (Some(level), Some(rest)) => Some([level] + rest)
      case _ => None
  }

  lemma HexDigitValue(n: nat)
    requires n < 16
    ensures HexValue(HexDigit(n)) == Some(n as int)
  {
  }

  lemma {:induction false} DecodeLength(encoded: string)
    ensures DecodeEnvelope(encoded).Some? ==> |DecodeEnvelope(encoded).value| == |encoded|
    ensures DecodeEnvelope(encoded).Some? ==> ValidEnvelope(DecodeEnvelope(encoded).value)
  {
    if encoded != "" {
      DecodeLength(encoded[1..]);
    }
  }

  lemma LevelLength(level: int)
    ensures |EncodeLevel(level)| >= 1
    ensures |EncodeLevel(level)| == 1 ==> 0 <= level <= MAX_LEVEL
  {
  }

  lemma {:induction false} EncodeLength(envelope: seq<int>)
    ensures |EncodeEnvelope(envelope)| >= |envelope|
    ensures |EncodeEnvelope(envelope)| == |envelope| ==> ValidEnvelope(envelope)
  {
    hide EncodeLevel;
    if envelope != [] {
      LevelLength(envelope[0]);
      EncodeLength(envelope[1..]);
      assert envelope == [envelope[0]] + envelope[1..];
    }
  }

  lemma {:induction false} DecodeEncodeValid(envelope: seq<int>)
    requires ValidEnvelope(envelope)
    ensures DecodeEnvelope(EncodeEnvelope(envelope)) == Some(envelope)
  {
    if envelope != [] {
      DecodeEncodeValid(envelope[1..]);
      HexDigitValue(envelope[0]);
      var encoded := EncodeEnvelope(envelope);
      assert encoded[0] == HexDigit(envelope[0]);
      assert encoded[1..] == EncodeEnvelope(envelope[1..]);
      assert envelope == [envelope[0]] + envelope[1..];
    }
  }

  /** A level from 0 to 15 is stored as one lower-case hexadecimal digit, in its own place. */
  lemma {:induction false} EncodedAt(envelope: seq<int>, i: nat)
    requires ValidEnvelope(envelope) && i < |envelope|
    ensures |EncodeEnvelope(envelope)| == |envelope|
    ensures var c := EncodeEnvelope(envelope)[i];
            if envelope[i] < 10 then c as int == '0' as int + envelope[i] else c as int == 'a' as int + envelope[i] - 10
  {
    LevelLength(envelope[0]);
    assert |EncodeLevel(envelope[0])| == 1;
    assert envelope[1..] != [] || EncodeEnvelope(envelope[1..]) == "";
    if i > 0 {
      EncodedAt(envelope[1..], i - 1);
    } else if |envelope| > 1 {
      EncodedAt(envelope[1..], 0);
    }
  }

  /** Decoding succeeds exactly on hexadecimal digits of either case, and reads each in its place. */
  lemma {:induction false} DecodedAt(encoded: string)
    ensures DecodeEnvelope(encoded).Some? <==>
            forall i :: 0 <= i < |encoded| ==> '0' <= encoded[i] <= '9' || 'a' <= encoded[i] <= 'f' || 'A' <= encoded[i] <= 'F'
    ensures DecodeEnvelope(encoded).Some? ==>
              && |DecodeEnvelope(encoded).value| == |encoded|
              && forall i :: 0 <= i < |encoded| ==>
                   var (c, level) := (encoded[i], DecodeEnvelope(encoded).value[i]);
                   level == if c <= '9' then c as int - '0' as int else if c <= 'F' then c as int - 'A' as int + 10 else c as int - 'a' as int + 10
  {
    if encoded != "" {
      DecodedAt(encoded[1..]);
      assert forall i :: 0 < i < |encoded| ==> encoded[i] == encoded[1..][i - 1];
    }
  }

  /** The text stored in the quality column restores an envelope exactly when all its levels are 0..15. */
  lemma EnvelopeRoundTrip(envelope: seq<int>)
    ensures DecodeEnvelope(EncodeEnvelope(envelope)) == Some(envelope) <==> ValidEnvelope(envelope)
  {
    if ValidEnvelope(envelope) {
      DecodeEncodeValid(envelope);
    } else {
      EncodeLength(envelope);
      DecodeLength(EncodeEnvelope(envelope));
    }
  }

  // --------------------------------------------------------------- extraction

  function SquareSum(samples: seq<int>): nat {
    if samples == [] then 0
    else
      var x := Abs(samples[|samples| - 1]);
      SquareSum(samples[..|samples| - 1]) + x * x
  }

  /** Truncation toward zero, as `int()` does. */
  function Truncate(x: real): int {
    if x < 0.0 then -((-x).Floor) else x.Floor
  }

  function Quantize(scaled: real): (level: int)
    ensures 0 <= level <= MAX_LEVEL
  {
    var n := Truncate(scaled * 16.0);
    var capped := if n < MAX_LEVEL then n else MAX_LEVEL;
    if capped < 0 then 0 else capped
  }

  /** Level of one non-empty frame: `loud` maps the mean square to the compressed 0..1 scale. */
  function FrameLevel(frame: seq<int>, loud: real -> real): (level: int)
    requires frame != []
    ensures 0 <= level <= MAX_LEVEL
  {
    Quantize(loud(SquareSum(frame) as real / |frame| as real))
  }

  /** Levels of the consecutive whole frames; a trailing partial frame is dropped. */
  function WholeFrames(pcm: seq<int>, frameSamples: nat, loud: real -> real): (levels: seq<int>)
    requires frameSamples > 0
    ensures ValidEnvelope(levels)
    decreases |pcm|
  {
    if |pcm| < frameSamples then []
    else [FrameLevel(pcm[..frameSamples], loud)] + WholeFrames(pcm[frameSamples..], frameSamples, loud)
  }

  /** A recording shorter than one frame becomes a single level; no samples give no levels. */
  function Envelope(pcm: seq<int>, frameSamples: nat, loud: real -> real): (levels: seq<int>)
    requires frameSamples > 0
    ensures ValidEnvelope(levels)
  {
    if |pcm| < frameSamples then (if pcm == [] then [] else [FrameLevel(pcm, loud)])
    else WholeFrames(pcm, frameSamples, loud)
  }

  /** Samples in one frame: at least one. */
  function FrameSamples(sampleRateHz: nat, frameMs: nat): (samples: nat)
    ensures samples > 0
  {
    var rounded := sampleRateHz * frameMs / 1000;
    if rounded < 1 then 1 else rounded
  }

  /** The frames still to come at this offset. */
  function FramesFrom(pcm: seq<int>, offset: nat, frameSamples: nat, loud: real -> real): seq<int>
    requires frameSamples > 0 && offset <= |pcm|
  {
    WholeFrames(pcm[offset..], frameSamples, loud)
  }

  lemma AllFrames(pcm: seq<int>, frameSamples: nat, loud: real -> real)
    requires frameSamples > 0
    ensures FramesFrom(pcm, 0, frameSamples, loud) == WholeFrames(pcm, frameSamples, loud)
  {
    assert pcm[0..] == pcm;
  }

  lemma NextFrame(pcm: seq<int>, offset: nat, frameSamples: nat, loud: real -> real)
    requires frameSamples > 0 && offset + frameSamples <= |pcm|
    ensures FramesFrom(pcm, offset, frameSamples, loud) ==
            [FrameLevel(pcm[offset..offset + frameSamples], loud)] + FramesFrom(pcm, offset + frameSamples, frameSamples, loud)
  {
    assert pcm[offset..][..frameSamples] == pcm[offset..offset + frameSamples];
    assert pcm[offset..][frameSamples..] == pcm[offset + frameSamples..];
  }

  lemma NoMoreFrames(pcm: seq<int>, offset: nat, frameSamples: nat, loud: real -> real)
    requires offset <= |pcm| < offset + frameSamples
    ensures FramesFrom(pcm, offset, frameSamples, loud) == []
  {
  }

  /** The average of the squares of a non-empty stretch of samples. */
  function MeanSquare(samples: seq<int>): real
    requires samples != []
  {
    SquareSum(samples) as real / |samples| as real
  }

  /** Squares add up over any division of the samples, and one sample contributes its own square. */
  lemma {:induction false} SquareSumAdds(first: seq<int>, second: seq<int>)
    ensures SquareSum(first + second) == SquareSum(first) + SquareSum(second)
    ensures forall x: int :: SquareSum([x]) == x * x
  {
    forall x: int ensures SquareSum([x]) == x * x {
      assert [x][..0] == [] && Abs(x) * Abs(x) == x * x;
    }
    if second == [] {
      assert first + second == first;
    } else {
      var front := second[..|second| - 1];
      SquareSumAdds(first, front);
      assert (first + second)[..|first + second| - 1] == first + front;
    }
  }

  /** The level is the number of whole sixteenths of full scale in the loudness of this mean square, within 0..15. */
  ghost predicate Measures(level: int, samples: seq<int>, loud: real -> real) {
    && samples != [] && 0 <= level <= 15
    && (level > 0 ==> 16.0 * loud(MeanSquare(samples)) >= level as real)
    && (level < 15 ==> 16.0 * loud(MeanSquare(samples)) < (level + 1) as real)
  }

  lemma FrameLevelMeasures(frame: seq<int>, loud: real -> real)
    requires frame != []
    ensures Measures(FrameLevel(frame, loud), frame, loud)
  {
  }

  /** The product of a frame number and the frame length. */
  function StartOf(i: nat, frameSamples: nat): (start: nat)
  {
    i * frameSamples
  }

  lemma StartsMoveOn(i: nat, frameSamples: nat)
    ensures StartOf(0, frameSamples) == 0 && StartOf(i + 1, frameSamples) == StartOf(i, frameSamples) + frameSamples
  {
  }

  /** Frame after frame, with nothing left over that would make another one. */
  lemma {:induction false} WholeFrameAt(pcm: seq<int>, frameSamples: nat, loud: real -> real, i: nat)
    requires frameSamples > 0
    ensures var levels := WholeFrames(pcm, frameSamples, loud);
            && StartOf(|levels|, frameSamples) <= |pcm| < StartOf(|levels|, frameSamples) + frameSamples
            && (i < |levels| ==>
                  && StartOf(i, frameSamples) + frameSamples <= |pcm|
                  && levels[i] == FrameLevel(pcm[StartOf(i, frameSamples)..StartOf(i, frameSamples) + frameSamples], loud))
    decreases |pcm|
  {
    hide FrameLevel, StartOf;
    StartsMoveOn(0, frameSamples);
    if |pcm| >= frameSamples {
      var rest := pcm[frameSamples..];
      var before := if i == 0 then 0 else i - 1;
      WholeFrameAt(rest, frameSamples, loud, before);
      StartsMoveOn(|WholeFrames(rest, frameSamples, loud)|, frameSamples);
      StartsMoveOn(before, frameSamples);
      if 0 < i < |WholeFrames(pcm, frameSamples, loud)| {
        var start := StartOf(before, frameSamples);
        assert rest[start..start + frameSamples] == pcm[StartOf(i, frameSamples)..StartOf(i, frameSamples) + frameSamples];
      }
    }
  }

  lemma QuotientIs(samples: nat, frameSamples: nat, frames: nat)
    requires frameSamples > 0 && StartOf(frames, frameSamples) <= samples < StartOf(frames, frameSamples) + frameSamples
    ensures samples / frameSamples == frames
  {
    var k := samples / frameSamples - frames;
    assert frameSamples * (samples / frameSamples) == frameSamples * frames + frameSamples * k;
    assert k >= 1 ==> frameSamples * k >= frameSamples;
    assert k <= -1 ==> frameSamples * k <= -(frameSamples as int);
  }

  /** Each frame of the recording has the level that its own samples measure. */
  ghost predicate FramesMeasured(levels: seq<int>, pcm: seq<int>, n: nat, loud: real -> real) {
    forall i: nat :: i < |levels| ==>
      StartOf(i, n) + n <= |pcm| && Measures(levels[i], pcm[StartOf(i, n)..StartOf(i, n) + n], loud)
  }

  lemma WholeFramesMeasured(pcm: seq<int>, frameSamples: nat, loud: real -> real)
    requires frameSamples > 0
    ensures FramesMeasured(WholeFrames(pcm, frameSamples, loud), pcm, frameSamples, loud)
    ensures |WholeFrames(pcm, frameSamples, loud)| == |pcm| / frameSamples
  {
    hide FrameLevel, Measures, WholeFrames, StartOf;
    var levels := WholeFrames(pcm, frameSamples, loud);
    forall i: nat | i < |levels|
      ensures StartOf(i, frameSamples) + frameSamples <= |pcm|
      ensures Measures(levels[i], pcm[StartOf(i, frameSamples)..StartOf(i, frameSamples) + frameSamples], loud)
    {
      WholeFrameAt(pcm, frameSamples, loud, i);
      FrameLevelMeasures(pcm[StartOf(i, frameSamples)..StartOf(i, frameSamples) + frameSamples], loud);
    }
    WholeFrameAt(pcm, frameSamples, loud, 0);
    QuotientIs(|pcm|, frameSamples, |levels|);
  }

  /** Samples in a frame: the rate times the frame length in milliseconds over a thousand, at least one. */
  method QuantizedRmsEnvelope(pcm: seq<int>, sampleRateHz: nat, frameMs: nat, loud: real -> real)
    returns (levels: seq<int>)
    ensures levels == Envelope(pcm, FrameSamples(sampleRateHz, frameMs), loud)
    ensures var n := if sampleRateHz * frameMs >= 1000 then sampleRateHz * frameMs / 1000 else 1;
            && (pcm == [] ==> levels == [])
            && (0 < |pcm| < n ==> |levels| == 1 && Measures(levels[0], pcm, loud))
            && (|pcm| >= n ==> |levels| == |pcm| / n && FramesMeasured(levels, pcm, n, loud))
  {
    hide FrameLevel, Measures, WholeFrames, FramesMeasured;
    var frameSamples := FrameSamples(sampleRateHz, frameMs);
    if |pcm| > 0 {
      FrameLevelMeasures(pcm, loud);
    }
    WholeFramesMeasured(pcm, frameSamples, loud);
    if frameSamples > |pcm| {
      if |pcm| == 0 {
        return [];
      }
      return [FrameLevel(pcm, loud)];
    }
    levels := FramesOf(pcm, frameSamples, loud);
  }

  method FramesOf(pcm: seq<int>, frameSamples: nat, loud: real -> real) returns (levels: seq<int>)
    requires frameSamples > 0
    ensures levels == WholeFrames(pcm, frameSamples, loud)
  {
    hide WholeFrames, FramesFrom, FrameLevel;
    levels := [];
    var offset := 0;
    AllFrames(pcm, frameSamples, loud);
    while offset <= |pcm| - frameSamples
      invariant 0 <= offset <= |pcm|
      invariant WholeFrames(pcm, frameSamples, loud) == levels + FramesFrom(pcm, offset, frameSamples, loud)
    {
      NextFrame(pcm, offset, frameSamples, loud);
      levels, offset := levels + [FrameLevel(pcm[offset..offset + frameSamples], loud)], offset + frameSamples;
    }
    NoMoreFrames(pcm, offset, frameSamples, loud);
  }

  lemma {:induction false} FramesAfterPadding(pad: seq<int>, pcm: seq<int>, frames: nat, frameSamples: nat, loud: real -> real)
    requires frameSamples > 0 && |pad| == StartOf(frames, frameSamples)
    ensures |WholeFrames(pad, frameSamples, loud)| == frames
    ensures WholeFrames(pad + pcm, frameSamples, loud)
         == WholeFrames(pad, frameSamples, loud) + WholeFrames(pcm, frameSamples, loud)
    decreases frames
  {
    hide FrameLevel, StartOf;
    StartsMoveOn(0, frameSamples);
    if frames == 0 {
      assert pad + pcm == pcm;
    } else {
      StartsMoveOn(frames - 1, frameSamples);
      var rest := pad[frameSamples..];
      FramesAfterPadding(rest, pcm, frames - 1, frameSamples, loud);
      assert (pad + pcm)[..frameSamples] == pad[..frameSamples];
      assert (pad + pcm)[frameSamples..] == rest + pcm;
    }
  }

  /** An envelope and the same envelope behind `pad` match once the padding fits the search radius. */
  lemma PaddedEnvelopesNear(pad: seq<int>, envelope: seq<int>, tolerance: Tolerance)
    requires |pad| <= tolerance.maxShift && tolerance.ratio >= 0.0
    requires |envelope| >= MIN_OVERLAP
    ensures EnvelopesNear(envelope, pad + envelope, tolerance)
  {
    var padded := pad + envelope;
    var shift := -|pad|;
    assert Overlap(envelope, padded, shift) == |envelope|;
    assert envelope[0..|envelope|] == padded[|pad|..|pad| + |envelope|];
    ZeroSumIffEqual(envelope, 0, padded, |pad|, |envelope|);
    assert Within(envelope, padded, shift, tolerance.ratio);
  }

  /**
   End to end: prefixing a recording with up to `maxShift` whole frames of any sound may
   change its digest, yet the two fingerprints still match.
   */
  lemma DelayedRecordingMatches(pad: seq<int>, pcm: seq<int>, frames: nat, frameSamples: nat, loud: real -> real,
                                hash: seq<int> -> Digest, tolerance: Tolerance)
    requires frameSamples > 0 && |pad| == frames * frameSamples
    requires frames <= tolerance.maxShift && tolerance.ratio >= 0.0
    requires |Envelope(pcm, frameSamples, loud)| >= MIN_OVERLAP
    ensures Matches(AcousticFingerprint(hash(pcm), Envelope(pcm, frameSamples, loud)),
                    AcousticFingerprint(hash(pad + pcm), Envelope(pad + pcm, frameSamples, loud)), tolerance)
  {
    FramesAfterPadding(pad, pcm, frames, frameSamples, loud);
    PaddedEnvelopesNear(WholeFrames(pad, frameSamples, loud), WholeFrames(pcm, frameSamples, loud), tolerance);
  }
}
