/** At which tolerances acoustic matching is an equivalence, and at which it is not (worker/fingerprint.py). */
module Transitivity {
  import opened Fingerprints

  /** Recordings as they occur: levels in range, and equal digests only for equal recordings. */
  predicate Recordings(a: AcousticFingerprint, b: AcousticFingerprint) {
    ValidEnvelope(a.envelope) && ValidEnvelope(b.envelope) && (a.contentHash == b.contentHash ==> a.envelope == b.envelope)
  }

  ghost predicate Transitive(tolerance: Tolerance) {
    forall a, b, c :: Recordings(a, b) && Recordings(b, c) && Matches(a, b, tolerance) && Matches(b, c, tolerance) ==>
      Matches(a, c, tolerance)
  }

  /** The search finds nothing, allows nothing, or allows everything. */
  predicate Degenerate(tolerance: Tolerance) {
    tolerance.maxShift < 0 || tolerance.ratio < 0.0 || tolerance.ratio >= 1.0
  }

  // --------------------------------------------------------------- degenerate

  lemma {:induction false} SumBounds(left: seq<int>, l: nat, right: seq<int>, r: nat, n: nat)
    requires l + n <= |left| && r + n <= |right| && ValidEnvelope(left) && ValidEnvelope(right)
    ensures AbsDiffSum(left, l, right, r, n) <= MAX_LEVEL * n
  {
    if n > 0 {
      SumBounds(left, l, right, r, n - 1);
    }
  }

  lemma MeanBound(total: nat, n: nat, limit: real)
    requires n > 0 && total <= 15 * n && limit >= 15.0
    ensures total as real / n as real <= limit
  {
    var mean := total as real / n as real;
    assert mean * n as real == total as real;
    if mean > 15.0 {
      assert mean * n as real > 15.0 * n as real;
    }
  }

  /** With a budget of every level, two envelopes are near exactly when both have the least overlap. */
  lemma AllNear(left: seq<int>, right: seq<int>, tolerance: Tolerance)
    requires ValidEnvelope(left) && ValidEnvelope(right) && tolerance.maxShift >= 0 && tolerance.ratio >= 1.0
    ensures EnvelopesNear(left, right, tolerance) <==> |left| >= MIN_OVERLAP && |right| >= MIN_OVERLAP
  {
    var n := Overlap(left, right, 0);
    if n >= MIN_OVERLAP {
      SumBounds(left, 0, right, 0, n);
      MeanBound(AbsDiffSum(left, 0, right, 0, n), n, tolerance.ratio * 15.0);
      assert Within(left, right, 0, tolerance.ratio);
    }
  }

  lemma NoneNear(left: seq<int>, right: seq<int>, tolerance: Tolerance)
    requires tolerance.maxShift < 0 || tolerance.ratio < 0.0
    ensures !EnvelopesNear(left, right, tolerance)
  {
    forall shift ensures tolerance.ratio < 0.0 ==> !Within(left, right, shift, tolerance.ratio) {
      var n := Overlap(left, right, shift);
      if n >= MIN_OVERLAP {
        NotNegative(AbsDiffSum(left, Max0(shift), right, Max0(-shift), n), n);
      }
    }
  }

  lemma NotNegative(total: nat, n: nat)
    requires n > 0
    ensures total as real / n as real >= 0.0
  {
  }

  lemma DegenerateIsTransitive(tolerance: Tolerance)
    requires Degenerate(tolerance)
    ensures Transitive(tolerance)
  {
    forall a, b, c | Recordings(a, b) && Recordings(b, c) && Matches(a, b, tolerance) && Matches(b, c, tolerance)
      ensures Matches(a, c, tolerance)
    {
      if tolerance.maxShift < 0 || tolerance.ratio < 0.0 {
        NoneNear(a.envelope, b.envelope, tolerance);
        NoneNear(b.envelope, c.envelope, tolerance);
      } else {
        AllNear(a.envelope, b.envelope, tolerance);
        AllNear(b.envelope, c.envelope, tolerance);
        AllNear(a.envelope, c.envelope, tolerance);
      }
    }
  }

  // ---------------------------------------------------------------- the chain

  function Flat(level: int, n: nat): (envelope: seq<int>)
    ensures |envelope| == n && forall i :: 0 <= i < n ==> envelope[i] == level
  {
    seq(n, _ => level)
  }

  function Silence(k: nat): AcousticFingerprint {
    AcousticFingerprint(0, Flat(0, 3 + k))
  }

  function Moment(): AcousticFingerprint {
    AcousticFingerprint(1, Flat(0, 3))
  }

  function Rising(k: nat): AcousticFingerprint {
    AcousticFingerprint(2, Flat(0, 3) + Flat(MAX_LEVEL, k))
  }

  lemma {:induction false} LoudTail(left: seq<int>, l: nat, right: seq<int>, r: nat, n: nat)
    requires l + n <= |left| && r + n <= |right|
    requires forall i :: 0 <= i < |left| ==> left[i] == 0
    requires forall i :: 3 <= i < |right| ==> right[i] == MAX_LEVEL
    ensures AbsDiffSum(left, l, right, r, n) >= MAX_LEVEL * (n - 3)
  {
    if n > 0 {
      LoudTail(left, l, right, r, n - 1);
    }
  }

  /** Silence and the rising envelope stay apart at every shift once the tail is long enough. */
  lemma EndsApart(tolerance: Tolerance, k: nat)
    requires 0.0 <= tolerance.ratio < 1.0 && tolerance.maxShift >= 0
    requires Scaled(k as real, 1.0 - tolerance.ratio) > 3.0 + tolerance.maxShift as real
    ensures !Matches(Silence(k), Rising(k), tolerance)
  {
    hide Scaled, AbsDiffSum;
    var left, right := Silence(k).envelope, Rising(k).envelope;
    forall shift | -tolerance.maxShift <= shift <= tolerance.maxShift ensures !Within(left, right, shift, tolerance.ratio) {
      var n := Overlap(left, right, shift);
      if n >= MIN_OVERLAP {
        var total := AbsDiffSum(left, Max0(shift), right, Max0(-shift), n);
        LoudTail(left, Max0(shift), right, Max0(-shift), n);
        assert n >= 3 + k - tolerance.maxShift;
        MeanAbove(total as real, n as real, k as real, tolerance.maxShift as real - 3.0, tolerance.ratio);
      }
    }
  }

  /** A product the proofs treat as a name. */
  function Scaled(x: real, factor: real): real {
    x * factor
  }

  lemma ScaledOrder(x: real, y: real, factor: real)
    requires factor >= 0.0
    ensures x <= y ==> Scaled(x, factor) <= Scaled(y, factor)
  {
  }

  lemma ScaledDifference(x: real, y: real, factor: real)
    ensures Scaled(x - y, factor) == Scaled(x, factor) - Scaled(y, factor)
  {
  }

  lemma ScaledShrinks(x: real, factor: real)
    requires 0.0 <= factor <= 1.0
    ensures Scaled(x, factor) <= if x > 0.0 then x else 0.0
  {
  }

  lemma MeanScaled(sum: real, size: real)
    requires size > 0.0
    ensures Scaled(sum / size, size) == sum
  {
  }

  lemma BudgetScaled(ratio: real, size: real)
    ensures Scaled(ratio * 15.0, size) == 15.0 * size - 15.0 * Scaled(size, 1.0 - ratio)
  {
  }

  lemma Room(size: real, x: real, y: real, slack: real)
    requires 0.0 < slack <= 1.0 && size >= x - y && y >= -3.0 && Scaled(x, slack) > 6.0 + y
    ensures Scaled(size, slack) > 3.0
  {
    hide Scaled;
    ScaledOrder(x - y, size, slack);
    ScaledDifference(x, y, slack);
    ScaledShrinks(y, slack);
  }

  /** A mean over `size` frames of which all but three differ fully is above the budget. */
  lemma MeanAbove(sum: real, size: real, x: real, y: real, ratio: real)
    requires 0.0 <= ratio < 1.0 && size > 0.0 && sum >= 15.0 * size - 45.0
    requires y >= -3.0 && Scaled(x, 1.0 - ratio) > 6.0 + y && size >= x - y
    ensures sum / size > ratio * 15.0
  {
    hide Scaled;
    Room(size, x, y, 1.0 - ratio);
    MeanScaled(sum, size);
    ScaledOrder(sum / size, ratio * 15.0, size);
    BudgetScaled(ratio, size);
  }

  lemma SamePrefix(left: AcousticFingerprint, right: AcousticFingerprint, tolerance: Tolerance)
    requires tolerance.ratio >= 0.0 && tolerance.maxShift >= 0
    requires |left.envelope| >= 3 && |right.envelope| >= 3 && (|left.envelope| == 3 || |right.envelope| == 3)
    requires left.envelope[..3] == right.envelope[..3]
    ensures Matches(left, right, tolerance)
  {
    hide Matches;
    ShiftedCopyMatches(left, right, tolerance, 0);
  }

  lemma MiddleMatchesBoth(tolerance: Tolerance, k: nat)
    requires tolerance.ratio >= 0.0 && tolerance.maxShift >= 0
    ensures Matches(Silence(k), Moment(), tolerance) && Matches(Moment(), Rising(k), tolerance)
  {
    hide Matches;
    assert Silence(k).envelope[..3] == Moment().envelope[..3];
    assert Moment().envelope[..3] == Rising(k).envelope[..3];
    SamePrefix(Silence(k), Moment(), tolerance);
    SamePrefix(Moment(), Rising(k), tolerance);
  }

  lemma LongEnough(tolerance: Tolerance) returns (k: nat)
    requires tolerance.ratio < 1.0 && tolerance.maxShift >= 0
    ensures Scaled(k as real, 1.0 - tolerance.ratio) > 3.0 + tolerance.maxShift as real
  {
    hide Scaled;
    var slack := 1.0 - tolerance.ratio;
    var need := (3.0 + tolerance.maxShift as real) / slack;
    MeanScaled(3.0 + tolerance.maxShift as real, slack);
    ScaledOrder(need, 0.0, slack);
    ScaledDifference(0.0, 0.0, slack);
    k := need.Floor + 2;
    ScaledOrder(need, k as real - 1.0, slack);
    ScaledDifference(k as real, 1.0, slack);
    ScaledUnit(slack);
  }

  lemma ScaledUnit(factor: real)
    ensures Scaled(1.0, factor) == factor && Scaled(0.0, factor) == 0.0
  {
  }

  /**
   Matching is transitive exactly at the degenerate tolerances.  At every other one, silence
   matches a moment, the moment matches a rise, and silence does not match the rise.
   */
  lemma TransitiveExactlyWhenDegenerate(tolerance: Tolerance)
    ensures Transitive(tolerance) <==> Degenerate(tolerance)
  {
    if Degenerate(tolerance) {
      DegenerateIsTransitive(tolerance);
    } else {
      var k := LongEnough(tolerance);
      MiddleMatchesBoth(tolerance, k);
      EndsApart(tolerance, k);
      assert Recordings(Silence(k), Moment()) && Recordings(Moment(), Rising(k));
    }
  }

  /** In particular not under the worker's defaults, so de-duplication bounds pairs and not clusters. */
  lemma DefaultsAreNotTransitive()
    ensures !Transitive(Tolerance(6, 0.12))
  {
    TransitiveExactlyWhenDegenerate(Tolerance(6, 0.12));
  }
}
