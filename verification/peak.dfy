/**
 * The fourth-period peak pass: for rising start day s, slot s+3 is the peak
 * of the week. If the peak is observed, neighbour s+2 is capped by it when
 * unobserved; if it is not, its own minimum is raised to the observed
 * neighbours.
 *
 * PeakAdjustAsWritten is the pass exactly as the source writes it, which caps
 * s+4 only when s+4 IS observed, and it is what the fourth-period predictor
 * applies. PeakAdjust is the corrected pass (cap s+4 when it is unobserved,
 * like s+2), with the property the pass is meant to have.
 */
module Peak {
  import opened Ranges

  /** A price lookup that, like an out-of-range array read in the source, yields "no observation". */
  function PriceAt(p: seq<int>, k: int): int
  {
    if 0 <= k < |p| then p[k] else 0
  }

  /**
   * The pass reads slot s+3's range only when s+3 is a slot; with s+3 past
   * the week, the source fails exactly when s+2 is observed. Negative start
   * days are not modelled.
   */
  predicate PeakDefined(p: seq<int>, s: int)
  {
    0 <= s && (s + 3 <= 12 || PriceAt(p, s + 2) == 0)
  }

  function CapMax(r: Range, v: int): Range
  {
    r.(max := Min(r.max, v as real))
  }

  function RaiseMin(r: Range, v: int): Range
  {
    r.(min := Max(r.min, v as real))
  }

  /** The week w has its peak at slot s+3: neither neighbour inside the week exceeds it. */
  predicate PeakWeek(w: seq<int>, s: int)
    requires |w| == 13 && 0 <= s && s + 3 <= 12
  {
    w[s + 2] <= w[s + 3] && (s + 4 <= 12 ==> w[s + 4] <= w[s + 3])
  }

  /** Every observed price of p is the price w has on that slot. */
  predicate Extends(w: seq<int>, p: seq<int>)
    requires |w| == 13 && |p| == 13
  {
    forall k :: 0 <= k < 13 && p[k] != 0 ==> w[k] == p[k]
  }

  /** The corrected peak pass. */
  function PeakAdjust(p: seq<int>, s: int, r: seq<Range>): (r': seq<Range>)
    requires |p| == 13 && |r| == 13 && PeakDefined(p, s)
    ensures |r'| == 13
    // only the peak and its two neighbours may change, and only by narrowing
    ensures forall k :: 0 <= k < 13 && !(s + 2 <= k <= s + 4) ==> r'[k] == r[k]
    ensures forall k :: 0 <= k < 13 ==> r'[k].min >= r[k].min && r'[k].max <= r[k].max
    // an observed slot is never touched
    ensures forall k :: 0 <= k < 13 && p[k] != 0 ==> r'[k] == r[k]
    // the peak dominates: an observed peak caps its unobserved neighbours ...
    ensures s + 3 <= 12 && p[s + 3] != 0 ==>
      (p[s + 2] == 0 ==> r'[s + 2].max <= p[s + 3] as real) &&
      (s + 4 <= 12 && p[s + 4] == 0 ==> r'[s + 4].max <= p[s + 3] as real)
    // ... and an unobserved peak is at least each observed neighbour
    ensures s + 3 <= 12 && p[s + 3] == 0 ==>
      (p[s + 2] != 0 ==> r'[s + 3].min >= p[s + 2] as real) &&
      (PriceAt(p, s + 4) != 0 ==> r'[s + 3].min >= p[s + 4] as real)
  {
    if s + 3 > 12 then r
    else if p[s + 3] != 0 then
      var r1 := if p[s + 2] == 0 then r[s + 2 := CapMax(r[s + 2], p[s + 3])] else r;
      if s + 4 <= 12 && p[s + 4] == 0 then r1[s + 4 := CapMax(r1[s + 4], p[s + 3])] else r1
    else
      var r1 := if p[s + 2] != 0 then r[s + 3 := RaiseMin(r[s + 3], p[s + 2])] else r;
      if PriceAt(p, s + 4) != 0 then r1[s + 3 := RaiseMin(r1[s + 3], p[s + 4])] else r1
  }

  /**
   * The pass removes only prices no peak week can take: a week with its peak
   * at s+3 that agrees with every observation and fits the ranges before the
   * pass still fits them after it.
   */
  lemma PeakKeepsPeakWeeks(p: seq<int>, s: int, r: seq<Range>, w: seq<int>)
    requires |p| == 13 && |r| == 13 && |w| == 13 && PeakDefined(p, s) && s + 3 <= 12
    requires PeakWeek(w, s) && Extends(w, p)
    requires forall k :: 0 <= k < 13 ==> Accepts(r[k], w[k])
    ensures forall k :: 0 <= k < 13 ==> Accepts(PeakAdjust(p, s, r)[k], w[k])
  {
    var r' := PeakAdjust(p, s, r);
    forall k | 0 <= k < 13
      ensures Accepts(r'[k], w[k])
    {
      assert Accepts(r[k], w[k]);
      if p[s + 3] != 0 {
        assert w[s + 3] == p[s + 3];
      } else {
        if p[s + 2] != 0 { assert w[s + 2] == p[s + 2]; }
        if PriceAt(p, s + 4) != 0 { assert w[s + 4] == p[s + 4]; }
      }
    }
  }

  /**
   * Applying the pass twice is applying it once, so a start day listed twice
   * gets the same prediction.
   */
  lemma PeakIdempotent(p: seq<int>, s: int, r: seq<Range>)
    requires |p| == 13 && |r| == 13 && PeakDefined(p, s)
    ensures PeakAdjust(p, s, PeakAdjust(p, s, r)) == PeakAdjust(p, s, r)
  {
    var r1 := PeakAdjust(p, s, r);
    var r2 := PeakAdjust(p, s, r1);
    forall k | 0 <= k < 13
      ensures r2[k] == r1[k]
    {
    }
  }

  /**
   * The pass exactly as the source writes it. An observed peak caps the
   * maximum of s+2 when s+2 is unobserved and of s+4 when s+4 is OBSERVED;
   * an unobserved peak has its minimum raised to the larger of its observed
   * neighbours. Nothing else changes, and every range only narrows.
   */
  function PeakAdjustAsWritten(p: seq<int>, s: int, r: seq<Range>): (r': seq<Range>)
    requires |p| == 13 && |r| == 13 && PeakDefined(p, s)
    ensures |r'| == 13
    ensures forall k :: 0 <= k < 13 && !(s + 2 <= k <= s + 4) ==> r'[k] == r[k]
    ensures forall k :: 0 <= k < 13 ==> r'[k].min >= r[k].min && r'[k].max <= r[k].max
    ensures s + 3 > 12 ==> r' == r
    // an observed peak: only maximums change, s+2 when unobserved, s+4 when observed
    ensures s + 3 <= 12 && p[s + 3] != 0 ==>
      r'[s + 3] == r[s + 3] &&
      r'[s + 2].min == r[s + 2].min &&
      r'[s + 2].max == (if p[s + 2] == 0 then Min(r[s + 2].max, p[s + 3] as real) else r[s + 2].max) &&
      (s + 4 <= 12 ==>
        r'[s + 4].min == r[s + 4].min &&
        r'[s + 4].max == (if p[s + 4] != 0 then Min(r[s + 4].max, p[s + 3] as real) else r[s + 4].max))
    // an unobserved peak: only its minimum changes, to the least value at or above
    // its old minimum and each observed neighbour
    ensures s + 3 <= 12 && p[s + 3] == 0 ==>
      r'[s + 2] == r[s + 2] && (s + 4 <= 12 ==> r'[s + 4] == r[s + 4]) &&
      r'[s + 3].max == r[s + 3].max &&
      (p[s + 2] != 0 ==> r'[s + 3].min >= p[s + 2] as real) &&
      (PriceAt(p, s + 4) != 0 ==> r'[s + 3].min >= p[s + 4] as real) &&
      (r'[s + 3].min == r[s + 3].min ||
       (p[s + 2] != 0 && r'[s + 3].min == p[s + 2] as real) ||
       (PriceAt(p, s + 4) != 0 && r'[s + 3].min == p[s + 4] as real))
  {
    if PriceAt(p, s + 3) != 0 then
      var r1 := if p[s + 2] == 0 then r[s + 2 := CapMax(r[s + 2], p[s + 3])] else r;
      if PriceAt(p, s + 4) != 0 then r1[s + 4 := CapMax(r1[s + 4], p[s + 3])] else r1
    else
      var r1 := if PriceAt(p, s + 2) != 0 then r[s + 3 := RaiseMin(r[s + 3], p[s + 2])] else r;
      if PriceAt(p, s + 4) != 0 then r1[s + 3 := RaiseMin(r1[s + 3], p[s + 4])] else r1
  }

  /**
   * Applying the pass as written twice is applying it once, so a start day
   * listed twice gets the same prediction as one listed once.
   */
  lemma PeakAsWrittenIdempotent(p: seq<int>, s: int, r: seq<Range>)
    requires |p| == 13 && |r| == 13 && PeakDefined(p, s)
    ensures PeakAdjustAsWritten(p, s, PeakAdjustAsWritten(p, s, r)) == PeakAdjustAsWritten(p, s, r)
  {
    var r1 := PeakAdjustAsWritten(p, s, r);
    var r2 := PeakAdjustAsWritten(p, s, r1);
    forall k | 0 <= k < 13
      ensures r2[k] == r1[k]
    {
    }
  }

  /**
   * The two passes differ only at slot s+4, and only after an observed peak:
   * as written an unobserved s+4 is left alone, corrected an observed s+4 is.
   */
  lemma PeakPassesDiffer(p: seq<int>, s: int, r: seq<Range>)
    requires |p| == 13 && |r| == 13 && PeakDefined(p, s)
    ensures var a, c := PeakAdjustAsWritten(p, s, r), PeakAdjust(p, s, r);
      (forall k :: 0 <= k < 13 && k != s + 4 ==> a[k] == c[k]) &&
      (s + 4 <= 12 && p[s + 3] != 0 ==>
        (p[s + 4] == 0 ==> a[s + 4] == r[s + 4]) &&
        (p[s + 4] != 0 ==> c[s + 4] == r[s + 4]))
      && (!(s + 4 <= 12 && p[s + 3] != 0) ==> a == c)
  {
    var a, c := PeakAdjustAsWritten(p, s, r), PeakAdjust(p, s, r);
    if !(s + 4 <= 12 && p[s + 3] != 0) {
      assert forall k :: 0 <= k < 13 ==> a[k] == c[k];
    }
  }

  /**
   * The week of the counterexample: rise starting Monday morning (s = 1),
   * peak observed on Tuesday afternoon (slot 4) at 150.
   */
  function PeakExamplePrices(fifth: int): (p: seq<int>)
    ensures |p| == 13 && p[4] == 150 && p[5] == fifth
    ensures forall k :: 0 <= k < 13 && k != 0 && k != 4 && k != 5 ==> p[k] == 0
  {
    [100, 0, 0, 0, 150, fifth, 0, 0, 0, 0, 0, 0, 0]
  }

  /**
   * As written, an unobserved slot after an observed peak keeps a maximum
   * above the peak (the corrected pass caps it), and an observed slot after
   * the peak that exceeds it is given a range its own price does not fit
   * (the corrected pass leaves observations alone).
   */
  lemma PeakAsWrittenCounterexample()
    ensures var r := seq(13, k => Range(0.0, 600.0));
      PeakAdjustAsWritten(PeakExamplePrices(0), 1, r)[5].max == 600.0 &&
      PeakAdjust(PeakExamplePrices(0), 1, r)[5].max == 150.0
    ensures var r := seq(13, k => Point(200));
      !Accepts(PeakAdjustAsWritten(PeakExamplePrices(200), 1, r)[5], 200) &&
      Accepts(PeakAdjust(PeakExamplePrices(200), 1, r)[5], 200)
  {
  }

  /** The peak pass applied to one prediction, statement by statement as the source writes it. */
  method MakePeak(p: seq<int>, s: int, prediction: seq<Range>) returns (r: seq<Range>)
    requires |p| == 13 && |prediction| == 13 && PeakDefined(p, s)
    ensures r == PeakAdjustAsWritten(p, s, prediction)
  {
    r := prediction;
    if PriceAt(p, s + 3) != 0 {
      if p[s + 2] == 0 {
        r := r[s + 2 := r[s + 2].(max := Min(r[s + 2].max, p[s + 3] as real))];
      }
      if PriceAt(p, s + 4) != 0 {
        r := r[s + 4 := r[s + 4].(max := Min(r[s + 4].max, p[s + 3] as real))];
      }
    } else {
      if PriceAt(p, s + 2) != 0 {
        r := r[s + 3 := r[s + 3].(min := Max(r[s + 3].min, p[s + 2] as real))];
      }
      if PriceAt(p, s + 4) != 0 {
        r := r[s + 3 := r[s + 3].(min := Max(r[s + 3].min, p[s + 4] as real))];
      }
    }
  }
}
