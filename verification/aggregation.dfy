/**
 * calcPrediction: runs calcEachPrediction once per purchase-price hypothesis,
 * unions the feasible branches slot by slot, re-checks every observed price
 * against the union and collapses it to a point.
 */
module Aggregation {
  import opened Wrappers
  import opened Ranges
  import opened Rules
  import opened Propagation
  import opened CalcEach

  const PURCHASE_MIN: int := 90
  const PURCHASE_MAX: int := 110

  /**
   * getPurchacePriceMinMax: an observed purchase price inside [90, 110] is the
   * only hypothesis (returned twice); anything else gives both ends 90 and 110.
   */
  function PurchaseMinMax(price: int): (r: (int, int))
    ensures PURCHASE_MIN <= r.0 <= r.1 <= PURCHASE_MAX
    ensures r.0 == r.1 <==> PURCHASE_MIN <= price <= PURCHASE_MAX
    ensures r.0 == r.1 ==> r.0 == price
  {
    if price != 0 && PURCHASE_MIN <= price && price <= PURCHASE_MAX then (price, price)
    else (PURCHASE_MIN, PURCHASE_MAX)
  }

  /** The n-th purchase price tried (n = 0, 1). */
  function Hypothesis(p: seq<int>, n: nat): (h: int)
    requires |p| == 13 && n < 2
    ensures h != 0
  {
    if n == 0 then PurchaseMinMax(p[0]).0 else PurchaseMinMax(p[0]).1
  }

  /**
   * The zero-tolerance slot-0 range of the result: inside [90, 110], and the
   * point of the purchase price exactly when that price is observed in range.
   */
  function PurchaseRange(price: int): (r: Range)
    ensures PURCHASE_MIN as real <= r.min <= r.max <= PURCHASE_MAX as real
    ensures r.min == r.max <==> PURCHASE_MIN <= price <= PURCHASE_MAX
    ensures r.min == r.max ==> r == Point(price)
  {
    Widened(PurchaseMinMax(price).0 as real, PurchaseMinMax(price).1 as real, 0)
  }

  /** The result array before any branch: slot 0 set, slots 1..12 not yet. */
  function Initial(p: seq<int>): (a: seq<Range>)
    requires |p| == 13
    ensures |a| == 13
  {
    seq(13, k requires 0 <= k < 13 => if k == 0 then PurchaseRange(p[0]) else UNSET)
  }

  /** One union step: slots 1..12 take the branch's range, or its hull with what is there. */
  function Absorb(acc: seq<Range>, seen: bool, e: seq<Range>): (a: seq<Range>)
    requires |acc| == 13 && |e| == 13
    ensures |a| == 13
  {
    seq(13, k requires 0 <= k < 13 => if k == 0 then acc[0] else if seen then Hull(acc[k], e[k]) else e[k])
  }

  /** The result array and whether slots 1..12 are set. */
  datatype Merge = Merge(ranges: seq<Range>, seen: bool)

  /** The state after the first n purchase hypotheses (n = 0, 1, 2). */
  function Branches(p: seq<int>, rules: seq<Rule>, tol: int, n: nat): (m: Merge)
    requires |p| == 13 && IsAssignment(rules) && n <= 2
    ensures |m.ranges| == 13
  {
    if n == 0 then Merge(Initial(p), false)
    else
      var m := Branches(p, rules, tol, n - 1);
      match EachPrediction(p[0 := Hypothesis(p, n - 1)], rules, tol)
      case None => m
      case Some(e) => Merge(Absorb(m.ranges, m.seen, e), true)
  }

  /** Every observed sell slot becomes the point of its price. */
  function Collapsed(p: seq<int>, a: seq<Range>): (c: seq<Range>)
    requires |p| == 13 && |a| == 13
    ensures |c| == 13
  {
    seq(13, k requires 0 <= k < 13 => if 1 <= k && p[k] != 0 then Point(p[k]) else a[k])
  }

  /** calcPrediction for one rule assignment. */
  function Prediction(p: seq<int>, rules: seq<Rule>, tol: int): (r: Option<seq<Range>>)
    requires |p| == 13 && IsAssignment(rules)
    ensures r.Some? ==> |r.value| == 13
  {
    var m := Branches(p, rules, tol, 2);
    if !m.seen then None
    else if Fits(p, m.ranges) then Some(Collapsed(p, m.ranges))
    else None
  }

  /** The union of whichever of two branches are feasible, at slot k. */
  function BranchUnion(x: Option<seq<Range>>, y: Option<seq<Range>>, k: nat): Range
    requires x.Some? || y.Some?
    requires x.Some? ==> k < |x.value|
    requires y.Some? ==> k < |y.value|
  {
    if x.Some? && y.Some? then Hull(x.value[k], y.value[k])
    else if x.Some? then x.value[k]
    else y.value[k]
  }

  lemma FitsUnderPurchase(p: seq<int>, h: int, a: seq<Range>)
    requires |p| == 13 && |a| == 13
    ensures Fits(p[0 := h], a) <==> Fits(p, a)
  {
    assert forall k :: 1 <= k <= 12 ==> p[0 := h][k] == p[k];
  }

  /**
   * What calcPrediction returns.  It is None exactly when neither purchase
   * hypothesis is feasible: the re-check after the union never rejects.
   * Otherwise slot 0 is the purchase range [lo, hi], each observed sell slot
   * is the point of its price, and each unobserved sell slot is the union of
   * the feasible branches' ranges (so it contains each of them).
   */
  lemma PredictionMeaning(p: seq<int>, rules: seq<Rule>, tol: int)
    requires |p| == 13 && IsAssignment(rules)
    ensures var (lo, hi) := PurchaseMinMax(p[0]);
      var x := EachPrediction(p[0 := lo], rules, tol);
      var y := EachPrediction(p[0 := hi], rules, tol);
      var r := Prediction(p, rules, tol);
      (r.None? <==> x.None? && y.None?) &&
      (r.Some? ==>
        |r.value| == 13 &&
        r.value[0] == Range(lo as real, hi as real) &&
        forall k :: 1 <= k <= 12 ==>
          (p[k] != 0 ==> r.value[k] == Point(p[k])) &&
          (p[k] == 0 ==> r.value[k] == BranchUnion(x, y, k)))
  {
    var (lo, hi) := PurchaseMinMax(p[0]);
    var x := EachPrediction(p[0 := lo], rules, tol);
    var y := EachPrediction(p[0 := hi], rules, tol);
    var m0 := Branches(p, rules, tol, 0);
    var m1 := Branches(p, rules, tol, 1);
    var m2 := Branches(p, rules, tol, 2);
    assert Hypothesis(p, 0) == lo && Hypothesis(p, 1) == hi;
    assert m1 == if x.None? then m0 else Merge(Absorb(m0.ranges, false, x.value), true);
    assert m2 == if y.None? then m1 else Merge(Absorb(m1.ranges, m1.seen, y.value), true);
    assert m1.seen == x.Some?;
    assert m2.seen == (x.Some? || y.Some?);
    if x.Some? {
      FitsUnderPurchase(p, lo, x.value);
    }
    if y.Some? {
      FitsUnderPurchase(p, hi, y.value);
    }
    if m2.seen {
      forall k | 1 <= k <= 12
        ensures m2.ranges[k] == BranchUnion(x, y, k)
      {
      }
      forall k | 1 <= k <= 12 && p[k] != 0
        ensures Accepts(m2.ranges[k], p[k])
      {
        if x.Some? {
          assert Accepts(x.value[k], p[k]);
        } else {
          assert Accepts(y.value[k], p[k]);
        }
      }
      assert Fits(p, m2.ranges);
      assert m2.ranges[0] == Initial(p)[0];
    }
  }

  /**
   * An observed purchase price within [90, 110] is the single hypothesis:
   * the result is that one branch with observed slots collapsed and slot 0
   * the point of the purchase price.
   */
  lemma SinglePurchaseHypothesis(p: seq<int>, rules: seq<Rule>, tol: int)
    requires |p| == 13 && IsAssignment(rules) && PURCHASE_MIN <= p[0] <= PURCHASE_MAX
    ensures var e := EachPrediction(p, rules, tol);
      Prediction(p, rules, tol) ==
        if e.None? then None else Some(Collapsed(p, e.value)[0 := Point(p[0])])
  {
    PredictionMeaning(p, rules, tol);
    assert p[0 := p[0]] == p;
    var e := EachPrediction(p, rules, tol);
    var r := Prediction(p, rules, tol);
    if e.Some? {
      var c := Collapsed(p, e.value)[0 := Point(p[0])];
      assert forall k :: 1 <= k <= 12 ==> Hull(e.value[k], e.value[k]) == e.value[k];
      assert r.value == c;
    }
  }

  /**
   * Observation collapse: when every sell slot is observed, every sell slot
   * of a feasible result is the point of its price, and so is slot 0 when the
   * purchase price was observed within [90, 110].
   */
  lemma ObservationCollapse(p: seq<int>, rules: seq<Rule>, tol: int)
    requires |p| == 13 && IsAssignment(rules)
    requires forall k :: 1 <= k <= 12 ==> p[k] != 0
    requires Prediction(p, rules, tol).Some?
    ensures var r := Prediction(p, rules, tol).value;
      |r| == 13 &&
      (forall k :: 1 <= k <= 12 ==> r[k] == Point(p[k])) &&
      (PURCHASE_MIN <= p[0] <= PURCHASE_MAX ==> r[0] == Point(p[0]))
  {
    PredictionMeaning(p, rules, tol);
  }

  /** The union step of calcPrediction, in place: slots 1..12 take the branch's range or widen to cover it. */
  method AbsorbInto(pred: array<Range>, seen: bool, e: seq<Range>)
    requires pred.Length == 13 && |e| == 13
    modifies pred
    ensures pred[..] == Absorb(old(pred[..]), seen, e)
  {
    ghost var acc := pred[..];
    var i := 1;
    while i < 13
      invariant 1 <= i <= 13
      invariant forall k :: 0 <= k < 13 ==> pred[k] == if 1 <= k < i then Absorb(acc, seen, e)[k] else acc[k]
    {
      if !seen {
        pred[i] := e[i];
      } else {
        pred[i] := Range(Min(pred[i].min, e[i].min), Max(pred[i].max, e[i].max));
      }
      i := i + 1;
    }
    assert pred[..] == Absorb(acc, seen, e);
  }

  /** calcPrediction as the source runs it: one result array updated in place. */
  method CalcPrediction(p: seq<int>, rules: seq<Rule>, tol: int) returns (r: Option<seq<Range>>)
    requires |p| == 13 && IsAssignment(rules)
    ensures r == Prediction(p, rules, tol)
  {
    var minMax := PurchaseMinMax(p[0]);
    var pred := new Range[13](_ => UNSET);
    pred[0] := Widened(minMax.0 as real, minMax.1 as real, 0);
    var seen := false;
    var hypotheses := [minMax.0, minMax.1];
    var n := 0;
    assert pred[0] == PurchaseRange(p[0]);
    assert pred[..] == Initial(p);
    while n < 2
      invariant 0 <= n <= 2
      invariant pred[..] == Branches(p, rules, tol, n).ranges
      invariant seen == Branches(p, rules, tol, n).seen
    {
      var each := CalcEachPrediction(p[0 := hypotheses[n]], rules, tol);
      if each.Some? {
        AbsorbInto(pred, seen, each.value);
        seen := true;
      }
      n := n + 1;
    }
    var ok := CollapseInto(p, pred, seen);
    r := if ok then Some(pred[..]) else None;
  }

  /**
   * The final loop of calcPrediction: fails when no branch was feasible or an
   * observed price misses the union; otherwise every observed slot becomes
   * the point of its price.
   */
  method CollapseInto(p: seq<int>, pred: array<Range>, seen: bool) returns (ok: bool)
    requires |p| == 13 && pred.Length == 13
    modifies pred
    ensures ok <==> seen && Fits(p, old(pred[..]))
    ensures ok ==> pred[..] == Collapsed(p, old(pred[..]))
  {
    ghost var merged := pred[..];
    var i := 1;
    while i < 13
      invariant 1 <= i <= 13
      invariant i > 1 ==> seen
      invariant forall k :: 0 <= k < 13 ==> pred[k] == if 1 <= k < i then Collapsed(p, merged)[k] else merged[k]
      invariant forall k :: 1 <= k < i && p[k] != 0 ==> Accepts(merged[k], p[k])
    {
      if !seen {
        return false;
      }
      if p[i] != 0 {
        if !Accepts(pred[i], p[i]) {
          return false;
        }
        pred[i] := Point(p[i]);
      }
      i := i + 1;
    }
    assert pred[..] == Collapsed(p, merged);
    ok := true;
  }
}
