/**
 * calcEachPrediction: one rule assignment, one purchase price.  A forward
 * interval pass over slots 1..12, a backward narrowing pass over slots 12..2,
 * a floor of every minimum at 1, and a check of every observed price.
 *
 * Prices are a 13-slot vector; slot 0 is the purchase price and a slot is
 * observed exactly when its price is non-zero.  The functions below are the
 * specification; the in-place algorithm is the CalcEach module, proved equal
 * to it.
 */
module Propagation {
  import opened Wrappers
  import opened Ranges
  import opened Rules

  /** `x` percent of the price `p`. */
  function Percent(p: int, x: int): real
  {
    (p as real) * (x as real) / 100.0
  }

  /** A rule's own purchase-ratio delta, `[p0*min/100, p0*max/100]`. */
  function Delta(p0: int, r: Rule): Range
  {
    Range(Percent(p0, r.min), Percent(p0, r.max))
  }

  function Plus(a: Range, b: Range): Range
  {
    Range(a.min + b.min, a.max + b.max)
  }

  // ---------------------------------------------------------------------
  // Forward pass
  // ---------------------------------------------------------------------

  /**
   * The PREV_PRICE_RATIO_DIFF scan for slot `i`, at position `j` going down,
   * with the running sum `acc`.  `f` holds the forward ranges of slots 0..i-1.
   */
  function ChainForward(p: seq<int>, rules: seq<Rule>, f: seq<Range>, i: nat, j: int, acc: Range): Range
    requires |p| == 13 && |rules| == 13 && 1 <= i <= 12 && |f| == i && j <= i
    requires rules[i].kind == PrevRatioDiff
    decreases j + 1
  {
    if j < 0 then acc
    else if p[j] != 0 && j != i then Offset(acc, p[j] as real, p[j] as real)
    else if IsAnchor(rules[j].kind) then Offset(acc, f[j].min, f[j].max)
    else if rules[j].kind == PurchaseRatio then Plus(acc, Delta(p[0], rules[j]))
    else ChainForward(p, rules, f, i, j - 1, Plus(acc, Delta(p[0], rules[j])))
  }

  /** The forward range of slot `i` from the ranges `f` of slots 0..i-1. */
  function ForwardSlot(p: seq<int>, rules: seq<Rule>, tol: int, f: seq<Range>, i: nat): Range
    requires |p| == 13 && |rules| == 13 && 1 <= i <= 12 && |f| == i
  {
    var t := rules[i];
    match t.kind
    case Price => Widened(t.min as real, t.max as real, tol)
    case PurchaseRatio => Widened(Percent(p[0], t.min), Percent(p[0], t.max), tol)
    case PrevDiff =>
      if p[i - 1] != 0 then Widened((p[i - 1] + t.min) as real, (p[i - 1] + t.max) as real, tol)
      else Widened(f[i - 1].min + t.min as real, f[i - 1].max + t.max as real, tol)
    case PrevRatioDiff => ChainForward(p, rules, f, i, i, Widened(0.0, 0.0, tol))
    case PrevRatio =>
      if p[i - 1] != 0 then Widened(Percent(p[i - 1], t.min), Percent(p[i - 1], t.max), tol)
      else Widened(f[i - 1].min * t.min as real / 100.0, f[i - 1].max * t.max as real / 100.0, tol)
  }

  /** Forward ranges of slots 0..k (slot 0 is left unset). */
  function ForwardUpTo(p: seq<int>, rules: seq<Rule>, tol: int, k: nat): (f: seq<Range>)
    requires |p| == 13 && |rules| == 13 && k <= 12
    ensures |f| == k + 1
  {
    if k == 0 then [UNSET]
    else
      var f := ForwardUpTo(p, rules, tol, k - 1);
      f + [ForwardSlot(p, rules, tol, f, k)]
  }

  function Forward(p: seq<int>, rules: seq<Rule>, tol: int): (f: seq<Range>)
    requires |p| == 13 && |rules| == 13
  {
    ForwardUpTo(p, rules, tol, 12)
  }

  // ---------------------------------------------------------------------
  // Backward pass
  // ---------------------------------------------------------------------

  /**
   * The backward PREV_PRICE_RATIO_DIFF scan for slot `i`, at position `j`
   * going up, with the summed percentages `spMin`, `spMax` of the chain
   * slots i..j-1.  The result bounds slot i-1; None when the scan meets a
   * PRICE or PURCHASE_PRICE_RATIO rule or runs past slot 12.
   */
  function ChainBackward(p: seq<int>, rules: seq<Rule>, tol: int, a: seq<Range>, i: nat, j: nat, spMin: int, spMax: int): Option<Range>
    requires |p| == 13 && |rules| == 13 && |a| == 13 && 2 <= i <= 12 && i <= j <= 13
    requires rules[i].kind == PrevRatioDiff
    decreases 13 - j
  {
    if j > 12 then None
    else
      var m := rules[j].kind;
      if m == Price || m == PurchaseRatio then None
      else if m == PrevDiff || m == PrevRatio then
        if p[j - 1] != 0 then
          Some(Widened(p[j - 1] as real - Percent(p[0], spMax), p[j - 1] as real - Percent(p[0], spMin), tol))
        else
          Some(Widened(a[j - 1].min - Percent(p[0], spMax), a[j - 1].max - Percent(p[0], spMin), tol))
      else
        var lo, hi := spMin + rules[j].min, spMax + rules[j].max;
        if p[j] != 0 then Some(Widened(p[j] as real - Percent(p[0], hi), p[j] as real - Percent(p[0], lo), tol))
        else ChainBackward(p, rules, tol, a, i, j + 1, lo, hi)
  }

  /** The bound that slot `i`'s rule puts on slot i-1, from the current ranges `a`. */
  function BackwardBound(p: seq<int>, rules: seq<Rule>, tol: int, a: seq<Range>, i: nat): (b: Option<Range>)
    requires |p| == 13 && IsAssignment(rules) && |a| == 13 && 2 <= i <= 12
    ensures rules[i].kind == Price || rules[i].kind == PurchaseRatio ==> b == None
  {
    var t := rules[i];
    match t.kind
    case PrevDiff =>
      if p[i] != 0 then Some(Widened((p[i] - t.max) as real, (p[i] - t.min) as real, tol))
      else Some(Widened(a[i].min - t.max as real, a[i].max - t.min as real, tol))
    case PrevRatioDiff => ChainBackward(p, rules, tol, a, i, i, 0, 0)
    case PrevRatio =>
      if p[i] != 0 then Some(Widened((p[i] * 100) as real / t.max as real, (p[i] * 100) as real / t.min as real, tol))
      else Some(Widened(a[i].min * 100.0 / t.max as real, a[i].max * 100.0 / t.min as real, tol))
    case Price => None
    case PurchaseRatio => None
  }

  /** One backward step: narrow slot i-1 by slot i's bound, if there is one. */
  function Step(p: seq<int>, rules: seq<Rule>, tol: int, a: seq<Range>, i: nat): (a': seq<Range>)
    requires |p| == 13 && IsAssignment(rules) && |a| == 13 && 2 <= i <= 12
    ensures |a'| == 13
  {
    match BackwardBound(p, rules, tol, a, i)
    case None => a
    case Some(b) => a[i - 1 := Narrow(a[i - 1], b)]
  }

  /**
   * The state after the first `n` backward steps, which handle slots
   * 12, 11, ..., 13-n in that order (step for slot i narrows slot i-1).
   */
  function BackwardSteps(p: seq<int>, rules: seq<Rule>, tol: int, a: seq<Range>, n: nat): (a': seq<Range>)
    requires |p| == 13 && IsAssignment(rules) && |a| == 13 && n <= 11
    ensures |a'| == 13
  {
    if n == 0 then a else Step(p, rules, tol, BackwardSteps(p, rules, tol, a, n - 1), 13 - n)
  }

  /** The whole backward pass: slots 12 down to 2. */
  function Backward(p: seq<int>, rules: seq<Rule>, tol: int, a: seq<Range>): (a': seq<Range>)
    requires |p| == 13 && IsAssignment(rules) && |a| == 13
    ensures |a'| == 13
  {
    BackwardSteps(p, rules, tol, a, 11)
  }

  // ---------------------------------------------------------------------
  // Flooring, validation, the whole of calcEachPrediction
  // ---------------------------------------------------------------------

  /** Every minimum of slots 1..12 floored at 1; slot 0 as it was. */
  function Floored(a: seq<Range>): (a': seq<Range>)
    requires |a| == 13
    ensures |a'| == 13
  {
    seq(13, k requires 0 <= k < 13 => if k == 0 then a[0] else FloorAtOne(a[k]))
  }

  /** Every observed sell slot lies inside its range. */
  predicate Fits(p: seq<int>, a: seq<Range>)
    requires |p| == 13 && |a| == 13
  {
    forall k :: 1 <= k <= 12 && p[k] != 0 ==> Accepts(a[k], p[k])
  }

  function Reconciled(p: seq<int>, rules: seq<Rule>, tol: int): (a: seq<Range>)
    requires |p| == 13 && IsAssignment(rules)
    ensures |a| == 13
  {
    Floored(Backward(p, rules, tol, Forward(p, rules, tol)))
  }

  /** calcEachPrediction: the reconciled ranges, or None when an observation does not fit. */
  function EachPrediction(p: seq<int>, rules: seq<Rule>, tol: int): (r: Option<seq<Range>>)
    requires |p| == 13 && IsAssignment(rules) && p[0] != 0
    ensures r.Some? <==> Fits(p, Reconciled(p, rules, tol))
    ensures r.Some? ==> r.value == Reconciled(p, rules, tol)
  {
    var a := Reconciled(p, rules, tol);
    if Fits(p, a) then Some(a) else None
  }
}
