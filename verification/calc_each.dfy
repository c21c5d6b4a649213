/**
 * calcEachPrediction as the source runs it: one 13-slot array of ranges,
 * filled by the forward loop, narrowed in place by the backward loop, then
 * floored and checked slot by slot.
 */
module CalcEach {
  import opened Wrappers
  import opened Ranges
  import opened Rules
  import opened Propagation
  import PropagationLemmas

  /** The inner forward scan of a PREV_PRICE_RATIO_DIFF slot i over the ranges `f` of slots 0..i-1. */
  method ChainForwardSum(p: seq<int>, rules: seq<Rule>, tol: int, f: seq<Range>, i: nat) returns (r: Range)
    requires |p| == 13 && |rules| == 13 && 1 <= i <= 12 && |f| == i
    requires rules[i].kind == PrevRatioDiff
    ensures r == ForwardSlot(p, rules, tol, f, i)
  {
    r := Widened(0.0, 0.0, tol);
    var j: int := i;
    while j >= 0
      invariant -1 <= j <= i
      invariant ChainForward(p, rules, f, i, j, r) == ForwardSlot(p, rules, tol, f, i)
      decreases j + 1
    {
      if p[j] != 0 && j != i {
        r := Offset(r, p[j] as real, p[j] as real);
        return;
      } else if IsAnchor(rules[j].kind) {
        r := Offset(r, f[j].min, f[j].max);
        return;
      } else if rules[j].kind == PurchaseRatio {
        r := Plus(r, Delta(p[0], rules[j]));
        return;
      } else if rules[j].kind == PrevRatioDiff {
        r := Plus(r, Delta(p[0], rules[j]));
      }
      j := j - 1;
    }
  }

  /** One case of the forward switch: slot i's range from the ranges `f` of slots 0..i-1. */
  method ForwardRange(p: seq<int>, rules: seq<Rule>, tol: int, f: seq<Range>, i: nat) returns (r: Range)
    requires |p| == 13 && |rules| == 13 && 1 <= i <= 12 && |f| == i
    ensures r == ForwardSlot(p, rules, tol, f, i)
  {
    var t := rules[i];
    match t.kind {
      case Price =>
        r := Widened(t.min as real, t.max as real, tol);
      case PurchaseRatio =>
        r := Widened(Percent(p[0], t.min), Percent(p[0], t.max), tol);
      case PrevDiff =>
        if p[i - 1] != 0 {
          r := Widened((p[i - 1] + t.min) as real, (p[i - 1] + t.max) as real, tol);
        } else {
          r := Widened(f[i - 1].min + t.min as real, f[i - 1].max + t.max as real, tol);
        }
      case PrevRatioDiff =>
        r := ChainForwardSum(p, rules, tol, f, i);
      case PrevRatio =>
        if p[i - 1] != 0 {
          r := Widened(Percent(p[i - 1], t.min), Percent(p[i - 1], t.max), tol);
        } else {
          r := Widened(f[i - 1].min * t.min as real / 100.0, f[i - 1].max * t.max as real / 100.0, tol);
        }
    }
  }

  /** The forward loop over slots 1..12. */
  method ForwardPass(p: seq<int>, rules: seq<Rule>, tol: int, pred: array<Range>)
    requires |p| == 13 && |rules| == 13 && pred.Length == 13 && pred[0] == UNSET
    modifies pred
    ensures pred[..] == Forward(p, rules, tol)
  {
    var i := 1;
    while i < 13
      invariant 1 <= i <= 13
      invariant pred[..i] == ForwardUpTo(p, rules, tol, i - 1)
    {
      var f := pred[..i];
      var r := ForwardRange(p, rules, tol, f, i);
      pred[i] := r;
      assert pred[..i + 1] == f + [r];
      i := i + 1;
    }
    assert pred[..] == pred[..13];
  }

  /** The inner backward scan of a PREV_PRICE_RATIO_DIFF slot i over the current ranges `a`. */
  method ChainBackwardBound(p: seq<int>, rules: seq<Rule>, tol: int, a: seq<Range>, i: nat) returns (b: Option<Range>)
    requires |p| == 13 && IsAssignment(rules) && |a| == 13 && 2 <= i <= 12
    requires rules[i].kind == PrevRatioDiff
    ensures b == BackwardBound(p, rules, tol, a, i)
  {
    var spMin, spMax := 0, 0;
    var j := i;
    b := None;
    while j <= 12
      invariant i <= j <= 13
      invariant ChainBackward(p, rules, tol, a, i, j, spMin, spMax) == BackwardBound(p, rules, tol, a, i)
      decreases 13 - j
    {
      var m := rules[j].kind;
      if m == Price || m == PurchaseRatio {
        return;
      } else if m == PrevDiff || m == PrevRatio {
        if p[j - 1] != 0 {
          b := Some(Widened(p[j - 1] as real - Percent(p[0], spMax), p[j - 1] as real - Percent(p[0], spMin), tol));
        } else {
          b := Some(Widened(a[j - 1].min - Percent(p[0], spMax), a[j - 1].max - Percent(p[0], spMin), tol));
        }
        return;
      } else {
        spMin := spMin + rules[j].min;
        spMax := spMax + rules[j].max;
        if p[j] != 0 {
          b := Some(Widened(p[j] as real - Percent(p[0], spMax), p[j] as real - Percent(p[0], spMin), tol));
          return;
        }
      }
      j := j + 1;
    }
  }

  /** The backward loop over slots 12..2, narrowing slot i-1 in place. */
  method BackwardPass(p: seq<int>, rules: seq<Rule>, tol: int, pred: array<Range>)
    requires |p| == 13 && IsAssignment(rules) && pred.Length == 13
    modifies pred
    ensures pred[..] == Backward(p, rules, tol, old(pred[..]))
  {
    ghost var start := pred[..];
    var i := 12;
    while i >= 2
      invariant 1 <= i <= 12
      invariant pred[..] == BackwardSteps(p, rules, tol, start, 12 - i)
    {
      var a := pred[..];
      var t := rules[i];
      var b: Option<Range> := None;
      match t.kind {
        case PrevDiff =>
          if p[i] != 0 {
            b := Some(Widened((p[i] - t.max) as real, (p[i] - t.min) as real, tol));
          } else {
            b := Some(Widened(pred[i].min - t.max as real, pred[i].max - t.min as real, tol));
          }
        case PrevRatioDiff =>
          b := ChainBackwardBound(p, rules, tol, a, i);
        case PrevRatio =>
          if p[i] != 0 {
            b := Some(Widened((p[i] * 100) as real / t.max as real, (p[i] * 100) as real / t.min as real, tol));
          } else {
            b := Some(Widened(pred[i].min * 100.0 / t.max as real, pred[i].max * 100.0 / t.min as real, tol));
          }
        case Price =>
        case PurchaseRatio =>
      }
      assert b == BackwardBound(p, rules, tol, a, i);
      if b.Some? {
        pred[i - 1] := Range(Max(pred[i - 1].min, b.value.min), Min(pred[i - 1].max, b.value.max));
      }
      assert pred[..] == Step(p, rules, tol, a, i);
      i := i - 1;
    }
  }

  /** The final loop: floor each minimum at 1, then reject an observed price outside its range. */
  method FloorAndCheck(p: seq<int>, pred: array<Range>) returns (r: Option<seq<Range>>)
    requires |p| == 13 && pred.Length == 13
    modifies pred
    ensures r == (if Fits(p, Floored(old(pred[..]))) then Some(Floored(old(pred[..]))) else None)
  {
    ghost var start := pred[..];
    var i := 1;
    while i < 13
      invariant 1 <= i <= 13
      invariant forall k :: 0 <= k < 13 ==> pred[k] == if 1 <= k < i then Floored(start)[k] else start[k]
      invariant forall k :: 1 <= k < i && p[k] != 0 ==> Accepts(Floored(start)[k], p[k])
    {
      pred[i] := pred[i].(min := Max(1.0, pred[i].min));
      if p[i] != 0 && !Accepts(pred[i], p[i]) {
        return None;
      }
      i := i + 1;
    }
    assert pred[..] == Floored(start);
    return Some(pred[..]);
  }

  /** calcEachPrediction: the reconciled ranges of one assignment, or None when infeasible. */
  method CalcEachPrediction(p: seq<int>, rules: seq<Rule>, tol: int) returns (r: Option<seq<Range>>)
    requires |p| == 13 && IsAssignment(rules) && p[0] != 0
    ensures r == EachPrediction(p, rules, tol)
  {
    var pred := new Range[13](_ => UNSET);
    ForwardPass(p, rules, tol, pred);
    BackwardPass(p, rules, tol, pred);
    r := FloorAndCheck(p, pred);
  }
}
