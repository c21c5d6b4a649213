/** What the forward and backward passes of calcEachPrediction guarantee. */
module PropagationLemmas {
  import opened Wrappers
  import opened Ranges
  import opened Rules
  import opened Propagation

  // ---------------------------------------------------------------------
  // Forward pass
  // ---------------------------------------------------------------------

  /** Later forward slots never change earlier ones. */
  lemma {:induction false} ForwardPrefix(p: seq<int>, rules: seq<Rule>, tol: int, j: nat, k: nat)
    requires |p| == 13 && |rules| == 13 && j <= k <= 12
    ensures ForwardUpTo(p, rules, tol, k)[..j + 1] == ForwardUpTo(p, rules, tol, j)
    decreases k
  {
    if j < k {
      ForwardPrefix(p, rules, tol, j, k - 1);
      var f := ForwardUpTo(p, rules, tol, k - 1);
      assert ForwardUpTo(p, rules, tol, k)[..j + 1] == f[..j + 1];
    }
  }

  /** Slot i of the forward pass is its rule applied to the forward ranges of slots 0..i-1. */
  lemma ForwardAt(p: seq<int>, rules: seq<Rule>, tol: int, i: nat)
    requires |p| == 13 && |rules| == 13 && 1 <= i <= 12
    ensures |Forward(p, rules, tol)| == 13
    ensures Forward(p, rules, tol)[i] == ForwardSlot(p, rules, tol, Forward(p, rules, tol)[..i], i)
  {
    ForwardPrefix(p, rules, tol, i, 12);
    ForwardPrefix(p, rules, tol, i - 1, 12);
    var g := ForwardUpTo(p, rules, tol, i);
    assert g == ForwardUpTo(p, rules, tol, i - 1) + [ForwardSlot(p, rules, tol, ForwardUpTo(p, rules, tol, i - 1), i)];
    assert Forward(p, rules, tol)[..i + 1] == g;
    assert Forward(p, rules, tol)[..i] == g[..i];
  }

  /**
   * Where the forward PREV_PRICE_RATIO_DIFF scan for slot i, at position j,
   * stops: the first slot going down that is an observed earlier slot or is
   * governed by a rule other than PREV_PRICE_RATIO_DIFF (-1 if none).
   */
  function ChainStop(p: seq<int>, rules: seq<Rule>, i: nat, j: int): (s: int)
    requires |p| == 13 && |rules| == 13 && 1 <= i <= 12 && -1 <= j <= i
    ensures -1 <= s <= j
    decreases j + 1
  {
    if j < 0 then -1
    else if (p[j] != 0 && j != i) || rules[j].kind != PrevRatioDiff then j
    else ChainStop(p, rules, i, j - 1)
  }

  /** The purchase-ratio deltas of slots lo..hi-1 added up. */
  function DeltaSum(p0: int, rules: seq<Rule>, lo: nat, hi: nat): Range
    requires hi <= |rules|
    decreases hi
  {
    if hi <= lo then Range(0.0, 0.0) else Plus(DeltaSum(p0, rules, lo, hi - 1), Delta(p0, rules[hi - 1]))
  }

  /** What the terminating slot s contributes. */
  function Terminal(p: seq<int>, rules: seq<Rule>, f: seq<Range>, s: nat): Range
    requires |p| == 13 && |rules| == 13 && s < |f| && s < 13
  {
    if p[s] != 0 then Range(p[s] as real, p[s] as real)
    else if IsAnchor(rules[s].kind) then f[s]
    else Delta(p[0], rules[s])
  }

  lemma {:induction false} ChainForwardFrom(p: seq<int>, rules: seq<Rule>, f: seq<Range>, i: nat, j: int, acc: Range)
    requires |p| == 13 && |rules| == 13 && 1 <= i <= 12 && |f| == i && 0 <= j <= i
    requires rules[i].kind == PrevRatioDiff && p[0] != 0
    ensures var s := ChainStop(p, rules, i, j);
      0 <= s < i &&
      (forall k :: s < k <= j ==> rules[k].kind == PrevRatioDiff && (k == i || p[k] == 0)) &&
      ChainForward(p, rules, f, i, j, acc) == Plus(Plus(acc, DeltaSum(p[0], rules, s + 1, j + 1)), Terminal(p, rules, f, s))
    decreases j
  {
    var s := ChainStop(p, rules, i, j);
    if (p[j] != 0 && j != i) || rules[j].kind != PrevRatioDiff {
      assert s == j;
    } else {
      assert j != 0;
      var acc' := Plus(acc, Delta(p[0], rules[j]));
      ChainForwardFrom(p, rules, f, i, j - 1, acc');
      assert s == ChainStop(p, rules, i, j - 1);
      assert DeltaSum(p[0], rules, s + 1, j + 1) == Plus(DeltaSum(p[0], rules, s + 1, j), Delta(p[0], rules[j]));
    }
  }

  /**
   * The forward scan for a PREV_PRICE_RATIO_DIFF slot i always stops at a slot
   * s in 0..i-1 (slot 0's price is always set), having passed only unobserved
   * PREV_PRICE_RATIO_DIFF slots; its range is the tolerance range [-tol, tol]
   * plus the deltas of slots s+1..i (its own included) plus what slot s gives.
   */
  lemma ChainForwardClosed(p: seq<int>, rules: seq<Rule>, tol: int, f: seq<Range>, i: nat)
    requires |p| == 13 && |rules| == 13 && 1 <= i <= 12 && |f| == i
    requires rules[i].kind == PrevRatioDiff && p[0] != 0
    ensures var s := ChainStop(p, rules, i, i);
      0 <= s < i &&
      (forall k :: s < k < i ==> rules[k].kind == PrevRatioDiff && p[k] == 0) &&
      ForwardSlot(p, rules, tol, f, i) ==
        Plus(Plus(Range(-tol as real, tol as real), DeltaSum(p[0], rules, s + 1, i + 1)), Terminal(p, rules, f, s))
  {
    ChainForwardFrom(p, rules, f, i, i, Widened(0.0, 0.0, tol));
  }

  // ---------------------------------------------------------------------
  // Backward pass
  // ---------------------------------------------------------------------

  /**
   * The backward pass only narrows: every slot ends inside its forward range,
   * slots 0 and 12 are never touched, and the slots below 12-n are still
   * untouched after n steps.
   */
  lemma {:induction false} BackwardNarrows(p: seq<int>, rules: seq<Rule>, tol: int, a: seq<Range>, n: nat)
    requires |p| == 13 && IsAssignment(rules) && |a| == 13 && n <= 11
    ensures forall k :: 0 <= k < 13 ==> Within(BackwardSteps(p, rules, tol, a, n)[k], a[k])
    ensures BackwardSteps(p, rules, tol, a, n)[0] == a[0]
    ensures BackwardSteps(p, rules, tol, a, n)[12] == a[12]
    ensures forall k :: 0 <= k < 12 - n ==> BackwardSteps(p, rules, tol, a, n)[k] == a[k]
  {
    if n > 0 {
      BackwardNarrows(p, rules, tol, a, n - 1);
      var prev := BackwardSteps(p, rules, tol, a, n - 1);
      var next := BackwardSteps(p, rules, tol, a, n);
      assert next == Step(p, rules, tol, prev, 13 - n);
      forall k | 0 <= k < 13
        ensures Within(next[k], a[k])
      {
        assert Within(next[k], prev[k]);
        WithinTransitive(next[k], prev[k], a[k]);
      }
    }
  }

  /** Steps after the one for slot i never touch slot i-1 again. */
  lemma {:induction false} BackwardSettled(p: seq<int>, rules: seq<Rule>, tol: int, a: seq<Range>, m: nat, n: nat)
    requires |p| == 13 && IsAssignment(rules) && |a| == 13 && m <= n <= 11
    ensures forall k :: 12 - m <= k < 13 ==> BackwardSteps(p, rules, tol, a, n)[k] == BackwardSteps(p, rules, tol, a, m)[k]
    decreases n
  {
    if m < n {
      BackwardSettled(p, rules, tol, a, m, n - 1);
    }
  }

  lemma {:induction false} ChainBackwardRunsOut(p: seq<int>, rules: seq<Rule>, tol: int, a: seq<Range>, i: nat, j: nat, spMin: int, spMax: int)
    requires |p| == 13 && |rules| == 13 && |a| == 13 && 2 <= i <= 12 && i <= j <= 13
    requires rules[i].kind == PrevRatioDiff
    requires forall k :: j <= k <= 12 ==> rules[k].kind == PrevRatioDiff && p[k] == 0
    ensures ChainBackward(p, rules, tol, a, i, j, spMin, spMax) == None
    decreases 13 - j
  {
    if j <= 12 {
      ChainBackwardRunsOut(p, rules, tol, a, i, j + 1, spMin + rules[j].min, spMax + rules[j].max);
    }
  }

  /**
   * A backward chain scan that meets only unobserved PREV_PRICE_RATIO_DIFF
   * slots up to slot 12 finds no terminator and puts no bound on slot i-1.
   */
  lemma UnterminatedChainNoBound(p: seq<int>, rules: seq<Rule>, tol: int, a: seq<Range>, i: nat)
    requires |p| == 13 && IsAssignment(rules) && |a| == 13 && 2 <= i <= 12
    requires forall k :: i <= k <= 12 ==> rules[k].kind == PrevRatioDiff && p[k] == 0
    ensures BackwardBound(p, rules, tol, a, i) == None
    ensures Step(p, rules, tol, a, i) == a
  {
    ChainBackwardRunsOut(p, rules, tol, a, i, i, 0, 0);
  }

  /**
   * Reconciled slot i-1 lies within the bound b that slot i's rule gave it
   * in the backward pass (computed from the state before that step), if any.
   */
  predicate RespectsBackwardBound(p: seq<int>, rules: seq<Rule>, tol: int, i: nat)
    requires |p| == 13 && IsAssignment(rules) && 2 <= i <= 12
  {
    var b := BackwardBound(p, rules, tol, BackwardSteps(p, rules, tol, Forward(p, rules, tol), 12 - i), i);
    var r := Reconciled(p, rules, tol);
    b.Some? ==> r[i - 1].min >= b.value.min && r[i - 1].max <= b.value.max
  }

  /**
   * Interval monotonicity: every reconciled slot 1..12 lies within its forward
   * range and has its minimum at least 1; every slot with a backward bound lies
   * within that bound too; slot 12 is its forward range floored.
   */
  lemma ReconciledWithin(p: seq<int>, rules: seq<Rule>, tol: int)
    requires |p| == 13 && IsAssignment(rules)
    ensures var f := Forward(p, rules, tol); var r := Reconciled(p, rules, tol);
      |f| == 13 &&
      (forall k :: 1 <= k <= 12 ==> r[k].min >= 1.0 && r[k].min >= f[k].min && r[k].max <= f[k].max) &&
      r[12] == FloorAtOne(f[12])
    ensures forall i :: 2 <= i <= 12 ==> RespectsBackwardBound(p, rules, tol, i)
  {
    var f := Forward(p, rules, tol);
    BackwardNarrows(p, rules, tol, f, 11);
    forall i | 2 <= i <= 12
      ensures RespectsBackwardBound(p, rules, tol, i)
    {
      BackwardSettled(p, rules, tol, f, 13 - i, 11);
      var before := BackwardSteps(p, rules, tol, f, 12 - i);
      assert BackwardSteps(p, rules, tol, f, 13 - i) == Step(p, rules, tol, before, i);
    }
  }

  // ---------------------------------------------------------------------
  // Slot 0's rule is never read
  // ---------------------------------------------------------------------

  lemma {:induction false} ChainForwardSlot0(p: seq<int>, rules: seq<Rule>, x: Rule, f: seq<Range>, i: nat, j: int, acc: Range)
    requires |p| == 13 && |rules| == 13 && 1 <= i <= 12 && |f| == i && j <= i
    requires rules[i].kind == PrevRatioDiff && p[0] != 0
    ensures ChainForward(p, rules, f, i, j, acc) == ChainForward(p, rules[0 := x], f, i, j, acc)
    decreases j + 1
  {
    if j > 0 {
      ChainForwardSlot0(p, rules, x, f, i, j - 1, Plus(acc, Delta(p[0], rules[j])));
    }
  }

  lemma SlotRuleSlot0(p: seq<int>, rules: seq<Rule>, x: Rule, tol: int, f: seq<Range>, k: nat)
    requires |p| == 13 && |rules| == 13 && 1 <= k <= 12 && |f| == k && p[0] != 0
    ensures ForwardSlot(p, rules, tol, f, k) == ForwardSlot(p, rules[0 := x], tol, f, k)
  {
    var rules' := rules[0 := x];
    assert rules'[k] == rules[k];
    if rules[k].kind == PrevRatioDiff {
      ChainForwardSlot0(p, rules, x, f, k, k, Widened(0.0, 0.0, tol));
    }
  }

  lemma {:induction false} ForwardSlot0(p: seq<int>, rules: seq<Rule>, x: Rule, tol: int, k: nat)
    requires |p| == 13 && |rules| == 13 && k <= 12 && p[0] != 0
    ensures ForwardUpTo(p, rules, tol, k) == ForwardUpTo(p, rules[0 := x], tol, k)
  {
    if k > 0 {
      ForwardSlot0(p, rules, x, tol, k - 1);
      SlotRuleSlot0(p, rules, x, tol, ForwardUpTo(p, rules, tol, k - 1), k);
    }
  }

  lemma {:induction false} ChainBackwardSlot0(p: seq<int>, rules: seq<Rule>, x: Rule, tol: int, a: seq<Range>, i: nat, j: nat, spMin: int, spMax: int)
    requires |p| == 13 && |rules| == 13 && |a| == 13 && 2 <= i <= 12 && i <= j <= 13
    requires rules[i].kind == PrevRatioDiff
    ensures ChainBackward(p, rules, tol, a, i, j, spMin, spMax) == ChainBackward(p, rules[0 := x], tol, a, i, j, spMin, spMax)
    decreases 13 - j
  {
    if j <= 12 {
      ChainBackwardSlot0(p, rules, x, tol, a, i, j + 1, spMin + rules[j].min, spMax + rules[j].max);
    }
  }

  lemma {:induction false} BackwardSlot0(p: seq<int>, rules: seq<Rule>, x: Rule, tol: int, a: seq<Range>, n: nat)
    requires |p| == 13 && IsAssignment(rules) && |a| == 13 && n <= 11
    ensures IsAssignment(rules[0 := x])
    ensures BackwardSteps(p, rules, tol, a, n) == BackwardSteps(p, rules[0 := x], tol, a, n)
  {
    if n > 0 {
      BackwardSlot0(p, rules, x, tol, a, n - 1);
      var prev := BackwardSteps(p, rules, tol, a, n - 1);
      if rules[13 - n].kind == PrevRatioDiff {
        ChainBackwardSlot0(p, rules, x, tol, prev, 13 - n, 13 - n, 0, 0);
      }
    }
  }

  /**
   * calcEachPrediction never reads the rule of slot 0 (the source leaves it
   * unset): any rule there gives the same outcome.
   */
  lemma IgnoresSlot0Rule(p: seq<int>, rules: seq<Rule>, x: Rule, tol: int)
    requires |p| == 13 && IsAssignment(rules) && p[0] != 0
    ensures IsAssignment(rules[0 := x])
    ensures EachPrediction(p, rules, tol) == EachPrediction(p, rules[0 := x], tol)
  {
    ForwardSlot0(p, rules, x, tol, 12);
    BackwardSlot0(p, rules, x, tol, Forward(p, rules, tol), 11);
  }
}
