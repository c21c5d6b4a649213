/**
 * The rule assignments each pattern family hands to calcPrediction: one for
 * the falling pattern, one per rising start day for the third- and
 * fourth-period patterns, one per accepted pair of falling-run start days for
 * the wave pattern (with its 12-character key).
 */
module Assignments {
  import opened Rules

  // ---------------------------------------------------------------------
  // Parameters
  // ---------------------------------------------------------------------

  datatype WaveParams = WaveParams(
    risingTransition: Rule,
    twoTimesFalling1Transition: Rule,
    twoTimesFalling2Transition: Rule,
    threeTimesFalling1Transition: Rule,
    threeTimesFalling2Transition: Rule,
    threeTimesFalling3Transition: Rule,
    twoTimesFallingStartDays: seq<int>,
    threeTimesFallingStartDays: seq<int>)
  {
    predicate Valid()
    {
      Invertible(risingTransition) &&
      Invertible(twoTimesFalling1Transition) && Invertible(twoTimesFalling2Transition) &&
      Invertible(threeTimesFalling1Transition) && Invertible(threeTimesFalling2Transition) &&
      Invertible(threeTimesFalling3Transition)
    }
  }

  datatype FallingParams = FallingParams(mon1Transition: Rule, otherDaysTransition: Rule)
  {
    /** The rules of slots 2..12 can be inverted; slot 1's rule is never divided by. */
    predicate Valid()
    {
      Invertible(otherDaysTransition)
    }
  }

  /** The third- and fourth-period parameters (the peak flag is read for the fourth only). */
  datatype PeriodParams = PeriodParams(
    mon1Transition: Rule,
    beforeRisingTransition: Rule,
    rising1Transition: Rule,
    rising2Transition: Rule,
    rising3Transition: Rule,
    rising4Transition: Rule,
    rising5Transition: Rule,
    rising6Transition: Rule,
    afterRisingTransition: Rule,
    risingStartDays: seq<int>,
    hasFourthPeriodPeak: bool)
  {
    /** risingTransitionSequence, in order. */
    function RisingSequence(): (s: seq<Rule>)
      ensures |s| == 6
    {
      [rising1Transition, rising2Transition, rising3Transition,
       rising4Transition, rising5Transition, rising6Transition]
    }

    /** The rules that can reach slots 2..12 can be inverted; the Monday-morning rule never does. */
    predicate Valid()
    {
      Invertible(beforeRisingTransition) &&
      Invertible(afterRisingTransition) &&
      forall k :: 0 <= k < 6 ==> Invertible(RisingSequence()[k])
    }
  }

  // ---------------------------------------------------------------------
  // Falling pattern
  // ---------------------------------------------------------------------

  /** Slot 1 takes the Monday-morning rule, slots 2..12 the other-days rule. */
  function FallingRules(f: FallingParams): (rules: seq<Rule>)
    ensures |rules| == 13 && rules[0] == SLOT0_RULE && rules[1] == f.mon1Transition
    ensures forall d :: 2 <= d < 13 ==> rules[d] == f.otherDaysTransition
    ensures f.Valid() ==> IsAssignment(rules)
  {
    seq(13, d requires 0 <= d < 13 =>
      if d == 0 then SLOT0_RULE else if d == 1 then f.mon1Transition else f.otherDaysTransition)
  }

  /**
   * A Monday-morning ratio rule with a zero bound is accepted: slot 1's rule is
   * only ever applied forward, never divided by.
   */
  lemma ZeroBoundMondayRuleAccepted()
    ensures var f := FallingParams(Rule(PrevRatio, 0, 50), Rule(PrevRatioDiff, -4, -1));
      f.Valid() && !Invertible(f.mon1Transition) && IsAssignment(FallingRules(f))
  {
  }

  /** predictFallingPattern's loading of the transitions array. */
  method BuildFallingAssignment(f: FallingParams) returns (rules: seq<Rule>)
    ensures rules == FallingRules(f)
  {
    var transitions := new Rule[13](_ => SLOT0_RULE);
    transitions[1] := f.mon1Transition;
    var i := 2;
    while i < 13
      invariant 2 <= i <= 13
      invariant transitions[0] == SLOT0_RULE && transitions[1] == f.mon1Transition
      invariant forall d :: 2 <= d < i ==> transitions[d] == f.otherDaysTransition
    {
      transitions[i] := f.otherDaysTransition;
      i := i + 1;
    }
    rules := transitions[..];
  }

  // ---------------------------------------------------------------------
  // Rising-window patterns (third and fourth period)
  // ---------------------------------------------------------------------

  /** The rule of slot d (1..12) when the rise starts at slot s. */
  function RisingRule(t: PeriodParams, s: int, d: int): Rule
  {
    if s <= d && d - s < 6 then t.RisingSequence()[d - s]
    else if s <= d then t.afterRisingTransition
    else if d == 1 then t.mon1Transition
    else t.beforeRisingTransition
  }

  function RisingRules(t: PeriodParams, s: int): (rules: seq<Rule>)
    ensures |rules| == 13 && rules[0] == SLOT0_RULE
    ensures forall d :: 1 <= d < 13 ==> rules[d] == RisingRule(t, s, d)
    ensures t.Valid() ==> IsAssignment(rules)
  {
    seq(13, d requires 0 <= d < 13 => if d == 0 then SLOT0_RULE else RisingRule(t, s, d))
  }

  /**
   * The rising-window layout for start day s: slot 1 keeps the Monday-morning
   * rule unless the rise starts there, slots 2..s-1 take the before-rising
   * rule, slots s..s+5 the six rising rules in order, later slots the
   * after-rising rule.
   */
  lemma RisingLayout(t: PeriodParams, s: int)
    requires 1 <= s
    ensures var rules := RisingRules(t, s);
      (s > 1 ==> rules[1] == t.mon1Transition) &&
      (forall d :: 2 <= d < s && d < 13 ==> rules[d] == t.beforeRisingTransition) &&
      (forall k :: 0 <= k < 6 && s + k < 13 ==> rules[s + k] == t.RisingSequence()[k]) &&
      (forall d :: s + 6 <= d < 13 ==> rules[d] == t.afterRisingTransition)
  {
    var rules := RisingRules(t, s);
    forall k | 0 <= k < 6 && s + k < 13
      ensures rules[s + k] == t.RisingSequence()[k]
    {
      assert rules[s + k] == RisingRule(t, s, s + k);
    }
  }

  /** predictThirdPeriodPattern's loading of the transitions array for start day s. */
  method BuildRisingAssignment(t: PeriodParams, s: int) returns (rules: seq<Rule>)
    requires 1 <= s
    ensures rules == RisingRules(t, s)
  {
    var transitions := new Rule[13](_ => SLOT0_RULE);
    transitions[1] := t.mon1Transition;
    var i := 2;
    while i < s && i < 13
      invariant 2 <= i <= 13
      invariant transitions[0] == SLOT0_RULE && transitions[1] == t.mon1Transition
      invariant forall d :: 2 <= d < i ==> transitions[d] == t.beforeRisingTransition
    {
      transitions[i] := t.beforeRisingTransition;
      i := i + 1;
    }
    var sequence := t.RisingSequence();
    i := s;
    while i < 13
      invariant s <= i
      invariant transitions[0] == SLOT0_RULE
      invariant forall d :: 1 <= d < 13 && d < s ==> transitions[d] == RisingRule(t, s, d)
      invariant forall d :: s <= d < i && d < 13 ==> transitions[d] == RisingRule(t, s, d)
    {
      var offset := i - s;
      if offset < |sequence| {
        transitions[i] := sequence[offset];
      } else {
        transitions[i] := t.afterRisingTransition;
      }
      i := i + 1;
    }
    rules := transitions[..];
  }

  // ---------------------------------------------------------------------
  // Wave pattern
  // ---------------------------------------------------------------------

  const MIN_MARGIN: int := 1
  const RISING: char := 'R'
  const TWO_TIMES_FALLING: char := '2'
  const THREE_TIMES_FALLING: char := '3'

  /** The pair of start days is skipped: the runs overlap or are less than a day apart. */
  predicate Skipped(two: int, three: int)
  {
    (two <= three && two + 2 + MIN_MARGIN > three) ||
    (three < two && three + 3 + MIN_MARGIN > two)
  }

  /** Day d lies in the run of length len starting at a. */
  predicate InRun(a: int, len: int, d: int)
  {
    a <= d < a + len
  }

  /** Day d lies in the run of length len starting at a, or in the margin after it. */
  predicate InPaddedRun(a: int, len: int, d: int)
  {
    a <= d < a + len + MIN_MARGIN
  }

  /**
   * A pair is skipped exactly when the two runs, each followed by one margin
   * day, share a day; an accepted pair's runs are disjoint and neither run
   * starts on the day right after the other ends.
   */
  lemma SkippedIffPaddedRunsMeet(two: int, three: int)
    ensures Skipped(two, three) <==> exists d :: InPaddedRun(two, 2, d) && InPaddedRun(three, 3, d)
    ensures !Skipped(two, three) ==> forall d ::
      !(InRun(two, 2, d) && InRun(three, 3, d)) &&
      !(InRun(two, 2, d) && InRun(three, 3, d + 1)) &&
      !(InRun(three, 3, d) && InRun(two, 2, d + 1))
  {
    if Skipped(two, three) {
      var d := if two <= three then three else two;
      assert InPaddedRun(two, 2, d) && InPaddedRun(three, 3, d);
    }
  }

  /** The two examples: (8, 1) is kept, (1, 2) is skipped. */
  lemma WavePairExamples()
    ensures !Skipped(8, 1) && Skipped(1, 2)
  {
  }

  /** getTransitionFromDay: the first matching case of the source's switch. */
  function WaveRule(w: WaveParams, two: int, three: int, d: int): Rule
  {
    if d == two then w.twoTimesFalling1Transition
    else if d == two + 1 then w.twoTimesFalling2Transition
    else if d == three then w.threeTimesFalling1Transition
    else if d == three + 1 then w.threeTimesFalling2Transition
    else if d == three + 2 then w.threeTimesFalling3Transition
    else w.risingTransition
  }

  /** getTypeFromDay. */
  function WaveTag(two: int, three: int, d: int): char
  {
    if d == two || d == two + 1 then TWO_TIMES_FALLING
    else if three <= d <= three + 2 then THREE_TIMES_FALLING
    else RISING
  }

  function WaveRules(w: WaveParams, two: int, three: int): (rules: seq<Rule>)
    ensures |rules| == 13 && rules[0] == SLOT0_RULE
    ensures forall d :: 1 <= d < 13 ==> rules[d] == WaveRule(w, two, three, d)
    ensures w.Valid() ==> IsAssignment(rules)
  {
    seq(13, d requires 0 <= d < 13 => if d == 0 then SLOT0_RULE else WaveRule(w, two, three, d))
  }

  /** The key: one tag per slot 1..12. */
  function WaveKey(two: int, three: int): (key: string)
    ensures |key| == 12
    ensures forall k :: 0 <= k < 12 ==> key[k] == WaveTag(two, three, k + 1)
  {
    seq(12, k requires 0 <= k < 12 => WaveTag(two, three, k + 1))
  }

  /**
   * For an accepted pair, slot d's tag is '2' exactly on the two-day run, '3'
   * exactly on the three-day run, 'R' elsewhere, and its rule is the matching
   * run-position rule or the rising rule.
   */
  lemma WaveKeyLayout(w: WaveParams, two: int, three: int, d: int)
    requires !Skipped(two, three) && 1 <= d <= 12
    ensures WaveTag(two, three, d) == TWO_TIMES_FALLING <==> InRun(two, 2, d)
    ensures WaveTag(two, three, d) == THREE_TIMES_FALLING <==> InRun(three, 3, d)
    ensures WaveTag(two, three, d) == RISING <==> !InRun(two, 2, d) && !InRun(three, 3, d)
    ensures WaveRule(w, two, three, d) ==
      if InRun(two, 2, d) then [w.twoTimesFalling1Transition, w.twoTimesFalling2Transition][d - two]
      else if InRun(three, 3, d) then
        [w.threeTimesFalling1Transition, w.threeTimesFalling2Transition, w.threeTimesFalling3Transition][d - three]
      else w.risingTransition
  {
    SkippedIffPaddedRunsMeet(two, three);
  }

  /** A run position inside slots 1..12 fixes the run's start among runs covering the same slots. */
  lemma RunStartFixed(a: int, a': int, len: int, d: int)
    requires 1 <= len <= 3 && 1 <= d <= 12 && InRun(a, len, d)
    requires forall e :: 1 <= e <= 12 ==> (InRun(a, len, e) <==> InRun(a', len, e))
    ensures a == a'
  {
    if a < a' {
      var e := if a >= 1 then a else 1;
      assert InRun(a, len, e);
      var e2 := a' + len - 1;
      assert InRun(a', len, e2) && 1 <= e2 <= 12;
    } else if a > a' {
      var e := if a + len - 1 <= 12 then a + len - 1 else 12;
      assert InRun(a, len, e);
      if a' >= 1 {
        assert InRun(a', len, a');
      }
    }
  }

  /**
   * The key, not the pair, identifies a wave result: accepted pairs with the
   * same key have the same rule assignment, so storing the later one under
   * the key loses nothing.
   */
  lemma SameKeySameRules(w: WaveParams, a: int, b: int, a': int, b': int)
    requires !Skipped(a, b) && !Skipped(a', b') && WaveKey(a, b) == WaveKey(a', b')
    ensures WaveRules(w, a, b) == WaveRules(w, a', b')
  {
    forall e | 1 <= e <= 12
      ensures InRun(a, 2, e) <==> InRun(a', 2, e)
      ensures InRun(b, 3, e) <==> InRun(b', 3, e)
    {
      assert WaveKey(a, b)[e - 1] == WaveKey(a', b')[e - 1];
      WaveKeyLayout(w, a, b, e);
      WaveKeyLayout(w, a', b', e);
    }
    forall d | 1 <= d < 13
      ensures WaveRules(w, a, b)[d] == WaveRules(w, a', b')[d]
    {
      if InRun(a, 2, d) {
        RunStartFixed(a, a', 2, d);
      } else if InRun(a', 2, d) {
        RunStartFixed(a', a, 2, d);
      }
      if InRun(b, 3, d) {
        RunStartFixed(b, b', 3, d);
      } else if InRun(b', 3, d) {
        RunStartFixed(b', b, 3, d);
      }
    }
  }

  /** When both runs lie inside slots 1..12, the key determines the pair. */
  lemma KeyIdentifiesPair(a: int, b: int, a': int, b': int)
    requires !Skipped(a, b) && !Skipped(a', b') && WaveKey(a, b) == WaveKey(a', b')
    requires 1 <= a <= 11 && 1 <= b <= 10
    ensures a == a' && b == b'
  {
    var w := WaveParams(SLOT0_RULE, SLOT0_RULE, SLOT0_RULE, SLOT0_RULE, SLOT0_RULE, SLOT0_RULE, [], []);
    forall e | 1 <= e <= 12
      ensures InRun(a, 2, e) <==> InRun(a', 2, e)
      ensures InRun(b, 3, e) <==> InRun(b', 3, e)
    {
      assert WaveKey(a, b)[e - 1] == WaveKey(a', b')[e - 1];
      WaveKeyLayout(w, a, b, e);
      WaveKeyLayout(w, a', b', e);
    }
    RunStartFixed(a, a', 2, a);
    RunStartFixed(b, b', 3, b);
  }

  /** predictWavePattern's loading of the transitions array and key for one pair. */
  method BuildWaveAssignment(w: WaveParams, two: int, three: int) returns (rules: seq<Rule>, key: string)
    ensures rules == WaveRules(w, two, three)
    ensures key == WaveKey(two, three)
  {
    var transitions := new Rule[13](_ => SLOT0_RULE);
    key := "";
    for i := 1 to 13
      invariant |key| == i - 1
      invariant forall k :: 0 <= k < i - 1 ==> key[k] == WaveTag(two, three, k + 1)
      invariant transitions[0] == SLOT0_RULE
      invariant forall d :: 1 <= d < i ==> transitions[d] == WaveRule(w, two, three, d)
    {
      transitions[i] := WaveRule(w, two, three, i);
      key := key + [WaveTag(two, three, i)];
    }
    rules := transitions[..];
  }
}
