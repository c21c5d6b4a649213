/**
 * The four pattern predictors and predict, which runs them all on one week.
 */
module Predictor {
  import opened Wrappers
  import opened Ranges
  import opened Rules
  import opened Propagation
  import opened PropagationLemmas
  import opened Aggregation
  import opened Assignments
  import opened Peak

  // ---------------------------------------------------------------------
  // Wave pattern
  // ---------------------------------------------------------------------

  /** The accepted pairs (two-run start, three-run start) drawn from the two lists. */
  function AcceptedPairs(twos: seq<int>, threes: seq<int>): set<(int, int)>
  {
    set two, three | two in twos && three in threes && !Skipped(two, three) :: (two, three)
  }

  /**
   * m holds, under each accepted pair's key, calcPrediction for that pair's
   * assignment, and no key that no pair produces.
   */
  ghost predicate Covers(w: WaveParams, p: seq<int>, tol: int,
                         m: map<string, Option<seq<Range>>>, pairs: set<(int, int)>)
    requires |p| == 13 && w.Valid()
  {
    (forall pr :: pr in pairs ==> !Skipped(pr.0, pr.1)) &&
    (forall pr :: pr in pairs ==>
      WaveKey(pr.0, pr.1) in m && m[WaveKey(pr.0, pr.1)] == Prediction(p, WaveRules(w, pr.0, pr.1), tol)) &&
    (forall key :: key in m ==> exists pr :: pr in pairs && WaveKey(pr.0, pr.1) == key)
  }

  /** What predictWavePattern returns. */
  ghost predicate IsWavePrediction(w: WaveParams, p: seq<int>, tol: int, m: map<string, Option<seq<Range>>>)
    requires |p| == 13 && w.Valid()
  {
    Covers(w, p, tol, m, AcceptedPairs(w.twoTimesFallingStartDays, w.threeTimesFallingStartDays))
  }

  /** Storing one more accepted pair's result under its key keeps the map covering. */
  lemma CoversInsert(w: WaveParams, p: seq<int>, tol: int, m: map<string, Option<seq<Range>>>,
                     pairs: set<(int, int)>, two: int, three: int)
    requires |p| == 13 && w.Valid() && Covers(w, p, tol, m, pairs) && !Skipped(two, three)
    ensures Covers(w, p, tol, m[WaveKey(two, three) := Prediction(p, WaveRules(w, two, three), tol)],
                   pairs + {(two, three)})
  {
    var key := WaveKey(two, three);
    var m' := m[key := Prediction(p, WaveRules(w, two, three), tol)];
    forall pr | pr in pairs + {(two, three)}
      ensures WaveKey(pr.0, pr.1) in m' && m'[WaveKey(pr.0, pr.1)] == Prediction(p, WaveRules(w, pr.0, pr.1), tol)
    {
      if WaveKey(pr.0, pr.1) == key {
        SameKeySameRules(w, pr.0, pr.1, two, three);
      }
    }
    forall k | k in m'
      ensures exists pr :: pr in pairs + {(two, three)} && WaveKey(pr.0, pr.1) == k
    {
      if k == key {
        assert (two, three) in pairs + {(two, three)};
      } else {
        var pr :| pr in pairs && WaveKey(pr.0, pr.1) == k;
        assert pr in pairs + {(two, three)};
      }
    }
  }

  /** One more 3-falling start day adds its pair to the row, unless the pair is skipped. */
  lemma AcceptedColumnStep(two: int, threes: seq<int>, b: nat)
    requires b < |threes|
    ensures AcceptedPairs([two], threes[..b + 1]) ==
      AcceptedPairs([two], threes[..b]) + (if Skipped(two, threes[b]) then {} else {(two, threes[b])})
  {
    assert threes[..b + 1] == threes[..b] + [threes[b]];
  }

  /** One more 2-falling start day adds its whole row of pairs. */
  lemma AcceptedRowStep(twos: seq<int>, threes: seq<int>, a: nat)
    requires a < |twos|
    ensures AcceptedPairs(twos[..a + 1], threes) == AcceptedPairs(twos[..a], threes) + AcceptedPairs([twos[a]], threes[..|threes|])
  {
    assert twos[..a + 1] == twos[..a] + [twos[a]];
    assert threes[..|threes|] == threes;
  }

  /** predictWavePattern: every accepted pair of start days, keyed by its transition types. */
  method PredictWave(w: WaveParams, p: seq<int>, tol: int) returns (m: map<string, Option<seq<Range>>>)
    requires |p| == 13 && w.Valid()
    ensures IsWavePrediction(w, p, tol, m)
  {
    var twos := w.twoTimesFallingStartDays;
    var threes := w.threeTimesFallingStartDays;
    m := map[];
    var a := 0;
    while a < |twos|
      invariant 0 <= a <= |twos|
      invariant Covers(w, p, tol, m, AcceptedPairs(twos[..a], threes))
    {
      var two := twos[a];
      var b := 0;
      while b < |threes|
        invariant 0 <= b <= |threes|
        invariant Covers(w, p, tol, m, AcceptedPairs(twos[..a], threes) + AcceptedPairs([two], threes[..b]))
      {
        var three := threes[b];
        ghost var before := AcceptedPairs(twos[..a], threes) + AcceptedPairs([two], threes[..b]);
        if !Skipped(two, three) {
          var rules, key := BuildWaveAssignment(w, two, three);
          var prediction := CalcPrediction(p, rules, tol);
          CoversInsert(w, p, tol, m, before, two, three);
          m := m[key := prediction];
        }
        AcceptedColumnStep(two, threes, b);
        b := b + 1;
      }
      AcceptedRowStep(twos, threes, a);
      a := a + 1;
    }
    assert twos[..a] == twos;
  }

  // ---------------------------------------------------------------------
  // Falling pattern
  // ---------------------------------------------------------------------

  /** predictFallingPattern. */
  method PredictFalling(f: FallingParams, p: seq<int>, tol: int) returns (r: Option<seq<Range>>)
    requires |p| == 13 && f.Valid()
    ensures r == Prediction(p, FallingRules(f), tol)
  {
    var rules := BuildFallingAssignment(f);
    r := CalcPrediction(p, rules, tol);
  }

  /** The falling week of FallingWeekExample. */
  function ExampleFalling(): FallingParams
  {
    FallingParams(Rule(PurchaseRatio, 78, 80), Rule(PrevRatioDiff, -4, -1))
  }

  /** Purchase price 95, Monday afternoon observed at 70. */
  function ExampleWeek(): seq<int>
  {
    [95, 0, 70, 0, 0, 0, 0, 0, 0, 0, 0, 0, 0]
  }

  /**
   * The forward ranges of the example week: Monday morning at 78..80% of 95,
   * then Monday afternoon 1..4% of 95 below it.
   */
  lemma FallingWeekForward()
    ensures var fwd := Forward(ExampleWeek(), FallingRules(ExampleFalling()), 0);
      fwd[1] == Range(74.1, 76.0) && fwd[2] == Range(70.3, 75.05)
  {
    var p, rules := ExampleWeek(), FallingRules(ExampleFalling());
    var g1 := ForwardUpTo(p, rules, 0, 1);
    var g2 := ForwardUpTo(p, rules, 0, 2);
    assert g1[1] == Range(74.1, 76.0);
    assert ChainForward(p, rules, g1, 2, 1, Range(-3.8, -0.95)) == Range(70.3, 75.05);
    assert g2[2] == Range(70.3, 75.05);
    ForwardPrefix(p, rules, 0, 2, 12);
  }

  /**
   * With a purchase price of 95, Monday afternoon can be no lower than 70.3,
   * so calcEachPrediction rejects an observed 70 at tolerance 0.
   */
  lemma FallingWeekRejected()
    ensures ExampleFalling().Valid()
    ensures EachPrediction(ExampleWeek(), FallingRules(ExampleFalling()), 0).None?
  {
    var p, rules := ExampleWeek(), FallingRules(ExampleFalling());
    FallingWeekForward();
    ReconciledWithin(p, rules, 0);
    assert !Accepts(Reconciled(p, rules, 0)[2], p[2]);
  }

  /** predictFallingPattern returns null for the example week: its only purchase hypothesis is 95. */
  lemma FallingWeekExample()
    ensures Prediction(ExampleWeek(), FallingRules(ExampleFalling()), 0).None?
  {
    var p, rules := ExampleWeek(), FallingRules(ExampleFalling());
    FallingWeekRejected();
    SinglePurchaseHypothesis(p, rules, 0);
  }

  // ---------------------------------------------------------------------
  // Third and fourth period
  // ---------------------------------------------------------------------

  function StartDays(t: PeriodParams): set<int>
  {
    set s | s in t.risingStartDays
  }

  function RisingPrediction(t: PeriodParams, p: seq<int>, tol: int, s: int): Option<seq<Range>>
    requires |p| == 13 && t.Valid()
  {
    Prediction(p, RisingRules(t, s), tol)
  }

  /** One entry after the peak pass as the source writes it: an infeasible (None) entry is skipped. */
  function Peaked(p: seq<int>, s: int, o: Option<seq<Range>>): (r: Option<seq<Range>>)
    requires |p| == 13 && (o.Some? ==> PeakDefined(p, s) && |o.value| == 13)
    ensures r.None? <==> o.None?
    ensures r.Some? ==> |r.value| == 13
    ensures r.Some? ==> forall k :: 0 <= k < 13 ==>
      r.value[k].min >= o.value[k].min && r.value[k].max <= o.value[k].max
    ensures r.Some? ==> forall k :: 0 <= k < 13 && !(s + 2 <= k <= s + 4) ==> r.value[k] == o.value[k]
  {
    if o.Some? then Some(PeakAdjustAsWritten(p, s, o.value)) else o
  }

  /** Peaking an entry twice is peaking it once. */
  lemma PeakedIdempotent(p: seq<int>, s: int, o: Option<seq<Range>>)
    requires |p| == 13 && (o.Some? ==> PeakDefined(p, s) && |o.value| == 13)
    ensures Peaked(p, s, Peaked(p, s, o)) == Peaked(p, s, o)
  {
    if o.Some? {
      PeakAsWrittenIdempotent(p, s, o.value);
    }
  }

  /**
   * The fourth-period result for start day s: the rising prediction, peaked
   * when requested. An infeasible prediction is skipped before any slot is
   * read, so only a feasible one needs the peak slots.
   */
  function FourthPrediction(t: PeriodParams, p: seq<int>, tol: int, s: int): (r: Option<seq<Range>>)
    requires |p| == 13 && t.Valid()
    requires t.hasFourthPeriodPeak && RisingPrediction(t, p, tol, s).Some? ==> PeakDefined(p, s)
    ensures r.None? <==> RisingPrediction(t, p, tol, s).None?
  {
    var r := RisingPrediction(t, p, tol, s);
    if t.hasFourthPeriodPeak then Peaked(p, s, r) else r
  }

  /** predictThirdPeriodPattern: one prediction per listed rising start day. */
  method PredictThirdPeriod(t: PeriodParams, p: seq<int>, tol: int) returns (m: map<int, Option<seq<Range>>>)
    requires |p| == 13 && t.Valid() && forall s :: s in t.risingStartDays ==> 1 <= s
    ensures m.Keys == StartDays(t)
    ensures forall s :: s in m ==> m[s] == RisingPrediction(t, p, tol, s)
  {
    var days := t.risingStartDays;
    m := map[];
    for i := 0 to |days|
      invariant m.Keys == set s | s in days[..i]
      invariant forall s :: s in m ==> m[s] == RisingPrediction(t, p, tol, s)
    {
      var s := days[i];
      assert s in days;
      var rules := BuildRisingAssignment(t, s);
      var prediction := CalcPrediction(p, rules, tol);
      m := m[s := prediction];
      assert days[..i + 1] == days[..i] + [s];
    }
    assert days[..|days|] == days;
  }

  /**
   * The peak loop over the listed start days: each listed day's entry is
   * peaked once, however often it is listed; other entries are unchanged.
   */
  method PeakPass(p: seq<int>, days: seq<int>, m0: map<int, Option<seq<Range>>>)
    returns (m: map<int, Option<seq<Range>>>)
    requires |p| == 13
    requires forall s :: s in days ==> s in m0 && (m0[s].Some? ==> PeakDefined(p, s))
    requires forall s :: s in m0 && m0[s].Some? ==> |m0[s].value| == 13
    ensures m.Keys == m0.Keys
    ensures forall s :: s in m && s in days ==> m[s] == Peaked(p, s, m0[s])
    ensures forall s :: s in m && s !in days ==> m[s] == m0[s]
  {
    m := m0;
    ghost var done: set<int> := {};
    for i := 0 to |days|
      invariant m.Keys == m0.Keys
      invariant done == set s | s in days[..i]
      invariant forall s :: s in m && s in done ==> m[s] == Peaked(p, s, m0[s])
      invariant forall s :: s in m && s !in done ==> m[s] == m0[s]
    {
      var s := days[i];
      assert days[..i + 1] == days[..i] + [s];
      assert s in days;
      var prediction := m[s];
      if s in done {
        PeakedIdempotent(p, s, m0[s]);
      }
      assert Peaked(p, s, prediction) == Peaked(p, s, m0[s]);
      if prediction.Some? {
        var peaked := MakePeak(p, s, prediction.value);
        m := m[s := Some(peaked)];
      }
      done := done + {s};
    }
    assert days[..|days|] == days;
  }

  /** predictFourthPeriodPattern: the third-period predictions, then the peak pass. */
  method PredictFourthPeriod(t: PeriodParams, p: seq<int>, tol: int) returns (m: map<int, Option<seq<Range>>>)
    requires |p| == 13 && t.Valid() && forall s :: s in t.risingStartDays ==> 1 <= s
    requires t.hasFourthPeriodPeak ==> forall s :: s in t.risingStartDays ==>
      RisingPrediction(t, p, tol, s).Some? ==> PeakDefined(p, s)
    ensures m.Keys == StartDays(t)
    ensures forall s :: s in m ==> m[s] == FourthPrediction(t, p, tol, s)
  {
    m := PredictThirdPeriod(t, p, tol);
    if t.hasFourthPeriodPeak {
      m := PeakPass(p, t.risingStartDays, m);
    }
  }

  // ---------------------------------------------------------------------
  // predict
  // ---------------------------------------------------------------------

  datatype Parameters = Parameters(
    tolerance: int,
    wave: WaveParams,
    falling: FallingParams,
    thirdPeriod: PeriodParams,
    fourthPeriod: PeriodParams)
  {
    predicate Valid()
    {
      wave.Valid() && falling.Valid() && thirdPeriod.Valid() && fourthPeriod.Valid() &&
      (forall s :: s in thirdPeriod.risingStartDays ==> 1 <= s) &&
      (forall s :: s in fourthPeriod.risingStartDays ==> 1 <= s)
    }
  }

  datatype Predictions = Predictions(
    wave: map<string, Option<seq<Range>>>,
    falling: Option<seq<Range>>,
    thirdPeriod: map<int, Option<seq<Range>>>,
    fourthPeriod: map<int, Option<seq<Range>>>)

  /** predict: every pattern family on the same week, with one tolerance. */
  method Predict(params: Parameters, p: seq<int>) returns (r: Predictions)
    requires |p| == 13 && params.Valid()
    requires params.fourthPeriod.hasFourthPeriodPeak ==>
      forall s :: s in params.fourthPeriod.risingStartDays ==>
        RisingPrediction(params.fourthPeriod, p, params.tolerance, s).Some? ==> PeakDefined(p, s)
    ensures IsWavePrediction(params.wave, p, params.tolerance, r.wave)
    ensures r.falling == Prediction(p, FallingRules(params.falling), params.tolerance)
    ensures r.thirdPeriod.Keys == StartDays(params.thirdPeriod)
    ensures forall s :: s in r.thirdPeriod ==>
      r.thirdPeriod[s] == RisingPrediction(params.thirdPeriod, p, params.tolerance, s)
    ensures r.fourthPeriod.Keys == StartDays(params.fourthPeriod)
    ensures forall s :: s in r.fourthPeriod ==>
      r.fourthPeriod[s] == FourthPrediction(params.fourthPeriod, p, params.tolerance, s)
  {
    var tol := params.tolerance;
    var wave := PredictWave(params.wave, p, tol);
    var falling := PredictFalling(params.falling, p, tol);
    var third := PredictThirdPeriod(params.thirdPeriod, p, tol);
    var fourth := PredictFourthPeriod(params.fourthPeriod, p, tol);
    r := Predictions(wave, falling, third, fourth);
  }
}
