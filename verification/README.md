# moothumb range predictor, modelled in Dafny

moothumb predicts the turnip prices of one week from the prices already seen.
A week has 13 price slots:

- slot 0 is Sunday's purchase price;
- slots 1..12 are the morning and afternoon sell prices, Monday to Saturday.

A price of 0 means "not observed", as JavaScript truthiness makes it.

Each price pattern is described by transition rules. A rule says how one slot's price follows from the
purchase price, from a fixed range, or from the previous slot: by a difference, by a ratio, or by a
chained purchase-ratio difference. Each pattern family builds one or more 13-slot rule assignments:

- the falling pattern builds one;
- the third- and fourth-period patterns build one per rising start day;
- the wave pattern builds one per accepted pair of falling-run start days, stored under a 12-character key.

`calcEachPrediction` turns one assignment and one purchase price into ranges. It runs four passes:

1. a forward interval pass over slots 1..12;
2. a backward narrowing pass over slots 12..2;
3. a floor of every minimum at 1;
4. a check of every observed price.

`calcPrediction` runs it for each purchase-price hypothesis, unions the feasible results and collapses
every observed slot to its price. The fourth-period predictor can then tighten the ranges around the peak.

The second part of the model is the inline price text of the form, `P A1/B1 A2/B2 ...`. It covers the
writer, the reader, and the numeric reads of the form fields (`isBetween`, `parseIntWithDefault`).

Modules:

| Module | Contents |
|---|---|
| `Ranges` | `PredictionRange` and the interval operations |
| `Rules` | transition methods and rules |
| `Propagation` | `calcEachPrediction` as functions over sequences |
| `PropagationLemmas` | what its passes guarantee |
| `CalcEach` | the same algorithm in place on an array, proved equal to `Propagation` |
| `Aggregation` | `calcPrediction` |
| `Assignments` | the rule assignments of each pattern family |
| `Peak` | the peak pass |
| `Predictor` | the four pattern predictors and `predict` |
| `InlineText` | the inline price text |
| `FormInput` | the numeric field reads |

Three details of the code that the model keeps:

- `calcEachPrediction` checks observed prices only after flooring, at its end, not during the forward pass.
  `calcPrediction` checks them again after the union.
- A pattern hypothesis that is infeasible is stored with a null result. Its key or start day stays in the
  result: the model stores `None` under it rather than leaving it out.
- The fourth-period peak pass runs as written, including its test of slot S+4 (see "## Findings");
  the corrected pass is modelled beside it.

## Model

| member | source | states |
|---|---|---|
| Ranges.Accepts | src/js/predictor.js:432-434 | isPredictionAcceptable: a price is accepted when it lies between the range's minimum and maximum, both included |
| Ranges.Widened | src/js/predictor.js:40-44 | a range built with tolerance t is [min-t, max+t], contains every price in [min, max] when t >= 0, is exactly [min, max] when t = 0, and is 2t wider |
| Ranges.ToleranceExample | src/js/predictor.js:40-44 | (100, 110) built with tolerance 5 is (95, 115) |
| Ranges.Point | src/js/predictor.js:241 | the zero-tolerance range of an observed price accepts that price and no other |
| Ranges.Hull | src/js/predictor.js:222-229 | the slot-wise union contains both branches, takes each bound from one of them, and accepts every price either branch accepts |
| Ranges.Narrow | src/js/predictor.js:401-402 | backward narrowing gives a sub-range of the old range that accepts exactly the prices both the old range and the bound accept |
| Ranges.FloorAtOne | src/js/predictor.js:407-408 | flooring keeps the maximum, raises the minimum to at least 1, and accepts exactly the prices >= 1 that the range accepted |
| Rules.Code | src/js/predictor.js:32-38 | the transition methods are numbered 0..4 |
| Rules.MethodOfCode | src/js/predictor.js:32-38 | a code names a method exactly when it is in 0..4, and then that method's code is the code |
| Propagation.ChainForward | src/js/predictor.js:283-305 | the PREV_PRICE_RATIO_DIFF scan downward from slot i: it adds each chain slot's purchase-ratio delta and stops at an observed earlier price, at an anchor slot's forward range, or after a PURCHASE_PRICE_RATIO slot's delta |
| Propagation.ForwardSlot | src/js/predictor.js:253-321 | the forward range of slot i for each of the five methods, from the previous price when it is observed and from the previous slot's range otherwise, widened by the tolerance |
| Propagation.ForwardUpTo | src/js/predictor.js:253-321 | the forward pass up to slot k yields k+1 ranges; what each holds is stated by PropagationLemmas.ForwardAt and PropagationLemmas.ChainForwardClosed |
| Propagation.ChainBackward | src/js/predictor.js:342-381 | the backward PREV_PRICE_RATIO_DIFF scan upward from slot i, summing the chain's percentages: it bounds slot i-1 from the first observed chain price or the first anchor, and gives no bound at a PRICE or PURCHASE_PRICE_RATIO rule or past slot 12 |
| Propagation.BackwardBound | src/js/predictor.js:324-395 | a PRICE or PURCHASE_PRICE_RATIO slot puts no bound on its predecessor |
| Propagation.Step | src/js/predictor.js:397-404 | one backward step keeps 13 slots; that it only narrows is stated by PropagationLemmas.BackwardNarrows |
| Propagation.BackwardSteps | src/js/predictor.js:324-405 | the state after the backward steps for slots 12 down to 13-n keeps 13 slots; what it holds is stated by PropagationLemmas.BackwardNarrows and PropagationLemmas.BackwardSettled |
| Propagation.Backward | src/js/predictor.js:324-405 | the whole backward pass covers slots 12 down to 2 and keeps 13 slots; see PropagationLemmas.ReconciledWithin |
| Propagation.Floored | src/js/predictor.js:407-408 | flooring keeps 13 slots; the floor itself is stated by Ranges.FloorAtOne and PropagationLemmas.ReconciledWithin |
| Propagation.Fits | src/js/predictor.js:407-417 | every observed sell slot's price is accepted by its range |
| Propagation.Reconciled | src/js/predictor.js:252-408 | the ranges after the forward pass, the backward pass and the floor, over 13 slots; their bounds are stated by PropagationLemmas.ReconciledWithin |
| Propagation.EachPrediction | src/js/predictor.js:249-420 | calcEachPrediction succeeds exactly when every observed sell price fits its reconciled (forward, backward, floored) range, and then returns those ranges |
| PropagationLemmas.ForwardPrefix | src/js/predictor.js:253-254 | computing later forward slots never changes earlier ones |
| PropagationLemmas.ForwardAt | src/js/predictor.js:253-321 | forward slot i is its rule applied to the forward ranges of slots 0..i-1 only |
| PropagationLemmas.ChainStop | src/js/predictor.js:285-303 | the slot where the forward chain scan stops lies at or below where it starts, or is -1 |
| PropagationLemmas.ChainForwardFrom | src/js/predictor.js:283-304 | the PREV_PRICE_RATIO_DIFF scan, from any position, stops at the first observed earlier slot or non-chain rule, having passed only unobserved chain slots, and its result is the accumulated deltas plus the terminating slot's contribution |
| PropagationLemmas.ChainForwardClosed | src/js/predictor.js:283-304 | the forward chain scan of slot i always stops at a slot s in 0..i-1, since the purchase price is always set; its range is [-tol, tol] plus the purchase-ratio deltas of slots s+1..i plus what slot s gives |
| PropagationLemmas.BackwardNarrows | src/js/predictor.js:324-405 | the backward pass only narrows: every slot stays inside its forward range, slots 0 and 12 are never touched, and slots below 12-n are untouched after n steps |
| PropagationLemmas.BackwardSettled | src/js/predictor.js:324-405 | once the step for slot i has run, later steps never change slots i-1..12 again |
| PropagationLemmas.UnterminatedChainNoBound | src/js/predictor.js:345-378 | a backward chain scan that meets only unobserved PREV_PRICE_RATIO_DIFF slots up to slot 12 puts no bound on the predecessor and leaves the ranges unchanged |
| PropagationLemmas.ReconciledWithin | src/js/predictor.js:324-417 | every reconciled sell slot lies within its forward range with minimum >= 1; every slot i-1 lies within the bound slot i's rule gave it; slot 12 is its forward range floored |
| PropagationLemmas.IgnoresSlot0Rule | src/js/predictor.js:283-304 | calcEachPrediction never reads the rule of slot 0: any rule there gives the same result |
| CalcEach.ChainForwardSum | src/js/predictor.js:283-304 | the inner forward scan loop computes the chain range of slot i |
| CalcEach.ForwardRange | src/js/predictor.js:254-320 | each case of the forward switch computes slot i's forward range |
| CalcEach.ForwardPass | src/js/predictor.js:252-321 | the forward loop fills the array with the forward ranges |
| CalcEach.ChainBackwardBound | src/js/predictor.js:341-378 | the inner backward scan loop, with its spMin/spMax sums, computes the bound on slot i-1, or none |
| CalcEach.BackwardPass | src/js/predictor.js:323-405 | the backward loop, narrowing in place, leaves the array equal to the backward pass over its old contents |
| CalcEach.FloorAndCheck | src/js/predictor.js:407-419 | the final loop returns the floored ranges when every observed price fits them, and null otherwise |
| CalcEach.CalcEachPrediction | src/js/predictor.js:249-420 | the in-place algorithm returns exactly EachPrediction |
| Aggregation.PurchaseMinMax | src/js/predictor.js:422-430 | the hypotheses lie in [90, 110]; they are equal exactly when the purchase price was observed within [90, 110], and then both are that price |
| Aggregation.Hypothesis | src/js/predictor.js:215-216 | every purchase price tried is non-zero, so it counts as observed |
| Aggregation.PurchaseRange | src/js/predictor.js:206-212 | slot 0 of the result lies inside [90, 110], and is the point of the purchase price exactly when that price is observed in range |
| Aggregation.Initial | src/js/predictor.js:207-212 | the result array starts with 13 slots; slot 0's value is stated by Aggregation.PredictionMeaning |
| Aggregation.Absorb | src/js/predictor.js:222-229 | one union step keeps 13 slots; what the union holds is stated by Aggregation.PredictionMeaning |
| Aggregation.Branches | src/js/predictor.js:215-230 | the state after each purchase hypothesis keeps 13 slots; see Aggregation.PredictionMeaning |
| Aggregation.Collapsed | src/js/predictor.js:232-243 | collapsing keeps 13 slots; that each observed slot becomes its point is stated by Aggregation.PredictionMeaning |
| Aggregation.Prediction | src/js/predictor.js:205-246 | calcPrediction returns 13 ranges when it succeeds; what they hold is stated by Aggregation.PredictionMeaning |
| Aggregation.FitsUnderPurchase | src/js/predictor.js:213-216 | replacing the purchase price does not change which sell observations fit |
| Aggregation.PredictionMeaning | src/js/predictor.js:205-246 | null exactly when neither hypothesis is feasible (the re-check after the union never rejects); otherwise slot 0 is [lo, hi] with zero tolerance, each observed sell slot is its point, and each unobserved slot is the union of the feasible branches |
| Aggregation.SinglePurchaseHypothesis | src/js/predictor.js:206-216 | an observed purchase price within [90, 110] is the single hypothesis: the result is that branch with observed slots collapsed and slot 0 the point of the price |
| Aggregation.ObservationCollapse | src/js/predictor.js:232-243 | when every sell slot is observed, a feasible result has every sell slot at the point of its price |
| Aggregation.AbsorbInto | src/js/predictor.js:222-229 | the union loop sets slots 1..12 to the branch, or widens them to cover it, leaving slot 0 alone |
| Aggregation.CollapseInto | src/js/predictor.js:232-244 | the final loop fails exactly when no branch was feasible or an observed price misses the union, and otherwise turns every observed slot into the point of its price |
| Aggregation.CalcPrediction | src/js/predictor.js:205-246 | the in-place algorithm returns exactly Prediction |
| Assignments.FallingRules | src/js/predictor.js:121-129 | slot 1 has the Monday-morning rule, slots 2..12 the other-days rule |
| Assignments.BuildFallingAssignment | src/js/predictor.js:123-125 | the loading loop builds FallingRules |
| Assignments.RisingSequence | src/js/predictor.js:139-146 | the rising sequence has exactly six rules |
| Assignments.RisingRules | src/js/predictor.js:136-152 | each slot has its rising-window rule, and the assignment is well formed when the parameters are |
| Assignments.RisingLayout | src/js/predictor.js:136-152 | for start S: slot 1 is mon1 unless S = 1; slots 2..S-1 are before-rising; S..S+5 are rising1..rising6 in order; later slots are after-rising |
| Assignments.BuildRisingAssignment | src/js/predictor.js:136-152 | the fill and offset loop builds RisingRules |
| Assignments.Skipped | src/js/predictor.js:67-74 | a pair of start days is skipped when the two-day run starts first and ends less than a margin day before the three-day run, or the other way round |
| Assignments.SkippedIffPaddedRunsMeet | src/js/predictor.js:67-74 | a pair is skipped exactly when the two runs, each followed by a one-day margin, share a day; an accepted pair's runs are disjoint and not adjacent |
| Assignments.WavePairExamples | src/js/predictor.js:67-74 | (8, 1) is kept and (1, 2) is skipped |
| Assignments.WaveRule | src/js/predictor.js:77-91 | getTransitionFromDay: the first matching case among the two runs' positions, else the rising rule |
| Assignments.WaveTag | src/js/predictor.js:93-104 | getTypeFromDay: '2' on the two-day run, '3' on the three-day run, 'R' elsewhere |
| Assignments.WaveRules | src/js/predictor.js:77-110 | each slot has getTransitionFromDay's rule, first match first |
| Assignments.WaveKey | src/js/predictor.js:93-110 | the key has exactly 12 characters, one type per slot 1..12 |
| Assignments.WaveKeyLayout | src/js/predictor.js:77-104 | for an accepted pair: '2' exactly on the two-day run, '3' exactly on the three-day run, 'R' elsewhere, and the slot's rule is the matching run-position rule or the rising rule |
| Assignments.SameKeySameRules | src/js/predictor.js:114 | accepted pairs with the same key have the same assignment, so overwriting a key loses nothing |
| Assignments.KeyIdentifiesPair | src/js/predictor.js:106-111 | when both runs lie inside the week, the key determines the pair |
| Assignments.BuildWaveAssignment | src/js/predictor.js:106-111 | the loading loop builds WaveRules and the key |
| Peak.PeakAdjust | src/js/predictor.js:166-200 | the corrected peak pass changes only slots S+2..S+4, only narrows, never touches an observed slot; an observed peak caps its unobserved neighbours, and an unobserved peak is at least each observed neighbour |
| Peak.PeakKeepsPeakWeeks | src/js/predictor.js:166-200 | the corrected pass removes no price of a week that peaks at S+3, agrees with the observations and fitted the ranges before |
| Peak.PeakIdempotent | src/js/predictor.js:171-200 | applying the corrected pass twice is applying it once |
| Peak.PeakAdjustAsWritten | src/js/predictor.js:176-199 | the pass as written changes only slots S+2..S+4 and only narrows; an observed peak lowers the maximum of S+2 to it when S+2 is unobserved and of S+4 when S+4 is observed, leaving the minimums and S+3 alone; an unobserved peak gets the least minimum at or above its old one and each observed neighbour, and nothing else changes |
| Peak.PeakAsWrittenIdempotent | src/js/predictor.js:171-200 | applying the pass as written twice is applying it once, so a start day listed twice gets the same result |
| Peak.PeakPassesDiffer | src/js/predictor.js:183-188 | the pass as written and the corrected pass agree everywhere except at S+4 after an observed peak, where the one leaves an unobserved S+4 alone and the other an observed one |
| Peak.PeakAsWrittenCounterexample | src/js/predictor.js:183-188 | as written, an unobserved S+4 keeps a maximum above the observed peak, and an observed S+4 above the peak gets a range its own price does not fit; the corrected pass does neither |
| Peak.MakePeak | src/js/predictor.js:176-199 | the statement-by-statement pass computes PeakAdjustAsWritten |
| Predictor.CoversInsert | src/js/predictor.js:114 | storing one more accepted pair's result under its key keeps every stored pair's result and adds no foreign key |
| Predictor.PredictWave | src/js/predictor.js:62-119 | the result holds, under each accepted pair's key, calcPrediction of that pair's assignment, and no other key |
| Predictor.PredictFalling | src/js/predictor.js:121-129 | the result is calcPrediction of the falling assignment |
| Assignments.ZeroBoundMondayRuleAccepted | src/js/predictor.js:324 | a Monday-morning PREV_PRICE_RATIO rule with a zero bound is accepted, since the backward pass stops at slot 2 and never divides by slot 1's rule |
| Predictor.Peaked | src/js/predictor.js:172-199 | a null entry is skipped and stays null; any other entry gets the pass as written, which only narrows its ranges and changes none outside S+2..S+4 |
| Predictor.FallingWeekForward | src/js/predictor.js:262-305 | in the falling week with Monday morning at 78..80% of a purchase price of 95 and each later slot 1..4% of it lower, Monday morning's forward range is [74.1, 76.0] and Monday afternoon's [70.3, 75.05] |
| Predictor.FallingWeekRejected | src/js/predictor.js:407-417 | calcEachPrediction rejects that week with Monday afternoon observed at 70, at tolerance 0 |
| Predictor.FallingWeekExample | src/js/predictor.js:121-129 | predictFallingPattern gives null for that week, its only purchase hypothesis being 95 |
| Predictor.PeakedIdempotent | src/js/predictor.js:170-200 | peaking an entry twice is peaking it once |
| Predictor.RisingPrediction | src/js/predictor.js:131-161 | the third-period entry of a start day: calcPrediction of its rising assignment |
| Predictor.FourthPrediction | src/js/predictor.js:163-203 | the fourth-period entry of a start day is null exactly when its rising prediction is; the peak slots are needed only for a feasible entry, since a null one is skipped before any slot is read |
| Predictor.PredictThirdPeriod | src/js/predictor.js:131-161 | exactly the listed start days have entries, each calcPrediction of its rising assignment |
| Predictor.PeakPass | src/js/predictor.js:170-200 | each listed day's entry gets the pass as written once, however often the day is listed; other entries and the key set are unchanged |
| Predictor.PredictFourthPeriod | src/js/predictor.js:163-203 | the third-period result, with every entry peaked by the pass as written when the peak flag is set |
| Predictor.Predict | src/js/predictor.js:51-60 | all four families run on the same prices with the same tolerance, each giving its own result |
| InlineText.Dec | src/js/ui.js:129 | a positive number prints as digits without a leading zero |
| InlineText.DecRoundTrip | src/js/ui.js:129 | reading a printed number gives the number back |
| InlineText.SlotText | src/js/ui.js:122-130 | the purchase slot always prints digits ("0" when absent); a sell slot prints digits exactly when it is observed |
| InlineText.Token | src/js/ui.js:128-130 | a sell price prints digits, and nothing exactly when it is absent |
| InlineText.Slots | src/js/ui.js:122-134 | the texts of the first n slots, n of them |
| InlineText.Shown | src/js/ui.js:122-135 | the slot texts kept after trimming: one more than the last observed slot |
| InlineText.LastShown | src/js/ui.js:122-135 | the last slot kept is the highest observed sell slot, or the purchase slot when none is observed; every later slot is unobserved |
| InlineText.StripTrailing | src/js/ui.js:135 | trimming never lengthens the text; what it removes is stated by InlineText.StripTrailingMeaning |
| InlineText.StripTrailingMeaning | src/js/ui.js:135 | trimming keeps a prefix that is empty or ends in a digit, and removes only non-digits |
| InlineText.DraftStep | src/js/ui.js:124-134 | each loop step adds '/' before an afternoon slot, then the slot's digits, then ' ' after an afternoon slot |
| InlineText.WriteInline | src/js/ui.js:117-138 | nothing is written for a null vector; otherwise the text is the formatted vector |
| InlineText.FormattedShown | src/js/ui.js:117-135 | the written text is the slot texts up to the last observed slot (or the purchase slot alone), with ' ' after the purchase and each afternoon and '/' after each morning |
| InlineText.FormattedEnds | src/js/ui.js:118-135 | the written text is not empty and starts and ends with a digit |
| InlineText.Formatted | src/js/ui.js:117-135 | the written text: the purchase slot, then each sell slot with ' ' after the purchase and each afternoon and '/' after each morning, trailing non-digits trimmed |
| InlineText.StripLeading | src/js/ui.js:108 | removes the leading non-digits and never lengthens the text; what it removes is stated by InlineText.StripLeadingMeaning |
| InlineText.StripLeadingMeaning | src/js/ui.js:108 | trimming keeps a suffix that is empty or starts with a digit, and removes only non-digits |
| InlineText.DropRun | src/js/ui.js:109 | dropping a leading run of characters other than digits and '/' shortens the text when there is one; what it removes is stated by InlineText.DropRunMeaning |
| InlineText.DropRunMeaning | src/js/ui.js:109 | the text is the dropped part followed by what is left; the dropped part is all [^0-9/] characters and what is left is empty or starts with another character, so the run removed is the maximal one |
| InlineText.Normalize | src/js/ui.js:109 | replaces each '/' and each maximal run of other non-digits by one space and keeps the digits |
| InlineText.Split | src/js/ui.js:114 | splitting on ' ' gives at least one piece; InlineText.SplitJoin states that it inverts joining |
| InlineText.Join | src/js/ui.js:114 | joining tokens gives a text no shorter than the first token; InlineText.SplitJoin states that splitting inverts it |
| InlineText.ReadInline | src/js/ui.js:106-115 | the read is null exactly when the text has no digit; otherwise every token is a numeral, possibly empty, and the first and last are not empty |
| InlineText.NormalizeInterleaved | src/js/ui.js:109 | each '/' and each space separator becomes one space, so the normalized text is the tokens joined by single spaces |
| InlineText.SplitJoin | src/js/ui.js:114 | splitting space-free tokens joined by spaces gives the tokens back, empty ones included |
| InlineText.ReadInterleaved | src/js/ui.js:106-115 | digit tokens whose first and last are not empty, written with separators, read back as themselves |
| InlineText.NormalizeTyped | src/js/ui.js:109 | with each separator one '/' or a run of [^0-9/] characters, and no two runs around an empty token, every separator becomes one space |
| InlineText.ReadTyped | src/js/ui.js:106-115 | typed numerals with such separators, the first and last not empty, read back as themselves |
| InlineText.ReadTypedExample | src/js/ui.js:106-115 | "95,  100/ 90" reads as "95", "100", "" and "90" |
| InlineText.SlotValues | src/js/ui.js:117-135 | every shown token reads as its slot's price, and every slot after the last shown one is unobserved |
| InlineText.InlineRoundTrip | src/js/ui.js:106-138 | reading the written text gives the purchase token, then one token per sell slot up to the last observed one, "" for each unobserved slot |
| FormInput.IsBetween | src/js/ui.js:532-534 | isBetween: the value is a number, non-zero, and between the bounds, both included |
| FormInput.PriceFieldRange | src/js/ui.js:532-534 | isBetween(v, 0, 2000) holds exactly for the numbers 1..2000; 0 and NaN are rejected |
| FormInput.ReadPrice | src/js/ui.js:140-145 | a price field reads as its number when isBetween accepts it and as absent (0) otherwise |
| FormInput.ReadPrices | src/js/ui.js:140-145 | one read per field; a field is present exactly when isBetween accepts it |
| FormInput.ParseIntWithDefault | src/js/ui.js:527-530 | the default replaces NaN and also a parsed 0 |
| FormInput.ParseIntOrDefault | src/js/ui.js:527-530 | the default replaces only NaN |
| FormInput.ParsesAgree | src/js/ui.js:527-530 | the two parses differ exactly on a parsed 0 whose default is not 0, so the min, max and tolerance reads (default 0) are unaffected |
| FormInput.ReadMethodAsWritten | src/js/ui.js:163-168 | a method read from the form has the field's code and is never PRICE |
| FormInput.ReadMethod | src/js/ui.js:163-168 | a method read with the corrected parse has the field's code |
| FormInput.PriceMethodLost | src/js/ui.js:527-530 | choosing PRICE (option value 0) reads back as -1, a code of no method; every other method reads back as itself |
| FormInput.MethodCodeRoundTrip | src/js/ui.js:163-168 | with the corrected parse every method written to the form reads back as itself |

## Left out

- Rendering, DOM building, the display tables and their rounding, i18n and localStorage: they are presentation and persistence.
- Form marshalling other than the transition-method read: the start-day checkboxes, the presets table (a constant configuration) and the reading and writing of the whole parameter form.
- The stale `ui.js` at the repository root: it is not the bundle's entry, and its inline-text functions duplicate `src/js/ui.js`.
- Floating point: bounds are exact reals, so IEEE-754 rounding in the interval arithmetic is not modelled.
- `parseInt` itself: the number it gives a field is an input, with `None` for NaN; the model does not parse digits.
- Map insertion order of the wave results: a Dafny map keeps no order.
- The hidden tolerance global (`PredictionRange.prototype.tolerance`): it is passed as an explicit parameter.
- In-place sharing of range objects: ranges are values. The source never shares one range between two stored results, so nothing observable is lost.
- Propagation.EachPrediction: requires the five known transition methods (a rule is a datatype), so an unknown code such as -1 is excluded. In the source such a code leaves its slot unset in the forward pass. The forward pass then fails if the next slot derives from it by PREV_PRICE_DIFF or PREV_PRICE_RATIO while unobserved; otherwise the backward pass may fill it from the next slot's bound (src/js/predictor.js:398-399), and a slot still unset makes the floor loop fail.
- Rules.IsAssignment: requires non-zero PREV_PRICE_RATIO bounds at slots 2..12, since the backward pass divides by them.
- Assignments.WaveRules: proves IsAssignment from WaveParams.Valid, which asks every wave rule to have non-zero PREV_PRICE_RATIO bounds, including every wave rule that never lands on slots 2..12 for any listed pair (for example the first rule of a run whose only listed start day is 1, or the second rule of the two-day run when 12 is its only listed start day); the source never divides by such a rule, so these parameters are excluded although the source runs them.
- Peak.PeakAdjust: requires, like Peak.PeakAdjustAsWritten, slot S+3 inside the week or slot S+2 unobserved; otherwise the source reads a missing slot's range and fails. It also requires S >= 0, a restriction of the model: the source runs for S = -1 and S = -2 as well, whose slots S+2..S+4 exist. Predictor.PredictFourthPeriod requires this, when the peak flag is set, only of listed start days whose rising prediction is feasible: the source skips a null entry before it reads any slot (src/js/predictor.js:172-175).
- Predictor.PredictThirdPeriod: requires listed start days >= 1, a restriction of the model: the source also runs for S = 0 (the first rising rule then lands on the unused slot 0) and stores negative days as keys.
- InlineText.WriteInline: requires at least the purchase slot and non-negative prices, since a negative number would print a minus sign.

## Findings

| source | as written | input that shows it | evidently intended | confidence | as-written member | corrected member |
|---|---|---|---|---|---|---|
| src/js/predictor.js:183-188 | the peak pass caps slot S+4 at the observed peak only when S+4 is itself observed (`if (prices[S+4])`) | S = 1, slot 4 observed at 150, slot 5 unobserved with range [0, 600]: slot 5 keeps maximum 600; slot 5 observed at 200 with range [200, 200]: it becomes [200, 150] and rejects its own price | cap S+4 when it is unobserved, as for S+2 (`if (!prices[S+4])`) | not executed | Peak.PeakAsWrittenCounterexample | Peak.PeakKeepsPeakWeeks |
| src/js/ui.js:527-530 with 165 and 329 | `parseIntWithDefault` replaces a parsed 0 by the default, so the method field's value 0 (PRICE) reads as -1 | method field "0" | keep a parsed 0; use the default only for NaN | not executed | FormInput.PriceMethodLost | FormInput.MethodCodeRoundTrip |
