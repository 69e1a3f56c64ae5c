/**
 * The two-proportion z-test that decides an A/B experiment, and the selection of control and
 * challenger among several thumbnail arms. `sqrt`, the normal CDF and `round` are uninterpreted,
 * so every property below holds whatever those functions compute.
 */
module Statistics {
  import opened Wrappers
  import opened Externals
  import opened State

  /** Default `min_confidence` of both entry points. */
  const DefaultMinConfidence: real := 0.95

  /** Below this many impressions on either arm an inconclusive test says "wait". */
  const MinImpressionsPerArm: nat := 1000

  /** The generic winner label of `calculate_significance`: "control" or "treatment". */
  datatype Arm = Control | Treatment

  /** `SignificanceResult` */
  datatype SignificanceResult = SignificanceResult(
    winner: Option<Arm>, winnerConfidence: real, isSignificant: bool, uplift: real,
    recommendation: Recommendation, pValue: real)

  /** The result returned when there is nothing to compare (no impressions, or no spread). */
  const Degenerate: SignificanceResult := SignificanceResult(None, 0.0, false, 0.0, Wait, 1.0)

  function Abs(x: real): real {
    if x < 0.0 then -x else x
  }

  /** Clicks per impression of one arm. */
  function Rate(clicks: nat, impressions: nat): real
    requires impressions > 0
  {
    clicks as real / impressions as real
  }

  /** Standard error of the rate difference under the pooled proportion. */
  function StandardError(controlClicks: nat, controlImpressions: nat, treatmentClicks: nat, treatmentImpressions: nat, num: Numerics): real
    requires controlImpressions > 0 && treatmentImpressions > 0
  {
    var pooled := (controlClicks + treatmentClicks) as real / (controlImpressions + treatmentImpressions) as real;
    num.sqrt(pooled * (1.0 - pooled) * (1.0 / controlImpressions as real + 1.0 / treatmentImpressions as real))
  }

  /** Two-tailed p-value of the z-score of the rate difference. */
  function TwoTailedP(controlClicks: nat, controlImpressions: nat, treatmentClicks: nat, treatmentImpressions: nat, num: Numerics): real
    requires controlImpressions > 0 && treatmentImpressions > 0
    requires StandardError(controlClicks, controlImpressions, treatmentClicks, treatmentImpressions, num) != 0.0
  {
    var z := (Rate(treatmentClicks, treatmentImpressions) - Rate(controlClicks, controlImpressions))
      / StandardError(controlClicks, controlImpressions, treatmentClicks, treatmentImpressions, num);
    2.0 * (1.0 - num.normalCdf(Abs(z)))
  }

  /** Both arms have impressions and the standard error is not zero: the z-test is computed. */
  predicate Comparable(controlClicks: nat, controlImpressions: nat, treatmentClicks: nat, treatmentImpressions: nat, num: Numerics) {
    && controlImpressions > 0 && treatmentImpressions > 0
    && StandardError(controlClicks, controlImpressions, treatmentClicks, treatmentImpressions, num) != 0.0
  }

  /** Relative gain of the winning rate over the losing one; 0 when the losing rate is 0. */
  function RelativeGain(winner: real, loser: real): (g: real)
    ensures loser > 0.0 ==> g * loser == winner - loser
    ensures loser <= 0.0 ==> g == 0.0
  {
    if loser > 0.0 then (winner - loser) / loser else 0.0
  }

  /** `calculate_significance` */
  function CalculateSignificance(
    controlClicks: nat, controlImpressions: nat, treatmentClicks: nat, treatmentImpressions: nat,
    minConfidence: real, num: Numerics
  ): (r: SignificanceResult)
    ensures controlImpressions == 0 || treatmentImpressions == 0 ==> r == Degenerate
    ensures controlImpressions > 0 && treatmentImpressions > 0
      && !Comparable(controlClicks, controlImpressions, treatmentClicks, treatmentImpressions, num)
      ==> r == Degenerate
    ensures Comparable(controlClicks, controlImpressions, treatmentClicks, treatmentImpressions, num) ==>
      var p := TwoTailedP(controlClicks, controlImpressions, treatmentClicks, treatmentImpressions, num);
      var p1 := Rate(controlClicks, controlImpressions);
      var p2 := Rate(treatmentClicks, treatmentImpressions);
      && r.winnerConfidence == 1.0 - p
      && r.pValue == num.round(p, 6)
      && (r.isSignificant <==> 1.0 - p >= minConfidence)
      && (r.winner == Some(Treatment) <==> r.isSignificant && p2 > p1)
      && (r.winner == Some(Control) <==> r.isSignificant && p2 <= p1)
      && (!r.isSignificant ==> r.uplift == num.round(0.0, 4))
      && (r.winner == Some(Treatment) ==> r.uplift == num.round(RelativeGain(p2, p1), 4))
      && (r.winner == Some(Control) ==> r.uplift == num.round(RelativeGain(p1, p2), 4))
      && (r.recommendation == Wait <==> !r.isSignificant && (controlImpressions < MinImpressionsPerArm || treatmentImpressions < MinImpressionsPerArm))
    ensures r.winner.Some? <==> r.isSignificant
    ensures r.recommendation == DeclareWinner <==> r.isSignificant
  {
    if controlImpressions == 0 || treatmentImpressions == 0 then Degenerate
    else if StandardError(controlClicks, controlImpressions, treatmentClicks, treatmentImpressions, num) == 0.0 then Degenerate
    else
      var p1 := Rate(controlClicks, controlImpressions);
      var p2 := Rate(treatmentClicks, treatmentImpressions);
      var p := TwoTailedP(controlClicks, controlImpressions, treatmentClicks, treatmentImpressions, num);
      var confidence := 1.0 - p;
      var significant := confidence >= minConfidence;
      var winner := if !significant then None else if p2 > p1 then Some(Treatment) else Some(Control);
      var uplift := if !significant then 0.0 else if p2 > p1 then RelativeGain(p2, p1) else RelativeGain(p1, p2);
      var recommendation :=
        if significant then DeclareWinner
        else if controlImpressions < MinImpressionsPerArm || treatmentImpressions < MinImpressionsPerArm then Wait
        else Inconclusive;
      SignificanceResult(winner, confidence, significant, num.round(uplift, 4), recommendation, num.round(p, 6))
  }

  /** `s` without its element at `i`. */
  function RemoveAt<T>(s: seq<T>, i: nat): (r: seq<T>)
    requires i < |s|
    ensures |r| == |s| - 1
    ensures forall j :: 0 <= j < i ==> r[j] == s[j]
    ensures forall j :: i <= j < |r| ==> r[j] == s[j + 1]
  {
    s[..i] + s[i + 1..]
  }

  /**
   * Index of the challenger arm: the head of the stable ctr-descending order, or, when that head
   * has the control's id, the next element of that order (the first highest ctr among the rest).
   */
  function ChallengerIndex(vs: seq<VariantMetrics>): (c: nat)
    requires |vs| >= 2
    ensures c < |vs|
    ensures vs[FirstMaxCtrIndex(vs)].thumbnailId != vs[0].thumbnailId ==> c == FirstMaxCtrIndex(vs)
    ensures vs[FirstMaxCtrIndex(vs)].thumbnailId == vs[0].thumbnailId ==>
      var i0 := FirstMaxCtrIndex(vs);
      && c != i0
      && (forall j :: 0 <= j < |vs| && j != i0 ==> vs[j].ctr <= vs[c].ctr)
      && (forall j :: 0 <= j < c && j != i0 ==> vs[j].ctr < vs[c].ctr)
  {
    var i0 := FirstMaxCtrIndex(vs);
    if vs[i0].thumbnailId == vs[0].thumbnailId then
      var rest := RemoveAt(vs, i0);
      var k := FirstMaxCtrIndex(rest);
      RemovedFirstMax(vs, i0);
      if k < i0 then k else k + 1
    else i0
  }

  /** The first highest ctr once element `i0` is removed, as an index of the original sequence. */
  lemma RemovedFirstMax(vs: seq<VariantMetrics>, i0: nat)
    requires |vs| >= 2 && i0 < |vs|
    ensures var k := FirstMaxCtrIndex(RemoveAt(vs, i0));
      var c := if k < i0 then k else k + 1;
      && c < |vs| && c != i0
      && (forall j :: 0 <= j < |vs| && j != i0 ==> vs[j].ctr <= vs[c].ctr)
      && (forall j :: 0 <= j < c && j != i0 ==> vs[j].ctr < vs[c].ctr)
  {
    var rest := RemoveAt(vs, i0);
    var k := FirstMaxCtrIndex(rest);
    var c := if k < i0 then k else k + 1;
    assert rest[k] == vs[c];
    forall j | 0 <= j < |vs| && j != i0
      ensures vs[j].ctr <= vs[c].ctr
      ensures j < c ==> vs[j].ctr < vs[c].ctr
    {
      var jr := if j < i0 then j else j - 1;
      assert vs[j] == rest[jr];
      assert j < c ==> jr < k;
    }
  }

  /** `calculate_multi_variant`: the error dict, or the comparison of control against challenger. */
  datatype MultiVariantOutcome = NeedTwoVariants | Compared(stats: ComparisonStats)

  /** `calculate_multi_variant`: the first arm is the control. */
  function CalculateMultiVariant(vs: seq<VariantMetrics>, minConfidence: real, num: Numerics): (r: MultiVariantOutcome)
    ensures r.NeedTwoVariants? <==> |vs| < 2
    ensures r.Compared? ==>
      var control := vs[0];
      var challenger := vs[ChallengerIndex(vs)];
      var sig := CalculateSignificance(control.clicks, control.impressions, challenger.clicks, challenger.impressions, minConfidence, num);
      && r.stats.comparison == control.thumbnailId + " vs " + challenger.thumbnailId
      && r.stats.controlCtr == control.ctr
      && r.stats.treatmentCtr == challenger.ctr
      && (r.stats.winnerId == Some(challenger.thumbnailId) <== sig.winner == Some(Treatment))
      && (r.stats.winnerId == Some(control.thumbnailId) <== sig.winner == Some(Control))
      && r.stats.winnerConfidence == sig.winnerConfidence
      && r.stats.isSignificant == sig.isSignificant
      && r.stats.uplift == sig.uplift
      && r.stats.recommendation == sig.recommendation
      && r.stats.pValue == sig.pValue
    ensures r.Compared? ==> (r.stats.winnerId.Some? <==> r.stats.recommendation == DeclareWinner)
  {
    if |vs| < 2 then NeedTwoVariants
    else
      var control := vs[0];
      var challenger := vs[ChallengerIndex(vs)];
      var sig := CalculateSignificance(control.clicks, control.impressions, challenger.clicks, challenger.impressions, minConfidence, num);
      var winnerId := match sig.winner
        case Some(Treatment) => Some(challenger.thumbnailId)
        case Some(Control) => Some(control.thumbnailId)
        case None => None;
      Compared(ComparisonStats(
        control.thumbnailId + " vs " + challenger.thumbnailId, control.ctr, challenger.ctr, winnerId,
        sig.winnerConfidence, sig.isSignificant, sig.uplift, sig.recommendation, sig.pValue))
  }

  /** `stats.get("winner_confidence", 0.0)` */
  function WinnerConfidence(r: MultiVariantOutcome): real {
    if r.Compared? then r.stats.winnerConfidence else 0.0
  }

  /** `stats.get("recommendation", "wait")` */
  function RecommendationOf(r: MultiVariantOutcome): Recommendation {
    if r.Compared? then r.stats.recommendation else Wait
  }

  /** `stats.get("winner_id")` */
  function WinnerIdOf(r: MultiVariantOutcome): Option<string> {
    if r.Compared? then r.stats.winnerId else None
  }

  /** A declared winner is always one of the two compared arms, and comes only with a "declare_winner" recommendation. */
  lemma DeclaredWinnerIsComparedArm(vs: seq<VariantMetrics>, minConfidence: real, num: Numerics)
    ensures var r := CalculateMultiVariant(vs, minConfidence, num);
      WinnerIdOf(r).Some? ==>
        && RecommendationOf(r) == DeclareWinner
        && |vs| >= 2
        && (WinnerIdOf(r).value == vs[0].thumbnailId || WinnerIdOf(r).value == vs[ChallengerIndex(vs)].thumbnailId)
  {
  }

  /** When no arm shares the control's id, the challenger is the first arm of highest ctr overall. */
  lemma ChallengerIsBestWhenDistinct(vs: seq<VariantMetrics>)
    requires |vs| >= 2
    requires forall j :: 1 <= j < |vs| ==> vs[j].thumbnailId != vs[0].thumbnailId
    requires FirstMaxCtrIndex(vs) != 0
    ensures ChallengerIndex(vs) == FirstMaxCtrIndex(vs)
    ensures forall j :: 0 <= j < |vs| ==> vs[j].ctr <= vs[ChallengerIndex(vs)].ctr
  {
  }

  /** When the control has the strictly highest ctr, the challenger is the best of the other arms. */
  lemma ChallengerWhenControlLeads(vs: seq<VariantMetrics>)
    requires |vs| >= 2
    requires forall j :: 1 <= j < |vs| ==> vs[j].ctr < vs[0].ctr
    ensures ChallengerIndex(vs) != 0
    ensures forall j :: 1 <= j < |vs| ==> vs[j].ctr <= vs[ChallengerIndex(vs)].ctr
  {
    assert FirstMaxCtrIndex(vs) == 0;
  }
}
