/**
 * The A/B-test node. Its first visit starts an experiment over the generated thumbnails. Every
 * later visit refreshes the metrics from a fresh analytics batch, then declares a winner on
 * significance or on timeout, or lets the test run on. The experiment record is a value held in
 * the snapshot's `abTest` field, replaced on every change.
 */
module ABTestOrchestrator {
  import opened Wrappers
  import opened Externals
  import opened State
  import opened Statistics
  import opened AnalyticsMock

  /** `max_test_duration_hours` */
  const MaxTestDurationHours: int := 72
  const NeedTwoThumbnails := "Need at least 2 thumbnails for A/B test"
  /** What `max` raises on an empty batch. */
  const EmptyMaxMessage := "max() arg is an empty sequence"

  /** The metrics entry an experiment starts with for one thumbnail: everything zero, no `confidence` key. */
  function StartingMetrics(t: ThumbnailVariant): VariantMetrics {
    VariantMetrics(t.id, t.style, 0, 0, 0.0, 0, None)
  }

  /** The `variants_metrics` comprehension of `_initialize_test`. */
  function InitialMetrics(thumbnails: seq<ThumbnailVariant>): (r: seq<VariantMetrics>)
    ensures |r| == |thumbnails|
    ensures forall i :: 0 <= i < |r| ==>
      && r[i].thumbnailId == thumbnails[i].id && r[i].style == thumbnails[i].style
      && r[i].impressions == 0 && r[i].clicks == 0 && r[i].ctr == 0.0 && r[i].avgViewDuration == 0
      && r[i].confidence.None?
  {
    seq(|thumbnails|, i requires 0 <= i < |thumbnails| => StartingMetrics(thumbnails[i]))
  }

  /** The record `_initialize_test` stores at time `now`. */
  function InitialExperiment(thumbnails: seq<ThumbnailVariant>, now: real): (a: ABTestState)
    ensures a.status == Running && a.winnerId.None? && a.confidence == 0.0 && a.finalStats.None?
    ensures a.totalImpressions == 0 && a.checkCount == 0 && a.startedAt == now && a.lastUpdated == now
    ensures a.variants == InitialMetrics(thumbnails)
  {
    ABTestState(now, now, Running, InitialMetrics(thumbnails), None, 0.0, 0, 0, None)
  }

  /** Arms that have not been shown yet add up to no impressions. */
  lemma {:induction false} UnshownArmsSumToZero(vs: seq<VariantMetrics>)
    requires forall i :: 0 <= i < |vs| ==> vs[i].impressions == 0
    ensures SumImpressions(vs) == 0
  {
    if vs != [] {
      UnshownArmsSumToZero(vs[..|vs| - 1]);
    }
  }

  /** A freshly started experiment is consistent: its zero total is the sum over its zeroed arms. */
  lemma InitialExperimentConsistent(thumbnails: seq<ThumbnailVariant>, now: real)
    ensures ExperimentConsistent(InitialExperiment(thumbnails, now))
  {
    UnshownArmsSumToZero(InitialMetrics(thumbnails));
  }

  /** `time.time() - started_at` in minutes. */
  function ElapsedMinutes(a: ABTestState, now: real): real {
    (now - a.startedAt) / 60.0
  }

  /** What `_update_test` decides once the metrics are refreshed. */
  datatype Decision =
    | DeclareWinnerDecision(winnerId: string, stats: ComparisonStats)
    | TimeoutDecision(best: VariantMetrics)
    | ContinueDecision
    | EmptyBatchRaises

  /**
   * A "declare_winner" recommendation with a non-empty winner id wins. Failing that, a test older
   * than 72 hours (strictly) times out on the first arm of highest ctr, and `max` raises when there
   * is no arm. Otherwise the test goes on.
   */
  function Decide(stats: MultiVariantOutcome, batch: seq<VariantMetrics>, elapsedMinutes: real): (d: Decision)
    ensures d.DeclareWinnerDecision? <==> RecommendationOf(stats) == DeclareWinner && Truthy(WinnerIdOf(stats))
    ensures d.DeclareWinnerDecision? ==> stats == Compared(d.stats) && WinnerIdOf(stats) == Some(d.winnerId)
    ensures !d.DeclareWinnerDecision? ==>
      && (d.ContinueDecision? <==> elapsedMinutes <= (MaxTestDurationHours * 60) as real)
      && (d.EmptyBatchRaises? <==> elapsedMinutes > (MaxTestDurationHours * 60) as real && batch == [])
    ensures d.TimeoutDecision? ==> |batch| > 0 && d.best == batch[FirstMaxCtrIndex(batch)]
  {
    if RecommendationOf(stats) == DeclareWinner && Truthy(WinnerIdOf(stats)) then
      DeclareWinnerDecision(WinnerIdOf(stats).value, stats.stats)
    else if elapsedMinutes > (MaxTestDurationHours * 60) as real then
      if batch == [] then EmptyBatchRaises else TimeoutDecision(batch[FirstMaxCtrIndex(batch)])
    else ContinueDecision
  }

  /** The record after `_update_test`: refreshed from the batch, then concluded as `Decide` says. */
  function Updated(a: ABTestState, batch: seq<VariantMetrics>, now: real, stats: MultiVariantOutcome, elapsedMinutes: real): (u: ABTestState)
    ensures u.startedAt == a.startedAt && u.lastUpdated == now
    ensures u.variants == batch && u.totalImpressions == SumImpressions(batch)
    ensures u.checkCount == a.checkCount + 1 && u.confidence == WinnerConfidence(stats)
    ensures var d := Decide(stats, batch, elapsedMinutes);
      && (d.DeclareWinnerDecision? ==>
            u.winnerId == WinnerIdOf(stats) && u.status == Completed && u.finalStats == Some(FromComparison(d.stats)))
      && (d.TimeoutDecision? ==>
            u.winnerId == Some(d.best.thumbnailId) && u.status == Timeout && u.finalStats == Some(TimeoutStats(d.best.ctr)))
      && (d.ContinueDecision? || d.EmptyBatchRaises? ==>
            u.status == a.status && u.winnerId == a.winnerId && u.finalStats == a.finalStats)
  {
    var refreshed := a.(
      variants := batch, lastUpdated := now, checkCount := a.checkCount + 1,
      totalImpressions := SumImpressions(batch), confidence := WinnerConfidence(stats));
    match Decide(stats, batch, elapsedMinutes)
    case DeclareWinnerDecision(w, st) => refreshed.(winnerId := Some(w), status := Completed, finalStats := Some(FromComparison(st)))
    case TimeoutDecision(best) => refreshed.(winnerId := Some(best.thumbnailId), status := Timeout, finalStats := Some(TimeoutStats(best.ctr)))
    case _ => refreshed
  }

  /** `current_step` after `_update_test`; it is left alone when `max` raises. */
  function StepAfterUpdate(d: Decision, step: string): string {
    match d
    case DeclareWinnerDecision(_, _) => "ab_test_complete"
    case TimeoutDecision(_) => "ab_test_complete"
    case ContinueDecision => "ab_testing"
    case EmptyBatchRaises => step
  }

  /**
   * An update keeps a consistent record consistent, whatever the status it had before: the check
   * runs again on a finished experiment too, and may even change how it finished.
   */
  lemma UpdatePreservesConsistency(a: ABTestState, batch: seq<VariantMetrics>, now: real, stats: MultiVariantOutcome, elapsedMinutes: real)
    requires ExperimentConsistent(a)
    ensures ExperimentConsistent(Updated(a, batch, now, stats, elapsedMinutes))
  {
    var d := Decide(stats, batch, elapsedMinutes);
    if d.DeclareWinnerDecision? {
      assert WinnerIdOf(stats).Some?;
    }
  }

  /** A declared winner is the control or the challenger of the comparison. */
  lemma DeclaredWinnerIsAnArm(batch: seq<VariantMetrics>, num: Numerics, elapsedMinutes: real)
    ensures var d := Decide(CalculateMultiVariant(batch, DefaultMinConfidence, num), batch, elapsedMinutes);
      d.DeclareWinnerDecision? ==>
        |batch| >= 2 && (d.winnerId == batch[0].thumbnailId || d.winnerId == batch[ChallengerIndex(batch)].thumbnailId)
  {
    DeclaredWinnerIsComparedArm(batch, DefaultMinConfidence, num);
  }

  /** A timed-out test names the first arm of highest ctr. */
  lemma TimeoutWinnerIsFirstBest(stats: MultiVariantOutcome, batch: seq<VariantMetrics>, elapsedMinutes: real)
    ensures var d := Decide(stats, batch, elapsedMinutes);
      d.TimeoutDecision? ==>
        && (forall j :: 0 <= j < |batch| ==> batch[j].ctr <= d.best.ctr)
        && (forall j :: 0 <= j < FirstMaxCtrIndex(batch) ==> batch[j].ctr < d.best.ctr)
        && d.best == batch[FirstMaxCtrIndex(batch)]
  {
  }

  /** The record after `force_winner`. */
  function Forced(a: ABTestState, thumbnailId: string): (u: ABTestState)
    ensures u.winnerId == Some(thumbnailId) && u.status == ManualOverride && u.finalStats == Some(ManualOverrideStats)
    ensures u.variants == a.variants && u.totalImpressions == a.totalImpressions && u.checkCount == a.checkCount
    ensures u.confidence == a.confidence && u.startedAt == a.startedAt && u.lastUpdated == a.lastUpdated
  {
    a.(winnerId := Some(thumbnailId), status := ManualOverride, finalStats := Some(ManualOverrideStats))
  }

  /** Of two overrides the last one wins; the first leaves no trace. */
  lemma ForceWinnerLastCallWins(a: ABTestState, first: string, second: string)
    ensures Forced(Forced(a, first), second) == Forced(a, second)
  {
  }

  /** An override keeps the record consistent, whatever its status was. */
  lemma ForcedConsistent(a: ABTestState, thumbnailId: string)
    requires a.totalImpressions == SumImpressions(a.variants)
    ensures ExperimentConsistent(Forced(a, thumbnailId))
  {
  }

  /** `_initialize_test` */
  method InitializeTest(s: WorkflowState, now: real)
    modifies s`abTest, s`errors, s`currentStep
    ensures |s.thumbnailVariants| < 2 ==>
      s.errors == old(s.errors) + [NeedTwoThumbnails] && s.currentStep == "error" && s.abTest == old(s.abTest)
    ensures |s.thumbnailVariants| >= 2 ==>
      s.abTest == Some(InitialExperiment(s.thumbnailVariants, now)) && s.currentStep == "ab_testing" && s.errors == old(s.errors)
  {
    var thumbnails := s.thumbnailVariants;
    if thumbnails == [] || |thumbnails| < 2 {
      s.errors := s.errors + [NeedTwoThumbnails];
      s.currentStep := "error";
      return;
    }
    var metrics := InitialMetrics(thumbnails);
    s.abTest := Some(ABTestState(now, now, Running, metrics, None, 0.0, 0, 0, None));
    s.currentStep := "ab_testing";
  }

  /**
   * `_update_test`: a fresh analytics provider is seeded from the workflow id, so it draws from
   * the start of that id's stream; its batch replaces the arms, and the record is concluded as
   * `Decide` says. When `max` raises (`Err`) the refreshed record stays and the step is untouched.
   */
  method UpdateTest(s: WorkflowState, c: Collaborators) returns (r: Result<(), string>)
    requires s.abTest.Some?
    modifies s`abTest, s`currentStep
    ensures var a := old(s.abTest).value;
      var minutes := ElapsedMinutes(a, c.now);
      var batch := BatchAt(c.normalDraw, s.workflowId, 0, s.thumbnailVariants, Trunc(minutes), c.numerics);
      var stats := CalculateMultiVariant(batch, DefaultMinConfidence, c.numerics);
      && s.abTest == Some(Updated(a, batch, c.now, stats, minutes))
      && s.currentStep == StepAfterUpdate(Decide(stats, batch, minutes), old(s.currentStep))
      && (r.Err? <==> Decide(stats, batch, minutes).EmptyBatchRaises?)
  {
    var a := s.abTest.value;
    var minutes := ElapsedMinutes(a, c.now);
    var provider := new MockAnalyticsProvider(s.workflowId, c.normalDraw, c.numerics);
    var batch := provider.SimulateBatch(s.thumbnailVariants, Trunc(minutes));
    var stats := CalculateMultiVariant(batch, DefaultMinConfidence, c.numerics);
    var decision := Decide(stats, batch, minutes);
    s.abTest := Some(Updated(a, batch, c.now, stats, minutes));
    s.currentStep := StepAfterUpdate(decision, s.currentStep);
    r := if decision.EmptyBatchRaises? then Err(EmptyMaxMessage) else Ok(());
  }

  /** `process`: start the test when there is none, otherwise update it, finished or not. */
  method Process(s: WorkflowState, c: Collaborators) returns (r: Result<(), string>)
    modifies s`abTest, s`errors, s`currentStep
    ensures old(s.abTest).None? ==> r.Ok?
    ensures old(s.abTest).None? && |s.thumbnailVariants| < 2 ==>
      s.errors == old(s.errors) + [NeedTwoThumbnails] && s.currentStep == "error" && s.abTest.None?
    ensures old(s.abTest).None? && |s.thumbnailVariants| >= 2 ==>
      s.abTest == Some(InitialExperiment(s.thumbnailVariants, c.now)) && s.currentStep == "ab_testing" && s.errors == old(s.errors)
    ensures old(s.abTest).Some? ==>
      var a := old(s.abTest).value;
      var minutes := ElapsedMinutes(a, c.now);
      var batch := BatchAt(c.normalDraw, s.workflowId, 0, s.thumbnailVariants, Trunc(minutes), c.numerics);
      var stats := CalculateMultiVariant(batch, DefaultMinConfidence, c.numerics);
      && s.abTest == Some(Updated(a, batch, c.now, stats, minutes))
      && s.currentStep == StepAfterUpdate(Decide(stats, batch, minutes), old(s.currentStep))
      && (r.Err? <==> Decide(stats, batch, minutes).EmptyBatchRaises?)
      && s.errors == old(s.errors)
  {
    if s.abTest.None? {
      InitializeTest(s, c.now);
      r := Ok(());
    } else {
      r := UpdateTest(s, c);
    }
  }

  /** `force_winner`: with an experiment, close it on the given thumbnail; without one, change nothing. */
  method ForceWinner(s: WorkflowState, thumbnailId: string)
    modifies s`abTest, s`currentStep
    ensures old(s.abTest).Some? ==> s.abTest == Some(Forced(old(s.abTest).value, thumbnailId)) && s.currentStep == "ab_test_complete"
    ensures old(s.abTest).None? ==> s.abTest.None? && s.currentStep == old(s.currentStep)
  {
    if s.abTest.Some? {
      var a := s.abTest.value;
      a := a.(winnerId := Some(thumbnailId));
      a := a.(status := ManualOverride);
      a := a.(finalStats := Some(ManualOverrideStats));
      s.abTest := Some(a);
      s.currentStep := "ab_test_complete";
    }
  }
}
