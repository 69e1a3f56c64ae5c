/**
 * The simulated analytics provider: per-style click-through baselines, an impressions curve that
 * grows with the elapsed minutes, and a generator seeded from the workflow id. The generator is the
 * abstract sequence `normalDraw(workflowId, 0), normalDraw(workflowId, 1), ...` of standard normal
 * values; `rng.gauss(mu, sigma)` on draw k is `mu + sigma * normalDraw(workflowId, k)`.
 */
module AnalyticsMock {
  import opened Externals
  import opened State
  import opened Wrappers

  /** One entry of `STYLE_BASELINES`. */
  datatype Baseline = Baseline(ctrMean: real, ctrStd: real, viewDuration: int)

  const StyleBaselines: map<string, Baseline> := map[
    "face_focus" := Baseline(0.085, 0.015, 45),
    "face_focused" := Baseline(0.085, 0.015, 45),
    "product_demo" := Baseline(0.062, 0.012, 38),
    "product_focused" := Baseline(0.062, 0.012, 38),
    "viral" := Baseline(0.095, 0.025, 52),
    "text_heavy" := Baseline(0.058, 0.010, 35)
  ]

  /** Draws consumed by one `get_metrics` call: impressions, true ctr, noise, view duration, engagement. */
  const DrawsPerMetrics: nat := 5

  /** `STYLE_BASELINES.get(style, STYLE_BASELINES["face_focus"])` */
  function BaselineFor(style: string): Baseline {
    if style in StyleBaselines then StyleBaselines[style] else StyleBaselines["face_focus"]
  }

  /** A style without an entry gets the `face_focus` baseline. */
  lemma UnknownStyleUsesFaceFocus(style: string)
    requires style !in StyleBaselines
    ensures BaselineFor(style) == Baseline(0.085, 0.015, 45)
  {
  }

  function MaxReal(a: real, b: real): real {
    if a >= b then a else b
  }

  function MinReal(a: real, b: real): real {
    if a <= b then a else b
  }

  function MaxInt(a: int, b: int): int {
    if a >= b then a else b
  }

  /** `rng.gauss(mu, sigma)` given the standard normal draw `z`. */
  function Gaussian(mu: real, sigma: real, z: real): real {
    mu + sigma * z
  }

  /** The impressions curve before the floor at 100: slow first hour, fast until six hours, then a plateau. */
  function RawImpressions(minutes: int, z: real): int {
    if minutes < 60 then Trunc(minutes as real * Gaussian(50.0, 10.0, z))
    else if minutes < 360 then Trunc(3000.0 + (minutes - 60) as real * Gaussian(80.0, 15.0, z))
    else Trunc(30000.0 + (minutes - 360) as real * Gaussian(20.0, 5.0, z))
  }

  /** Scale of the observation noise; it shrinks over the first day and never drops below 0.1. */
  function NoiseFactor(minutes: int): (f: real)
    ensures f >= 0.1
    ensures f >= 1.0 - minutes as real / 1440.0
    ensures f == 0.1 || f == 1.0 - minutes as real / 1440.0
  {
    MaxReal(0.1, 1.0 - minutes as real / 1440.0)
  }

  /** The observed click-through rate, clamped to [0.01, 0.35] (before rounding). */
  function ObservedCtr(b: Baseline, minutes: int, zTrue: real, zNoise: real): (r: real)
    ensures 0.01 <= r <= 0.35
  {
    var trueCtr := Gaussian(b.ctrMean, b.ctrStd, zTrue);
    var observed := trueCtr + Gaussian(0.0, b.ctrStd * NoiseFactor(minutes), zNoise);
    MaxReal(0.01, MinReal(0.35, observed))
  }

  /** `int(impressions * observed_ctr)`: clicks before the floor at 1. */
  function Clicks(impressions: int, observedCtr: real): int {
    Trunc(impressions as real * observedCtr)
  }

  /** A rate already inside [0.01, 0.35] is reported as observed. */
  lemma ObservedCtrInRange(b: Baseline, minutes: int, zTrue: real, zNoise: real)
    requires var raw := Gaussian(b.ctrMean, b.ctrStd, zTrue) + Gaussian(0.0, b.ctrStd * NoiseFactor(minutes), zNoise);
      0.01 <= raw <= 0.35
    ensures ObservedCtr(b, minutes, zTrue, zNoise)
      == Gaussian(b.ctrMean, b.ctrStd, zTrue) + Gaussian(0.0, b.ctrStd * NoiseFactor(minutes), zNoise)
  {
  }

  /** `MockMetrics` */
  datatype MockMetrics = MockMetrics(impressions: nat, clicks: nat, ctr: real, avgViewDuration: int, engagementRate: real)

  /** What `get_metrics(style, minutes)` returns when the generator is at draw `k`. */
  function MetricsAt(normalDraw: (string, nat) -> real, workflowId: string, k: nat, style: string, minutes: int, num: Numerics): MockMetrics {
    var b := BaselineFor(style);
    var impressions := RawImpressions(minutes, normalDraw(workflowId, k));
    var observed := ObservedCtr(b, minutes, normalDraw(workflowId, k + 1), normalDraw(workflowId, k + 2));
    var clicks := Clicks(impressions, observed);
    var duration := Trunc(Gaussian(b.viewDuration as real, 8.0, normalDraw(workflowId, k + 3)));
    var engagement := Gaussian(0.04, 0.01, normalDraw(workflowId, k + 4));
    MockMetrics(MaxInt(100, impressions), MaxInt(1, clicks), num.round(observed, 4), duration, num.round(engagement, 4))
  }

  /**
   * The reported metrics: at least 100 impressions and one click, the ctr the clamped observed rate
   * rounded to four places, the clicks the truncated product of the raw impressions and that rate.
   */
  lemma MetricsShape(normalDraw: (string, nat) -> real, workflowId: string, k: nat, style: string, minutes: int, num: Numerics)
    ensures var m := MetricsAt(normalDraw, workflowId, k, style, minutes, num);
      var observed := ObservedCtr(BaselineFor(style), minutes, normalDraw(workflowId, k + 1), normalDraw(workflowId, k + 2));
      && m.impressions >= 100 && m.clicks >= 1
      && m.impressions >= RawImpressions(minutes, normalDraw(workflowId, k))
      && m.ctr == num.round(observed, 4)
      && m.clicks >= Clicks(RawImpressions(minutes, normalDraw(workflowId, k)), observed)
  {
  }

  /** The batch record `simulate_batch` builds for one thumbnail. */
  function BatchRecord(v: ThumbnailVariant, m: MockMetrics): VariantMetrics {
    VariantMetrics(v.id, v.style, m.impressions, m.clicks, m.ctr, m.avgViewDuration, Some(0.0))
  }

  /** The records of the first `n` thumbnails when the generator is at draw `k`: five draws each, in order. */
  function BatchPrefix(normalDraw: (string, nat) -> real, workflowId: string, k: nat, vs: seq<ThumbnailVariant>, n: nat, minutes: int, num: Numerics)
    : (r: seq<VariantMetrics>)
    requires n <= |vs|
    ensures |r| == n
  {
    if n == 0 then []
    else
      BatchPrefix(normalDraw, workflowId, k, vs, n - 1, minutes, num)
        + [BatchRecord(vs[n - 1], MetricsAt(normalDraw, workflowId, k + DrawsPerMetrics * (n - 1), vs[n - 1].style, minutes, num))]
  }

  /** What `simulate_batch(variants, minutes)` returns when the generator is at draw `k`. */
  function BatchAt(normalDraw: (string, nat) -> real, workflowId: string, k: nat, vs: seq<ThumbnailVariant>, minutes: int, num: Numerics): seq<VariantMetrics> {
    BatchPrefix(normalDraw, workflowId, k, vs, |vs|, minutes, num)
  }

  /** One more thumbnail appends the record computed from the next five draws. */
  lemma BatchPrefixExtend(normalDraw: (string, nat) -> real, workflowId: string, k: nat, vs: seq<ThumbnailVariant>, n: nat, minutes: int, num: Numerics, at: nat, m: MockMetrics)
    requires n < |vs| && at == k + DrawsPerMetrics * n
    requires m == MetricsAt(normalDraw, workflowId, at, vs[n].style, minutes, num)
    ensures BatchPrefix(normalDraw, workflowId, k, vs, n + 1, minutes, num)
      == BatchPrefix(normalDraw, workflowId, k, vs, n, minutes, num) + [BatchRecord(vs[n], m)]
  {
    assert k + DrawsPerMetrics * (n + 1 - 1) == at && vs[n + 1 - 1] == vs[n];
    assert MetricsAt(normalDraw, workflowId, k + DrawsPerMetrics * (n + 1 - 1), vs[n + 1 - 1].style, minutes, num) == m;
  }

  /** Record i is the i-th thumbnail's record, computed from the i-th block of five draws. */
  lemma {:induction false} BatchPrefixAt(normalDraw: (string, nat) -> real, workflowId: string, k: nat, vs: seq<ThumbnailVariant>, n: nat, minutes: int, num: Numerics)
    requires n <= |vs|
    ensures forall i {:trigger BatchPrefix(normalDraw, workflowId, k, vs, n, minutes, num)[i]} :: 0 <= i < n ==>
      BatchPrefix(normalDraw, workflowId, k, vs, n, minutes, num)[i]
        == BatchRecord(vs[i], MetricsAt(normalDraw, workflowId, k + DrawsPerMetrics * i, vs[i].style, minutes, num))
  {
    if n > 0 {
      BatchPrefixAt(normalDraw, workflowId, k, vs, n - 1, minutes, num);
      var rest := BatchPrefix(normalDraw, workflowId, k, vs, n - 1, minutes, num);
      var r := BatchPrefix(normalDraw, workflowId, k, vs, n, minutes, num);
      forall i | 0 <= i < n - 1
        ensures r[i] == rest[i]
      {
      }
    }
  }

  /**
   * The batch has one record per thumbnail, in order, with the thumbnail's id and style, confidence
   * 0.0, at least 100 impressions and 1 click, and the clamped observed rate (not clicks / impressions).
   */
  lemma BatchShape(normalDraw: (string, nat) -> real, workflowId: string, k: nat, vs: seq<ThumbnailVariant>, minutes: int, num: Numerics)
    ensures var b := BatchAt(normalDraw, workflowId, k, vs, minutes, num);
      && |b| == |vs|
      && forall i :: 0 <= i < |vs| ==>
        && b[i].thumbnailId == vs[i].id
        && b[i].style == vs[i].style
        && b[i].confidence == Some(0.0)
        && b[i].impressions >= 100
        && b[i].clicks >= 1
        && b[i].ctr == num.round(ObservedCtr(BaselineFor(vs[i].style), minutes,
             normalDraw(workflowId, k + DrawsPerMetrics * i + 1), normalDraw(workflowId, k + DrawsPerMetrics * i + 2)), 4)
  {
    var b := BatchAt(normalDraw, workflowId, k, vs, minutes, num);
    BatchPrefixAt(normalDraw, workflowId, k, vs, |vs|, minutes, num);
    forall i | 0 <= i < |vs|
      ensures b[i].thumbnailId == vs[i].id && b[i].style == vs[i].style && b[i].confidence == Some(0.0)
      ensures b[i].impressions >= 100 && b[i].clicks >= 1
      ensures b[i].ctr == num.round(ObservedCtr(BaselineFor(vs[i].style), minutes,
        normalDraw(workflowId, k + DrawsPerMetrics * i + 1), normalDraw(workflowId, k + DrawsPerMetrics * i + 2)), 4)
    {
      MetricsShape(normalDraw, workflowId, k + DrawsPerMetrics * i, vs[i].style, minutes, num);
    }
  }

  /** The records of n thumbnails report at least 100·n impressions in total. */
  lemma {:induction false} BatchPrefixImpressions(normalDraw: (string, nat) -> real, workflowId: string, k: nat, vs: seq<ThumbnailVariant>, n: nat, minutes: int, num: Numerics)
    requires n <= |vs|
    ensures SumImpressions(BatchPrefix(normalDraw, workflowId, k, vs, n, minutes, num)) >= 100 * n
  {
    if n > 0 {
      var b := BatchPrefix(normalDraw, workflowId, k, vs, n, minutes, num);
      var rest := BatchPrefix(normalDraw, workflowId, k, vs, n - 1, minutes, num);
      BatchPrefixImpressions(normalDraw, workflowId, k, vs, n - 1, minutes, num);
      MetricsShape(normalDraw, workflowId, k + DrawsPerMetrics * (n - 1), vs[n - 1].style, minutes, num);
      assert b[..|b| - 1] == rest;
    }
  }

  /** A batch over n thumbnails reports at least 100·n impressions in total. */
  lemma BatchImpressionsAtLeast(normalDraw: (string, nat) -> real, workflowId: string, k: nat, vs: seq<ThumbnailVariant>, minutes: int, num: Numerics)
    ensures SumImpressions(BatchAt(normalDraw, workflowId, k, vs, minutes, num)) >= 100 * |vs|
  {
    BatchPrefixImpressions(normalDraw, workflowId, k, vs, |vs|, minutes, num);
  }

  /** `MockAnalyticsProvider`: the generator position advances by one on every Gaussian draw. */
  class MockAnalyticsProvider {
    const workflowId: string
    const normalDraw: (string, nat) -> real
    const num: Numerics
    var drawn: nat

    /** A fresh provider: the generator seeded from `workflowId`, nothing drawn yet. */
    constructor (workflowId: string, normalDraw: (string, nat) -> real, num: Numerics)
      ensures this.workflowId == workflowId && this.normalDraw == normalDraw && this.num == num
      ensures drawn == 0
    {
      this.workflowId := workflowId;
      this.normalDraw := normalDraw;
      this.num := num;
      drawn := 0;
    }

    /** `self.rng.gauss(mu, sigma)` */
    method Gauss(mu: real, sigma: real) returns (x: real)
      modifies this`drawn
      ensures x == Gaussian(mu, sigma, normalDraw(workflowId, old(drawn)))
      ensures drawn == old(drawn) + 1
    {
      x := Gaussian(mu, sigma, normalDraw(workflowId, drawn));
      drawn := drawn + 1;
    }

    /** The first draw of `get_metrics`: the impressions curve. */
    method DrawImpressions(minutes: int) returns (impressions: int)
      modifies this`drawn
      ensures impressions == RawImpressions(minutes, normalDraw(workflowId, old(drawn)))
      ensures drawn == old(drawn) + 1
    {
      if minutes < 60 {
        var g := Gauss(50.0, 10.0);
        impressions := Trunc(minutes as real * g);
      } else if minutes < 360 {
        var g := Gauss(80.0, 15.0);
        impressions := Trunc(3000.0 + (minutes - 60) as real * g);
      } else {
        var g := Gauss(20.0, 5.0);
        impressions := Trunc(30000.0 + (minutes - 360) as real * g);
      }
    }

    /** The second and third draws of `get_metrics`: true rate plus shrinking noise, clamped. */
    method DrawObservedCtr(b: Baseline, minutes: int) returns (observed: real)
      modifies this`drawn
      ensures observed == ObservedCtr(b, minutes, normalDraw(workflowId, old(drawn)), normalDraw(workflowId, old(drawn) + 1))
      ensures drawn == old(drawn) + 2
    {
      var trueCtr := Gauss(b.ctrMean, b.ctrStd);
      var noiseFactor := MaxReal(0.1, 1.0 - minutes as real / 1440.0);
      var noise := Gauss(0.0, b.ctrStd * noiseFactor);
      observed := trueCtr + noise;
      observed := MaxReal(0.01, MinReal(0.35, observed));
    }

    /** `get_metrics`: five draws, in the order the source makes them. */
    method GetMetrics(thumbnailId: string, style: string, minutes: int) returns (m: MockMetrics)
      modifies this`drawn
      ensures m == MetricsAt(normalDraw, workflowId, old(drawn), style, minutes, num)
      ensures drawn == old(drawn) + DrawsPerMetrics
    {
      var b := BaselineFor(style);
      var impressions := DrawImpressions(minutes);
      var observed := DrawObservedCtr(b, minutes);
      var clicks := Clicks(impressions, observed);
      var duration := Gauss(b.viewDuration as real, 8.0);
      var engagement := Gauss(0.04, 0.01);
      m := MockMetrics(MaxInt(100, impressions), MaxInt(1, clicks), num.round(observed, 4), Trunc(duration), num.round(engagement, 4));
    }

    /** `simulate_batch`: one `get_metrics` call per thumbnail, in order. */
    method SimulateBatch(variants: seq<ThumbnailVariant>, minutes: int) returns (results: seq<VariantMetrics>)
      modifies this`drawn
      ensures results == BatchAt(normalDraw, workflowId, old(drawn), variants, minutes, num)
      ensures drawn == old(drawn) + DrawsPerMetrics * |variants|
    {
      results := [];
      var i := 0;
      while i < |variants|
        invariant 0 <= i <= |variants|
        invariant drawn == old(drawn) + DrawsPerMetrics * i
        invariant results == BatchPrefix(normalDraw, workflowId, old(drawn), variants, i, minutes, num)
      {
        ghost var at := drawn;
        var m := GetMetrics(variants[i].id, variants[i].style, minutes);
        BatchPrefixExtend(normalDraw, workflowId, old(drawn), variants, i, minutes, num, at, m);
        results := results + [BatchRecord(variants[i], m)];
        i := i + 1;
      }
    }
  }
}
