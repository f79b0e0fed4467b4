/**
 * The business group of the build-handoff payload: the business model name, the pricing
 * tiers and the metrics (analytics KPIs and dashboard metrics, then the go-to-market success
 * metrics not already named).
 */
module RalphBusiness {
  import opened Wrappers
  import Seqs
  import opened Json
  import opened RalphSchema

  // ─── Business model ──────────────────────────────────────────────────────

  /**
   * `extractBusinessModel`: the first non-empty string among the business model's
   * `modelType` and `revenueModel` and the revenue expansion's `primaryModel`, or `Unknown`.
   */
  function ExtractBusinessModel(businessModel: JValue, revenueExpansion: JValue): (r: string)
    ensures r != ""
    ensures NonEmptyAt(businessModel, "modelType") ==> Some(r) == ExtractString(businessModel, "modelType")
    ensures !NonEmptyAt(businessModel, "modelType") && NonEmptyAt(businessModel, "revenueModel") ==>
      Some(r) == ExtractString(businessModel, "revenueModel")
    ensures (!NonEmptyAt(businessModel, "modelType") && !NonEmptyAt(businessModel, "revenueModel") &&
             NonEmptyAt(revenueExpansion, "primaryModel")) ==> Some(r) == ExtractString(revenueExpansion, "primaryModel")
    ensures (!NonEmptyAt(businessModel, "modelType") && !NonEmptyAt(businessModel, "revenueModel") &&
             !NonEmptyAt(revenueExpansion, "primaryModel")) ==> r == "Unknown"
  {
    var modelType := Str(businessModel, "modelType");
    if modelType != "" then modelType
    else
      var revenueModel := Str(businessModel, "revenueModel");
      if revenueModel != "" then revenueModel
      else
        var primaryModel := Str(revenueExpansion, "primaryModel");
        if primaryModel != "" then primaryModel else "Unknown"
  }

  // ─── Pricing tiers ───────────────────────────────────────────────────────

  /** `typeof tier.price === "number" ? tier.price : 0`. */
  function PriceOf(tier: JValue): (p: int)
    ensures Get(tier, "price").Some? && Get(tier, "price").value.JNum? ==> p == Get(tier, "price").value.n
    ensures !(Get(tier, "price").Some? && Get(tier, "price").value.JNum?) ==> p == 0
  {
    match Get(tier, "price")
    case Some(JNum(n)) => n
    case _ => 0
  }

  /** A tier object: its name (`Unnamed Tier` by default), its numeric price (0 otherwise) and its string features. */
  function TierFromObject(tier: JValue): PricingTier {
    PricingTier(Or(Str(tier, "name"), "Unnamed Tier"), PriceOf(tier), StringsOf(ArrayAt(tier, "features")))
  }

  /** A business-model tier: an object, or a bare name with price 0 and no features. */
  function BusinessModelTier(i: nat, t: JValue): (r: Option<PricingTier>)
    ensures r.Some? <==> IsObjectLike(t) || t.JString?
  {
    if IsObjectLike(t) then Some(TierFromObject(t))
    else if t.JString? then Some(PricingTier(t.s, 0, []))
    else None
  }

  /** A revenue-expansion tier: objects only. */
  function RevenueExpansionTier(i: nat, t: JValue): (r: Option<PricingTier>)
    ensures r.Some? <==> IsObjectLike(t)
  {
    if IsObjectLike(t) then Some(TierFromObject(t)) else None
  }

  function BusinessModelTiers(businessModel: JValue): seq<PricingTier> {
    Seqs.Collected(ArrayAt(businessModel, "pricingTiers"), BusinessModelTier)
  }

  /**
   * `revenueExpansion.tiers || revenueExpansion.pricingTiers` when that is an array: a truthy
   * `tiers` that is not an array hides `pricingTiers`, and an empty `tiers` array is truthy.
   */
  function RevenueExpansionTierList(revenueExpansion: JValue): Option<seq<JValue>> {
    match OrValue(Get(revenueExpansion, "tiers"), Get(revenueExpansion, "pricingTiers"))
    case Some(JArr(xs)) => Some(xs)
    case _ => None
  }

  function PricingTiers(businessModel: JValue, revenueExpansion: JValue): seq<PricingTier> {
    var tiers := BusinessModelTiers(businessModel);
    match RevenueExpansionTierList(revenueExpansion)
    case Some(xs) => if tiers == [] then Seqs.Collected(xs, RevenueExpansionTier) else tiers
    case None => tiers
  }

  /** `extractPricingTiers`. */
  method ExtractPricingTiers(businessModel: JValue, revenueExpansion: JValue) returns (tiers: seq<PricingTier>)
    ensures tiers == PricingTiers(businessModel, revenueExpansion)
  {
    tiers := Seqs.PushCollected([], ArrayAt(businessModel, "pricingTiers"), BusinessModelTier);
    assert tiers == BusinessModelTiers(businessModel);
    var reTiers := OrValue(Get(revenueExpansion, "tiers"), Get(revenueExpansion, "pricingTiers"));
    if reTiers.Some? && reTiers.value.JArr? && |tiers| == 0 {
      tiers := Seqs.PushCollected(tiers, reTiers.value.items, RevenueExpansionTier);
    }
  }

  /**
   * The revenue-expansion tiers are a fallback: they are used only when the business model
   * yields no tier at all, and then they are exactly its tier objects.
   */
  lemma PricingFallbackOnlyWhenEmpty(businessModel: JValue, revenueExpansion: JValue)
    ensures BusinessModelTiers(businessModel) != [] ==>
      PricingTiers(businessModel, revenueExpansion) == BusinessModelTiers(businessModel)
    ensures BusinessModelTiers(businessModel) == [] ==>
      PricingTiers(businessModel, revenueExpansion) ==
        match RevenueExpansionTierList(revenueExpansion)
        case Some(xs) => Seqs.Collected(xs, RevenueExpansionTier)
        case None => []
  {
  }

  /** Every tier comes from a tier object or a bare name; a non-numeric price is 0 and only string features are kept. */
  lemma TierShapes(businessModel: JValue, revenueExpansion: JValue, j: nat)
    requires j < |PricingTiers(businessModel, revenueExpansion)|
    ensures var t := PricingTiers(businessModel, revenueExpansion)[j];
      t.name != "" || (exists s :: t == PricingTier(s, 0, []))
    ensures var t := PricingTiers(businessModel, revenueExpansion)[j];
      (exists x :: IsObjectLike(x) && t == TierFromObject(x)) || (exists s :: t == PricingTier(s, 0, []))
  {
    var bm := ArrayAt(businessModel, "pricingTiers");
    var t := PricingTiers(businessModel, revenueExpansion)[j];
    if BusinessModelTiers(businessModel) != [] || RevenueExpansionTierList(revenueExpansion).None? {
      Seqs.CollectedFrom(bm, BusinessModelTier, j);
      var i :| 0 <= i < |bm| && BusinessModelTier(i, bm[i]) == Some(t);
      if IsObjectLike(bm[i]) {
        assert t == TierFromObject(bm[i]);
      } else {
        assert t == PricingTier(bm[i].s, 0, []);
      }
    } else {
      var xs := RevenueExpansionTierList(revenueExpansion).value;
      Seqs.CollectedFrom(xs, RevenueExpansionTier, j);
      var i :| 0 <= i < |xs| && RevenueExpansionTier(i, xs[i]) == Some(t);
      assert t == TierFromObject(xs[i]);
    }
  }

  // ─── Metrics ─────────────────────────────────────────────────────────────

  /** A KPI: an object classified by its `type`, or a bare name counted as a counter. */
  function KpiMetric(i: nat, k: JValue): (r: Option<MetricDefinition>)
    ensures r.Some? <==> IsObjectLike(k) || k.JString?
    ensures k.JString? ==> r == Some(MetricDefinition(k.s, "", Counter))
  {
    if IsObjectLike(k) then
      Some(MetricDefinition(Or(Str(k, "name"), "Unnamed KPI"), Str(k, "description"), DetermineMetricType(ExtractString(k, "type"))))
    else if k.JString? then Some(MetricDefinition(k.s, "", Counter))
    else None
  }

  /** A dashboard metric: objects only. */
  function DashboardMetric(i: nat, m: JValue): (r: Option<MetricDefinition>)
    ensures r.Some? <==> IsObjectLike(m)
  {
    if IsObjectLike(m) then
      Some(MetricDefinition(Or(Str(m, "name"), "Unnamed Metric"), Str(m, "description"), DetermineMetricType(ExtractString(m, "type"))))
    else None
  }

  /** The KPIs, then the dashboard metrics, duplicates and all. */
  function AnalyticsMetrics(analytics: JValue): seq<MetricDefinition> {
    Seqs.Collected(ArrayAt(analytics, "kpis"), KpiMetric) +
    Seqs.Collected(ArrayAt(analytics, "dashboardMetrics"), DashboardMetric)
  }

  /** `metrics.some((existing) => existing.name === name)`. */
  predicate HasMetricNamed(metrics: seq<MetricDefinition>, name: string) {
    exists j :: 0 <= j < |metrics| && metrics[j].name == name
  }

  /** The name of a success metric: a non-empty `name` of an object, `""` for anything else. */
  function SuccessMetricName(m: JValue): string {
    if IsObjectLike(m) then Str(m, "name") else ""
  }

  function SuccessMetric(m: JValue): MetricDefinition {
    MetricDefinition(SuccessMetricName(m), Or(Str(m, "description"), Str(m, "target")), Gauge)
  }

  /**
   * The success metrics visited in order after `base`: each named one is appended as a gauge
   * unless a metric of that name is already in the list built so far.
   */
  function WithSuccessMetrics(base: seq<MetricDefinition>, xs: seq<JValue>): (r: seq<MetricDefinition>)
    ensures base <= r && |r| <= |base| + |xs|
  {
    if xs == [] then base
    else
      var n := |xs| - 1;
      var prev := WithSuccessMetrics(base, xs[..n]);
      var name := SuccessMetricName(xs[n]);
      if name != "" && !HasMetricNamed(prev, name) then prev + [SuccessMetric(xs[n])] else prev
  }

  function Metrics(analytics: JValue, gtm: JValue): seq<MetricDefinition> {
    WithSuccessMetrics(AnalyticsMetrics(analytics), ArrayAt(gtm, "successMetrics"))
  }

  /** The `forEach` over the success metrics, appending each named one whose name is new. */
  method AddSuccessMetrics(base: seq<MetricDefinition>, gtmMetrics: seq<JValue>) returns (metrics: seq<MetricDefinition>)
    ensures metrics == WithSuccessMetrics(base, gtmMetrics)
  {
    metrics := base;
    var i := 0;
    while i < |gtmMetrics|
      invariant 0 <= i <= |gtmMetrics|
      invariant metrics == WithSuccessMetrics(base, gtmMetrics[..i])
    {
      assert gtmMetrics[..i + 1][..i] == gtmMetrics[..i];
      var m := gtmMetrics[i];
      if IsObjectLike(m) {
        var name := Str(m, "name");
        if name != "" && !HasMetricNamed(metrics, name) {
          metrics := metrics + [MetricDefinition(name, Or(Str(m, "description"), Str(m, "target")), Gauge)];
        }
      }
      i := i + 1;
    }
    assert gtmMetrics[..i] == gtmMetrics;
  }

  /** `extractMetrics`: KPIs, dashboard metrics, then the success metrics whose names are new. */
  method ExtractMetrics(analytics: JValue, gtm: JValue) returns (metrics: seq<MetricDefinition>)
    ensures metrics == Metrics(analytics, gtm)
  {
    ghost var kpis := Seqs.Collected(ArrayAt(analytics, "kpis"), KpiMetric);
    metrics := Seqs.PushCollected([], ArrayAt(analytics, "kpis"), KpiMetric);
    assert metrics == kpis;
    metrics := Seqs.PushCollected(metrics, ArrayAt(analytics, "dashboardMetrics"), DashboardMetric);
    assert metrics == AnalyticsMetrics(analytics);
    metrics := AddSuccessMetrics(metrics, ArrayAt(gtm, "successMetrics"));
  }

  /** The metric at `j` is a gauge with a name that no metric before it has. */
  predicate NewGaugeAt(metrics: seq<MetricDefinition>, j: nat)
    requires j < |metrics|
  {
    metrics[j].kind == Gauge && metrics[j].name != "" && !HasMetricNamed(metrics[..j], metrics[j].name)
  }

  /**
   * Appended success metrics are gauges with non-empty names, each named differently from
   * every metric before it, the base included.
   */
  lemma {:induction false} SuccessMetricsAreNew(base: seq<MetricDefinition>, xs: seq<JValue>)
    ensures forall j :: |base| <= j < |WithSuccessMetrics(base, xs)| ==> NewGaugeAt(WithSuccessMetrics(base, xs), j)
  {
    if xs != [] {
      var n := |xs| - 1;
      var prev := WithSuccessMetrics(base, xs[..n]);
      SuccessMetricsAreNew(base, xs[..n]);
      var r := WithSuccessMetrics(base, xs);
      if r != prev {
        var m := SuccessMetric(xs[n]);
        assert r == prev + [m];
        forall j | |base| <= j < |r| ensures NewGaugeAt(r, j) {
          if j < |prev| {
            assert NewGaugeAt(prev, j);
            assert r[j] == prev[j] && r[..j] == prev[..j];
          } else {
            assert r[..j] == prev;
          }
        }
      }
    }
  }

  /** Every named success metric ends up in the list: appended, or already present under that name. */
  lemma {:induction false} SuccessMetricsCovered(base: seq<MetricDefinition>, xs: seq<JValue>)
    ensures forall i :: 0 <= i < |xs| && SuccessMetricName(xs[i]) != "" ==>
      HasMetricNamed(WithSuccessMetrics(base, xs), SuccessMetricName(xs[i]))
  {
    if xs != [] {
      var n := |xs| - 1;
      var prev := WithSuccessMetrics(base, xs[..n]);
      var r := WithSuccessMetrics(base, xs);
      SuccessMetricsCovered(base, xs[..n]);
      forall i | 0 <= i < |xs| && SuccessMetricName(xs[i]) != ""
        ensures HasMetricNamed(r, SuccessMetricName(xs[i]))
      {
        if i < n {
          assert xs[..n][i] == xs[i];
          var j :| 0 <= j < |prev| && prev[j].name == SuccessMetricName(xs[i]);
          assert r[j] == prev[j];
        } else if !HasMetricNamed(prev, SuccessMetricName(xs[n])) {
          assert r[|prev|].name == SuccessMetricName(xs[n]);
        } else {
          var j :| 0 <= j < |prev| && prev[j].name == SuccessMetricName(xs[n]);
          assert r[j] == prev[j];
        }
      }
    }
  }
}
