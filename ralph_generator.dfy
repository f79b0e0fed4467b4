/**
 * `generateRalphLoopJSON`: the build-handoff payload assembled from the planning artifacts —
 * the metadata (generation time, run id, average confidence, completeness) and the product,
 * technical, business, execution and validation groups, each read from the content of the
 * phases it draws on.
 */
module RalphGenerator {
  import opened Wrappers
  import Records
  import Numbers
  import opened Json
  import opened RalphSchema
  import RalphProduct
  import RalphTechnical
  import RalphBusiness
  import RalphExecution
  import RalphValidation

  // ─── Metadata ────────────────────────────────────────────────────────────

  /**
   * The artifacts' overall scores that are numbers, in record order. The artifacts form a
   * record keyed by phase, so no phase occurs twice.
   */
  function Scores(artifacts: Artifacts): (s: seq<int>)
    requires Records.DistinctKeys(artifacts)
    ensures |s| <= |artifacts|
  {
    if artifacts == [] then []
    else
      var n := |artifacts| - 1;
      Scores(artifacts[..n]) +
      match artifacts[n].1.overallScore
      case Some(JNum(x)) => [x]
      case _ => []
  }

  function Sum(xs: seq<int>): int {
    if xs == [] then 0 else Sum(xs[..|xs| - 1]) + xs[|xs| - 1]
  }

  /** `calculateAverageConfidence`: the rounded mean of the numeric scores, or 0 when there are none. */
  function AverageConfidence(artifacts: Artifacts): (r: int)
    requires Records.DistinctKeys(artifacts)
    ensures Scores(artifacts) == [] ==> r == 0
  {
    var s := Scores(artifacts);
    if s == [] then 0 else Numbers.RoundDiv(Sum(s), |s|)
  }

  lemma {:induction false} SumBounds(xs: seq<int>, lo: int, hi: int)
    requires forall i :: 0 <= i < |xs| ==> lo <= xs[i] <= hi
    ensures lo * |xs| <= Sum(xs) <= hi * |xs|
  {
    if xs != [] {
      SumBounds(xs[..|xs| - 1], lo, hi);
    }
  }

  /** The confidence is a mean: it lies between the lowest and the highest numeric score. */
  lemma ConfidenceWithinScores(artifacts: Artifacts, lo: int, hi: int)
    requires Records.DistinctKeys(artifacts)
    requires Scores(artifacts) != []
    requires forall i :: 0 <= i < |Scores(artifacts)| ==> lo <= Scores(artifacts)[i] <= hi
    ensures lo <= AverageConfidence(artifacts) <= hi
  {
    var s := Scores(artifacts);
    var n := |s|;
    SumBounds(s, lo, hi);
    Numbers.RoundDivBetween(Sum(s), n, lo, hi);
  }

  /** Artifacts that all score the same give that score as the confidence. */
  lemma ConfidenceOfEqualScores(artifacts: Artifacts, v: int)
    requires Records.DistinctKeys(artifacts)
    requires Scores(artifacts) != []
    requires forall i :: 0 <= i < |Scores(artifacts)| ==> Scores(artifacts)[i] == v
    ensures AverageConfidence(artifacts) == v
  {
    ConfidenceWithinScores(artifacts, v, v);
  }

  /** The number of phases the completeness divides by. */
  const TotalPhases: int := 16

  /** `calculateTotalCompleteness`: the artifact count as a rounded percentage of sixteen phases, not clamped. */
  function TotalCompleteness(artifacts: Artifacts): int
    requires Records.DistinctKeys(artifacts)
  {
    Numbers.RoundDiv(100 * |Records.Keys(artifacts)|, TotalPhases)
  }

  /**
   * No artifact gives 0 and sixteen give 100; up to sixteen it is a percentage. The fifteen
   * phase names alone give 94, and a seventeenth key gives 106, beyond 100.
   */
  lemma CompletenessScale(artifacts: Artifacts)
    requires Records.DistinctKeys(artifacts)
    ensures |artifacts| <= 16 ==> 0 <= TotalCompleteness(artifacts) <= 100
    ensures |artifacts| == 0 ==> TotalCompleteness(artifacts) == 0
    ensures |artifacts| == 15 ==> TotalCompleteness(artifacts) == 94
    ensures |artifacts| == 16 ==> TotalCompleteness(artifacts) == 100
    ensures |artifacts| == 17 ==> TotalCompleteness(artifacts) == 106
  {
    var k := |Records.Keys(artifacts)|;
    if k <= 16 {
      Numbers.Percent(k, 16);
    }
    if k == 15 {
      Numbers.RoundDivUnique(1500, 16, 94);
    }
    if k == 17 {
      Numbers.RoundDivUnique(1700, 16, 106);
    }
  }

  // ─── The payload ─────────────────────────────────────────────────────────

  /** The payload as a value: each field is the extraction over the contents of the phases it reads. */
  function Payload(artifacts: Artifacts, runId: string, now: int): RalphLoopPayload
    requires Records.DistinctKeys(artifacts)
  {
    var opportunity := PhaseContent(artifacts, "opportunity");
    var strategy := PhaseContent(artifacts, "strategy");
    var businessModel := PhaseContent(artifacts, "business-model");
    var revenueExpansion := PhaseContent(artifacts, "revenue-expansion");
    var productDesign := PhaseContent(artifacts, "product-design");
    var techArch := PhaseContent(artifacts, "tech-arch");
    var gtm := PhaseContent(artifacts, "gtm");
    var analytics := PhaseContent(artifacts, "analytics");
    var launchExecution := PhaseContent(artifacts, "launch-execution");
    var killTest := PhaseContent(artifacts, "kill-test");
    var synthesis := PhaseContent(artifacts, "synthesis");
    var taskRecon := PhaseContent(artifacts, "task-reconciliation");
    RalphLoopPayload(
      Metadata(now, runId, AverageConfidence(artifacts), TotalCompleteness(artifacts)),
      ProductSection(
        RalphProduct.ExtractProductVision(productDesign, synthesis, opportunity),
        RalphProduct.Features(productDesign, taskRecon),
        RalphProduct.MvpScope(productDesign, strategy)),
      TechnicalSection(
        Architecture(
          RalphTechnical.Services(techArch),
          RalphTechnical.CloudflareBindings(techArch),
          RalphTechnical.DataModel(techArch)),
        ApiSection(RalphTechnical.Endpoints(techArch), ExtractAuth(techArch))),
      BusinessSection(
        RalphBusiness.ExtractBusinessModel(businessModel, revenueExpansion),
        RalphBusiness.PricingTiers(businessModel, revenueExpansion),
        RalphBusiness.Metrics(analytics, gtm)),
      ExecutionSection(
        RalphExecution.Tasks(taskRecon),
        RalphExecution.Dependencies(taskRecon),
        RalphExecution.Milestones(taskRecon, launchExecution)),
      ValidationSection(
        RalphValidation.KillConditions(killTest),
        RalphValidation.Assumptions(killTest, strategy)))
  }

  /**
   * `generateRalphLoopJSON`, with the clock reading `now` as a parameter: every field of the
   * payload is the corresponding extraction.
   */
  method GenerateRalphLoopJSON(artifacts: Artifacts, runId: string, now: int) returns (payload: RalphLoopPayload)
    requires Records.DistinctKeys(artifacts)
    ensures payload == Payload(artifacts, runId, now)
  {
    var opportunity := PhaseContent(artifacts, "opportunity");
    var strategy := PhaseContent(artifacts, "strategy");
    var businessModel := PhaseContent(artifacts, "business-model");
    var revenueExpansion := PhaseContent(artifacts, "revenue-expansion");
    var productDesign := PhaseContent(artifacts, "product-design");
    var techArch := PhaseContent(artifacts, "tech-arch");
    var gtm := PhaseContent(artifacts, "gtm");
    var analytics := PhaseContent(artifacts, "analytics");
    var launchExecution := PhaseContent(artifacts, "launch-execution");
    var killTest := PhaseContent(artifacts, "kill-test");
    var synthesis := PhaseContent(artifacts, "synthesis");
    var taskRecon := PhaseContent(artifacts, "task-reconciliation");

    var features := RalphProduct.ExtractFeatures(productDesign, taskRecon);
    var mvpScope := RalphProduct.ExtractMvpScope(productDesign, strategy);
    var services := RalphTechnical.ExtractServices(techArch);
    var bindings := RalphTechnical.ExtractCloudflareBindings(techArch);
    var dataModel := RalphTechnical.ExtractDataModel(techArch);
    var endpoints := RalphTechnical.ExtractEndpoints(techArch);
    var pricing := RalphBusiness.ExtractPricingTiers(businessModel, revenueExpansion);
    var metrics := RalphBusiness.ExtractMetrics(analytics, gtm);
    var tasks := RalphExecution.ExtractTasks(taskRecon);
    var dependencies := RalphExecution.ExtractDependencies(taskRecon);
    var milestones := RalphExecution.ExtractMilestones(taskRecon, launchExecution);
    var killConditions := RalphValidation.ExtractKillConditions(killTest);
    var assumptions := RalphValidation.ExtractAssumptions(killTest, strategy);

    payload := RalphLoopPayload(
      Metadata(now, runId, AverageConfidence(artifacts), TotalCompleteness(artifacts)),
      ProductSection(RalphProduct.ExtractProductVision(productDesign, synthesis, opportunity), features, mvpScope),
      TechnicalSection(Architecture(services, bindings, dataModel), ApiSection(endpoints, ExtractAuth(techArch))),
      BusinessSection(RalphBusiness.ExtractBusinessModel(businessModel, revenueExpansion), pricing, metrics),
      ExecutionSection(tasks, dependencies, milestones),
      ValidationSection(killConditions, assumptions));
  }

  /**
   * A run with no artifacts still yields a complete payload: zero confidence and completeness,
   * an empty vision, no lists, the `Unknown` business model and JWT authentication.
   */
  lemma EmptyRunPayload(runId: string, now: int)
    ensures var p := Payload([], runId, now);
      p.metadata == Metadata(now, runId, 0, 0) &&
      p.product == ProductSection("", [], []) &&
      p.technical == TechnicalSection(Architecture([], [], DataModelSpec([], [])), ApiSection([], AuthSpec(Jwt, None))) &&
      p.business == BusinessSection("Unknown", [], []) &&
      p.execution == ExecutionSection([], [], []) &&
      p.validation == ValidationSection([], [])
  {
    var e := JObj([]);
    CompletenessScale([]);
    assert forall phase :: PhaseContent([], phase) == e;
    EmptyProduct();
    EmptyTechnical();
    EmptyBusiness();
    EmptyExecution();
    EmptyValidation();
  }

  lemma EmptyProduct()
    ensures var e := JObj([]);
      RalphProduct.ExtractProductVision(e, e, e) == "" && RalphProduct.Features(e, e) == [] && RalphProduct.MvpScope(e, e) == []
  {
    assert ArrayAt(JObj([]), "tasks") == [] && ArrayAt(JObj([]), "appPages") == [];
  }

  lemma EmptyTechnical()
    ensures var e := JObj([]);
      RalphTechnical.Services(e) == [] && RalphTechnical.CloudflareBindings(e) == [] &&
      RalphTechnical.DataModel(e) == DataModelSpec([], []) && RalphTechnical.Endpoints(e) == [] &&
      ExtractAuth(e) == AuthSpec(Jwt, None)
  {
    assert forall k :: ArrayAt(JObj([]), k) == [];
  }

  lemma EmptyBusiness()
    ensures var e := JObj([]);
      RalphBusiness.ExtractBusinessModel(e, e) == "Unknown" && RalphBusiness.PricingTiers(e, e) == [] &&
      RalphBusiness.Metrics(e, e) == []
  {
    assert forall k :: ArrayAt(JObj([]), k) == [];
  }

  lemma EmptyExecution()
    ensures var e := JObj([]);
      RalphExecution.Tasks(e) == [] && RalphExecution.Dependencies(e) == [] && RalphExecution.Milestones(e, e) == []
  {
    assert forall k :: ArrayAt(JObj([]), k) == [];
  }

  lemma EmptyValidation()
    ensures var e := JObj([]);
      RalphValidation.KillConditions(e) == [] && RalphValidation.Assumptions(e, e) == []
  {
    assert forall k :: ArrayAt(JObj([]), k) == [];
  }

  /** The payload carries the clock reading and run id it was given, and no other field depends on them. */
  lemma PayloadIgnoresClockAndRunId(artifacts: Artifacts, runId: string, runId': string, now: int, now': int)
    requires Records.DistinctKeys(artifacts)
    ensures var p, q := Payload(artifacts, runId, now), Payload(artifacts, runId', now');
      p.metadata.generatedAt == now && p.metadata.planningRunId == runId &&
      p.metadata.confidence == q.metadata.confidence && p.metadata.completeness == q.metadata.completeness &&
      p.product == q.product && p.technical == q.technical && p.business == q.business &&
      p.execution == q.execution && p.validation == q.validation
  {
  }
}
