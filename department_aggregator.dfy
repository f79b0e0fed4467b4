/**
 * The department aggregator: phase artifacts keyed by phase are folded into the fifteen
 * department views of the Deal Master Bible through a fixed mapping table. Each section
 * reads `phase.field` source paths; each department's completeness is the share of its
 * phases that have an artifact. `JSON.stringify` and the clock are parameters.
 */
module DepartmentAggregator {
  import opened Wrappers
  import Text
  import Records
  import Seqs
  import Numbers
  import opened Json
  import opened Bible
  import Types

  type Artifacts = Records.Record<Types.PlanningArtifact>

  // ─── The mapping table ───────────────────────────────────────────────────

  const ExecutiveMapping := DepartmentMapping(
    ["synthesis", "strategy", "kill-test"], ["opportunity", "business-model"],
    [SectionMapping("Executive Summary", ["synthesis.executiveSummary"]),
     SectionMapping("Strategic Thesis", ["strategy.thesis"]),
     SectionMapping("Business Model", ["business-model.modelType"]),
     SectionMapping("Go/No-Go Decision", ["synthesis.recommendation", "kill-test.verdict"])])

  const ProductMapping := DepartmentMapping(
    ["product-design", "tech-arch"], ["opportunity", "customer-intel"],
    [SectionMapping("Product Vision", ["product-design.vision"]),
     SectionMapping("Feature Roadmap", ["product-design.features"]),
     SectionMapping("Technical Stack", ["tech-arch.stack"]),
     SectionMapping("MVP Scope", ["product-design.mvp"])])

  const BrandMapping := DepartmentMapping(
    ["strategy"], ["opportunity", "customer-intel"],
    [SectionMapping("Brand Positioning", ["strategy.positioning"]),
     SectionMapping("Value Proposition", ["strategy.valueProposition"])])

  const MarketMapping := DepartmentMapping(
    ["market-research", "competitive-intel"], ["opportunity"],
    [SectionMapping("Market Size", ["market-research.marketSize"]),
     SectionMapping("Trends", ["market-research.trends"]),
     SectionMapping("Competition", ["competitive-intel.competitors"])])

  const CustomerMapping := DepartmentMapping(
    ["customer-intel"], ["opportunity", "market-research"],
    [SectionMapping("Target Customers", ["customer-intel.segments"]),
     SectionMapping("Personas", ["customer-intel.personas"]),
     SectionMapping("Pain Points", ["customer-intel.painPoints"])])

  const RevenueMapping := DepartmentMapping(
    ["business-model", "revenue-expansion"], ["opportunity"],
    [SectionMapping("Business Model", ["business-model.modelType"]),
     SectionMapping("Pricing", ["business-model.pricingTiers"]),
     SectionMapping("Revenue Streams", ["revenue-expansion.streams"])])

  const GtmMapping := DepartmentMapping(
    ["gtm-marketing"], ["customer-intel", "strategy"],
    [SectionMapping("Marketing Strategy", ["gtm-marketing.strategy"]),
     SectionMapping("Channels", ["gtm-marketing.channels"]),
     SectionMapping("Tactics", ["gtm-marketing.tactics"])])

  const ContentMapping := DepartmentMapping(
    ["content-engine"], ["gtm-marketing"],
    [SectionMapping("Content Strategy", ["content-engine.strategy"]),
     SectionMapping("Workflows", ["content-engine.workflows"]),
     SectionMapping("Distribution", ["content-engine.distribution"])])

  const TechnicalMapping := DepartmentMapping(
    ["tech-arch"], ["product-design"],
    [SectionMapping("System Architecture", ["tech-arch.architecture"]),
     SectionMapping("Technology Stack", ["tech-arch.stack"]),
     SectionMapping("Data Model", ["tech-arch.dataModel"]),
     SectionMapping("API Design", ["tech-arch.endpoints"])])

  const AnalyticsMapping := DepartmentMapping(
    ["analytics"], ["business-model"],
    [SectionMapping("Key Metrics", ["analytics.kpis"]),
     SectionMapping("Tracking Plan", ["analytics.trackingPlan"]),
     SectionMapping("Dashboards", ["analytics.dashboards"])])

  const LaunchMapping := DepartmentMapping(
    ["launch-execution"], ["product-design", "gtm-marketing"],
    [SectionMapping("Launch Plan", ["launch-execution.plan"]),
     SectionMapping("Milestones", ["launch-execution.milestones"]),
     SectionMapping("Operations", ["launch-execution.operations"])])

  const RisksMapping := DepartmentMapping(
    ["kill-test"], ["synthesis"],
    [SectionMapping("Risk Factors", ["kill-test.risks"]),
     SectionMapping("Assumptions", ["kill-test.assumptions"]),
     SectionMapping("Kill Conditions", ["kill-test.killConditions"])])

  const EvidenceMapping := DepartmentMapping([], [], [])

  const AgentJsonMapping := DepartmentMapping([], [], [])

  const PhaseTraceMapping := DepartmentMapping([], [], [])

  const DepartmentMappings: Records.Record<DepartmentMapping> := [
    ("executive", ExecutiveMapping),
    ("product", ProductMapping),
    ("brand", BrandMapping),
    ("market", MarketMapping),
    ("customer", CustomerMapping),
    ("revenue", RevenueMapping),
    ("gtm", GtmMapping),
    ("content", ContentMapping),
    ("technical", TechnicalMapping),
    ("analytics", AnalyticsMapping),
    ("launch", LaunchMapping),
    ("risks", RisksMapping),
    ("evidence", EvidenceMapping),
    ("agent-json", AgentJsonMapping),
    ("phase-trace", PhaseTraceMapping)
  ]

  /** The table lists the department ids in the union's order. */
  lemma MappingKeys()
    ensures Records.Keys(DepartmentMappings) == DepartmentIds
  {
  }

  // ─── Source paths ────────────────────────────────────────────────────────

  /**
   * `const [phase, field] = source.split(".")`: the text before the first dot and the text
   * between the first and the second dot, `undefined` when there is no dot; anything after a
   * second dot is ignored.
   */
  function SourceParts(source: string): (parts: (string, Option<string>))
    ensures '.' !in parts.0
    ensures parts.1.Some? <==> '.' in source
    ensures parts.1.Some? ==> parts.0 + "." <= source && '.' !in parts.1.value
    ensures parts.1.None? ==> parts.0 == source
  {
    var pieces := Text.Split(source, '.');
    Text.CountZero(source, '.');
    Text.SplitCount(source, '.');
    Text.SplitPiecesFree(source, '.');
    if '.' in source then
      Text.SplitFirstPiece(source, '.');
      (pieces[0], Some(pieces[1]))
    else
      Text.SplitFree(source, '.');
      (pieces[0], None)
  }

  /** A path `phase.field` splits into its two segments. */
  lemma SourcePartsOfPair(phase: string, field: string)
    requires '.' !in phase && '.' !in field
    ensures SourceParts(phase + "." + field) == (phase, Some(field))
  {
    var source := phase + "." + field;
    assert source[|phase|] == '.';
    Text.SplitConcat(phase, field, '.');
    Text.SplitFree(field, '.');
  }

  /** A deeper path `phase.field.rest` is read as `phase.field`: only two segments are used. */
  lemma SourcePartsIgnoreDeeperSegments(phase: string, field: string, rest: string)
    requires '.' !in phase && '.' !in field
    ensures SourceParts(phase + "." + field + "." + rest) == (phase, Some(field))
  {
    var source := phase + "." + field + "." + rest;
    assert source[|phase|] == '.';
    assert source == phase + "." + (field + "." + rest);
    Text.SplitConcat(phase, field + "." + rest, '.');
    Text.SplitConcat(field, rest, '.');
  }

  /** One reference per configured source, with `extracted` left `null`. */
  function SourceRefs(sources: seq<string>): (refs: seq<PhaseSourceReference>)
    ensures |refs| == |sources|
    ensures forall k :: 0 <= k < |refs| ==>
      refs[k] == PhaseSourceReference(SourceParts(sources[k]).0, SourceParts(sources[k]).1, JNull)
  {
    seq(|sources|, k requires 0 <= k < |sources| =>
      PhaseSourceReference(SourceParts(sources[k]).0, SourceParts(sources[k]).1, JNull))
  }

  // ─── Reading a field ─────────────────────────────────────────────────────

  /** One step of the `reduce`: a key of an object, and `undefined` once any link is missing. */
  function Step(current: Option<JValue>, key: string): Option<JValue> {
    if current.Some? then Get(current.value, key) else None
  }

  function Walk(current: Option<JValue>, keys: seq<string>): Option<JValue>
    decreases keys
  {
    if keys == [] then current else Walk(Step(current, keys[0]), keys[1..])
  }

  /** `getNestedValue(obj, path)`: follow the dot-separated keys of `path` from `obj`. */
  function GetNestedValue(obj: JValue, path: string): Option<JValue> {
    Walk(Some(obj), Text.Split(path, '.'))
  }

  lemma {:induction false} WalkFromUndefined(keys: seq<string>)
    ensures Walk(None, keys) == None
  {
    if keys != [] { WalkFromUndefined(keys[1..]); }
  }

  /** A single key is read directly: `obj[key]` when present, otherwise `undefined`. */
  lemma GetNestedSingleKey(obj: JValue, key: string)
    requires '.' !in key
    ensures GetNestedValue(obj, key) == Get(obj, key)
  {
    Text.SplitFree(key, '.');
    assert Walk(Some(obj), [key]) == Walk(Get(obj, key), []);
  }

  /** A longer path descends one key at a time, and gives `undefined` as soon as a link is missing. */
  lemma GetNestedDescends(obj: JValue, key: string, rest: string)
    requires '.' !in key
    ensures GetNestedValue(obj, key + "." + rest) ==
      match Get(obj, key)
      case None => None
      case Some(v) => GetNestedValue(v, rest)
  {
    Text.SplitConcat(key, rest, '.');
    var keys := [key] + Text.Split(rest, '.');
    assert keys[1..] == Text.Split(rest, '.');
    if Get(obj, key).None? {
      WalkFromUndefined(Text.Split(rest, '.'));
    }
  }

  // ─── Section content ─────────────────────────────────────────────────────

  /**
   * What one source contributes to a section: nothing when its phase has no artifact, the
   * artifact's content is falsy or the value read is falsy (so `0`, `false` and `""` count
   * as missing); a string as it is; any other value serialized. A source without a dot
   * contributes nothing here, where `getNestedValue` would throw on the undefined path;
   * every source in the department mapping table has a dot, so the table never reaches that case.
   */
  function CollectItem(artifacts: Artifacts, source: string, stringify: JValue -> string): Option<string> {
    var (phaseName, fieldPath) := SourceParts(source);
    match Records.Lookup(artifacts, phaseName)
    case None => None
    case Some(artifact) =>
      if !Truthy(artifact.content) || fieldPath.None? then None
      else
        var value := GetNestedValue(artifact.content, fieldPath.value);
        if !TruthyOpt(value) then None
        else if value.value.JString? then Some(value.value.s)
        else Some(stringify(value.value))
  }

  /** The items the sources contribute, in source order. */
  function SectionItems(artifacts: Artifacts, sources: seq<string>, stringify: JValue -> string): (items: seq<string>)
    ensures |items| <= |sources|
  {
    if sources == [] then []
    else
      var n := |sources| - 1;
      SectionItems(artifacts, sources[..n], stringify) +
      match CollectItem(artifacts, sources[n], stringify)
      case Some(item) => [item]
      case None => []
  }

  const NoData: string := "_No data available_"

  /** No item shows a placeholder, one item is shown as markdown, more are shown as a list. */
  function SectionContentOf(items: seq<string>): SectionContent {
    if |items| == 0 then Markdown(NoData)
    else if |items| == 1 then Markdown(items[0])
    else List(items)
  }

  /** `extractSectionContent`: collect the items source by source, then pick the content shape. */
  method ExtractSectionContent(artifacts: Artifacts, sources: seq<string>, stringify: JValue -> string)
    returns (content: SectionContent)
    ensures content == SectionContentOf(SectionItems(artifacts, sources, stringify))
  {
    var items: seq<string> := [];
    var i := 0;
    while i < |sources|
      invariant 0 <= i <= |sources|
      invariant items == SectionItems(artifacts, sources[..i], stringify)
    {
      assert sources[..i + 1][..i] == sources[..i];
      var phaseName := SourceParts(sources[i]).0;
      var fieldPath := SourceParts(sources[i]).1;
      var artifact := Records.Lookup(artifacts, phaseName);
      if artifact.Some? && Truthy(artifact.value.content) && fieldPath.Some? {
        var value := GetNestedValue(artifact.value.content, fieldPath.value);
        if TruthyOpt(value) {
          items := items + [if value.value.JString? then value.value.s else stringify(value.value)];
        }
      }
      i := i + 1;
    }
    assert sources[..i] == sources;
    if |items| == 0 {
      return Markdown(NoData);
    }
    if |items| == 1 {
      return Markdown(items[0]);
    }
    return List(items);
  }

  /**
   * A source reads one top-level field of its phase's artifact: it contributes exactly when the
   * artifact exists with truthy content and that field is truthy, and then the field's text
   * or its serialization.
   */
  lemma CollectItemReadsField(artifacts: Artifacts, source: string, stringify: JValue -> string)
    requires '.' in source
    ensures var (phase, field) := SourceParts(source);
      var artifact := Records.Lookup(artifacts, phase);
      var item := CollectItem(artifacts, source, stringify);
      field.Some? &&
      (item.Some? <==> artifact.Some? && Truthy(artifact.value.content) && TruthyOpt(Get(artifact.value.content, field.value))) &&
      (item.Some? ==> var v := Get(artifact.value.content, field.value).value;
        item.value == if v.JString? then v.s else stringify(v))
  {
    var (phase, field) := SourceParts(source);
    var artifact := Records.Lookup(artifacts, phase);
    if artifact.Some? {
      GetNestedSingleKey(artifact.value.content, field.value);
    }
  }

  /** A field holding `0`, `false` or `""` contributes nothing, as if it were absent. */
  lemma FalsyFieldDropped(artifacts: Artifacts, source: string, stringify: JValue -> string)
    requires '.' in source
    requires var (phase, field) := SourceParts(source);
      Records.Lookup(artifacts, phase).Some? &&
      field.Some? &&
      Get(Records.Lookup(artifacts, phase).value.content, field.value) in {Some(JNum(0)), Some(JBool(false)), Some(JString(""))}
    ensures CollectItem(artifacts, source, stringify) == None
  {
    CollectItemReadsField(artifacts, source, stringify);
  }

  /** Collecting the items distributes over the source list, so it keeps the source order. */
  lemma {:induction false} SectionItemsAppend(artifacts: Artifacts, a: seq<string>, b: seq<string>, stringify: JValue -> string)
    ensures SectionItems(artifacts, a + b, stringify) == SectionItems(artifacts, a, stringify) + SectionItems(artifacts, b, stringify)
  {
    if b == [] {
      assert a + b == a;
    } else {
      var m := |b| - 1;
      assert (a + b)[..|a + b| - 1] == a + b[..m];
      SectionItemsAppend(artifacts, a, b[..m], stringify);
    }
  }

  /** When no source contributes, the section shows the placeholder. */
  lemma {:induction false} NothingCollectedShowsPlaceholder(artifacts: Artifacts, sources: seq<string>, stringify: JValue -> string)
    requires forall k :: 0 <= k < |sources| ==> CollectItem(artifacts, sources[k], stringify).None?
    ensures SectionItems(artifacts, sources, stringify) == []
    ensures SectionContentOf(SectionItems(artifacts, sources, stringify)) == Markdown(NoData)
  {
    if sources != [] {
      NothingCollectedShowsPlaceholder(artifacts, sources[..|sources| - 1], stringify);
    }
  }

  /** When every source contributes, there is one item per source, in source order. */
  lemma {:induction false} EverythingCollected(artifacts: Artifacts, sources: seq<string>, stringify: JValue -> string)
    requires forall k :: 0 <= k < |sources| ==> CollectItem(artifacts, sources[k], stringify).Some?
    ensures var items := SectionItems(artifacts, sources, stringify);
      |items| == |sources| &&
      forall k :: 0 <= k < |sources| ==> items[k] == CollectItem(artifacts, sources[k], stringify).value
  {
    if sources != [] {
      var n := |sources| - 1;
      var init := sources[..n];
      EverythingCollected(artifacts, init, stringify);
      var item := CollectItem(artifacts, sources[n], stringify);
      assert SectionItems(artifacts, sources, stringify) == SectionItems(artifacts, init, stringify) + [item.value];
      assert forall k :: 0 <= k < n ==> init[k] == sources[k];
    }
  }

  /** The content shape is fixed by the number of items alone. */
  lemma SectionShapeByCount(items: seq<string>)
    ensures |items| == 0 <==> SectionContentOf(items) == Markdown(NoData) && items == []
    ensures |items| == 1 ==> SectionContentOf(items) == Markdown(items[0])
    ensures |items| >= 2 <==> SectionContentOf(items) == List(items)
  {
  }

  // ─── Completeness ────────────────────────────────────────────────────────

  function PresentIn(artifacts: Artifacts): string -> bool {
    p => Records.HasKey(artifacts, p)
  }

  /** The department's primary then secondary phases, and those among them that have an artifact. */
  function AllPhases(mapping: DepartmentMapping): seq<string> {
    mapping.primaryPhases + mapping.secondaryPhases
  }

  function CompletedPhases(mapping: DepartmentMapping, artifacts: Artifacts): seq<string> {
    Seqs.Filter(AllPhases(mapping), PresentIn(artifacts))
  }

  /** The rounded percentage of the department's phases with an artifact; 0 for a department without phases. */
  function CalculateCompleteness(mapping: DepartmentMapping, artifacts: Artifacts): (pct: int)
    ensures 0 <= pct <= 100
    ensures AllPhases(mapping) == [] ==> pct == 0
    ensures AllPhases(mapping) != [] ==>
      var (k, n) := (|CompletedPhases(mapping, artifacts)|, |AllPhases(mapping)|);
      2 * n * pct <= 200 * k + n < 2 * n * pct + 2 * n
  {
    var n := |AllPhases(mapping)|;
    if n == 0 then 0
    else
      var k := |CompletedPhases(mapping, artifacts)|;
      Numbers.Percent(k, n);
      Numbers.RoundDiv(100 * k, n)
  }

  /** Every phase present gives 100, none present gives 0. */
  lemma CompletenessExtremes(mapping: DepartmentMapping, artifacts: Artifacts)
    requires AllPhases(mapping) != []
    ensures (forall i :: 0 <= i < |AllPhases(mapping)| ==> Records.HasKey(artifacts, AllPhases(mapping)[i])) ==>
      CalculateCompleteness(mapping, artifacts) == 100
    ensures (forall i :: 0 <= i < |AllPhases(mapping)| ==> !Records.HasKey(artifacts, AllPhases(mapping)[i])) ==>
      CalculateCompleteness(mapping, artifacts) == 0
  {
    var all, n := AllPhases(mapping), |AllPhases(mapping)|;
    var present := PresentIn(artifacts);
    if forall i :: 0 <= i < n ==> Records.HasKey(artifacts, all[i]) {
      FilterAllPresent(all, artifacts);
      Numbers.Percent(n, n);
    }
    Seqs.FilterEmpty(all, present);
    if forall i :: 0 <= i < n ==> !Records.HasKey(artifacts, all[i]) {
      assert forall i :: 0 <= i < n ==> !present(all[i]);
      Numbers.Percent(0, n);
    }
  }

  lemma {:induction false} FilterAllPresent(xs: seq<string>, artifacts: Artifacts)
    requires forall i :: 0 <= i < |xs| ==> Records.HasKey(artifacts, xs[i])
    ensures Seqs.Filter(xs, PresentIn(artifacts)) == xs
  {
    if xs != [] {
      var n := |xs| - 1;
      FilterAllPresent(xs[..n], artifacts);
      assert xs == xs[..n] + [xs[n]];
    }
  }

  // ─── Departments ─────────────────────────────────────────────────────────

  function SectionOf(artifacts: Artifacts, section: SectionMapping, stringify: JValue -> string): (s: DepartmentSection)
    ensures s.name == section.name && |s.sources| == |section.sources| && s.diagrams.None?
  {
    DepartmentSection(
      section.name,
      SectionContentOf(SectionItems(artifacts, section.sources, stringify)),
      SourceRefs(section.sources),
      None)
  }

  /**
   * `aggregateDepartment`: the configured title and description, one section per configured
   * section in order, and the completeness; `now` is the clock reading.
   */
  function AggregateDepartment(deptId: string, mapping: DepartmentMapping, artifacts: Artifacts,
                               stringify: JValue -> string, now: int): (view: DepartmentView)
    ensures view.id == deptId && view.title == GetDepartmentTitle(deptId) && view.summary == GetDepartmentDescription(deptId)
    ensures |view.sections| == |mapping.sections|
    ensures forall j :: 0 <= j < |view.sections| ==> view.sections[j] == SectionOf(artifacts, mapping.sections[j], stringify)
    ensures 0 <= view.completeness <= 100 && view.lastUpdated == now
  {
    DepartmentView(
      deptId,
      GetDepartmentTitle(deptId),
      GetDepartmentDescription(deptId),
      seq(|mapping.sections|, j requires 0 <= j < |mapping.sections| => SectionOf(artifacts, mapping.sections[j], stringify)),
      CalculateCompleteness(mapping, artifacts),
      now)
  }

  /**
   * `aggregateIntoDepartments`: one view per entry of the mapping table, in table order, each
   * with the entry's key as its id. The table is passed in; the source always passes
   * `DepartmentMappings`, whose keys are the fifteen department ids (`MappingKeys`).
   */
  method AggregateIntoDepartments(mappings: Records.Record<DepartmentMapping>, artifacts: Artifacts,
                                  stringify: JValue -> string, now: int)
    returns (departments: seq<DepartmentView>)
    ensures |departments| == |mappings|
    ensures forall i :: 0 <= i < |departments| ==>
      departments[i] == AggregateDepartment(mappings[i].0, mappings[i].1, artifacts, stringify, now)
    ensures forall i :: 0 <= i < |departments| ==> departments[i].id == Records.Keys(mappings)[i]
  {
    departments := [];
    var i := 0;
    while i < |mappings|
      invariant 0 <= i <= |mappings|
      invariant |departments| == i
      invariant forall j :: 0 <= j < i ==>
        departments[j] == AggregateDepartment(mappings[j].0, mappings[j].1, artifacts, stringify, now)
    {
      departments := departments + [AggregateDepartment(mappings[i].0, mappings[i].1, artifacts, stringify, now)];
      i := i + 1;
    }
  }

  /** The evidence, agent JSON and phase trace departments have no phases, so they are always 0% complete and empty. */
  lemma PhaselessDepartments(artifacts: Artifacts)
    ensures forall i :: 12 <= i < |DepartmentMappings| ==>
      AllPhases(DepartmentMappings[i].1) == [] && DepartmentMappings[i].1.sections == [] &&
      CalculateCompleteness(DepartmentMappings[i].1, artifacts) == 0
    ensures |DepartmentMappings| == 15
  {
  }

  // ─── The artifact map ────────────────────────────────────────────────────

  /** The artifacts keyed by phase, assigned in order, so that a later artifact of a phase replaces an earlier one. */
  function ArtifactsMap(artifacts: seq<Types.PlanningArtifact>): Artifacts {
    if artifacts == [] then []
    else
      var n := |artifacts| - 1;
      Records.Put(ArtifactsMap(artifacts[..n]), artifacts[n].phase, artifacts[n])
  }

  /** `artifactsToMap`. */
  method ArtifactsToMap(artifacts: seq<Types.PlanningArtifact>) returns (m: Artifacts)
    ensures m == ArtifactsMap(artifacts)
  {
    m := [];
    var i := 0;
    while i < |artifacts|
      invariant 0 <= i <= |artifacts|
      invariant m == ArtifactsMap(artifacts[..i])
    {
      assert artifacts[..i + 1][..i] == artifacts[..i];
      m := Records.Put(m, artifacts[i].phase, artifacts[i]);
      i := i + 1;
    }
    assert artifacts[..i] == artifacts;
  }

  /** Assigning one more artifact changes the entry of its phase only. */
  lemma ArtifactsMapStep(artifacts: seq<Types.PlanningArtifact>, phase: string)
    requires artifacts != []
    ensures var n := |artifacts| - 1;
      Records.Lookup(ArtifactsMap(artifacts), phase) ==
        if artifacts[n].phase == phase then Some(artifacts[n]) else Records.Lookup(ArtifactsMap(artifacts[..n]), phase)
  {
  }

  /** A phase is absent from the map exactly when no artifact has that phase. */
  lemma {:induction false} ArtifactsMapAbsent(artifacts: seq<Types.PlanningArtifact>, phase: string)
    ensures Records.Lookup(ArtifactsMap(artifacts), phase).None? <==>
      forall i :: 0 <= i < |artifacts| ==> artifacts[i].phase != phase
  {
    if artifacts != [] {
      var n := |artifacts| - 1;
      ArtifactsMapAbsent(artifacts[..n], phase);
      ArtifactsMapStep(artifacts, phase);
      assert forall i :: 0 <= i < n ==> artifacts[..n][i] == artifacts[i];
    }
  }

  /** A phase maps to its last artifact: the one after which no artifact of that phase follows. */
  lemma {:induction false} ArtifactsMapLastWins(artifacts: seq<Types.PlanningArtifact>, phase: string, i: nat)
    requires i < |artifacts| && LastOfPhase(artifacts, i, phase)
    ensures Records.Lookup(ArtifactsMap(artifacts), phase) == Some(artifacts[i])
  {
    var n := |artifacts| - 1;
    ArtifactsMapStep(artifacts, phase);
    if i < n {
      var init := artifacts[..n];
      assert LastOfPhase(init, i, phase) by {
        forall j | i < j < |init| ensures init[j].phase != phase {
          assert init[j] == artifacts[j];
        }
      }
      ArtifactsMapLastWins(init, phase, i);
    }
  }

  /** Artifact `i` has the phase and no later artifact has it. */
  predicate LastOfPhase(artifacts: seq<Types.PlanningArtifact>, i: nat, phase: string)
    requires i < |artifacts|
  {
    artifacts[i].phase == phase && forall j :: i < j < |artifacts| ==> artifacts[j].phase != phase
  }
}
