/**
 * The build-handoff payload ("Ralph Loop" JSON): its schema, the keyword ladders that classify
 * free text into priorities, metric types and severities, and the authentication reading.
 * Every ladder lowercases its input and looks for keywords as substrings; a missing or empty
 * input takes the ladder's default.
 */
module RalphSchema {
  import opened Wrappers
  import Text
  import Keywords
  import Records
  import opened Json
  import Types

  // ─── Payload schema ──────────────────────────────────────────────────────

  datatype Priority = High | Medium | Low

  datatype ServiceType = Worker | Pages | DurableObject

  datatype BindingType = Kv | D1 | R2 | Queue | DurableObjectNamespace | Ai

  datatype RelationshipType = OneToOne | OneToMany | ManyToMany

  datatype AuthType = Jwt | Session | ApiKey | NoAuth

  datatype MetricType = Counter | Gauge | Histogram

  datatype Severity = Critical | Major | Minor

  datatype FeatureSpec = FeatureSpec(id: string, name: string, description: string, priority: Priority)

  datatype ServiceSpec = ServiceSpec(name: string, kind: ServiceType, description: string)

  datatype CloudflareBinding = CloudflareBinding(name: string, kind: BindingType)

  datatype Field = Field(name: string, fieldType: string, required: bool)

  datatype Entity = Entity(name: string, fields: seq<Field>)

  datatype Relationship = Relationship(from: string, to: string, kind: RelationshipType)

  datatype DataModelSpec = DataModelSpec(entities: seq<Entity>, relationships: seq<Relationship>)

  /** The HTTP method is whatever text the artifact gives: the source casts it without checking. */
  datatype ApiEndpoint = ApiEndpoint(path: string, httpMethod: string, description: string)

  /** `provider` is `undefined` unless the scheme is JWT. */
  datatype AuthSpec = AuthSpec(kind: AuthType, provider: Option<string>)

  datatype PricingTier = PricingTier(name: string, price: int, features: seq<string>)

  datatype MetricDefinition = MetricDefinition(name: string, description: string, kind: MetricType)

  datatype TaskSpec = TaskSpec(id: string, title: string, description: string, phase: string)

  datatype TaskDependency = TaskDependency(task: string, dependsOn: seq<string>)

  datatype Milestone = Milestone(name: string, target: string, criteria: seq<string>)

  datatype KillCondition = KillCondition(condition: string, severity: Severity)

  datatype Assumption = Assumption(assumption: string, validation: string)

  datatype Metadata = Metadata(generatedAt: int, planningRunId: string, confidence: int, completeness: int)

  datatype ProductSection = ProductSection(vision: string, features: seq<FeatureSpec>, mvpScope: seq<string>)

  datatype Architecture = Architecture(services: seq<ServiceSpec>, cloudflareStack: seq<CloudflareBinding>, dataModel: DataModelSpec)

  datatype ApiSection = ApiSection(endpoints: seq<ApiEndpoint>, authentication: AuthSpec)

  datatype TechnicalSection = TechnicalSection(architecture: Architecture, api: ApiSection)

  datatype BusinessSection = BusinessSection(model: string, pricing: seq<PricingTier>, metrics: seq<MetricDefinition>)

  datatype ExecutionSection = ExecutionSection(tasks: seq<TaskSpec>, dependencies: seq<TaskDependency>, milestones: seq<Milestone>)

  datatype ValidationSection = ValidationSection(killConditions: seq<KillCondition>, assumptions: seq<Assumption>)

  datatype RalphLoopPayload = RalphLoopPayload(
    metadata: Metadata,
    product: ProductSection,
    technical: TechnicalSection,
    business: BusinessSection,
    execution: ExecutionSection,
    validation: ValidationSection)

  // ─── Reading the artifacts ───────────────────────────────────────────────

  type Artifacts = Records.Record<Types.PlanningArtifact>

  /** `artifacts[phase]?.content || {}`: the phase's content, or the empty object when it is absent or falsy. */
  function PhaseContent(artifacts: Artifacts, phase: string): (c: JValue)
    ensures Records.Lookup(artifacts, phase).None? ==> c == JObj([])
    ensures Records.Lookup(artifacts, phase).Some? && Truthy(Records.Lookup(artifacts, phase).value.content) ==>
      c == Records.Lookup(artifacts, phase).value.content
    ensures Records.Lookup(artifacts, phase).Some? && !Truthy(Records.Lookup(artifacts, phase).value.content) ==>
      c == JObj([])
  {
    match Records.Lookup(artifacts, phase)
    case Some(a) => ContentOr(Some(a.content))
    case None => JObj([])
  }

  /** The field is a non-empty string: the test `if (extractString(obj, key))` passes. */
  predicate NonEmptyAt(obj: JValue, key: string) {
    Str(obj, key) != ""
  }

  // ─── Priority ────────────────────────────────────────────────────────────

  const HighPriorityKeywords: seq<string> := ["p0", "high", "critical"]
  const LowPriorityKeywords: seq<string> := ["p3", "low"]

  const PriorityTiers: seq<Keywords.Tier<Priority>> := [
    (HighPriorityKeywords, Priority.High),
    (LowPriorityKeywords, Priority.Low)
  ]

  /** `determinePriority`: a missing or empty priority is medium. */
  function DeterminePriority(priority: Option<string>): (r: Priority)
    ensures priority.None? || priority == Some("") ==> r == Priority.Medium
  {
    if priority.None? || priority.value == "" then Priority.Medium
    else Keywords.Ladder(Text.Lower(priority.value), PriorityTiers, Priority.Medium)
  }

  /** P0, high or critical wins over P3 or low; anything else is medium. */
  lemma DeterminePriorityLadder(priority: string)
    requires priority != ""
    ensures var lower, r := Text.Lower(priority), DeterminePriority(Some(priority));
      (r == Priority.High <==> Text.ContainsAny(lower, HighPriorityKeywords)) &&
      (r == Priority.Low <==> !Text.ContainsAny(lower, HighPriorityKeywords) && Text.ContainsAny(lower, LowPriorityKeywords)) &&
      (r == Priority.Medium <==> !Text.ContainsAny(lower, HighPriorityKeywords) && !Text.ContainsAny(lower, LowPriorityKeywords))
  {
    var lower := Text.Lower(priority);
    Keywords.LadderIsFirstMatch(lower, PriorityTiers, Priority.Medium);
    var k := Keywords.TierOf(lower, PriorityTiers);
    assert k < 2 ==> Text.ContainsAny(lower, PriorityTiers[k].0);
    assert k >= 1 ==> !Text.ContainsAny(lower, PriorityTiers[0].0);
    assert k >= 2 ==> !Text.ContainsAny(lower, PriorityTiers[1].0);
  }

  // ─── Metric type ─────────────────────────────────────────────────────────

  const HistogramKeywords: seq<string> := ["histogram", "distribution"]
  const GaugeKeywords: seq<string> := ["gauge", "current", "rate"]

  const MetricTypeTiers: seq<Keywords.Tier<MetricType>> := [
    (HistogramKeywords, Histogram),
    (GaugeKeywords, Gauge)
  ]

  /** `determineMetricType`: a missing or empty type is a counter. */
  function DetermineMetricType(kind: Option<string>): (r: MetricType)
    ensures kind.None? || kind == Some("") ==> r == Counter
  {
    if kind.None? || kind.value == "" then Counter
    else Keywords.Ladder(Text.Lower(kind.value), MetricTypeTiers, Counter)
  }

  /** Histogram words are checked before gauge words; anything else is a counter. */
  lemma DetermineMetricTypeLadder(kind: string)
    requires kind != ""
    ensures var lower, r := Text.Lower(kind), DetermineMetricType(Some(kind));
      (r == Histogram <==> Text.ContainsAny(lower, HistogramKeywords)) &&
      (r == Gauge <==> !Text.ContainsAny(lower, HistogramKeywords) && Text.ContainsAny(lower, GaugeKeywords)) &&
      (r == Counter <==> !Text.ContainsAny(lower, HistogramKeywords) && !Text.ContainsAny(lower, GaugeKeywords))
  {
    var lower := Text.Lower(kind);
    Keywords.LadderIsFirstMatch(lower, MetricTypeTiers, Counter);
    var k := Keywords.TierOf(lower, MetricTypeTiers);
    assert k < 2 ==> Text.ContainsAny(lower, MetricTypeTiers[k].0);
    assert k >= 1 ==> !Text.ContainsAny(lower, MetricTypeTiers[0].0);
    assert k >= 2 ==> !Text.ContainsAny(lower, MetricTypeTiers[1].0);
  }

  // ─── Severity ────────────────────────────────────────────────────────────

  const CriticalSeverityKeywords: seq<string> := ["critical", "blocking", "p0"]
  const MinorSeverityKeywords: seq<string> := ["minor", "p3", "low"]

  const SeverityTiers: seq<Keywords.Tier<Severity>> := [
    (CriticalSeverityKeywords, Critical),
    (MinorSeverityKeywords, Minor)
  ]

  /** `determineSeverity`: a missing or empty severity is major. */
  function DetermineSeverity(severity: Option<string>): (r: Severity)
    ensures severity.None? || severity == Some("") ==> r == Major
  {
    if severity.None? || severity.value == "" then Major
    else Keywords.Ladder(Text.Lower(severity.value), SeverityTiers, Major)
  }

  /** Critical, blocking or P0 wins over minor, P3 or low; anything else is major. */
  lemma DetermineSeverityLadder(severity: string)
    requires severity != ""
    ensures var lower, r := Text.Lower(severity), DetermineSeverity(Some(severity));
      (r == Critical <==> Text.ContainsAny(lower, CriticalSeverityKeywords)) &&
      (r == Minor <==> !Text.ContainsAny(lower, CriticalSeverityKeywords) && Text.ContainsAny(lower, MinorSeverityKeywords)) &&
      (r == Major <==> !Text.ContainsAny(lower, CriticalSeverityKeywords) && !Text.ContainsAny(lower, MinorSeverityKeywords))
  {
    var lower := Text.Lower(severity);
    Keywords.LadderIsFirstMatch(lower, SeverityTiers, Major);
    var k := Keywords.TierOf(lower, SeverityTiers);
    assert k < 2 ==> Text.ContainsAny(lower, SeverityTiers[k].0);
    assert k >= 1 ==> !Text.ContainsAny(lower, SeverityTiers[0].0);
    assert k >= 2 ==> !Text.ContainsAny(lower, SeverityTiers[1].0);
  }

  /** The ladders read only the lowercased text: texts that differ only in letter case classify alike. */
  lemma LaddersIgnoreCase(a: string, b: string)
    requires Text.Lower(a) == Text.Lower(b)
    ensures DeterminePriority(Some(a)) == DeterminePriority(Some(b))
    ensures DetermineMetricType(Some(a)) == DetermineMetricType(Some(b))
    ensures DetermineSeverity(Some(a)) == DetermineSeverity(Some(b))
  {
    assert a == "" <==> b == "" by { assert |a| == |Text.Lower(a)| == |Text.Lower(b)| == |b|; }
  }

  // ─── Authentication ──────────────────────────────────────────────────────

  const AuthTiers: seq<Keywords.Tier<AuthType>> := [
    (["jwt"], Jwt),
    (["session"], Session),
    (["api-key", "apikey"], ApiKey),
    (["none", "public"], NoAuth)
  ]

  /** The scheme text: `type`, or `method` when `type` is missing or empty. */
  function AuthText(auth: JValue): string {
    Or(Str(auth, "type"), Str(auth, "method"))
  }

  /**
   * `extractAuth`: the scheme named by `authFlowDecisions`, classified by the ladder jwt >
   * session > api-key > none; JWT when the decisions, the scheme text or a matching keyword is
   * missing. Only a scheme the JWT keyword matched carries the `provider` field.
   */
  function ExtractAuth(techArch: JValue): (r: AuthSpec)
    ensures r.provider.Some? ==> r.kind == Jwt
  {
    match Get(techArch, "authFlowDecisions")
    case Some(auth) =>
      if !IsObjectLike(auth) || AuthText(auth) == "" then AuthSpec(Jwt, None)
      else
        var lower := Text.Lower(AuthText(auth));
        if Text.Contains(lower, "jwt") then AuthSpec(Jwt, ExtractString(auth, "provider"))
        else AuthSpec(Keywords.Ladder(lower, AuthTiers[1..], Jwt), None)
    case None => AuthSpec(Jwt, None)
  }

  /** The scheme is the first tier of jwt > session > api-key|apikey > none|public to match, JWT by default. */
  lemma ExtractAuthLadder(techArch: JValue)
    ensures var r := ExtractAuth(techArch);
      var auth := Get(techArch, "authFlowDecisions");
      if auth.None? || !IsObjectLike(auth.value) || AuthText(auth.value) == "" then r == AuthSpec(Jwt, None)
      else
        var lower := Text.Lower(AuthText(auth.value));
        r.kind == Keywords.Ladder(lower, AuthTiers, Jwt) &&
        (r.provider == if Text.Contains(lower, "jwt") then ExtractString(auth.value, "provider") else None)
  {
    var auth := Get(techArch, "authFlowDecisions");
    if auth.Some? && IsObjectLike(auth.value) && AuthText(auth.value) != "" {
      var lower := Text.Lower(AuthText(auth.value));
      if Text.Contains(lower, "jwt") {
        assert Text.ContainsAny(lower, AuthTiers[0].0) by { assert AuthTiers[0].0[0] == "jwt"; }
      } else {
        assert !Text.ContainsAny(lower, AuthTiers[0].0) by { assert AuthTiers[0].0 == ["jwt"]; }
      }
    }
  }
}
