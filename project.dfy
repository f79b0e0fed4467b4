/**
 * Projects on the Kanban board: the summary the API returns, the card built from it, and
 * the per-phase strategy for combining artifacts of several runs (only the table exists;
 * no strategy is carried out here).
 */
module Project {
  import opened Wrappers
  import Records
  import Types

  datatype ProjectStatus = Draft | Researching | Paused | Completed | Killed

  datatype ProjectSummary = ProjectSummary(
    id: string,
    name: string,
    status: ProjectStatus,
    currentPhase: Option<string>,
    qualityScore: Option<int>,
    revenuePotential: Option<string>,
    artifactCount: int,
    runCount: int,
    latestRunId: Option<string>,
    riskFlags: seq<string>,
    mode: Types.RunMode,
    createdAt: int,
    updatedAt: int)

  datatype ProjectKanbanCard = ProjectKanbanCard(
    id: string,
    title: string,
    subtitle: Option<string>,
    status: string,
    phase: Option<string>,
    mode: Types.RunMode,
    qualityScore: Option<int>,
    revenuePotential: Option<string>,
    runCount: int,
    artifactCount: int,
    riskFlags: seq<string>,
    updatedAt: int)

  /**
   * The card shows the project in the column of its current phase (the opportunity column
   * before it has one), flags paused and completed projects in the subtitle, and copies the
   * counters unchanged.
   */
  function ProjectToKanbanCard(p: ProjectSummary): (c: ProjectKanbanCard)
    ensures c.subtitle == Some("Paused") <==> p.status == Paused
    ensures c.subtitle == Some("Completed") <==> p.status == Completed
    ensures c.subtitle.None? <==> p.status != Paused && p.status != Completed
    ensures c.phase == p.currentPhase
    ensures c.phase.Some? ==> c.status == c.phase.value
    ensures c.phase.None? ==> c.status == "opportunity"
    ensures c.id == p.id && c.title == p.name && c.mode == p.mode
    ensures c.qualityScore == p.qualityScore && c.revenuePotential == p.revenuePotential
    ensures c.runCount == p.runCount && c.artifactCount == p.artifactCount
    ensures c.riskFlags == p.riskFlags && c.updatedAt == p.updatedAt
  {
    ProjectKanbanCard(
      p.id,
      p.name,
      if p.status == Paused then Some("Paused") else if p.status == Completed then Some("Completed") else None,
      p.currentPhase.GetOr("opportunity"),
      p.currentPhase,
      p.mode,
      p.qualityScore,
      p.revenuePotential,
      p.runCount,
      p.artifactCount,
      p.riskFlags,
      p.updatedAt)
  }

  datatype AggregationStrategy = Latest | BestScore | Merge

  const PhaseAggregationStrategies: Records.Record<AggregationStrategy> := [
    ("synthesis", Latest),
    ("kill-test", Latest),
    ("opportunity", BestScore),
    ("customer-intel", BestScore),
    ("market-research", BestScore),
    ("competitive-intel", BestScore),
    ("revenue-expansion", BestScore),
    ("strategy", BestScore),
    ("business-model", BestScore),
    ("product-design", BestScore),
    ("gtm-marketing", BestScore),
    ("content-engine", BestScore),
    ("tech-arch", BestScore),
    ("analytics", BestScore),
    ("launch-execution", Latest),
    ("task-reconciliation", Latest)
  ]

  /** The phases whose newest artifact is kept. */
  const LatestPhases: seq<string> := ["synthesis", "kill-test", "launch-execution", "task-reconciliation"]

  lemma StrategyEntries()
    ensures Records.DistinctKeys(PhaseAggregationStrategies)
    ensures forall i :: 0 <= i < |PhaseAggregationStrategies| ==>
      PhaseAggregationStrategies[i].1 == (if PhaseAggregationStrategies[i].0 in LatestPhases then Latest else BestScore)
  {
  }

  /** The table covers the fifteen phase names and the task-reconciliation phase, and nothing else. */
  lemma StrategyKeys(phase: string)
    ensures Records.HasKey(PhaseAggregationStrategies, phase) <==>
      Types.IsPhaseName(phase) || phase == "task-reconciliation"
  {
    Records.HasKeyIffKeys(PhaseAggregationStrategies, phase);
    assert Records.Keys(PhaseAggregationStrategies) == [
      "synthesis", "kill-test", "opportunity", "customer-intel", "market-research", "competitive-intel",
      "revenue-expansion", "strategy", "business-model", "product-design", "gtm-marketing",
      "content-engine", "tech-arch", "analytics", "launch-execution", "task-reconciliation"];
  }

  /** A listed phase keeps its latest artifact exactly when it is one of the four "latest" phases, else its best-scored one. */
  lemma {:induction false} StrategyOfListedPhase(phase: string)
    requires Records.HasKey(PhaseAggregationStrategies, phase)
    ensures Records.Lookup(PhaseAggregationStrategies, phase) ==
      Some(if phase in LatestPhases then Latest else BestScore)
  {
    StrategyEntries();
    var i :| 0 <= i < |PhaseAggregationStrategies| && PhaseAggregationStrategies[i] ==
      (phase, Records.Lookup(PhaseAggregationStrategies, phase).value);
    Records.LookupDistinct(PhaseAggregationStrategies, i);
  }

  /** No phase is combined by merging. */
  lemma NoPhaseMerges(phase: string)
    ensures Records.Lookup(PhaseAggregationStrategies, phase) != Some(Merge)
  {
    if Records.HasKey(PhaseAggregationStrategies, phase) {
      StrategyOfListedPhase(phase);
    }
  }
}
