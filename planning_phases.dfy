/**
 * The canonical planning-phase ontology: the 18 agent phases in execution order, the workflow
 * order (the intake phase first), the post-pipeline phases, and the normalization of legacy
 * and alternate phase names.
 */
module PlanningPhases {
  import opened Wrappers
  import Records

  const AgentPhaseOrder: seq<string> := [
    "opportunity", "customer-intel", "market-research", "competitive-intel", "kill-test",
    "revenue-expansion", "strategy", "business-model", "product-design", "gtm-marketing",
    "content-engine", "tech-arch", "analytics", "launch-execution", "synthesis",
    "task-reconciliation", "diagram-generation", "validation"
  ]

  const WorkflowPhaseOrder: seq<string> := ["phase-0-intake"] + AgentPhaseOrder

  /** Phases that run after the main pipeline has finished. */
  const PostPipelinePhases: seq<string> := ["architecture-advisor"]

  /** Legacy and shorthand names, each mapped to its canonical workflow phase. */
  const LegacyPhaseAliases: Records.Record<string> := [
    ("intake", "phase-0-intake"),
    ("phase-0-intake", "phase-0-intake"),
    ("phase-1-opportunity", "opportunity"),
    ("phase-2-customer-intel", "customer-intel"),
    ("phase-3-market-research", "market-research"),
    ("phase-4-competitive-intel", "competitive-intel"),
    ("phase-5-kill-test", "kill-test"),
    ("phase-6-revenue-expansion", "revenue-expansion"),
    ("phase-7-strategy", "strategy"),
    ("phase-8-business-model", "business-model"),
    ("phase-9-product-design", "product-design"),
    ("phase-10-gtm", "gtm-marketing"),
    ("phase-11-content-engine", "content-engine"),
    ("phase-12-tech-arch", "tech-arch"),
    ("phase-13-analytics", "analytics"),
    ("phase-14-launch", "launch-execution"),
    ("phase-15-synthesis", "synthesis"),
    ("phase-16-task-reconciliation", "task-reconciliation"),
    ("phase-17-diagram-generation", "diagram-generation"),
    ("phase-18-validation", "validation"),
    ("gtm", "gtm-marketing"),
    ("launch", "launch-execution"),
    ("diagrams", "diagram-generation")
  ]

  predicate IsPlanningAgentPhase(phase: string) {
    phase in AgentPhaseOrder
  }

  predicate IsPlanningWorkflowPhase(phase: string) {
    phase in WorkflowPhaseOrder
  }

  /** Every alias points at a canonical workflow phase. */
  lemma AliasTargetsAreWorkflowPhases()
    ensures forall i :: 0 <= i < |LegacyPhaseAliases| ==> IsPlanningWorkflowPhase(LegacyPhaseAliases[i].1)
  {
  }

  /**
   * Canonical workflow names are returned unchanged, listed aliases are translated, and
   * every other name has no canonical form.
   */
  function NormalizePlanningPhase(phase: string): (r: Option<string>)
    ensures IsPlanningWorkflowPhase(phase) ==> r == Some(phase)
    ensures r.Some? ==> IsPlanningWorkflowPhase(r.value)
    ensures r.None? <==> !IsPlanningWorkflowPhase(phase) && !Records.HasKey(LegacyPhaseAliases, phase)
    ensures !IsPlanningWorkflowPhase(phase) && Records.HasKey(LegacyPhaseAliases, phase) ==>
              r == Records.Lookup(LegacyPhaseAliases, phase)
  {
    if IsPlanningWorkflowPhase(phase) then Some(phase)
    else
      AliasTargetsAreWorkflowPhases();
      Records.Lookup(LegacyPhaseAliases, phase)
  }

  /** The 18 agent phases are pairwise distinct, and so are the 19 workflow phases. */
  lemma PhaseOrdersDistinct()
    ensures |AgentPhaseOrder| == 18 && |WorkflowPhaseOrder| == 19
    ensures forall i, j :: 0 <= i < j < |AgentPhaseOrder| ==> AgentPhaseOrder[i] != AgentPhaseOrder[j]
    ensures forall i, j :: 0 <= i < j < |WorkflowPhaseOrder| ==> WorkflowPhaseOrder[i] != WorkflowPhaseOrder[j]
  {
  }

  /** Every agent phase is a workflow phase; the intake phase is the only other one. */
  lemma AgentPhaseIsWorkflowPhase(phase: string)
    ensures IsPlanningAgentPhase(phase) ==> IsPlanningWorkflowPhase(phase)
    ensures IsPlanningWorkflowPhase(phase) ==> IsPlanningAgentPhase(phase) || phase == "phase-0-intake"
  {
  }

  /** Normalizing twice is normalizing once. */
  lemma NormalizeIdempotent(phase: string)
    ensures NormalizePlanningPhase(phase).Some? ==>
              NormalizePlanningPhase(NormalizePlanningPhase(phase).value) == NormalizePlanningPhase(phase)
  {
  }

  /** A non-canonical name listed at position `i` of the alias table normalizes to its target. */
  lemma NormalizeAlias(phase: string, i: nat)
    requires !IsPlanningWorkflowPhase(phase)
    requires i < |LegacyPhaseAliases| && LegacyPhaseAliases[i].0 == phase
    ensures NormalizePlanningPhase(phase) == Some(LegacyPhaseAliases[i].1)
  {
    assert forall j :: 0 <= j < i ==> LegacyPhaseAliases[j].0 != LegacyPhaseAliases[i].0;
    Records.LookupAt(LegacyPhaseAliases, phase, i);
  }

  /** The shorthand of the go-to-market phase normalizes to its canonical name. */
  lemma NormalizeGtm()
    ensures NormalizePlanningPhase("gtm") == Some("gtm-marketing")
  {
    NormalizeAlias("gtm", 20);
  }

  /** So does its numbered legacy name. */
  lemma NormalizePhase10Gtm()
    ensures NormalizePlanningPhase("phase-10-gtm") == Some("gtm-marketing")
  {
    NormalizeAlias("phase-10-gtm", 11);
  }

  /** A post-pipeline phase is neither canonical nor an alias, so it has no canonical form. */
  lemma PostPipelinePhasesDoNotNormalize(phase: string)
    requires phase in PostPipelinePhases
    ensures !IsPlanningWorkflowPhase(phase) && !IsPlanningAgentPhase(phase)
    ensures NormalizePlanningPhase(phase) == None
  {
    assert phase == "architecture-advisor";
    assert forall i :: 0 <= i < |LegacyPhaseAliases| ==> LegacyPhaseAliases[i].0 != phase;
  }
}
