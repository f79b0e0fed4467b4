/**
 * The normalized display model of one phase artifact: the artifact with the takeaways,
 * decisions, unknowns and evidence its phase's renderer extracts, and any orchestration
 * result it carries.
 */
module PhaseDisplay {
  import opened Wrappers
  import opened Json
  import opened PhaseNormalizer
  import Types
  import RendererRegistry
  import OpportunityExtractor
  import Orchestration

  datatype PhaseDisplayModel = PhaseDisplayModel(
    phase: string,
    artifact: Types.PlanningArtifact,
    takeaways: seq<Takeaway>,
    decisions: seq<Decision>,
    unknowns: seq<Unknown>,
    evidence: seq<Evidence>,
    orchestration: Option<JValue>)

  /**
   * The phase and the artifact pass through; the lists come from the phase's renderer on the
   * artifact content (nothing for a phase without a renderer of its own), the evidence is
   * tagged with the phase, and the orchestration result is the detected one.
   */
  function NormalizePhaseArtifact(phase: string, artifact: Types.PlanningArtifact): (m: PhaseDisplayModel)
    ensures m.phase == phase && m.artifact == artifact
    ensures phase == "opportunity" ==>
      m.takeaways == OpportunityExtractor.OpportunityTakeaways(artifact.content) &&
      m.decisions == OpportunityExtractor.OpportunityDecisions(artifact.content) &&
      m.unknowns == OpportunityExtractor.OpportunityUnknowns(artifact.content) &&
      m.evidence == OpportunityExtractor.OpportunityEvidence(artifact.content, phase)
    ensures phase != "opportunity" ==> m.takeaways == [] && m.decisions == [] && m.unknowns == [] && m.evidence == []
    ensures m.orchestration.Some? ==> Orchestration.IsOrchestrationStructure(m.orchestration.value)
    ensures m.orchestration == Orchestration.DetectOrchestration(artifact.content)
  {
    var renderer := RendererRegistry.GetRendererForPhase(phase);
    PhaseDisplayModel(
      phase,
      artifact,
      RendererRegistry.ExtractTakeaways(renderer, artifact.content),
      RendererRegistry.ExtractDecisions(renderer, artifact.content),
      RendererRegistry.ExtractUnknowns(renderer, artifact.content),
      RendererRegistry.ExtractEvidence(renderer, artifact.content, phase),
      Orchestration.DetectOrchestration(artifact.content))
  }

  /** Every evidence item in a display model comes from the model's own phase. */
  lemma EvidenceFromOwnPhase(phase: string, artifact: Types.PlanningArtifact)
    ensures var m := NormalizePhaseArtifact(phase, artifact);
      forall j :: 0 <= j < |m.evidence| ==> m.evidence[j].phaseOrigin == phase
  {
    var m := NormalizePhaseArtifact(phase, artifact);
    if phase == "opportunity" && Truthy(artifact.content) {
      OpportunityExtractor.EvidenceItems(artifact.content, phase);
    }
  }

  /** The display model's ids are unique within each list. */
  lemma DisplayIdsDistinct(phase: string, artifact: Types.PlanningArtifact)
    ensures var m := NormalizePhaseArtifact(phase, artifact);
      (forall j, k :: 0 <= j < k < |m.takeaways| ==> m.takeaways[j].id != m.takeaways[k].id) &&
      (forall j, k :: 0 <= j < k < |m.unknowns| ==> m.unknowns[j].id != m.unknowns[k].id) &&
      (forall j, k :: 0 <= j < k < |m.evidence| ==> m.evidence[j].id != m.evidence[k].id)
  {
    if phase == "opportunity" {
      OpportunityExtractor.TakeawayIdsDistinct(artifact.content);
      if Truthy(artifact.content) {
        OpportunityExtractor.UnknownsAreTheQuestions(artifact.content);
        OpportunityExtractor.EvidenceItems(artifact.content, phase);
      }
    }
  }
}
