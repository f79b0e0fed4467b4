/**
 * The registry of phase renderers: which extractor reads a phase's artifact, with the
 * generic renderer as the fallback for every phase without one of its own. The display
 * component of an entry is kept only as an optional token.
 */
module RendererRegistry {
  import opened Wrappers
  import Records
  import opened Json
  import opened PhaseNormalizer
  import OpportunityExtractor

  /** The two implementations of the renderer interface. */
  datatype PhaseRenderer = GenericRenderer | OpportunityRenderer

  /** The display component of a registry entry, as a token. */
  datatype Component = OpportunityRendererComponent

  datatype RegistryEntry = RegistryEntry(renderer: PhaseRenderer, component: Option<Component>)

  const Renderers: Records.Record<RegistryEntry> := [
    ("opportunity", RegistryEntry(OpportunityRenderer, Some(OpportunityRendererComponent)))
  ]

  const DefaultRenderer: PhaseRenderer := GenericRenderer

  /** The registered renderer, or the generic one. */
  function GetRendererForPhase(phase: string): (r: PhaseRenderer)
    ensures r == OpportunityRenderer <==> phase == "opportunity"
    ensures r == GenericRenderer <==> phase != "opportunity"
  {
    match Records.Lookup(Renderers, phase)
    case Some(entry) => entry.renderer
    case None => DefaultRenderer
  }

  /** The registered component, absent for a phase without a renderer of its own. */
  function GetRendererComponentForPhase(phase: string): (c: Option<Component>)
    ensures c.Some? <==> phase == "opportunity"
  {
    match Records.Lookup(Renderers, phase)
    case Some(entry) => entry.component
    case None => None
  }

  predicate HasCustomRenderer(phase: string) {
    Records.HasKey(Renderers, phase)
  }

  function GetRegisteredPhases(): (ps: seq<string>)
    ensures ps == ["opportunity"]
  {
    Records.Keys(Renderers)
  }

  /** A phase has a renderer of its own exactly when it is registered, and then it has a component too. */
  lemma CustomRendererIffRegistered(phase: string)
    ensures HasCustomRenderer(phase) <==> phase in GetRegisteredPhases()
    ensures HasCustomRenderer(phase) <==> phase == "opportunity"
    ensures HasCustomRenderer(phase) <==> GetRendererComponentForPhase(phase).Some?
    ensures !HasCustomRenderer(phase) ==> GetRendererForPhase(phase) == DefaultRenderer
  {
    Records.HasKeyIffKeys(Renderers, phase);
  }

  // ─── The renderer interface ──────────────────────────────────────────────

  /** `renderer.extractTakeaways(content)`: the opportunity renderer delegates to its extractor, the generic one finds nothing. */
  function ExtractTakeaways(renderer: PhaseRenderer, content: JValue): (r: seq<Takeaway>)
    ensures renderer == GenericRenderer ==> r == []
  {
    match renderer
    case GenericRenderer => GenericTakeaways(content)
    case OpportunityRenderer => OpportunityExtractor.OpportunityTakeaways(content)
  }

  function ExtractDecisions(renderer: PhaseRenderer, content: JValue): (r: seq<Decision>)
    ensures renderer == GenericRenderer ==> r == []
  {
    match renderer
    case GenericRenderer => GenericDecisions(content)
    case OpportunityRenderer => OpportunityExtractor.OpportunityDecisions(content)
  }

  function ExtractUnknowns(renderer: PhaseRenderer, content: JValue): (r: seq<Unknown>)
    ensures renderer == GenericRenderer ==> r == []
  {
    match renderer
    case GenericRenderer => GenericUnknowns(content)
    case OpportunityRenderer => OpportunityExtractor.OpportunityUnknowns(content)
  }

  function ExtractEvidence(renderer: PhaseRenderer, content: JValue, phase: string): (r: seq<Evidence>)
    ensures renderer == GenericRenderer ==> r == []
  {
    match renderer
    case GenericRenderer => GenericEvidence(content, phase)
    case OpportunityRenderer => OpportunityExtractor.OpportunityEvidence(content, phase)
  }

  /** The opportunity renderer hands the content to the four extractors unchanged. */
  lemma OpportunityRendererDelegates(content: JValue, phase: string)
    ensures ExtractTakeaways(OpportunityRenderer, content) == OpportunityExtractor.OpportunityTakeaways(content)
    ensures ExtractDecisions(OpportunityRenderer, content) == OpportunityExtractor.OpportunityDecisions(content)
    ensures ExtractUnknowns(OpportunityRenderer, content) == OpportunityExtractor.OpportunityUnknowns(content)
    ensures ExtractEvidence(OpportunityRenderer, content, phase) == OpportunityExtractor.OpportunityEvidence(content, phase)
  {
  }
}
