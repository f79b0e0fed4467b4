# Planning dashboard core, modelled in Dafny

This project models the core of a dashboard that shows what a multi-phase planning pipeline
produced. The pipeline runs agents in a fixed order of phases (opportunity, customer-intel, …,
synthesis), and each phase leaves a `PlanningArtifact` holding arbitrary JSON content. The
dashboard does four things with those artifacts:

- **Department aggregation.** It groups the artifacts into fifteen "departments" of a business
  bible. Each department lists sections whose sources are `phase.field` paths into the
  artifacts, and gets a completeness percentage.
- **Phase display.** It normalizes an artifact for display: a registry picks a renderer per
  phase. The opportunity renderer extracts takeaways, one recommended decision, unknowns and
  evidence. Every other phase gets the generic renderer, which extracts nothing. The display
  also detects multi-model orchestration results and scores how far the models agreed.
- **Build handoff.** It turns a run's artifacts into the payload that a build loop consumes:
  product, technical, business, execution and validation groups, plus metadata.
- **Tables and formatting.** It keeps the phase-order tables, the legacy phase aliases, the
  stages, the department configurations and the per-phase aggregation strategies. It also
  formats timestamps.

Artifact content is modelled as a JSON value, `Json.JValue`. Objects are association lists in
insertion order, and lookup takes the first match. JavaScript enumerates an object's keys in a
different order, `Records.EnumerationOrder`: array-index keys ("0", "1", ...) first in ascending
numeric order, then the other keys in insertion order. The two orders agree on the records
keyed by phase or department names. The source's records keyed by phase or
department become `Records.Record<V>`, an association list with `Lookup`. The source's dynamic
checks become predicates over `JValue`: `typeof x === "string"`, `Array.isArray`, truthiness
and "is a non-null object". Everything is pure except the places where the source accumulates
into arrays in loops. Those places are methods with loop invariants. Each method is proved
equal to a specification function, and the properties are lemmas about that function.

Modules follow the source files:

- `Bible` — `src/lib/types/bible.ts`.
- `Types` — `src/lib/types/index.ts`.
- `Project` — `src/lib/types/project.ts`.
- `PhaseDocs` — `src/lib/data/phase-docs.ts`.
- `PlanningPhases` — `src/lib/shared/planning-phases.ts`.
- `FormatDate` — `src/lib/utils/format-date.ts`.
- `Orchestration` — `src/lib/utils/orchestration-detection.ts`.
- `PhaseNormalizer` and `PhaseDisplay` — `src/lib/utils/phase-normalizer.ts`. `PhaseDisplay` holds
  `normalizePhaseArtifact`, which needs the registry.
- `RendererRegistry` — `src/lib/renderers/renderer-registry.ts`.
- `OpportunityExtractor` — `src/lib/renderers/extractors/opportunity-extractor.ts`.
- `DepartmentAggregator` — `src/lib/services/department-aggregator.ts`.
- `RalphSchema`, `RalphProduct`, `RalphTechnical`, `RalphBusiness`, `RalphExecution`,
  `RalphValidation` and `RalphGenerator` — `src/lib/services/ralph-generator.ts`. The payload
  types, the keyword ladders and the auth scheme are in `RalphSchema`. There is one module per
  payload group, and `RalphGenerator` assembles the payload.

Shared support modules:

- `Wrappers` — `Option`.
- `Json` — `JValue`, `Get`, truthiness, the `extractString` and `extractArray` helpers, and
  `String()` conversion.
- `Records` — keyed tables.
- `Text` — ASCII lower-casing, `includes`, `split`, decimal rendering.
- `Keywords` — the "first tier whose keyword occurs" ladder that every classifier uses.
- `Numbers` — `Math.round` of a quotient.
- `Seqs` — filter, positions, take, and the collect-what-the-callback-produces loop.

## Model

| member | source | states |
|---|---|---|
| Bible.ConfigsKeyedByDepartmentId | src/lib/types/bible.ts:139-245 | The configuration table has exactly the fifteen department ids as keys, in declaration order. |
| Bible.ConfigEntries | src/lib/types/bible.ts:139-245 | Each configuration's `id` field equals the key it is stored under. |
| Bible.ConfigFieldsNonEmpty | src/lib/types/bible.ts:139-245 | Every configuration has a non-empty title, description, icon and color. |
| Bible.KnownDepartmentGetters | src/lib/types/bible.ts:250-273 | For a known department, each getter returns that department's configured non-empty field. |
| Bible.UnknownDepartmentGetters | src/lib/types/bible.ts:250-273 | For an unknown id, the getters fall back to the id itself, "", the fallback icon and "gray". |
| Types.StagesFollowPhaseOrder | src/lib/types/index.ts:103-129 | The stages' phase lists, concatenated, are exactly the fifteen-phase pipeline order. |
| Types.StageIdsDistinct | src/lib/types/index.ts:103-129 | There are five stages with distinct ids. |
| Types.EveryPhaseInExactlyOneStage | src/lib/types/index.ts:5-20 | Every phase name belongs to exactly one stage, and a phase listed in a stage is a phase name. |
| Types.StagePhases | src/lib/types/index.ts:103-129 | A phase occurs in the concatenation exactly when some stage lists it. |
| Project.ProjectToKanbanCard | src/lib/types/project.ts:83-102 | The subtitle is "Paused" or "Completed" exactly for those statuses, and absent otherwise. The status column is the current phase, or "opportunity" when there is none. Every other field is copied. |
| Project.StrategyKeys | src/lib/types/project.ts:112-129 | A strategy is listed exactly for the fifteen phase names and task-reconciliation. |
| Project.StrategyOfListedPhase | src/lib/types/project.ts:112-129 | Synthesis, kill-test, launch-execution and task-reconciliation keep the latest artifact. Every other listed phase keeps the best score. |
| Project.NoPhaseMerges | src/lib/types/project.ts:107-129 | No phase uses the merge strategy. |
| PhaseDocs.GetPhaseIndex | src/lib/data/phase-docs.ts:131-133 | A listed phase's one-based index points back at it. An unlisted phase gets 0. |
| PhaseDocs.GetPhaseByIndex | src/lib/data/phase-docs.ts:136-138 | A phase is returned exactly for indexes 1 to 15, and it is the entry at index − 1. |
| PhaseDocs.PhaseOrderDistinct | src/lib/data/phase-docs.ts:112-128 | The order lists fifteen distinct phases. |
| PhaseDocs.PhaseIndexRoundTrip | src/lib/data/phase-docs.ts:131-138 | Looking up a listed phase's index returns the phase. |
| PhaseDocs.PhaseByIndexRoundTrip | src/lib/data/phase-docs.ts:131-138 | The index of the phase at a valid index is that index. |
| PhaseDocs.PhaseDocsCoverOrder | src/lib/data/phase-docs.ts:3-128 | The documentation table has an entry for exactly the phases of the order. |
| PlanningPhases.PhaseOrdersDistinct | src/lib/shared/planning-phases.ts:10-36 | The agent order has 18 distinct phases. The workflow order has 19, intake first. |
| PlanningPhases.AgentPhaseIsWorkflowPhase | src/lib/shared/planning-phases.ts:78-84 | Every agent phase is a workflow phase. The only workflow phase that is not an agent phase is the intake. |
| PlanningPhases.AliasTargetsAreWorkflowPhases | src/lib/shared/planning-phases.ts:52-76 | Every legacy alias maps to a workflow phase. |
| PlanningPhases.NormalizePlanningPhase | src/lib/shared/planning-phases.ts:89-95 | A workflow phase maps to itself. Otherwise a listed alias maps to its target. The result is none exactly when the name is neither. Any result is a workflow phase. |
| PlanningPhases.NormalizeIdempotent | src/lib/shared/planning-phases.ts:89-95 | Normalizing a normalized phase changes nothing. |
| PlanningPhases.NormalizeAlias | src/lib/shared/planning-phases.ts:52-95 | A name that is not a workflow phase and is listed as an alias normalizes to the alias target. |
| PlanningPhases.NormalizeGtm | src/lib/shared/planning-phases.ts:52-95 | "gtm" normalizes to "gtm-marketing". |
| PlanningPhases.NormalizePhase10Gtm | src/lib/shared/planning-phases.ts:52-95 | The numbered legacy name "phase-10-gtm" normalizes to "gtm-marketing". |
| PlanningPhases.PostPipelinePhasesDoNotNormalize | src/lib/shared/planning-phases.ts:48-95 | The post-pipeline phase is neither an agent nor a workflow phase, and it normalizes to none. |
| FormatDate.FalsyTimestampFormatsEmpty | src/lib/utils/format-date.ts:9-50 | A missing or zero timestamp formats as "" in all four formatters. Otherwise the absolute formatters render the timestamp in milliseconds (seconds × 1000). |
| FormatDate.RelativeJustNow | src/lib/utils/format-date.ts:29-41 | Less than a minute ago reads "just now". |
| FormatDate.RelativeMinutes | src/lib/utils/format-date.ts:29-41 | Between n and n+1 minutes ago (n from 1 to 59) reads "n min ago". |
| FormatDate.RelativeHours | src/lib/utils/format-date.ts:29-41 | Between n and n+1 hours ago (n from 1 to 23) reads "n hours ago". |
| FormatDate.RelativeDays | src/lib/utils/format-date.ts:29-41 | Between n and n+1 days ago (n from 1 to 6) reads "n days ago". |
| FormatDate.RelativeWeekOrMore | src/lib/utils/format-date.ts:29-41 | A week or more ago falls back to the plain date. |
| FormatDate.RelativeBucketsExhaustive | src/lib/utils/format-date.ts:29-41 | For every timestamp a minute to a week old, the formatter shows `floor(diff / unit)` of its bucket's unit, and that count lies within the bucket's bounds. |
| Orchestration.DetectOrchestration | src/lib/utils/orchestration-detection.ts:40-65 | Anything detected has the orchestration shape, and it is either the content's `orchestration` field or the content itself. |
| Orchestration.NestedOrchestrationFirst | src/lib/utils/orchestration-detection.ts:40-65 | A well-formed nested result wins, even over content that has the shape itself. |
| Orchestration.ContentAsOrchestration | src/lib/utils/orchestration-detection.ts:40-65 | Without a well-formed nested result, the content is returned exactly when it has the shape. |
| Orchestration.NoOrchestration | src/lib/utils/orchestration-detection.ts:40-65 | Nothing is detected exactly when neither the nested field nor the content has the shape. |
| Orchestration.MissingKeyFails | src/lib/utils/orchestration-detection.ts:79-111 | Missing any one of the four required keys fails the shape check. |
| Orchestration.OutputsPartition | src/lib/utils/orchestration-detection.ts:178-190 | The successful and failed outputs split the model outputs, in order: each output is in exactly one of them, according to its `error` field. |
| Orchestration.AllSucceededIffNoFailures | src/lib/utils/orchestration-detection.ts:188-210 | All models succeeded exactly when there are no failed outputs, and exactly when the successful outputs are all the outputs. |
| Orchestration.CalculateConsensusScore | src/lib/utils/orchestration-detection.ts:131-146 | The score is 100 minus 15 per wild idea and 10 per failed model, clamped to 0 to 100. |
| Orchestration.ConsensusScoreMonotone | src/lib/utils/orchestration-detection.ts:131-146 | No wild ideas and no failures give 100. More of either never raises the score. |
| Orchestration.ConsensusScoreExact | src/lib/utils/orchestration-detection.ts:131-146 | While the penalties total at most 100, each wild idea and each failure costs exactly its points. |
| Orchestration.PerfectConsensus | src/lib/utils/orchestration-detection.ts:131-210 | The score is 100 exactly when there are no wild ideas and all models succeeded. |
| Orchestration.GetConsensusLevel | src/lib/utils/orchestration-detection.ts:154-158 | High is 70 and up, moderate is 40 to 69, low is below 40, in both directions. |
| Orchestration.GetConsensusColor | src/lib/utils/orchestration-detection.ts:166-170 | Green, yellow and orange cover the same bands, in both directions. |
| Orchestration.LevelAndColorAgree | src/lib/utils/orchestration-detection.ts:154-170 | The color is the color of the level, and two scores share a color exactly when they share a level. |
| PhaseNormalizer.GenericTakeaways | src/lib/utils/phase-normalizer.ts:106-122 | The generic renderer extracts no takeaways, whatever the content. |
| PhaseNormalizer.GenericDecisions | src/lib/utils/phase-normalizer.ts:106-122 | The generic renderer extracts no decisions. |
| PhaseNormalizer.GenericUnknowns | src/lib/utils/phase-normalizer.ts:106-122 | The generic renderer extracts no unknowns. |
| PhaseNormalizer.GenericEvidence | src/lib/utils/phase-normalizer.ts:106-122 | The generic renderer extracts no evidence. |
| PhaseNormalizer.DetermineImportanceLadder | src/lib/utils/phase-normalizer.ts:169-192 | Critical exactly when a critical keyword occurs in the lower-cased question. High exactly when none does but a high keyword does. Low and medium follow the same ladder. |
| PhaseNormalizer.RequiredIsCritical | src/lib/utils/phase-normalizer.ts:169-192 | A question containing "required" is critical. |
| PhaseNormalizer.CategorizeTakeawayLadder | src/lib/utils/phase-normalizer.ts:201-226 | Blocker, risk, opportunity, otherwise insight, each exactly when its keywords are the first to occur. |
| PhaseNormalizer.DetermineImpactLadder | src/lib/utils/phase-normalizer.ts:234-259 | High, then low keywords, otherwise medium, each in both directions. |
| PhaseNormalizer.LaddersIgnoreCase | src/lib/utils/phase-normalizer.ts:169-259 | All three classifiers give the same answer for a text and its lower-cased form. |
| PhaseNormalizer.ImportanceUnderAppend | src/lib/utils/phase-normalizer.ts:169-192 | Text added before or after a question keeps a critical question critical and a critical or high one critical or high. The combined question is medium only when both parts are. |
| PhaseNormalizer.MediumCanBecomeLow | src/lib/utils/phase-normalizer.ts:169-192 | Importance is not monotone under appending: the empty question is medium, while "optional" is low, because medium is the no-keyword default and ranks above the low tier. |
| PhaseDisplay.NormalizePhaseArtifact | src/lib/utils/phase-normalizer.ts:145-160 | The display model keeps the phase and the artifact. For the opportunity phase it holds the four opportunity extractions, and for any other phase it holds none. Any orchestration result has the required shape. |
| PhaseDisplay.EvidenceFromOwnPhase | src/lib/utils/phase-normalizer.ts:145-160 | Every evidence item of a display model names the artifact's own phase as its origin. |
| PhaseDisplay.DisplayIdsDistinct | src/lib/utils/phase-normalizer.ts:145-160 | The takeaways, unknowns and evidence of a display model each have distinct ids. |
| RendererRegistry.GetRendererForPhase | src/lib/renderers/renderer-registry.ts:76-79 | The opportunity renderer is returned exactly for "opportunity". Every other phase gets the generic one. |
| RendererRegistry.GetRendererComponentForPhase | src/lib/renderers/renderer-registry.ts:88-91 | A component is returned exactly for "opportunity". |
| RendererRegistry.GetRegisteredPhases | src/lib/renderers/renderer-registry.ts:51-67 | The registered phases are exactly ["opportunity"]. |
| RendererRegistry.CustomRendererIffRegistered | src/lib/renderers/renderer-registry.ts:40-110 | A phase has a custom renderer exactly when it is registered, and exactly when it has a component. Otherwise it gets the default renderer. |
| RendererRegistry.ExtractTakeaways | src/lib/renderers/renderer-registry.ts:40-67 | Dispatching to the generic renderer yields no takeaways. |
| RendererRegistry.ExtractDecisions | src/lib/renderers/renderer-registry.ts:40-67 | Dispatching to the generic renderer yields no decisions. |
| RendererRegistry.ExtractUnknowns | src/lib/renderers/renderer-registry.ts:40-67 | Dispatching to the generic renderer yields no unknowns. |
| RendererRegistry.ExtractEvidence | src/lib/renderers/renderer-registry.ts:40-67 | Dispatching to the generic renderer yields no evidence. |
| RendererRegistry.OpportunityRendererDelegates | src/lib/renderers/extractors/opportunity-extractor.ts:236-252 | The opportunity renderer's four methods are the four opportunity extractors. |
| OpportunityExtractor.Recommended | src/lib/renderers/extractors/opportunity-extractor.ts:79-93 | A recommended variant exists exactly when `recommendedIndex` is a number inside the variants array, and it is the variant at that index. |
| OpportunityExtractor.ExtractOpportunityTakeaways | src/lib/renderers/extractors/opportunity-extractor.ts:62-130 | The loop-built takeaways equal the specification: the key insight, the recommended variant, high-revenue ideas from the first three, then low-competition ideas from the first two. |
| OpportunityExtractor.PushIdeaTakeaways | src/lib/renderers/extractors/opportunity-extractor.ts:96-127 | The loop appends one takeaway per variant with an idea to what came before. |
| OpportunityExtractor.IdeaTakeawaysAtPositions | src/lib/renderers/extractors/opportunity-extractor.ts:96-127 | The j-th idea takeaway comes from the j-th variant with an idea. Its id carries that variant's position, and its text is the prefix plus the idea. |
| OpportunityExtractor.KeyInsightComesFirst | src/lib/renderers/extractors/opportunity-extractor.ts:62-76 | The first takeaway is the key insight exactly when the content and its `keyInsight` are truthy. It is then a high-impact insight. |
| OpportunityExtractor.RevenueTakeawaysFromTopThree | src/lib/renderers/extractors/opportunity-extractor.ts:96-110 | Revenue takeaways come only from the first three high or very-high revenue variants. There are at most three, with ids by position among those. |
| OpportunityExtractor.CompetitionTakeawaysFromTopTwo | src/lib/renderers/extractors/opportunity-extractor.ts:113-127 | Competition takeaways come only from the first two low-competition variants. There are at most two, with medium impact. |
| OpportunityExtractor.TakeawayIdsDistinct | src/lib/renderers/extractors/opportunity-extractor.ts:62-130 | All takeaway ids are distinct. |
| OpportunityExtractor.IdeaTakeawayIdsDistinct | src/lib/renderers/extractors/opportunity-extractor.ts:96-127 | Idea takeaways of one kind have distinct ids. |
| OpportunityExtractor.RecommendedTakeawayIffDecision | src/lib/renderers/extractors/opportunity-extractor.ts:79-167 | A "recommended" takeaway is listed exactly when a decision is extracted. |
| OpportunityExtractor.RecommendedDecisionExists | src/lib/renderers/extractors/opportunity-extractor.ts:140-167 | A decision is extracted exactly when the content is truthy and the recommended variant exists with a truthy `idea` and a truthy `reasoning`. |
| OpportunityExtractor.ExtractOpportunityDecisions | src/lib/renderers/extractors/opportunity-extractor.ts:140-167 | The method returns the specified decision list. |
| OpportunityExtractor.DecisionConfidence | src/lib/renderers/extractors/opportunity-extractor.ts:140-167 | There is at most one decision. It names the one-based variant number and idea, and it is reversible. Its confidence is high exactly when the revenue potential is HIGH or VERY_HIGH, the feasibility is HIGH and the agentic score is HIGH. Otherwise it is medium. |
| OpportunityExtractor.ExtractOpportunityUnknowns | src/lib/renderers/extractors/opportunity-extractor.ts:178-196 | The loop-built unknowns equal the specification. |
| OpportunityExtractor.UnknownsAreTheQuestions | src/lib/renderers/extractors/opportunity-extractor.ts:178-196 | There is one unknown per non-empty string entry, each such entry included, in order. Its id carries the entry's position, its importance is classified from its text, and it is investigated in customer-intel. Ids are distinct. |
| OpportunityExtractor.RequiredQuestionIsCritical | src/lib/renderers/extractors/opportunity-extractor.ts:178-196 | The single question "required" becomes the critical unknown "unknown-0". |
| OpportunityExtractor.ExtractOpportunityEvidence | src/lib/renderers/extractors/opportunity-extractor.ts:207-230 | The nested loop over variants and sources builds the specified evidence. |
| OpportunityExtractor.PushSourceEvidence | src/lib/renderers/extractors/opportunity-extractor.ts:213-228 | The inner loop appends one evidence item per source with a claim. |
| OpportunityExtractor.EvidenceItems | src/lib/renderers/extractors/opportunity-extractor.ts:207-230 | There is one item per (variant, source) position whose source has a claim. Its id names both positions, the claim and phase are carried over, and url and snippet are present exactly when truthy. Ids are distinct. |
| OpportunityExtractor.EvidencePositionsComplete | src/lib/renderers/extractors/opportunity-extractor.ts:207-230 | Every source with a claim, in every variant, yields an item. |
| OpportunityExtractor.EvidencePositionsOrdered | src/lib/renderers/extractors/opportunity-extractor.ts:207-230 | Evidence appears in variant order, then source order. |
| OpportunityExtractor.FalsyContentExtractsNothing | src/lib/renderers/extractors/opportunity-extractor.ts:62-230 | Falsy content yields no takeaways, decisions, unknowns or evidence. |
| OpportunityExtractor.NoVariantsExtractsNoDecision | src/lib/renderers/extractors/opportunity-extractor.ts:62-230 | Without variants there is no decision and no evidence, and only the key insight can be a takeaway. |
| DepartmentAggregator.MappingKeys | src/lib/services/department-aggregator.ts:25-165 | The mapping table is keyed by the fifteen department ids, in order. |
| DepartmentAggregator.PhaselessDepartments | src/lib/services/department-aggregator.ts:147-165 | The last three departments have no phases and no sections, and they are 0% complete. |
| DepartmentAggregator.AggregateIntoDepartments | src/lib/services/department-aggregator.ts:173-184 | One department view per mapping, in order, each aggregated from its own mapping and id. |
| DepartmentAggregator.AggregateDepartment | src/lib/services/department-aggregator.ts:189-221 | The view takes its title and summary from the department config. It has one section per mapped section, built from that section's sources. Its completeness is 0 to 100, and it is stamped with the given clock. |
| DepartmentAggregator.SectionOf | src/lib/services/department-aggregator.ts:196-209 | A section keeps its name, has one source reference per source, and has no diagrams. |
| DepartmentAggregator.SourceRefs | src/lib/services/department-aggregator.ts:200-207 | Each source reference holds the first dot-separated segment as the phase, and the second segment, if any, as the field. Further segments are dropped. |
| DepartmentAggregator.SourceParts | src/lib/services/department-aggregator.ts:200-207 | The phase has no dot. A field exists exactly when the source has a dot, and the field has no dot. |
| DepartmentAggregator.SourcePartsIgnoreDeeperSegments | src/lib/services/department-aggregator.ts:200-207 | "phase.field.rest" splits into phase and field, and the rest is dropped. |
| DepartmentAggregator.ExtractSectionContent | src/lib/services/department-aggregator.ts:226-253 | The loop collects the items the specification collects. No items gives the placeholder, one gives markdown, more give a list. |
| DepartmentAggregator.CollectItemReadsField | src/lib/services/department-aggregator.ts:232-242 | A source yields an item exactly when its artifact exists, has truthy content and a truthy field. The item is the string itself, or the stringified value. |
| DepartmentAggregator.FalsyFieldDropped | src/lib/services/department-aggregator.ts:232-242 | A field holding 0, false or "" is skipped. |
| DepartmentAggregator.SectionItemsAppend | src/lib/services/department-aggregator.ts:232-242 | Collecting over concatenated sources concatenates the items. |
| DepartmentAggregator.NothingCollectedShowsPlaceholder | src/lib/services/department-aggregator.ts:244-252 | When no source yields, the section shows "_No data available_". |
| DepartmentAggregator.EverythingCollected | src/lib/services/department-aggregator.ts:232-242 | When every source yields, there is one item per source, in order. |
| DepartmentAggregator.SectionShapeByCount | src/lib/services/department-aggregator.ts:244-252 | Zero items give the placeholder, one gives markdown of that item, two or more give a list, in both directions. |
| DepartmentAggregator.GetNestedSingleKey | src/lib/services/department-aggregator.ts:258-265 | A dot-free path reads one key. |
| DepartmentAggregator.GetNestedDescends | src/lib/services/department-aggregator.ts:258-265 | "key.rest" reads the key, then the rest inside it. A missing key stops the walk. |
| DepartmentAggregator.CalculateCompleteness | src/lib/services/department-aggregator.ts:272-281 | With no phases the result is 0. Otherwise it is the share of present phases, rounded half up to a whole percent, within 0 to 100. |
| DepartmentAggregator.CompletenessExtremes | src/lib/services/department-aggregator.ts:272-281 | All phases present gives 100, and none present gives 0. |
| DepartmentAggregator.ArtifactsToMap | src/lib/services/department-aggregator.ts:286-296 | The loop builds the specified phase-keyed map. |
| DepartmentAggregator.ArtifactsMapAbsent | src/lib/services/department-aggregator.ts:286-296 | A phase is absent from the map exactly when no artifact has it. |
| DepartmentAggregator.ArtifactsMapLastWins | src/lib/services/department-aggregator.ts:286-296 | For a phase, the map keeps the last artifact of that phase. |
| RalphSchema.PhaseContent | src/lib/services/ralph-generator.ts:161-176 | A missing artifact reads as an empty object, and truthy content is used as it is. |
| RalphSchema.DeterminePriority | src/lib/services/ralph-generator.ts:332-338 | A missing or empty priority is medium. |
| RalphSchema.DeterminePriorityLadder | src/lib/services/ralph-generator.ts:332-338 | High, then low keywords in the lower-cased text, otherwise medium, each in both directions. |
| RalphSchema.DetermineMetricType | src/lib/services/ralph-generator.ts:723-729 | A missing or empty type is a counter. |
| RalphSchema.DetermineMetricTypeLadder | src/lib/services/ralph-generator.ts:723-729 | Histogram, then gauge keywords, otherwise counter, each in both directions. |
| RalphSchema.DetermineSeverity | src/lib/services/ralph-generator.ts:928-934 | A missing or empty severity is major. |
| RalphSchema.DetermineSeverityLadder | src/lib/services/ralph-generator.ts:928-934 | Critical, then minor keywords, otherwise major, each in both directions. |
| RalphSchema.LaddersIgnoreCase | src/lib/services/ralph-generator.ts:332-934 | Texts that agree when lower-cased get the same priority, metric type and severity. |
| RalphSchema.ExtractAuth | src/lib/services/ralph-generator.ts:550-587 | A provider is reported only for the JWT scheme. |
| RalphSchema.ExtractAuthLadder | src/lib/services/ralph-generator.ts:550-587 | Without an auth-decision object or scheme text, the result is JWT without a provider. Otherwise the scheme is the first tier whose keyword occurs in `type`, or in `method` when `type` is absent or empty, defaulting to JWT. |
| RalphProduct.ExtractProductVision | src/lib/services/ralph-generator.ts:237-255 | Uses the design's vision, else the synthesis summary, else the opportunity's key insight. It is empty exactly when all three are. |
| RalphProduct.PageFeature | src/lib/services/ralph-generator.ts:264-277 | A page yields a feature exactly when it is an object. |
| RalphProduct.ExtractFeatures | src/lib/services/ralph-generator.ts:257-304 | The loops build the specified page features, then the frontend-task features. |
| RalphProduct.PageFeaturesByPosition | src/lib/services/ralph-generator.ts:264-277 | The j-th page feature comes from the j-th object page. |
| RalphProduct.TaskFeaturesAreFrontendTasks | src/lib/services/ralph-generator.ts:280-301 | There is one feature per frontend task, in order. Its id is the task's id or a positional fallback, and its name is the task's title. |
| RalphProduct.ExtractMvpScope | src/lib/services/ralph-generator.ts:306-330 | The method returns the specified scope: the design's string scope, or its string items, or its object's string values in `Object.values` order, then the strategy thesis when non-empty. |
| RalphProduct.MvpScopeIndexKeysFirst | src/lib/services/ralph-generator.ts:318-322 | The object scope `{"later": "B", "1": "A"}` gives A then B: the array-index key is enumerated first. |
| Records.EnumerationOrderShape | src/lib/services/ralph-generator.ts:318-322 | `Object.values` visits every entry once: the array-index entries first, sorted by numeric value, then exactly the other entries in insertion order. |
| Records.EnumerationOrderOfNames | src/lib/services/department-aggregator.ts:178 | Without array-index keys the enumeration order is the insertion order, as for the department mapping table. |
| RalphProduct.PushStrings | src/lib/services/ralph-generator.ts:318-324 | The loop keeps exactly the string values, in order. |
| RalphProduct.MvpScopeShape | src/lib/services/ralph-generator.ts:306-330 | The design scope comes first, and a string scope is the first entry. |
| RalphTechnical.ServiceEntry | src/lib/services/ralph-generator.ts:346-385 | An entry yields a service of its run's type exactly when it is an object or a string. A string entry, such as a workflow given as text, is the service's name, with the run's default description. |
| RalphTechnical.ExtractServices | src/lib/services/ralph-generator.ts:342-398 | The loops build the specified services. |
| RalphTechnical.ServicesInThreeRuns | src/lib/services/ralph-generator.ts:342-398 | The services are the workflow ones, the durable-object ones, then one Pages service when routes exist. |
| RalphTechnical.BindingEntry | src/lib/services/ralph-generator.ts:400-460 | An entry yields a binding of its kind exactly when it is an object. A default name makes the binding named. |
| RalphTechnical.ExtractCloudflareBindings | src/lib/services/ralph-generator.ts:400-470 | The loops build the specified bindings. |
| RalphTechnical.BindingsNamedAndAiLast | src/lib/services/ralph-generator.ts:400-470 | Every listed binding is named and not AI. An AI binding is added last exactly when `wranglerChanges.ai` is truthy. |
| RalphTechnical.ColumnField | src/lib/services/ralph-generator.ts:490-498 | A column yields a field exactly when it is an object, and the field always has a type. |
| RalphTechnical.TableEntity | src/lib/services/ralph-generator.ts:502-505 | A table yields an entity exactly when it is an object, and the entity is named. |
| RalphTechnical.DataModel | src/lib/services/ralph-generator.ts:472-512 | No relationships are extracted. |
| RalphTechnical.ExtractDataModel | src/lib/services/ralph-generator.ts:472-512 | The nested loops build the specified data model. |
| RalphTechnical.EntityFieldsTyped | src/lib/services/ralph-generator.ts:490-505 | Every field of every entity has a type and comes from a column object. |
| RalphTechnical.EndpointEntry | src/lib/services/ralph-generator.ts:514-548 | A route yields an endpoint exactly when it is an object or a string. |
| RalphTechnical.ExtractEndpoints | src/lib/services/ralph-generator.ts:514-548 | The loop builds the specified endpoints. |
| RalphTechnical.MethodAndPathRoute | src/lib/services/ralph-generator.ts:527-542 | "METHOD path" becomes an endpoint with that method and path. |
| RalphTechnical.StringRouteSplitsOnOneSpace | src/lib/services/ralph-generator.ts:527-542 | A text route is split only when it has exactly one space. Otherwise the whole text is a GET path. |
| RalphBusiness.ExtractBusinessModel | src/lib/services/ralph-generator.ts:591-608 | The model type, else the revenue model, else the expansion's primary model, else "Unknown". The result is never empty. |
| RalphBusiness.PriceOf | src/lib/services/ralph-generator.ts:617-654 | A numeric price is kept, and anything else is 0. |
| RalphBusiness.BusinessModelTier | src/lib/services/ralph-generator.ts:617-637 | A tier entry counts exactly when it is an object or a string. |
| RalphBusiness.RevenueExpansionTier | src/lib/services/ralph-generator.ts:640-654 | An expansion tier counts exactly when it is an object. |
| RalphBusiness.ExtractPricingTiers | src/lib/services/ralph-generator.ts:610-657 | The loops build the specified tiers. |
| RalphBusiness.PricingFallbackOnlyWhenEmpty | src/lib/services/ralph-generator.ts:610-657 | The expansion's tiers are read only when the business model yields none. |
| RalphBusiness.TierShapes | src/lib/services/ralph-generator.ts:617-654 | Every tier is named, or is a text tier priced 0 without features. |
| RalphBusiness.KpiMetric | src/lib/services/ralph-generator.ts:666-684 | A KPI counts exactly when it is an object or a string. A text KPI is a counter named by the text. |
| RalphBusiness.DashboardMetric | src/lib/services/ralph-generator.ts:687-699 | A dashboard entry counts exactly when it is an object. |
| RalphBusiness.AddSuccessMetrics | src/lib/services/ralph-generator.ts:702-718 | The loop appends the success metrics as the specification does. |
| RalphBusiness.ExtractMetrics | src/lib/services/ralph-generator.ts:659-721 | The loops build the specified metrics: KPIs, dashboards, then new success metrics. |
| RalphBusiness.SuccessMetricsAreNew | src/lib/services/ralph-generator.ts:702-718 | Each added success metric is a gauge whose name no earlier metric has. |
| RalphBusiness.SuccessMetricsCovered | src/lib/services/ralph-generator.ts:702-718 | Every named success metric ends up listed, whether added or already there. |
| RalphExecution.MakeTask | src/lib/services/ralph-generator.ts:737-766 | A task without an id gets "task-n" or "marketing-task-n" from its position, and every task has a title. |
| RalphExecution.PushTasks | src/lib/services/ralph-generator.ts:737-766 | The loop appends one task per object entry. |
| RalphExecution.ExtractTasks | src/lib/services/ralph-generator.ts:733-769 | The loops build the specified task list. |
| RalphExecution.PushedTasksCount | src/lib/services/ralph-generator.ts:737-766 | Exactly one task is added per object entry. |
| RalphExecution.PushedTaskAt | src/lib/services/ralph-generator.ts:737-766 | The task at each position is built from the matching object entry and numbered by its overall position. |
| RalphExecution.TasksFromObjects | src/lib/services/ralph-generator.ts:733-769 | There is one task per task object, code objects first. The task at position j is made from the j-th object with count j, as a marketing task exactly when the object is a marketing one. |
| RalphExecution.FallbackIdsDistinct | src/lib/services/ralph-generator.ts:737-766 | Two tasks whose objects give no non-empty string `id` get different ids, whether each is a code or a marketing task. |
| RalphExecution.TasksCodeThenMarketing | src/lib/services/ralph-generator.ts:733-769 | Code tasks come first. Then there is one marketing-phase task per marketing object. |
| RalphExecution.DependencyOf | src/lib/services/ralph-generator.ts:771-796 | A dependency names its task's non-empty id and at least one prerequisite. |
| RalphExecution.DependencyOfWhen | src/lib/services/ralph-generator.ts:771-796 | A dependency is recorded exactly when the task is an object with a non-empty id and at least one string dependency. |
| RalphExecution.ExtractDependencies | src/lib/services/ralph-generator.ts:771-796 | The loop builds the specified dependencies. |
| RalphExecution.DependenciesFromTasks | src/lib/services/ralph-generator.ts:771-796 | Each dependency comes from some task: its id, and that task's string dependencies. |
| RalphExecution.PhaseMilestone | src/lib/services/ralph-generator.ts:805-820 | A build phase yields a milestone exactly when it is an object with a non-empty name, and it has one criterion. |
| RalphExecution.ExtractMilestones | src/lib/services/ralph-generator.ts:798-846 | The loops build the specified milestones. |
| RalphExecution.PhaseMilestonesNamed | src/lib/services/ralph-generator.ts:805-820 | Each build-phase milestone is named after a build phase, and its one criterion says that phase's tasks are complete. |
| RalphValidation.KillConditionOf | src/lib/services/ralph-generator.ts:850-872 | A condition counts exactly when it is an object or a string. A text is a major condition, and an object takes `condition` or else `description`. |
| RalphValidation.ExtractKillConditions | src/lib/services/ralph-generator.ts:850-872 | The loop builds the specified kill conditions. |
| RalphValidation.TextKillConditionsAreMajor | src/lib/services/ralph-generator.ts:850-872 | A list of texts gives one major condition per text, in order. |
| RalphValidation.RevenueKillConditionIsMajor | src/lib/services/ralph-generator.ts:850-872 | The condition "Revenue < $10k for 3 months" is read as major. |
| RalphValidation.KillTestAssumption | src/lib/services/ralph-generator.ts:881-897 | An assumption counts exactly when it is an object or a string, and a text has no validation. |
| RalphValidation.ExtractAssumptions | src/lib/services/ralph-generator.ts:874-926 | The loops build the specified assumptions. |
| RalphValidation.StrategyAssumptionsAreNew | src/lib/services/ralph-generator.ts:900-923 | Each added strategy assumption has a text no earlier assumption has. |
| RalphValidation.StrategyAssumptionsCovered | src/lib/services/ralph-generator.ts:900-923 | Every strategy assumption with a text ends up listed under that text. |
| RalphValidation.KillTestAssumptionsFirst | src/lib/services/ralph-generator.ts:874-926 | The kill-test assumptions are kept as a prefix, and a strategy assumption whose text they already have is dropped. |
| RalphGenerator.AverageConfidence | src/lib/services/ralph-generator.ts:936-943 | Without numeric scores the confidence is 0. |
| RalphGenerator.ConfidenceWithinScores | src/lib/services/ralph-generator.ts:936-943 | The confidence lies between the lowest and highest numeric score. |
| RalphGenerator.ConfidenceOfEqualScores | src/lib/services/ralph-generator.ts:936-943 | Equal scores average to that score. |
| RalphGenerator.CompletenessScale | src/lib/services/ralph-generator.ts:945-949 | The percentage is 0 for no artifacts, 94 for fifteen and 100 for sixteen. It exceeds 100 beyond sixteen and is not clamped. |
| RalphGenerator.GenerateRalphLoopJSON | src/lib/services/ralph-generator.ts:156-221 | The method builds the specified payload from the per-phase contents. |
| RalphGenerator.EmptyRunPayload | src/lib/services/ralph-generator.ts:156-221 | With no artifacts, every group is empty or at its default: JWT auth, model "Unknown", confidence and completeness 0. |
| RalphGenerator.PayloadIgnoresClockAndRunId | src/lib/services/ralph-generator.ts:179-184 | The clock and run id only fill the metadata. Nothing else depends on them. |

## Left out

- Floating point. Scores, prices and durations are integers. Every `Math.round(x / n)` is modelled
  as exact rational rounding half up (`Numbers.RoundDiv`). A department's completeness
  `Math.round(k / n * 100)` becomes the rounded `100k / n`, which can differ from the
  floating-point product at exact halves.
- Clocks, locales and serialization. `Date.now()`, `toLocaleDateString`, `toLocaleString`,
  `toISOString` and `JSON.stringify` are parameters: the current time, and functions from
  milliseconds or values to text. Their output formats are not modelled. The department
  aggregation takes one clock reading for all fifteen views, where the source calls
  `Date.now()` once per department, so the source's stamps can differ by a few milliseconds.
- Duplicate keys in JSON text. `JSON.parse` keeps the last value of a repeated key, while the
  model's lookup reads the first entry.
- The prose of the documentation, stage and department tables (titles, descriptions, icons,
  example lists). Only their keys, orders and the fields the core reads are modelled.
- Svelte components. The registry's component is an opaque token. Rendering, styling and the
  user interface are not modelled.
- Values of the wrong type where the source would throw are treated as absent. Examples: a
  truthy non-array `sources`, a truthy non-string unknown, or a null entry in `modelOutputs`.
- OpportunityExtractor.ExtractOpportunityDecisions: a truthy `refinedOpportunities` that is not an
  array is treated as having no variants. The source does not throw there. It indexes the value,
  so an object such as `{"0": {...}}` with `recommendedIndex` 0 yields a decision in the source
  and none in the model.
- PlanningPhases.NormalizePlanningPhase: the alias table is a plain object, so the source's lookup
  also finds inherited keys. For "constructor", "toString" or "__proto__" it returns a non-null
  value that is not a phase. The model returns none for every unlisted name, so its promise that
  any result is a workflow phase does not cover those names.
- Property reads on arrays (indices, `length`) are not modelled otherwise.
- OpportunityExtractor.FieldText: `keyInsight`, `reasoning`, `claim`, `url` and `snippet` are read
  as text through JavaScript's string conversion. The source copies the raw value. The two agree
  on strings, which is what the artifact schema holds there, and differ only on a non-string value.
- DepartmentAggregator.CollectItem: a source without a dot contributes nothing, where the source
  throws inside `getNestedValue`. Every source in the department mapping table has a dot.
- Text handling is ASCII only. `toLowerCase` lower-cases A to Z, with no Unicode case folding.
- Keyed records are assumed to have distinct keys where the source builds them from objects. The
  build-handoff functions over the artifact record require `Records.DistinctKeys`.
- DepartmentAggregator.AggregateIntoDepartments takes the department mapping table as a
  parameter rather than reading the fixed table. `MappingKeys` and `PhaselessDepartments` state
  what that table holds.
- RalphGenerator.CompletenessScale: the source divides the artifact count by 16, although there
  are fifteen phase names. Task-reconciliation artifacts may be the sixteenth. The model keeps
  the 16, and with more than sixteen artifacts the result exceeds 100.
- RalphBusiness.ExtractMetrics reads the go-to-market success metrics from the artifact keyed
  literally "gtm", as the source does, not from "gtm-marketing". The customer-intel,
  market-research, competitive-intel and content-engine contents are looked up by the generator
  but never used, so the model does not read them.
- RalphValidation.ExtractAssumptions adds a bare strategy text even when it is empty, as the
  source does. Only object assumptions need a non-empty text.
- PhaseNormalizer.DetermineImportanceLadder follows the code, where "required" is a critical
  keyword.
- `performance.ts`, the server modules, the routes and the component tests are not part of this
  model.
