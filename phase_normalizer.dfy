/**
 * The normalized display records extracted from a phase artifact (takeaways, decisions,
 * unknowns, evidence), the generic renderer used for phases without an extractor of their
 * own, and the keyword ladders that grade free text.
 */
module PhaseNormalizer {
  import opened Wrappers
  import Text
  import Keywords

  datatype Category = Insight | Risk | Opportunity | Blocker

  /** The three-step scale used for impact and for confidence. */
  datatype Level = High | Medium | Low

  datatype Importance = Critical | High | Medium | Low

  datatype Reversibility = Reversible | OneWayDoor

  datatype Takeaway = Takeaway(id: string, text: string, category: Category, impact: Level)

  datatype Decision = Decision(id: string, decision: string, rationale: string, confidence: Level, reversibility: Reversibility)

  datatype Unknown = Unknown(id: string, question: string, importance: Importance, investigationPhase: Option<string>)

  datatype Evidence = Evidence(id: string, claim: string, url: Option<string>, snippet: Option<string>, phaseOrigin: string)

  /** The generic renderer extracts nothing, whatever the content. */
  function GenericTakeaways<C>(content: C): (r: seq<Takeaway>)
    ensures r == []
  {
    []
  }

  function GenericDecisions<C>(content: C): (r: seq<Decision>)
    ensures r == []
  {
    []
  }

  function GenericUnknowns<C>(content: C): (r: seq<Unknown>)
    ensures r == []
  {
    []
  }

  function GenericEvidence<C>(content: C, phase: string): (r: seq<Evidence>)
    ensures r == []
  {
    []
  }

  // ─── Importance of an open question ──────────────────────────────────────

  const CriticalKeywords: seq<string> := ["critical", "fatal", "blocker", "must", "required", "essential"]
  const HighImportanceKeywords: seq<string> := ["important", "significant", "major", "key", "core"]
  const LowImportanceKeywords: seq<string> := ["minor", "nice to have", "optional", "future"]

  const ImportanceTiers: seq<Keywords.Tier<Importance>> := [
    (CriticalKeywords, Importance.Critical),
    (HighImportanceKeywords, Importance.High),
    (LowImportanceKeywords, Importance.Low)
  ]

  function DetermineImportance(question: string): Importance {
    Keywords.Ladder(Text.Lower(question), ImportanceTiers, Importance.Medium)
  }

  /** Critical words win over important ones, which win over minor ones; anything else is medium. */
  lemma DetermineImportanceLadder(question: string)
    ensures var lower, r := Text.Lower(question), DetermineImportance(question);
      (r == Importance.Critical <==> Text.ContainsAny(lower, CriticalKeywords)) &&
      (r == Importance.High <==> !Text.ContainsAny(lower, CriticalKeywords) && Text.ContainsAny(lower, HighImportanceKeywords)) &&
      (r == Importance.Low <==> !Text.ContainsAny(lower, CriticalKeywords) && !Text.ContainsAny(lower, HighImportanceKeywords) &&
                                Text.ContainsAny(lower, LowImportanceKeywords)) &&
      (r == Importance.Medium <==> !Text.ContainsAny(lower, CriticalKeywords) && !Text.ContainsAny(lower, HighImportanceKeywords) &&
                                   !Text.ContainsAny(lower, LowImportanceKeywords))
  {
    var lower := Text.Lower(question);
    Keywords.LadderIsFirstMatch(lower, ImportanceTiers, Importance.Medium);
    var k := Keywords.TierOf(lower, ImportanceTiers);
    assert k < 3 ==> Text.ContainsAny(lower, ImportanceTiers[k].0);
    assert k >= 1 ==> !Text.ContainsAny(lower, ImportanceTiers[0].0);
    assert k >= 2 ==> !Text.ContainsAny(lower, ImportanceTiers[1].0);
    assert k >= 3 ==> !Text.ContainsAny(lower, ImportanceTiers[2].0);
  }

  /** A question that states a requirement is critical. */
  lemma RequiredIsCritical()
    ensures DetermineImportance("required") == Importance.Critical
  {
    assert Text.Lower("required") == "required";
    assert Text.Contains("required", CriticalKeywords[4]);
    Keywords.LadderIsFirstMatch("required", ImportanceTiers, Importance.Medium);
  }

  // ─── Category of a takeaway ──────────────────────────────────────────────

  const BlockerKeywords: seq<string> := ["blocker", "cannot", "impossible", "prevented", "blocked"]
  const RiskKeywords: seq<string> := ["risk", "concern", "threat", "danger", "warning", "problem"]
  const OpportunityKeywords: seq<string> := ["opportunity", "potential", "advantage", "could", "possible"]

  const CategoryTiers: seq<Keywords.Tier<Category>> := [
    (BlockerKeywords, Blocker),
    (RiskKeywords, Risk),
    (OpportunityKeywords, Opportunity)
  ]

  function CategorizeTakeaway(text: string): Category {
    Keywords.Ladder(Text.Lower(text), CategoryTiers, Insight)
  }

  /** Blocker words win over risk words, which win over opportunity words; anything else is an insight. */
  lemma CategorizeTakeawayLadder(text: string)
    ensures var lower, r := Text.Lower(text), CategorizeTakeaway(text);
      (r == Blocker <==> Text.ContainsAny(lower, BlockerKeywords)) &&
      (r == Risk <==> !Text.ContainsAny(lower, BlockerKeywords) && Text.ContainsAny(lower, RiskKeywords)) &&
      (r == Opportunity <==> !Text.ContainsAny(lower, BlockerKeywords) && !Text.ContainsAny(lower, RiskKeywords) &&
                             Text.ContainsAny(lower, OpportunityKeywords)) &&
      (r == Insight <==> !Text.ContainsAny(lower, BlockerKeywords) && !Text.ContainsAny(lower, RiskKeywords) &&
                         !Text.ContainsAny(lower, OpportunityKeywords))
  {
    var lower := Text.Lower(text);
    Keywords.LadderIsFirstMatch(lower, CategoryTiers, Insight);
    var k := Keywords.TierOf(lower, CategoryTiers);
    assert k < 3 ==> Text.ContainsAny(lower, CategoryTiers[k].0);
    assert k >= 1 ==> !Text.ContainsAny(lower, CategoryTiers[0].0);
    assert k >= 2 ==> !Text.ContainsAny(lower, CategoryTiers[1].0);
    assert k >= 3 ==> !Text.ContainsAny(lower, CategoryTiers[2].0);
  }

  // ─── Impact of a statement ───────────────────────────────────────────────

  const HighImpactKeywords: seq<string> := ["critical", "major", "significant", "substantial", "high", "large", "massive"]
  const LowImpactKeywords: seq<string> := ["minor", "small", "minimal", "slight", "low"]

  const ImpactTiers: seq<Keywords.Tier<Level>> := [
    (HighImpactKeywords, Level.High),
    (LowImpactKeywords, Level.Low)
  ]

  function DetermineImpact(text: string): Level {
    Keywords.Ladder(Text.Lower(text), ImpactTiers, Level.Medium)
  }

  /** High-impact words win over low-impact ones; anything else is medium. */
  lemma DetermineImpactLadder(text: string)
    ensures var lower, r := Text.Lower(text), DetermineImpact(text);
      (r == Level.High <==> Text.ContainsAny(lower, HighImpactKeywords)) &&
      (r == Level.Low <==> !Text.ContainsAny(lower, HighImpactKeywords) && Text.ContainsAny(lower, LowImpactKeywords)) &&
      (r == Level.Medium <==> !Text.ContainsAny(lower, HighImpactKeywords) && !Text.ContainsAny(lower, LowImpactKeywords))
  {
    Keywords.LadderIsFirstMatch(Text.Lower(text), ImpactTiers, Level.Medium);
  }

  // ─── Properties shared by the three ladders ──────────────────────────────

  /** The grading ignores letter case: lowercasing the text first changes nothing. */
  lemma LaddersIgnoreCase(text: string)
    ensures DetermineImportance(Text.Lower(text)) == DetermineImportance(text)
    ensures CategorizeTakeaway(Text.Lower(text)) == CategorizeTakeaway(text)
    ensures DetermineImpact(Text.Lower(text)) == DetermineImpact(text)
  {
    Text.LowerIdempotent(text);
  }

  /**
   * Adding text before or after a question keeps every keyword it had, so a critical question
   * stays critical, a critical or high one stays critical or high, and the combined question is
   * medium only when both parts are. A medium question can still become low, because medium is
   * the default for "no keyword" and ranks above the low tier (see `MediumCanBecomeLow`).
   */
  lemma ImportanceUnderAppend(a: string, b: string)
    ensures DetermineImportance(a) == Importance.Critical || DetermineImportance(b) == Importance.Critical ==>
      DetermineImportance(a + b) == Importance.Critical
    ensures DetermineImportance(a) in {Importance.Critical, Importance.High} ||
            DetermineImportance(b) in {Importance.Critical, Importance.High} ==>
      DetermineImportance(a + b) in {Importance.Critical, Importance.High}
    ensures DetermineImportance(a + b) == Importance.Medium ==>
      DetermineImportance(a) == Importance.Medium && DetermineImportance(b) == Importance.Medium
  {
    var la, lb := Text.Lower(a), Text.Lower(b);
    Text.LowerAppend(a, b);
    Keywords.TierOfAppend(la, lb, ImportanceTiers);
    Keywords.LadderIsFirstMatch(la, ImportanceTiers, Importance.Medium);
    Keywords.LadderIsFirstMatch(lb, ImportanceTiers, Importance.Medium);
    Keywords.LadderIsFirstMatch(la + lb, ImportanceTiers, Importance.Medium);
  }

  /** The ladder is not monotone in importance: an empty question is medium, "optional" is low. */
  lemma MediumCanBecomeLow()
    ensures DetermineImportance("") == Importance.Medium
    ensures DetermineImportance("" + "optional") == Importance.Low
  {
    DetermineImportanceLadder("");
    var o := "optional";
    assert "" + o == o;
    assert Text.Lower(o) == o;
    OptionalIsOnlyLow();
    Keywords.TierOfUnique(o, ImportanceTiers, 2);
    Keywords.LadderIsFirstMatch(o, ImportanceTiers, Importance.Medium);
  }

  /** "optional" holds a low-importance keyword and no critical or high one. */
  lemma OptionalIsOnlyLow()
    ensures !Text.ContainsAny("optional", ImportanceTiers[0].0)
    ensures !Text.ContainsAny("optional", ImportanceTiers[1].0)
    ensures Text.ContainsAny("optional", ImportanceTiers[2].0)
  {
    var o := "optional";
    forall i | 0 <= i < |CriticalKeywords| ensures !Text.Contains(o, CriticalKeywords[i]) {
      Text.NotContainsFirstChar(o, CriticalKeywords[i]);
    }
    forall i | 1 <= i < |HighImportanceKeywords| ensures !Text.Contains(o, HighImportanceKeywords[i]) {
      Text.NotContainsFirstChar(o, HighImportanceKeywords[i]);
    }
    Text.ContainsIffOccurs(o, HighImportanceKeywords[0]);
    assert Text.Contains(o, LowImportanceKeywords[2]);
  }
}
