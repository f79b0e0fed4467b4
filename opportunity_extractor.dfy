/**
 * The extractor for opportunity-analysis artifacts: takeaways, the recommended-variant
 * decision, open questions and evidence, read from the artifact content. Each extractor is a
 * method that builds its list element by element, proved equal to a specification function;
 * the properties the extractor promises are lemmas about those functions.
 *
 * A content field of the wrong JSON type, where the extractor would throw, is read as absent:
 * a `refinedOpportunities`, `unknowns` or `sources` that is not an array holds no elements, and
 * an open question that is not a string is skipped.
 */
module OpportunityExtractor {
  import opened Wrappers
  import Text
  import Seqs
  import opened Json
  import opened PhaseNormalizer

  // ─── Reading the content ─────────────────────────────────────────────────

  /** The refined opportunity variants. */
  function Variants(content: JValue): seq<JValue> {
    ArrayAt(content, "refinedOpportunities")
  }

  /**
   * The text a template literal shows for a field that is present. The source copies
   * `keyInsight`, `reasoning`, `claim`, `url` and `snippet` as raw values rather than as text.
   * Both agree on the strings the artifact schema puts there. A non-string value in those
   * fields reads here as its string form.
   */
  function FieldText(v: JValue, k: string): string
    requires Get(v, k).Some?
  {
    JsToString(Get(v, k).value)
  }

  predicate HasIdea(v: JValue) {
    TruthyOpt(Get(v, "idea"))
  }

  /** A variant with both an idea and a reasoning, the only kind that can be recommended. */
  predicate Presentable(v: JValue) {
    HasIdea(v) && TruthyOpt(Get(v, "reasoning"))
  }

  predicate IsHighRevenue(v: JValue) {
    Get(v, "revenuePotential") == Some(JString("VERY_HIGH")) || Get(v, "revenuePotential") == Some(JString("HIGH"))
  }

  predicate IsLowCompetition(v: JValue) {
    Get(v, "competitionDensity") == Some(JString("LOW"))
  }

  predicate HasHighScores(v: JValue) {
    IsHighRevenue(v) && Get(v, "feasibility") == Some(JString("HIGH")) && Get(v, "agenticScore") == Some(JString("HIGH"))
  }

  /**
   * The variant `recommendedIndex` selects, with its index: the index must be a non-negative
   * number inside the list of variants.
   */
  function Recommended(content: JValue): (r: Option<(nat, JValue)>)
    ensures r.Some? <==>
      Get(content, "recommendedIndex").Some? && Get(content, "recommendedIndex").value.JNum? &&
      0 <= Get(content, "recommendedIndex").value.n < |Variants(content)|
    ensures r.Some? ==>
      Get(content, "recommendedIndex") == Some(JNum(r.value.0)) &&
      r.value.0 < |Variants(content)| && r.value.1 == Variants(content)[r.value.0]
  {
    var vs := Variants(content);
    match Get(content, "recommendedIndex")
    case Some(JNum(n)) => if 0 <= n < |vs| then Some((n, vs[n])) else None
    case _ => None
  }

  // ─── Takeaways ───────────────────────────────────────────────────────────

  function KeyInsightTakeaway(content: JValue): seq<Takeaway> {
    if TruthyOpt(Get(content, "keyInsight")) then [Takeaway("key-insight", FieldText(content, "keyInsight"), Insight, Level.High)]
    else []
  }

  function RecommendedTakeaway(content: JValue): seq<Takeaway> {
    match Recommended(content)
    case Some((_, v)) =>
      if Presentable(v) then [Takeaway("recommended", "Recommended: " + FieldText(v, "idea") + " - " + FieldText(v, "reasoning"), Opportunity, Level.High)]
      else []
    case None => []
  }

  /**
   * One opportunity takeaway per variant with an idea, numbered by its position in `vs`
   * (variants without an idea leave a gap in the numbering).
   */
  function IdeaTakeaways(vs: seq<JValue>, idPrefix: string, textPrefix: string, impact: Level): (r: seq<Takeaway>)
    ensures |r| <= |vs|
  {
    if vs == [] then []
    else
      var n := |vs| - 1;
      var rest := IdeaTakeaways(vs[..n], idPrefix, textPrefix, impact);
      if HasIdea(vs[n]) then rest + [Takeaway(idPrefix + Text.NatToString(n), textPrefix + FieldText(vs[n], "idea"), Opportunity, impact)]
      else rest
  }

  /** The idea takeaways are exactly the variants with an idea, read at their positions. */
  lemma {:induction false} IdeaTakeawaysAtPositions(vs: seq<JValue>, idPrefix: string, textPrefix: string, impact: Level)
    ensures var r, ps := IdeaTakeaways(vs, idPrefix, textPrefix, impact), Seqs.Positions(vs, HasIdea);
      |r| == |ps| &&
      forall j :: 0 <= j < |r| ==>
        r[j] == Takeaway(idPrefix + Text.NatToString(ps[j]), textPrefix + FieldText(vs[ps[j]], "idea"), Opportunity, impact)
  {
    if vs != [] {
      var n := |vs| - 1;
      IdeaTakeawaysAtPositions(vs[..n], idPrefix, textPrefix, impact);
      var r, ps := IdeaTakeaways(vs, idPrefix, textPrefix, impact), Seqs.Positions(vs, HasIdea);
      var r', ps' := IdeaTakeaways(vs[..n], idPrefix, textPrefix, impact), Seqs.Positions(vs[..n], HasIdea);
      if HasIdea(vs[n]) {
        assert ps == ps' + [n];
      } else {
        assert r == r' && ps == ps';
      }
      forall j | 0 <= j < |r'|
        ensures r[j] == Takeaway(idPrefix + Text.NatToString(ps[j]), textPrefix + FieldText(vs[ps[j]], "idea"), Opportunity, impact)
      {
        assert r[j] == r'[j] && ps[j] == ps'[j] && vs[..n][ps'[j]] == vs[ps'[j]];
      }
    }
  }


  /** The first three high-revenue variants. */
  function RevenueTakeaways(content: JValue): seq<Takeaway> {
    IdeaTakeaways(Seqs.Take(Seqs.Filter(Variants(content), IsHighRevenue), 3), "revenue-", "High revenue potential: ", Level.High)
  }

  /** The first two low-competition variants. */
  function CompetitionTakeaways(content: JValue): seq<Takeaway> {
    IdeaTakeaways(Seqs.Take(Seqs.Filter(Variants(content), IsLowCompetition), 2), "competition-", "Low competition opportunity: ", Level.Medium)
  }

  function OpportunityTakeaways(content: JValue): seq<Takeaway> {
    if !Truthy(content) then []
    else KeyInsightTakeaway(content) + RecommendedTakeaway(content) + RevenueTakeaways(content) + CompetitionTakeaways(content)
  }

  /** Pushes the idea takeaways of `vs` onto `acc`, visiting the variants in order. */
  method PushIdeaTakeaways(acc: seq<Takeaway>, vs: seq<JValue>, idPrefix: string, textPrefix: string, impact: Level)
    returns (r: seq<Takeaway>)
    ensures r == acc + IdeaTakeaways(vs, idPrefix, textPrefix, impact)
  {
    r := acc;
    var i := 0;
    while i < |vs|
      invariant 0 <= i <= |vs|
      invariant r == acc + IdeaTakeaways(vs[..i], idPrefix, textPrefix, impact)
    {
      assert vs[..i + 1][..i] == vs[..i];
      var o := vs[i];
      if HasIdea(o) {
        r := r + [Takeaway(idPrefix + Text.NatToString(i), textPrefix + FieldText(o, "idea"), Opportunity, impact)];
      }
      i := i + 1;
    }
    assert vs[..|vs|] == vs;
  }

  method ExtractOpportunityTakeaways(content: JValue) returns (takeaways: seq<Takeaway>)
    ensures takeaways == OpportunityTakeaways(content)
  {
    takeaways := [];
    if !Truthy(content) {
      return;
    }
    if TruthyOpt(Get(content, "keyInsight")) {
      takeaways := takeaways + [Takeaway("key-insight", FieldText(content, "keyInsight"), Insight, Level.High)];
    }
    assert takeaways == KeyInsightTakeaway(content);
    var variants := Variants(content);
    var index := Get(content, "recommendedIndex");
    if IsArrayAt(content, "refinedOpportunities") && index.Some? && index.value.JNum? && index.value.n >= 0 {
      if index.value.n < |variants| {
        var recommended := variants[index.value.n];
        if Presentable(recommended) {
          takeaways := takeaways + [Takeaway("recommended", "Recommended: " + FieldText(recommended, "idea") + " - " + FieldText(recommended, "reasoning"), Opportunity, Level.High)];
        }
      }
    }
    assert takeaways == KeyInsightTakeaway(content) + RecommendedTakeaway(content);
    takeaways := PushIdeaTakeaways(takeaways, Seqs.Take(Seqs.Filter(variants, IsHighRevenue), 3), "revenue-", "High revenue potential: ", Level.High);
    takeaways := PushIdeaTakeaways(takeaways, Seqs.Take(Seqs.Filter(variants, IsLowCompetition), 2), "competition-", "Low competition opportunity: ", Level.Medium);
  }

  // ─── Decisions ───────────────────────────────────────────────────────────

  function RecommendedDecision(index: nat, v: JValue): Decision
    requires Presentable(v)
  {
    Decision(
      "recommended-variant",
      "Pursue opportunity variant #" + Text.NatToString(index + 1) + ": " + FieldText(v, "idea"),
      FieldText(v, "reasoning"),
      if HasHighScores(v) then Level.High else Level.Medium,
      Reversible)
  }

  function OpportunityDecisions(content: JValue): seq<Decision> {
    if !Truthy(content) then []
    else
      match Recommended(content)
      case Some((i, v)) => if Presentable(v) then [RecommendedDecision(i, v)] else []
      case None => []
  }

  method ExtractOpportunityDecisions(content: JValue) returns (decisions: seq<Decision>)
    ensures decisions == OpportunityDecisions(content)
  {
    decisions := [];
    if !Truthy(content) || !TruthyOpt(Get(content, "refinedOpportunities")) {
      return;
    }
    var variants := Variants(content);
    var index := Get(content, "recommendedIndex");
    if index.Some? && index.value.JNum? && index.value.n >= 0 && index.value.n < |variants| {
      var recommended := variants[index.value.n];
      if Presentable(recommended) {
        decisions := decisions + [RecommendedDecision(index.value.n, recommended)];
      }
    }
  }

  // ─── Unknowns ────────────────────────────────────────────────────────────

  /** An entry of `unknowns` that becomes a question: a non-empty string. */
  predicate IsQuestion(u: JValue) {
    u.JString? && u.s != ""
  }

  function UnknownAt(i: nat, question: string): Unknown {
    Unknown("unknown-" + Text.NatToString(i), question, DetermineImportance(question), Some("customer-intel"))
  }

  /** One unknown per question, numbered by its position among all entries. */
  function UnknownsOf(xs: seq<JValue>): (r: seq<Unknown>)
    ensures |r| <= |xs|
  {
    if xs == [] then []
    else
      var n := |xs| - 1;
      var rest := UnknownsOf(xs[..n]);
      if IsQuestion(xs[n]) then rest + [UnknownAt(n, xs[n].s)] else rest
  }

  /** The unknowns are exactly the questions, read at their positions. */
  lemma {:induction false} UnknownsAtPositions(xs: seq<JValue>)
    ensures var r, ps := UnknownsOf(xs), Seqs.Positions(xs, IsQuestion);
      |r| == |ps| && forall j :: 0 <= j < |r| ==> r[j] == UnknownAt(ps[j], xs[ps[j]].s)
  {
    if xs != [] {
      UnknownsAtPositions(xs[..|xs| - 1]);
    }
  }

  function OpportunityUnknowns(content: JValue): seq<Unknown> {
    if !Truthy(content) then [] else UnknownsOf(ArrayAt(content, "unknowns"))
  }

  method ExtractOpportunityUnknowns(content: JValue) returns (unknowns: seq<Unknown>)
    ensures unknowns == OpportunityUnknowns(content)
  {
    unknowns := [];
    if !Truthy(content) || !TruthyOpt(Get(content, "unknowns")) {
      return;
    }
    var xs := ArrayAt(content, "unknowns");
    var i := 0;
    while i < |xs|
      invariant 0 <= i <= |xs|
      invariant unknowns == UnknownsOf(xs[..i])
    {
      assert xs[..i + 1][..i] == xs[..i];
      if IsQuestion(xs[i]) {
        unknowns := unknowns + [UnknownAt(i, xs[i].s)];
      }
      i := i + 1;
    }
    assert xs[..|xs|] == xs;
  }

  // ─── Evidence ────────────────────────────────────────────────────────────

  function Sources(variant: JValue): seq<JValue> {
    ArrayAt(variant, "sources")
  }

  predicate HasClaim(source: JValue) {
    TruthyOpt(Get(source, "claim"))
  }

  /** `source[k] || undefined`. */
  function OptionalText(source: JValue, k: string): (r: Option<string>)
    ensures r.Some? <==> TruthyOpt(Get(source, k))
  {
    if TruthyOpt(Get(source, k)) then Some(FieldText(source, k)) else None
  }

  function EvidenceId(vi: nat, si: nat): string {
    "evidence-" + Text.NatToString(vi) + "-" + Text.NatToString(si)
  }

  function EvidenceItem(vi: nat, si: nat, source: JValue, phase: string): Evidence
    requires HasClaim(source)
  {
    Evidence(EvidenceId(vi, si), FieldText(source, "claim"), OptionalText(source, "url"), OptionalText(source, "snippet"), phase)
  }

  /** The evidence of variant `vi`: one item per source with a claim, numbered by source position. */
  function SourceEvidence(vi: nat, sources: seq<JValue>, phase: string): (r: seq<Evidence>)
    ensures |r| <= |sources|
  {
    if sources == [] then []
    else
      var n := |sources| - 1;
      var rest := SourceEvidence(vi, sources[..n], phase);
      if HasClaim(sources[n]) then rest + [EvidenceItem(vi, n, sources[n], phase)] else rest
  }

  lemma {:induction false} SourceEvidenceAtPositions(vi: nat, sources: seq<JValue>, phase: string)
    ensures var r, ps := SourceEvidence(vi, sources, phase), Seqs.Positions(sources, HasClaim);
      |r| == |ps| && forall j :: 0 <= j < |r| ==> r[j] == EvidenceItem(vi, ps[j], sources[ps[j]], phase)
  {
    if sources != [] {
      SourceEvidenceAtPositions(vi, sources[..|sources| - 1], phase);
    }
  }

  /** The source positions `ps` of variant `n`, each paired with `n`. */
  function Tagged(n: nat, ps: seq<nat>): (t: seq<(nat, nat)>)
    ensures |t| == |ps| && forall j :: 0 <= j < |ps| ==> t[j] == (n, ps[j])
  {
    seq(|ps|, j requires 0 <= j < |ps| => (n, ps[j]))
  }

  /** The (variant, source) positions evidence is drawn from, in lexicographic order. */
  function EvidencePositions(vs: seq<JValue>): (ep: seq<(nat, nat)>)
    ensures forall j :: 0 <= j < |ep| ==>
      ep[j].0 < |vs| && ep[j].1 < |Sources(vs[ep[j].0])| && HasClaim(Sources(vs[ep[j].0])[ep[j].1])
  {
    if vs == [] then []
    else
      var n := |vs| - 1;
      var ps := Seqs.Positions(Sources(vs[n]), HasClaim);
      EvidencePositions(vs[..n]) + Tagged(n, ps)
  }

  /** The positions are visited variant by variant, and source by source within a variant. */
  predicate LexOrdered(ep: seq<(nat, nat)>) {
    forall j, k :: 0 <= j < k < |ep| ==> ep[j].0 < ep[k].0 || (ep[j].0 == ep[k].0 && ep[j].1 < ep[k].1)
  }

  /** Appending the increasing source positions of a later variant keeps the order. */
  lemma LexOrderedAppend(pre: seq<(nat, nat)>, n: nat, ps: seq<nat>)
    requires LexOrdered(pre) && forall j :: 0 <= j < |pre| ==> pre[j].0 < n
    requires forall j, k :: 0 <= j < k < |ps| ==> ps[j] < ps[k]
    ensures LexOrdered(pre + Tagged(n, ps))
  {
    var tail := Tagged(n, ps);
    var ep := pre + tail;
    forall j, k | 0 <= j < k < |ep|
      ensures ep[j].0 < ep[k].0 || (ep[j].0 == ep[k].0 && ep[j].1 < ep[k].1)
    {
      if k < |pre| {
        assert ep[j] == pre[j] && ep[k] == pre[k];
      } else if j < |pre| {
        assert ep[j] == pre[j] && ep[k] == tail[k - |pre|];
      } else {
        assert ep[j] == tail[j - |pre|] && ep[k] == tail[k - |pre|];
      }
    }
  }

  /** The positions are visited variant by variant, and source by source within a variant. */
  lemma {:induction false} EvidencePositionsOrdered(vs: seq<JValue>)
    ensures LexOrdered(EvidencePositions(vs))
  {
    if vs != [] {
      var n := |vs| - 1;
      EvidencePositionsOrdered(vs[..n]);
      LexOrderedAppend(EvidencePositions(vs[..n]), n, Seqs.Positions(Sources(vs[n]), HasClaim));
    }
  }

  function VariantsEvidence(vs: seq<JValue>, phase: string): seq<Evidence> {
    if vs == [] then []
    else
      var n := |vs| - 1;
      VariantsEvidence(vs[..n], phase) + SourceEvidence(n, Sources(vs[n]), phase)
  }

  /** The evidence list is the sources with a claim, read at the (variant, source) positions. */
  lemma {:induction false} VariantsEvidenceAtPositions(vs: seq<JValue>, phase: string)
    ensures var r, ep := VariantsEvidence(vs, phase), EvidencePositions(vs);
      |r| == |ep| &&
      forall j :: 0 <= j < |r| ==> r[j] == EvidenceItem(ep[j].0, ep[j].1, Sources(vs[ep[j].0])[ep[j].1], phase)
  {
    if vs != [] {
      var n := |vs| - 1;
      VariantsEvidenceAtPositions(vs[..n], phase);
      SourceEvidenceAtPositions(n, Sources(vs[n]), phase);
    }
  }

  function OpportunityEvidence(content: JValue, phase: string): seq<Evidence> {
    if !Truthy(content) then [] else VariantsEvidence(Variants(content), phase)
  }

  method ExtractOpportunityEvidence(content: JValue, phase: string) returns (evidence: seq<Evidence>)
    ensures evidence == OpportunityEvidence(content, phase)
  {
    evidence := [];
    if !Truthy(content) || !TruthyOpt(Get(content, "refinedOpportunities")) {
      return;
    }
    var variants := Variants(content);
    var vi := 0;
    while vi < |variants|
      invariant 0 <= vi <= |variants|
      invariant evidence == VariantsEvidence(variants[..vi], phase)
    {
      assert variants[..vi + 1][..vi] == variants[..vi];
      evidence := PushSourceEvidence(evidence, vi, Sources(variants[vi]), phase);
      vi := vi + 1;
    }
    assert variants[..|variants|] == variants;
  }

  /** The inner loop over one variant's sources, appending their evidence. */
  method PushSourceEvidence(acc: seq<Evidence>, vi: nat, sources: seq<JValue>, phase: string) returns (evidence: seq<Evidence>)
    ensures evidence == acc + SourceEvidence(vi, sources, phase)
  {
    evidence := acc;
    var si := 0;
    while si < |sources|
      invariant 0 <= si <= |sources|
      invariant evidence == acc + SourceEvidence(vi, sources[..si], phase)
    {
      assert sources[..si + 1][..si] == sources[..si];
      if HasClaim(sources[si]) {
        evidence := evidence + [EvidenceItem(vi, si, sources[si], phase)];
      }
      si := si + 1;
    }
    assert sources[..si] == sources;
  }

  // ─── Properties ──────────────────────────────────────────────────────────

  /** Falsy content, for instance a missing one, yields nothing from any extractor. */
  lemma FalsyContentExtractsNothing(content: JValue, phase: string)
    requires !Truthy(content)
    ensures OpportunityTakeaways(content) == [] && OpportunityDecisions(content) == []
    ensures OpportunityUnknowns(content) == [] && OpportunityEvidence(content, phase) == []
  {
  }

  /** Without refined opportunities there is no decision and no evidence, and the key insight is the only takeaway left. */
  lemma NoVariantsExtractsNoDecision(content: JValue, phase: string)
    requires Truthy(content) && Variants(content) == []
    ensures OpportunityDecisions(content) == [] && OpportunityEvidence(content, phase) == []
    ensures OpportunityTakeaways(content) == KeyInsightTakeaway(content)
  {
    assert Seqs.Filter(Variants(content), IsHighRevenue) == [];
    assert Seqs.Filter(Variants(content), IsLowCompetition) == [];
  }

  function TakeawayIds(ts: seq<Takeaway>): (ids: seq<string>)
    ensures |ids| == |ts| && forall j :: 0 <= j < |ts| ==> ids[j] == ts[j].id
  {
    seq(|ts|, j requires 0 <= j < |ts| => ts[j].id)
  }

  predicate DistinctTakeawayIds(ts: seq<Takeaway>) {
    forall j, k :: 0 <= j < k < |ts| ==> ts[j].id != ts[k].id
  }

  /** Every id in `ts` has the character `c` at position `i`. */
  predicate IdsHaveCharAt(ts: seq<Takeaway>, i: nat, c: char) {
    forall j :: 0 <= j < |ts| ==> i < |ts[j].id| && ts[j].id[i] == c
  }

  /** Idea takeaways have pairwise different ids. */
  lemma IdeaTakeawayIdsDistinct(vs: seq<JValue>, idPrefix: string, textPrefix: string, impact: Level)
    ensures DistinctTakeawayIds(IdeaTakeaways(vs, idPrefix, textPrefix, impact))
  {
    IdeaTakeawaysAtPositions(vs, idPrefix, textPrefix, impact);
    var r, ps := IdeaTakeaways(vs, idPrefix, textPrefix, impact), Seqs.Positions(vs, HasIdea);
    forall j, k | 0 <= j < k < |r|
      ensures r[j].id != r[k].id
    {
      Text.NumberSuffixDistinct(idPrefix, ps[j], ps[k]);
    }
  }

  /** Idea takeaway ids begin with the id prefix. */
  lemma IdeaTakeawayIdChar(vs: seq<JValue>, idPrefix: string, textPrefix: string, impact: Level, i: nat)
    requires i < |idPrefix|
    ensures IdsHaveCharAt(IdeaTakeaways(vs, idPrefix, textPrefix, impact), i, idPrefix[i])
  {
    IdeaTakeawaysAtPositions(vs, idPrefix, textPrefix, impact);
    var r, ps := IdeaTakeaways(vs, idPrefix, textPrefix, impact), Seqs.Positions(vs, HasIdea);
    forall j | 0 <= j < |r|
      ensures i < |r[j].id| && r[j].id[i] == idPrefix[i]
    {
      assert r[j].id == idPrefix + Text.NatToString(ps[j]);
    }
  }

  lemma DistinctIdsConcat(a: seq<Takeaway>, b: seq<Takeaway>)
    requires DistinctTakeawayIds(a) && DistinctTakeawayIds(b)
    requires forall x, y :: 0 <= x < |a| && 0 <= y < |b| ==> a[x].id != b[y].id
    ensures DistinctTakeawayIds(a + b)
  {
    forall j, k | 0 <= j < k < |a + b|
      ensures (a + b)[j].id != (a + b)[k].id
    {
      if k < |a| {
        assert (a + b)[j] == a[j] && (a + b)[k] == a[k];
      } else if j < |a| {
        assert (a + b)[j] == a[j] && (a + b)[k] == b[k - |a|];
      } else {
        assert (a + b)[j] == b[j - |a|] && (a + b)[k] == b[k - |a|];
      }
    }
  }

  /** The four kinds of takeaway are told apart by their ids: `key-insight`, `recommended`, `revenue-…`, `competition-…`. */
  lemma KeyInsightIdChars(content: JValue)
    ensures IdsHaveCharAt(KeyInsightTakeaway(content), 0, 'k')
  {
  }

  lemma RecommendedIdChars(content: JValue)
    ensures IdsHaveCharAt(RecommendedTakeaway(content), 0, 'r') && IdsHaveCharAt(RecommendedTakeaway(content), 2, 'c')
  {
    RecommendedTakeawayShape(content);
    var rec := RecommendedTakeaway(content);
    if rec != [] {
      assert rec[0].id == "recommended" && "recommended"[0] == 'r' && "recommended"[2] == 'c';
    }
  }

  lemma RevenueIdChars(content: JValue)
    ensures IdsHaveCharAt(RevenueTakeaways(content), 0, 'r') && IdsHaveCharAt(RevenueTakeaways(content), 2, 'v')
    ensures DistinctTakeawayIds(RevenueTakeaways(content))
  {
    var w := Seqs.Take(Seqs.Filter(Variants(content), IsHighRevenue), 3);
    IdeaTakeawayIdChar(w, "revenue-", "High revenue potential: ", Level.High, 0);
    IdeaTakeawayIdChar(w, "revenue-", "High revenue potential: ", Level.High, 2);
    IdeaTakeawayIdsDistinct(w, "revenue-", "High revenue potential: ", Level.High);
  }

  lemma CompetitionIdChars(content: JValue)
    ensures IdsHaveCharAt(CompetitionTakeaways(content), 0, 'c')
    ensures DistinctTakeawayIds(CompetitionTakeaways(content))
  {
    var w := Seqs.Take(Seqs.Filter(Variants(content), IsLowCompetition), 2);
    IdeaTakeawayIdChar(w, "competition-", "Low competition opportunity: ", Level.Medium, 0);
    IdeaTakeawayIdsDistinct(w, "competition-", "Low competition opportunity: ", Level.Medium);
  }

  lemma TakeawayKinds(content: JValue)
    ensures IdsHaveCharAt(KeyInsightTakeaway(content), 0, 'k')
    ensures IdsHaveCharAt(RecommendedTakeaway(content), 0, 'r') && IdsHaveCharAt(RecommendedTakeaway(content), 2, 'c')
    ensures IdsHaveCharAt(RevenueTakeaways(content), 0, 'r') && IdsHaveCharAt(RevenueTakeaways(content), 2, 'v')
    ensures IdsHaveCharAt(CompetitionTakeaways(content), 0, 'c')
    ensures DistinctTakeawayIds(RevenueTakeaways(content)) && DistinctTakeawayIds(CompetitionTakeaways(content))
  {
    KeyInsightIdChars(content);
    RecommendedIdChars(content);
    RevenueIdChars(content);
    CompetitionIdChars(content);
  }

  /** No two takeaways share an id. */
  lemma TakeawayIdsDistinct(content: JValue)
    ensures DistinctTakeawayIds(OpportunityTakeaways(content))
  {
    if Truthy(content) {
      var k, rec, rev, com := KeyInsightTakeaway(content), RecommendedTakeaway(content), RevenueTakeaways(content), CompetitionTakeaways(content);
      TakeawayKinds(content);
      KindIdsDistinct(k, rec, rev, com);
      assert OpportunityTakeaways(content) == k + rec + rev + com;
    } else {
      assert OpportunityTakeaways(content) == [];
    }
  }

  /** Lists of at most one key insight and one recommendation, then revenue and competition takeaways, keep their ids apart. */
  lemma KindIdsDistinct(k: seq<Takeaway>, rec: seq<Takeaway>, rev: seq<Takeaway>, com: seq<Takeaway>)
    requires |k| <= 1 && |rec| <= 1
    requires IdsHaveCharAt(k, 0, 'k') && IdsHaveCharAt(rec, 0, 'r') && IdsHaveCharAt(rec, 2, 'c')
    requires IdsHaveCharAt(rev, 0, 'r') && IdsHaveCharAt(rev, 2, 'v') && IdsHaveCharAt(com, 0, 'c')
    requires DistinctTakeawayIds(rev) && DistinctTakeawayIds(com)
    ensures DistinctTakeawayIds(k + rec + rev + com)
  {
    DistinctIdsConcat(k, rec);
    forall x, y | 0 <= x < |k + rec| && 0 <= y < |rev|
      ensures (k + rec)[x].id != rev[y].id
    {
      if x < |k| {
        assert (k + rec)[x] == k[x];
        assert k[x].id[0] != rev[y].id[0];
      } else {
        assert (k + rec)[x] == rec[x - |k|];
        assert rec[x - |k|].id[2] != rev[y].id[2];
      }
    }
    DistinctIdsConcat(k + rec, rev);
    forall x, y | 0 <= x < |k + rec + rev| && 0 <= y < |com|
      ensures (k + rec + rev)[x].id != com[y].id
    {
      if x < |k| {
        assert (k + rec + rev)[x] == k[x];
      } else if x < |k| + |rec| {
        assert (k + rec + rev)[x] == rec[x - |k|];
      } else {
        assert (k + rec + rev)[x] == rev[x - |k| - |rec|];
      }
      assert (k + rec + rev)[x].id[0] != com[y].id[0];
    }
    DistinctIdsConcat(k + rec + rev, com);
  }

  predicate NoneWithId(ts: seq<Takeaway>, id: string) {
    forall j :: 0 <= j < |ts| ==> ts[j].id != id
  }

  /** Ids that all have `c` at position `i` all differ from an id that does not. */
  lemma NoneWithIdByChar(ts: seq<Takeaway>, id: string, i: nat, c: char)
    requires IdsHaveCharAt(ts, i, c) && i < |id| && id[i] != c
    ensures NoneWithId(ts, id)
  {
  }

  lemma NoneWithIdConcat(a: seq<Takeaway>, b: seq<Takeaway>, id: string)
    requires NoneWithId(a, id) && NoneWithId(b, id)
    ensures NoneWithId(a + b, id)
  {
    forall j | 0 <= j < |a + b|
      ensures (a + b)[j].id != id
    {
      if j < |a| {
        assert (a + b)[j] == a[j];
      } else {
        assert (a + b)[j] == b[j - |a|];
      }
    }
  }

  lemma Regroup(k: seq<Takeaway>, rec: seq<Takeaway>, rev: seq<Takeaway>, com: seq<Takeaway>)
    ensures k + rec + rev + com == k + (rec + (rev + com))
  {
  }

  /** The key insight is the first takeaway exactly when the content has a truthy `keyInsight`, and it is high-impact. */
  lemma KeyInsightComesFirst(content: JValue)
    ensures var ts := OpportunityTakeaways(content);
      (|ts| > 0 && ts[0].id == "key-insight") <==> Truthy(content) && TruthyOpt(Get(content, "keyInsight"))
    ensures Truthy(content) && TruthyOpt(Get(content, "keyInsight")) ==>
      OpportunityTakeaways(content)[0] == Takeaway("key-insight", FieldText(content, "keyInsight"), Insight, Level.High)
  {
    if Truthy(content) {
      var k, rec, rev, com := KeyInsightTakeaway(content), RecommendedTakeaway(content), RevenueTakeaways(content), CompetitionTakeaways(content);
      TakeawayKinds(content);
      NoneWithIdByChar(rec, "key-insight", 0, 'r');
      NoneWithIdByChar(rev, "key-insight", 0, 'r');
      NoneWithIdByChar(com, "key-insight", 0, 'c');
      NoneWithIdConcat(rev, com, "key-insight");
      NoneWithIdConcat(rec, rev + com, "key-insight");
      var rest := rec + (rev + com);
      Regroup(k, rec, rev, com);
      assert OpportunityTakeaways(content) == k + rest;
      if TruthyOpt(Get(content, "keyInsight")) {
        assert (k + rest)[0] == k[0];
      } else {
        assert k + rest == rest;
      }
    }
  }

  /** The decision exists exactly when the recommended index selects a variant with an idea and a reasoning. */
  lemma RecommendedDecisionExists(content: JValue)
    ensures OpportunityDecisions(content) != [] <==>
      Truthy(content) && Recommended(content).Some? && Presentable(Recommended(content).value.1)
    ensures OpportunityDecisions(content) != [] <==> Truthy(content) && RecommendedTakeaway(content) != []
  {
  }

  /** An id occurs in a list made of a part that may hold it and two parts that do not, exactly when that part is not empty. */
  lemma IdInMiddle(k: seq<Takeaway>, rec: seq<Takeaway>, others: seq<Takeaway>, id: string)
    requires NoneWithId(k, id) && NoneWithId(others, id)
    requires rec == [] || (|rec| == 1 && rec[0].id == id)
    ensures id in TakeawayIds(k + rec + others) <==> rec != []
  {
    var ts := k + rec + others;
    if rec != [] {
      assert ts[|k|] == rec[0];
      assert TakeawayIds(ts)[|k|] == id;
    } else {
      assert ts == k + others;
      NoneWithIdConcat(k, others, id);
    }
  }

  /** The recommended takeaway is absent or the single takeaway with id `recommended`. */
  lemma RecommendedTakeawayShape(content: JValue)
    ensures var rec := RecommendedTakeaway(content);
      rec == [] || (|rec| == 1 && rec[0].id == "recommended")
  {
  }

  /** Among takeaways told apart by their id characters, `recommended` occurs exactly when the recommended part is present. */
  lemma RecommendedIdIffPresent(k: seq<Takeaway>, rec: seq<Takeaway>, rev: seq<Takeaway>, com: seq<Takeaway>)
    requires IdsHaveCharAt(k, 0, 'k') && IdsHaveCharAt(rev, 2, 'v') && IdsHaveCharAt(com, 0, 'c')
    requires rec == [] || (|rec| == 1 && rec[0].id == "recommended")
    ensures "recommended" in TakeawayIds(k + rec + rev + com) <==> rec != []
  {
    NoneWithIdByChar(k, "recommended", 0, 'k');
    NoneWithIdByChar(rev, "recommended", 2, 'v');
    NoneWithIdByChar(com, "recommended", 0, 'c');
    NoneWithIdConcat(rev, com, "recommended");
    IdInMiddle(k, rec, rev + com, "recommended");
    assert k + rec + rev + com == k + rec + (rev + com);
  }

  /** The recommended variant: a takeaway and a decision, each present exactly when the other is. */
  lemma RecommendedTakeawayIffDecision(content: JValue)
    ensures "recommended" in TakeawayIds(OpportunityTakeaways(content)) <==> OpportunityDecisions(content) != []
  {
    RecommendedDecisionExists(content);
    if Truthy(content) {
      var k, rec, rev, com := KeyInsightTakeaway(content), RecommendedTakeaway(content), RevenueTakeaways(content), CompetitionTakeaways(content);
      TakeawayKinds(content);
      RecommendedTakeawayShape(content);
      RecommendedIdIffPresent(k, rec, rev, com);
      assert OpportunityTakeaways(content) == k + rec + rev + com;
    } else {
      assert OpportunityTakeaways(content) == [] && |TakeawayIds([])| == 0;
    }
  }

  /** The decision pursues the recommended variant, numbered from 1, and is confident exactly when all three scores are high. */
  lemma DecisionConfidence(content: JValue)
    ensures |OpportunityDecisions(content)| <= 1
    ensures OpportunityDecisions(content) != [] ==> Recommended(content).Some? && Presentable(Recommended(content).value.1)
    ensures OpportunityDecisions(content) != [] ==>
      var d, i, v := OpportunityDecisions(content)[0], Recommended(content).value.0, Recommended(content).value.1;
      d.id == "recommended-variant" && d.reversibility == Reversible &&
      d.decision == "Pursue opportunity variant #" + Text.NatToString(i + 1) + ": " + FieldText(v, "idea") &&
      d.rationale == FieldText(v, "reasoning") &&
      (d.confidence == Level.High <==>
        (Get(v, "revenuePotential") == Some(JString("VERY_HIGH")) || Get(v, "revenuePotential") == Some(JString("HIGH"))) &&
        Get(v, "feasibility") == Some(JString("HIGH")) && Get(v, "agenticScore") == Some(JString("HIGH"))) &&
      (d.confidence == Level.High || d.confidence == Level.Medium)
  {
    RecommendedDecisionExists(content);
  }

  /**
   * Revenue takeaways come from the first three high-revenue variants and competition takeaways
   * from the first two low-competition ones; ids count positions in those short lists.
   */
  lemma RevenueTakeawaysFromTopThree(content: JValue)
    ensures var w := Seqs.Take(Seqs.Filter(Variants(content), IsHighRevenue), 3);
      var r, ps := RevenueTakeaways(content), Seqs.Positions(w, HasIdea);
      |w| <= 3 && (forall v :: v in w ==> IsHighRevenue(v) && v in Variants(content)) &&
      |r| == |ps| && |r| <= 3 &&
      forall j :: 0 <= j < |r| ==>
        r[j] == Takeaway("revenue-" + Text.NatToString(ps[j]), "High revenue potential: " + FieldText(w[ps[j]], "idea"), Opportunity, Level.High)
  {
    var f := Seqs.Filter(Variants(content), IsHighRevenue);
    var w := Seqs.Take(f, 3);
    Seqs.FilterMembers(Variants(content), IsHighRevenue);
    forall v | v in w ensures v in f {
      var i :| 0 <= i < |w| && w[i] == v;
      assert f[i] == v;
    }
    IdeaTakeawaysAtPositions(w, "revenue-", "High revenue potential: ", Level.High);
  }

  lemma CompetitionTakeawaysFromTopTwo(content: JValue)
    ensures var w := Seqs.Take(Seqs.Filter(Variants(content), IsLowCompetition), 2);
      var r, ps := CompetitionTakeaways(content), Seqs.Positions(w, HasIdea);
      |w| <= 2 && (forall v :: v in w ==> IsLowCompetition(v) && v in Variants(content)) &&
      |r| == |ps| && |r| <= 2 &&
      forall j :: 0 <= j < |r| ==>
        r[j] == Takeaway("competition-" + Text.NatToString(ps[j]), "Low competition opportunity: " + FieldText(w[ps[j]], "idea"), Opportunity, Level.Medium)
  {
    var f := Seqs.Filter(Variants(content), IsLowCompetition);
    var w := Seqs.Take(f, 2);
    Seqs.FilterMembers(Variants(content), IsLowCompetition);
    forall v | v in w ensures v in f {
      var i :| 0 <= i < |w| && w[i] == v;
      assert f[i] == v;
    }
    IdeaTakeawaysAtPositions(w, "competition-", "Low competition opportunity: ", Level.Medium);
  }

  /**
   * One unknown per non-empty question, numbered by its index in `unknowns`, graded by
   * `DetermineImportance` and sent to customer research; the ids are pairwise different.
   */
  lemma UnknownsAreTheQuestions(content: JValue)
    requires Truthy(content)
    ensures var xs := ArrayAt(content, "unknowns");
      var r, ps := OpportunityUnknowns(content), Seqs.Positions(xs, IsQuestion);
      |r| == |ps| &&
      (forall i :: 0 <= i < |xs| && IsQuestion(xs[i]) ==> i in ps) &&
      forall j :: 0 <= j < |r| ==>
        r[j].id == "unknown-" + Text.NatToString(ps[j]) && r[j].question == xs[ps[j]].s &&
        r[j].importance == DetermineImportance(xs[ps[j]].s) && r[j].investigationPhase == Some("customer-intel")
    ensures var r := OpportunityUnknowns(content);
      forall j, k :: 0 <= j < k < |r| ==> r[j].id != r[k].id
  {
    var xs := ArrayAt(content, "unknowns");
    UnknownsAtPositions(xs);
    var r, ps := OpportunityUnknowns(content), Seqs.Positions(xs, IsQuestion);
    forall i | 0 <= i < |xs| && IsQuestion(xs[i]) ensures i in ps {
      Seqs.PositionsComplete(xs, IsQuestion, i);
    }
    forall j, k | 0 <= j < k < |r|
      ensures r[j].id != r[k].id
    {
      Text.NumberSuffixDistinct("unknown-", ps[j], ps[k]);
    }
  }

  /** A question stating a requirement is a critical unknown. */
  lemma RequiredQuestionIsCritical()
    ensures OpportunityUnknowns(JObj([("unknowns", JArr([JString("required")]))])) ==
      [Unknown("unknown-0", "required", Importance.Critical, Some("customer-intel"))]
  {
    var xs := [JString("required")];
    assert ArrayAt(JObj([("unknowns", JArr(xs))]), "unknowns") == xs;
    assert xs[..0] == [];
    assert UnknownsOf(xs) == UnknownsOf([]) + [UnknownAt(0, "required")];
    assert Text.NatToString(0) == [Text.DigitChar(0)] == "0";
    RequiredIsCritical();
    assert UnknownAt(0, "required") == Unknown("unknown-0", "required", Importance.Critical, Some("customer-intel"));
  }

  /** Every source with a claim, of every variant, is drawn on. */
  lemma {:induction false} EvidencePositionsComplete(vs: seq<JValue>, vi: nat, si: nat)
    requires vi < |vs| && si < |Sources(vs[vi])| && HasClaim(Sources(vs[vi])[si])
    ensures (vi, si) in EvidencePositions(vs)
  {
    var n := |vs| - 1;
    var ps := Seqs.Positions(Sources(vs[n]), HasClaim);
    var pre, tail := EvidencePositions(vs[..n]), Tagged(n, ps);
    assert EvidencePositions(vs) == pre + tail;
    if vi < n {
      assert vs[..n][vi] == vs[vi];
      EvidencePositionsComplete(vs[..n], vi, si);
    } else {
      Seqs.PositionsComplete(Sources(vs[n]), HasClaim, si);
      TaggedHas(n, ps, si);
    }
  }

  lemma TaggedHas(n: nat, ps: seq<nat>, si: nat)
    requires si in ps
    ensures (n, si) in Tagged(n, ps)
  {
    var j :| 0 <= j < |ps| && ps[j] == si;
    assert Tagged(n, ps)[j] == (n, si);
  }



  /**
   * One evidence item per (variant, source) whose source has a claim, in variant then source
   * order: its id names both positions, it keeps the claim and the phase, and a falsy url or
   * snippet becomes absent. No two items share an id.
   */
  lemma EvidenceItems(content: JValue, phase: string)
    requires Truthy(content)
    ensures var vs := Variants(content);
      var r, ep := OpportunityEvidence(content, phase), EvidencePositions(vs);
      |r| == |ep| &&
      forall j :: 0 <= j < |r| ==>
        var source := Sources(vs[ep[j].0])[ep[j].1];
        r[j].id == "evidence-" + Text.NatToString(ep[j].0) + "-" + Text.NatToString(ep[j].1) &&
        r[j].claim == FieldText(source, "claim") && r[j].phaseOrigin == phase &&
        (r[j].url.Some? <==> TruthyOpt(Get(source, "url"))) &&
        (r[j].url.Some? ==> r[j].url.value == FieldText(source, "url")) &&
        (r[j].snippet.Some? <==> TruthyOpt(Get(source, "snippet"))) &&
        (r[j].snippet.Some? ==> r[j].snippet.value == FieldText(source, "snippet"))
    ensures var r := OpportunityEvidence(content, phase);
      forall j, k :: 0 <= j < k < |r| ==> r[j].id != r[k].id
  {
    var vs := Variants(content);
    VariantsEvidenceAtPositions(vs, phase);
    EvidencePositionsOrdered(vs);
    var r, ep := OpportunityEvidence(content, phase), EvidencePositions(vs);
    forall j, k | 0 <= j < k < |r|
      ensures r[j].id != r[k].id
    {
      Text.NumberPairDistinct("evidence-", '-', ep[j].0, ep[j].1, ep[k].0, ep[k].1);
    }
  }
}
