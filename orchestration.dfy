/**
 * Detection of multi-model orchestration results in an artifact: several models answer in
 * parallel, flag divergent "wild ideas", and one model synthesizes the final text. The
 * detector checks the exact shape of that result; the score summarizes how far the models
 * agreed.
 */
module Orchestration {
  import opened Wrappers
  import Seqs
  import opened Json

  /**
   * The shape check: an object with all four required keys, `finalText` and
   * `synthesizerModel` strings, `modelOutputs` and `wildIdeas` arrays. `totalDurationMs` is
   * not checked.
   */
  predicate IsOrchestrationStructure(obj: JValue) {
    IsObjectLike(obj) &&
    Has(obj, "finalText") && Has(obj, "modelOutputs") && Has(obj, "wildIdeas") && Has(obj, "synthesizerModel") &&
    Get(obj, "finalText").value.JString? &&
    Get(obj, "modelOutputs").value.JArr? &&
    Get(obj, "wildIdeas").value.JArr? &&
    Get(obj, "synthesizerModel").value.JString?
  }

  /**
   * The orchestration result of an artifact with this content: a nested `orchestration`
   * field of the right shape first, then the content itself, else none.
   */
  function DetectOrchestration(content: JValue): (r: Option<JValue>)
    ensures r.Some? ==> IsOrchestrationStructure(r.value)
    ensures r.Some? ==> r.value == content || Get(content, "orchestration") == Some(r.value)
  {
    if !Truthy(content) then None
    else if IsObjectLike(content) && Has(content, "orchestration") && IsOrchestrationStructure(Get(content, "orchestration").value) then
      Get(content, "orchestration")
    else if IsOrchestrationStructure(content) then Some(content)
    else None
  }

  /** A well-formed nested result wins over the content, even when the content is one too. */
  lemma NestedOrchestrationFirst(content: JValue)
    requires Get(content, "orchestration").Some? && IsOrchestrationStructure(Get(content, "orchestration").value)
    ensures DetectOrchestration(content) == Get(content, "orchestration")
  {
  }

  /** Without a well-formed nested result, the content is the result exactly when it has the shape itself. */
  lemma ContentAsOrchestration(content: JValue)
    requires !(Get(content, "orchestration").Some? && IsOrchestrationStructure(Get(content, "orchestration").value))
    ensures DetectOrchestration(content) == if IsOrchestrationStructure(content) then Some(content) else None
  {
  }

  /** Detection finds nothing exactly when neither the nested field nor the content has the shape. */
  lemma NoOrchestration(content: JValue)
    ensures DetectOrchestration(content).None? <==>
      !(Get(content, "orchestration").Some? && IsOrchestrationStructure(Get(content, "orchestration").value)) &&
      !IsOrchestrationStructure(content)
  {
  }

  /** Missing any one required key fails the check, whatever the other three hold. */
  lemma MissingKeyFails(obj: JValue, key: string)
    requires key in ["finalText", "modelOutputs", "wildIdeas", "synthesizerModel"]
    requires !Has(obj, key)
    ensures !IsOrchestrationStructure(obj)
  {
  }

  function ModelOutputs(orch: JValue): seq<JValue> {
    ArrayAt(orch, "modelOutputs")
  }

  function WildIdeas(orch: JValue): seq<JValue> {
    ArrayAt(orch, "wildIdeas")
  }

  /** An output whose `error` is truthy is a failure. */
  predicate HasError(m: JValue) {
    TruthyOpt(Get(m, "error"))
  }

  predicate Succeeded(m: JValue) {
    !HasError(m)
  }

  function SuccessfulOutputs(orch: JValue): seq<JValue>
    requires IsOrchestrationStructure(orch)
  {
    Seqs.Filter(ModelOutputs(orch), Succeeded)
  }

  function FailedOutputs(orch: JValue): seq<JValue>
    requires IsOrchestrationStructure(orch)
  {
    Seqs.Filter(ModelOutputs(orch), HasError)
  }

  /**
   * The successful and failed outputs partition the outputs: the counts add up, each
   * output is in the part its error decides, and each part keeps the original order.
   */
  lemma OutputsPartition(orch: JValue)
    requires IsOrchestrationStructure(orch)
    ensures |SuccessfulOutputs(orch)| + |FailedOutputs(orch)| == |ModelOutputs(orch)|
    ensures forall m :: m in ModelOutputs(orch) ==>
      (m in SuccessfulOutputs(orch) <==> !HasError(m)) && (m in FailedOutputs(orch) <==> HasError(m))
    ensures var s, ps := SuccessfulOutputs(orch), Seqs.Positions(ModelOutputs(orch), Succeeded);
      |s| == |ps| && forall j :: 0 <= j < |s| ==> s[j] == ModelOutputs(orch)[ps[j]]
    ensures var f, ps := FailedOutputs(orch), Seqs.Positions(ModelOutputs(orch), HasError);
      |f| == |ps| && forall j :: 0 <= j < |f| ==> f[j] == ModelOutputs(orch)[ps[j]]
  {
    Seqs.FilterSplit(ModelOutputs(orch), HasError, Succeeded);
    Seqs.FilterAtPositions(ModelOutputs(orch), Succeeded);
    Seqs.FilterAtPositions(ModelOutputs(orch), HasError);
    Seqs.FilterMembers(ModelOutputs(orch), Succeeded);
    Seqs.FilterMembers(ModelOutputs(orch), HasError);
  }

  predicate HasWildIdeas(orch: JValue)
    requires IsOrchestrationStructure(orch)
  {
    |WildIdeas(orch)| > 0
  }

  predicate AllModelsSucceeded(orch: JValue)
    requires IsOrchestrationStructure(orch)
  {
    forall i :: 0 <= i < |ModelOutputs(orch)| ==> !HasError(ModelOutputs(orch)[i])
  }

  /** All models succeeded exactly when there are no failed outputs. */
  lemma AllSucceededIffNoFailures(orch: JValue)
    requires IsOrchestrationStructure(orch)
    ensures AllModelsSucceeded(orch) <==> FailedOutputs(orch) == []
    ensures AllModelsSucceeded(orch) <==> SuccessfulOutputs(orch) == ModelOutputs(orch)
  {
    Seqs.FilterEmpty(ModelOutputs(orch), HasError);
    OutputsPartition(orch);
    Seqs.FilterAtPositions(ModelOutputs(orch), Succeeded);
    if AllModelsSucceeded(orch) {
      FilterAllPass(ModelOutputs(orch));
    }
  }

  lemma {:induction false} FilterAllPass(xs: seq<JValue>)
    requires forall i :: 0 <= i < |xs| ==> Succeeded(xs[i])
    ensures Seqs.Filter(xs, Succeeded) == xs
  {
    if xs != [] {
      var n := |xs| - 1;
      FilterAllPass(xs[..n]);
      assert xs == xs[..n] + [xs[n]];
    }
  }

  // ─── Consensus ───────────────────────────────────────────────────────────

  /** `Math.max(0, Math.min(100, score))`. */
  function Clamp(score: int): (r: int)
    ensures 0 <= r <= 100
    ensures 0 <= score <= 100 ==> r == score
    ensures score < 0 ==> r == 0
    ensures score > 100 ==> r == 100
  {
    if score < 0 then 0 else if score > 100 then 100 else score
  }

  /** A hundred points, fifteen off per wild idea and ten off per failed model, kept within 0 to 100. */
  function ConsensusScore(wildIdeas: nat, failures: nat): int {
    Clamp(100 - 15 * wildIdeas - 10 * failures)
  }

  method CalculateConsensusScore(orch: JValue) returns (score: int)
    requires IsOrchestrationStructure(orch)
    ensures score == ConsensusScore(|WildIdeas(orch)|, |FailedOutputs(orch)|)
    ensures 0 <= score <= 100
  {
    score := 100;
    var wildPenalty := |WildIdeas(orch)| * 15;
    score := score - wildPenalty;
    var failureCount := |FailedOutputs(orch)|;
    var failurePenalty := failureCount * 10;
    score := score - failurePenalty;
    score := if 100 < score then 100 else score;
    score := if 0 < score then score else 0;
  }

  /** Agreement is perfect without wild ideas or failures, and more of either never raises the score. */
  lemma ConsensusScoreMonotone(w: nat, f: nat, w': nat, f': nat)
    requires w <= w' && f <= f'
    ensures ConsensusScore(0, 0) == 100
    ensures ConsensusScore(w', f') <= ConsensusScore(w, f)
    ensures 0 <= ConsensusScore(w, f) <= 100
  {
  }

  /** While the penalties stay within a hundred points, every wild idea and every failure costs exactly its points. */
  lemma ConsensusScoreExact(w: nat, f: nat)
    requires 15 * w + 10 * f <= 100
    ensures ConsensusScore(w, f) == 100 - 15 * w - 10 * f
  {
  }

  /** The score of perfect agreement: no wild idea and every model succeeded. */
  lemma PerfectConsensus(orch: JValue)
    requires IsOrchestrationStructure(orch)
    ensures ConsensusScore(|WildIdeas(orch)|, |FailedOutputs(orch)|) == 100 <==>
      !HasWildIdeas(orch) && AllModelsSucceeded(orch)
  {
    AllSucceededIffNoFailures(orch);
  }

  datatype ConsensusLevel = High | Moderate | Low

  function GetConsensusLevel(score: int): (l: ConsensusLevel)
    ensures l == High <==> score >= 70
    ensures l == Moderate <==> 40 <= score < 70
    ensures l == Low <==> score < 40
  {
    if score >= 70 then High else if score >= 40 then Moderate else Low
  }

  function GetConsensusColor(score: int): (c: string)
    ensures c == "green" <==> score >= 70
    ensures c == "yellow" <==> 40 <= score < 70
    ensures c == "orange" <==> score < 40
  {
    if score >= 70 then "green" else if score >= 40 then "yellow" else "orange"
  }

  function LevelColor(l: ConsensusLevel): string {
    match l
    case High => "green"
    case Moderate => "yellow"
    case Low => "orange"
  }

  /** Level and colour always agree: the colour is the level's colour, and the level is determined by the colour. */
  lemma LevelAndColorAgree(score: int, other: int)
    ensures GetConsensusColor(score) == LevelColor(GetConsensusLevel(score))
    ensures GetConsensusColor(score) == GetConsensusColor(other) <==> GetConsensusLevel(score) == GetConsensusLevel(other)
  {
  }
}
