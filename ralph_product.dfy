/**
 * The product group of the build-handoff payload: the vision, the features (one per app page
 * of the product design, then one per frontend task of the task reconciliation) and the MVP
 * scope lines.
 */
module RalphProduct {
  import opened Wrappers
  import Text
  import Seqs
  import Records
  import opened Json
  import opened RalphSchema

  // ─── Vision ──────────────────────────────────────────────────────────────

  /**
   * `extractProductVision`: the first non-empty string among the product design's `vision`,
   * the synthesis's `executiveSummary` and the opportunity's `keyInsight`, or `""`.
   */
  function ExtractProductVision(productDesign: JValue, synthesis: JValue, opportunity: JValue): (r: string)
    ensures NonEmptyAt(productDesign, "vision") ==> Some(r) == ExtractString(productDesign, "vision")
    ensures !NonEmptyAt(productDesign, "vision") && NonEmptyAt(synthesis, "executiveSummary") ==>
      Some(r) == ExtractString(synthesis, "executiveSummary")
    ensures !NonEmptyAt(productDesign, "vision") && !NonEmptyAt(synthesis, "executiveSummary") ==>
      r == Str(opportunity, "keyInsight")
    ensures r == "" <==>
      !NonEmptyAt(productDesign, "vision") && !NonEmptyAt(synthesis, "executiveSummary") && !NonEmptyAt(opportunity, "keyInsight")
  {
    var pdVision := Str(productDesign, "vision");
    if pdVision != "" then pdVision
    else
      var execSummary := Str(synthesis, "executiveSummary");
      if execSummary != "" then execSummary
      else Str(opportunity, "keyInsight")
  }

  // ─── Features ────────────────────────────────────────────────────────────

  /** An app page (any object) becomes a feature numbered by its position among all pages. */
  function PageFeature(i: nat, page: JValue): (f: Option<FeatureSpec>)
    ensures f.Some? <==> IsObjectLike(page)
  {
    if IsObjectLike(page) then
      Some(FeatureSpec(
        "feature-page-" + Text.NatToString(i),
        Or(Str(page, "title"), Or(Str(page, "name"), "Page " + Text.NatToString(i + 1))),
        Or(Str(page, "description"), Str(page, "purpose")),
        DeterminePriority(ExtractString(page, "priority"))))
    else None
  }

  predicate IsFrontendTask(t: JValue) {
    IsObjectLike(t) && Get(t, "category") == Some(JString("frontend"))
  }

  /** A frontend task becomes a feature; without an id it is numbered by its position among the frontend tasks. */
  function TaskFeature(i: nat, task: JValue): Option<FeatureSpec> {
    if IsObjectLike(task) then
      Some(FeatureSpec(
        Or(Str(task, "id"), "feature-task-" + Text.NatToString(i)),
        Str(task, "title"),
        Str(task, "description"),
        DeterminePriority(ExtractString(task, "priority"))))
    else None
  }

  function PageFeatures(productDesign: JValue): seq<FeatureSpec> {
    Seqs.Collected(ArrayAt(productDesign, "appPages"), PageFeature)
  }

  function FrontendTasks(taskRecon: JValue): seq<JValue> {
    Seqs.Filter(ArrayAt(taskRecon, "tasks"), IsFrontendTask)
  }

  function TaskFeatures(taskRecon: JValue): seq<FeatureSpec> {
    Seqs.Collected(FrontendTasks(taskRecon), TaskFeature)
  }

  function Features(productDesign: JValue, taskRecon: JValue): seq<FeatureSpec> {
    PageFeatures(productDesign) + TaskFeatures(taskRecon)
  }

  /** `extractFeatures`: the page features, then the frontend task features. */
  method ExtractFeatures(productDesign: JValue, taskRecon: JValue) returns (features: seq<FeatureSpec>)
    ensures features == Features(productDesign, taskRecon)
  {
    features := Seqs.PushCollected([], ArrayAt(productDesign, "appPages"), PageFeature);
    var frontendTasks := Seqs.Filter(ArrayAt(taskRecon, "tasks"), IsFrontendTask);
    features := Seqs.PushCollected(features, frontendTasks, TaskFeature);
  }

  /**
   * One feature per app page that is an object, in page order, with id `feature-page-<i>` for
   * the page's position `i`: the page ids are pairwise distinct, and every page feature has a
   * name (the title, else the name, else `Page <i+1>`).
   */
  lemma PageFeaturesByPosition(productDesign: JValue)
    ensures var pages, fs := ArrayAt(productDesign, "appPages"), PageFeatures(productDesign);
      var ps := Seqs.ProducingPositions(pages, PageFeature);
      |fs| == |ps| &&
      (forall j :: 0 <= j < |fs| ==> IsObjectLike(pages[ps[j]]) && fs[j].id == "feature-page-" + Text.NatToString(ps[j]) && fs[j].name != "") &&
      (forall j, k :: 0 <= j < k < |fs| ==> fs[j].id != fs[k].id)
  {
    var pages, fs := ArrayAt(productDesign, "appPages"), PageFeatures(productDesign);
    var ps := Seqs.ProducingPositions(pages, PageFeature);
    Seqs.CollectedAtPositions(pages, PageFeature);
    forall j, k | 0 <= j < k < |fs| ensures fs[j].id != fs[k].id {
      Text.NumberSuffixDistinct("feature-page-", ps[j], ps[k]);
    }
  }

  /** Only tasks whose `category` is exactly `frontend` become features, one each, in task order. */
  lemma TaskFeaturesAreFrontendTasks(taskRecon: JValue)
    ensures var ts, fs := FrontendTasks(taskRecon), TaskFeatures(taskRecon);
      |fs| == |ts| &&
      forall j :: 0 <= j < |fs| ==>
        Get(ts[j], "category") == Some(JString("frontend")) && ts[j] in ArrayAt(taskRecon, "tasks") &&
        fs[j].id == Or(Str(ts[j], "id"), "feature-task-" + Text.NatToString(j)) &&
        fs[j].name == Str(ts[j], "title")
  {
    var ts := FrontendTasks(taskRecon);
    Seqs.FilterMembers(ArrayAt(taskRecon, "tasks"), IsFrontendTask);
    Seqs.CollectedEvery(ts, TaskFeature);
  }

  // ─── MVP scope ───────────────────────────────────────────────────────────

  /**
   * The scope lines the product design gives: a string, the strings of an array, or the string
   * values of an object in the order `Object.values` lists them.
   */
  function DesignScope(productDesign: JValue): seq<string> {
    match Get(productDesign, "mvpScope")
    case Some(JString(s)) => [s]
    case Some(JArr(xs)) => StringsOf(xs)
    case Some(JObj(fields)) => StringsOf(Records.Values(Records.EnumerationOrder(fields)))
    case _ => []
  }

  function ThesisLine(strategy: JValue): seq<string> {
    if NonEmptyAt(strategy, "thesis") then ["Strategic Thesis: " + Str(strategy, "thesis")] else []
  }

  function MvpScope(productDesign: JValue, strategy: JValue): seq<string> {
    DesignScope(productDesign) + ThesisLine(strategy)
  }

  /** `extractMVPScope`: the design's scope lines (an object's values visited one by one), then the strategy thesis. */
  method ExtractMvpScope(productDesign: JValue, strategy: JValue) returns (scope: seq<string>)
    ensures scope == MvpScope(productDesign, strategy)
  {
    var pdScope := Get(productDesign, "mvpScope");
    if pdScope.Some? && pdScope.value.JString? {
      scope := [pdScope.value.s];
    } else if pdScope.Some? && pdScope.value.JArr? {
      scope := StringsOf(pdScope.value.items);
    } else if pdScope.Some? && pdScope.value.JObj? {
      scope := PushStrings(Records.Values(Records.EnumerationOrder(pdScope.value.fields)));
    } else {
      scope := [];
    }
    assert scope == DesignScope(productDesign);
    var thesis := Str(strategy, "thesis");
    if thesis != "" {
      scope := scope + ["Strategic Thesis: " + thesis];
    }
  }

  /** The loop over an object's values: the values that are strings, in order. */
  method PushStrings(values: seq<JValue>) returns (scope: seq<string>)
    ensures scope == StringsOf(values)
  {
    scope := [];
    var i := 0;
    while i < |values|
      invariant 0 <= i <= |values|
      invariant scope == StringsOf(values[..i])
    {
      assert values[..i + 1][..i] == values[..i];
      if values[i].JString? {
        scope := scope + [values[i].s];
      }
      i := i + 1;
    }
    assert values[..i] == values;
  }

  /** An object scope lists its array-index keys first: `{"later": "B", "1": "A"}` gives A, then B. */
  lemma MvpScopeIndexKeysFirst(later: (string, JValue), one: (string, JValue))
    requires later == ("later", JString("B")) && one == ("1", JString("A"))
    ensures DesignScope(JObj([("mvpScope", JObj([later, one]))])) == ["A", "B"]
  {
    var fields := [later, one];
    ExampleEnumeration(later, one);
    ExampleStrings(Records.Values([one, later]));
    ObjectScope(JObj([("mvpScope", JObj(fields))]), fields, [one, later], ["A", "B"]);
  }

  /** An object scope gives the string values in enumeration order. */
  lemma ObjectScope(productDesign: JValue, fields: seq<(string, JValue)>, e: seq<(string, JValue)>, strs: seq<string>)
    requires productDesign == JObj([("mvpScope", JObj(fields))])
    requires Records.EnumerationOrder(fields) == e && StringsOf(Records.Values(e)) == strs
    ensures DesignScope(productDesign) == strs
  {
    assert Get(productDesign, "mvpScope") == Some(JObj(fields));
  }

  lemma ExampleStrings(vs: seq<JValue>)
    requires vs == [JString("A"), JString("B")]
    ensures StringsOf(vs) == ["A", "B"]
  {
    assert vs[..1] == [JString("A")];
    assert StringsOf(vs[..1]) == ["A"];
  }

  /** "1" is enumerated before "later", though inserted after it. */
  lemma ExampleEnumeration(later: (string, JValue), one: (string, JValue))
    requires later.0 == "later" && one.0 == "1"
    ensures Records.EnumerationOrder([later, one]) == [one, later]
  {
    ExampleKeys();
    assert [later, one][1..] == [one];
    assert Records.IndexEntries([one]) == [one];
    assert Records.IndexEntries([later, one]) == [one];
    assert Records.NamedEntries([one]) == [];
    assert Records.NamedEntries([later, one]) == [later];
    assert Records.SortByIndex([one]) == [one];
  }

  lemma ExampleKeys()
    ensures !Records.IsArrayIndex("later") && Records.IsArrayIndex("1")
  {
    assert !Text.IsDigit("later"[0]);
    assert Records.DigitsValue("1") == 1 by {
      assert "1"[..0] == [];
    }
  }

  /**
   * The scope holds the design's lines in their order, and a last `Strategic Thesis:` line
   * exactly when the strategy states a thesis; a design scope given as a string is kept even
   * when it is empty.
   */
  lemma MvpScopeShape(productDesign: JValue, strategy: JValue)
    ensures var scope := MvpScope(productDesign, strategy);
      DesignScope(productDesign) <= scope &&
      (|scope| == |DesignScope(productDesign)| + 1 <==> NonEmptyAt(strategy, "thesis")) &&
      (NonEmptyAt(strategy, "thesis") ==> scope[|scope| - 1] == "Strategic Thesis: " + Str(strategy, "thesis"))
    ensures forall s :: Get(productDesign, "mvpScope") == Some(JString(s)) ==> MvpScope(productDesign, strategy)[0] == s
  {
  }
}
