/**
 * The validation group of the build-handoff payload: the kill conditions and the assumptions
 * (those of the kill test, then the strategy's assumptions whose text is new).
 */
module RalphValidation {
  import opened Wrappers
  import Seqs
  import opened Json
  import opened RalphSchema

  // ─── Kill conditions ─────────────────────────────────────────────────────

  /** A kill condition: an object classified by its `severity`, or a bare text that is major. */
  function KillConditionOf(i: nat, c: JValue): (r: Option<KillCondition>)
    ensures r.Some? <==> IsObjectLike(c) || c.JString?
    ensures c.JString? ==> r == Some(KillCondition(c.s, Major))
    ensures IsObjectLike(c) ==> r.value.condition == Or(Str(c, "condition"), Str(c, "description"))
  {
    if IsObjectLike(c) then
      Some(KillCondition(Or(Str(c, "condition"), Str(c, "description")), DetermineSeverity(ExtractString(c, "severity"))))
    else if c.JString? then Some(KillCondition(c.s, Major))
    else None
  }

  function KillConditions(killTest: JValue): seq<KillCondition> {
    Seqs.Collected(ArrayAt(killTest, "killConditions"), KillConditionOf)
  }

  /** `extractKillConditions`. */
  method ExtractKillConditions(killTest: JValue) returns (conditions: seq<KillCondition>)
    ensures conditions == KillConditions(killTest)
  {
    conditions := Seqs.PushCollected([], ArrayAt(killTest, "killConditions"), KillConditionOf);
  }

  /** A kill test listing its conditions as plain text gets one major condition per text, in order. */
  lemma TextKillConditionsAreMajor(killTest: JValue)
    requires forall i :: 0 <= i < |ArrayAt(killTest, "killConditions")| ==> ArrayAt(killTest, "killConditions")[i].JString?
    ensures var xs, r := ArrayAt(killTest, "killConditions"), KillConditions(killTest);
      |r| == |xs| && forall i :: 0 <= i < |r| ==> r[i] == KillCondition(xs[i].s, Major)
  {
    Seqs.CollectedEvery(ArrayAt(killTest, "killConditions"), KillConditionOf);
  }

  /** The condition the dashboard's example kill test states is read as a major one. */
  lemma RevenueKillConditionIsMajor()
    ensures KillConditions(JObj([("killConditions", JArr([JString("Revenue < $10k for 3 months")]))])) ==
      [KillCondition("Revenue < $10k for 3 months", Major)]
  {
    var kt := JObj([("killConditions", JArr([JString("Revenue < $10k for 3 months")]))]);
    assert ArrayAt(kt, "killConditions") == [JString("Revenue < $10k for 3 months")];
  }

  // ─── Assumptions ─────────────────────────────────────────────────────────

  /** A kill-test assumption: an object, or a bare text without a validation. */
  function KillTestAssumption(i: nat, a: JValue): (r: Option<Assumption>)
    ensures r.Some? <==> IsObjectLike(a) || a.JString?
    ensures a.JString? ==> r == Some(Assumption(a.s, ""))
  {
    if IsObjectLike(a) then
      Some(Assumption(Or(Str(a, "assumption"), Str(a, "description")), Or(Str(a, "validation"), Str(a, "test"))))
    else if a.JString? then Some(Assumption(a.s, ""))
    else None
  }

  function KillTestAssumptions(killTest: JValue): seq<Assumption> {
    Seqs.Collected(ArrayAt(killTest, "assumptions"), KillTestAssumption)
  }

  /** `assumptions.some((existing) => existing.assumption === text)`. */
  predicate HasAssumption(assumptions: seq<Assumption>, text: string) {
    exists j :: 0 <= j < |assumptions| && assumptions[j].assumption == text
  }

  /**
   * The text a strategy assumption would add: an object's `assumption` or `description` when
   * that is non-empty, or a bare text, even an empty one; nothing for anything else.
   */
  function StrategyText(a: JValue): Option<string> {
    if IsObjectLike(a) then
      var text := Or(Str(a, "assumption"), Str(a, "description"));
      if text != "" then Some(text) else None
    else if a.JString? then Some(a.s)
    else None
  }

  function StrategyAssumption(a: JValue, text: string): Assumption {
    if IsObjectLike(a) then Assumption(text, Str(a, "validation")) else Assumption(text, "")
  }

  /** The strategy assumptions visited in order after `base`, each added unless its text is already listed. */
  function WithStrategyAssumptions(base: seq<Assumption>, xs: seq<JValue>): (r: seq<Assumption>)
    ensures base <= r && |r| <= |base| + |xs|
  {
    if xs == [] then base
    else
      var n := |xs| - 1;
      var prev := WithStrategyAssumptions(base, xs[..n]);
      match StrategyText(xs[n])
      case Some(text) => if !HasAssumption(prev, text) then prev + [StrategyAssumption(xs[n], text)] else prev
      case None => prev
  }

  function Assumptions(killTest: JValue, strategy: JValue): seq<Assumption> {
    WithStrategyAssumptions(KillTestAssumptions(killTest), ArrayAt(strategy, "assumptions"))
  }

  /** `extractAssumptions`. */
  method ExtractAssumptions(killTest: JValue, strategy: JValue) returns (assumptions: seq<Assumption>)
    ensures assumptions == Assumptions(killTest, strategy)
  {
    assumptions := Seqs.PushCollected([], ArrayAt(killTest, "assumptions"), KillTestAssumption);
    assert assumptions == KillTestAssumptions(killTest);
    ghost var base := assumptions;
    var stratAssumptions := ArrayAt(strategy, "assumptions");
    var i := 0;
    while i < |stratAssumptions|
      invariant 0 <= i <= |stratAssumptions|
      invariant assumptions == WithStrategyAssumptions(base, stratAssumptions[..i])
    {
      assert stratAssumptions[..i + 1][..i] == stratAssumptions[..i];
      var a := stratAssumptions[i];
      if IsObjectLike(a) {
        var text := Or(Str(a, "assumption"), Str(a, "description"));
        if text != "" && !HasAssumption(assumptions, text) {
          assumptions := assumptions + [Assumption(text, Str(a, "validation"))];
        }
      } else if a.JString? {
        if !HasAssumption(assumptions, a.s) {
          assumptions := assumptions + [Assumption(a.s, "")];
        }
      }
      i := i + 1;
    }
    assert stratAssumptions[..i] == stratAssumptions;
  }

  /** The assumption at `j` has a text no assumption before it has. */
  predicate NewAt(assumptions: seq<Assumption>, j: nat)
    requires j < |assumptions|
  {
    !HasAssumption(assumptions[..j], assumptions[j].assumption)
  }

  /** Every strategy assumption added has a text that no earlier assumption, kill-test ones included, has. */
  lemma {:induction false} StrategyAssumptionsAreNew(base: seq<Assumption>, xs: seq<JValue>)
    ensures forall j :: |base| <= j < |WithStrategyAssumptions(base, xs)| ==> NewAt(WithStrategyAssumptions(base, xs), j)
  {
    if xs != [] {
      var n := |xs| - 1;
      var prev := WithStrategyAssumptions(base, xs[..n]);
      StrategyAssumptionsAreNew(base, xs[..n]);
      var r := WithStrategyAssumptions(base, xs);
      if r != prev {
        var text := StrategyText(xs[n]).value;
        assert r == prev + [StrategyAssumption(xs[n], text)];
        forall j | |base| <= j < |r| ensures NewAt(r, j) {
          if j < |prev| {
            assert NewAt(prev, j);
            assert r[j] == prev[j] && r[..j] == prev[..j];
          } else {
            assert r[..j] == prev;
          }
        }
      }
    }
  }

  /** Every strategy assumption with a text ends up listed under that text, whether added or already there. */
  lemma {:induction false} StrategyAssumptionsCovered(base: seq<Assumption>, xs: seq<JValue>)
    ensures forall i :: 0 <= i < |xs| && StrategyText(xs[i]).Some? ==>
      HasAssumption(WithStrategyAssumptions(base, xs), StrategyText(xs[i]).value)
  {
    if xs != [] {
      var n := |xs| - 1;
      var prev := WithStrategyAssumptions(base, xs[..n]);
      var r := WithStrategyAssumptions(base, xs);
      StrategyAssumptionsCovered(base, xs[..n]);
      assert prev <= r;
      forall i | 0 <= i < |xs| && StrategyText(xs[i]).Some?
        ensures HasAssumption(r, StrategyText(xs[i]).value)
      {
        var text := StrategyText(xs[i]).value;
        if i < n {
          assert xs[..n][i] == xs[i];
          var j :| 0 <= j < |prev| && prev[j].assumption == text;
          assert r[j] == prev[j];
        } else if !HasAssumption(prev, text) {
          assert r[|prev|].assumption == text;
        } else {
          var j :| 0 <= j < |prev| && prev[j].assumption == text;
          assert r[j] == prev[j];
        }
      }
    }
  }

  /**
   * The kill-test assumptions are kept as they are, duplicates included, and a strategy
   * assumption whose text one of them already has is dropped.
   */
  lemma KillTestAssumptionsFirst(killTest: JValue, strategy: JValue, i: nat)
    requires i < |ArrayAt(strategy, "assumptions")|
    requires var a := ArrayAt(strategy, "assumptions")[i];
      StrategyText(a).Some? && HasAssumption(KillTestAssumptions(killTest), StrategyText(a).value)
    ensures KillTestAssumptions(killTest) <= Assumptions(killTest, strategy)
    ensures forall j :: |KillTestAssumptions(killTest)| <= j < |Assumptions(killTest, strategy)| ==>
      Assumptions(killTest, strategy)[j].assumption != StrategyText(ArrayAt(strategy, "assumptions")[i]).value
  {
    var base, r := KillTestAssumptions(killTest), Assumptions(killTest, strategy);
    var text := StrategyText(ArrayAt(strategy, "assumptions")[i]).value;
    StrategyAssumptionsAreNew(base, ArrayAt(strategy, "assumptions"));
    forall j | |base| <= j < |r| ensures r[j].assumption != text {
      assert NewAt(r, j);
      var k :| 0 <= k < |base| && base[k].assumption == text;
      assert r[..j][k] == base[k];
    }
  }
}
