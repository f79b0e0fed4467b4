/**
 * Shared shapes: the fifteen-value phase name union, a planning artifact as the API returns
 * it, the run mode, and the five stages that group the phases in the run detail view.
 */
module Types {
  import opened Wrappers
  import Json
  import PhaseDocs

  /** The members of the `PhaseName` union, in declaration order. */
  const PhaseNames: seq<string> := [
    "opportunity", "customer-intel", "market-research", "competitive-intel", "kill-test",
    "revenue-expansion", "strategy", "business-model", "product-design", "gtm-marketing",
    "content-engine", "tech-arch", "analytics", "launch-execution", "synthesis"
  ]

  predicate IsPhaseName(p: string) {
    p in PhaseNames
  }

  datatype RunMode = Local | Cloud

  /**
   * A planning artifact. `content` is a string-keyed record in the declared type, but the
   * readers accept any value; `overallScore` is typed as a number and filtered at run time,
   * so it is kept as a raw value.
   */
  datatype PlanningArtifact = PlanningArtifact(
    id: string,
    phase: string,
    content: Json.JValue,
    reviewVerdict: Option<string>,
    reviewIterations: Option<int>,
    overallScore: Option<Json.JValue>)

  datatype Stage = Stage(id: string, title: string, phases: seq<string>)

  const Stages: seq<Stage> := [
    Stage("discovery", "Discovery", ["opportunity", "customer-intel", "market-research", "competitive-intel"]),
    Stage("validation", "Validation", ["kill-test"]),
    Stage("strategy", "Strategy", ["revenue-expansion", "strategy", "business-model"]),
    Stage("design", "Design", ["product-design", "gtm-marketing", "content-engine"]),
    Stage("execution", "Execution", ["tech-arch", "analytics", "launch-execution", "synthesis"])
  ]

  /** The phase lists of the stages, one after another. */
  function StagePhases(stages: seq<Stage>): (r: seq<string>)
    ensures forall p :: p in r <==> exists s :: 0 <= s < |stages| && p in stages[s].phases
  {
    if stages == [] then [] else stages[0].phases + StagePhases(stages[1..])
  }

  lemma StageIdsDistinct()
    ensures |Stages| == 5
    ensures forall i, j :: 0 <= i < j < |Stages| ==> Stages[i].id != Stages[j].id
  {
  }

  /** Read in stage order, the stages list exactly the documented phase order. */
  lemma StagesFollowPhaseOrder()
    ensures StagePhases(Stages) == PhaseDocs.PhaseOrder
  {
    assert StagePhases(Stages[4..]) == Stages[4].phases;
    assert StagePhases(Stages[3..]) == Stages[3].phases + Stages[4].phases;
    assert StagePhases(Stages[2..]) == Stages[2].phases + Stages[3].phases + Stages[4].phases;
    assert StagePhases(Stages[1..]) == Stages[1].phases + Stages[2].phases + Stages[3].phases + Stages[4].phases;
  }

  predicate Distinct(xs: seq<string>) {
    forall i, j :: 0 <= i < j < |xs| ==> xs[i] != xs[j]
  }

  /** The two halves of a duplicate-free list share nothing, and the second half is duplicate-free. */
  lemma DistinctConcat(a: seq<string>, b: seq<string>)
    requires Distinct(a + b)
    ensures forall x :: x in a ==> x !in b
    ensures Distinct(b)
  {
    forall x | x in a ensures x !in b {
      var i :| 0 <= i < |a| && a[i] == x;
      forall j | 0 <= j < |b| ensures b[j] != x {
        assert (a + b)[i] == a[i] && (a + b)[|a| + j] == b[j];
      }
    }
    forall i, j | 0 <= i < j < |b| ensures b[i] != b[j] {
      assert (a + b)[|a| + i] == b[i] && (a + b)[|a| + j] == b[j];
    }
  }

  /** When the stages together list no phase twice, a phase of one stage is in no later stage. */
  lemma {:induction false} NotInLaterStage(stages: seq<Stage>, s: nat, t: nat, p: string)
    requires Distinct(StagePhases(stages))
    requires s < t < |stages| && p in stages[s].phases
    ensures p !in stages[t].phases
  {
    var rest := StagePhases(stages[1..]);
    DistinctConcat(stages[0].phases, rest);
    if s == 0 {
      assert stages[1..][t - 1] == stages[t];
    } else {
      NotInLaterStage(stages[1..], s - 1, t - 1, p);
    }
  }

  /** Every phase name belongs to exactly one stage, and a stage lists only phase names. */
  lemma EveryPhaseInExactlyOneStage(p: string)
    ensures IsPhaseName(p) ==> exists s :: 0 <= s < |Stages| && p in Stages[s].phases
    ensures forall s, t :: 0 <= s < |Stages| && 0 <= t < |Stages| && p in Stages[s].phases && p in Stages[t].phases ==> s == t
    ensures forall s :: 0 <= s < |Stages| && p in Stages[s].phases ==> IsPhaseName(p)
  {
    StagesFollowPhaseOrder();
    PhaseDocs.PhaseOrderDistinct();
    forall s, t | 0 <= s < t < |Stages| && p in Stages[s].phases ensures p !in Stages[t].phases {
      NotInLaterStage(Stages, s, t, p);
    }
  }
}
