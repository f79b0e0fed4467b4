/**
 * The execution group of the build-handoff payload: the tasks (code tasks, then marketing
 * tasks), the dependencies between code tasks and the milestones (build phases, then the
 * ninety-day plan).
 */
module RalphExecution {
  import opened Wrappers
  import Text
  import Seqs
  import opened Json
  import opened RalphSchema

  // ─── Tasks ───────────────────────────────────────────────────────────────

  /**
   * The task pushed for a task object when the list already holds `count` tasks: a task without
   * an id is numbered by that count, so its fallback id is its own position in the list.
   */
  function MakeTask(marketing: bool, count: nat, t: JValue): (task: TaskSpec)
    ensures !NonEmptyAt(t, "id") ==>
      task.id == (if marketing then "marketing-task-" else "task-") + Text.NatToString(count)
    ensures task.title != ""
  {
    if marketing then
      TaskSpec(
        Or(Str(t, "id"), "marketing-task-" + Text.NatToString(count)),
        Or(Str(t, "title"), "Unnamed Marketing Task"),
        Str(t, "description"),
        "marketing")
    else
      TaskSpec(
        Or(Str(t, "id"), "task-" + Text.NatToString(count)),
        Or(Str(t, "title"), "Unnamed Task"),
        Str(t, "description"),
        Or(Str(t, "sourcePhase"), Or(Str(t, "category"), "unknown")))
  }

  /** The tasks `forEach` pushes after `acc`, one per element that is an object. */
  function PushedTasks(acc: seq<TaskSpec>, xs: seq<JValue>, marketing: bool): (r: seq<TaskSpec>)
    ensures acc <= r
  {
    if xs == [] then acc
    else
      var n := |xs| - 1;
      var prev := PushedTasks(acc, xs[..n], marketing);
      if IsObjectLike(xs[n]) then prev + [MakeTask(marketing, |prev|, xs[n])] else prev
  }

  function CodeTasks(taskRecon: JValue): seq<TaskSpec> {
    PushedTasks([], ArrayAt(taskRecon, "tasks"), false)
  }

  function Tasks(taskRecon: JValue): seq<TaskSpec> {
    PushedTasks(CodeTasks(taskRecon), ArrayAt(taskRecon, "marketingTasks"), true)
  }

  /** One `forEach` over a task array, pushing onto the list built so far. */
  method PushTasks(acc: seq<TaskSpec>, xs: seq<JValue>, marketing: bool) returns (tasks: seq<TaskSpec>)
    ensures tasks == PushedTasks(acc, xs, marketing)
  {
    tasks := acc;
    var i := 0;
    while i < |xs|
      invariant 0 <= i <= |xs|
      invariant tasks == PushedTasks(acc, xs[..i], marketing)
    {
      assert xs[..i + 1][..i] == xs[..i];
      if IsObjectLike(xs[i]) {
        tasks := tasks + [MakeTask(marketing, |tasks|, xs[i])];
      }
      i := i + 1;
    }
    assert xs[..i] == xs;
  }

  /** `extractTasks`. */
  method ExtractTasks(taskRecon: JValue) returns (tasks: seq<TaskSpec>)
    ensures tasks == Tasks(taskRecon)
  {
    tasks := PushTasks([], ArrayAt(taskRecon, "tasks"), false);
    tasks := PushTasks(tasks, ArrayAt(taskRecon, "marketingTasks"), true);
  }

  /** The elements that are objects, in order: those a guarded `forEach` pushes a task for. */
  function Objects(xs: seq<JValue>): seq<JValue> {
    if xs == [] then []
    else
      var n := |xs| - 1;
      Objects(xs[..n]) + if IsObjectLike(xs[n]) then [xs[n]] else []
  }

  /** One task is pushed per element that is an object. */
  lemma {:induction false} PushedTasksCount(acc: seq<TaskSpec>, xs: seq<JValue>, marketing: bool)
    ensures |PushedTasks(acc, xs, marketing)| == |acc| + |Objects(xs)|
  {
    if xs != [] {
      PushedTasksCount(acc, xs[..|xs| - 1], marketing);
    }
  }

  /**
   * The task at list position `|acc| + j` is made from the `j`-th object element with count
   * `|acc| + j`: a task object without an id gets the id naming its own position.
   */
  lemma {:induction false} PushedTaskAt(acc: seq<TaskSpec>, xs: seq<JValue>, marketing: bool, j: nat)
    requires j < |Objects(xs)|
    ensures |acc| + j < |PushedTasks(acc, xs, marketing)|
    ensures PushedTasks(acc, xs, marketing)[|acc| + j] == MakeTask(marketing, |acc| + j, Objects(xs)[j])
  {
    var n := |xs| - 1;
    var prev := PushedTasks(acc, xs[..n], marketing);
    var objsPrev := Objects(xs[..n]);
    PushedTasksCount(acc, xs[..n], marketing);
    if j < |objsPrev| {
      PushedTaskAt(acc, xs[..n], marketing, j);
      assert Objects(xs)[j] == objsPrev[j];
      assert PushedTasks(acc, xs, marketing)[|acc| + j] == prev[|acc| + j];
    } else {
      assert IsObjectLike(xs[n]) && Objects(xs)[j] == xs[n];
    }
  }

  /** The task objects of both arrays, code tasks first: the list position of each is its task's position. */
  function TaskObjects(taskRecon: JValue): seq<JValue> {
    Objects(ArrayAt(taskRecon, "tasks")) + Objects(ArrayAt(taskRecon, "marketingTasks"))
  }

  /**
   * The task list has one task per task object, and the task at position `j` is made from the
   * `j`-th object with count `j`, as a marketing task exactly when the object is a marketing one.
   */
  lemma TasksFromObjects(taskRecon: JValue)
    ensures |Tasks(taskRecon)| == |TaskObjects(taskRecon)|
    ensures forall j :: 0 <= j < |Tasks(taskRecon)| ==>
      Tasks(taskRecon)[j] == MakeTask(j >= |Objects(ArrayAt(taskRecon, "tasks"))|, j, TaskObjects(taskRecon)[j])
  {
    var code, objs := ArrayAt(taskRecon, "tasks"), ArrayAt(taskRecon, "marketingTasks");
    PushedTasksCount([], code, false);
    PushedTasksCount(CodeTasks(taskRecon), objs, true);
    forall j | 0 <= j < |Tasks(taskRecon)|
      ensures Tasks(taskRecon)[j] == MakeTask(j >= |Objects(code)|, j, TaskObjects(taskRecon)[j])
    {
      if j < |Objects(code)| {
        PushedTaskAt([], code, false, j);
        assert Tasks(taskRecon)[j] == CodeTasks(taskRecon)[j];
      } else {
        PushedTaskAt(CodeTasks(taskRecon), objs, true, j - |Objects(code)|);
      }
    }
  }

  /**
   * Tasks whose objects give no id are told apart: two such tasks, code or marketing, get
   * different fallback ids, because each fallback id names the task's own list position.
   */
  lemma FallbackIdsDistinct(taskRecon: JValue, j: nat, k: nat)
    requires j < k < |TaskObjects(taskRecon)|
    requires !NonEmptyAt(TaskObjects(taskRecon)[j], "id") && !NonEmptyAt(TaskObjects(taskRecon)[k], "id")
    ensures k < |Tasks(taskRecon)| && Tasks(taskRecon)[j].id != Tasks(taskRecon)[k].id
  {
    TasksFromObjects(taskRecon);
    var n := |Objects(ArrayAt(taskRecon, "tasks"))|;
    var pj := if j >= n then "marketing-task-" else "task-";
    var pk := if k >= n then "marketing-task-" else "task-";
    var a, b := Tasks(taskRecon)[j].id, Tasks(taskRecon)[k].id;
    assert a == pj + Text.NatToString(j) && b == pk + Text.NatToString(k);
    if pj == pk {
      Text.NumberSuffixDistinct(pj, j, k);
    } else {
      assert a[0] != b[0];
    }
  }

  /** The code tasks come first, then the marketing tasks, each marketing task in phase `marketing`. */
  lemma TasksCodeThenMarketing(taskRecon: JValue)
    ensures var code, all := CodeTasks(taskRecon), Tasks(taskRecon);
      var objs := Objects(ArrayAt(taskRecon, "marketingTasks"));
      code <= all && |all| == |code| + |objs| &&
      forall j :: |code| <= j < |all| ==> all[j].phase == "marketing"
  {
    var code := CodeTasks(taskRecon);
    PushedTasksCount(code, ArrayAt(taskRecon, "marketingTasks"), true);
    var all := Tasks(taskRecon);
    forall j | |code| <= j < |all| ensures all[j].phase == "marketing" {
      PushedTaskAt(code, ArrayAt(taskRecon, "marketingTasks"), true, j - |code|);
    }
  }

  // ─── Dependencies ────────────────────────────────────────────────────────

  /** The string entries of a task's `dependencies` array (none when it is not an array). */
  function DependencyIds(t: JValue): seq<string> {
    StringsOf(ArrayAt(t, "dependencies"))
  }

  /**
   * A task object with a non-empty id and at least one string dependency. (A non-empty string
   * list implies the array is non-empty, which the code also checks.)
   */
  function DependencyOf(i: nat, t: JValue): (d: Option<TaskDependency>)
    ensures d.Some? ==> Some(d.value.task) == ExtractString(t, "id") && d.value.task != "" && d.value.dependsOn != []
  {
    var deps := DependencyIds(t);
    if IsObjectLike(t) && Str(t, "id") != "" && IsArrayAt(t, "dependencies") && |ArrayAt(t, "dependencies")| > 0 && deps != [] then
      Some(TaskDependency(Str(t, "id"), deps))
    else None
  }

  /** A task yields a dependency exactly when it has a non-empty id and some string among its `dependencies`. */
  lemma DependencyOfWhen(i: nat, t: JValue)
    ensures DependencyOf(i, t).Some? <==> (IsObjectLike(t) && NonEmptyAt(t, "id") &&
      exists k :: 0 <= k < |ArrayAt(t, "dependencies")| && ArrayAt(t, "dependencies")[k].JString?)
  {
    var xs, deps := ArrayAt(t, "dependencies"), DependencyIds(t);
    StringsOfMembers(xs);
    if deps != [] {
      assert deps[0] in deps;
      assert JString(deps[0]) in xs;
      var k :| 0 <= k < |xs| && xs[k] == JString(deps[0]);
      assert xs[k].JString?;
    }
    if exists k :: 0 <= k < |xs| && xs[k].JString? {
      var k :| 0 <= k < |xs| && xs[k].JString?;
      assert JString(xs[k].s) in xs;
    }
  }

  function Dependencies(taskRecon: JValue): seq<TaskDependency> {
    Seqs.Collected(ArrayAt(taskRecon, "tasks"), DependencyOf)
  }

  /** `extractDependencies`. */
  method ExtractDependencies(taskRecon: JValue) returns (dependencies: seq<TaskDependency>)
    ensures dependencies == Dependencies(taskRecon)
  {
    dependencies := Seqs.PushCollected([], ArrayAt(taskRecon, "tasks"), DependencyOf);
  }

  /**
   * Every dependency names a code task by its non-empty id and lists, non-empty and in order,
   * exactly the string entries of that task's `dependencies` array.
   */
  lemma DependenciesFromTasks(taskRecon: JValue, j: nat)
    requires j < |Dependencies(taskRecon)|
    ensures var d := Dependencies(taskRecon)[j];
      d.task != "" && d.dependsOn != [] &&
      exists i :: 0 <= i < |ArrayAt(taskRecon, "tasks")| &&
        var t := ArrayAt(taskRecon, "tasks")[i];
        Some(d.task) == ExtractString(t, "id") && d.dependsOn == DependencyIds(t)
  {
    Seqs.CollectedFrom(ArrayAt(taskRecon, "tasks"), DependencyOf, j);
  }

  // ─── Milestones ──────────────────────────────────────────────────────────

  /** `${p.id || ""}`: the id as a template literal prints it, or nothing when it is falsy. */
  function PhaseIdText(p: JValue): string {
    match Get(p, "id")
    case Some(v) => if Truthy(v) then JsToString(v) else ""
    case None => ""
  }

  /** A named build phase becomes a milestone. */
  function PhaseMilestone(i: nat, p: JValue): (m: Option<Milestone>)
    ensures m.Some? <==> IsObjectLike(p) && NonEmptyAt(p, "name")
    ensures m.Some? ==> Some(m.value.name) == ExtractString(p, "name") && |m.value.criteria| == 1
  {
    var name := Str(p, "name");
    if IsObjectLike(p) && name != "" then
      Some(Milestone(name, "Complete Build Phase " + PhaseIdText(p), ["All tasks in " + name + " completed"]))
    else None
  }

  /** A ninety-day-plan milestone object. */
  function PlanMilestone(i: nat, m: JValue): Option<Milestone> {
    if IsObjectLike(m) then
      Some(Milestone(Or(Str(m, "name"), "Unnamed Milestone"), Or(Str(m, "target"), Str(m, "date")), StringsOf(ArrayAt(m, "criteria"))))
    else None
  }

  /** The ninety-day plan's milestone array; a plan that is not an object has none. */
  function PlanMilestoneList(launchExecution: JValue): seq<JValue> {
    match Get(launchExecution, "ninetyDayPlan")
    case Some(plan) => ArrayAt(plan, "milestones")
    case None => []
  }

  function PhaseMilestones(taskRecon: JValue): seq<Milestone> {
    Seqs.Collected(ArrayAt(taskRecon, "buildPhases"), PhaseMilestone)
  }

  function Milestones(taskRecon: JValue, launchExecution: JValue): seq<Milestone> {
    PhaseMilestones(taskRecon) + Seqs.Collected(PlanMilestoneList(launchExecution), PlanMilestone)
  }

  /** `extractMilestones`. */
  method ExtractMilestones(taskRecon: JValue, launchExecution: JValue) returns (milestones: seq<Milestone>)
    ensures milestones == Milestones(taskRecon, launchExecution)
  {
    milestones := Seqs.PushCollected([], ArrayAt(taskRecon, "buildPhases"), PhaseMilestone);
    assert milestones == PhaseMilestones(taskRecon);
    var plan := Get(launchExecution, "ninetyDayPlan");
    if plan.Some? && IsObjectLike(plan.value) {
      assert ArrayAt(plan.value, "milestones") == PlanMilestoneList(launchExecution);
      milestones := Seqs.PushCollected(milestones, ArrayAt(plan.value, "milestones"), PlanMilestone);
    } else {
      assert PlanMilestoneList(launchExecution) == [];
    }
  }

  /**
   * Each build-phase milestone is named after a named build phase and has the single
   * criterion that all that phase's tasks are completed.
   */
  lemma PhaseMilestonesNamed(taskRecon: JValue, j: nat)
    requires j < |PhaseMilestones(taskRecon)|
    ensures var m := PhaseMilestones(taskRecon)[j];
      m.name != "" && m.criteria == ["All tasks in " + m.name + " completed"] &&
      exists i :: 0 <= i < |ArrayAt(taskRecon, "buildPhases")| && Some(m.name) == ExtractString(ArrayAt(taskRecon, "buildPhases")[i], "name")
  {
    Seqs.CollectedFrom(ArrayAt(taskRecon, "buildPhases"), PhaseMilestone, j);
  }
}
