/**
  The Planner (axis/planner.py): linear plans built from phases or templates, and `replan`.
  `uuid4` is a supply of ids: distinct among themselves, and not yet used in the plan.
 */
module Planner {
  import opened Wrappers
  import opened Collections
  import opened PlanTypes
  import opened Text
  import opened Topology
  import opened Renaming

  // ---------------------------------------------------------------- strategies

  const PREFERENCE: seq<Strategy> := [Analytical, RetrievalFirst, ToolFirst, Hybrid, Creative]

  function FirstOther(candidates: seq<Strategy>, current: Strategy): Strategy {
    if candidates == [] then current
    else if candidates[0] != current then candidates[0]
    else FirstOther(candidates[1..], current)
  }

  function AlternativeStrategy(current: Strategy): (s: Strategy)
    ensures s != current
    ensures s == Analytical || (s == RetrievalFirst && current == Analytical)
  {
    FirstOther(PREFERENCE, current)
  }

  function ParseStrategy(name: string): Option<Strategy> {
    match name
    case "analytical" => Some(Analytical)
    case "creative" => Some(Creative)
    case "retrieval_first" => Some(RetrievalFirst)
    case "tool_first" => Some(ToolFirst)
    case "hybrid" => Some(Hybrid)
    case _ => None
  }

  function StrategyName(s: Strategy): string {
    match s
    case Analytical => "analytical"
    case Creative => "creative"
    case RetrievalFirst => "retrieval_first"
    case ToolFirst => "tool_first"
    case Hybrid => "hybrid"
  }

  // ---------------------------------------------------------------- replan

  function RenameDep(failedId: Id, newId: Id, d: Id): Id {
    if d == failedId then newId else d
  }

  /** What `replan` turns one step into. Note that a replaced step keeps its own dependencies as they were. */
  function ReplanStep(s: PlanStep, failedId: Id, newId: Id, strategy: Strategy, error: string): PlanStep {
    if s.stepId == failedId then
      s.(stepId := newId,
         action := s.action + "_retry",
         strategy := strategy,
         prompt := "[retry after error: " + error + "] " + s.prompt)
    else
      s.(dependsOn := MapSeq(d => RenameDep(failedId, newId, d), s.dependsOn))
  }

  function ReplanSteps(steps: seq<PlanStep>, failedId: Id, newId: Id, strategy: Strategy, error: string): (r: seq<PlanStep>)
    ensures |r| == |steps|
    ensures forall i :: 0 <= i < |steps| ==> r[i] == ReplanStep(steps[i], failedId, newId, strategy, error)
  {
    seq(|steps|, i requires 0 <= i < |steps| => ReplanStep(steps[i], failedId, newId, strategy, error))
  }

  function Replanned(plan: Plan, failedId: Id, error: string, newId: Id): Plan {
    var strategy := AlternativeStrategy(plan.strategy);
    plan.(steps := ReplanSteps(plan.steps, failedId, newId, strategy, error),
          strategy := strategy,
          rationale := plan.rationale + "|replan(strategy=" + StrategyName(strategy) + ")")
  }

  method Replan(plan: Plan, failedId: Id, error: string, newId: Id) returns (r: Plan)
    ensures r == Replanned(plan, failedId, error, newId)
  {
    var strategy := AlternativeStrategy(plan.strategy);
    var newSteps: seq<PlanStep> := [];
    for i := 0 to |plan.steps|
      invariant newSteps == ReplanSteps(plan.steps, failedId, newId, strategy, error)[..i]
    {
      var s := plan.steps[i];
      if s.stepId == failedId {
        newSteps := newSteps + [PlanStep(
          newId, s.action + "_retry", strategy, "[retry after error: " + error + "] " + s.prompt,
          s.tool, s.dependsOn, s.maxTokens, s.preconditions, s.postconditions)];
      } else {
        var rewritten := MapSeq(d => RenameDep(failedId, newId, d), s.dependsOn);
        if rewritten != s.dependsOn {
          newSteps := newSteps + [s.(dependsOn := rewritten)];
        } else {
          newSteps := newSteps + [s];
        }
      }
    }
    r := Plan(plan.taskId, newSteps, strategy, plan.budget, plan.gates,
              plan.rationale + "|replan(strategy=" + StrategyName(strategy) + ")");
  }

  /** What uuid4 promises: the id occurs nowhere in the plan. */
  ghost predicate Fresh(steps: seq<PlanStep>, id: Id) {
    id !in Ids(steps) && forall i :: 0 <= i < |steps| ==> id !in steps[i].dependsOn
  }

  ghost predicate DependsOnItself(steps: seq<PlanStep>, id: Id) {
    exists i :: 0 <= i < |steps| && steps[i].stepId == id && id in steps[i].dependsOn
  }

  lemma ReplanIsRenaming(steps: seq<PlanStep>, failedId: Id, newId: Id, strategy: Strategy, error: string)
    requires Fresh(steps, newId) && !DependsOnItself(steps, failedId)
    ensures Renamed(failedId, newId, steps, ReplanSteps(steps, failedId, newId, strategy, error))
  {
    var steps' := ReplanSteps(steps, failedId, newId, strategy, error);
    forall i | 0 <= i < |steps|
      ensures steps'[i].stepId == Swap(failedId, newId, steps[i].stepId)
      ensures steps'[i].dependsOn == SwapAll(failedId, newId, steps[i].dependsOn)
    {
      assert Ids(steps)[i] != newId;
      if steps[i].stepId == failedId { SwapAbsent(failedId, newId, steps[i].dependsOn); }
    }
  }

  lemma SelfDependencyFails(steps: seq<PlanStep>, failedId: Id, newId: Id, strategy: Strategy, error: string)
    requires Fresh(steps, newId) && DependsOnItself(steps, failedId)
    ensures Order(steps).Err? && Order(ReplanSteps(steps, failedId, newId, strategy, error)).Err?
  {
    var steps' := ReplanSteps(steps, failedId, newId, strategy, error);
    var i :| 0 <= i < |steps| && steps[i].stepId == failedId && failedId in steps[i].dependsOn;
    OrderSucceedsIff(steps);
    OrderSucceedsIff(steps');
    assert Depends(steps, failedId, failedId);
    assert IsCycle(steps, [failedId, failedId]);
    assert failedId in steps'[i].dependsOn;
    assert Ids(steps)[i] != newId;
    assert failedId !in Ids(steps');
  }

  /**
    `replan` is an order isomorphism, for every plan and every step named as failed: the new plan
    sorts exactly when the old one did, and then position by position to the rewritten steps.
   */
  lemma ReplanKeepsOrder(plan: Plan, failedId: Id, error: string, newId: Id)
    requires Fresh(plan.steps, newId)
    ensures var next := Replanned(plan, failedId, error, newId);
      && (Order(next.steps).Ok? <==> Order(plan.steps).Ok?)
      && (Order(plan.steps).Ok? ==>
            Order(next.steps).value ==
            ReplanSteps(Order(plan.steps).value, failedId, newId, next.strategy, error))
  {
    var strategy := AlternativeStrategy(plan.strategy);
    var steps, steps' := plan.steps, ReplanSteps(plan.steps, failedId, newId, strategy, error);
    if DependsOnItself(steps, failedId) {
      SelfDependencyFails(steps, failedId, newId, strategy, error);
    } else {
      ReplanIsRenaming(steps, failedId, newId, strategy, error);
      RenamedOrder(failedId, newId, steps, steps');
      if Order(steps).Ok? {
        OrderPositions(steps, steps', failedId, newId, strategy, error);
      }
    }
  }

  lemma OrderPositions(
    steps: seq<PlanStep>, steps': seq<PlanStep>, failedId: Id, newId: Id, strategy: Strategy, error: string)
    requires Renamed(failedId, newId, steps, steps') && Fresh(steps, newId)
    requires steps' == ReplanSteps(steps, failedId, newId, strategy, error)
    requires Order(steps).Ok? && Order(steps').Ok?
    requires Ids(Order(steps').value) == SwapAll(failedId, newId, Ids(Order(steps).value))
    ensures Order(steps').value == ReplanSteps(Order(steps).value, failedId, newId, strategy, error)
  {
    OrderSucceedsIff(steps');
    OrderIds(steps);
    OrderIds(steps');
    var o, o' := Order(steps).value, Order(steps').value;
    assert |o'| == |Ids(o')| == |Ids(o)| == |o|;
    forall k | 0 <= k < |o| ensures o'[k] == ReplanStep(o[k], failedId, newId, strategy, error) {
      assert o[k] in steps && o'[k] in steps';
      var i :| 0 <= i < |steps| && steps[i] == o[k];
      assert Ids(o')[k] == Swap(failedId, newId, Ids(o)[k]);
      SameIdSameStep(steps', steps'[i], o'[k]);
    }
  }

  // ---------------------------------------------------------------- what a replan changes

  /** A retry of `s`: another strategy, marked as a retry, told the error, and otherwise the same. */
  ghost predicate Retries(retry: PlanStep, s: PlanStep, strategy: Strategy, error: string) {
    && retry.strategy == strategy
    && retry.action == s.action + "_retry"
    && Quotes(retry.prompt, error) && EndsWith(retry.prompt, s.prompt) && |retry.prompt| > |error| + |s.prompt|
    && retry.tool == s.tool && retry.dependsOn == s.dependsOn && retry.maxTokens == s.maxTokens
    && retry.preconditions == s.preconditions && retry.postconditions == s.postconditions
  }

  /** The same step, with the dependency on `failedId` redirected. */
  ghost predicate Redirected(next: PlanStep, s: PlanStep, failedId: Id, newId: Id) {
    && next == s.(dependsOn := next.dependsOn)
    && |next.dependsOn| == |s.dependsOn|
    && forall j :: 0 <= j < |s.dependsOn| ==>
         if s.dependsOn[j] == failedId then next.dependsOn[j] == newId else next.dependsOn[j] == s.dependsOn[j]
  }

  lemma RetryStep(s: PlanStep, newId: Id, strategy: Strategy, error: string)
    ensures var r := ReplanStep(s, s.stepId, newId, strategy, error);
      r.stepId == newId && Retries(r, s, strategy, error)
  {
    var r := ReplanStep(s, s.stepId, newId, strategy, error);
    assert r.prompt == Around("[retry after error: ", error, "] " + s.prompt);
    EndsWithTail("[retry after error: " + error + "] ", s.prompt);
    assert r.prompt == ("[retry after error: " + error + "] ") + s.prompt;
  }

  /**
    For every plan, failed id and new id: a step with the failed id is sent again under the new id
    and the new plan's other strategy, as a retry that is told the error; every other step at most
    follows it to the new id; the task, the budget and the gates stay.
   */
  lemma ReplanRetries(plan: Plan, failedId: Id, error: string, newId: Id)
    ensures var next := Replanned(plan, failedId, error, newId);
      && |next.steps| == |plan.steps| && next.strategy != plan.strategy
      && next.taskId == plan.taskId && next.budget == plan.budget && next.gates == plan.gates
      && forall i :: 0 <= i < |plan.steps| ==>
           if plan.steps[i].stepId == failedId
           then next.steps[i].stepId == newId && Retries(next.steps[i], plan.steps[i], next.strategy, error)
           else Redirected(next.steps[i], plan.steps[i], failedId, newId)
  {
    hide Retries;
    var next := Replanned(plan, failedId, error, newId);
    forall i | 0 <= i < |plan.steps| && plan.steps[i].stepId == failedId
      ensures next.steps[i].stepId == newId && Retries(next.steps[i], plan.steps[i], next.strategy, error)
    {
      RetryStep(plan.steps[i], newId, next.strategy, error);
    }
  }

  // ---------------------------------------------------------------- chains

  function Predecessor(steps: seq<PlanStep>, i: nat): seq<Id>
    requires i < |steps|
  {
    if i == 0 then [] else [steps[i - 1].stepId]
  }

  /** A linear plan: each step depends on just the one before it. */
  ghost predicate IsChain(steps: seq<PlanStep>) {
    && Distinct(Ids(steps))
    && forall i {:trigger steps[i].dependsOn} :: 0 <= i < |steps| ==>
         steps[i].dependsOn == Predecessor(steps, i)
  }

  lemma ChainDepsEarlier(steps: seq<PlanStep>)
    requires IsChain(steps)
    ensures DepsEarlier(steps, Ids(steps))
    ensures DuplicateFreeDeps(steps)
  {
    var ids := Ids(steps);
    forall i, k, d | 0 <= i < |steps| && 0 <= k < |ids| && ids[k] == steps[i].stepId && d in steps[i].dependsOn
      ensures EarlierIn(ids, k, d)
    {
      assert ids[i] == ids[k];
      assert steps[i].dependsOn == Predecessor(steps, i);
      assert ids[i - 1] == d;
    }
    forall i | 0 <= i < |steps| ensures Distinct(steps[i].dependsOn) {
      assert steps[i].dependsOn == Predecessor(steps, i);
    }
  }

  lemma ChainIsWellFormed(steps: seq<PlanStep>)
    requires IsChain(steps)
    ensures WellFormed(steps)
  {
    ChainDepsEarlier(steps);
    SortedMeansAcyclic(steps, Ids(steps));
    forall i, d | 0 <= i < |steps| && d in steps[i].dependsOn ensures d in Ids(steps) {
      assert Ids(steps)[i] == steps[i].stepId;
      assert EarlierIn(Ids(steps), i, d);
    }
  }

  ghost function IndexIn(steps: seq<PlanStep>, s: PlanStep): (i: nat)
    requires s in steps
    ensures i < |steps| && steps[i] == s
  {
    var i :| 0 <= i < |steps| && steps[i] == s; i
  }

  /** A chain step whose predecessor is among the first `i` steps is one of the first `i + 1`. */
  lemma AfterItsPredecessor(steps: seq<PlanStep>, entered: seq<Id>, i: nat, j: nat)
    requires IsChain(steps) && i <= |steps| && j < |steps| && i <= |entered|
    requires forall q :: 0 <= q < i ==> entered[q] == Ids(steps)[q]
    requires j > 0 ==> EarlierIn(entered, i, Ids(steps)[j - 1])
    ensures j <= i
  {
    if j > 0 {
      var q :| 0 <= q < i && entered[q] == Ids(steps)[j - 1];
      assert Ids(steps)[q] == Ids(steps)[j - 1];
    }
  }

  /** If an order agrees with a chain before position `i`, only the chain's next step can come there. */
  lemma ChainNext(steps: seq<PlanStep>, order: seq<PlanStep>, i: nat)
    requires IsChain(steps) && IsTopological(steps, order) && i < |steps|
    requires forall q :: 0 <= q < i ==> Ids(order)[q] == Ids(steps)[q]
    ensures order[i] == steps[i]
  {
    assert order[i] in steps;
    var j := IndexIn(steps, order[i]);
    assert steps[j].dependsOn == Predecessor(steps, j);
    if j > 0 {
      assert Ids(steps)[j - 1] in order[i].dependsOn;
    }
    AfterItsPredecessor(steps, Ids(order), i, j);
    assert Ids(steps)[j] == Ids(order)[i];
  }

  lemma TopologicalLength(steps: seq<PlanStep>, order: seq<PlanStep>)
    requires IsTopological(steps, order)
    ensures |order| == |steps|
  {
  }

  /** The only topological order of a chain is the chain. */
  lemma {:induction false} ChainHasOneOrder(steps: seq<PlanStep>, order: seq<PlanStep>, k: nat)
    requires IsChain(steps) && IsTopological(steps, order) && k <= |steps|
    ensures |order| == |steps| && forall q :: 0 <= q < k ==> order[q] == steps[q]
  {
    hide IsChain, IsTopological;
    assert |order| == |steps| by { TopologicalLength(steps, order); }
    if k > 0 {
      ChainHasOneOrder(steps, order, k - 1);
      ChainNext(steps, order, k - 1);
    }
  }

  /** A chain sorts to exactly its own step list. */
  lemma ChainOrder(steps: seq<PlanStep>)
    requires IsChain(steps)
    ensures Order(steps) == Ok(steps)
  {
    ChainIsWellFormed(steps);
    OrderSucceedsIff(steps);
    var order := Order(steps).value;
    assert order == steps by {
      OrderIsTopological(steps);
      ChainHasOneOrder(steps, order, |steps|);
    }
  }

  lemma ReplanKeepsChain(steps: seq<PlanStep>, failedId: Id, newId: Id, strategy: Strategy, error: string)
    requires IsChain(steps) && Fresh(steps, newId)
    ensures IsChain(ReplanSteps(steps, failedId, newId, strategy, error))
  {
    var steps' := ReplanSteps(steps, failedId, newId, strategy, error);
    forall i | 0 <= i < |steps|
      ensures steps'[i].stepId == RenameDep(failedId, newId, Ids(steps)[i])
      ensures steps'[i].dependsOn == Predecessor(steps', i)
    {
      if i > 0 {
        assert Ids(steps)[i - 1] != Ids(steps)[i];
      }
    }
    forall i, j | 0 <= i < j < |steps| ensures Ids(steps')[i] != Ids(steps')[j] {
      assert Ids(steps)[i] != Ids(steps)[j] && Ids(steps)[i] != newId && Ids(steps)[j] != newId;
    }
  }

  // ---------------------------------------------------------------- decomposition

  datatype Phase = Phase(action: string, tool: Option<string>, strategy: Strategy)

  function PromptFor(action: string, input: string): string {
    "[" + action + "] Task: " + input
  }

  /** Every prompt names its action and ends with the task's input. */
  lemma PromptSays(action: string, input: string)
    ensures Quotes(PromptFor(action, input), action) && EndsWith(PromptFor(action, input), input)
  {
    assert PromptFor(action, input) == Around("[", action, "] Task: " + input);
    EndsWithTail("[" + action + "] Task: ", input);
  }

  function Max(a: int, b: int): int { if a >= b then a else b }

  /** Tokens promised to each of `n` steps out of `e` execution tokens (floor division). */
  function PerStep(e: int, n: int): (p: int)
    requires n >= 1
    ensures p >= 256
    ensures p == 256 || (p * n <= e && e < p * n + n)
  {
    Max(256, e / n)
  }

  /** The linear plan over `phases` with the given ids. */
  function Linear(phases: seq<Phase>, ids: seq<Id>, input: string, perStep: int): (steps: seq<PlanStep>)
    requires |ids| >= |phases|
    ensures |steps| == |phases|
  {
    seq(|phases|, i requires 0 <= i < |phases| =>
      PlanStep(ids[i], phases[i].action, phases[i].strategy, PromptFor(phases[i].action, input), phases[i].tool,
               if i == 0 then [] else [ids[i - 1]], perStep, [], []))
  }

  /** The loop shared by `_default_decomposition` and `_instantiate_template`. */
  method BuildChain(phases: seq<Phase>, ids: seq<Id>, input: string, perStep: int) returns (steps: seq<PlanStep>)
    requires |ids| >= |phases|
    ensures steps == Linear(phases, ids, input, perStep)
  {
    steps := [];
    var prevId: Option<Id> := None;
    for i := 0 to |phases|
      invariant steps == Linear(phases, ids, input, perStep)[..i]
      invariant prevId == if i == 0 then None else Some(ids[i - 1])
    {
      var sid := ids[i];
      steps := steps + [PlanStep(sid, phases[i].action, phases[i].strategy, PromptFor(phases[i].action, input),
                                 phases[i].tool, if prevId.Some? then [prevId.value] else [], perStep, [], [])];
      prevId := Some(sid);
    }
  }

  /** The phases of a plan made without a template. */
  function DefaultPhases(retrievalGate: bool, strategy: Strategy): (phases: seq<Phase>)
    ensures 2 <= |phases| <= 3 || (retrievalGate && strategy == ToolFirst && |phases| == 4)
    ensures phases[|phases| - 1].action == "produce_final_answer"
    ensures phases[|phases| - 2] == Phase("reason_about_task", None, strategy)
    ensures phases[0].tool == Some("retrieval") <==> retrievalGate || strategy == RetrievalFirst
    ensures |phases| > 2 && phases[|phases| - 3].tool == Some("primary_tool") <==> strategy == ToolFirst
    ensures forall i :: 0 <= i < |phases| ==> phases[i].strategy == strategy
  {
    assert "retrieval" != "primary_tool" by { assert |"retrieval"| != |"primary_tool"|; }
    (if retrievalGate || strategy == RetrievalFirst
     then [Phase("retrieve_context", Some("retrieval"), strategy)] else [])
    + (if strategy == ToolFirst then [Phase("invoke_primary_tool", Some("primary_tool"), strategy)] else [])
    + [Phase("reason_about_task", None, strategy), Phase("produce_final_answer", None, strategy)]
  }

  datatype TemplateStep = TemplateStep(action: string, tool: Option<string>, strategyName: Option<string>)

  datatype Template = Template(name: string, steps: seq<TemplateStep>)

  function TemplatePhases(steps: seq<TemplateStep>): (phases: seq<Phase>)
    ensures |phases| == |steps|
  {
    seq(|steps|, i requires 0 <= i < |steps| =>
      Phase(steps[i].action, steps[i].tool,
            ParseStrategy(steps[i].strategyName.GetOr("analytical")).GetOr(Analytical)))
  }

  function Phases(template: Option<Template>, retrievalGate: bool, strategy: Strategy): seq<Phase> {
    if template.Some? then TemplatePhases(template.value.steps) else DefaultPhases(retrievalGate, strategy)
  }

  /** Every plan the Planner builds, and every plan `replan` makes from one. */
  ghost predicate PlannerBuilt(plan: Plan) {
    && IsChain(plan.steps)
    && forall i :: 0 <= i < |plan.steps| ==>
         plan.steps[i].maxTokens == PerStep(plan.budget.executionTokens, |plan.steps|)
  }

  lemma LinearIsChain(phases: seq<Phase>, ids: seq<Id>, input: string, perStep: int)
    requires Distinct(ids) && |ids| >= |phases|
    ensures IsChain(Linear(phases, ids, input, perStep))
    ensures forall i :: 0 <= i < |phases| ==> Linear(phases, ids, input, perStep)[i].maxTokens == perStep
  {
    var steps := Linear(phases, ids, input, perStep);
    assert Ids(steps) == ids[..|steps|];
    forall i | 0 <= i < |steps|
      ensures steps[i].dependsOn == Predecessor(steps, i)
    {
      assert steps[i].dependsOn == if i == 0 then [] else [ids[i - 1]];
    }
  }

  lemma NoStepsIsChain()
    ensures IsChain([])
  {
  }

  /**
    `plan`, given the strategy chosen for the task and the class's template, if any.
    An empty template gives a plan with no steps.
   */
  method MakePlan(
    taskId: Id, input: string, template: Option<Template>, strategy: Strategy, budget: Budget, gates: Gates, ids: seq<Id>)
    returns (plan: Plan)
    requires Distinct(ids) && |ids| >= |Phases(template, gates.retrieval, strategy)|
    ensures var phases := Phases(template, gates.retrieval, strategy);
      plan.steps == if phases == [] then [] else
                    Linear(phases, ids, input, PerStep(budget.executionTokens, |phases|))
    ensures plan.strategy == strategy && plan.budget == budget && plan.gates == gates && plan.taskId == taskId
    ensures plan.rationale ==
      if template.Some? then "procedural_template:" + template.value.name
      else "default_decomposition:" + StrategyName(strategy)
    ensures PlannerBuilt(plan) && Order(plan.steps) == Ok(plan.steps)
  {
    hide Linear, IsChain, PerStep, DefaultPhases, TemplatePhases, StrategyName;
    NoStepsIsChain();
    var phases, rationale;
    if template.Some? {
      phases := TemplatePhases(template.value.steps);
      rationale := "procedural_template:" + template.value.name;
    } else {
      phases := DefaultPhases(gates.retrieval, strategy);
      rationale := "default_decomposition:" + StrategyName(strategy);
    }
    var steps: seq<PlanStep> := [];
    if phases != [] {
      var perStep := PerStep(budget.executionTokens, |phases|);
      steps := BuildChain(phases, ids, input, perStep);
      LinearIsChain(phases, ids, input, perStep);
    }
    plan := Plan(taskId, steps, strategy, budget, gates, rationale);
    ChainOrder(plan.steps);
  }

  /** Any number of replans, each naming any step and using an id fresh for the plan at hand. */
  datatype ReplanEvent = ReplanEvent(failedId: Id, error: string, newId: Id)

  ghost predicate FreshThroughout(plan: Plan, events: seq<ReplanEvent>)
    decreases |events|
  {
    events == [] ||
    (Fresh(plan.steps, events[0].newId) &&
     FreshThroughout(Replanned(plan, events[0].failedId, events[0].error, events[0].newId), events[1..]))
  }

  ghost function ReplanAll(plan: Plan, events: seq<ReplanEvent>): Plan
    decreases |events|
  {
    if events == [] then plan
    else ReplanAll(Replanned(plan, events[0].failedId, events[0].error, events[0].newId), events[1..])
  }

  lemma ReplanKeepsBuilt(plan: Plan, failedId: Id, error: string, newId: Id)
    requires PlannerBuilt(plan) && Fresh(plan.steps, newId)
    ensures PlannerBuilt(Replanned(plan, failedId, error, newId))
  {
    ReplanKeepsChain(plan.steps, failedId, newId, AlternativeStrategy(plan.strategy), error);
  }

  /** A planner-built plan sorts to its own step list, however often it has been replanned. */
  lemma {:induction false} ReplannedChainOrder(plan: Plan, events: seq<ReplanEvent>)
    requires PlannerBuilt(plan) && FreshThroughout(plan, events)
    ensures var last := ReplanAll(plan, events);
      && PlannerBuilt(last)
      && Order(last.steps) == Ok(last.steps)
      && |last.steps| == |plan.steps| && last.budget == plan.budget && last.gates == plan.gates
    decreases |events|
  {
    if events == [] {
      ChainOrder(plan.steps);
    } else {
      ReplanKeepsBuilt(plan, events[0].failedId, events[0].error, events[0].newId);
      ReplannedChainOrder(Replanned(plan, events[0].failedId, events[0].error, events[0].newId), events[1..]);
    }
  }
}
