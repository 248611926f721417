/**
  The Executor (axis/executor.py): runs a plan's steps in order under a token budget.

  The backend is an oracle: its reply may depend on everything it has been asked so far, and
  nothing else is known about it. `Execution` is `execute_plan` as a function of the plan,
  the working memory and that oracle; the classes below are the code, proved equal to it.
 */
module Executor {
  import opened Wrappers
  import opened Collections
  import opened PlanTypes
  import opened Text
  import opened Topology
  import opened Planner

  datatype Request = Request(prompt: string, maxTokens: int, tool: Option<string>)

  datatype Reply =
    | Raised(exception: string)
    | Replied(output: string, tokensUsed: int, toolCalls: seq<ToolCall>, success: bool, error: Option<string>)

  type Behaviour = seq<Request> -> Reply

  // ---------------------------------------------------------------- one step

  /** What the Executor reads and writes while it runs a plan. */
  datatype RunState = RunState(
    results: seq<StepResult>,
    tokens: int,
    outputs: map<Id, string>,
    toolCalls: seq<ToolCall>,
    calls: seq<Request>)

  function Short(id: Id): string {
    if |id| <= 8 then id else id[..8]
  }

  /** `"\n".join(parts)` over the dependencies' non-empty outputs and the step's own prompt. */
  function Context(deps: seq<Id>, prompt: string, outputs: map<Id, string>): string {
    if deps == [] then prompt
    else
      var rest := Context(deps[1..], prompt, outputs);
      if deps[0] in outputs && outputs[deps[0]] != ""
      then "[dep:" + Short(deps[0]) + "] " + outputs[deps[0]] + "\n" + rest
      else rest
  }

  lemma ContextStep(deps: seq<Id>, prompt: string, outputs: map<Id, string>)
    requires deps != [] && deps[0] in outputs && outputs[deps[0]] != ""
    ensures var c, rest := Context(deps, prompt, outputs), Context(deps[1..], prompt, outputs);
      && Quotes(c, outputs[deps[0]])
      && EndsWith(c, rest)
  {
    var head, rest := "[dep:" + Short(deps[0]) + "] ", Context(deps[1..], prompt, outputs);
    assert Context(deps, prompt, outputs) == Around(head, outputs[deps[0]], "\n" + rest);
    EndsWithTail(head + outputs[deps[0]] + "\n", rest);
    assert Context(deps, prompt, outputs) == (head + outputs[deps[0]] + "\n") + rest;
  }

  /** Every dependency with something to say is quoted in the context sent to the backend, which ends with the step's own prompt. */
  lemma {:induction false} ContextQuotes(deps: seq<Id>, prompt: string, outputs: map<Id, string>, d: Id)
    ensures EndsWith(Context(deps, prompt, outputs), prompt)
    ensures d in deps && d in outputs && outputs[d] != "" ==> Quotes(Context(deps, prompt, outputs), outputs[d])
  {
    hide Quotes, Short;
    if deps != [] {
      var rest := Context(deps[1..], prompt, outputs);
      ContextQuotes(deps[1..], prompt, outputs, d);
      if deps[0] in outputs && outputs[deps[0]] != "" {
        ContextStep(deps, prompt, outputs);
        var c := Context(deps, prompt, outputs);
        var head := c[..|c| - |rest|];
        assert c == head + rest;
        if d in deps[1..] && d in outputs && outputs[d] != "" { QuotesLater(head, rest, outputs[d]); }
      }
    }
  }

  function RequestFor(step: PlanStep, outputs: map<Id, string>): Request {
    Request(Context(step.dependsOn, step.prompt, outputs), step.maxTokens, step.tool)
  }

  /** The hard ceiling: what the backend reports, capped by the promise and never negative. */
  function Charge(reported: int, ceiling: int): (t: int)
    ensures 0 <= t && (t <= ceiling || t == 0)
    ensures 0 <= reported <= ceiling ==> t == reported
  {
    Max(0, if reported <= ceiling then reported else ceiling)
  }

  function ResultOf(step: PlanStep, reply: Reply): StepResult {
    match reply
    case Raised(e) => StepResult(step.stepId, "", 0, [], false, Some("backend_exception: " + e))
    case Replied(output, tokens, toolCalls, success, error) =>
      StepResult(step.stepId, output, Charge(tokens, step.maxTokens), toolCalls, success, error)
  }

  function RunStep(step: PlanStep, s: RunState, behaviour: Behaviour): RunState {
    var calls := s.calls + [RequestFor(step, s.outputs)];
    var r := ResultOf(step, behaviour(calls));
    RunState(s.results + [r], s.tokens + r.tokensUsed,
             if r.success then s.outputs[step.stepId := r.output] else s.outputs,
             if r.success then s.toolCalls + r.toolCalls else s.toolCalls,
             calls)
  }

  // ---------------------------------------------------------------- the whole plan

  datatype Finish = Finish(state: RunState, outcome: TaskOutcome, error: Option<string>)

  const EXHAUSTED: string := "execution_budget_exhausted"

  function Walk(order: seq<PlanStep>, k: nat, s: RunState, budget: int, behaviour: Behaviour): Finish
    requires k <= |order|
    decreases |order| - k
  {
    if k == |order| then Finish(s, Success, None)
    else if s.tokens >= budget then Finish(s, Partial, Some(EXHAUSTED))
    else
      var s' := RunStep(order[k], s, behaviour);
      var r := s'.results[|s.results|];
      if !r.success then Finish(s', Failure, r.error)
      else Walk(order, k + 1, s', budget, behaviour)
  }

  function Message(e: PlanError): string {
    match e
    case UnknownDependency(id, dep) => "invalid_plan: step " + id + " depends on unknown " + dep
    case NotAllReached => "invalid_plan: plan contains a cycle"
  }

  function Execution(plan: Plan, s: RunState, behaviour: Behaviour): Finish {
    match Order(plan.steps)
    case Err(e) => Finish(s, Failure, Some(Message(e)))
    case Ok(order) => Walk(order, 0, s, plan.budget.executionTokens, behaviour)
  }

  /** Where every call of `execute_plan` starts: an empty trace. */
  ghost predicate Begin(s: RunState) {
    s.results == [] && s.tokens == 0
  }

  // ---------------------------------------------------------------- what a run amounts to

  function Sum(results: seq<StepResult>): int {
    if results == [] then 0 else Sum(results[..|results| - 1]) + results[|results| - 1].tokensUsed
  }

  /** `step_outputs` after `results`, starting from `base`: successful steps write, failed ones do not. */
  function OutputsOf(base: map<Id, string>, results: seq<StepResult>): map<Id, string> {
    if results == [] then base
    else
      var m := OutputsOf(base, results[..|results| - 1]);
      var r := results[|results| - 1];
      if r.success then m[r.stepId := r.output] else m
  }

  /** `s` is what running the first `|s.results|` steps of `order` from `s0` gives. */
  ghost predicate Ran(order: seq<PlanStep>, s0: RunState, s: RunState, budget: int) {
    var n := |s.results|;
    && n <= |order|
    && s.tokens == Sum(s.results)
    && s.outputs == OutputsOf(s0.outputs, s.results)
    && |s.calls| == |s0.calls| + n && s.calls[..|s0.calls|] == s0.calls
    && (forall i :: 0 <= i < n - 1 ==> s.results[i].success)
    && forall i :: 0 <= i < n ==> Recorded(order, s0, s, budget, i)
  }

  /** What is on record about the `i`th step that ran: its result, its charge, and the request sent for it. */
  ghost predicate Recorded(order: seq<PlanStep>, s0: RunState, s: RunState, budget: int, i: nat)
    requires i < |order| && i < |s.results| && |s0.calls| + i < |s.calls|
  {
    && s.results[i].stepId == order[i].stepId
    && 0 <= s.results[i].tokensUsed <= Max(0, order[i].maxTokens)
    && Sum(s.results[..i]) < budget
    && s.calls[|s0.calls| + i] == RequestFor(order[i], OutputsOf(s0.outputs, s.results[..i]))
  }

  ghost predicate AllSucceeded(results: seq<StepResult>) {
    forall i :: 0 <= i < |results| ==> results[i].success
  }

  lemma ResultCharged(step: PlanStep, reply: Reply)
    ensures var r := ResultOf(step, reply);
      r.stepId == step.stepId && 0 <= r.tokensUsed <= Max(0, step.maxTokens)
  {
  }

  lemma RunStepRan(order: seq<PlanStep>, s0: RunState, s: RunState, budget: int, behaviour: Behaviour)
    requires Ran(order, s0, s, budget) && AllSucceeded(s.results)
    requires |s.results| < |order| && s.tokens < budget
    ensures Ran(order, s0, RunStep(order[|s.results|], s, behaviour), budget)
  {
    hide Context, ResultOf, Charge, RequestFor;
    var n := |s.results|;
    var s' := RunStep(order[n], s, behaviour);
    ResultCharged(order[n], behaviour(s'.calls));
    assert s'.results[..n] == s.results;
    forall i | 0 <= i < n ensures Recorded(order, s0, s', budget, i) {
      assert Recorded(order, s0, s, budget, i);
      assert s'.results[..i] == s.results[..i];
    }
    assert Recorded(order, s0, s', budget, n);
  }

  /** How the three outcomes relate to the results, and which error they carry. */
  ghost predicate Classified(order: seq<PlanStep>, f: Finish, budget: int) {
    var n := |f.state.results|;
    && (f.outcome == Success <==> n == |order| && AllSucceeded(f.state.results))
    && (f.outcome == Failure <==> n > 0 && !f.state.results[n - 1].success)
    && (f.outcome == Partial <==> n < |order| && AllSucceeded(f.state.results))
    && (f.outcome == Partial ==> f.state.tokens >= budget)
    && f.error == match f.outcome
         case Success => None
         case Partial => Some(EXHAUSTED)
         case Failure => if n > 0 then f.state.results[n - 1].error else None
  }

  lemma {:induction false} WalkFacts(
    order: seq<PlanStep>, s0: RunState, s: RunState, budget: int, behaviour: Behaviour)
    requires Ran(order, s0, s, budget) && AllSucceeded(s.results)
    ensures var f := Walk(order, |s.results|, s, budget, behaviour);
      Ran(order, s0, f.state, budget) && Classified(order, f, budget)
    decreases |order| - |s.results|
  {
    var k := |s.results|;
    if k < |order| && s.tokens < budget {
      RunStepRan(order, s0, s, budget, behaviour);
      var s' := RunStep(order[k], s, behaviour);
      if s'.results[k].success { WalkFacts(order, s0, s', budget, behaviour); }
    }
  }

  /**
    Every execution of a plan that sorts: the results follow a prefix of the order, the token
    counters are the sum of the steps' charges, each step started under budget, and the outcome
    is Success, Failure or Partial exactly as `Classified` says.
   */
  lemma ExecutionFacts(plan: Plan, s0: RunState, behaviour: Behaviour)
    requires Begin(s0) && Order(plan.steps).Ok?
    ensures var f := Execution(plan, s0, behaviour);
      && Ran(Order(plan.steps).value, s0, f.state, plan.budget.executionTokens)
      && Classified(Order(plan.steps).value, f, plan.budget.executionTokens)
  {
    WalkFacts(Order(plan.steps).value, s0, s0, plan.budget.executionTokens, behaviour);
  }

  // ---------------------------------------------------------------- what the backend's replies decide

  /** The backend did the step: it did not raise, and reports success. */
  predicate Accepted(reply: Reply) {
    reply.Replied? && reply.success
  }

  /** What a result has to do with the reply it stands for: a reply is recorded as it came, an exception costs nothing. */
  ghost predicate Answers(r: StepResult, step: PlanStep, reply: Reply) {
    && (r.success <==> Accepted(reply))
    && (reply.Raised? ==>
          && r.output == "" && r.toolCalls == [] && r.tokensUsed == 0
          && r.error.Some? && EndsWith(r.error.value, reply.exception))
    && (reply.Replied? ==>
          && r.output == reply.output && r.toolCalls == reply.toolCalls && r.error == reply.error
          && (reply.tokensUsed <= 0 || step.maxTokens <= 0 ==> r.tokensUsed == 0)
          && (0 <= reply.tokensUsed <= step.maxTokens ==> r.tokensUsed == reply.tokensUsed)
          && (0 <= step.maxTokens <= reply.tokensUsed ==> r.tokensUsed == step.maxTokens))
  }

  /** The reply to the `i`th request of an execution that started at `s0` and got to `s`. */
  ghost function ReplyAt(s0: RunState, s: RunState, behaviour: Behaviour, i: nat): Reply
    requires |s0.calls| + i < |s.calls|
  {
    behaviour(s.calls[..|s0.calls| + i + 1])
  }

  /** The tool calls of the steps that succeeded. */
  function ToolCallsOf(results: seq<StepResult>): seq<ToolCall> {
    if results == [] then []
    else
      var r := results[|results| - 1];
      ToolCallsOf(results[..|results| - 1]) + if r.success then r.toolCalls else []
  }

  /** Every result answers its own reply, and the tool calls collected are those of the successful ones. */
  ghost predicate Answered(order: seq<PlanStep>, s0: RunState, s: RunState, behaviour: Behaviour) {
    && |s.results| <= |order| && |s.calls| == |s0.calls| + |s.results|
    && s.toolCalls == s0.toolCalls + ToolCallsOf(s.results)
    && forall i :: 0 <= i < |s.results| ==> Answers(s.results[i], order[i], ReplyAt(s0, s, behaviour, i))
  }

  lemma ResultAnswers(step: PlanStep, reply: Reply)
    ensures Answers(ResultOf(step, reply), step, reply)
  {
    if reply.Raised? { EndsWithTail("backend_exception: ", reply.exception); }
  }

  lemma RunStepAnswered(order: seq<PlanStep>, s0: RunState, s: RunState, behaviour: Behaviour)
    requires Answered(order, s0, s, behaviour) && |s.results| < |order|
    ensures Answered(order, s0, RunStep(order[|s.results|], s, behaviour), behaviour)
  {
    hide Answers, ResultOf, RequestFor, ToolCallsOf, ReplyAt;
    var n := |s.results|;
    var s' := RunStep(order[n], s, behaviour);
    ToolCallsSnoc(s.results, s'.results[n]);
    assert s'.results == s.results + [s'.results[n]];
    forall i | 0 <= i <= n ensures Answers(s'.results[i], order[i], ReplyAt(s0, s', behaviour, i)) {
      if i < n {
        SameReply(s0, s, s', behaviour, i);
        assert s'.results[i] == s.results[i];
      } else {
        ResultAnswers(order[n], behaviour(s'.calls));
        LastReply(s0, s', behaviour);
      }
    }
    assert s'.toolCalls == s0.toolCalls + ToolCallsOf(s'.results);
  }

  lemma ToolCallsSnoc(results: seq<StepResult>, r: StepResult)
    ensures ToolCallsOf(results + [r]) == ToolCallsOf(results) + if r.success then r.toolCalls else []
  {
    assert (results + [r])[..|results|] == results;
  }

  lemma SameReply(s0: RunState, s: RunState, s': RunState, behaviour: Behaviour, i: nat)
    requires |s0.calls| + i < |s.calls| && s.calls <= s'.calls
    ensures ReplyAt(s0, s', behaviour, i) == ReplyAt(s0, s, behaviour, i)
  {
    assert s'.calls[..|s0.calls| + i + 1] == s.calls[..|s0.calls| + i + 1];
  }

  lemma LastReply(s0: RunState, s: RunState, behaviour: Behaviour)
    requires |s.calls| > |s0.calls|
    ensures ReplyAt(s0, s, behaviour, |s.calls| - |s0.calls| - 1) == behaviour(s.calls)
  {
    assert s.calls[..|s.calls|] == s.calls;
  }

  lemma {:induction false} WalkAnswered(
    order: seq<PlanStep>, s0: RunState, s: RunState, budget: int, behaviour: Behaviour)
    requires Answered(order, s0, s, behaviour)
    ensures Answered(order, s0, Walk(order, |s.results|, s, budget, behaviour).state, behaviour)
    decreases |order| - |s.results|
  {
    hide Answered;
    var k := |s.results|;
    AnsweredLength(order, s0, s, behaviour);
    if k < |order| && s.tokens < budget {
      RunStepAnswered(order, s0, s, behaviour);
      var s' := RunStep(order[k], s, behaviour);
      if s'.results[k].success { WalkAnswered(order, s0, s', budget, behaviour); }
    }
  }

  lemma AnsweredLength(order: seq<PlanStep>, s0: RunState, s: RunState, behaviour: Behaviour)
    requires Answered(order, s0, s, behaviour)
    ensures |s.results| <= |order|
  {
  }

  /**
    The backend's replies decide an execution, for every plan that sorts: it succeeds just when all
    steps were asked for and every reply came back with success, it fails just when the last reply
    was an exception or a failure, and what is recorded and collected is what was replied.
   */
  lemma RepliesDecide(plan: Plan, s0: RunState, behaviour: Behaviour)
    requires Begin(s0) && Order(plan.steps).Ok?
    ensures var order, f := Order(plan.steps).value, Execution(plan, s0, behaviour);
      var n := |f.state.results|;
      && Answered(order, s0, f.state, behaviour)
      && (f.outcome == Success <==>
            n == |order| && forall i :: 0 <= i < n ==> Accepted(ReplyAt(s0, f.state, behaviour, i)))
      && (f.outcome == Failure <==> n > 0 && !Accepted(ReplyAt(s0, f.state, behaviour, n - 1)))
      && (forall i :: 0 <= i < n - 1 ==> Accepted(ReplyAt(s0, f.state, behaviour, i)))
      && f.state.outputs == OutputsOf(s0.outputs, f.state.results)
  {
    hide Walk, Order, ToolCallsOf, OutputsOf;
    var order, f := Order(plan.steps).value, Execution(plan, s0, behaviour);
    ExecutionFacts(plan, s0, behaviour);
    StartAnswered(order, s0, behaviour);
    WalkAnswered(order, s0, s0, plan.budget.executionTokens, behaviour);
    forall i | 0 <= i < |f.state.results|
      ensures f.state.results[i].success <==> Accepted(ReplyAt(s0, f.state, behaviour, i))
    {
      assert Answers(f.state.results[i], order[i], ReplyAt(s0, f.state, behaviour, i));
    }
  }

  lemma StartAnswered(order: seq<PlanStep>, s0: RunState, behaviour: Behaviour)
    requires Begin(s0)
    ensures Answered(order, s0, s0, behaviour)
  {
  }

  /** A successful execution leaves every step's own reply in the working memory. */
  lemma SuccessFillsMemory(plan: Plan, s0: RunState, behaviour: Behaviour, i: nat)
    requires Begin(s0) && Order(plan.steps).Ok? && i < |Order(plan.steps).value|
    requires Execution(plan, s0, behaviour).outcome == Success
    ensures var order, s := Order(plan.steps).value, Execution(plan, s0, behaviour).state;
      && |s0.calls| + i < |s.calls| && ReplyAt(s0, s, behaviour, i).Replied?
      && order[i].stepId in s.outputs && s.outputs[order[i].stepId] == ReplyAt(s0, s, behaviour, i).output
  {
    hide Execution, Order, OutputsOf, ReplyAt, ToolCallsOf;
    ExecutionFacts(plan, s0, behaviour);
    RepliesDecide(plan, s0, behaviour);
    OrderIsTopological(plan.steps);
    var order, s := Order(plan.steps).value, Execution(plan, s0, behaviour).state;
    forall p, q | 0 <= p < q < |s.results| ensures s.results[p].stepId != s.results[q].stepId {
      assert Recorded(order, s0, s, plan.budget.executionTokens, p) && Recorded(order, s0, s, plan.budget.executionTokens, q);
      assert Ids(order)[p] != Ids(order)[q];
    }
    assert Recorded(order, s0, s, plan.budget.executionTokens, i);
    assert Answers(s.results[i], order[i], ReplyAt(s0, s, behaviour, i));
    OutputsLookup(s0.outputs, s.results, i);
  }

  /** An invalid plan fails without asking the backend anything. */
  lemma InvalidPlanFails(plan: Plan, s0: RunState, behaviour: Behaviour)
    requires !WellFormed(plan.steps)
    ensures var f := Execution(plan, s0, behaviour); f.outcome == Failure && f.state == s0 && f.error.Some?
  {
    OrderSucceedsIff(plan.steps);
  }

  lemma {:induction false} OutputsLookup(base: map<Id, string>, results: seq<StepResult>, j: nat)
    requires j < |results| && results[j].success
    requires forall i, k :: 0 <= i < k < |results| ==> results[i].stepId != results[k].stepId
    ensures results[j].stepId in OutputsOf(base, results)
    ensures OutputsOf(base, results)[results[j].stepId] == results[j].output
  {
    var n := |results| - 1;
    if j < n { OutputsLookup(base, results[..n], j); }
  }

  /**
    When a step runs, every step it depends on has already succeeded, and the context it is sent
    with is built from a working memory that holds each of those steps' own output.
   */
  lemma DependenciesReady(plan: Plan, s0: RunState, behaviour: Behaviour, i: nat, d: Id)
    returns (j: nat, memory: map<Id, string>)
    requires Begin(s0) && Order(plan.steps).Ok?
    requires i < |Execution(plan, s0, behaviour).state.results|
    requires i < |Order(plan.steps).value| && d in Order(plan.steps).value[i].dependsOn
    ensures var order, s := Order(plan.steps).value, Execution(plan, s0, behaviour).state;
      && j < i && order[j].stepId == d == s.results[j].stepId && s.results[j].success
      && |s0.calls| + i < |s.calls| && s.calls[|s0.calls| + i] == RequestFor(order[i], memory)
      && d in memory && memory[d] == s.results[j].output
  {
    hide Order, Execution, Ran;
    ExecutionFacts(plan, s0, behaviour);
    OrderIsTopological(plan.steps);
    var order, s := Order(plan.steps).value, Execution(plan, s0, behaviour).state;
    assert EarlierIn(Ids(order), i, d);
    j :| 0 <= j < i && Ids(order)[j] == d;
    memory := OutputsOf(s0.outputs, s.results[..i]);
    EarlierOutput(order, s0, s, plan.budget.executionTokens, i, j);
  }

  lemma EarlierOutput(order: seq<PlanStep>, s0: RunState, s: RunState, budget: int, i: nat, j: nat)
    requires Ran(order, s0, s, budget) && Distinct(Ids(order)) && j < i < |s.results|
    ensures var memory := OutputsOf(s0.outputs, s.results[..i]);
      && i < |order| && order[j].stepId == s.results[j].stepId && s.results[j].success
      && |s0.calls| + i < |s.calls| && s.calls[|s0.calls| + i] == RequestFor(order[i], memory)
      && order[j].stepId in memory && memory[order[j].stepId] == s.results[j].output
  {
    assert Recorded(order, s0, s, budget, i) && Recorded(order, s0, s, budget, j);
    forall p, q | 0 <= p < q < i ensures s.results[..i][p].stepId != s.results[..i][q].stepId {
      assert Recorded(order, s0, s, budget, p) && Recorded(order, s0, s, budget, q);
      assert Ids(order)[p] != Ids(order)[q];
    }
    OutputsLookup(s0.outputs, s.results[..i], j);
  }

  // ---------------------------------------------------------------- the token bound

  lemma {:induction false} SumBound(results: seq<StepResult>, p: int)
    requires forall i :: 0 <= i < |results| ==> 0 <= results[i].tokensUsed <= p
    ensures 0 <= Sum(results) <= |results| * p
  {
    if results != [] { SumBound(results[..|results| - 1], p); }
  }

  /** No step takes the running total past the budget by more than its own promise. */
  lemma OvershootBound(order: seq<PlanStep>, s0: RunState, s: RunState, budget: int, p: int)
    requires Ran(order, s0, s, budget) && 0 <= p
    requires forall i :: 0 <= i < |order| ==> order[i].maxTokens <= p
    ensures 0 <= s.tokens <= |s.results| * p
    ensures s.results != [] ==> 0 < budget && s.tokens < budget + p
  {
    forall i | 0 <= i < |s.results| ensures 0 <= s.results[i].tokensUsed <= p {
      assert Recorded(order, s0, s, budget, i);
    }
    SumBound(s.results, p);
    if s.results != [] { assert Recorded(order, s0, s, budget, 0); }
    if s.results != [] {
      assert Recorded(order, s0, s, budget, |s.results| - 1);
    }
  }

  /**
    End to end, over every plan the Planner builds or replans and every backend: an execution
    charges at most E + 255 tokens for E execution tokens, at most E when the even share
    E // n reaches the 256-token minimum, and none at all when E is not positive.
   */
  lemma TokenBound(plan: Plan, s0: RunState, behaviour: Behaviour)
    requires Begin(s0) && PlannerBuilt(plan)
    ensures var e, used := plan.budget.executionTokens, Execution(plan, s0, behaviour).state.tokens;
      && 0 <= used
      && (e <= 0 ==> used == 0)
      && (e >= 1 ==> used <= e + 255)
      && (e >= 1 && |plan.steps| >= 1 && e / |plan.steps| >= 256 ==> used <= e)
  {
    ChainOrder(plan.steps);
    ExecutionFacts(plan, s0, behaviour);
    var e, s, n := plan.budget.executionTokens, Execution(plan, s0, behaviour).state, |plan.steps|;
    if n > 0 {
      OvershootBound(plan.steps, s0, s, e, PerStep(e, n));
      ShareBound(e, n, |s.results|, s.tokens);
    }
  }

  /** `m` of `n` steps, each charged at most the even share, with the last one started under budget. */
  lemma ShareBound(e: int, n: nat, m: nat, used: int)
    requires 1 <= n && m <= n && 0 <= used <= m * PerStep(e, n)
    requires m > 0 ==> 0 < e && used < e + PerStep(e, n)
    ensures e <= 0 ==> used == 0
    ensures e >= 1 ==> used <= e + 255
    ensures e >= 1 && e / n >= 256 ==> used <= e
  {
    var p := PerStep(e, n);
    if m > 0 && p != 256 {
      assert m * p <= n * p <= e;
    }
    if m > 0 && e / n >= 256 {
      assert p == e / n;
      assert m * p <= n * p <= e;
    }
  }

  // ---------------------------------------------------------------- the code

  /** Any inference backend, recording what it was asked. */
  class Backend {
    const behaviour: Behaviour
    var calls: seq<Request>

    constructor (behaviour: Behaviour)
      ensures this.behaviour == behaviour && calls == []
    {
      this.behaviour, calls := behaviour, [];
    }

    method Run(request: Request) returns (reply: Reply)
      modifies this
      ensures calls == old(calls) + [request] && reply == behaviour(calls)
    {
      calls := calls + [request];
      reply := behaviour(calls);
    }
  }

  /** Per-task scratchpad: what the steps of one attempt produced. */
  class WorkingMemory {
    var stepOutputs: map<Id, string>
    var toolCalls: seq<ToolCall>

    constructor ()
      ensures stepOutputs == map[] && toolCalls == []
    {
      stepOutputs, toolCalls := map[], [];
    }
  }

  class ExecutionTrace {
    const taskId: Id
    var taskClass: string
    var strategy: Strategy
    var stepResults: seq<StepResult>
    var executionTokens: int
    var totalTokens: int
    var replanningEvents: int
    var outcome: TaskOutcome
    var error: Option<string>
    var verifierScore: Option<real>
    var confidencePredicted: Option<real>

    constructor (taskId: Id, strategy: Strategy)
      ensures this.taskId == taskId && this.strategy == strategy && taskClass == "general"
      ensures stepResults == [] && executionTokens == totalTokens == replanningEvents == 0
      ensures outcome == Success && error == None && verifierScore == None && confidencePredicted == None
    {
      this.taskId, this.strategy, taskClass := taskId, strategy, "general";
      stepResults, executionTokens, totalTokens, replanningEvents := [], 0, 0, 0;
      outcome, error, verifierScore, confidencePredicted := Success, None, None, None;
    }
  }

  /** The four objects of a running execution as one value. */
  ghost function Snapshot(trace: ExecutionTrace, wm: WorkingMemory, backend: Backend): RunState
    reads trace, wm, backend
  {
    RunState(trace.stepResults, trace.executionTokens, wm.stepOutputs, wm.toolCalls, backend.calls)
  }

  method BuildContext(step: PlanStep, wm: WorkingMemory) returns (context: string)
    ensures context == Context(step.dependsOn, step.prompt, wm.stepOutputs)
  {
    context := step.prompt;
    for i := |step.dependsOn| downto 0
      invariant context == Context(step.dependsOn[i..], step.prompt, wm.stepOutputs)
    {
      var d := step.dependsOn[i];
      if d in wm.stepOutputs && wm.stepOutputs[d] != "" {
        context := "[dep:" + Short(d) + "] " + wm.stepOutputs[d] + "\n" + context;
      }
    }
  }

  method ExecuteStep(step: PlanStep, wm: WorkingMemory, backend: Backend) returns (result: StepResult)
    modifies wm, backend
    ensures forall results, tokens ::
      RunStep(step, RunState(results, tokens, old(wm.stepOutputs), old(wm.toolCalls), old(backend.calls)), backend.behaviour)
      == RunState(results + [result], tokens + result.tokensUsed, wm.stepOutputs, wm.toolCalls, backend.calls)
  {
    var context := BuildContext(step, wm);
    var reply := backend.Run(Request(context, step.maxTokens, step.tool));
    if reply.Raised? {
      return StepResult(step.stepId, "", 0, [], false, Some("backend_exception: " + reply.exception));
    }
    var tokens := Charge(reply.tokensUsed, step.maxTokens);
    result := StepResult(step.stepId, reply.output, tokens, reply.toolCalls, reply.success, reply.error);
    if result.success {
      wm.stepOutputs := wm.stepOutputs[step.stepId := result.output];
      wm.toolCalls := wm.toolCalls + result.toolCalls;
    }
  }

  /** The `for step in order` loop. */
  method ExecuteSteps(order: seq<PlanStep>, budget: int, trace: ExecutionTrace, wm: WorkingMemory, backend: Backend)
    requires trace.executionTokens == trace.totalTokens && trace.outcome == Success && trace.error == None
    modifies trace`stepResults, trace`executionTokens, trace`totalTokens, trace`outcome, trace`error, wm, backend
    ensures trace.totalTokens == trace.executionTokens
    ensures Finish(Snapshot(trace, wm, backend), trace.outcome, trace.error) ==
            Walk(order, 0, old(Snapshot(trace, wm, backend)), budget, backend.behaviour)
  {
    for k := 0 to |order|
      invariant trace.totalTokens == trace.executionTokens
      invariant trace.outcome == Success && trace.error == None
      invariant Walk(order, k, Snapshot(trace, wm, backend), budget, backend.behaviour) ==
                Walk(order, 0, old(Snapshot(trace, wm, backend)), budget, backend.behaviour)
    {
      if trace.executionTokens >= budget {
        trace.outcome := Partial;
        trace.error := Some(EXHAUSTED);
        return;
      }
      ghost var s := Snapshot(trace, wm, backend);
      var result := ExecuteStep(order[k], wm, backend);
      trace.stepResults := trace.stepResults + [result];
      trace.executionTokens := trace.executionTokens + result.tokensUsed;
      trace.totalTokens := trace.totalTokens + result.tokensUsed;
      assert Snapshot(trace, wm, backend) == RunStep(order[k], s, backend.behaviour);
      if !result.success {
        trace.outcome := Failure;
        trace.error := result.error;
        return;
      }
    }
  }

  method ExecutePlan(plan: Plan, wm: WorkingMemory, backend: Backend) returns (trace: ExecutionTrace)
    modifies wm, backend
    ensures fresh(trace) && trace.taskId == plan.taskId && trace.strategy == plan.strategy
    ensures trace.replanningEvents == 0 && trace.taskClass == "general"
    ensures trace.verifierScore == None && trace.confidencePredicted == None
    ensures trace.totalTokens == trace.executionTokens
    ensures Finish(Snapshot(trace, wm, backend), trace.outcome, trace.error) ==
      Execution(plan, RunState([], 0, old(wm.stepOutputs), old(wm.toolCalls), old(backend.calls)), backend.behaviour)
  {
    trace := new ExecutionTrace(plan.taskId, plan.strategy);
    var sorted := TopologicalOrder(plan);
    match sorted
    case Err(e) =>
      trace.outcome := Failure;
      trace.error := Some(Message(e));
    case Ok(order) =>
      ExecuteSteps(order, plan.budget.executionTokens, trace, wm, backend);
  }
}
