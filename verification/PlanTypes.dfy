/** The records that flow between Scheduler, Planner, Executor and runtime (axis/types.py). */
module PlanTypes {
  import opened Wrappers

  type Id = string

  datatype Strategy = Analytical | Creative | RetrievalFirst | ToolFirst | Hybrid

  datatype TaskOutcome = Success | Partial | Failure

  datatype Budget = Budget(
    totalTokens: int,
    planningTokens: int,
    executionTokens: int,
    verificationTokens: int,
    bufferTokens: int)

  datatype Gates = Gates(retrieval: bool, verification: bool, metaTrigger: bool, explorationFraction: real)

  datatype PlanStep = PlanStep(
    stepId: Id,
    action: string,
    strategy: Strategy,
    prompt: string,
    tool: Option<string>,
    dependsOn: seq<Id>,
    maxTokens: int,
    preconditions: seq<string>,
    postconditions: seq<string>)

  datatype Plan = Plan(
    taskId: Id,
    steps: seq<PlanStep>,
    strategy: Strategy,
    budget: Budget,
    gates: Gates,
    rationale: string)

  datatype ToolCall = ToolCall(tool: Option<string>, success: bool)

  datatype StepResult = StepResult(
    stepId: Id,
    output: string,
    tokensUsed: int,
    toolCalls: seq<ToolCall>,
    success: bool,
    error: Option<string>)
}
