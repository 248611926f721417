/**
  Budget allocation (axis/scheduler.py, axis/config.py). Fractions and factors are reals, so the
  results are those of exact arithmetic; `int()` truncates toward zero.
 */
module Scheduler {
  import opened PlanTypes
  import opened Reals
  import opened Planner
  import opened Executor

  datatype Stakes = Low | Medium | High | Critical

  datatype Task = Task(taskClass: string, stakes: Stakes, complexity: real)

  datatype Config = Config(
    taskBudgets: map<string, int>,
    stakesMultiplier: map<Stakes, real>,
    hardCeiling: int,
    planningShare: real,
    executionShare: real,
    verificationShare: real)

  const DEFAULT: Config := Config(
    map["general" := 4000, "code_debug" := 6000, "analysis" := 8000, "creative" := 5000, "planning" := 4000,
        "math_symbolic" := 5000, "legal_reasoning" := 10000, "medical" := 10000, "research" := 9000],
    map[Low := 0.7, Medium := 1.0, High := 1.5, Critical := 2.0],
    32000, 0.15, 0.55, 0.15)

  /** Python's `int()` on a float. */
  function Truncate(x: real): (n: int)
    ensures x >= 0.0 ==> 0 <= n && n as real <= x < n as real + 1.0
    ensures x <= 0.0 ==> n <= 0 && n as real - 1.0 < x <= n as real
  {
    if x >= 0.0 then x.Floor else -((-x).Floor)
  }

  function Base(config: Config, taskClass: string): int {
    if taskClass in config.taskBudgets then config.taskBudgets[taskClass]
    else if "general" in config.taskBudgets then config.taskBudgets["general"]
    else 4000
  }

  function Multiplier(config: Config, stakes: Stakes): real {
    if stakes in config.stakesMultiplier then config.stakesMultiplier[stakes] else 1.0
  }

  function Clamp(complexity: real): (c: real)
    ensures 0.0 <= c <= 1.0
  {
    if complexity <= 0.0 then 0.0 else if complexity >= 1.0 then 1.0 else complexity
  }

  function Scaled(base: real, complexity: real, multiplier: real): real {
    base * (0.6 + Clamp(complexity)) * multiplier
  }

  function Total(config: Config, task: Task): int {
    var uncapped := Truncate(
      Scaled(Base(config, task.taskClass) as real, task.complexity, Multiplier(config, task.stakes)));
    if uncapped <= config.hardCeiling then uncapped else config.hardCeiling
  }

  /** The three truncated parts, and a buffer that absorbs what truncation leaves over. */
  function Parts(total: int, p: real, e: real, v: real): Budget {
    Budget(total, Truncate(p), Truncate(e), Truncate(v), total - Truncate(p) - Truncate(e) - Truncate(v))
  }

  function Share(total: int, fraction: real): real {
    total as real * fraction
  }

  function Split(config: Config, total: int): Budget {
    Parts(total, Share(total, config.planningShare), Share(total, config.executionShare),
          Share(total, config.verificationShare))
  }

  function Allocate(config: Config, task: Task): Budget {
    Split(config, Total(config, task))
  }

  /** A configuration whose numbers make sense: nothing negative, shares of at most the whole. */
  ghost predicate Sensible(config: Config) {
    && (forall c :: c in config.taskBudgets ==> config.taskBudgets[c] >= 0)
    && (forall s :: s in config.stakesMultiplier ==> config.stakesMultiplier[s] >= 0.0)
    && config.hardCeiling >= 0
    && config.planningShare >= 0.0 && config.executionShare >= 0.0 && config.verificationShare >= 0.0
    && config.planningShare + config.executionShare + config.verificationShare <= 1.0
  }

  lemma ProductMonotone(x: real, x': real, y: real, y': real)
    requires 0.0 <= x <= x' && 0.0 <= y <= y'
    ensures 0.0 <= x * y <= x' * y'
  {
    assert x * y <= x' * y <= x' * y';
  }

  lemma ScaledMonotone(base: real, base': real, c: real, c': real, m: real, m': real)
    requires 0.0 <= base <= base' && c <= c' && 0.0 <= m <= m'
    ensures 0.0 <= Scaled(base, c, m) <= Scaled(base', c', m')
  {
    ProductMonotone(base, base', 0.6 + Clamp(c), 0.6 + Clamp(c'));
    ProductMonotone(base * (0.6 + Clamp(c)), base' * (0.6 + Clamp(c')), m, m');
  }

  lemma SplitConserves(config: Config, total: int)
    requires Sensible(config) && total >= 0
    ensures var b := Split(config, total);
      b.planningTokens >= 0 && b.executionTokens >= 0 && b.verificationTokens >= 0 && b.bufferTokens >= 0
  {
    hide Truncate, Parts, Share;
    var p, e, v := config.planningShare, config.executionShare, config.verificationShare;
    SharesFit(total, p, e, v);
    PartsFit(total, Share(total, p), Share(total, e), Share(total, v));
  }

  lemma PartsFit(total: int, p: real, e: real, v: real)
    requires p >= 0.0 && e >= 0.0 && v >= 0.0 && p + e + v <= total as real
    ensures var b := Parts(total, p, e, v);
      b.planningTokens >= 0 && b.executionTokens >= 0 && b.verificationTokens >= 0 && b.bufferTokens >= 0
  {
    hide Truncate;
    assert (Truncate(p) + Truncate(e) + Truncate(v)) as real <= total as real;
  }

  lemma SharesFit(total: nat, p: real, e: real, v: real)
    requires p >= 0.0 && e >= 0.0 && v >= 0.0 && p + e + v <= 1.0
    ensures Share(total, p) >= 0.0 && Share(total, e) >= 0.0 && Share(total, v) >= 0.0
    ensures Share(total, p) + Share(total, e) + Share(total, v) <= total as real
  {
    hide Share;
    ShareMonotone(total, 0.0, p);
    ShareMonotone(total, 0.0, e);
    ShareMonotone(total, 0.0, v);
    ShareMonotone(total, p + e + v, 1.0);
    ShareAdds(total, p, e);
    ShareAdds(total, p + e, v);
    ShareEnds(total);
  }

  lemma ShareMonotone(total: nat, x: real, y: real)
    requires x <= y
    ensures Share(total, x) <= Share(total, y)
  {
    MulMonotone(x, y, total as real);
  }

  lemma ShareAdds(total: int, x: real, y: real)
    ensures Share(total, x + y) == Share(total, x) + Share(total, y)
  {
  }

  lemma ShareEnds(total: int)
    ensures Share(total, 0.0) == 0.0 && Share(total, 1.0) == total as real
  {
  }

  /** The sub-budgets sum exactly to a total under the ceiling, and none of them is negative. */
  lemma AllocateConserves(config: Config, task: Task)
    ensures var b := Allocate(config, task);
      && b.planningTokens + b.executionTokens + b.verificationTokens + b.bufferTokens == b.totalTokens
      && b.totalTokens <= config.hardCeiling
      && (Sensible(config) ==>
            b.totalTokens >= 0 && b.planningTokens >= 0 && b.executionTokens >= 0 &&
            b.verificationTokens >= 0 && b.bufferTokens >= 0)
  {
    if Sensible(config) {
      ScaledMonotone(0.0, Base(config, task.taskClass) as real, task.complexity, task.complexity,
                     0.0, Multiplier(config, task.stakes));
      SplitConserves(config, Total(config, task));
    }
  }

  /** Each sub-budget is its configured share of the total, rounded down. */
  lemma SharesRoundedDown(config: Config, task: Task)
    requires Sensible(config)
    ensures var b, t := Allocate(config, task), Allocate(config, task).totalTokens as real;
      && b.planningTokens as real <= t * config.planningShare < b.planningTokens as real + 1.0
      && b.executionTokens as real <= t * config.executionShare < b.executionTokens as real + 1.0
      && b.verificationTokens as real <= t * config.verificationShare < b.verificationTokens as real + 1.0
  {
    hide Truncate, Sensible, Total;
    AllocateConserves(config, task);
    var total := Total(config, task);
    assert config.planningShare >= 0.0 && config.executionShare >= 0.0 && config.verificationShare >= 0.0 by {
      SensibleShares(config);
    }
    MulNonNegative(total as real, config.planningShare);
    MulNonNegative(total as real, config.executionShare);
    MulNonNegative(total as real, config.verificationShare);
  }

  lemma SensibleShares(config: Config)
    requires Sensible(config)
    ensures config.planningShare >= 0.0 && config.executionShare >= 0.0 && config.verificationShare >= 0.0
  {
  }

  /** More complexity or a larger stakes factor never shrinks the total. */
  lemma AllocateMonotone(config: Config, a: Task, b: Task)
    requires Sensible(config) && a.taskClass == b.taskClass
    requires a.complexity <= b.complexity && Multiplier(config, a.stakes) <= Multiplier(config, b.stakes)
    ensures Allocate(config, a).totalTokens <= Allocate(config, b).totalTokens
  {
    var base := Base(config, a.taskClass) as real;
    ScaledMonotone(base, base, a.complexity, b.complexity, Multiplier(config, a.stakes), Multiplier(config, b.stakes));
  }

  /** Under the default configuration every task gets between 1680 and 32000 tokens. */
  lemma DefaultTotal(task: Task)
    ensures Sensible(DEFAULT)
    ensures 1680 <= Allocate(DEFAULT, task).totalTokens <= 32000
  {
    hide Scaled, Base, Multiplier, Clamp;
    var base, m := Base(DEFAULT, task.taskClass) as real, Multiplier(DEFAULT, task.stakes);
    DefaultsSensible(task);
    ScaledMonotone(4000.0, base, 0.0, Clamp(task.complexity), 0.7, m);
    ScaledClamped(base, task.complexity, m);
    LeastScaled();
  }

  /** What a task class has to spend before its complexity and stakes are looked at. */
  function Allowance(taskClass: string): int {
    if taskClass in DEFAULT.taskBudgets then DEFAULT.taskBudgets[taskClass] else 4000
  }

  /**
    Three fixed points under the default configuration, at medium stakes: a task of complexity 0.4
    gets exactly its class's allowance, the simplest ones six tenths of it, the hardest sixteen
    tenths; a class not on the list gets 4000 to start from.
   */
  lemma AllowanceScales(task: Task)
    requires task.stakes == Medium
    ensures var total, base := Allocate(DEFAULT, task).totalTokens, Allowance(task.taskClass);
      && 4000 <= base <= 10000
      && (task.complexity == 0.4 ==> total == base)
      && (task.complexity <= 0.0 ==> 10 * total == 6 * base)
      && (task.complexity >= 1.0 ==> 10 * total == 16 * base)
  {
    hide Allowance, Base, Multiplier, Scaled, Truncate;
    var base := Allowance(task.taskClass);
    AllowanceIsBase(task.taskClass);
    var c := task.complexity;
    if c == 0.4 { ScaledAt(base, c, 1.0, base); }
    if c <= 0.0 { ScaledAt(base, c, 0.6, 600 * (base / 1000)); }
    if c >= 1.0 { ScaledAt(base, c, 1.6, 1600 * (base / 1000)); }
  }

  lemma AllowanceIsBase(taskClass: string)
    ensures Base(DEFAULT, taskClass) == Allowance(taskClass) && Multiplier(DEFAULT, Medium) == 1.0
    ensures 4000 <= Allowance(taskClass) <= 10000 && Allowance(taskClass) % 1000 == 0
  {
  }

  lemma ScaledAt(base: nat, complexity: real, factor: real, n: nat)
    requires factor == 0.6 + Clamp(complexity) && base as real * factor == n as real
    ensures Truncate(Scaled(base as real, complexity, 1.0)) == n
  {
    hide Clamp, Truncate;
    var x := base as real;
    assert x * (0.6 + Clamp(complexity)) == n as real;
    assert Scaled(x, complexity, 1.0) == n as real;
    WholeTruncates(Scaled(x, complexity, 1.0), n);
  }

  lemma WholeTruncates(x: real, n: nat)
    requires x == n as real
    ensures Truncate(x) == n
  {
  }

  lemma DefaultsSensible(task: Task)
    ensures Sensible(DEFAULT)
    ensures Base(DEFAULT, task.taskClass) >= 4000 && Multiplier(DEFAULT, task.stakes) >= 0.7
    ensures 0.0 <= Clamp(task.complexity)
  {
  }

  lemma ScaledClamped(base: real, complexity: real, m: real)
    ensures Scaled(base, Clamp(complexity), m) == Scaled(base, complexity, m)
  {
    assert Clamp(Clamp(complexity)) == Clamp(complexity);
  }

  lemma LeastScaled()
    ensures Scaled(4000.0, 0.0, 0.7) == 1680.0
  {
    assert 4000.0 * (0.6 + Clamp(0.0)) == 2400.0;
  }

  /** Under the default configuration an execution of a planner-built plan stays within the task's whole budget. */
  lemma AttemptWithinTotal(task: Task, plan: Plan, s0: RunState, behaviour: Behaviour)
    requires Begin(s0) && PlannerBuilt(plan) && plan.budget == Allocate(DEFAULT, task)
    ensures Execution(plan, s0, behaviour).state.tokens <= plan.budget.totalTokens <= 32000
  {
    DefaultTotal(task);
    TokenBound(plan, s0, behaviour);
    SlackCovers(plan.budget.totalTokens);
  }

  lemma SlackCovers(total: int)
    requires total >= 1680
    ensures 0 <= Split(DEFAULT, total).executionTokens + 255 <= total
  {
    ShareAdds(total, 0.55, 0.45);
    ShareEnds(total);
    MulMonotone(1680.0, total as real, 0.45);
    MulMonotone(0.0, total as real, 0.55);
    assert Share(total, 0.45) >= 1680.0 * 0.45 && Share(total, 0.55) >= 0.0;
  }
}
