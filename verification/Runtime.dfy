/**
  The runtime's driver loop (axis/runtime.py): plan, execute, replan on failure, and at most one
  more replan when the verifier rejects the result.

  `AllAttempts` is a whole run as a function of the initial plan and the environment: every
  attempt's plan and how it ended. `AxisRuntime.Run` is the code, proved to make just those attempts.
 */
module Runtime {
  import opened Wrappers
  import opened Collections
  import opened PlanTypes
  import opened Text
  import opened Topology
  import opened Planner
  import opened Executor
  import opened Scheduler

  datatype Verdict = Verdict(score: real, confidence: real, passed: bool, skipped: bool, rationale: string)

  datatype Attempt = Attempt(plan: Plan, finish: Finish)

  /** A verifier's answer to its `k`th question, about an attempt made after so many replans. */
  type Verifier = (nat, Attempt, int) -> Verdict

  /**
    Everything a run depends on besides the plan: how an attempt with a fresh Working Memory ends
    (given what the backend has been asked before), the supply of new ids, and the verifier.
   */
  datatype Env = Env(
    maxReplans: int,
    execute: (Plan, seq<Request>) -> Finish,
    uuid: nat -> Id,
    verifier: Option<Verifier>)

  function FreshState(calls: seq<Request>): RunState {
    RunState([], 0, map[], [], calls)
  }

  function EnvFor(maxReplans: int, behaviour: Behaviour, uuid: nat -> Id, verifier: Option<Verifier>): Env {
    Env(maxReplans, (plan, calls) => Execution(plan, FreshState(calls), behaviour), uuid, verifier)
  }

  function LastResult(f: Finish): StepResult
    requires f.state.results != []
  {
    f.state.results[|f.state.results| - 1]
  }

  /** `failed.error or "unknown"` */
  function ErrorText(r: StepResult): string {
    if r.error.Some? && r.error.value != "" then r.error.value else "unknown"
  }

  function Last(attempts: seq<Attempt>): Attempt
    requires attempts != []
  {
    attempts[|attempts| - 1]
  }

  /** The plan made from an attempt's last step; `next` is the first id of the supply not used yet. */
  function NextPlan(a: Attempt, error: string, next: nat, env: Env): Plan
    requires a.finish.state.results != []
  {
    Replanned(a.plan, LastResult(a.finish).stepId, error, env.uuid(next))
  }

  /** The failure-replan loop. */
  function Attempts(plan: Plan, replans: nat, next: nat, calls: seq<Request>, env: Env): (r: seq<Attempt>)
    ensures r != [] && r[0].plan == plan
    ensures |r| - 1 <= Max(0, env.maxReplans - replans)
    decreases env.maxReplans - replans
  {
    var a := Attempt(plan, env.execute(plan, calls));
    if a.finish.outcome == Failure && replans < env.maxReplans && a.finish.state.results != [] then
      [a] + Attempts(NextPlan(a, ErrorText(LastResult(a.finish)), next, env),
                     replans + 1, next + 1, a.finish.state.calls, env)
    else [a]
  }

  /** Whether the verifier sends the result back once more, and with what rationale. */
  function Rejection(attempts: seq<Attempt>, env: Env): (r: Option<string>)
    requires attempts != []
    ensures r.Some? ==> Last(attempts).finish.state.results != [] && |attempts| <= env.maxReplans
  {
    if env.verifier.None? then None
    else
      var v := env.verifier.value(0, Last(attempts), |attempts| - 1);
      if !v.passed && !v.skipped && |attempts| - 1 < env.maxReplans && Last(attempts).finish.state.results != []
      then Some(v.rationale) else None
  }

  function SecondChance(last: Attempt, rationale: string, next: nat, env: Env): Attempt
    requires last.finish.state.results != []
  {
    var again := NextPlan(last, "verifier_rejected:" + rationale, next, env);
    Attempt(again, env.execute(again, last.finish.state.calls))
  }

  function AllAttempts(plan: Plan, next: nat, calls: seq<Request>, env: Env): (r: seq<Attempt>)
    ensures r != []
  {
    var attempts := Attempts(plan, 0, next, calls, env);
    match Rejection(attempts, env)
    case None => attempts
    case Some(rationale) =>
      attempts + [SecondChance(Last(attempts), rationale, next + |attempts| - 1, env)]
  }

  /** The verdict the run ends with: on the last of `all` attempts, of which `tried` came before any rejection. */
  function FinalVerdict(tried: seq<Attempt>, all: seq<Attempt>, env: Env): Option<Verdict>
    requires all != [] && |tried| <= |all|
  {
    if env.verifier.None? then None else Some(env.verifier.value(|all| - |tried|, Last(all), |all| - 1))
  }

  // ---------------------------------------------------------------- ids stay fresh

  ghost predicate Injective(uuid: nat -> Id) {
    forall i: nat, j: nat :: i != j ==> uuid(i) != uuid(j)
  }

  ghost predicate Issued(uuid: nat -> Id, next: nat, x: Id) {
    exists i: nat :: i < next && uuid(i) == x
  }

  /** Every id in the plan came from the first `next` of the supply. */
  ghost predicate FromSupply(steps: seq<PlanStep>, uuid: nat -> Id, next: nat) {
    && (forall x :: x in Ids(steps) ==> Issued(uuid, next, x))
    && forall i, d :: 0 <= i < |steps| && d in steps[i].dependsOn ==> Issued(uuid, next, d)
  }

  lemma SupplyIsFresh(steps: seq<PlanStep>, uuid: nat -> Id, next: nat)
    requires Injective(uuid) && FromSupply(steps, uuid, next)
    ensures Fresh(steps, uuid(next))
  {
    assert !Issued(uuid, next, uuid(next));
  }

  lemma LinearFromSupply(phases: seq<Phase>, ids: seq<Id>, input: string, perStep: int, uuid: nat -> Id)
    requires |ids| >= |phases| && forall i: nat :: i < |ids| ==> ids[i] == uuid(i)
    ensures FromSupply(Linear(phases, ids, input, perStep), uuid, |phases|)
  {
    var steps := Linear(phases, ids, input, perStep);
    forall i: nat | i < |phases| ensures Issued(uuid, |phases|, ids[i]) {
      assert uuid(i) == ids[i];
    }
    forall x | x in Ids(steps) ensures Issued(uuid, |phases|, x) {
      var i :| 0 <= i < |steps| && Ids(steps)[i] == x;
      assert ids[i] == x;
    }
    forall i, d | 0 <= i < |steps| && d in steps[i].dependsOn ensures Issued(uuid, |phases|, d) {
      assert d == ids[i - 1];
    }
  }

  lemma ReplanFromSupply(steps: seq<PlanStep>, failedId: Id, strategy: Strategy, error: string, uuid: nat -> Id, next: nat)
    requires FromSupply(steps, uuid, next)
    ensures FromSupply(ReplanSteps(steps, failedId, uuid(next), strategy, error), uuid, next + 1)
  {
    var steps' := ReplanSteps(steps, failedId, uuid(next), strategy, error);
    assert Issued(uuid, next + 1, uuid(next));
    forall x | Issued(uuid, next, x) ensures Issued(uuid, next + 1, x) {
      var i: nat :| i < next && uuid(i) == x;
    }
    forall x | x in Ids(steps') ensures Issued(uuid, next + 1, x) {
      var i :| 0 <= i < |steps'| && Ids(steps')[i] == x;
      assert Ids(steps)[i] in Ids(steps);
    }
    forall i, d | 0 <= i < |steps'| && d in steps'[i].dependsOn ensures Issued(uuid, next + 1, d) {
      var k :| 0 <= k < |steps'[i].dependsOn| && steps'[i].dependsOn[k] == d;
      var d0 := steps[i].dependsOn[k];
      assert d0 in steps[i].dependsOn;
      assert Issued(uuid, next, d0);
      assert d == d0 || d == uuid(next);
    }
  }

  // ---------------------------------------------------------------- what every run keeps

  /** What the driver relies on: a failed attempt ran some step, and the last one run is the plan's own. */
  ghost predicate LastRunBelongs(plan: Plan, f: Finish) {
    && (f.outcome == Failure ==> f.state.results != [])
    && (f.state.results != [] ==> LastResult(f).stepId in Ids(plan.steps))
  }

  ghost predicate RunsPlans(execute: (Plan, seq<Request>) -> Finish) {
    forall plan, calls :: PlannerBuilt(plan) ==> LastRunBelongs(plan, execute(plan, calls))
  }

  lemma LastResultBelongs(plan: Plan, calls: seq<Request>, behaviour: Behaviour)
    requires PlannerBuilt(plan)
    ensures LastRunBelongs(plan, Execution(plan, FreshState(calls), behaviour))
  {
    ChainOrder(plan.steps);
    ExecutionFacts(plan, FreshState(calls), behaviour);
    var f := Execution(plan, FreshState(calls), behaviour);
    var n := |f.state.results|;
    if n > 0 {
      assert Recorded(plan.steps, FreshState(calls), f.state, plan.budget.executionTokens, n - 1);
      assert Ids(plan.steps)[n - 1] == LastResult(f).stepId;
    }
  }

  lemma ExecutorRunsPlans(maxReplans: int, behaviour: Behaviour, uuid: nat -> Id, verifier: Option<Verifier>)
    ensures RunsPlans(EnvFor(maxReplans, behaviour, uuid, verifier).execute)
  {
    var execute := EnvFor(maxReplans, behaviour, uuid, verifier).execute;
    forall plan, calls | PlannerBuilt(plan) ensures LastRunBelongs(plan, execute(plan, calls)) {
      LastResultBelongs(plan, calls, behaviour);
    }
  }

  /** A planner-built plan under the task's budget, and what executing it came to. */
  ghost predicate Proper(a: Attempt, budget: Budget, env: Env) {
    && PlannerBuilt(a.plan) && a.plan.budget == budget
    && exists calls :: a.finish == env.execute(a.plan, calls)
  }

  /**
    `b` follows `a` by one replan over `error`: the step named is the last one `a` ran, it belongs to
    `a`'s plan, and its replacement has an id `a`'s plan does not use.
   */
  ghost predicate FollowsOver(a: Attempt, b: Attempt, error: string) {
    && a.finish.state.results != []
    && LastResult(a.finish).stepId in Ids(a.plan.steps)
    && exists newId :: Fresh(a.plan.steps, newId) && b.plan == Replanned(a.plan, LastResult(a.finish).stepId, error, newId)
  }

  ghost predicate Follows(a: Attempt, b: Attempt) {
    exists error :: FollowsOver(a, b, error)
  }

  ghost predicate Linked(attempts: seq<Attempt>) {
    forall k :: 0 <= k < |attempts| - 1 ==> Follows(attempts[k], attempts[k + 1])
  }

  ghost predicate AllProper(attempts: seq<Attempt>, budget: Budget, env: Env) {
    forall k :: 0 <= k < |attempts| ==> Proper(attempts[k], budget, env)
  }

  /** What the loop needs of the plan it starts from. */
  ghost predicate Ready(plan: Plan, next: nat, env: Env) {
    && PlannerBuilt(plan)
    && FromSupply(plan.steps, env.uuid, next)
    && Injective(env.uuid)
    && RunsPlans(env.execute)
  }

  lemma NextIsReady(a: Attempt, error: string, next: nat, env: Env)
    requires Ready(a.plan, next, env) && a.finish.state.results != []
    ensures var again := NextPlan(a, error, next, env);
      Fresh(a.plan.steps, env.uuid(next)) && Ready(again, next + 1, env) && again.budget == a.plan.budget
  {
    var failed := LastResult(a.finish).stepId;
    SupplyIsFresh(a.plan.steps, env.uuid, next);
    ReplanKeepsBuilt(a.plan, failed, error, env.uuid(next));
    ReplanFromSupply(a.plan.steps, failed, AlternativeStrategy(a.plan.strategy), error, env.uuid, next);
  }

  lemma OneReplan(a: Attempt, error: string, next: nat, env: Env)
    requires Ready(a.plan, next, env) && LastRunBelongs(a.plan, a.finish) && a.finish.state.results != []
    ensures var again := NextPlan(a, error, next, env);
      && Ready(again, next + 1, env) && again.budget == a.plan.budget
      && forall g :: FollowsOver(a, Attempt(again, g), error)
  {
    hide Ready, Fresh, Replanned;
    NextIsReady(a, error, next, env);
  }

  /** `all` is the attempts made so far and those the failure loop still has to make, starting with `plan`. */
  ghost predicate Remain(
    all: seq<Attempt>, before: seq<Attempt>, plan: Plan, replans: nat, next: nat, calls: seq<Request>, env: Env)
  {
    all == before + Attempts(plan, replans, next, calls, env)
  }

  predicate GoesOn(a: Attempt, replans: nat, env: Env) {
    a.finish.outcome == Failure && replans < env.maxReplans && a.finish.state.results != []
  }

  lemma LoopStarts(plan: Plan, next: nat, calls: seq<Request>, env: Env)
    ensures Remain(Attempts(plan, 0, next, calls, env), [], plan, 0, next, calls, env)
  {
  }

  lemma LoopTurn(
    all: seq<Attempt>, before: seq<Attempt>, plan: Plan, replans: nat, next: nat, calls: seq<Request>, env: Env)
    requires Remain(all, before, plan, replans, next, calls, env)
    ensures var a := Attempt(plan, env.execute(plan, calls));
      if GoesOn(a, replans, env) then
        Remain(all, before + [a], NextPlan(a, ErrorText(LastResult(a.finish)), next, env),
               replans + 1, next + 1, a.finish.state.calls, env)
      else all == before + [a]
  {
  }

  /** `b` is the retry of `a` over `error`, made with the backend as `a` left it. */
  ghost predicate RetryOf(a: Attempt, b: Attempt, error: string, env: Env) {
    FollowsOver(a, b, error) && b.finish == env.execute(b.plan, a.finish.state.calls)
  }

  /** Each attempt retries the one before over the error of its last step. */
  ghost predicate Chained(r: seq<Attempt>, env: Env) {
    forall k {:trigger r[k].finish} :: 0 <= k < |r| - 1 && r[k].finish.state.results != [] ==>
      RetryOf(r[k], r[k + 1], ErrorText(LastResult(r[k].finish)), env)
  }

  /** What the failure loop's attempts satisfy, when it starts after `replans` replans. */
  ghost predicate LoopFacts(r: seq<Attempt>, budget: Budget, replans: nat, env: Env) {
    && r != [] && AllProper(r, budget, env) && Chained(r, env)
    && (forall k :: 0 <= k < |r| - 1 ==> r[k].finish.outcome == Failure && r[k].finish.state.results != [])
    && (Last(r).finish.outcome == Failure ==> replans + |r| - 1 >= env.maxReplans)
  }

  lemma LoopFactsOne(a: Attempt, budget: Budget, replans: nat, env: Env)
    requires Proper(a, budget, env)
    requires a.finish.outcome == Failure ==> replans >= env.maxReplans
    ensures LoopFacts([a], budget, replans, env)
  {
    hide Proper, RetryOf;
  }

  lemma LoopFactsCons(a: Attempt, rest: seq<Attempt>, budget: Budget, replans: nat, env: Env)
    requires LoopFacts(rest, budget, replans + 1, env)
    requires a.finish.outcome == Failure && a.finish.state.results != [] && Proper(a, budget, env)
    requires RetryOf(a, rest[0], ErrorText(LastResult(a.finish)), env)
    ensures LoopFacts([a] + rest, budget, replans, env)
  {
    hide Proper, RetryOf, ErrorText;
    var all := [a] + rest;
    forall k | 0 <= k < |all| - 1 && all[k].finish.state.results != []
      ensures RetryOf(all[k], all[k + 1], ErrorText(LastResult(all[k].finish)), env)
    {
      if k > 0 {
        assert rest[k - 1].finish == all[k].finish;
        assert RetryOf(rest[k - 1], rest[k - 1 + 1], ErrorText(LastResult(rest[k - 1].finish)), env);
      }
    }
  }

  lemma ChainedIsLinked(r: seq<Attempt>, env: Env)
    requires Chained(r, env) && forall k :: 0 <= k < |r| - 1 ==> r[k].finish.state.results != []
    ensures Linked(r)
  {
    hide FollowsOver, ErrorText;
    forall k | 0 <= k < |r| - 1 ensures Follows(r[k], r[k + 1]) {
      assert RetryOf(r[k], r[k + 1], ErrorText(LastResult(r[k].finish)), env);
    }
  }

  lemma {:induction false} AttemptsFacts(plan: Plan, replans: nat, next: nat, calls: seq<Request>, env: Env)
    requires Ready(plan, next, env)
    ensures var r := Attempts(plan, replans, next, calls, env);
      && LoopFacts(r, plan.budget, replans, env) && Last(r).plan.budget == plan.budget
      && Ready(Last(r).plan, next + |r| - 1, env) && LastRunBelongs(Last(r).plan, Last(r).finish)
    decreases env.maxReplans - replans
  {
    hide PlannerBuilt, FromSupply, Injective, LoopFacts, FollowsOver, Replanned;
    var a := Attempt(plan, env.execute(plan, calls));
    assert LastRunBelongs(plan, env.execute(plan, calls));
    assert Proper(a, plan.budget, env);
    if a.finish.outcome == Failure && replans < env.maxReplans {
      var error := ErrorText(LastResult(a.finish));
      OneReplan(a, error, next, env);
      var again := NextPlan(a, error, next, env);
      AttemptsFacts(again, replans + 1, next + 1, a.finish.state.calls, env);
      var rest := Attempts(again, replans + 1, next + 1, a.finish.state.calls, env);
      assert rest[0] == Attempt(again, rest[0].finish);
      LoopFactsCons(a, rest, plan.budget, replans, env);
      assert Last([a] + rest) == Last(rest);
    } else {
      LoopFactsOne(a, plan.budget, replans, env);
    }
  }

  lemma SecondChanceFollows(a: Attempt, rationale: string, budget: Budget, next: nat, env: Env)
    requires Ready(a.plan, next, env) && LastRunBelongs(a.plan, a.finish) && a.finish.state.results != []
    requires a.plan.budget == budget
    ensures RetryOf(a, SecondChance(a, rationale, next, env), "verifier_rejected:" + rationale, env)
    ensures Proper(SecondChance(a, rationale, next, env), budget, env)
  {
    hide PlannerBuilt, FromSupply, Injective, RunsPlans, FollowsOver, Replanned;
    OneReplan(a, "verifier_rejected:" + rationale, next, env);
    var b := SecondChance(a, rationale, next, env);
    assert b == Attempt(b.plan, b.finish);
    assert b.finish == env.execute(b.plan, a.finish.state.calls);
  }

  /**
    Every run: the attempts are proper, each follows the one before by exactly one replan of a
    step of that plan, and there are at most 1 + `max_replans` of them.
   */
  lemma RunFacts(plan: Plan, next: nat, calls: seq<Request>, env: Env)
    requires Ready(plan, next, env)
    ensures var r := AllAttempts(plan, next, calls, env);
      && r[0].plan == plan
      && 1 <= |r| <= 1 + Max(0, env.maxReplans)
      && Linked(r) && AllProper(r, plan.budget, env)
  {
    hide Ready, LastRunBelongs, Attempts, Proper, FollowsOver, Chained;
    AttemptsFacts(plan, 0, next, calls, env);
    var r := Attempts(plan, 0, next, calls, env);
    ChainedIsLinked(r, env);
    if Rejection(r, env).Some? {
      assert Proper(r[|r| - 1], plan.budget, env);
      var rationale := Rejection(r, env).value;
      SecondChanceFollows(Last(r), rationale, plan.budget, next + |r| - 1, env);
      var all := r + [SecondChance(Last(r), rationale, next + |r| - 1, env)];
      forall k | 0 <= k < |all| - 1 ensures Follows(all[k], all[k + 1]) {
        if k < |r| - 1 { assert Follows(r[k], r[k + 1]); }
      }
    }
  }

  /**
    Only failures are replanned, except for the attempt the verifier rejects. A run that ends in
    failure has used every replan, or it ends on the verifier-driven attempt, after one that had not
    failed; without a verifier it has used every replan.
   */
  lemma FailureExhaustsReplans(plan: Plan, next: nat, calls: seq<Request>, env: Env)
    requires Ready(plan, next, env)
    ensures var tried, r := Attempts(plan, 0, next, calls, env), AllAttempts(plan, next, calls, env);
      && tried <= r && |r| <= |tried| + 1 && (env.verifier.None? ==> r == tried)
      && (forall k :: 0 <= k < |tried| - 1 ==> r[k].finish.outcome == Failure)
      && (Last(r).finish.outcome == Failure ==>
            |r| - 1 == Max(0, env.maxReplans) || (|r| == |tried| + 1 && Last(tried).finish.outcome != Failure))
      && (|r| == |tried| + 1 ==> Last(tried).finish.outcome != Failure)
  {
    hide Ready, Attempts, LastRunBelongs, Linked, AllProper;
    AttemptsFacts(plan, 0, next, calls, env);
  }

  /**
    The verdict on the failure loop's last attempt decides whether there is another: just when it is
    neither passed nor skipped, replans are left and some step ran. So an accepted or skipped result
    is the one returned, and a run that returns a rejected one has used its second chance, has no
    replans left or ran no step.
   */
  lemma VerdictDecides(plan: Plan, next: nat, calls: seq<Request>, env: Env)
    requires Ready(plan, next, env)
    ensures var tried, r := Attempts(plan, 0, next, calls, env), AllAttempts(plan, next, calls, env);
      && tried <= r && |tried| <= |r| <= |tried| + 1
      && (env.verifier.None? ==> r == tried)
      && (env.verifier.Some? ==>
            var v := env.verifier.value(0, Last(tried), |tried| - 1);
            && (|r| > |tried| <==>
                  !v.passed && !v.skipped && |tried| - 1 < env.maxReplans && Last(tried).finish.state.results != [])
            && (v.passed || v.skipped ==> r == tried && FinalVerdict(tried, r, env) == Some(v))
            && (|r| > |tried| ==> RetryOf(Last(tried), Last(r), "verifier_rejected:" + v.rationale, env)))
      && (FinalVerdict(tried, r, env).Some? ==>
            var w := FinalVerdict(tried, r, env).value;
            w.passed || w.skipped || |r| == |tried| + 1 || |tried| - 1 >= env.maxReplans
            || Last(tried).finish.state.results == [])
  {
    hide Ready, Attempts, LastRunBelongs, LoopFacts, FollowsOver;
    AttemptsFacts(plan, 0, next, calls, env);
    var tried := Attempts(plan, 0, next, calls, env);
    if Rejection(tried, env).Some? {
      SecondChanceFollows(Last(tried), Rejection(tried, env).value, plan.budget, next + |tried| - 1, env);
    }
  }

  /** Consecutive attempts of the failure loop: the later one is the earlier one's retry over its last step's own error. */
  lemma FailuresAreRetried(plan: Plan, next: nat, calls: seq<Request>, env: Env, k: nat)
    requires Ready(plan, next, env) && k + 1 < |Attempts(plan, 0, next, calls, env)|
    ensures var tried := Attempts(plan, 0, next, calls, env);
      && tried[k].finish.outcome == Failure && tried[k].finish.state.results != []
      && var e := LastResult(tried[k].finish).error;
         RetryOf(tried[k], tried[k + 1], if e.Some? && e.value != "" then e.value else "unknown", env)
  {
    hide Ready, Attempts, LastRunBelongs, RetryOf, AllProper;
    AttemptsFacts(plan, 0, next, calls, env);
    var tried := Attempts(plan, 0, next, calls, env);
    assert RetryOf(tried[k], tried[k + 1], ErrorText(LastResult(tried[k].finish)), env);
  }

  /**
    When a retry gets as far as the step it was made for, the request sent for that step quotes the
    error that caused the retry, and still ends with the step's old prompt.
   */
  lemma RetryIsTold(a: Attempt, b: Attempt, error: string, budget: Budget, env: Env, behaviour: Behaviour) returns (p: nat)
    requires env == EnvFor(env.maxReplans, behaviour, env.uuid, env.verifier)
    requires Proper(a, budget, env) && Proper(b, budget, env) && RetryOf(a, b, error, env)
    ensures p < |a.plan.steps| && p == |a.finish.state.results| - 1
    ensures a.plan.steps[p].stepId == LastResult(a.finish).stepId
    ensures |b.finish.state.results| > p ==>
      && |a.finish.state.calls| + p < |b.finish.state.calls|
      && var request := b.finish.state.calls[|a.finish.state.calls| + p];
         Quotes(request.prompt, error) && EndsWith(request.prompt, a.plan.steps[p].prompt)
  {
    hide Order, Execution, PlannerBuilt, Quotes, EndsWith, Replanned, Fresh;
    p := |a.finish.state.results| - 1;
    LastStepRan(a, budget, env, behaviour);
    var newId :| Fresh(a.plan.steps, newId) && b.plan == Replanned(a.plan, LastResult(a.finish).stepId, error, newId);
    ReplanRetries(a.plan, LastResult(a.finish).stepId, error, newId);
    if |b.finish.state.results| > p {
      RequestEndsWithPrompt(b.plan, FreshState(a.finish.state.calls), behaviour, p);
      var request := b.finish.state.calls[|a.finish.state.calls| + p];
      QuotesAtEnd(request.prompt, b.plan.steps[p].prompt, error);
      EndsWithTransitive(request.prompt, b.plan.steps[p].prompt, a.plan.steps[p].prompt);
    }
  }

  lemma LastStepRan(a: Attempt, budget: Budget, env: Env, behaviour: Behaviour)
    requires env == EnvFor(env.maxReplans, behaviour, env.uuid, env.verifier)
    requires Proper(a, budget, env) && a.finish.state.results != []
    ensures var p := |a.finish.state.results| - 1;
      p < |a.plan.steps| && a.plan.steps[p].stepId == LastResult(a.finish).stepId
  {
    hide Order, Execution;
    var calls :| a.finish == env.execute(a.plan, calls);
    ChainOrder(a.plan.steps);
    ExecutionFacts(a.plan, FreshState(calls), behaviour);
    assert Recorded(a.plan.steps, FreshState(calls), a.finish.state, a.plan.budget.executionTokens,
                    |a.finish.state.results| - 1);
  }

  lemma RequestEndsWithPrompt(plan: Plan, s0: RunState, behaviour: Behaviour, p: nat)
    requires PlannerBuilt(plan) && Begin(s0) && p < |Execution(plan, s0, behaviour).state.results|
    ensures var s := Execution(plan, s0, behaviour).state;
      p < |plan.steps| && |s0.calls| + p < |s.calls| && EndsWith(s.calls[|s0.calls| + p].prompt, plan.steps[p].prompt)
  {
    hide Order, Execution, EndsWith;
    ChainOrder(plan.steps);
    ExecutionFacts(plan, s0, behaviour);
    var s := Execution(plan, s0, behaviour).state;
    assert Recorded(plan.steps, s0, s, plan.budget.executionTokens, p);
    ContextQuotes(plan.steps[p].dependsOn, plan.steps[p].prompt, OutputsOf(s0.outputs, s.results[..p]), "");
  }

  /** Over every run: attempt k + 1, when it reaches the step attempt k failed at, is told that step's error. */
  lemma ErrorsReachRetries(plan: Plan, next: nat, calls: seq<Request>, env: Env, behaviour: Behaviour, k: nat)
    returns (p: nat)
    requires env == EnvFor(env.maxReplans, behaviour, env.uuid, env.verifier)
    requires PlannerBuilt(plan) && FromSupply(plan.steps, env.uuid, next) && Injective(env.uuid)
    requires k + 1 < |Attempts(plan, 0, next, calls, env)|
    ensures var tried := Attempts(plan, 0, next, calls, env);
      var a, b := tried[k], tried[k + 1];
      && a.finish.state.results != []
      && p < |a.plan.steps| && a.plan.steps[p].stepId == LastResult(a.finish).stepId
      && (|b.finish.state.results| > p ==>
            && |a.finish.state.calls| + p < |b.finish.state.calls|
            && var e := LastResult(a.finish).error;
               Quotes(b.finish.state.calls[|a.finish.state.calls| + p].prompt,
                      if e.Some? && e.value != "" then e.value else "unknown"))
  {
    hide Attempts, RetryOf, Proper, PlannerBuilt, FromSupply, Injective, Quotes, EndsWith, Chained;
    ExecutorRunsPlans(env.maxReplans, behaviour, env.uuid, env.verifier);
    AttemptsFacts(plan, 0, next, calls, env);
    FailuresAreRetried(plan, next, calls, env, k);
    var tried := Attempts(plan, 0, next, calls, env);
    var e := LastResult(tried[k].finish).error;
    p := RetryIsTold(tried[k], tried[k + 1], if e.Some? && e.value != "" then e.value else "unknown",
                     plan.budget, env, behaviour);
  }

  /** Exactly one position of the plan gets a new id; the others keep theirs, and no step's promise changes. */
  lemma OneStepReplaced(a: Attempt, b: Attempt) returns (at: nat)
    requires Follows(a, b) && PlannerBuilt(a.plan)
    ensures |b.plan.steps| == |a.plan.steps| && at < |a.plan.steps|
    ensures forall i :: 0 <= i < |a.plan.steps| ==> (b.plan.steps[i].stepId != a.plan.steps[i].stepId <==> i == at)
    ensures forall i :: 0 <= i < |a.plan.steps| ==> b.plan.steps[i].maxTokens == a.plan.steps[i].maxTokens
  {
    at := ReplacedPosition(a.plan, b.plan, LastResult(a.finish).stepId);
  }

  lemma ReplacedPosition(p: Plan, q: Plan, failed: Id) returns (at: nat)
    requires failed in Ids(p.steps) && Distinct(Ids(p.steps))
    requires exists error, newId :: Fresh(p.steps, newId) && q == Replanned(p, failed, error, newId)
    ensures |q.steps| == |p.steps| && at < |p.steps|
    ensures forall i :: 0 <= i < |p.steps| ==> (q.steps[i].stepId != p.steps[i].stepId <==> i == at)
    ensures forall i :: 0 <= i < |p.steps| ==> q.steps[i].maxTokens == p.steps[i].maxTokens
  {
    var ids := Ids(p.steps);
    at :| 0 <= at < |ids| && ids[at] == failed;
    forall i | 0 <= i < |ids| ensures q.steps[i].stepId != p.steps[i].stepId <==> i == at {
      assert ids[i] in ids;
      assert i == at <==> ids[i] == failed;
    }
  }

  /** After the first replan the plans' strategies alternate strictly between analytical and retrieval-first. */
  lemma {:induction false} StrategiesAlternate(attempts: seq<Attempt>, k: nat)
    requires Linked(attempts) && k < |attempts|
    ensures k >= 1 ==> attempts[k].plan.strategy in {Analytical, RetrievalFirst}
    ensures k >= 1 ==> attempts[k].plan.strategy != attempts[k - 1].plan.strategy
    ensures k >= 3 ==> attempts[k].plan.strategy == attempts[k - 2].plan.strategy
  {
    if k >= 1 {
      assert Follows(attempts[k - 1], attempts[k - 1 + 1]);
      StrategiesAlternate(attempts, k - 1);
    }
    if k >= 3 { StrategiesAlternate(attempts, k - 2); }
  }

  /** Every attempt of every run, against any backend, obeys the token bound of the task's budget. */
  lemma RunTokenBound(plan: Plan, next: nat, calls: seq<Request>, env: Env, behaviour: Behaviour, k: nat)
    requires env == EnvFor(env.maxReplans, behaviour, env.uuid, env.verifier)
    requires PlannerBuilt(plan) && FromSupply(plan.steps, env.uuid, next) && Injective(env.uuid)
    requires k < |AllAttempts(plan, next, calls, env)|
    ensures var used, e := AllAttempts(plan, next, calls, env)[k].finish.state.tokens, plan.budget.executionTokens;
      0 <= used <= if e <= 0 then 0 else e + 255
  {
    ExecutorRunsPlans(env.maxReplans, behaviour, env.uuid, env.verifier);
    RunFacts(plan, next, calls, env);
    var a := AllAttempts(plan, next, calls, env)[k];
    assert Proper(a, plan.budget, env);
    var calls' :| a.finish == env.execute(a.plan, calls');
    TokenBound(a.plan, FreshState(calls'), behaviour);
  }

  // ---------------------------------------------------------------- the code

  class AxisRuntime {
    const maxReplans: int
    const backend: Backend
    const verifier: Option<Verifier>

    constructor (maxReplans: int, backend: Backend, verifier: Option<Verifier>)
      ensures this.maxReplans == maxReplans && this.backend == backend && this.verifier == verifier
    {
      this.maxReplans, this.backend, this.verifier := maxReplans, backend, verifier;
    }

    ghost function EnvOf(uuid: nat -> Id): Env {
      EnvFor(maxReplans, backend.behaviour, uuid, verifier)
    }

    /** The trace object holds what `a` records. */
    ghost predicate Shows(trace: ExecutionTrace, a: Attempt)
      reads trace
    {
      && trace.stepResults == a.finish.state.results
      && trace.executionTokens == trace.totalTokens == a.finish.state.tokens
      && trace.outcome == a.finish.outcome && trace.error == a.finish.error
      && trace.strategy == a.plan.strategy
    }

    lemma ShowsFinish(trace: ExecutionTrace, a: Attempt)
      requires Shows(trace, a)
      ensures trace.outcome == a.finish.outcome && trace.stepResults == a.finish.state.results
    {
    }

    /** The trace carries the verdict's score and confidence, or neither. */
    ghost predicate Scored(trace: ExecutionTrace, v: Option<Verdict>)
      reads trace
    {
      match v
      case None => trace.verifierScore == None && trace.confidencePredicted == None
      case Some(w) => trace.verifierScore == Some(w.score) && trace.confidencePredicted == Some(w.confidence)
    }

    /** One attempt, in its own fresh Working Memory. The attempt is returned beside the trace. */
    method Try(plan: Plan) returns (trace: ExecutionTrace, a: Attempt)
      modifies backend
      ensures fresh(trace)
      ensures a == Attempt(plan, Execution(plan, FreshState(old(backend.calls)), backend.behaviour))
      ensures Shows(trace, a) && backend.calls == a.finish.state.calls
      ensures trace.replanningEvents == 0 && Scored(trace, None)
    {
      var wm := new WorkingMemory();
      trace := ExecutePlan(plan, wm, backend);
      a := Attempt(plan, Finish(
        RunState(trace.stepResults, trace.executionTokens, wm.stepOutputs, wm.toolCalls, backend.calls),
        trace.outcome, trace.error));
    }

    /** Replan the last step of an attempt and try again. */
    method TryReplanned(last: Attempt, error: string, events: int, uuid: nat -> Id, next: nat)
      returns (trace: ExecutionTrace, a: Attempt)
      requires last.finish.state.results != [] && backend.calls == last.finish.state.calls
      modifies backend
      ensures a.plan == NextPlan(last, error, next, EnvOf(uuid))
      ensures a == Attempt(a.plan, EnvOf(uuid).execute(a.plan, last.finish.state.calls))
      ensures fresh(trace) && Shows(trace, a) && backend.calls == a.finish.state.calls
      ensures trace.replanningEvents == events && Scored(trace, None)
    {
      hide Execution, Replanned, FreshState;
      var failed := LastResult(last.finish);
      var plan := Replan(last.plan, failed.stepId, error, uuid(next));
      trace, a := Try(plan);
      trace.replanningEvents := events;
    }

    /** The failure-replan loop. */
    method TryUntilDone(initial: Plan, uuid: nat -> Id, next: nat)
      returns (trace: ExecutionTrace, attempts: seq<Attempt>)
      modifies backend
      ensures attempts == Attempts(initial, 0, next, old(backend.calls), EnvOf(uuid))
      ensures fresh(trace) && Shows(trace, Last(attempts)) && backend.calls == Last(attempts).finish.state.calls
      ensures trace.replanningEvents == |attempts| - 1 && Scored(trace, None)
    {
      hide Execution, Attempts, Remain, Replanned, NextPlan, FreshState, ErrorText, Scored, Shows;
      ghost var env, calls := EnvOf(uuid), backend.calls;
      ghost var all := Attempts(initial, 0, next, calls, env);
      LoopStarts(initial, next, calls, env);
      var a: Attempt;
      trace, a := Try(initial);
      ShowsFinish(trace, a);
      attempts := [a];
      ghost var before: seq<Attempt> := [];
      var replans := 0;
      while trace.outcome == Failure && replans < maxReplans && trace.stepResults != []
        invariant fresh(trace) && replans == |before| && attempts == before + [a]
        invariant a == Attempt(a.plan, env.execute(a.plan, calls)) && backend.calls == a.finish.state.calls
        invariant Shows(trace, a) && trace.replanningEvents == replans && Scored(trace, None)
        invariant trace.outcome == a.finish.outcome && trace.stepResults == a.finish.state.results
        invariant Remain(all, before, a.plan, replans, next + replans, calls, env)
        decreases maxReplans - replans
      {
        LoopTurn(all, before, a.plan, replans, next + replans, calls, env);
        var error := ErrorText(LastResult(a.finish));
        before, calls := attempts, backend.calls;
        replans := replans + 1;
        trace, a := TryReplanned(a, error, replans, uuid, next + replans - 1);
        ShowsFinish(trace, a);
        attempts := attempts + [a];
      }
      LoopTurn(all, before, a.plan, replans, next + replans, calls, env);
    }

    /** One more attempt after a rejection, and its verdict. */
    method TryAgain(last: Attempt, rationale: string, events: int, taskClass: string, uuid: nat -> Id, next: nat)
      returns (trace: ExecutionTrace, a: Attempt)
      requires last.finish.state.results != [] && backend.calls == last.finish.state.calls && verifier.Some?
      modifies backend
      ensures a == SecondChance(last, rationale, next, EnvOf(uuid))
      ensures fresh(trace) && Shows(trace, a)
      ensures trace.taskClass == taskClass && trace.replanningEvents == events
      ensures Scored(trace, Some(verifier.value(1, a, events)))
    {
      hide Execution, NextPlan, FreshState;
      trace, a := TryReplanned(last, "verifier_rejected:" + rationale, events, uuid, next);
      trace.taskClass := taskClass;
      trace.strategy := a.plan.strategy;
      var again := verifier.value(1, a, events);
      trace.verifierScore, trace.confidencePredicted := Some(again.score), Some(again.confidence);
    }

    /** The single verifier-driven replan, when there is a verifier and it rejects the result. */
    method VerifyOnce(trace: ExecutionTrace, attempts: seq<Attempt>, uuid: nat -> Id, next: nat)
      returns (final: ExecutionTrace, all: seq<Attempt>)
      requires attempts != [] && Shows(trace, Last(attempts)) && trace.replanningEvents == |attempts| - 1
      requires Scored(trace, None) && backend.calls == Last(attempts).finish.state.calls
      modifies backend, trace
      ensures all == match Rejection(attempts, EnvOf(uuid))
                     case None => attempts
                     case Some(rationale) =>
                       attempts + [SecondChance(Last(attempts), rationale, next + |attempts| - 1, EnvOf(uuid))]
      ensures (final == trace || fresh(final)) && Shows(final, Last(all))
      ensures final.taskClass == old(trace.taskClass) && final.replanningEvents == |all| - 1
      ensures Scored(final, FinalVerdict(attempts, all, EnvOf(uuid)))
    {
      hide SecondChance, FreshState;
      final, all := trace, attempts;
      if verifier.Some? {
        var last := Last(attempts);
        var verdict := verifier.value(0, last, trace.replanningEvents);
        trace.verifierScore, trace.confidencePredicted := Some(verdict.score), Some(verdict.confidence);
        if !verdict.passed && !verdict.skipped && trace.replanningEvents < maxReplans && trace.stepResults != [] {
          trace.replanningEvents := trace.replanningEvents + 1;
          var newTrace, a := TryAgain(last, verdict.rationale, trace.replanningEvents, trace.taskClass, uuid,
                                      next + trace.replanningEvents - 1);
          final, all := newTrace, attempts + [a];
        }
      }
    }

    /** `run`, from the plan the Planner made; the first `next` ids of the supply are used up by then. */
    method Run(initial: Plan, taskClass: string, uuid: nat -> Id, next: nat)
      returns (trace: ExecutionTrace, attempts: seq<Attempt>)
      requires PlannerBuilt(initial) && FromSupply(initial.steps, uuid, next) && Injective(uuid)
      modifies backend
      ensures attempts == AllAttempts(initial, next, old(backend.calls), EnvOf(uuid))
      ensures fresh(trace) && Shows(trace, Last(attempts)) && trace.taskClass == taskClass
      ensures Scored(trace, FinalVerdict(Attempts(initial, 0, next, old(backend.calls), EnvOf(uuid)), attempts, EnvOf(uuid)))
      ensures 1 <= |attempts| == 1 + trace.replanningEvents <= 1 + Max(0, maxReplans)
    {
      hide PlannerBuilt, FromSupply, Injective, RunsPlans, Linked, AllProper, Attempts, SecondChance, Rejection;
      ExecutorRunsPlans(maxReplans, backend.behaviour, uuid, verifier);
      RunFacts(initial, next, backend.calls, EnvOf(uuid));
      trace, attempts := TryUntilDone(initial, uuid, next);
      trace.taskClass := taskClass;
      trace, attempts := VerifyOnce(trace, attempts, uuid, next);
    }

    /**
      A task end to end under the default configuration: allocate, plan, apply the router's
      strategy if there is one, and run. Every attempt stays within the task's whole budget, the
      number of attempts is one more than the replanning events, and those are at most `max_replans`.
     */
    method RunTask(
      task: Scheduler.Task, taskId: Id, input: string, template: Option<Template>, strategy: Strategy,
      routed: Option<Strategy>, gates: Gates, uuid: nat -> Id)
      returns (trace: ExecutionTrace, attempts: seq<Attempt>)
      requires Injective(uuid)
      modifies backend
      ensures fresh(trace) && attempts != [] && Shows(trace, Last(attempts)) && trace.taskClass == task.taskClass
      ensures |attempts| == 1 + trace.replanningEvents <= 1 + Max(0, maxReplans)
      ensures Linked(attempts) && attempts[0].plan.strategy == routed.GetOr(strategy)
      ensures forall k :: 0 <= k < |attempts| ==>
        0 <= attempts[k].finish.state.tokens <= Allocate(Scheduler.DEFAULT, task).totalTokens <= 32000
    {
      hide IsChain, FromSupply, Injective, Linked, AllAttempts, Attempts, FinalVerdict, Scored, Allocate, Issued;
      var budget := Allocate(Scheduler.DEFAULT, task);
      var phases := Phases(template, gates.retrieval, strategy);
      var ids := Supply(uuid, |phases|);
      var plan := MakePlan(taskId, input, template, strategy, budget, gates, ids);
      NothingFromSupply(uuid);
      if phases != [] {
        LinearFromSupply(phases, ids, input, PerStep(budget.executionTokens, |phases|), uuid);
      }
      if routed.Some? { plan := plan.(strategy := routed.value); }
      ghost var calls, env := backend.calls, EnvOf(uuid);
      ExecutorRunsPlans(maxReplans, backend.behaviour, uuid, verifier);
      RunFacts(plan, |phases|, calls, env);
      RunWithinTotal(task, plan, |phases|, calls, env, backend.behaviour);
      trace, attempts := Run(plan, task.taskClass, uuid, |phases|);
    }
  }

  lemma NothingFromSupply(uuid: nat -> Id)
    ensures FromSupply([], uuid, 0)
  {
  }

  /** The first `n` ids of the supply. */
  function Supply(uuid: nat -> Id, n: nat): (ids: seq<Id>)
    ensures |ids| == n && forall i: nat :: i < n ==> ids[i] == uuid(i)
    ensures Injective(uuid) ==> Distinct(ids)
  {
    seq(n, i requires 0 <= i < n => uuid(i))
  }

  lemma RunWithinTotal(task: Scheduler.Task, plan: Plan, next: nat, calls: seq<Request>, env: Env, behaviour: Behaviour)
    requires env == EnvFor(env.maxReplans, behaviour, env.uuid, env.verifier)
    requires Ready(plan, next, env) && plan.budget == Allocate(Scheduler.DEFAULT, task)
    ensures forall k :: 0 <= k < |AllAttempts(plan, next, calls, env)| ==>
      0 <= AllAttempts(plan, next, calls, env)[k].finish.state.tokens
        <= Allocate(Scheduler.DEFAULT, task).totalTokens <= 32000
  {
    hide AllAttempts, Allocate, Follows;
    RunFacts(plan, next, calls, env);
    var r := AllAttempts(plan, next, calls, env);
    forall k | 0 <= k < |r|
      ensures 0 <= r[k].finish.state.tokens <= Allocate(Scheduler.DEFAULT, task).totalTokens <= 32000
    {
      assert Proper(r[k], plan.budget, env);
      ProperWithinTotal(task, r[k], plan.budget, env, behaviour);
    }
  }

  lemma ProperWithinTotal(task: Scheduler.Task, a: Attempt, budget: Budget, env: Env, behaviour: Behaviour)
    requires env == EnvFor(env.maxReplans, behaviour, env.uuid, env.verifier)
    requires Proper(a, budget, env) && budget == Allocate(Scheduler.DEFAULT, task)
    ensures 0 <= a.finish.state.tokens <= Allocate(Scheduler.DEFAULT, task).totalTokens <= 32000
  {
    hide PlannerBuilt, Allocate, Execution;
    var calls :| a.finish == env.execute(a.plan, calls);
    TokenBound(a.plan, FreshState(calls), behaviour);
    AttemptWithinTotal(task, a.plan, FreshState(calls), behaviour);
  }
}
