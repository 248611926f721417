# AXIS: verified model

AXIS is a Python runtime that plans a task as a graph of steps, executes the plan against an
inference backend under a token budget, replans on failure, measures itself, and adapts under an
evaluation gate and safety rules. This project models those components in Dafny and proves what
they guarantee on every input, every run and every backend. `dafny verify dfyconfig.toml` checks it.

How the parts correspond:

| files | component |
|---|---|
| `PlanTypes`, `Topology`, `Renaming` | plans and `topological_order` (axis/types.py) |
| `Planner`, `Executor`, `Scheduler`, `Runtime` | planning and replanning, execution, budgets, the driver loop |
| `Statistics`, `Drift`, `Windows`, `Telemetry`, `SelfModel` | the telemetry observer, its metrics, drift tests and self-model snapshot |
| `Regression`, `EvalHarness` | the evaluation gate |
| `Episodic`, `Forgetting`, `Procedural` | memory stores, forgetting, planner index, federated validation |
| `Adaptation`, `Diagnosis`, `Safety` | deployments and circuit breaker, credit assignment, proposal review |
| `WorldModel` | typed states and forward simulation |
| `Wrappers`, `Collections`, `Reals`, `Text` | shared helpers |

Code that works by updating variables or objects is a method or a class. Its contract ties it to a
function of the inputs or of the old state, and the lemmas are about that function. Where a function
repeats a loop (`Topology.Order`, `Executor.Execution`, `Runtime.AllAttempts`), the lemmas give its
meaning by a definition that does not mention the loop: well-formed plans, permutations,
dependencies that come earlier, sums of charges.

Modelling choices. A raised exception is an `Err`. A uuid is the next id of an injective supply, so
it is fresh for the plan at hand. The backend is an oracle whose reply may depend on every request
made so far; the verifier is an oracle on the attempt it is shown. Clock readings are parameters.
Floats are reals, and `|d| / sqrt(v) > z` is compared in squares. A Python dictionary iterated by
its keys is iterated in an unspecified order, except in `topological_order`, `best_strategy`,
`most_common`, `best_for_class`, the planner's index and `check_validations`, where the insertion
order matters and is kept.

## What the code does and its documentation does not say

- `topological_order` raises "plan contains a cycle" on any plan whose sort stays incomplete. A
  dependency listed twice does that without a cycle (`Topology.DuplicateDependencyReportedAsCycle`);
  `Topology.OrderSucceedsIff` gives the exact condition for success.
- The two-proportion drift test is documented as counting any unequal recent sample against a
  zero-variance baseline as drift. Nine successes and one failure after twenty successes are not
  flagged at two standard errors (`Drift.OneFailureInTenIsNoDrift`). `Drift.PureBaselineDrift` says
  exactly when such a baseline is flagged: d of n2 recent samples differ from the n1 baseline ones,
  and d * n1 * (n1 + n2) > z * z * n2 * (n1 + n2 - d). The code's own zero-variance branch looks at
  the pooled variance and never reports drift (`Statistics.NoVarianceNoDrift`); in the regression
  test it is unreachable (`Regression.RegressedInCounts`).
- The circuit breaker is documented as three rollbacks within 500 tasks. As coded it counts every
  rollback ever made (`Adaptation.BreakerNeverForgets`): 1500 tasks after the last one a check still
  renews conservative mode (`Adaptation.OldRollbacksStillTrip`). The two rules agree exactly while
  there are fewer than three rollbacks or the third latest is less than 500 tasks old
  (`Adaptation.BreakerAsDocumentedIff`).
- A dominant root cause is documented as covering more than half of the failures; the code accepts
  exactly half. The rules part exactly on an even split (`Diagnosis.MajorityIff`), as with five
  failures of each of two causes (`Diagnosis.FiveFiveIsDiagnosed`).
- Value-ranked eviction treats ages under one second as equal, so a newer episode can go before an
  older one of its outcome class (`Forgetting.NewerCanBeEvicted`). `Forgetting.OldestGoFirstIff`
  gives the exact condition, for every policy: under a positive recency weight, no episode stands
  in the list ahead of an older one of its class that is at most a second old. Stores filled in time
  order meet it (`Forgetting.ChronologicalEviction`).
- `satisfies` reads `key!=value`, `apply` does not: as an assignment it writes the key `key!`
  (`WorldModel.DiffersIsNotEnforced`). An applied assignment is satisfied exactly when it starts with
  `!`, contains no `!=`, or was satisfied before (`WorldModel.AppliedIff`; inside a list,
  `WorldModel.AppliedInListIff`).
- A candidate procedure is documented as validated when enough instances succeed on the same task
  class; the code does not look at the class of a report (`Procedural.MixedClassesValidate`). The
  rules agree, whatever number is asked for, exactly when all good instances are good on one common
  class (`Procedural.ValidationAgreesIff`).
- `avg_cost` is updated like a mean, but a usage that cost 2 followed by one without costs still
  averages 2 (`Procedural.SkippedUsageIsOff`). For costs that are not negative it is the mean of a
  kind of cost exactly when every usage after one that paid for the kind carries it too, and the
  kind is not first paid for after one or more usages that all came without any costs
  (`Procedural.AverageCostIsMeanIff`); otherwise it is too high.

## Model

| member | source | states |
|---|---|---|
| Topology.TopologicalOrder | axis/types.py:119-142 | the worklist code returns normally iff the plan is well-formed, and then a permutation of the steps with every dependency strictly earlier |
| Topology.OrderSucceedsIff | axis/types.py:119-142 | success iff ids are distinct, every dependency names a step, no dependency is listed twice and no walk along dependencies closes; the cycle error iff dependencies are known but one of the other three fails |
| Topology.OrderIsTopological | axis/types.py:131-142 | the order lists every step exactly once, after all the steps it depends on |
| Topology.OrderSucceedsIffRanked | axis/types.py:119-142 | equivalently, some rank drops strictly along every dependency |
| Topology.PopKeepsInv | axis/types.py:131-138 | an id has entered the queue just when its counter is at or below zero, and no id enters twice, so the loop ends |
| Topology.PopCounts | axis/types.py:134-138 | with distinct ids a counter is the number of listed dependencies not popped yet |
| Topology.PopDepsEarlier | axis/types.py:131-138 | every id in the queue entered after all of its dependencies were popped |
| Topology.StuckMeansCycle | axis/types.py:140-141 | when the queue runs dry with a step left over, following unpopped dependencies finds a cycle |
| Topology.DuplicateDependencyReportedAsCycle | axis/types.py:122-141 | a two-step plan with a repeated dependency and no cycle raises the cycle error |
| Topology.CountDependencies | axis/types.py:122-127 | the counting loop: the first unknown dependency in list order is the error, otherwise the counters are the dependency counts |
| Topology.Kahn | axis/types.py:129-138 | the main loop pops exactly the ids of the worklist function, each mapped to its step |
| Renaming.RenamedOrder | axis/types.py:119-142 | exchanging two ids throughout a plan exchanges them in the order and changes neither success nor positions |
| Planner.AlternativeStrategy | axis/planner.py:152-168 | the alternative always differs: analytical, or retrieval-first when the current one is analytical |
| Planner.Replan | axis/planner.py:60-120 | the loop rewrites each step as specified and keeps task, budget and gates |
| Planner.ReplanRetries | axis/planner.py:60-120 | for every plan and id: the failed step gets the new id, the other strategy, its action with `_retry` added and a prompt that quotes the error and ends with the old one; tool, dependencies, token promise and conditions stay; every other step differs at most in the new id among its dependencies |
| Planner.ReplanKeepsOrder | axis/planner.py:60-120 | for every plan, failed id and fresh id: the new plan sorts iff the old one did, and position by position to the rewritten steps |
| Planner.ReplannedChainOrder | axis/planner.py:60-120 | after any number of replans a planner-built plan is still a chain that sorts to its own step list, with the same length, budget and gates |
| Planner.ChainHasOneOrder | axis/planner.py:203-219 | a chain has only one topological order |
| Planner.ChainOrder | axis/planner.py:203-219 | a chain sorts to exactly its own step list |
| Planner.MakePlan | axis/planner.py:39-58 | default or template, the plan is the linear chain over its phases with the matching rationale, each step promised the even share of the execution tokens, at least 256 |
| Planner.PerStep | axis/planner.py:201 | the promise is at least 256, and either 256 or the floor share |
| Executor.ExecutePlan | axis/executor.py:106-148 | the trace, working memory and backend calls are those of the execution function, on invalid plans too; total and execution tokens agree |
| Executor.ExecuteStep | axis/executor.py:58-101 | one step: a raised exception is a failed result with no tokens, a failure leaves working memory alone, a success writes its output and tool calls |
| Executor.Charge | axis/executor.py:83-85 | the charge is never negative, never above a ceiling that is not negative, and is the reported number when that lies between |
| Executor.ExecutionFacts | axis/executor.py:106-148 | results follow a prefix of the order, tokens are the sum of the charges, every step started under budget; success iff all ran and succeeded, failure iff the last result failed, partial iff a proper prefix succeeded, with tokens at or over budget |
| Executor.RepliesDecide | axis/executor.py:58-148 | for every plan that sorts, start state and backend: success iff every step was asked for and every reply came back with success, failure iff the last reply was an exception or a failure; each result has its reply's output, tool calls, error and clamped tokens, and an exception costs nothing and is the error |
| Executor.SuccessFillsMemory | axis/executor.py:97-99 | a successful execution leaves each step's own reply in working memory |
| Executor.InvalidPlanFails | axis/executor.py:118-124 | a plan that does not sort fails without a backend call |
| Executor.DependenciesReady | axis/executor.py:97-99 | when a step runs, each dependency has already succeeded, and its own output is in the memory the request is built from |
| Executor.ContextQuotes | axis/executor.py:153-166 | the context ends with the step's prompt and quotes every non-empty output of a dependency |
| Executor.TokenBound | axis/executor.py:126-138 | a planner-built plan uses at most E + 255 tokens, at most E when the even share is at least 256, none when E is not positive |
| Scheduler.AllocateConserves | axis/scheduler.py:67-96 | the sub-budgets sum exactly to a total under the ceiling; with a sensible configuration none is negative |
| Scheduler.SharesRoundedDown | axis/scheduler.py:82-87 | each of the three sub-budgets is its share of the total rounded down |
| Scheduler.AllocateMonotone | axis/scheduler.py:73-80 | more complexity or a larger stakes factor never lowers the total |
| Scheduler.AllowanceScales | axis/scheduler.py:67-80 | under the defaults at medium stakes: exactly the class's allowance at complexity 0.4, six tenths of it at 0 and sixteen tenths at 1 |
| Scheduler.DefaultTotal | axis/config.py:11-42 | under the defaults every task gets between 1680 and 32000 tokens |
| Scheduler.AttemptWithinTotal | axis/scheduler.py:67-96 | under the defaults an execution of a planner-built plan stays within the task's total |
| Runtime.AxisRuntime.Run | axis/runtime.py:96-161 | the run makes exactly the specified attempts, one more than its replanning events and at most 1 + max_replans, and returns the last one's trace with its verifier score and confidence |
| Runtime.AxisRuntime.RunTask | axis/runtime.py:76-161 | allocate, plan, route and run: every attempt of every task stays within the task's total budget under the defaults |
| Runtime.AxisRuntime.TryUntilDone | axis/runtime.py:96-119 | the failure loop, each attempt in a fresh working memory |
| Runtime.AxisRuntime.VerifyOnce | axis/runtime.py:129-161 | the single verifier-driven replan happens iff the verifier rejects, replans are left and some step ran; the trace ends with the last verdict's score and confidence |
| Runtime.RunFacts | axis/runtime.py:96-161 | every attempt runs a planner-built plan under the task's budget, each follows the one before by one replan of a step of that plan under a fresh id, and there are at most 1 + max_replans |
| Runtime.FailureExhaustsReplans | axis/runtime.py:96-161 | a run that ends in failure has used every replan, or ends on the verifier-driven attempt after one that had not failed; without a verifier only failures are replanned |
| Runtime.FailuresAreRetried | axis/runtime.py:100-119 | over every run of the failure loop, each attempt but the last failed, and the next is its retry, over the error of its own last step |
| Runtime.RetryIsTold | axis/runtime.py:106-118 | a retry that reaches the step it was made for asks for it with a prompt that quotes the error and ends with the old prompt |
| Runtime.ErrorsReachRetries | axis/runtime.py:96-119 | over every run: the request recorded when attempt k + 1 reaches the retried step quotes the error of attempt k |
| Runtime.VerdictDecides | axis/runtime.py:129-161 | over every run with a verifier: there is one more attempt iff the verdict on the failure loop's last is neither passed nor skipped, replans are left and some step ran; an accepted or skipped result is the one returned |
| Runtime.OneStepReplaced | axis/planner.py:75-112 | between consecutive attempts exactly one position changes its id and no token promise changes |
| Runtime.StrategiesAlternate | axis/planner.py:152-168 | from the first replan on, strategies alternate strictly between analytical and retrieval-first |
| Runtime.RunTokenBound | axis/executor.py:126-138 | every attempt of every run obeys the token bound |
| Statistics.PercentileMonotone | axis/telemetry.py:581-596 | on sorted input the quantile lies between the extremes and never falls as q rises, across ranks too |
| Statistics.PercentileAtRank | axis/telemetry.py:590-594 | at an exact rank the quantile is that element |
| Statistics.PercentileOfLine | axis/telemetry.py:581-596 | on evenly spaced values the quantile moves along the line, between ranks too |
| Statistics.PercentilePointwise | axis/telemetry.py:581-596 | pointwise larger input gives a larger quantile |
| Statistics.DriftSymmetric | axis/telemetry.py:542-562 | the verdict is the same with the two samples exchanged |
| Statistics.DriftLabelInvariant | axis/telemetry.py:542-562 | the verdict is the same when failures are counted instead of successes |
| Statistics.NoVarianceNoDrift | axis/telemetry.py:560-561 | the pooled zero-variance branch never reports drift |
| Drift.DriftIsRegression | axis/telemetry.py:542-562 | two samples drift apart iff one is a regression of the other at the same threshold |
| Drift.PureBaselineDrift | axis/telemetry.py:545-562 | against a baseline without variance: flagged iff enough recent samples differ, with the exact number |
| Drift.OneFailureInTenIsNoDrift | axis/telemetry.py:549-562 | an unequal recent sample against a zero-variance baseline that is not flagged |
| Drift.CollapseIsFlagged | axis/telemetry.py:542-562 | all successes, then all failures: flagged iff z squared is below the number of samples |
| Statistics.MeanDriftShiftInvariant | axis/telemetry.py:565-578 | adding a constant to every latency changes no verdict |
| Drift.MeanDriftInSums | axis/telemetry.py:565-578 | the verdict of the mean test in sums and sums of squares, for every two samples it compares |
| Drift.EqualMeansNoDrift | axis/telemetry.py:571-578 | samples of equal mean are never flagged |
| Drift.WiderGapKeepsDrift | axis/telemetry.py:571-578 | means further apart at the same variances keep every flag |
| Drift.SmallerThresholdKeepsDrift | axis/telemetry.py:575-578 | a smaller threshold keeps every flag |
| Drift.ShiftedSamplesDrift | axis/telemetry.py:565-578 | n samples against themselves moved by c: flagged iff c * c * n > 2 * z * z * variance |
| Drift.ConstantSamplesDrift | axis/telemetry.py:576-577 | two constant samples are flagged iff they differ |
| Windows.PushKeyedKeeps | axis/telemetry.py:217-231 | a dictionary of bounded deques holds for each key the last N events of that key |
| Windows.MeanByKey | axis/telemetry.py:281-288 | the rate loop: a mean for each key whose buffer is not empty |
| Windows.ShareByValue | axis/telemetry.py:297-302 | each value's share is its number of occurrences over the buffer's length |
| Telemetry.TelemetryObserver.Ingest | axis/telemetry.py:213-260 | after every ingest each buffer is the window of its stream over the whole history |
| Telemetry.OneEventPerRecord | axis/telemetry.py:213-234 | the outcome, cost, latency and replanning streams have one event for each record, in order, of its own class and value |
| Telemetry.FailuresConserved | axis/telemetry.py:245-253 | over every history a class has as many failure entries as failures among its outcomes |
| Telemetry.CertaintyMissesFailures | axis/telemetry.py:240-243 | with every success predicted for certain, the misses add up to the tasks that did not succeed |
| Telemetry.TelemetryObserver.IngestTools | axis/telemetry.py:255-260 | per-tool results are the last N of the flattened tool calls |
| Telemetry.TelemetryObserver.WinRateByClass | axis/telemetry.py:281-288 | a class's win rate is the success rate among the last N of that class's records in the history |
| Telemetry.TelemetryObserver.AvgCostByClass | axis/telemetry.py:312-318 | a class's average cost is the mean over its last N records |
| Telemetry.TelemetryObserver.ToolSuccessRate | axis/telemetry.py:304-310 | a tool's rate is the success rate among its last N uses |
| Telemetry.TelemetryObserver.StrategyBias | axis/telemetry.py:297-302 | a strategy's share of the last N selections |
| Telemetry.TelemetryObserver.FailureModeFrequency | axis/telemetry.py:320-325 | an error's share of the last N failures |
| Telemetry.TelemetryObserver.CalibrationError | axis/telemetry.py:290-295 | the mean miss over the last N predictions in the history, at most 1 when the predictions lie between 0 and 1 |
| Telemetry.TelemetryObserver.ReplanningRate | axis/telemetry.py:327-331 | the share of the last N tasks in the history that were replanned |
| Telemetry.TelemetryObserver.LatencyDistribution | axis/telemetry.py:333-346 | over the last N latencies of each class in the history: p50, p90, p95 and p99 never fall |
| Telemetry.TelemetryObserver.DriftFlags | axis/telemetry.py:351-389 | flagged are exactly the classes whose last N outcomes in the history moved, in counts, and those whose last N latencies moved, in sums and sums of squares; a collapsed class always at the defaults |
| Telemetry.PercentilesOrdered | axis/telemetry.py:338-345 | the four percentiles are ordered and lie between the smallest and largest latency |
| Telemetry.HundredSteps | axis/telemetry.py:338-345 | over 101 evenly spaced latencies the four percentiles are those at 50, 90, 95 and 99 steps |
| Telemetry.SpotlessClassDrifts | axis/telemetry.py:369-377 | a class without a miss up to its last samples is flagged iff enough of those missed |
| Telemetry.CollapseFlaggedByDefault | axis/telemetry.py:351-377 | with the default windows, a class none of whose last ten tasks succeeded and all of whose others within the last hundred did is flagged |
| Telemetry.LatencyShiftInvariant | axis/telemetry.py:379-387 | a constant change in a class's latencies changes no latency flag |
| Telemetry.LatencyDriftsInSums | axis/telemetry.py:379-387 | a class's latency flag in sums and sums of squares of its buffer's two parts |
| Telemetry.WinRateDriftsInCounts | axis/telemetry.py:367-377 | a class's win-rate flag in counts of successes in its buffer's two parts |
| Telemetry.LevelChangeDrifts | axis/telemetry.py:379-387 | a latency that was steady and then steady at another level is flagged at any threshold, at the same level never |
| SelfModel.FoldByClass | axis/telemetry.py:417-428 | the first pass: a pair's entry counts that class's records with that strategy, and their successes; keys are in order of first selection |
| SelfModel.FoldByStrategy | axis/telemetry.py:483-492 | the second pass: totals and wins per strategy |
| SelfModel.CountsAgree | axis/telemetry.py:417-492 | summed over the classes, the first pass's totals and wins are the second pass's |
| SelfModel.TotalsAddUp | axis/telemetry.py:483-496 | the strategies' totals add up to the number of records that name a strategy |
| SelfModel.TotalsAreSelections | axis/telemetry.py:487-490 | a strategy's total is its number of occurrences in the stream of selections |
| SelfModel.SoleStrategyCounts | axis/telemetry.py:420-428 | a class that always used one strategy has its own outcomes' number and wins under that strategy |
| SelfModel.SelectionRatesSumToOne | axis/telemetry.py:494-502 | the unrounded selection rates of the strategies on record sum to one once a record names one |
| SelfModel.StrategyEffectiveness | axis/telemetry.py:479-502 | every strategy on record, and no other, has its share of the selections, its win rate and its count |
| SelfModel.BestStrategy | axis/telemetry.py:445-453 | the first strategy with at least three samples and maximal win rate; none iff no strategy has three samples |
| SelfModel.BestInClass | axis/telemetry.py:443-453 | the same, of the class's own records: best win rate among strategies with three samples in the class, the first selected among equals |
| SelfModel.Snapshot | axis/telemetry.py:402-502 | on every reachable observer: each class with a win rate has the best strategy of the buffered records, and their selection rates sum to one |
| Regression.RegressedInCounts | axis/eval_harness.py:231-250 | the verdict in counts; a lower candidate rate always leaves pooled variance |
| Regression.RegressionMonotone | axis/eval_harness.py:231-250 | baseline failures turned into passes and candidate passes turned into failures never clear a regression |
| Regression.ThreeInTen | axis/eval_harness.py:231-250 | three failures in ten after none is a regression at the level 0.05 and at no other |
| EvalHarness.GateMonotone | axis/eval_harness.py:109-158 | a change that passes still passes with a better and no dearer candidate and with a worse baseline, of the same cost or dearer than one that was not free |
| EvalHarness.SafeToPayMoreIff | axis/eval_harness.py:109-158 | for every baseline, level and tolerance: a passing change survives every dearer and worse baseline iff the target cases were not free or none of them failed |
| EvalHarness.FreeBaselineHidesCost | axis/eval_harness.py:137-143 | the smallest suite where it does not |
| EvalHarness.SelfNeverPasses | axis/eval_harness.py:120-148 | no results pass against themselves |
| EvalHarness.NeverBothPass | axis/eval_harness.py:120-148 | a change and its reversal never both pass |
| EvalHarness.GateIff | axis/eval_harness.py:109-158 | the whole gate in counts, for every suite: more target cases pass, no other type drops significantly, and the target cost rises within the tolerance unless it was not positive before |
| EvalHarness.DroppedIff | axis/eval_harness.py:130-138 | when one eval type counts as regressed, in counts |
| EvalHarness.TargetSuiteIff | axis/eval_harness.py:120-148 | on a suite of target cases: more passes and a cost within the tolerance, nothing else |
| EvalHarness.TraceGateMonotone | axis/eval_harness.py:109-207 | a passing change still passes when its traces meet every expectation they met before, at no more tokens and calibrated no worse |
| EvalHarness.NothingMetNeverPasses | axis/eval_harness.py:109-207 | a candidate that misses the expectation or the cost cap of every target case never passes |
| EvalHarness.MeetingAllPasses | axis/eval_harness.py:109-207 | on target cases without a cap, a candidate that meets every expectation at no more tokens, where the baseline misses one, always passes |
| EvalHarness.Harness.RunSuite | axis/eval_harness.py:109-167 | the whole report, with both runs' summaries and the rationale, is the judgement of the two runs' results; a run never passes against itself |
| EvalHarness.Harness.Aggregate | axis/eval_harness.py:209-229 | one summary for every eval type that has results, over exactly its results, mean verifier score included |
| EvalHarness.Harness.AddCase | axis/eval_harness.py:101-104 | an unknown eval type is refused and adds nothing |
| Episodic.EpisodicMemory.Add | axis/memory/episodic.py:66-76 | a duplicate id is refused; otherwise the store is the last max_episodes of old store plus new episode, and the index stays exact; a negative limit empties it and raises |
| Episodic.EpisodicMemory.Delete | axis/memory/episodic.py:85-90 | exactly the episode with that id goes, order is kept and the index stays exact |
| Episodic.EpisodicMemory.Reindex | axis/memory/episodic.py:92-93 | the rebuilt index is the inverse of the list |
| Episodic.EpisodicMemory.AnnotatePostmortem | axis/memory/episodic.py:78-83 | only the named episode's postmortem changes; an unknown id is an error |
| Episodic.EpisodicMemory.ClusterFailures | axis/memory/episodic.py:132-144 | every failing episode of the class is in the bucket of its error, in order, and in no other |
| Episodic.FailingIff | axis/memory/episodic.py:137-141 | exactly the failed episodes of the class asked for are clustered; no class or an empty one means any |
| Episodic.WithoutLength | axis/memory/episodic.py:85-90 | removing ids of the store shrinks it by exactly their number |
| Forgetting.ForgettingEngine.Run | axis/memory/forgetting.py:58-105 | each store is left with exactly what its step keeps, the report counts what went, and a run on settled stores changes nothing |
| Forgetting.ForgettingEngine.Evict | axis/memory/forgetting.py:94-103 | what remains is the old list without the least valuable excess |
| Forgetting.ForgettingEngine.Compress | axis/memory/forgetting.py:71-78 | stale episodes lose the embedding and all but 64 characters of the summary, others nothing; the count is that of the stale ones |
| Forgetting.ForgettingEngine.PruneSemantic | axis/memory/forgetting.py:80-84 | exactly the entities below the decay floor go, and are counted |
| Forgetting.ForgettingEngine.RetireWeak | axis/memory/forgetting.py:86-92 | exactly the used, weak and idle procedures not yet retired are retired, and are counted |
| Forgetting.StaleForGood | axis/memory/forgetting.py:71-72 | an episode is stale once its age exceeds the limit, and stays so |
| Forgetting.SurvivorCount | axis/memory/forgetting.py:94-103 | min(old size, episodic_max) episodes remain |
| Forgetting.EvictedIsWorthLess | axis/memory/forgetting.py:94-103 | no evicted episode has a higher value than a survivor |
| Forgetting.SomeBudgetSeparates | axis/memory/forgetting.py:94-103 | some budget evicts one episode and keeps another iff the first has the lower value, or the same and stands earlier |
| Forgetting.OldestGoFirstIff | axis/memory/forgetting.py:94-161 | for every policy and store: no budget ever evicts a newer episode of an outcome class before an older one iff no pair is ranked newer first |
| Forgetting.EvictedIsOlder | axis/memory/forgetting.py:147-161 | within an outcome class an evicted episode is newer than a survivor only if both are under a second old and it stands earlier |
| Forgetting.ChronologicalEviction | axis/memory/forgetting.py:94-103 | in a store in time order, whatever the budget, no evicted episode is newer than a survivor of its outcome class |
| Forgetting.NewerCanBeEvicted | axis/memory/forgetting.py:147-151 | an input where the newer of two failures is evicted |
| Forgetting.ValueMeansAge | axis/memory/forgetting.py:147-161 | within an outcome class, the order of values is the order of clamped ages, reversed or not by the sign of the recency weight |
| Forgetting.SuccessIsOutranked | axis/memory/forgetting.py:147-161 | a success is worth less than an episode of another outcome iff the recency gap outweighs six tenths of the utility weight |
| Forgetting.RecentSuccessOutlivesFailure | axis/memory/forgetting.py:94-161 | under the default weights, at every budget, no success of the last five days is evicted while a failure stays |
| Forgetting.OldSuccessGoesFirst | axis/memory/forgetting.py:94-161 | a success of six days and a failure of this second: some budget evicts the success and keeps the failure |
| Procedural.RateIsExact | axis/memory/procedural.py:70-84 | over any usage history, rate times sample size is the number of successes |
| Procedural.ProceduralMemory.RecordUsage | axis/memory/procedural.py:70-91 | one usage updates that procedure's mean, count and average cost and no other procedure |
| Procedural.AverageCostIsOff | axis/memory/procedural.py:85-91 | over any usage history, avg_cost times the number of usages is the total cost plus what was counted too much |
| Procedural.AverageCostIsMeanIff | axis/memory/procedural.py:85-91 | over any history of costs that are not negative it is the mean iff nothing is skipped, and never too low |
| Procedural.AverageCostIsMean | axis/memory/procedural.py:85-91 | it is the mean when every usage carries that kind of cost, whatever the sign |
| Procedural.SkippedUsageIsOff | axis/memory/procedural.py:85-91 | a history of two usages, the second without costs, where it is not the mean |
| Procedural.ProceduralMemory.BestForClass | axis/memory/procedural.py:115-131 | a validated procedure of the class, best by rate and then sample size, the first registered among equals; none iff there is none |
| Procedural.ProceduralMemory.PlannerIndex | axis/memory/manager.py:86-101 | a class has an entry iff it has a validated procedure, and the entry holds the name, steps and success rate of the first registered of best success rate |
| Procedural.ProceduralMemory.IndexAgreesWithBest | axis/memory/manager.py:86-101 | the index and best_for_class agree on the classes and on the success rate |
| Procedural.FederatedCoordinator.ReportUsage | axis/multi_instance.py:102-125 | a report is appended under its procedure, except without a class for an unknown procedure; the instance is registered either way |
| Procedural.FederatedCoordinator.CheckValidations | axis/multi_instance.py:127-143 | promotes exactly the candidates with enough distinct instances strictly above the threshold, each once, in the order first reported on; then nothing is promotable |
| Procedural.GoodInstanceIff | axis/multi_instance.py:134-139 | an instance counts iff a report of its own is strictly above the threshold |
| Procedural.ValidationAgreesIff | axis/multi_instance.py:134-143 | this and the documented rule agree, whatever number is asked for, iff all good instances are good on one common class |
| Procedural.MixedClassesValidate | axis/multi_instance.py:134-143 | three instances on three classes validate a candidate, against the documented rule |
| Adaptation.RunKeeps | axis/adaptation.py:294-353 | over every run: recorded rollbacks are the rolled-back deployments, a rolled-back deployment never changes again, the conservative deadline never moves back |
| Adaptation.EveryRunIsConsistent | axis/adaptation.py:294-353 | from the start, rollbacks are recorded in task order, each for a drop above its threshold, and the deadline is at most the configured number of tasks ahead |
| Adaptation.BreakerHolds | axis/adaptation.py:345-353 | after a check with enough rollbacks recorded, conservative mode lasts for the configured number of tasks whatever happens |
| Adaptation.BreakerReleases | axis/adaptation.py:345-353 | without a further check it ends exactly then |
| Adaptation.BreakerNeverForgets | axis/adaptation.py:337-349 | once enough rollbacks have ever been recorded, every later check renews conservative mode |
| Adaptation.BreakerAsDocumentedIff | axis/adaptation.py:337-349 | on every reachable ledger the coded and the documented breaker agree iff there are too few rollbacks or the limit-th latest lies within the window |
| Adaptation.OldRollbacksStillTrip | axis/adaptation.py:337-349 | a run where a check renews conservative mode with no rollback in the last 500 tasks |
| Adaptation.CheckConservative | axis/adaptation.py:337-353 | a check ends in conservative mode iff the breaker trips or the mode was on |
| Adaptation.CheckLeavesWithinThreshold | axis/adaptation.py:320-336 | after a check every active deployment has lost at most its threshold, every one just rolled back had lost more, and that loss is on its record |
| Adaptation.AdaptationManager.TaskIngested | axis/telemetry.py:213-216 | a record ingested by the observer is one task step of the manager's ledger |
| Adaptation.AdaptationManager.CheckAll | axis/adaptation.py:315-350 | one check step over the observer's win rates: task counts, drops and times are recorded; returns exactly the deployments that just rolled back |
| Adaptation.AdaptationManager.RegisterDeployment | axis/adaptation.py:294-313 | one deploy step at the class's current win rate, 0 when it has none |
| Adaptation.Deployment.CheckTrigger | axis/adaptation.py:320-336 | an active deployment rolls back iff its win rate dropped by more than its threshold |
| Diagnosis.Diagnostician.Diagnose | axis/adaptation.py:148-170 | a cause is reported iff there are enough failures and some cause covers at least half of them; it is the most frequent one, the first counted among equals, and no failing episode is lost; an error iff no failure is asked for and there is none |
| Diagnosis.TieGoesToFirst | axis/adaptation.py:156-161 | the first failing episode's cause is the one reported as soon as it has half of the failures |
| Diagnosis.MajorityIff | axis/adaptation.py:161-163 | at least half and more than half differ iff some cause has exactly half |
| Diagnosis.FiveFiveIsDiagnosed | axis/adaptation.py:161-163 | five failures of each of two causes are covered, with no majority |
| Diagnosis.Diagnostician.Sizes | axis/adaptation.py:151-152 | bucket sizes sum to the number of failing episodes |
| Diagnosis.Diagnostician.CountCauses | axis/adaptation.py:156-160 | each cause's count is the number of failing episodes with that cause, and the causes are in the order first counted, bucket by bucket |
| Diagnosis.CausesPartition | axis/adaptation.py:359-380 | the seven cause counts sum to the number of episodes |
| Diagnosis.ClassifyIff | axis/adaptation.py:359-380 | for each of the seven causes, exactly which words in the lowered text lead to it, earlier lists first |
| Diagnosis.EstimateIsHalf | axis/adaptation.py:264-273 | the promised improvement is half of the class's failure rate, at most one half |
| Diagnosis.NoPolicyWhileBroken | axis/adaptation.py:178-236 | while the breaker holds no run of events leads to a policy proposal |
| Diagnosis.ProposeFrom | axis/adaptation.py:172-276 | the proposal made from the manager's own state and the last N records in the history; none for a policy in conservative mode |
| Safety.SafetyMonitor.ReviewProposal | axis/safety.py:81-127 | accepts exactly the proposals that keep the invariants, with one audit entry naming the proposal; otherwise raises the first invariant broken and leaves the log unchanged |
| Safety.AcceptedKeepsFloors | axis/safety.py:103-113 | weights accepted and laid over the defaults leave every default objective its sealed share and no other below zero |
| Safety.NeverAccepted | axis/safety.py:83-122 | parameter updates, policy changes without a scope or a trigger, and sealed configuration never pass |
| Safety.SafetyMonitor.SetOverride | axis/safety.py:140-150 | the override channel can be set once; a second attempt is refused, and setting it to None is audited and leaves it open |
| Safety.SafetyMonitor.constructor | axis/safety.py:52-64 | each floor is the fixed fraction of its default weight, those of the built-in stack when none are given |
| Safety.ProposeAndReview | axis/adaptation.py:172-258 | every proposal the manager makes passes review, adding exactly the audit entry that names it; there is none only in conservative mode |
| WorldModel.ApplyAssignments | axis/world_model.py:69-86 | the assignment loop computes the fold of the assignments |
| WorldModel.ApplyConcat | axis/world_model.py:69-86 | applying a concatenation is applying one list after the other |
| WorldModel.LastWriterWins | axis/world_model.py:69-86 | the last assignment to write a key decides its value; an unwritten key keeps its value |
| WorldModel.AppliedIff | axis/world_model.py:49-86 | an assignment is satisfied by the state it was just applied to iff it starts with `!`, contains no `!=`, or was satisfied before |
| WorldModel.AppliedInListIff | axis/world_model.py:49-86 | the same inside a list: the last later write of the key it reads decides, and without one the condition is that before its turn |
| WorldModel.AppliedIsSatisfied | axis/world_model.py:49-86 | so one that starts with `!` or contains no `!=`, and whose key is not written later, is satisfied afterwards |
| WorldModel.DiffersIsNotEnforced | axis/world_model.py:61-83 | an assignment with != that is not satisfied afterwards |
| WorldModel.TransitionsChain | axis/world_model.py:145-156 | transitions follow the plan, chain state to state, and stop at the first failure |
| WorldModel.ApplyEffects | axis/world_model.py:69-86 | after a list of assignments each one that `satisfies` can read back holds unless a later one writes its key, and a key nobody writes keeps its value |
| WorldModel.ActionMeans | axis/world_model.py:114-143 | an action succeeds iff its preconditions hold and success is asked for; then its success effects hold afterwards, its failure effects when failure was asked for, and without its preconditions nothing changes |
| WorldModel.TransitionsMean | axis/world_model.py:114-156 | along a simulated sequence every action is registered and succeeds iff its preconditions hold where the one before ended, and then its success effects hold where it ends |
| WorldModel.SimulateConcat | axis/world_model.py:145-156 | a completed first part is followed by the second from the state it reaches; otherwise the first part is all there is |
| WorldModel.FeasibleConcat | axis/world_model.py:158-164 | feasibility of two parts in sequence, unknown actions included |
| WorldModel.FeasibleSplitsWhenRegistered | axis/world_model.py:158-164 | for registered actions nothing raises, and the whole is feasible iff both parts are |
| WorldModel.Model.SimulateSequence | axis/world_model.py:145-156 | the loop computes the simulated sequence |
| WorldModel.Model.PlanIsFeasible | axis/world_model.py:158-164 | feasible iff every action was simulated and succeeded |

## Left out

- Inference backends, the JSONL sink, the JSON form of records, the clock and uuid generation: outside the model, replaced by oracles, parameters and an id supply.
- Rounding of metrics and of floating-point arithmetic: claims are about the exact real values.
- `embed`, `cosine` and the `similar` queries: hashing and square roots; an abstract score gives only generic facts about ranking.
- Signal computation in axis/verifier.py: the verifier is an oracle.
- axis/policy_router.py, axis/reference_frame.py, axis/objectives.py and `Scheduler.gates`: threshold branches and short sums; a routed strategy enters `RunTask` as a parameter.
- `Planner._choose_strategy`: reads a strategy name off the self-model; the strategy is a parameter of `MakePlan`.
- A template step without an action, which raises a KeyError: templates here always carry one.
- Timestamps and entropy in traces, and the routing decision copied into them.
- Planner.MakePlan: takes the ids it needs up front instead of drawing them one at a time.
- SelfModel.Snapshot: leaves out per-class calibration error, known failure modes and the resource profile, the same window and counting arguments again.
- Procedure versions, `update_steps` and `applicable_when`: plain field updates.
- `distill_similar_episodes` and `SemanticMemory.upsert` and `resolve_contradiction`: not part of this model; the semantic store is only what forgetting needs.
- Adaptation.AdaptationManager.CheckAll: keeps the drop behind a rollback as a number instead of the formatted reason.
- Adaptation.AdaptationManager.RegisterDeployment: leaves out the callback that applies the payload; a rollback marks the deployment and undoes no payload.
- Text operations are ASCII: `lower` and `strip` know no other alphabet or whitespace.
- World-model costs, latencies, side effects and `counterfactual_sequences`: sums over the same simulations.
