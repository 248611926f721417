/**
  The eval gate (axis/eval_harness.py): a suite is run under a baseline and a candidate, and the
  change passes when the target improves and nothing else regresses.
 */
module EvalHarness {
  import opened Wrappers
  import opened PlanTypes
  import opened Reals
  import opened Statistics
  import opened Regression

  datatype EvalType =
    | TargetTask | AdjacentTask | Adversarial | LongHorizon | Calibration | ResourceCost | StyleRegression
    | Unknown(name: string)

  const EVAL_TYPES: seq<EvalType> :=
    [TargetTask, AdjacentTask, Adversarial, LongHorizon, Calibration, ResourceCost, StyleRegression]

  datatype EvalCase = EvalCase(
    caseId: string,
    evalType: EvalType,
    expectedOutcome: Option<TaskOutcome>,
    maxCostTokens: Option<int>,
    calibrationTolerance: Option<real>)

  /** What the harness reads of an execution trace. */
  datatype Observed = Observed(outcome: TaskOutcome, totalTokens: int, confidence: Option<real>, score: Option<real>)

  /** A runtime under evaluation: its trace for the `k`th case it is given. */
  type RunFn = (nat, EvalCase) -> Observed

  datatype CaseResult = CaseResult(evalType: EvalType, tokens: int, passed: bool, score: Option<real>)

  // ---------------------------------------------------------------- one case

  function Distance(x: real, y: real): real {
    if x >= y then x - y else y - x
  }

  function CasePassed(c: EvalCase, o: Observed): bool {
    if c.expectedOutcome.Some? && o.outcome != c.expectedOutcome.value then false
    else if c.maxCostTokens.Some? && o.totalTokens > c.maxCostTokens.value then false
    else if c.evalType == Calibration then
      o.confidence.Some? &&
      Distance(o.confidence.value, if o.outcome == Success then 1.0 else 0.0) <= c.calibrationTolerance.GetOr(0.25)
    else true
  }

  function ResultOf(c: EvalCase, o: Observed): CaseResult {
    CaseResult(c.evalType, o.totalTokens, CasePassed(c, o), o.score)
  }

  function Results(cases: seq<EvalCase>, run: RunFn): (r: seq<CaseResult>)
    ensures |r| == |cases|
    ensures forall i :: 0 <= i < |cases| ==> r[i] == ResultOf(cases[i], run(i, cases[i]))
  {
    seq(|cases|, i requires 0 <= i < |cases| => ResultOf(cases[i], run(i, cases[i])))
  }

  // ---------------------------------------------------------------- one eval type

  function OfType(results: seq<CaseResult>, t: EvalType): seq<CaseResult> {
    if results == [] then []
    else
      var rest := OfType(results[..|results| - 1], t);
      if results[|results| - 1].evalType == t then rest + [results[|results| - 1]] else rest
  }

  function Passes(group: seq<CaseResult>): (s: seq<real>)
    ensures |s| == |group| && Proportions(s)
    ensures forall i :: 0 <= i < |group| ==> s[i] == if group[i].passed then 1.0 else 0.0
  {
    seq(|group|, i requires 0 <= i < |group| => if group[i].passed then 1.0 else 0.0)
  }

  function Tokens(group: seq<CaseResult>): (s: seq<real>)
    ensures |s| == |group| && forall i :: 0 <= i < |group| ==> s[i] == group[i].tokens as real
  {
    seq(|group|, i requires 0 <= i < |group| => group[i].tokens as real)
  }

  /** The verifier scores present in a group. */
  function ScoresOf(group: seq<CaseResult>): (s: seq<real>)
    ensures s == [] <==> forall i :: 0 <= i < |group| ==> group[i].score.None?
  {
    if group == [] then []
    else
      var rest := ScoresOf(group[..|group| - 1]);
      if group[|group| - 1].score.Some? then rest + [group[|group| - 1].score.value] else rest
  }

  datatype TypeReport = TypeReport(n: nat, passRate: real, meanTokens: real, meanScore: Option<real>)

  function Summary(group: seq<CaseResult>): TypeReport
    requires group != []
  {
    var scores := ScoresOf(group);
    TypeReport(|group|, Mean(Passes(group)), Mean(Tokens(group)), if scores == [] then None else Some(Mean(scores)))
  }

  type Summaries = map<EvalType, TypeReport>

  function TypesIn(results: seq<CaseResult>): set<EvalType> {
    set r | r in results :: r.evalType
  }

  lemma {:induction false} TypesHaveResults(results: seq<CaseResult>, t: EvalType)
    ensures t in TypesIn(results) <==> OfType(results, t) != []
  {
    if results != [] {
      var n := |results| - 1;
      assert results == results[..n] + [results[n]];
      assert TypesIn(results) == TypesIn(results[..n]) + {results[n].evalType};
      TypesHaveResults(results[..n], t);
    }
  }

  /** `_aggregate` as a function: one summary for each eval type that has results. */
  function SummariesOf(results: seq<CaseResult>): Summaries {
    map t | t in TypesIn(results) && OfType(results, t) != [] :: Summary(OfType(results, t))
  }

  lemma SummaryAt(results: seq<CaseResult>, t: EvalType)
    ensures t in SummariesOf(results) <==> OfType(results, t) != []
    ensures t in SummariesOf(results) ==> SummariesOf(results)[t] == Summary(OfType(results, t))
  {
    hide OfType, Summary;
    TypesHaveResults(results, t);
  }

  // ---------------------------------------------------------------- the verdict

  datatype Report = Report(
    baseline: Summaries,
    candidate: Summaries,
    targetImproved: bool,
    regressions: seq<EvalType>,
    costRegression: bool,
    passed: bool,
    rationale: string)

  predicate TargetImproved(b: seq<CaseResult>, c: seq<CaseResult>) {
    b != [] && c != [] && Mean(Passes(c)) > Mean(Passes(b))
  }

  predicate CostRegressed(b: seq<CaseResult>, c: seq<CaseResult>, pct: real) {
    b != [] && c != [] && Mean(Tokens(b)) > 0.0 &&
    (Mean(Tokens(c)) - Mean(Tokens(b))) / Mean(Tokens(b)) > pct
  }

  predicate TypeRegressed(b: seq<CaseResult>, c: seq<CaseResult>, t: EvalType, critical: real) {
    t != TargetTask && Regressed(Passes(OfType(b, t)), Passes(OfType(c, t)), critical)
  }

  function Regressions(b: seq<CaseResult>, c: seq<CaseResult>, critical: real, n: nat := |EVAL_TYPES|): (r: seq<EvalType>)
    requires n <= |EVAL_TYPES|
    ensures r == [] <==> forall i :: 0 <= i < n ==> !TypeRegressed(b, c, EVAL_TYPES[i], critical)
  {
    if n == 0 then []
    else
      var rest := Regressions(b, c, critical, n - 1);
      if TypeRegressed(b, c, EVAL_TYPES[n - 1], critical) then rest + [EVAL_TYPES[n - 1]] else rest
  }

  function Name(t: EvalType): string {
    match t
    case TargetTask => "target_task"
    case AdjacentTask => "adjacent_task"
    case Adversarial => "adversarial"
    case LongHorizon => "long_horizon"
    case Calibration => "calibration"
    case ResourceCost => "resource_cost"
    case StyleRegression => "style_regression"
    case Unknown(name) => name
  }

  /** `",".join(...)` */
  function Joined(types: seq<EvalType>): string {
    if types == [] then ""
    else if |types| == 1 then Name(types[0])
    else Joined(types[..|types| - 1]) + "," + Name(types[|types| - 1])
  }

  function Rationale(improved: bool, regressions: seq<EvalType>, cost: bool): string {
    "target_improved=" + (if improved then "True" else "False")
    + (if regressions == [] then "" else "; regressions=" + Joined(regressions))
    + (if cost then "; cost_regression=true" else "")
  }

  /** `run_suite`'s report from the two runs' results. */
  function Judge(b: seq<CaseResult>, c: seq<CaseResult>, alpha: real, pct: real): Report {
    var improved := TargetImproved(OfType(b, TargetTask), OfType(c, TargetTask));
    var regressions := Regressions(b, c, Critical(alpha));
    var cost := CostRegressed(OfType(b, TargetTask), OfType(c, TargetTask), pct);
    Report(SummariesOf(b), SummariesOf(c), improved, regressions, cost,
           improved && regressions == [] && !cost, Rationale(improved, regressions, cost))
  }

  // ---------------------------------------------------------------- what the gate guarantees

  /** No run passes against itself: the target cannot improve on itself. */
  lemma SelfNeverPasses(r: seq<CaseResult>, alpha: real, pct: real)
    ensures !Judge(r, r, alpha, pct).passed
  {
  }

  /** A change and its reversal never both pass. */
  lemma NeverBothPass(b: seq<CaseResult>, c: seq<CaseResult>, alpha: real, pct: real)
    ensures !(Judge(b, c, alpha, pct).passed && Judge(c, b, alpha, pct).passed)
  {
  }

  /** `s` does no better than `r`, case by case, on the same cases. */
  ghost predicate NoBetter(s: seq<CaseResult>, r: seq<CaseResult>) {
    && |s| == |r|
    && forall i :: 0 <= i < |s| ==> s[i].evalType == r[i].evalType && (s[i].passed ==> r[i].passed)
  }

  ghost predicate NoDearer(s: seq<CaseResult>, r: seq<CaseResult>) {
    && |s| == |r|
    && forall i :: 0 <= i < |s| ==> s[i].tokens <= r[i].tokens
  }

  lemma {:induction false} GroupsAlign(s: seq<CaseResult>, r: seq<CaseResult>, t: EvalType)
    requires NoBetter(s, r)
    ensures NoBetter(OfType(s, t), OfType(r, t))
    ensures NoDearer(s, r) ==> NoDearer(OfType(s, t), OfType(r, t))
    ensures NoDearer(r, s) ==> NoDearer(OfType(r, t), OfType(s, t))
  {
    if s != [] { GroupsAlign(s[..|s| - 1], r[..|r| - 1], t); }
  }

  lemma MeanMonotone(s: seq<real>, t: seq<real>)
    requires s != [] && AtMost(s, t)
    ensures Mean(s) <= Mean(t)
  {
    SumMonotone(s, t);
    DivCompare(Sum(s), Sum(t), |s| as real);
  }

  lemma TypeRegressedMonotone(
    b: seq<CaseResult>, c: seq<CaseResult>, b': seq<CaseResult>, c': seq<CaseResult>, t: EvalType, critical: real)
    requires NoBetter(b', b) && NoBetter(c, c') && critical > 0.0
    requires TypeRegressed(b', c', t, critical)
    ensures TypeRegressed(b, c, t, critical)
  {
    hide Regressed;
    GroupsAlign(b', b, t);
    GroupsAlign(c, c', t);
    assert Passes(OfType(b', t)) != [] && Passes(OfType(c', t)) != [] by { RegressedNonEmpty(b', c', t, critical); }
    RegressionMonotone(Passes(OfType(b', t)), Passes(OfType(c', t)),
                       Passes(OfType(b, t)), Passes(OfType(c, t)), critical);
  }

  lemma RegressedNonEmpty(b: seq<CaseResult>, c: seq<CaseResult>, t: EvalType, critical: real)
    requires TypeRegressed(b, c, t, critical)
    ensures OfType(b, t) != [] && OfType(c, t) != []
  {
  }

  lemma ImprovementMonotone(b: seq<CaseResult>, c: seq<CaseResult>, b': seq<CaseResult>, c': seq<CaseResult>)
    requires NoBetter(b', b) && NoBetter(c, c')
    requires TargetImproved(b, c)
    ensures TargetImproved(b', c')
  {
    MeanMonotone(Passes(b'), Passes(b));
    MeanMonotone(Passes(c), Passes(c'));
  }

  ghost predicate PaysForTarget(b: seq<CaseResult>) {
    OfType(b, TargetTask) != [] && Mean(Tokens(OfType(b, TargetTask))) > 0.0
  }

  ghost predicate NonNegativeTokens(s: seq<CaseResult>) {
    forall i :: 0 <= i < |s| ==> s[i].tokens >= 0
  }

  lemma MeanNonNegative(s: seq<CaseResult>)
    requires s != [] && NonNegativeTokens(s)
    ensures Mean(Tokens(s)) >= 0.0
  {
    SumNonNegative(Tokens(s));
    DivCompare(0.0, Sum(Tokens(s)), |s| as real);
  }

  lemma {:induction false} SumNonNegative(s: seq<real>)
    requires forall i :: 0 <= i < |s| ==> s[i] >= 0.0
    ensures Sum(s) >= 0.0
  {
    if s != [] { SumNonNegative(s[..|s| - 1]); }
  }

  /** A cost increase relative to a dearer baseline and a cheaper candidate is one to begin with. */
  lemma RelativeIncrease(b: real, c: real, b': real, c': real, pct: real)
    requires 0.0 < b <= b' && 0.0 <= c' <= c && (c' - b') / b' > pct
    ensures (c - b) / b > pct
  {
    var x, y := (c - b) / b, (c' - b') / b';
    DivMul(c - b, b);
    DivMul(c' - b', b');
    // (x + 1) * b == c and (y + 1) * b' == c'
    if x < y {
      if y + 1.0 <= 0.0 {
        MulStrict(x + 1.0, 0.0, b);
      } else {
        MulStrict(x + 1.0, y + 1.0, b);
        MulMonotone(b, b', y + 1.0);
      }
    }
  }

  lemma CostMonotone(b: seq<CaseResult>, c: seq<CaseResult>, b': seq<CaseResult>, c': seq<CaseResult>, pct: real)
    requires |b| == |b'| && |c| == |c'| && NoDearer(b, b') && NoDearer(c', c)
    requires NoDearer(b', b) || (b != [] && Mean(Tokens(b)) > 0.0 && NonNegativeTokens(c'))
    requires CostRegressed(b', c', pct)
    ensures CostRegressed(b, c, pct)
  {
    hide Mean;
    MeanMonotone(Tokens(c'), Tokens(c));
    MeanMonotone(Tokens(b), Tokens(b'));
    if NoDearer(b', b) {
      assert Tokens(b) == Tokens(b');
      DivCompare(Mean(Tokens(c')) - Mean(Tokens(b)), Mean(Tokens(c)) - Mean(Tokens(b)), Mean(Tokens(b)));
    } else {
      MeanNonNegative(c');
      RelativeIncrease(Mean(Tokens(b)), Mean(Tokens(c)), Mean(Tokens(b')), Mean(Tokens(c')), pct);
    }
  }

  /**
    The gate is monotone. If a change passes, it still passes when its candidate also passes more
    cases and spends no more tokens anywhere, and when its baseline passes fewer and spends no
    less: the same, or more than a baseline whose target cases were not free.
   */
  lemma GateMonotone(
    b: seq<CaseResult>, c: seq<CaseResult>, b': seq<CaseResult>, c': seq<CaseResult>, alpha: real, pct: real)
    requires NoBetter(b', b) && NoBetter(c, c')
    requires NoDearer(c', c) && NoDearer(b, b')
    requires NoDearer(b', b) || (PaysForTarget(b) && NonNegativeTokens(OfType(c', TargetTask)))
    requires Judge(b, c, alpha, pct).passed
    ensures Judge(b', c', alpha, pct).passed
  {
    hide TargetImproved, CostRegressed, TypeRegressed, OfType, SummariesOf, Rationale, Mean, Tokens;
    GroupsAlign(b', b, TargetTask);
    GroupsAlign(c, c', TargetTask);
    ImprovementMonotone(OfType(b, TargetTask), OfType(c, TargetTask), OfType(b', TargetTask), OfType(c', TargetTask));
    if CostRegressed(OfType(b', TargetTask), OfType(c', TargetTask), pct) {
      CostMonotone(OfType(b, TargetTask), OfType(c, TargetTask), OfType(b', TargetTask), OfType(c', TargetTask), pct);
    }
    forall i | 0 <= i < |EVAL_TYPES| ensures !TypeRegressed(b', c', EVAL_TYPES[i], Critical(alpha)) {
      if TypeRegressed(b', c', EVAL_TYPES[i], Critical(alpha)) {
        TypeRegressedMonotone(b, c, b', c', EVAL_TYPES[i], Critical(alpha));
      }
    }
  }

  // ---------------------------------------------------------------- the cost of the baseline

  /** Some target case fails. */
  ghost predicate TargetFails(b: seq<CaseResult>) {
    exists i :: 0 <= i < |b| && b[i].evalType == TargetTask && !b[i].passed
  }

  /** No change that passes against `b` fails against a baseline that does no better and spends no less. */
  ghost predicate SafeToPayMore(b: seq<CaseResult>, alpha: real, pct: real) {
    forall c, b' :: NoBetter(b', b) && NoDearer(b, b') && NonNegativeTokens(OfType(c, TargetTask)) ==>
      Judge(b, c, alpha, pct).passed ==> Judge(b', c, alpha, pct).passed
  }

  /** Every target case passed, at `p` tokens. */
  function Solved(b: seq<CaseResult>, p: int): (c: seq<CaseResult>)
    ensures |c| == |b|
    ensures forall i :: 0 <= i < |b| ==>
      c[i] == if b[i].evalType == TargetTask then b[i].(passed := true, tokens := p) else b[i]
  {
    seq(|b|, i requires 0 <= i < |b| =>
      if b[i].evalType == TargetTask then b[i].(passed := true, tokens := p) else b[i])
  }

  /** So many more tokens on every target case. */
  function Charged(b: seq<CaseResult>, more: nat): (c: seq<CaseResult>)
    ensures |c| == |b|
    ensures forall i :: 0 <= i < |b| ==>
      c[i] == if b[i].evalType == TargetTask then b[i].(tokens := b[i].tokens + more) else b[i]
  {
    seq(|b|, i requires 0 <= i < |b| =>
      if b[i].evalType == TargetTask then b[i].(tokens := b[i].tokens + more) else b[i])
  }

  /** Both constructions act on the target's group alone, case by case. */
  lemma {:induction false} GroupsOfSolved(b: seq<CaseResult>, p: int, t: EvalType)
    ensures |OfType(Solved(b, p), t)| == |OfType(b, t)|
    ensures t != TargetTask ==> OfType(Solved(b, p), t) == OfType(b, t)
    ensures t == TargetTask ==> forall i :: 0 <= i < |OfType(b, t)| ==>
      OfType(Solved(b, p), t)[i].passed && OfType(Solved(b, p), t)[i].tokens == p
  {
    if b != [] {
      var n := |b| - 1;
      GroupsOfSolved(b[..n], p, t);
      assert Solved(b, p)[..n] == Solved(b[..n], p);
    }
  }

  lemma {:induction false} GroupsOfCharged(b: seq<CaseResult>, more: nat)
    ensures var g, g' := OfType(b, TargetTask), OfType(Charged(b, more), TargetTask);
      |g'| == |g| && forall i :: 0 <= i < |g| ==> g'[i].tokens == g[i].tokens + more
  {
    if b != [] {
      var n := |b| - 1;
      GroupsOfCharged(b[..n], more);
      assert Charged(b, more)[..n] == Charged(b[..n], more);
    }
  }

  /** The target's pass rate is below one exactly when a target case fails. */
  lemma {:induction false} PassRateIff(b: seq<CaseResult>)
    ensures var s := Passes(OfType(b, TargetTask));
      if TargetFails(b) then s != [] && Sum(s) < |s| as real else Sum(s) == |s| as real
  {
    if b != [] {
      var n := |b| - 1;
      PassRateIff(b[..n]);
      TargetFailsPrefix(b);
      var group, front := OfType(b, TargetTask), OfType(b[..n], TargetTask);
      SumBounds(Passes(front), 0.0, 1.0);
      if b[n].evalType == TargetTask { assert Passes(group)[..|front|] == Passes(front); }
    }
  }

  lemma TargetFailsPrefix(b: seq<CaseResult>)
    requires b != []
    ensures var n := |b| - 1;
      TargetFails(b) <==> TargetFails(b[..n]) || (b[n].evalType == TargetTask && !b[n].passed)
  {
    var n := |b| - 1;
    forall i | 0 <= i < n ensures b[..n][i] == b[i] {}
    if TargetFails(b[..n]) {
      var i :| 0 <= i < n && b[..n][i].evalType == TargetTask && !b[..n][i].passed;
      assert b[i].evalType == TargetTask && !b[i].passed;
    }
  }

  lemma BelowOne(s: seq<real>)
    requires s != []
    ensures Mean(s) < 1.0 <==> Sum(s) < |s| as real
    ensures Mean(s) == 1.0 <==> Sum(s) == |s| as real
  {
    var n := |s| as real;
    DivCompare(Sum(s), n, n);
    DivCompare(n, Sum(s), n);
    DivSelf(n);
  }

  lemma ConstantMean(s: seq<real>, x: real)
    requires s != [] && forall i :: 0 <= i < |s| ==> s[i] == x
    ensures Mean(s) == x
  {
    SumBounds(s, x, x);
    DivUnique(Sum(s), |s| as real, x);
  }

  /** Without a failing target case nothing can improve on `b`. */
  lemma NothingToImprove(b: seq<CaseResult>, c: seq<CaseResult>, alpha: real, pct: real)
    requires !TargetFails(b)
    ensures !Judge(b, c, alpha, pct).passed
  {
    hide Mean, Sum, SummariesOf, Rationale, Regressions, CostRegressed, OfType, Passes;
    PassRateIff(b);
    var s, t := OfType(b, TargetTask), OfType(c, TargetTask);
    if s != [] && t != [] {
      BelowOne(Passes(s));
      AtMostOne(Passes(t));
    }
  }

  lemma AtMostOne(s: seq<real>)
    requires s != [] && Proportions(s)
    ensures Mean(s) <= 1.0
  {
    SumBounds(s, 0.0, 1.0);
    DivCompare(Sum(s), |s| as real, |s| as real);
    DivSelf(|s| as real);
  }

  function TargetCost(b: seq<CaseResult>): real
    requires OfType(b, TargetTask) != []
  {
    Mean(Tokens(OfType(b, TargetTask)))
  }

  lemma FailureIsACase(b: seq<CaseResult>)
    requires TargetFails(b)
    ensures OfType(b, TargetTask) != []
  {
    PassRateIff(b);
  }

  /** Against a free baseline the solved candidate passes, whatever it spends; once the baseline pays it can be too dear. */
  lemma FreeBaselineFails(b: seq<CaseResult>, alpha: real, pct: real, p: int, more: nat)
    requires TargetFails(b) && OfType(b, TargetTask) != [] && TargetCost(b) <= 0.0
    requires var m := TargetCost(b) + more as real; m > 0.0 && p as real - m > pct * m
    ensures Judge(b, Solved(b, p), alpha, pct).passed && !Judge(Charged(b, more), Solved(b, p), alpha, pct).passed
  {
    hide Mean, Sum, OfType, Tokens, Passes, SummariesOf, Rationale, Regressed;
    var c, b' := Solved(b, p), Charged(b, more);
    var g, g', h := OfType(b, TargetTask), OfType(b', TargetTask), OfType(c, TargetTask);
    PassRateIff(b);
    GroupsOfSolved(b, p, TargetTask);
    GroupsOfCharged(b, more);
    BelowOne(Passes(g));
    ConstantMean(Passes(h), 1.0);
    ConstantMean(Tokens(h), p as real);
    assert Tokens(g') == Shifted(Tokens(g), more as real);
    MomentsShifted(Tokens(g), more as real);
    forall t ensures !TypeRegressed(b, c, t, Critical(alpha)) {
      if t != TargetTask { GroupsOfSolved(b, p, t); SameIsNoRegression(Passes(OfType(b, t)), Critical(alpha)); }
    }
    Exceeding(p as real, TargetCost(b) + more as real, pct);
  }

  lemma Exceeding(p: real, m: real, pct: real)
    requires m > 0.0 && p - m > pct * m
    ensures (p - m) / m > pct
  {
    DivCompare(pct * m, p - m, m);
    DivUnique(pct * m, m, pct);
  }

  lemma WithinTolerance(m: real, t: real, pct: real)
    requires 1.0 <= m < 2.0 && 0.0 <= t && pct <= t
    ensures pct * m + m <= 2.0 * (1.0 + t)
  {
    var x, y := pct * m, t * m;
    assert x <= y by { MulMonotone(pct, t, m); }
    assert y <= t + t by { MulMonotone(m, 2.0, t); }
  }

  /** A candidate's cost and a charge that do it, whatever the tolerance. */
  lemma DearEnough(cost: real, pct: real) returns (p: nat, more: nat)
    requires cost <= 0.0
    ensures var m := cost + more as real; m > 0.0 && p as real - m > pct * m
  {
    var tolerance := if pct < 0.0 then 0.0 else pct;
    more := 1 - cost.Floor;
    p := 2 * (tolerance.Floor + 2);
    var m := cost + more as real;
    assert 1.0 <= m < 2.0;
    WithinTolerance(m, tolerance, pct);
    assert (tolerance.Floor + 2) as real > 1.0 + tolerance;
  }

  lemma SameIsNoRegression(s: seq<real>, critical: real)
    ensures !Regressed(s, s, critical)
  {
  }

  lemma NotPaying(b: seq<CaseResult>)
    requires !PaysForTarget(b) && OfType(b, TargetTask) != []
    ensures TargetCost(b) <= 0.0
  {
  }

  /**
    Exactly when the cost of a baseline does not matter: a passing change survives every dearer and
    worse baseline just when the target cases were not free, or none of them was failing and no
    change could pass.
   */
  lemma SafeToPayMoreIff(b: seq<CaseResult>, alpha: real, pct: real)
    ensures SafeToPayMore(b, alpha, pct) <==> PaysForTarget(b) || !TargetFails(b)
  {
    hide Judge, PaysForTarget, TargetFails;
    if PaysForTarget(b) || !TargetFails(b) {
      forall c, b' | NoBetter(b', b) && NoDearer(b, b') && NonNegativeTokens(OfType(c, TargetTask))
                     && Judge(b, c, alpha, pct).passed
        ensures Judge(b', c, alpha, pct).passed
      {
        if PaysForTarget(b) { GateMonotone(b, c, b', c, alpha, pct); } else { NothingToImprove(b, c, alpha, pct); }
      }
    } else {
      FailureIsACase(b);
      NotPaying(b);
      var p, more := DearEnough(TargetCost(b), pct);
      FreeBaselineFails(b, alpha, pct, p, more);
      GroupsOfSolved(b, p, TargetTask);
      assert NoBetter(Charged(b, more), b) && NoDearer(b, Charged(b, more));
    }
  }

  /** In one case: a change from failing for nothing to passing for 100 tokens, against nothing and against one token. */
  lemma FreeBaselineHidesCost(b: CaseResult, b': CaseResult, c: CaseResult)
    requires b == CaseResult(TargetTask, 0, false, None) && b' == b.(tokens := 1)
    requires c == CaseResult(TargetTask, 100, true, None)
    ensures Judge([b], [c], 0.05, 0.15).passed && !Judge([b'], [c], 0.05, 0.15).passed
  {
    hide Judge, Mean;
    assert [b][..0] == [];
    assert OfType([b], TargetTask) == [b];
    ConstantMean(Tokens([b]), 0.0);
    assert TargetFails([b]) by { assert [b][0].evalType == TargetTask && ![b][0].passed; }
    FreeBaselineFails([b], 0.05, 0.15, 100, 1);
    assert Solved([b], 100) == [c] && Charged([b], 1) == [b'];
  }

  // ---------------------------------------------------------------- from traces to verdicts

  predicate Meets(c: EvalCase, o: Observed) {
    c.expectedOutcome.Some? ==> o.outcome == c.expectedOutcome.value
  }

  predicate Affordable(c: EvalCase, o: Observed) {
    c.maxCostTokens.Some? ==> o.totalTokens <= c.maxCostTokens.value
  }

  /** How far the predicted confidence is from what happened. */
  function Miscalibration(o: Observed): Option<real> {
    match o.confidence
    case None => None
    case Some(p) => Some(Distance(p, if o.outcome == Success then 1.0 else 0.0))
  }

  predicate Calibrated(c: EvalCase, o: Observed) {
    c.evalType == Calibration ==>
      Miscalibration(o).Some? && Miscalibration(o).value <= c.calibrationTolerance.GetOr(0.25)
  }

  /** A case passes exactly when its trace has the outcome expected, stays under the cost cap and, on calibration cases, is calibrated. */
  lemma CasePassedIff(c: EvalCase, o: Observed)
    ensures CasePassed(c, o) <==> Meets(c, o) && Affordable(c, o) && Calibrated(c, o)
  {
  }

  /** `o'` is at least as good on the case as `o`: expectation, cost and calibration. */
  ghost predicate NoWorseOn(c: EvalCase, o: Observed, o': Observed) {
    && (Meets(c, o) ==> Meets(c, o'))
    && o'.totalTokens <= o.totalTokens
    && (Miscalibration(o).Some? ==> Miscalibration(o').Some? && Miscalibration(o').value <= Miscalibration(o).value)
  }

  /**
    The gate is monotone in the traces themselves: if a change passes, so does one whose candidate,
    case by case, meets every expectation the old one met, at no more tokens and no worse calibrated.
   */
  lemma TraceGateMonotone(cases: seq<EvalCase>, b: RunFn, c: RunFn, c': RunFn, alpha: real, pct: real)
    requires forall i :: 0 <= i < |cases| ==> NoWorseOn(cases[i], c(i, cases[i]), c'(i, cases[i]))
    requires Judge(Results(cases, b), Results(cases, c), alpha, pct).passed
    ensures Judge(Results(cases, b), Results(cases, c'), alpha, pct).passed
  {
    hide Judge, CasePassed;
    forall i | 0 <= i < |cases| ensures CasePassed(cases[i], c(i, cases[i])) ==> CasePassed(cases[i], c'(i, cases[i])) {
      assert NoWorseOn(cases[i], c(i, cases[i]), c'(i, cases[i]));
      CasePassedIff(cases[i], c(i, cases[i]));
      CasePassedIff(cases[i], c'(i, cases[i]));
    }
    GateMonotone(Results(cases, b), Results(cases, c), Results(cases, b), Results(cases, c'), alpha, pct);
  }

  lemma {:induction false} NoTargetPasses(r: seq<CaseResult>)
    requires forall i :: 0 <= i < |r| && r[i].evalType == TargetTask ==> !r[i].passed
    ensures forall i :: 0 <= i < |OfType(r, TargetTask)| ==> !OfType(r, TargetTask)[i].passed
  {
    if r != [] { NoTargetPasses(r[..|r| - 1]); }
  }

  lemma RateNonNegative(s: seq<real>)
    requires s != [] && Proportions(s)
    ensures Mean(s) >= 0.0
  {
    SumBounds(s, 0.0, 1.0);
    DivCompare(0.0, Sum(s), |s| as real);
  }

  /** A candidate that meets the expectation of no target case, or overspends on all of them, is never passed. */
  lemma NothingMetNeverPasses(cases: seq<EvalCase>, b: RunFn, c: RunFn, alpha: real, pct: real)
    requires forall i :: 0 <= i < |cases| && cases[i].evalType == TargetTask ==>
      !Meets(cases[i], c(i, cases[i])) || !Affordable(cases[i], c(i, cases[i]))
    ensures !Judge(Results(cases, b), Results(cases, c), alpha, pct).passed
  {
    hide Mean, SummariesOf, Rationale, Regressions, CostRegressed, OfType, CasePassed, Passes;
    var rb, rc := Results(cases, b), Results(cases, c);
    forall i | 0 <= i < |cases| && cases[i].evalType == TargetTask ensures !rc[i].passed {
      CasePassedIff(cases[i], c(i, cases[i]));
    }
    NoTargetPasses(rc);
    var s, t := OfType(rb, TargetTask), OfType(rc, TargetTask);
    if s != [] && t != [] {
      ConstantMean(Passes(t), 0.0);
      RateNonNegative(Passes(s));
    }
  }

  ghost predicate OnlyTargets(r: seq<CaseResult>) {
    forall i :: 0 <= i < |r| ==> r[i].evalType == TargetTask
  }

  lemma {:induction false} OnlyTargetGroups(r: seq<CaseResult>)
    requires OnlyTargets(r)
    ensures OfType(r, TargetTask) == r && forall t :: t != TargetTask ==> OfType(r, t) == []
  {
    if r != [] {
      OnlyTargetGroups(r[..|r| - 1]);
      assert r == r[..|r| - 1] + [r[|r| - 1]];
    }
  }

  /** On a suite of target cases the gate asks for exactly two things: more passes, and a cost within the tolerance. */
  lemma TargetSuiteIff(b: seq<CaseResult>, c: seq<CaseResult>, alpha: real, pct: real)
    requires |b| == |c| && b != [] && OnlyTargets(b) && OnlyTargets(c)
    ensures Judge(b, c, alpha, pct).passed <==>
      && Sum(Passes(b)) < Sum(Passes(c))
      && (Sum(Tokens(b)) <= 0.0 || Sum(Tokens(c)) - Sum(Tokens(b)) <= pct * Sum(Tokens(b)))
  {
    hide Sum, SummariesOf, Rationale, OfType, Passes, Tokens, Regressed;
    OnlyTargetGroups(b);
    OnlyTargetGroups(c);
    var n := |b| as real;
    DivCompare(Sum(Passes(b)), Sum(Passes(c)), n);
    DivCompare(0.0, Sum(Tokens(b)), n);
    forall t ensures !TypeRegressed(b, c, t, Critical(alpha)) { NothingToCompare(b, c, t, Critical(alpha)); }
    if Sum(Tokens(b)) > 0.0 { RelativeCost(Sum(Tokens(b)), Sum(Tokens(c)), n, pct); }
  }

  /** The relative increase of a mean is that of the sum. */
  lemma RelativeCost(x: real, y: real, n: real, pct: real)
    requires x > 0.0 && n > 0.0
    ensures x / n > 0.0
    ensures (y / n - x / n) / (x / n) > pct <==> y - x > pct * x
  {
    var p, q := x / n, y / n;
    DivMul(x, n);
    DivMul(y, n);
    DivCompare(0.0, x, n);
    var d := q - p;
    DivMul(d, p);
    DivUnique(pct * p, p, pct);
    DivCompare(pct * p, d, p);
    assert d * n == y - x;
    assert (pct * p) * n == pct * x;
    if d > pct * p { MulStrict(pct * p, d, n); } else { MulMonotone(d, pct * p, n); }
  }

  lemma AllPassedAtNoMore(b: seq<CaseResult>, c: seq<CaseResult>, alpha: real, pct: real)
    requires pct >= 0.0 && |b| == |c| && OnlyTargets(b) && OnlyTargets(c) && NoDearer(c, b)
    requires TargetFails(b) && forall i :: 0 <= i < |c| ==> c[i].passed
    ensures Judge(b, c, alpha, pct).passed
  {
    hide Judge, Sum, Mean, OfType, Passes, Tokens;
    OnlyTargetGroups(b);
    PassRateIff(b);
    SumBounds(Passes(c), 1.0, 1.0);
    SumMonotone(Tokens(c), Tokens(b));
    TargetSuiteIff(b, c, alpha, pct);
    if Sum(Tokens(b)) > 0.0 { MulNonNegative(pct, Sum(Tokens(b))); }
  }

  /** Two runs of one suite. */
  ghost predicate SameSuite(b: seq<CaseResult>, c: seq<CaseResult>) {
    |b| == |c| && forall i :: 0 <= i < |b| ==> b[i].evalType == c[i].evalType
  }

  lemma {:induction false} SameSizes(b: seq<CaseResult>, c: seq<CaseResult>, t: EvalType)
    requires SameSuite(b, c)
    ensures |OfType(b, t)| == |OfType(c, t)|
  {
    if b != [] { SameSizes(b[..|b| - 1], c[..|c| - 1], t); }
  }

  /** A type's drop in passes is significant, in counts. */
  ghost predicate DroppedIn(b: seq<CaseResult>, c: seq<CaseResult>, t: EvalType, critical: real) {
    && OfType(b, t) != [] && OfType(c, t) != []
    && GapExceeds(|OfType(b, t)| as real, |OfType(c, t)| as real,
                  Sum(Passes(OfType(b, t))), Sum(Passes(OfType(c, t))), critical)
  }

  lemma DroppedIff(b: seq<CaseResult>, c: seq<CaseResult>, t: EvalType, critical: real)
    requires critical >= 0.0
    ensures TypeRegressed(b, c, t, critical) <==> t != TargetTask && DroppedIn(b, c, t, critical)
  {
    hide Regressed, GapExceeds, Sum, OfType, Counts;
    if OfType(b, t) != [] && OfType(c, t) != [] {
      RegressedInCounts(Passes(OfType(b, t)), Passes(OfType(c, t)), critical);
    } else {
      NothingToCompare(b, c, t, critical);
    }
  }

  /**
    The whole gate in counts, for every suite: a change passes exactly when more target cases pass,
    no other known type drops significantly, and the target cases cost no more than the tolerance
    allows over what they did.
   */
  lemma GateIff(b: seq<CaseResult>, c: seq<CaseResult>, alpha: real, pct: real)
    requires SameSuite(b, c)
    ensures var g, h := OfType(b, TargetTask), OfType(c, TargetTask);
      Judge(b, c, alpha, pct).passed <==>
        && Sum(Passes(g)) < Sum(Passes(h))
        && (Sum(Tokens(g)) <= 0.0 || Sum(Tokens(h)) - Sum(Tokens(g)) <= pct * Sum(Tokens(g)))
        && forall t: EvalType :: t != TargetTask && !t.Unknown? ==> !DroppedIn(b, c, t, Critical(alpha))
  {
    hide Sum, SummariesOf, Rationale, OfType, Passes, Tokens, Regressed, TypeRegressed, DroppedIn;
    var g, h, n := OfType(b, TargetTask), OfType(c, TargetTask), |OfType(b, TargetTask)| as real;
    SameSizes(b, c, TargetTask);
    forall t ensures TypeRegressed(b, c, t, Critical(alpha)) <==> t != TargetTask && DroppedIn(b, c, t, Critical(alpha)) {
      DroppedIff(b, c, t, Critical(alpha));
    }
    assert forall t: EvalType :: !t.Unknown? ==> exists i :: 0 <= i < |EVAL_TYPES| && EVAL_TYPES[i] == t by { KnownTypes(); }
    if g == [] {
      EmptySums(Passes(g), Passes(h));
    } else {
      DivCompare(Sum(Passes(g)), Sum(Passes(h)), n);
      DivCompare(0.0, Sum(Tokens(g)), n);
      if Sum(Tokens(g)) > 0.0 { RelativeCost(Sum(Tokens(g)), Sum(Tokens(h)), n, pct); }
    }
  }

  lemma KnownTypes()
    ensures forall t: EvalType :: !t.Unknown? ==> exists i :: 0 <= i < |EVAL_TYPES| && EVAL_TYPES[i] == t
    ensures forall i :: 0 <= i < |EVAL_TYPES| ==> !EVAL_TYPES[i].Unknown?
  {
    forall t: EvalType | !t.Unknown? ensures exists i :: 0 <= i < |EVAL_TYPES| && EVAL_TYPES[i] == t {
      var i := match t
        case TargetTask => 0
        case AdjacentTask => 1
        case Adversarial => 2
        case LongHorizon => 3
        case Calibration => 4
        case ResourceCost => 5
        case _ => 6;
      assert EVAL_TYPES[i] == t;
    }
  }

  lemma EmptySums(s: seq<real>, t: seq<real>)
    requires s == [] && t == []
    ensures Sum(s) == Sum(t) == 0.0
  {
  }

  /** A candidate that meets every expectation at no more tokens, where the baseline misses one, always passes. */
  lemma MeetingAllPasses(cases: seq<EvalCase>, b: RunFn, c: RunFn, alpha: real, pct: real)
    requires pct >= 0.0
    requires forall i :: 0 <= i < |cases| ==>
      && cases[i].evalType == TargetTask && cases[i].maxCostTokens.None?
      && Meets(cases[i], c(i, cases[i])) && c(i, cases[i]).totalTokens <= b(i, cases[i]).totalTokens
    requires exists i :: 0 <= i < |cases| && !Meets(cases[i], b(i, cases[i]))
    ensures Judge(Results(cases, b), Results(cases, c), alpha, pct).passed
  {
    hide Judge, CasePassed, Meets;
    var rb, rc := Results(cases, b), Results(cases, c);
    forall i | 0 <= i < |cases| ensures rc[i].passed && (rb[i].passed ==> Meets(cases[i], b(i, cases[i]))) {
      CasePassedIff(cases[i], c(i, cases[i]));
      CasePassedIff(cases[i], b(i, cases[i]));
    }
    var m :| 0 <= m < |cases| && !Meets(cases[m], b(m, cases[m]));
    assert rb[m].evalType == TargetTask && !rb[m].passed;
    AllPassedAtNoMore(rb, rc, alpha, pct);
  }

  // ---------------------------------------------------------------- the code

  class Harness {
    var cases: seq<EvalCase>
    const regressionAlpha: real
    const costRegressionPct: real

    constructor (cases: seq<EvalCase>, regressionAlpha: real, costRegressionPct: real)
      ensures this.cases == cases
      ensures this.regressionAlpha == regressionAlpha && this.costRegressionPct == costRegressionPct
    {
      this.cases, this.regressionAlpha, this.costRegressionPct := cases, regressionAlpha, costRegressionPct;
    }

    /** `add_case` raises on an eval type it does not know. */
    method AddCase(c: EvalCase) returns (r: Result<(), string>)
      modifies this`cases
      ensures r.Ok? <==> c.evalType in EVAL_TYPES
      ensures cases == if r.Ok? then old(cases) + [c] else old(cases)
    {
      if c.evalType !in EVAL_TYPES { return Err("unknown eval_type"); }
      cases := cases + [c];
      r := Ok(());
    }

    method RunCases(run: RunFn) returns (results: seq<CaseResult>)
      ensures results == Results(cases, run)
    {
      results := [];
      for i := 0 to |cases|
        invariant results == Results(cases, run)[..i]
      {
        results := results + [ResultOf(cases[i], run(i, cases[i]))];
      }
    }

    /** `_aggregate`: a report for every eval type that has results. */
    method Aggregate(results: seq<CaseResult>) returns (out: Summaries)
      ensures out == SummariesOf(results)
      ensures forall t :: t in out <==> OfType(results, t) != []
      ensures forall t :: t in out ==> out[t] == Summary(OfType(results, t))
    {
      hide Summary, OfType, SummariesOf;
      var byType := GroupByType(results);
      out := map[];
      var types := byType.Keys;
      while types != {}
        invariant types <= byType.Keys
        invariant forall t :: t in out <==> t in byType && t !in types
        invariant forall t :: t in out ==> out[t] == Summary(OfType(results, t))
        decreases |types|
      {
        var t :| t in types;
        types := types - {t};
        out := out[t := Summary(byType[t])];
      }
      forall t ensures t in out <==> t in SummariesOf(results) { SummaryAt(results, t); }
      forall t | t in out ensures out[t] == SummariesOf(results)[t] { SummaryAt(results, t); }
    }

    method GroupByType(results: seq<CaseResult>) returns (byType: map<EvalType, seq<CaseResult>>)
      ensures forall t :: t in byType <==> OfType(results, t) != []
      ensures forall t :: t in byType ==> byType[t] == OfType(results, t)
    {
      byType := map[];
      for i := 0 to |results|
        invariant forall t :: t in byType <==> OfType(results[..i], t) != []
        invariant forall t :: t in byType ==> byType[t] == OfType(results[..i], t)
      {
        assert results[..i + 1][..i] == results[..i];
        var r := results[i];
        byType := byType[r.evalType := (if r.evalType in byType then byType[r.evalType] else []) + [r]];
      }
      assert results[..|results|] == results;
    }

    method PassSeries(results: seq<CaseResult>, t: EvalType) returns (s: seq<real>)
      ensures s == Passes(OfType(results, t))
    {
      s := [];
      for i := 0 to |results|
        invariant s == Passes(OfType(results[..i], t))
      {
        assert results[..i + 1][..i] == results[..i];
        if results[i].evalType == t { s := s + [if results[i].passed then 1.0 else 0.0]; }
      }
      assert results[..|results|] == results;
    }

    /** The regressions on every eval type but the target's. */
    method FindRegressions(b: seq<CaseResult>, c: seq<CaseResult>, baseline: Summaries, candidate: Summaries)
      returns (regressions: seq<EvalType>)
      requires baseline.Keys == TypesIn(b) && candidate.Keys == TypesIn(c)
      ensures regressions == Regressions(b, c, Critical(regressionAlpha))
    {
      hide Regressed, OfType, TypesIn;
      regressions := [];
      var critical := Critical(regressionAlpha);
      for i := 0 to |EVAL_TYPES|
        invariant regressions == Regressions(b, c, critical, i)
      {
        var t := EVAL_TYPES[i];
        if t != TargetTask {
          var bs := PassSeries(b, t);
          var cs := PassSeries(c, t);
          if t in baseline && t in candidate && Regressed(bs, cs, critical) {
            regressions := regressions + [t];
          }
          assert !(t in baseline && t in candidate) ==> !Regressed(bs, cs, critical) by {
            NothingToCompare(b, c, t, critical);
            TypesHaveResults(b, t);
            TypesHaveResults(c, t);
          }
        }
      }
    }

    method RunSuite(baselineRun: RunFn, candidateRun: RunFn) returns (report: Report)
      ensures report == Judge(Results(cases, baselineRun), Results(cases, candidateRun), regressionAlpha, costRegressionPct)
      ensures baselineRun == candidateRun ==> !report.passed
    {
      hide Judge, SummariesOf, Summary, OfType, TypesIn, Results, Regressions, Rationale;
      var b := RunCases(baselineRun);
      var c := RunCases(candidateRun);
      var baseline := Aggregate(b);
      var candidate := Aggregate(c);

      var improved := false;
      if TargetTask in baseline && TargetTask in candidate {
        improved := candidate[TargetTask].passRate > baseline[TargetTask].passRate;
      }

      KeysAreTypes(b);
      KeysAreTypes(c);
      var regressions := FindRegressions(b, c, baseline, candidate);

      var cost := false;
      if TargetTask in baseline && TargetTask in candidate && baseline[TargetTask].meanTokens > 0.0 {
        var pct := (candidate[TargetTask].meanTokens - baseline[TargetTask].meanTokens) / baseline[TargetTask].meanTokens;
        cost := pct > costRegressionPct;
      }
      report := Report(baseline, candidate, improved, regressions, cost,
                       improved && regressions == [] && !cost, Rationale(improved, regressions, cost));
      JudgedFromSummaries(b, c, regressionAlpha, costRegressionPct);
      if baselineRun == candidateRun { SelfNeverPasses(b, regressionAlpha, costRegressionPct); }
    }
  }

  lemma KeysAreTypes(results: seq<CaseResult>)
    ensures SummariesOf(results).Keys == TypesIn(results)
  {
    hide OfType, Summary, SummariesOf;
    forall t ensures t in SummariesOf(results) <==> t in TypesIn(results) {
      SummaryAt(results, t);
      TypesHaveResults(results, t);
    }
  }

  predicate Improvement(b: Summaries, c: Summaries) {
    TargetTask in b && TargetTask in c && c[TargetTask].passRate > b[TargetTask].passRate
  }

  predicate CostIncrease(b: Summaries, c: Summaries, pct: real) {
    TargetTask in b && TargetTask in c && b[TargetTask].meanTokens > 0.0 &&
    (c[TargetTask].meanTokens - b[TargetTask].meanTokens) / b[TargetTask].meanTokens > pct
  }

  /** The judgement read off the two runs' summaries. */
  lemma JudgedFromSummaries(b: seq<CaseResult>, c: seq<CaseResult>, alpha: real, pct: real)
    ensures var improved := Improvement(SummariesOf(b), SummariesOf(c));
      var cost := CostIncrease(SummariesOf(b), SummariesOf(c), pct);
      var regressions := Regressions(b, c, Critical(alpha));
      Judge(b, c, alpha, pct) ==
        Report(SummariesOf(b), SummariesOf(c), improved, regressions, cost,
               improved && regressions == [] && !cost, Rationale(improved, regressions, cost))
  {
    hide Mean, OfType, ScoresOf, Passes, Tokens, SummariesOf, Regressions, Rationale;
    SummaryAt(b, TargetTask);
    SummaryAt(c, TargetTask);
  }

  lemma NothingToCompare(b: seq<CaseResult>, c: seq<CaseResult>, t: EvalType, critical: real)
    ensures OfType(b, t) == [] || OfType(c, t) == [] ==>
      !Regressed(Passes(OfType(b, t)), Passes(OfType(c, t)), critical)
  {
  }
}
