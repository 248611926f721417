/**
  Procedural memory and its two readers: the planner's index (axis/memory/procedural.py,
  axis/memory/manager.py) and the federated coordinator's validation rule (axis/multi_instance.py).
 */
module Procedural {
  import opened Wrappers
  import opened Collections
  import opened PlanTypes
  import opened Reals
  import Planner

  datatype Status = Candidate | Validated | Retired

  // ---------------------------------------------------------------- usage statistics

  datatype Usage = Usage(rate: real, n: nat)

  /** The incremental mean update of `record_usage`. */
  function Blend(mean: real, n: nat, x: real): real {
    (mean * n as real + x) / (n + 1) as real
  }

  lemma BlendTimes(mean: real, n: nat, x: real)
    ensures Blend(mean, n, x) * (n + 1) as real == mean * n as real + x
  {
    DivMul(mean * n as real + x, (n + 1) as real);
  }

  function NewRate(rate: real, n: nat, success: bool): real {
    Blend(rate, n, if success then 1.0 else 0.0)
  }

  function RecordOne(u: Usage, success: bool): Usage {
    Usage(NewRate(u.rate, u.n, success), u.n + 1)
  }

  /** A new procedure starts at rate 0 over no samples. */
  function RecordAll(history: seq<bool>): Usage {
    if history == [] then Usage(0.0, 0)
    else RecordOne(RecordAll(history[..|history| - 1]), history[|history| - 1])
  }

  function Successes(history: seq<bool>): nat {
    if history == [] then 0
    else Successes(history[..|history| - 1]) + if history[|history| - 1] then 1 else 0
  }

  /** Over any usage history, rate times sample size is exactly the number of successes. */
  lemma {:induction false} RateIsExact(history: seq<bool>)
    ensures var u := RecordAll(history);
      u.n == |history| && u.rate * u.n as real == Successes(history) as real && Successes(history) <= |history|
  {
    hide Blend;
    if history != [] {
      var u := RecordAll(history[..|history| - 1]);
      RateIsExact(history[..|history| - 1]);
      BlendTimes(u.rate, u.n, if history[|history| - 1] then 1.0 else 0.0);
    }
  }

  // ---------------------------------------------------------------- average cost

  /** A usage's costs by kind; a usage without costs has none. */
  type Costs = map<string, real>

  function At(costs: Costs, k: string): real {
    if k in costs then costs[k] else 0.0
  }

  function Times(x: real, n: nat): real {
    x * n as real
  }

  /** The update of `avg_cost`, after `n` usages. */
  function NewCosts(avg: Costs, n: nat, cost: Costs): Costs {
    if cost == map[] then avg
    else if avg == map[] then cost
    else map k | k in avg.Keys + cost.Keys :: if k in cost then Blend(At(avg, k), n, cost[k]) else avg[k]
  }

  function AverageCosts(history: seq<Costs>): Costs {
    if history == [] then map[]
    else NewCosts(AverageCosts(history[..|history| - 1]), |history| - 1, history[|history| - 1])
  }

  function TotalCost(history: seq<Costs>, k: string): real {
    if history == [] then 0.0 else TotalCost(history[..|history| - 1], k) + At(history[|history| - 1], k)
  }

  /** What the update after `n` usages adds to average times usages beyond the usage's own cost. */
  function Extra(avg: Costs, n: nat, cost: Costs, k: string): real {
    if cost != map[] && avg == map[] then Times(At(cost, k), n)
    else if k in cost then 0.0
    else At(avg, k)
  }

  /**
    What `avg_cost` counts too much: the current average at every usage without the kind, and the
    first recorded cost once for each usage before it, if no usage had recorded any cost by then.
   */
  function Overcount(history: seq<Costs>, k: string): real {
    if history == [] then 0.0
    else
      var n := |history| - 1;
      Overcount(history[..n], k) + Extra(AverageCosts(history[..n]), n, history[n], k)
  }

  lemma OneMoreUsage(avg: Costs, n: nat, cost: Costs, k: string)
    ensures Times(At(NewCosts(avg, n, cost), k), n + 1) ==
            Times(At(avg, k), n) + At(cost, k) + Extra(avg, n, cost, k)
  {
    hide Blend;
    assert At(NewCosts(avg, n, cost), k) ==
      if cost == map[] then At(avg, k)
      else if avg == map[] then At(cost, k)
      else if k in cost then Blend(At(avg, k), n, cost[k]) else At(avg, k);
    var m := n as real;
    assert (n + 1) as real == m + 1.0;
    if k in cost && avg != map[] {
      BlendTimes(At(avg, k), n, cost[k]);
    } else if cost != map[] && avg == map[] {
      assert At(cost, k) * (m + 1.0) == At(cost, k) * m + At(cost, k);
      assert At(avg, k) * m == 0.0;
    } else {
      assert At(avg, k) * (m + 1.0) == At(avg, k) * m + At(avg, k);
    }
  }

  lemma NoTimes(x: real)
    ensures Times(x, 0) == 0.0
  {
  }

  /** Over any usage history, the average times the number of usages is the total cost plus the overcount. */
  lemma {:induction false} AverageCostIsOff(history: seq<Costs>, k: string)
    ensures Times(At(AverageCosts(history), k), |history|) == TotalCost(history, k) + Overcount(history, k)
  {
    hide NewCosts, Times, Extra;
    if history == [] {
      NoTimes(0.0);
    } else {
      var n := |history| - 1;
      AverageCostIsOff(history[..n], k);
      OneMoreUsage(AverageCosts(history[..n]), n, history[n], k);
    }
  }

  // ---------------------------------------------------------------- when is it the mean?

  ghost predicate Empty(history: seq<Costs>) {
    forall i :: 0 <= i < |history| ==> history[i] == map[]
  }

  /** Some usage records a cost of this kind other than zero. */
  ghost predicate Paid(history: seq<Costs>, k: string) {
    exists i :: 0 <= i < |history| && At(history[i], k) != 0.0
  }

  ghost predicate NonNegative(history: seq<Costs>, k: string) {
    forall i :: 0 <= i < |history| ==> At(history[i], k) >= 0.0
  }

  /**
    Nothing is skipped: once a cost of the kind has been paid every usage carries the kind, and it
    is not paid for the first time after usages that recorded no costs at all.
   */
  ghost predicate Unskipped(history: seq<Costs>, k: string) {
    forall i :: 0 <= i < |history| ==> NotSkippedAt(history, k, i)
  }

  ghost predicate NotSkippedAt(history: seq<Costs>, k: string, i: nat)
    requires i < |history|
  {
    && (Paid(history[..i], k) ==> k in history[i])
    && (At(history[i], k) != 0.0 && i > 0 ==> !Empty(history[..i]))
  }

  lemma UnskippedPrefix(history: seq<Costs>, k: string)
    requires history != []
    ensures var n := |history| - 1;
      Unskipped(history, k) <==> Unskipped(history[..n], k) && NotSkippedAt(history, k, n)
  {
    var n := |history| - 1;
    forall i: nat | i < n ensures NotSkippedAt(history[..n], k, i) <==> NotSkippedAt(history, k, i) {
      assert history[..n][..i] == history[..i];
    }
    if Unskipped(history, k) {
      forall i: nat | i < n ensures NotSkippedAt(history[..n], k, i) { assert NotSkippedAt(history, k, i); }
    }
    if Unskipped(history[..n], k) && NotSkippedAt(history, k, n) {
      forall i: nat | i < |history| ensures NotSkippedAt(history, k, i) {
        if i < n { assert NotSkippedAt(history[..n], k, i); }
      }
    }
  }

  lemma {:induction false} AverageOfNothing(history: seq<Costs>)
    ensures AverageCosts(history) == map[] <==> Empty(history)
  {
    hide Blend;
    if history != [] {
      var n := |history| - 1;
      AverageOfNothing(history[..n]);
      UpdateIsEmpty(AverageCosts(history[..n]), n, history[n]);
      assert Empty(history) <==> Empty(history[..n]) && history[n] == map[] by {
        if Empty(history[..n]) && history[n] == map[] {
          forall i | 0 <= i < |history| ensures history[i] == map[] {
            if i < n { assert history[..n][i] == map[]; }
          }
        }
      }
    }
  }

  lemma UpdateIsEmpty(avg: Costs, n: nat, cost: Costs)
    ensures NewCosts(avg, n, cost) == map[] <==> avg == map[] && cost == map[]
  {
    hide Blend;
    if avg != map[] && cost != map[] {
      var k :| k in cost;
      assert k in NewCosts(avg, n, cost);
    }
  }

  lemma UpdateCarries(avg: Costs, n: nat, cost: Costs, k: string)
    requires k in cost
    ensures k in NewCosts(avg, n, cost)
  {
  }

  lemma PaidPrefix(history: seq<Costs>, k: string)
    requires history != []
    ensures var n := |history| - 1; Paid(history, k) <==> Paid(history[..n], k) || At(history[n], k) != 0.0
  {
    var n := |history| - 1;
    if i :| 0 <= i < |history| && At(history[i], k) != 0.0 {
      if i < n { assert history[..n][i] == history[i]; }
    }
    if i :| 0 <= i < n && At(history[..n][i], k) != 0.0 { assert history[i] == history[..n][i]; }
  }

  lemma UpdatedAverage(avg: Costs, n: nat, cost: Costs, k: string)
    ensures At(avg, k) == 0.0 && At(cost, k) == 0.0 ==> At(NewCosts(avg, n, cost), k) == 0.0
    ensures At(avg, k) >= 0.0 && At(cost, k) >= 0.0 ==>
      At(NewCosts(avg, n, cost), k) >= 0.0 &&
      ((At(avg, k) > 0.0 && n > 0) || At(cost, k) > 0.0 ==> At(NewCosts(avg, n, cost), k) > 0.0)
  {
    hide Blend;
    if k in cost && avg != map[] { BlendSign(At(avg, k), n, cost[k]); }
  }

  lemma BlendSign(mean: real, n: nat, x: real)
    ensures mean == 0.0 && x == 0.0 ==> Blend(mean, n, x) == 0.0
    ensures mean >= 0.0 && x >= 0.0 ==>
      Blend(mean, n, x) >= 0.0 && ((mean > 0.0 && n > 0) || x > 0.0 ==> Blend(mean, n, x) > 0.0)
  {
    var sum, d := mean * n as real + x, (n + 1) as real;
    DivCompare(0.0, sum, d);
    if mean >= 0.0 { MulNonNegative(mean, n as real); }
    if mean > 0.0 && n > 0 { MulPositive(mean, n as real); }
    if mean == 0.0 && x == 0.0 { DivUnique(sum, d, 0.0); }
  }

  /** The average of a kind that has only cost nothing is zero; that of a kind that has cost something is positive. */
  lemma {:induction false} AverageSign(history: seq<Costs>, k: string)
    ensures !Paid(history, k) ==> At(AverageCosts(history), k) == 0.0
    ensures NonNegative(history, k) ==>
      At(AverageCosts(history), k) >= 0.0 && (Paid(history, k) <==> At(AverageCosts(history), k) > 0.0)
  {
    hide NewCosts, At;
    if history == [] {
      assert At(map[], k) == 0.0 by { NothingAt(k); }
    } else {
      var n := |history| - 1;
      AverageSign(history[..n], k);
      PaidPrefix(history, k);
      UpdatedAverage(AverageCosts(history[..n]), n, history[n], k);
      if NonNegative(history, k) {
        forall i | 0 <= i < n ensures At(history[..n][i], k) >= 0.0 { assert history[..n][i] == history[i]; }
        assert At(history[n], k) >= 0.0;
        if n == 0 { assert history[..n] == []; }
      }
    }
  }

  lemma NothingAt(k: string)
    ensures At(map[], k) == 0.0
  {
  }

  /** One usage adds to the overcount exactly when it skips. */
  lemma ExtraIff(history: seq<Costs>, k: string)
    requires history != []
    ensures var n := |history| - 1;
      var extra := Extra(AverageCosts(history[..n]), n, history[n], k);
      && (NotSkippedAt(history, k, n) ==> extra == 0.0)
      && (NonNegative(history, k) ==> extra >= 0.0 && (extra == 0.0 <==> NotSkippedAt(history, k, n)))
  {
    hide NewCosts, Times, AverageCosts;
    var n := |history| - 1;
    var front, cost := history[..n], history[n];
    AverageOfNothing(front);
    AverageSign(front, k);
    TimesSign(At(cost, k), n);
    if NonNegative(history, k) {
      assert At(cost, k) >= 0.0;
      forall i | 0 <= i < n ensures At(front[i], k) >= 0.0 { assert front[i] == history[i]; }
    }
    EmptyIsUnpaid(front, k);
  }

  lemma EmptyIsUnpaid(history: seq<Costs>, k: string)
    ensures Empty(history) ==> !Paid(history, k)
  {
  }

  lemma TimesSign(x: real, n: nat)
    ensures x == 0.0 || n == 0 ==> Times(x, n) == 0.0
    ensures x > 0.0 && n > 0 ==> Times(x, n) > 0.0
  {
    if x > 0.0 && n > 0 { MulPositive(x, n as real); }
  }

  lemma {:induction false} OvercountIff(history: seq<Costs>, k: string)
    ensures Unskipped(history, k) ==> Overcount(history, k) == 0.0
    ensures NonNegative(history, k) ==>
      Overcount(history, k) >= 0.0 && (Overcount(history, k) == 0.0 <==> Unskipped(history, k))
  {
    hide Extra, NotSkippedAt, At;
    if history != [] {
      var n := |history| - 1;
      OvercountIff(history[..n], k);
      ExtraIff(history, k);
      UnskippedPrefix(history, k);
      if NonNegative(history, k) {
        forall i | 0 <= i < n ensures At(history[..n][i], k) >= 0.0 { assert history[..n][i] == history[i]; }
      }
    }
  }

  /** Over any history of costs that are not negative, the average is the mean exactly when nothing is skipped. */
  lemma AverageCostIsMeanIff(history: seq<Costs>, k: string)
    ensures Unskipped(history, k) ==> Times(At(AverageCosts(history), k), |history|) == TotalCost(history, k)
    ensures NonNegative(history, k) ==>
      && (Times(At(AverageCosts(history), k), |history|) == TotalCost(history, k) <==> Unskipped(history, k))
      && Times(At(AverageCosts(history), k), |history|) >= TotalCost(history, k)
  {
    hide Unskipped, Times;
    AverageCostIsOff(history, k);
    OvercountIff(history, k);
  }

  /** In particular when every usage carries that kind of cost, whatever its sign. */
  lemma AverageCostIsMean(history: seq<Costs>, k: string)
    requires forall i :: 0 <= i < |history| ==> k in history[i]
    ensures Times(At(AverageCosts(history), k), |history|) == TotalCost(history, k)
    ensures history != [] ==> k in AverageCosts(history)
  {
    hide Times, NewCosts;
    if history != [] { UpdateCarries(AverageCosts(history[..|history| - 1]), |history| - 1, history[|history| - 1], k); }
    forall i: nat | i < |history| ensures NotSkippedAt(history, k, i) {
      if i > 0 { assert history[..i][0] == history[0]; }
    }
    AverageCostIsMeanIff(history, k);
  }

  /** An input where it is not: a usage that cost 2 and one without costs average to 2. */
  lemma SkippedUsageIsOff()
    ensures var history: seq<Costs> := [map["k" := 2.0], map[]];
      Times(At(AverageCosts(history), "k"), |history|) > TotalCost(history, "k")
  {
    hide AverageCosts, TotalCost, Times;
    var history: seq<Costs> := [map["k" := 2.0], map[]];
    AverageCostIsMeanIff(history, "k");
    assert NonNegative(history, "k");
    assert Paid(history[..1], "k") by { assert At(history[..1][0], "k") != 0.0; }
    assert !NotSkippedAt(history, "k", 1);
  }

  // ---------------------------------------------------------------- the registry

  class Procedure {
    const procedureId: Id
    const name: string
    const taskClass: string
    var steps: seq<Planner.TemplateStep>
    var successRate: real
    var sampleSize: nat
    var avgCost: Costs
    var lastUsed: real
    var status: Status

    constructor (id: Id, name: string, taskClass: string, steps: seq<Planner.TemplateStep>, now: real)
      ensures procedureId == id && this.name == name && this.taskClass == taskClass && this.steps == steps
      ensures successRate == 0.0 && sampleSize == 0 && avgCost == map[] && lastUsed == now && status == Candidate
    {
      this.procedureId, this.name, this.taskClass, this.steps := id, name, taskClass, steps;
      successRate, sampleSize, avgCost, lastUsed, status := 0.0, 0, map[], now, Candidate;
    }
  }

  class ProceduralMemory {
    var procedures: map<Id, Procedure>

    /** The keys of `procedures`, in the order they were registered. */
    var order: seq<Id>

    /** Each procedure is stored under its own id. */
    ghost predicate Valid()
      reads this
    {
      && (forall id :: id in procedures ==> procedures[id].procedureId == id)
      && Distinct(order) && forall id :: id in order <==> id in procedures
    }

    constructor ()
      ensures Valid() && procedures == map[] && order == []
    {
      procedures, order := map[], [];
    }

    /** `register`: a new candidate under an id fresh for the registry. */
    method Register(id: Id, name: string, taskClass: string, steps: seq<Planner.TemplateStep>, now: real)
      returns (p: Procedure)
      requires Valid() && id !in procedures
      modifies this
      ensures Valid() && fresh(p) && procedures == old(procedures)[id := p] && order == old(order) + [id]
      ensures p.name == name && p.taskClass == taskClass && p.steps == steps
      ensures p.status == Candidate && p.successRate == 0.0 && p.sampleSize == 0 && p.avgCost == map[]
      ensures forall c :: !Usable(id, c)
    {
      p := new Procedure(id, name, taskClass, steps, now);
      procedures, order := procedures[id := p], order + [id];
    }

    /** `record_usage`; a usage without costs passes the empty map. */
    method RecordUsage(id: Id, success: bool, cost: Costs, now: real)
      requires Valid()
      modifies procedures.Values
      ensures id in procedures ==>
        && Usage(procedures[id].successRate, procedures[id].sampleSize) ==
           RecordOne(old(Usage(procedures[id].successRate, procedures[id].sampleSize)), success)
        && procedures[id].avgCost == NewCosts(old(procedures[id].avgCost), old(procedures[id].sampleSize), cost)
        && procedures[id].lastUsed == now && procedures[id].status == old(procedures[id].status)
        && procedures[id].steps == old(procedures[id].steps)
      ensures forall k :: k in procedures && k != id ==> unchanged(procedures[k])
    {
      hide NewRate, NewCosts;
      if id !in procedures { return; }
      var p := procedures[id];
      var n := p.sampleSize;
      p.successRate := NewRate(p.successRate, n, success);
      p.sampleSize := n + 1;
      p.lastUsed := now;
      p.avgCost := NewCosts(p.avgCost, n, cost);
    }

    /** `promote` and `retire`: an id that is not registered is ignored. */
    method SetStatus(id: Id, status: Status)
      requires Valid()
      modifies procedures.Values
      ensures forall k :: k in procedures && k != id ==> unchanged(procedures[k])
      ensures id in procedures ==>
        && procedures[id].status == status
        && procedures[id].successRate == old(procedures[id].successRate)
        && procedures[id].sampleSize == old(procedures[id].sampleSize)
        && procedures[id].lastUsed == old(procedures[id].lastUsed)
        && procedures[id].avgCost == old(procedures[id].avgCost)
        && procedures[id].steps == old(procedures[id].steps)
        && (Usable(id, procedures[id].taskClass) <==> status == Validated)
    {
      if id in procedures { procedures[id].status := status; }
    }

    // -------------------------------------------------------------- reads

    predicate Usable(id: Id, taskClass: string)
      reads this, procedures.Values
    {
      id in procedures && procedures[id].status == Validated && procedures[id].taskClass == taskClass
    }

    /** `rate` is the best success rate among the class's validated procedures. */
    ghost predicate BestRate(taskClass: string, rate: real)
      reads this, procedures.Values
    {
      && (exists id :: Usable(id, taskClass) && procedures[id].successRate == rate)
      && forall id :: Usable(id, taskClass) ==> procedures[id].successRate <= rate
    }

    /** The tuple order of `(success_rate, sample_size)`. */
    static predicate AtLeast(rate: real, size: nat, rate': real, size': nat) {
      rate > rate' || (rate == rate' && size >= size')
    }

    /** The tuple order on two procedures. */
    predicate NoWorse(id: Id, other: Id)
      requires id in procedures && other in procedures
      reads this, procedures.Values
    {
      AtLeast(procedures[id].successRate, procedures[id].sampleSize,
              procedures[other].successRate, procedures[other].sampleSize)
    }

    /**
      `best_for_class`: a validated procedure of the class, best by rate and then by sample size, and
      the first registered among equals.
     */
    method BestForClass(taskClass: string) returns (best: Option<Id>)
      requires Valid()
      ensures best.None? <==> forall id :: !Usable(id, taskClass)
      ensures best.Some? ==>
        && Usable(best.value, taskClass)
        && BestRate(taskClass, procedures[best.value].successRate)
        && (forall id :: Usable(id, taskClass) ==> NoWorse(best.value, id))
        && forall id :: Usable(id, taskClass) && Precedes(order, id, best.value) ==> !NoWorse(id, best.value)
    {
      best := None;
      ghost var b := 0;
      for i := 0 to |order|
        invariant best.None? ==> forall j :: 0 <= j < i ==> !Usable(order[j], taskClass)
        invariant best.Some? ==>
          && b < i && order[b] == best.value && Usable(best.value, taskClass)
          && (forall j :: 0 <= j < i && Usable(order[j], taskClass) ==> NoWorse(best.value, order[j]))
          && forall j :: 0 <= j < b && Usable(order[j], taskClass) ==> !NoWorse(order[j], best.value)
      {
        var id := order[i];
        assert id in order;
        if Usable(id, taskClass) && (best.None? || !NoWorse(best.value, id)) {
          best, b := Some(id), i;
        }
      }
      forall id | Usable(id, taskClass) ensures exists j :: 0 <= j < |order| && order[j] == id { assert id in order; }
    }

    /** An entry of the planner's index: it describes the first registered of the class's best procedures. */
    ghost predicate Indexed(c: string, e: IndexEntry)
      reads this, procedures.Values
    {
      && Usable(e.procedureId, c)
      && e.name == procedures[e.procedureId].name
      && e.steps == procedures[e.procedureId].steps
      && e.successRate == procedures[e.procedureId].successRate
      && BestRate(c, e.successRate)
      && forall id :: Usable(id, c) && Precedes(order, id, e.procedureId) ==> procedures[id].successRate < e.successRate
    }

    function EntryOf(id: Id): IndexEntry
      requires id in procedures
      reads this, procedures.Values
    {
      IndexEntry(procedures[id].name, id, procedures[id].successRate, procedures[id].steps)
    }

    ghost predicate NoneSoFar(c: string, i: nat)
      requires i <= |order|
      reads this, procedures.Values
    {
      forall j :: 0 <= j < i ==> !Usable(order[j], c)
    }

    /** The entry describes position `b`, the first of the best among the class's first `i` procedures. */
    ghost predicate BestSoFar(c: string, e: IndexEntry, b: nat, i: nat)
      requires i <= |order|
      reads this, procedures.Values
    {
      && b < i && Usable(order[b], c) && e == EntryOf(order[b])
      && (forall j :: 0 <= j < i && Usable(order[j], c) ==> procedures[order[j]].successRate <= e.successRate)
      && forall j :: 0 <= j < b && Usable(order[j], c) ==> procedures[order[j]].successRate < e.successRate
    }

    lemma OneMoreCandidate(c: string, e: IndexEntry, b: nat, i: nat)
      requires i < |order|
      ensures NoneSoFar(c, i) ==>
        if Usable(order[i], c) then BestSoFar(c, EntryOf(order[i]), i, i + 1) else NoneSoFar(c, i + 1)
      ensures BestSoFar(c, e, b, i) ==>
        if Usable(order[i], c) && procedures[order[i]].successRate > e.successRate
        then BestSoFar(c, EntryOf(order[i]), i, i + 1) else BestSoFar(c, e, b, i + 1)
    {
    }

    lemma AllCandidates(c: string, e: IndexEntry, b: nat)
      requires Valid()
      ensures NoneSoFar(c, |order|) ==> forall id :: !Usable(id, c)
      ensures BestSoFar(c, e, b, |order|) ==> Indexed(c, e)
    {
      forall id | Usable(id, c) ensures exists j :: 0 <= j < |order| && order[j] == id { assert id in order; }
      if BestSoFar(c, e, b, |order|) {
        forall id | Usable(id, c) && Precedes(order, id, e.procedureId)
          ensures procedures[id].successRate < e.successRate
        {
          var i, k :| 0 <= i < k < |order| && order[i] == id && order[k] == e.procedureId;
          assert k == b;
        }
      }
    }

    /**
      `procedural_index_for_planner`: a class has an entry just when it has a validated procedure,
      and the entry carries the best success rate, the one `best_for_class` finds.
     */
    method PlannerIndex() returns (index: map<string, IndexEntry>)
      requires Valid()
      ensures forall c :: c in index <==> exists id :: Usable(id, c)
      ensures forall c :: c in index ==> Indexed(c, index[c])
    {
      hide NoneSoFar, BestSoFar, Distinct, Indexed;
      index := map[];
      ghost var at: map<string, nat> := map[];
      forall c ensures NoneSoFar(c, 0) { NothingSoFar(c); }
      for i := 0 to |order|
        invariant at.Keys == index.Keys
        invariant forall c :: c !in index ==> NoneSoFar(c, i)
        invariant forall c :: c in index ==> BestSoFar(c, index[c], at[c], i)
      {
        var id := order[i];
        assert id in order;
        var p := procedures[id];
        var next := index;
        if p.status == Validated && (p.taskClass !in index || p.successRate > index[p.taskClass].successRate) {
          next := index[p.taskClass := EntryOf(id)];
        }
        ghost var at' := if next == index then at else at[p.taskClass := i];
        forall c ensures if c in next then BestSoFar(c, next[c], at'[c], i + 1) else NoneSoFar(c, i + 1) {
          OneMoreCandidate(c, if c in index then index[c] else EntryOf(id), if c in index then at[c] else 0, i);
        }
        index, at := next, at';
      }
      forall c ensures c in index <==> exists id :: Usable(id, c) {
        AllCandidates(c, if c in index then index[c] else IndexEntry("", "", 0.0, []), if c in index then at[c] else 0);
        if c in index { IndexedIsUsable(c, index[c]); }
      }
      forall c | c in index ensures Indexed(c, index[c]) { AllCandidates(c, index[c], at[c]); }
    }

    lemma NothingSoFar(c: string)
      ensures NoneSoFar(c, 0)
    {
    }

    lemma IndexedIsUsable(c: string, e: IndexEntry)
      requires Indexed(c, e)
      ensures Usable(e.procedureId, c)
    {
    }

    lemma BestRateUnique(taskClass: string, r: real, r': real)
      requires BestRate(taskClass, r) && BestRate(taskClass, r')
      ensures r == r'
    {
      var id :| Usable(id, taskClass) && procedures[id].successRate == r;
      var id' :| Usable(id', taskClass) && procedures[id'].successRate == r';
    }

    /** The two readers agree: same classes, same success rate. */
    method IndexAgreesWithBest(taskClass: string) returns (best: Option<Id>, index: map<string, IndexEntry>)
      requires Valid()
      ensures taskClass in index <==> best.Some?
      ensures best.Some? ==> best.value in procedures && index[taskClass].successRate == procedures[best.value].successRate
    {
      best := BestForClass(taskClass);
      index := PlannerIndex();
      if best.Some? {
        assert Usable(best.value, taskClass);
        assert taskClass in index;
        BestRateUnique(taskClass, index[taskClass].successRate, procedures[best.value].successRate);
      }
    }
  }

  datatype IndexEntry = IndexEntry(
    name: string, procedureId: Id, successRate: real, steps: seq<Planner.TemplateStep>)

  // ---------------------------------------------------------------- federation

  datatype InstanceReport = InstanceReport(
    instanceId: Id, taskClass: string, successRate: real, sampleSize: int, reportedAt: real)

  /** The distinct instances reporting strictly above the threshold. */
  function GoodInstances(reports: seq<InstanceReport>, threshold: real): set<Id> {
    set r | r in reports && r.successRate > threshold :: r.instanceId
  }

  /** Those of them reporting on one task class. */
  function GoodInstancesIn(reports: seq<InstanceReport>, threshold: real, cls: string): set<Id> {
    set r | r in reports && r.successRate > threshold && r.taskClass == cls :: r.instanceId
  }

  /** The documented rule: enough instances on the same task class. */
  ghost predicate ValidAsDocumented(reports: seq<InstanceReport>, threshold: real, least: int) {
    exists cls :: |GoodInstancesIn(reports, threshold, cls)| >= least
  }

  /** The rule as coded: enough instances, whatever class each reports on. */
  predicate ValidAsCoded(reports: seq<InstanceReport>, threshold: real, least: int) {
    |GoodInstances(reports, threshold)| >= least
  }

  /** The code accepts whatever the documented rule accepts. */
  lemma DocumentedIsCoded(reports: seq<InstanceReport>, threshold: real, least: int)
    ensures ValidAsDocumented(reports, threshold, least) ==> ValidAsCoded(reports, threshold, least)
  {
    forall cls ensures |GoodInstancesIn(reports, threshold, cls)| <= |GoodInstances(reports, threshold)| {
      SubsetCard(GoodInstancesIn(reports, threshold, cls), GoodInstances(reports, threshold));
    }
  }

  /** The rules agree, whatever number is asked for, just when every good instance is good on one common class. */
  lemma ValidationAgreesIff(reports: seq<InstanceReport>, threshold: real)
    ensures (forall least ::
        ValidAsCoded(reports, threshold, least) <==> ValidAsDocumented(reports, threshold, least)) <==>
      exists cls :: GoodInstancesIn(reports, threshold, cls) == GoodInstances(reports, threshold)
  {
    hide GoodInstances, GoodInstancesIn;
    var all := GoodInstances(reports, threshold);
    forall least ensures ValidAsDocumented(reports, threshold, least) ==> ValidAsCoded(reports, threshold, least) {
      DocumentedIsCoded(reports, threshold, least);
    }
    if forall least :: ValidAsCoded(reports, threshold, least) <==> ValidAsDocumented(reports, threshold, least) {
      assert ValidAsCoded(reports, threshold, |all|);
      var cls :| |GoodInstancesIn(reports, threshold, cls)| >= |all|;
      GoodInIsGood(reports, threshold, cls);
      SubsetCard(GoodInstancesIn(reports, threshold, cls), all);
    }
  }

  lemma GoodInIsGood(reports: seq<InstanceReport>, threshold: real, cls: string)
    ensures GoodInstancesIn(reports, threshold, cls) <= GoodInstances(reports, threshold)
  {
  }

  /** An input where they part: three instances, each on a class of its own. */
  lemma MixedClassesValidate(a: InstanceReport, b: InstanceReport, c: InstanceReport)
    requires a.instanceId == "a" && b.instanceId == "b" && c.instanceId == "c"
    requires a.taskClass == "x" && b.taskClass == "y" && c.taskClass == "z"
    requires a.successRate == b.successRate == c.successRate == 0.9
    ensures ValidAsCoded([a, b, c], 0.7, 3) && !ValidAsDocumented([a, b, c], 0.7, 3)
  {
    var reports := [a, b, c];
    assert a in reports && b in reports && c in reports;
    assert GoodInstances(reports, 0.7) == {"a", "b", "c"};
    forall cls ensures |GoodInstancesIn(reports, 0.7, cls)| <= 1 {
      var only := if cls == "x" then "a" else if cls == "y" then "b" else "c";
      SubsetCard(GoodInstancesIn(reports, 0.7, cls), {only});
    }
  }

  /** Strictly above: an instance counts just when some report of its own beats the threshold. */
  lemma GoodInstanceIff(reports: seq<InstanceReport>, threshold: real, id: Id)
    ensures id in GoodInstances(reports, threshold) <==>
      exists i :: 0 <= i < |reports| && reports[i].instanceId == id && threshold < reports[i].successRate
  {
    if i :| 0 <= i < |reports| && reports[i].instanceId == id && threshold < reports[i].successRate {
      assert reports[i] in reports;
    }
    if id in GoodInstances(reports, threshold) {
      var r :| r in reports && r.successRate > threshold && r.instanceId == id;
      var i :| 0 <= i < |reports| && reports[i] == r;
    }
  }

  /** The elements of `s` that are in `keep`, in order. */
  ghost function Among(s: seq<Id>, keep: set<Id>): seq<Id> {
    if s == [] then []
    else
      var rest := Among(s[..|s| - 1], keep);
      if s[|s| - 1] in keep then rest + [s[|s| - 1]] else rest
  }

  lemma {:induction false} AmongFacts(s: seq<Id>, keep: set<Id>)
    ensures forall x :: x in Among(s, keep) <==> x in s && x in keep
    ensures Distinct(s) ==> Distinct(Among(s, keep))
  {
    if s != [] {
      assert s == s[..|s| - 1] + [s[|s| - 1]];
      AmongFacts(s[..|s| - 1], keep);
    }
  }

  class FederatedCoordinator {
    const shared: ProceduralMemory
    var reports: map<Id, seq<InstanceReport>>

    /** The keys of `reports`, in the order they were first reported on. */
    var reported: seq<Id>
    var registered: set<Id>
    const threshold: real
    const minInstances: int

    ghost predicate Valid()
      reads this
    {
      Distinct(reported) && forall pid :: pid in reported <==> pid in reports
    }

    constructor (shared: ProceduralMemory, threshold: real, minInstances: int)
      ensures this.shared == shared && this.threshold == threshold && this.minInstances == minInstances
      ensures Valid() && reports == map[] && registered == {}
    {
      this.shared, this.threshold, this.minInstances := shared, threshold, minInstances;
      reports, reported, registered := map[], [], {};
    }

    /** `report_usage`: without a class, a report is on its procedure's class, or dropped if there is no such procedure. */
    method ReportUsage(
      instanceId: Id, procedureId: Id, successRate: real, sampleSize: int, taskClass: Option<string>, now: real)
      requires Valid()
      modifies this
      ensures Valid() && registered == old(registered) + {instanceId}
      ensures taskClass.None? && procedureId !in shared.procedures ==>
        reports == old(reports) && reported == old(reported)
      ensures taskClass.Some? || procedureId in shared.procedures ==>
        var cls := if taskClass.Some? then taskClass.value else shared.procedures[procedureId].taskClass;
        && reports == old(reports)[procedureId :=
             (if procedureId in old(reports) then old(reports)[procedureId] else [])
             + [InstanceReport(instanceId, cls, successRate, sampleSize, now)]]
        && reported == old(reported) + if procedureId in old(reports) then [] else [procedureId]
    {
      registered := registered + {instanceId};
      if taskClass.None? && procedureId !in shared.procedures { return; }
      var cls := if taskClass.Some? then taskClass.value else shared.procedures[procedureId].taskClass;
      var before := if procedureId in reports then reports[procedureId] else [];
      if procedureId !in reports { reported := reported + [procedureId]; }
      reports := reports[procedureId := before + [InstanceReport(instanceId, cls, successRate, sampleSize, now)]];
    }

    /** The merge rule: a candidate with enough distinct instances above the threshold. */
    predicate Promotable(pid: Id)
      reads this, shared, shared.procedures.Values
    {
      && pid in reports && pid in shared.procedures
      && shared.procedures[pid].status == Candidate
      && ValidAsCoded(reports[pid], threshold, minInstances)
    }

    ghost function PromotableIds(): set<Id>
      reads this, shared, shared.procedures.Values
    {
      set pid | pid in reports && Promotable(pid)
    }

    /** Exactly these procedures have been validated; nothing else about any procedure has changed. */
    twostate predicate ValidatedIds(promoted: seq<Id>)
      reads this, shared, shared.procedures.Values
    {
      shared.procedures == old(shared.procedures) &&
      forall pid :: pid in shared.procedures ==>
        && shared.procedures[pid].status == (if pid in promoted then Validated else old(shared.procedures[pid].status))
        && shared.procedures[pid].successRate == old(shared.procedures[pid].successRate)
        && shared.procedures[pid].sampleSize == old(shared.procedures[pid].sampleSize)
    }

    /**
      `check_validations` promotes exactly the promotable candidates, each once and in the order
      they were first reported on, and touches no other procedure; afterwards nothing is
      promotable, so an immediate second call promotes nothing.
     */
    method CheckValidations() returns (promoted: seq<Id>)
      requires Valid() && shared.Valid()
      modifies shared.procedures.Values
      ensures promoted == Among(reported, old(PromotableIds()))
      ensures Distinct(promoted) && forall pid :: pid in promoted <==> old(Promotable(pid))
      ensures ValidatedIds(promoted)
      ensures forall pid :: !Promotable(pid)
    {
      hide ValidAsCoded;
      promoted := [];
      ghost var due := PromotableIds();
      assert forall pid :: Promotable(pid) <==> pid in due;
      for i := 0 to |reported|
        invariant promoted == Among(reported[..i], due)
        invariant ValidatedIds(promoted)
      {
        AmongFacts(reported[..i], due);
        assert reported[..i + 1][..i] == reported[..i];
        var pid := reported[i];
        assert pid !in promoted;
        if Promotable(pid) {
          shared.SetStatus(pid, Validated);
          promoted := promoted + [pid];
        }
      }
      AmongFacts(reported, due);
      assert reported[..|reported|] == reported;
    }
  }
}
