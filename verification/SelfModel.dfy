/**
  `self_model_snapshot` (axis/telemetry.py): two independent passes over the record buffer, one
  counting per class and strategy, one per strategy. The counts are proved to agree, and the
  snapshot's best strategies and selection rates are tied to the records they came from.
 */
module SelfModel {
  import opened Wrappers
  import opened Collections
  import opened PlanTypes
  import opened Reals
  import R = Statistics
  import opened Windows
  import opened Telemetry

  datatype Stats = Stats(total: nat, wins: nat) {
    function Plus(s: Stats): Stats { Stats(total + s.total, wins + s.wins) }
  }

  const ZERO: Stats := Stats(0, 0)

  /** `if rec.strategy`: the record names a strategy. */
  predicate Chosen(r: Record) {
    r.strategy.Some? && |r.strategy.value| > 0
  }

  predicate Selected(r: Record, strategy: string) {
    Chosen(r) && r.strategy.value == strategy
  }

  /** What one record adds to a strategy's statistics. */
  function Tally(r: Record, strategy: string): Stats {
    if Selected(r, strategy) then Stats(1, if r.outcome == Success then 1 else 0) else ZERO
  }

  /** A class's statistics for a strategy: records of that class that selected it, and how many succeeded. */
  function Joint(records: seq<Record>, cls: string, strategy: string): (s: Stats)
    ensures s.wins <= s.total
  {
    if records == [] then ZERO
    else
      var r := records[|records| - 1];
      var before := Joint(records[..|records| - 1], cls, strategy);
      if r.taskClass == cls then before.Plus(Tally(r, strategy)) else before
  }

  /** A strategy's statistics over all classes. */
  function Marginal(records: seq<Record>, strategy: string): (s: Stats)
    ensures s.wins <= s.total
  {
    if records == [] then ZERO
    else Marginal(records[..|records| - 1], strategy).Plus(Tally(records[|records| - 1], strategy))
  }

  type ClassStats = map<string, map<string, Stats>>

  function Entry(stats: ClassStats, cls: string, strategy: string): Stats {
    if cls in stats && strategy in stats[cls] then stats[cls][strategy] else ZERO
  }

  // ---------------------------------------------------------------- the two passes

  /** One turn of the first pass: `setdefault(cls, {}).setdefault(strategy, ...)` and its increments. */
  function Absorb(stats: ClassStats, r: Record): ClassStats {
    if Chosen(r) then
      var inner := if r.taskClass in stats then stats[r.taskClass] else map[];
      var entry := if r.strategy.value in inner then inner[r.strategy.value] else ZERO;
      stats[r.taskClass := inner[r.strategy.value := entry.Plus(Tally(r, r.strategy.value))]]
    else stats
  }

  /** Only pairs that were selected have an entry. */
  ghost predicate Populated(stats: ClassStats) {
    forall c, s :: c in stats && s in stats[c] ==> stats[c][s].total > 0
  }

  lemma AbsorbSelected(stats: ClassStats, r: Record, s: string)
    requires Selected(r, s)
    ensures Entry(Absorb(stats, r), r.taskClass, s) == Entry(stats, r.taskClass, s).Plus(Tally(r, s))
  {
    hide Tally;
  }

  lemma AbsorbOther(stats: ClassStats, r: Record, c: string, s: string)
    requires !Selected(r, s) || r.taskClass != c
    ensures Entry(Absorb(stats, r), c, s) == Entry(stats, c, s)
  {
    hide Tally;
  }

  lemma AbsorbEntry(stats: ClassStats, r: Record, c: string, s: string)
    ensures Entry(Absorb(stats, r), c, s) ==
            if r.taskClass == c then Entry(stats, c, s).Plus(Tally(r, s)) else Entry(stats, c, s)
  {
    hide Absorb, Entry, Selected;
    if Selected(r, s) && r.taskClass == c { AbsorbSelected(stats, r, s); } else { AbsorbOther(stats, r, c, s); }
  }

  lemma AbsorbPopulated(stats: ClassStats, r: Record)
    requires Populated(stats)
    ensures Populated(Absorb(stats, r))
  {
    hide Tally, Absorb;
    forall c, s | c in Absorb(stats, r) && s in Absorb(stats, r)[c]
      ensures Absorb(stats, r)[c][s].total > 0
    {
      AbsorbPositive(stats, r, c, s);
    }
  }

  lemma AbsorbPositive(stats: ClassStats, r: Record, c: string, s: string)
    requires c in stats && s in stats[c] ==> stats[c][s].total > 0
    requires c in Absorb(stats, r) && s in Absorb(stats, r)[c]
    ensures Absorb(stats, r)[c][s].total > 0
  {
    hide Tally;
    if Selected(r, s) { assert Tally(r, s).total == 1 by { TallySelected(r, s); } }
  }

  lemma TallySelected(r: Record, s: string)
    requires Selected(r, s)
    ensures Tally(r, s).total == 1
  {
  }

  lemma JointSnoc(records: seq<Record>, i: nat, c: string, s: string)
    requires i < |records|
    ensures Joint(records[..i + 1], c, s) ==
            if records[i].taskClass == c then Joint(records[..i], c, s).Plus(Tally(records[i], s))
            else Joint(records[..i], c, s)
  {
    assert records[..i + 1][..i] == records[..i];
  }

  /** A class's strategies in order of first selection: the key order of its inner dictionary. */
  function FirstSeen(records: seq<Record>, cls: string): (names: seq<string>)
    ensures Distinct(names)
    ensures forall s :: s in names <==> Joint(records, cls, s).total > 0
  {
    if records == [] then []
    else
      var r := records[|records| - 1];
      var before := FirstSeen(records[..|records| - 1], cls);
      if r.taskClass == cls && Chosen(r) && r.strategy.value !in before then before + [r.strategy.value] else before
  }

  function Names(order: map<string, seq<string>>, cls: string): seq<string> {
    if cls in order then order[cls] else []
  }

  /** The key a record adds to its class's inner dictionary, if it is not there yet. */
  function AddName(order: map<string, seq<string>>, r: Record): map<string, seq<string>> {
    if Chosen(r) && r.strategy.value !in Names(order, r.taskClass)
    then order[r.taskClass := Names(order, r.taskClass) + [r.strategy.value]]
    else order
  }

  lemma AddNameKeeps(order: map<string, seq<string>>, records: seq<Record>, i: nat, c: string)
    requires i < |records| && Names(order, c) == FirstSeen(records[..i], c)
    ensures Names(AddName(order, records[i]), c) == FirstSeen(records[..i + 1], c)
  {
    hide Joint;
    assert records[..i + 1][..i] == records[..i];
  }

  /** First pass: `per_class_strategy_stats`. A pair has an entry just when it has a record. */
  method FoldByClass(records: seq<Record>) returns (stats: ClassStats, order: map<string, seq<string>>)
    ensures forall c, s :: Entry(stats, c, s) == Joint(records, c, s)
    ensures Populated(stats)
    ensures forall c :: Names(order, c) == FirstSeen(records, c)
  {
    hide Absorb, Joint, Entry, Populated, Tally, AddName, Names, FirstSeen;
    stats, order := map[], map[];
    assert Populated(stats) && forall c, s :: Entry(stats, c, s) == Joint(records[..0], c, s) by { EmptyStats(); }
    forall c ensures Names(order, c) == FirstSeen(records[..0], c) { NoNames(c); assert records[..0] == []; }
    for i := 0 to |records|
      invariant forall c, s :: Entry(stats, c, s) == Joint(records[..i], c, s)
      invariant Populated(stats)
      invariant forall c :: Names(order, c) == FirstSeen(records[..i], c)
    {
      forall c, s ensures Entry(Absorb(stats, records[i]), c, s) == Joint(records[..i + 1], c, s) {
        AbsorbEntry(stats, records[i], c, s);
        JointSnoc(records, i, c, s);
      }
      forall c ensures Names(AddName(order, records[i]), c) == FirstSeen(records[..i + 1], c) {
        AddNameKeeps(order, records, i, c);
      }
      AbsorbPopulated(stats, records[i]);
      stats, order := Absorb(stats, records[i]), AddName(order, records[i]);
    }
    assert records[..|records|] == records;
  }

  lemma NoNames(c: string)
    ensures Names(map[], c) == FirstSeen([], c)
  {
  }

  lemma EmptyStats()
    ensures Populated(map[]) && forall c, s :: Entry(map[], c, s) == Joint([], c, s)
  {
  }

  function Get(m: map<string, nat>, k: string): nat {
    if k in m then m[k] else 0
  }

  /** `strategy_totals` and `strategy_wins`. */
  datatype Totals = Totals(totals: map<string, nat>, wins: map<string, nat>) {
    function At(s: string): Stats { Stats(Get(totals, s), Get(wins, s)) }

    /** Every strategy with a key has been selected. */
    ghost predicate Counted() { forall s :: s in totals ==> totals[s] > 0 }

    function Add(r: Record): Totals {
      if Chosen(r) then
        var name := r.strategy.value;
        Totals(totals[name := Get(totals, name) + 1],
               if r.outcome == Success then wins[name := Get(wins, name) + 1] else wins)
      else this
    }
  }

  lemma AddSelected(t: Totals, r: Record, s: string)
    requires Selected(r, s)
    ensures t.Add(r).At(s) == t.At(s).Plus(Stats(1, if r.outcome == Success then 1 else 0))
  {
  }

  lemma AddOther(t: Totals, r: Record, s: string)
    requires !Selected(r, s)
    ensures t.Add(r).At(s) == t.At(s)
  {
  }

  lemma AddCounted(t: Totals, r: Record)
    requires t.Counted()
    ensures t.Add(r).Counted()
  {
  }

  lemma AddAt(t: Totals, r: Record, s: string)
    requires t.Counted()
    ensures t.Add(r).Counted() && t.Add(r).At(s) == t.At(s).Plus(Tally(r, s))
  {
    hide Selected, Totals.Add, Totals.At, Totals.Counted;
    AddCounted(t, r);
    if Selected(r, s) { AddSelected(t, r, s); } else { AddOther(t, r, s); }
  }

  lemma MarginalSnoc(records: seq<Record>, i: nat, s: string)
    requires i < |records|
    ensures Marginal(records[..i + 1], s) == Marginal(records[..i], s).Plus(Tally(records[i], s))
  {
    assert records[..i + 1][..i] == records[..i];
  }

  /** Second pass: totals and wins per strategy. */
  method FoldByStrategy(records: seq<Record>) returns (t: Totals)
    ensures forall s :: t.At(s) == Marginal(records, s)
    ensures t.Counted()
  {
    hide Marginal, Tally, Totals.Add, Totals.At, Totals.Counted;
    t := Totals(map[], map[]);
    NothingCounted(t);
    assert records[..0] == [];
    for i := 0 to |records|
      invariant forall s :: t.At(s) == Marginal(records[..i], s)
      invariant t.Counted()
    {
      forall s ensures t.Add(records[i]).Counted() && t.Add(records[i]).At(s) == Marginal(records[..i + 1], s) {
        AddAt(t, records[i], s);
        MarginalSnoc(records, i, s);
      }
      assert t.Add(records[i]).At("") == Marginal(records[..i + 1], "");
      t := t.Add(records[i]);
    }
    assert records[..|records|] == records;
  }

  lemma NothingCounted(t: Totals)
    requires t == Totals(map[], map[])
    ensures t.Counted() && forall s :: t.At(s) == Marginal([], s)
  {
  }

  // ---------------------------------------------------------------- the counts agree

  ghost function SumOverClasses(classes: seq<string>, records: seq<Record>, strategy: string): Stats {
    if classes == [] then ZERO
    else SumOverClasses(classes[..|classes| - 1], records, strategy)
         .Plus(Joint(records, classes[|classes| - 1], strategy))
  }

  lemma {:induction false} OneMoreRecord(classes: seq<string>, records: seq<Record>, r: Record, strategy: string)
    requires Distinct(classes)
    ensures SumOverClasses(classes, records + [r], strategy) ==
            if r.taskClass in classes then SumOverClasses(classes, records, strategy).Plus(Tally(r, strategy))
            else SumOverClasses(classes, records, strategy)
  {
    if classes != [] {
      var n := |classes| - 1;
      OneMoreRecord(classes[..n], records, r, strategy);
      assert (records + [r])[..|records|] == records;
      assert classes == classes[..n] + [classes[n]];
      assert classes[n] !in classes[..n];
    }
  }

  lemma {:induction false} NoRecords(classes: seq<string>, strategy: string)
    ensures SumOverClasses(classes, [], strategy) == ZERO
  {
    if classes != [] { NoRecords(classes[..|classes| - 1], strategy); }
  }

  /**
    Conservation: summed over any duplicate-free list of classes that covers the buffer, the
    per-class totals and wins of a strategy are the strategy's own totals and wins.
   */
  lemma {:induction false} CountsAgree(classes: seq<string>, records: seq<Record>, strategy: string)
    requires Distinct(classes) && forall r :: r in records ==> r.taskClass in classes
    ensures SumOverClasses(classes, records, strategy) == Marginal(records, strategy)
  {
    if records == [] {
      NoRecords(classes, strategy);
    } else {
      var n := |records| - 1;
      assert records == records[..n] + [records[n]];
      CountsAgree(classes, records[..n], strategy);
      OneMoreRecord(classes, records[..n], records[n], strategy);
    }
  }

  // ---------------------------------------------------------------- the counts and the telemetry streams

  /** A strategy's total is its number of occurrences in the stream of selections. */
  lemma {:induction false} TotalsAreSelections(records: seq<Record>, s: string)
    requires s != ""
    ensures Marginal(records, s).total == Occurrences(Strategies(records), s)
  {
    hide Stream;
    if records == [] {
      NoSelections();
    } else {
      var n := |records| - 1;
      var h, r := records[..n], records[n];
      assert records == h + [r];
      TotalsAreSelections(h, s);
      StreamsGrow(h, r);
      if Chosen(r) {
        assert (Strategies(h) + [r.strategy.value])[..|Strategies(h)|] == Strategies(h);
      } else {
        assert Strategies(records) == Strategies(h);
      }
    }
  }

  lemma NoSelections()
    ensures Strategies([]) == []
  {
  }

  /** A class that always used one strategy: the pair's totals and wins are those of the class's own outcomes. */
  lemma {:induction false} SoleStrategyCounts(records: seq<Record>, cls: string, s: string)
    requires s != ""
    requires forall i :: 0 <= i < |records| && records[i].taskClass == cls ==> records[i].strategy == Some(s)
    ensures var outcomes := ForKey(Outcomes(records), cls);
      Joint(records, cls, s) == Stats(|outcomes|, |outcomes| - Misses(outcomes))
  {
    hide Outcomes, ForKey, Misses, Tally;
    if records == [] {
      NoOutcomes(cls);
    } else {
      var n := |records| - 1;
      var h, r := records[..n], records[n];
      SoleStrategyCounts(h, cls, s);
      OutcomesSnoc(records, cls);
      if r.taskClass == cls {
        MissesSnoc(ForKey(Outcomes(h), cls), r.outcome);
        TallyOf(r, s);
      } else {
        assert ForKey(Outcomes(h), cls) + [] == ForKey(Outcomes(h), cls);
      }
    }
  }

  lemma NoOutcomes(cls: string)
    ensures ForKey(Outcomes([]), cls) == [] && Misses([]) == 0
  {
  }

  lemma OutcomesSnoc(records: seq<Record>, cls: string)
    requires records != []
    ensures var n := |records| - 1;
      ForKey(Outcomes(records), cls) ==
      ForKey(Outcomes(records[..n]), cls) + if records[n].taskClass == cls then [records[n].outcome] else []
  {
    hide Stream;
    var n := |records| - 1;
    var h, r := records[..n], records[n];
    assert records == h + [r];
    StreamsGrow(h, r);
    ForKeySnoc(Outcomes(h), Event(r.taskClass, r.outcome), cls);
  }

  lemma MissesSnoc(outcomes: seq<TaskOutcome>, o: TaskOutcome)
    ensures Misses(outcomes + [o]) == Misses(outcomes) + if o != Success then 1 else 0
  {
    assert (outcomes + [o])[..|outcomes|] == outcomes;
  }

  lemma TallyOf(r: Record, s: string)
    requires s != "" && r.strategy == Some(s)
    ensures Tally(r, s) == Stats(1, if r.outcome == Success then 1 else 0)
  {
  }

  // ---------------------------------------------------------------- selection rates

  /** Records that name a strategy. */
  function CountChosen(records: seq<Record>): nat {
    if records == [] then 0
    else CountChosen(records[..|records| - 1]) + if Chosen(records[|records| - 1]) then 1 else 0
  }

  ghost function TotalOf(names: seq<string>, records: seq<Record>): nat {
    if names == [] then 0
    else TotalOf(names[..|names| - 1], records) + Marginal(records, names[|names| - 1]).total
  }

  lemma {:induction false} OneMoreChoice(names: seq<string>, records: seq<Record>, r: Record)
    requires Distinct(names)
    ensures TotalOf(names, records + [r]) ==
            TotalOf(names, records) + if Chosen(r) && r.strategy.value in names then 1 else 0
  {
    if names != [] {
      var n := |names| - 1;
      OneMoreChoice(names[..n], records, r);
      assert (records + [r])[..|records|] == records;
      assert names == names[..n] + [names[n]];
      assert names[n] !in names[..n];
    }
  }

  lemma {:induction false} NothingChosen(names: seq<string>)
    ensures TotalOf(names, []) == 0
  {
    if names != [] { NothingChosen(names[..|names| - 1]); }
  }

  /** The strategies' totals add up to the number of records that name one. */
  lemma {:induction false} TotalsAddUp(names: seq<string>, records: seq<Record>)
    requires Distinct(names) && forall r :: r in records && Chosen(r) ==> r.strategy.value in names
    ensures TotalOf(names, records) == CountChosen(records)
  {
    if records == [] {
      NothingChosen(names);
    } else {
      var n := |records| - 1;
      assert records == records[..n] + [records[n]];
      TotalsAddUp(names, records[..n]);
      OneMoreChoice(names, records[..n], records[n]);
    }
  }

  lemma {:induction false} ChosenIsCounted(records: seq<Record>, r: Record)
    requires r in records && Chosen(r)
    ensures Marginal(records, r.strategy.value).total > 0
  {
    var n := |records| - 1;
    if records[n] != r {
      assert records == records[..n] + [records[n]];
      ChosenIsCounted(records[..n], r);
    }
  }

  /** `names` lists the strategies on record, each once. */
  ghost predicate Lists(names: seq<string>, records: seq<Record>) {
    Distinct(names) && forall s :: s in names <==> Marginal(records, s).total > 0
  }

  lemma ListsAddUp(names: seq<string>, records: seq<Record>)
    requires Lists(names, records)
    ensures TotalOf(names, records) == CountChosen(records)
  {
    hide Marginal;
    forall r | r in records && Chosen(r) ensures r.strategy.value in names { ChosenIsCounted(records, r); }
    TotalsAddUp(names, records);
  }

  function Ratio(n: nat, d: nat): real
    requires d > 0
  {
    n as real / d as real
  }

  lemma RatioTimes(n: nat, d: nat)
    requires d > 0
    ensures Ratio(n, d) * d as real == n as real
  {
    DivMul(n as real, d as real);
  }

  /** `total / total_selections`, before rounding. */
  function SelectionRate(records: seq<Record>, strategy: string): real
    requires CountChosen(records) > 0
  {
    Ratio(Marginal(records, strategy).total, CountChosen(records))
  }

  ghost function SelectionRates(names: seq<string>, records: seq<Record>): (rates: seq<real>)
    requires CountChosen(records) > 0
    ensures |rates| == |names| && forall i :: 0 <= i < |names| ==> rates[i] == SelectionRate(records, names[i])
  {
    seq(|names|, i requires 0 <= i < |names| => SelectionRate(records, names[i]))
  }

  lemma Distribute(x: real, y: real, d: real)
    ensures (x + y) * d == x * d + y * d
  {
  }

  lemma {:induction false} RatesScale(names: seq<string>, records: seq<Record>)
    requires CountChosen(records) > 0
    ensures R.Scale(CountChosen(records) as real, R.Sum(SelectionRates(names, records))) == TotalOf(names, records) as real
  {
    hide Ratio, Marginal, CountChosen;
    if names != [] {
      var n, d := |names| - 1, CountChosen(records);
      var rates := SelectionRates(names, records);
      RatesScale(names[..n], records);
      assert rates[..n] == SelectionRates(names[..n], records);
      RatioTimes(Marginal(records, names[n]).total, d);
      assert R.Sum(rates) == R.Sum(rates[..n]) + rates[n];
      Distribute(R.Sum(rates[..n]), rates[n], d as real);
    }
  }

  /** As soon as one record names a strategy, the selection rates of the strategies on record sum to one. */
  lemma SelectionRatesSumToOne(names: seq<string>, records: seq<Record>)
    requires Lists(names, records) && CountChosen(records) > 0
    ensures R.Sum(SelectionRates(names, records)) == 1.0
  {
    hide Marginal, SelectionRate, R.Scale;
    ListsAddUp(names, records);
    RatesScale(names, records);
    UnitFactor(R.Sum(SelectionRates(names, records)), CountChosen(records));
  }

  lemma UnitFactor(x: real, n: nat)
    requires n > 0 && R.Scale(n as real, x) == n as real
    ensures x == 1.0
  {
    DivUnique(n as real, n as real, x);
    DivSelf(n as real);
  }

  // ---------------------------------------------------------------- best strategy

  function Rate(s: Stats): real
    requires s.total > 0
  {
    s.wins as real / s.total as real
  }

  ghost predicate Eligible(items: seq<(string, Stats)>, i: int) {
    0 <= i < |items| && items[i].1.total >= 3
  }

  /**
    A class's best strategy, over the dictionary's items in order: the first of those with at
    least three samples whose win rate is maximal; none just when no strategy has three samples.
   */
  method BestStrategy(items: seq<(string, Stats)>) returns (best: Option<string>, ghost b: nat)
    requires forall i :: 0 <= i < |items| ==> items[i].1.wins <= items[i].1.total
    ensures best.None? <==> forall i :: !Eligible(items, i)
    ensures best.Some? ==>
      && Eligible(items, b) && items[b].0 == best.value
      && (forall i :: Eligible(items, i) ==> Rate(items[i].1) <= Rate(items[b].1))
      && forall i :: i < b && Eligible(items, i) ==> Rate(items[i].1) < Rate(items[b].1)
  {
    best, b := None, 0;
    var bestRate := -1.0;
    for k := 0 to |items|
      invariant best.None? ==> bestRate == -1.0 && forall i :: i < k ==> !Eligible(items, i)
      invariant best.Some? ==>
        && b < k && Eligible(items, b) && items[b].0 == best.value && Rate(items[b].1) == bestRate
        && (forall i :: i < k && Eligible(items, i) ==> Rate(items[i].1) <= bestRate)
        && forall i :: i < b && Eligible(items, i) ==> Rate(items[i].1) < bestRate
    {
      if items[k].1.total >= 3 {
        assert Eligible(items, k);
        var rate := Rate(items[k].1);
        DivCompare(0.0, items[k].1.wins as real, items[k].1.total as real);
        if rate > bestRate {
          best, bestRate, b := Some(items[k].0), rate, k;
        }
      }
    }
  }

  /** Enough samples of a strategy within a class to judge it. */
  ghost predicate Sampled(records: seq<Record>, cls: string, s: string) {
    Joint(records, cls, s).total >= 3
  }

  ghost predicate NoWorse(records: seq<Record>, cls: string, s: string, t: string)
    requires Sampled(records, cls, s) && Sampled(records, cls, t)
  {
    Rate(Joint(records, cls, s)) <= Rate(Joint(records, cls, t))
  }

  /**
    What the records say of a class's best strategy: none just when none has three samples in the
    class; otherwise one of those with the highest win rate, and the first selected among equals.
   */
  ghost predicate BestFor(records: seq<Record>, cls: string, best: Option<string>) {
    match best
    case None => forall s :: !Sampled(records, cls, s)
    case Some(t) =>
      && Sampled(records, cls, t)
      && (forall s :: Sampled(records, cls, s) ==> NoWorse(records, cls, s, t))
      && forall s :: Sampled(records, cls, s) && Precedes(FirstSeen(records, cls), s, t) ==> !NoWorse(records, cls, t, s)
  }

  method BestInClass(ghost records: seq<Record>, stats: ClassStats, names: seq<string>, cls: string)
    returns (best: Option<string>)
    requires names == FirstSeen(records, cls) && forall s :: Entry(stats, cls, s) == Joint(records, cls, s)
    ensures BestFor(records, cls, best)
  {
    hide Joint, Entry, FirstSeen, Rate;
    var items := seq(|names|, i requires 0 <= i < |names| => (names[i], Entry(stats, cls, names[i])));
    ghost var b;
    best, b := BestStrategy(items);
    forall s | Sampled(records, cls, s) ensures exists i :: Eligible(items, i) && items[i].0 == s {
      assert s in names;
      var i :| 0 <= i < |names| && names[i] == s;
      assert Eligible(items, i);
    }
    if best.Some? {
      assert names[b] == best.value;
      forall k | 0 <= k < |names| && names[k] == best.value ensures k == b {}
    }
  }

  // ---------------------------------------------------------------- the snapshot

  datatype Capability = Capability(winRate: real, avgCost: real, sampleSize: nat, bestStrategy: Option<string>)

  datatype Effectiveness = Effectiveness(selectionRate: real, winRateWhenSelected: real, sampleSize: nat)

  /** The second half of a snapshot, read off the records. */
  ghost predicate Effective(records: seq<Record>, out: map<string, Effectiveness>) {
    && (forall s :: s in out <==> Marginal(records, s).total > 0)
    && forall s :: s in out ==>
         && CountChosen(records) > 0
         && out[s] == Effectiveness(SelectionRate(records, s), Rate(Marginal(records, s)), Marginal(records, s).total)
  }

  method SumTotals(t: Totals, ghost records: seq<Record>) returns (total: nat, ghost names: seq<string>)
    requires t.Counted() && forall s :: t.At(s) == Marginal(records, s)
    ensures total == CountChosen(records)
    ensures Lists(names, records) && ToSet(names) == t.totals.Keys
  {
    hide Marginal, CountChosen;
    total, names := 0, [];
    var keys := t.totals.Keys;
    while keys != {}
      invariant keys <= t.totals.Keys && ToSet(names) == t.totals.Keys - keys && Distinct(names)
      invariant total == TotalOf(names, records)
      decreases |keys|
    {
      var s :| s in keys;
      assert t.At(s).total == t.totals[s];
      assert (names + [s])[..|names|] == names;
      assert ToSet(names + [s]) == ToSet(names) + {s};
      keys, names, total := keys - {s}, names + [s], total + t.totals[s];
    }
    forall s ensures s in names <==> Marginal(records, s).total > 0 {
      assert s in names <==> s in ToSet(names);
      assert t.At(s) == Marginal(records, s);
    }
    ListsAddUp(names, records);
  }

  /** `strategy_effectiveness`: rates over all strategies on record, and they sum to one. */
  method StrategyEffectiveness(records: seq<Record>) returns (out: map<string, Effectiveness>, ghost names: seq<string>)
    ensures Effective(records, out) && Lists(names, records)
    ensures CountChosen(records) > 0 ==> R.Sum(SelectionRates(names, records)) == 1.0
  {
    hide Marginal, CountChosen, R.Sum, TotalOf, Rate, Ratio;
    var t := FoldByStrategy(records);
    var total;
    total, names := SumTotals(t, records);
    out := map[];
    var keys := t.totals.Keys;
    while keys != {}
      invariant keys <= t.totals.Keys && out.Keys == t.totals.Keys - keys
      invariant forall s :: s in out ==>
        && total > 0 && t.totals[s] > 0
        && out[s] == Effectiveness(Ratio(t.totals[s], total), Rate(Stats(t.totals[s], Get(t.wins, s))), t.totals[s])
      decreases |keys|
    {
      var s :| s in keys;
      keys := keys - {s};
      assert s in ToSet(names);
      TotalPositive(names, records, s);
      ListsAddUp(names, records);
      out := out[s := Effectiveness(Ratio(t.totals[s], total), Rate(Stats(t.totals[s], Get(t.wins, s))), t.totals[s])];
    }
    forall s ensures s in out <==> Marginal(records, s).total > 0 {
      assert s in names <==> s in ToSet(names);
    }
    forall s | s in out ensures Marginal(records, s) == Stats(t.totals[s], Get(t.wins, s)) {
      assert t.At(s) == Marginal(records, s);
    }
    if CountChosen(records) > 0 { SelectionRatesSumToOne(names, records); }
  }

  lemma {:induction false} TotalPositive(names: seq<string>, records: seq<Record>, s: string)
    requires s in names && Marginal(records, s).total > 0
    ensures TotalOf(names, records) > 0
  {
    var n := |names| - 1;
    if names[n] != s {
      assert names == names[..n] + [names[n]];
      TotalPositive(names[..n], records, s);
    }
  }

  /** The buffers a snapshot reads are windows of the history. */
  lemma RatedClasses(observer: TelemetryObserver, rates: map<string, real>)
    requires observer.Valid() && observer.WinRates(rates)
    ensures observer.recordsAll == LastN(observer.history, observer.limits.strategyBias)
    ensures forall c :: c in rates ==>
      c in observer.outcomesByClass && observer.outcomesByClass[c] == observer.OutcomeWindow(c)
  {
    hide R.Mean;
    WindowsHeld(observer.outcomesByClass, observer.limits.winRate, Outcomes(observer.history));
  }

  /**
    `self_model_snapshot`, on an observer in any reachable state: every class with a win rate has
    the best strategy of its own records, and the strategies' selection rates over the same
    records sum to one as soon as one has been recorded.
   */
  method Snapshot(observer: TelemetryObserver)
    returns (capabilities: map<string, Capability>, effectiveness: map<string, Effectiveness>, ghost names: seq<string>)
    requires observer.Valid()
    ensures observer.WinRates(map c | c in capabilities :: capabilities[c].winRate)
    ensures forall c :: c in capabilities ==>
      capabilities[c].sampleSize == |observer.OutcomeWindow(c)| && capabilities[c].avgCost == observer.AvgCost(c)
    ensures var records := LastN(observer.history, observer.limits.strategyBias);
      && (forall c :: c in capabilities ==> BestFor(records, c, capabilities[c].bestStrategy))
      && Effective(records, effectiveness) && Lists(names, records)
      && (CountChosen(records) > 0 ==> R.Sum(SelectionRates(names, records)) == 1.0)
  {
    hide BestFor, Effective, Lists, CountChosen, R.Sum, SelectionRates, Marginal, Joint, FirstSeen, Entry, Names;
    hide Telemetry.TelemetryObserver.Valid, Telemetry.TelemetryObserver.WinRates;
    hide Telemetry.TelemetryObserver.OutcomeWindow, Telemetry.TelemetryObserver.AvgCost;
    var records := observer.recordsAll;
    var rates := observer.WinRateByClass();
    RatedClasses(observer, rates);
    var costs := observer.AvgCostByClass();
    var stats, order := FoldByClass(records);
    effectiveness, names := StrategyEffectiveness(records);
    capabilities := map[];
    var keys := rates.Keys;
    while keys != {}
      invariant keys <= rates.Keys && capabilities.Keys == rates.Keys - keys
      invariant forall c :: c in capabilities ==>
        && capabilities[c].winRate == rates[c]
        && capabilities[c].sampleSize == |observer.OutcomeWindow(c)|
        && capabilities[c].avgCost == observer.AvgCost(c)
        && BestFor(records, c, capabilities[c].bestStrategy)
      decreases |keys|
    {
      var c :| c in keys;
      keys := keys - {c};
      var best := BestInClass(records, stats, Names(order, c), c);
      capabilities := capabilities[c := Capability(
        rates[c], if c in costs then costs[c] else 0.0, |observer.outcomesByClass[c]|, best)];
    }
    assert (map c | c in capabilities :: capabilities[c].winRate) == rates;
  }
}
