/**
  The Telemetry Observer (axis/telemetry.py): ring buffers filled by `ingest`, and the metrics read
  off them. `Valid` ties every buffer to the full history of ingested records.
 */
module Telemetry {
  import opened Wrappers
  import opened PlanTypes
  import opened Reals
  import opened Statistics
  import opened Regression
  import opened Drift
  import opened Windows

  datatype Record = Record(
    taskClass: string,
    strategy: Option<string>,
    outcome: TaskOutcome,
    costTokens: int,
    latencyMs: int,
    toolCalls: seq<ToolCall>,
    replanningEvents: int,
    confidence: Option<real>,
    error: Option<string>)

  datatype FailureEntry = FailureEntry(taskClass: string, error: string, strategy: Option<string>)

  /** Window sizes; the defaults are those of `DEFAULT_WINDOWS`. */
  datatype Limits = Limits(
    winRate: nat, calibration: nat, strategyBias: nat, toolSuccess: nat,
    avgCost: nat, failures: nat, replanning: nat, latency: nat)

  const DEFAULT_LIMITS: Limits := Limits(100, 200, 500, 100, 100, 100, 200, 500)

  // ---------------------------------------------------------------- what a record contributes

  /** `x or "unknown"` */
  function OrUnknown(x: Option<string>): string {
    if x.Some? && x.value != "" then x.value else "unknown"
  }

  function Wins(o: TaskOutcome): real { if o == Success then 1.0 else 0.0 }

  function StrategyOf(r: Record): seq<string> {
    if r.strategy.Some? && r.strategy.value != "" then [r.strategy.value] else []
  }

  function CalibrationOf(r: Record): seq<(real, real)> {
    if r.confidence.Some? then [(r.confidence.value, Wins(r.outcome))] else []
  }

  function FailureOf(r: Record): seq<FailureEntry> {
    if r.outcome == Failure then [FailureEntry(r.taskClass, OrUnknown(r.error), r.strategy)] else []
  }

  function ToolsOf(calls: seq<ToolCall>): (r: seq<Event<bool>>)
    ensures |r| == |calls|
    ensures forall i :: 0 <= i < |calls| ==> r[i] == Event(OrUnknown(calls[i].tool), calls[i].success)
  {
    seq(|calls|, i requires 0 <= i < |calls| => Event(OrUnknown(calls[i].tool), calls[i].success))
  }

  function ErrorsOf(entries: seq<FailureEntry>): (r: seq<string>)
    ensures |r| == |entries| && forall i :: 0 <= i < |entries| ==> r[i] == entries[i].error
  {
    seq(|entries|, i requires 0 <= i < |entries| => entries[i].error)
  }

  /** `abs(p - a)`: how far a predicted confidence is from what happened. */
  function Miss(p: (real, real)): real {
    if p.0 >= p.1 then p.0 - p.1 else p.1 - p.0
  }

  lemma MeanBounds(s: seq<real>, lo: real, hi: real)
    requires s != [] && forall i :: 0 <= i < |s| ==> lo <= s[i] <= hi
    ensures lo <= Mean(s) <= hi
  {
    var n := |s| as real;
    SumBounds(s, lo, hi);
    DivCompare(lo * n, Sum(s), n);
    DivCompare(Sum(s), hi * n, n);
    DivUnique(lo * n, n, lo);
    DivUnique(hi * n, n, hi);
  }

  /** All contributions of a history, in order. */
  function Stream<T>(history: seq<Record>, f: Record -> seq<T>): seq<T> {
    if history == [] then [] else Stream(history[..|history| - 1], f) + f(history[|history| - 1])
  }

  lemma StreamSnoc<T>(history: seq<Record>, r: Record, f: Record -> seq<T>)
    ensures Stream(history + [r], f) == Stream(history, f) + f(r)
  {
    assert (history + [r])[..|history|] == history;
  }

  function Outcomes(history: seq<Record>): seq<Event<TaskOutcome>> {
    Stream(history, (r: Record) => [Event(r.taskClass, r.outcome)])
  }

  function Costs(history: seq<Record>): seq<Event<int>> {
    Stream(history, (r: Record) => [Event(r.taskClass, r.costTokens)])
  }

  function Latencies(history: seq<Record>): seq<Event<int>> {
    Stream(history, (r: Record) => [Event(r.taskClass, r.latencyMs)])
  }

  function Replannings(history: seq<Record>): seq<int> {
    Stream(history, (r: Record) => [r.replanningEvents])
  }

  function Strategies(history: seq<Record>): seq<string> {
    Stream(history, (r: Record) => StrategyOf(r))
  }

  function Calibrations(history: seq<Record>): seq<(real, real)> {
    Stream(history, (r: Record) => CalibrationOf(r))
  }

  function Failures(history: seq<Record>): seq<FailureEntry> {
    Stream(history, (r: Record) => FailureOf(r))
  }

  function ToolUses(history: seq<Record>): seq<Event<bool>> {
    Stream(history, (r: Record) => ToolsOf(r.toolCalls))
  }

  /** Every stream grows by the new record's contribution. */
  lemma StreamsGrow(h: seq<Record>, r: Record)
    ensures Outcomes(h + [r]) == Outcomes(h) + [Event(r.taskClass, r.outcome)]
    ensures Costs(h + [r]) == Costs(h) + [Event(r.taskClass, r.costTokens)]
    ensures Latencies(h + [r]) == Latencies(h) + [Event(r.taskClass, r.latencyMs)]
    ensures Replannings(h + [r]) == Replannings(h) + [r.replanningEvents]
    ensures Strategies(h + [r]) == Strategies(h) + StrategyOf(r)
    ensures Calibrations(h + [r]) == Calibrations(h) + CalibrationOf(r)
    ensures Failures(h + [r]) == Failures(h) + FailureOf(r)
    ensures ToolUses(h + [r]) == ToolUses(h) + ToolsOf(r.toolCalls)
  {
    StreamSnoc(h, r, (r: Record) => [Event(r.taskClass, r.outcome)]);
    StreamSnoc(h, r, (r: Record) => [Event(r.taskClass, r.costTokens)]);
    StreamSnoc(h, r, (r: Record) => [Event(r.taskClass, r.latencyMs)]);
    StreamSnoc(h, r, (r: Record) => [r.replanningEvents]);
    StreamSnoc(h, r, (r: Record) => StrategyOf(r));
    StreamSnoc(h, r, (r: Record) => CalibrationOf(r));
    StreamSnoc(h, r, (r: Record) => FailureOf(r));
    StreamSnoc(h, r, (r: Record) => ToolsOf(r.toolCalls));
  }

  // ---------------------------------------------------------------- the observer

  class TelemetryObserver {
    const limits: Limits
    var tasksTotal: nat
    var recordsAll: seq<Record>
    var outcomesByClass: map<string, seq<TaskOutcome>>
    var costsByClass: map<string, seq<int>>
    var latencyByClass: map<string, seq<int>>
    var replanningEvents: seq<int>
    var calibrationPairs: seq<(real, real)>
    var strategySelections: seq<string>
    var failures: seq<FailureEntry>
    var toolUsage: map<string, seq<bool>>

    /** Every record ever ingested, oldest first. */
    ghost var history: seq<Record>

    ghost predicate SingleBuffers()
      reads this
    {
      && tasksTotal == |history|
      && recordsAll == LastN(history, limits.strategyBias)
      && replanningEvents == LastN(Replannings(history), limits.replanning)
      && calibrationPairs == LastN(Calibrations(history), limits.calibration)
      && strategySelections == LastN(Strategies(history), limits.strategyBias)
      && failures == LastN(Failures(history), limits.failures)
    }

    ghost predicate KeyedBuffers()
      reads this
    {
      && Keyed(outcomesByClass, limits.winRate, Outcomes(history))
      && Keyed(costsByClass, limits.avgCost, Costs(history))
      && Keyed(latencyByClass, limits.latency, Latencies(history))
      && Keyed(toolUsage, limits.toolSuccess, ToolUses(history))
    }

    /** Every buffer is the window of its stream. */
    ghost predicate Valid()
      reads this
    {
      SingleBuffers() && KeyedBuffers()
    }

    constructor (limits: Limits)
      ensures Valid() && this.limits == limits && history == []
    {
      this.limits := limits;
      tasksTotal, recordsAll, replanningEvents, calibrationPairs := 0, [], [], [];
      strategySelections, failures, history := [], [], [];
      outcomesByClass, costsByClass, latencyByClass, toolUsage := map[], map[], map[], map[];
    }

    method IngestTools(calls: seq<ToolCall>)
      requires Keyed(toolUsage, limits.toolSuccess, ToolUses(history))
      modifies this`toolUsage
      ensures Keyed(toolUsage, limits.toolSuccess, ToolUses(history) + ToolsOf(calls))
    {
      hide Keyed, PushKeyed, ToolUses;
      ghost var events := ToolUses(history);
      assert events + ToolsOf(calls)[..0] == events;
      for i := 0 to |calls|
        invariant Keyed(toolUsage, limits.toolSuccess, events + ToolsOf(calls)[..i])
      {
        var tool := OrUnknown(calls[i].tool);
        PushKeyedKeeps(toolUsage, limits.toolSuccess, events + ToolsOf(calls)[..i], tool, calls[i].success);
        assert events + ToolsOf(calls)[..i + 1] == events + ToolsOf(calls)[..i] + [Event(tool, calls[i].success)];
        toolUsage := PushKeyed(toolUsage, tool, limits.toolSuccess, calls[i].success);
      }
      assert ToolsOf(calls)[..|calls|] == ToolsOf(calls);
    }

    method IngestSingle(record: Record)
      requires SingleBuffers()
      modifies this`tasksTotal, this`recordsAll, this`replanningEvents, this`strategySelections,
               this`calibrationPairs, this`failures
      ensures tasksTotal == |history| + 1
      ensures recordsAll == LastN(history + [record], limits.strategyBias)
      ensures replanningEvents == LastN(Replannings(history) + [record.replanningEvents], limits.replanning)
      ensures calibrationPairs == LastN(Calibrations(history) + CalibrationOf(record), limits.calibration)
      ensures strategySelections == LastN(Strategies(history) + StrategyOf(record), limits.strategyBias)
      ensures failures == LastN(Failures(history) + FailureOf(record), limits.failures)
    {
      hide LastN, Stream;
      tasksTotal := tasksTotal + 1;
      PushLastN(history, limits.strategyBias, record);
      recordsAll := Push(recordsAll, limits.strategyBias, record);
      PushLastN(Replannings(history), limits.replanning, record.replanningEvents);
      replanningEvents := Push(replanningEvents, limits.replanning, record.replanningEvents);
      if record.strategy.Some? && record.strategy.value != "" {
        PushLastN(Strategies(history), limits.strategyBias, record.strategy.value);
        strategySelections := Push(strategySelections, limits.strategyBias, record.strategy.value);
      } else {
        assert Strategies(history) + StrategyOf(record) == Strategies(history);
      }
      if record.confidence.Some? {
        var pair := (record.confidence.value, Wins(record.outcome));
        PushLastN(Calibrations(history), limits.calibration, pair);
        calibrationPairs := Push(calibrationPairs, limits.calibration, pair);
      } else {
        assert Calibrations(history) + CalibrationOf(record) == Calibrations(history);
      }
      if record.outcome == Failure {
        var entry := FailureEntry(record.taskClass, OrUnknown(record.error), record.strategy);
        PushLastN(Failures(history), limits.failures, entry);
        failures := Push(failures, limits.failures, entry);
      } else {
        assert Failures(history) + FailureOf(record) == Failures(history);
      }
    }

    /** `ingest`: one more record, and every buffer is again the window of its stream. */
    method Ingest(record: Record)
      requires Valid()
      modifies this
      ensures Valid() && history == old(history) + [record]
    {
      hide Keyed, PushKeyed, Stream, LastN;
      StreamsGrow(history, record);
      var cls := record.taskClass;
      PushKeyedKeeps(outcomesByClass, limits.winRate, Outcomes(history), cls, record.outcome);
      PushKeyedKeeps(costsByClass, limits.avgCost, Costs(history), cls, record.costTokens);
      PushKeyedKeeps(latencyByClass, limits.latency, Latencies(history), cls, record.latencyMs);
      IngestSingle(record);
      outcomesByClass := PushKeyed(outcomesByClass, cls, limits.winRate, record.outcome);
      costsByClass := PushKeyed(costsByClass, cls, limits.avgCost, record.costTokens);
      latencyByClass := PushKeyed(latencyByClass, cls, limits.latency, record.latencyMs);
      IngestTools(record.toolCalls);
      history := history + [record];
    }

    // -------------------------------------------------------------- derived metrics

    /** The last N outcomes of a class, over the whole history. */
    ghost function OutcomeWindow(c: string): seq<TaskOutcome>
      reads this
    {
      LastN(ForKey(Outcomes(history), c), limits.winRate)
    }

    ghost function LatencyWindow(c: string): seq<int>
      reads this
    {
      LastN(ForKey(Latencies(history), c), limits.latency)
    }

    /** A class's win rate is the success rate among the last N of that class's records. */
    ghost predicate WinRates(out: map<string, real>)
      reads this
    {
      && (forall c :: c in out <==> limits.winRate > 0 && ForKey(Outcomes(history), c) != [])
      && forall c :: c in out ==>
           && LastN(ForKey(Outcomes(history), c), limits.winRate) != []
           && out[c] == Mean(Scores(LastN(ForKey(Outcomes(history), c), limits.winRate), o => Wins(o)))
    }

    method WinRateByClass() returns (out: map<string, real>)
      requires Valid()
      ensures WinRates(out)
    {
      out := MeanByKey(outcomesByClass, (o: TaskOutcome) => Wins(o));
      WindowNonEmpty(outcomesByClass, limits.winRate, Outcomes(history));
    }

    /** The mean cost of a class's last N records, 0 when there are none. */
    ghost function AvgCost(c: string): real
      reads this
    {
      var window := LastN(ForKey(Costs(history), c), limits.avgCost);
      if window == [] then 0.0 else Mean(Scores(window, (x: int) => x as real))
    }

    method AvgCostByClass() returns (out: map<string, real>)
      requires Valid()
      ensures forall c :: c in out <==> limits.avgCost > 0 && ForKey(Costs(history), c) != []
      ensures forall c :: (if c in out then out[c] else 0.0) == AvgCost(c)
    {
      out := MeanByKey(costsByClass, (x: int) => x as real);
      WindowNonEmpty(costsByClass, limits.avgCost, Costs(history));
    }

    method ToolSuccessRate() returns (out: map<string, real>)
      requires Valid()
      ensures forall t :: t in out <==> limits.toolSuccess > 0 && ForKey(ToolUses(history), t) != []
      ensures forall t :: t in out ==>
        LastN(ForKey(ToolUses(history), t), limits.toolSuccess) != [] &&
        out[t] == Mean(Scores(LastN(ForKey(ToolUses(history), t), limits.toolSuccess), b => if b then 1.0 else 0.0))
    {
      out := MeanByKey(toolUsage, (b: bool) => if b then 1.0 else 0.0);
      WindowNonEmpty(toolUsage, limits.toolSuccess, ToolUses(history));
    }

    /** Each strategy's share of the last N selections. */
    method StrategyBias() returns (out: map<string, real>)
      requires Valid()
      ensures var window := LastN(Strategies(history), limits.strategyBias);
        forall x :: (x in out <==> x in window)
                 && (x in out ==> out[x] == Occurrences(window, x) as real / |window| as real)
    {
      out := ShareByValue(strategySelections);
    }

    /** Each error's share of the last N failures. */
    method FailureModeFrequency() returns (out: map<string, real>)
      requires Valid()
      ensures var window := ErrorsOf(LastN(Failures(history), limits.failures));
        forall x :: (x in out <==> x in window)
                 && (x in out ==> out[x] == Occurrences(window, x) as real / |window| as real)
    {
      out := ShareByValue(ErrorsOf(failures));
    }

    /** The mean distance between predicted confidence and result, over the last N predictions. */
    function CalibrationError(): (r: Option<real>)
      requires Valid()
      reads this
      ensures var window := LastN(Calibrations(history), limits.calibration);
        if window == [] then r == None else r == Some(MeanMiss(window)) && (Confidences(window) ==> 0.0 <= r.value <= 1.0)
    {
      if calibrationPairs == [] then None
      else
        MissBounds(history, limits.calibration);
        Some(MeanMiss(calibrationPairs))
    }

    /** The share of the last N tasks that were replanned. */
    function ReplanningRate(): (r: Option<real>)
      requires Valid()
      reads this
      ensures var window := LastN(Replannings(history), limits.replanning);
        if window == [] then r == None else r == Some(PositiveShare(window)) && 0.0 <= r.value <= 1.0
    {
      if replanningEvents == [] then None
      else
        ShareBounds(replanningEvents);
        Some(PositiveShare(replanningEvents))
    }

    // -------------------------------------------------------------- latency percentiles

    method LatencyDistribution() returns (out: map<string, Distribution>)
      requires Valid()
      ensures forall c :: c in out <==> LatencyWindow(c) != []
      ensures forall c :: c in out ==> LatencyWindow(c) != [] && out[c] == Describe(LatencyWindow(c))
      ensures forall c :: c in out ==> out[c].p50 <= out[c].p90 <= out[c].p95 <= out[c].p99
    {
      hide Describe;
      WindowsHeld(latencyByClass, limits.latency, Latencies(history));
      out := map[];
      var keys := latencyByClass.Keys;
      while keys != {}
        invariant keys <= latencyByClass.Keys
        invariant forall c :: c in out <==> c in latencyByClass && c !in keys && latencyByClass[c] != []
        invariant forall c :: c in out ==> out[c] == Describe(latencyByClass[c])
        decreases |keys|
      {
        var c :| c in keys;
        keys := keys - {c};
        if latencyByClass[c] != [] { out := out[c := Describe(latencyByClass[c])]; }
      }
      forall c | c in out ensures out[c].p50 <= out[c].p90 <= out[c].p95 <= out[c].p99 {
        PercentilesOrdered(latencyByClass[c]);
      }
    }

    // -------------------------------------------------------------- drift

    /**
      `drift_flags`: exactly the classes whose win rate, or whose latency, has drifted within the
      window of their history; a class that collapsed is always among them at the defaults.
     */
    method DriftFlags(recentN: nat, z: real) returns (winRate: set<string>, latency: set<string>)
      requires Valid()
      ensures forall c :: c in winRate <==> WinRateDrifts(OutcomeWindow(c), recentN, z)
      ensures forall c :: c in latency <==> LatencyDrifts(LatencyWindow(c), recentN, z)
      ensures z >= 0.0 ==> forall c :: c in winRate <==> WinRateMoved(OutcomeWindow(c), recentN, z)
      ensures z >= 0.0 ==> forall c :: c in latency <==> LatencyMoved(LatencyWindow(c), recentN, z)
      ensures recentN == 10 && z == 2.0 ==> forall c :: Collapsed(OutcomeWindow(c), 10) ==> c in winRate
    {
      hide WinRateDrifts, WinRateMoved, LatencyDrifts, LatencyMoved, Collapsed, Keyed;
      WindowsHeld(outcomesByClass, limits.winRate, Outcomes(history));
      WindowsHeld(latencyByClass, limits.latency, Latencies(history));
      winRate := DriftingKeys(outcomesByClass, (o: seq<TaskOutcome>) => WinRateDrifts(o, recentN, z));
      latency := DriftingKeys(latencyByClass, (l: seq<int>) => LatencyDrifts(l, recentN, z));
      NothingDrifts(recentN, z);
      forall c | z >= 0.0 ensures WinRateDrifts(OutcomeWindow(c), recentN, z) <==> WinRateMoved(OutcomeWindow(c), recentN, z) {
        WinRateDriftsInCounts(OutcomeWindow(c), recentN, z);
      }
      forall c | z >= 0.0 ensures LatencyDrifts(LatencyWindow(c), recentN, z) <==> LatencyMoved(LatencyWindow(c), recentN, z) {
        LatencyDriftsInSums(LatencyWindow(c), recentN, z);
      }
      forall c | Collapsed(OutcomeWindow(c), 10) ensures WinRateDrifts(OutcomeWindow(c), 10, 2.0) {
        CollapseDriftsAtDefaults(OutcomeWindow(c));
      }
    }

    /** One of the two loops of `drift_flags`. */
    static method DriftingKeys<T>(buffers: map<string, seq<T>>, drifts: seq<T> -> bool) returns (flags: set<string>)
      ensures forall c :: c in flags <==> c in buffers && drifts(buffers[c])
    {
      flags := {};
      var keys := buffers.Keys;
      while keys != {}
        invariant keys <= buffers.Keys
        invariant forall c :: c in flags <==> c in buffers && c !in keys && drifts(buffers[c])
        decreases |keys|
      {
        var c :| c in keys;
        keys := keys - {c};
        if drifts(buffers[c]) { flags := flags + {c}; }
      }
    }
  }

  lemma WindowNonEmpty<T(!new)>(buffers: map<string, seq<T>>, n: nat, events: seq<Event<T>>)
    requires Keyed(buffers, n, events)
    ensures forall k :: (k in buffers && buffers[k] != []) <==> n > 0 && ForKey(events, k) != []
    ensures forall k :: k in buffers ==> buffers[k] == LastN(ForKey(events, k), n)
  {
  }

  /** Every key seen holds its window; the window of any other key is empty. */
  lemma WindowsHeld<T(!new)>(buffers: map<string, seq<T>>, n: nat, events: seq<Event<T>>)
    requires Keyed(buffers, n, events)
    ensures forall k :: k in buffers ==> buffers[k] == LastN(ForKey(events, k), n)
    ensures forall k :: k !in buffers ==> LastN(ForKey(events, k), n) == []
  {
  }

  // ---------------------------------------------------------------- calibration and replanning

  function MeanMiss(pairs: seq<(real, real)>): real
    requires pairs != []
  {
    Mean(Scores(pairs, (p: (real, real)) => Miss(p)))
  }

  function PositiveShare(events: seq<int>): real
    requires events != []
  {
    Mean(Scores(events, (n: int) => if n > 0 then 1.0 else 0.0))
  }

  /** Predicted confidences between 0 and 1. */
  ghost predicate Confidences(pairs: seq<(real, real)>) {
    forall i :: 0 <= i < |pairs| ==> 0.0 <= pairs[i].0 <= 1.0
  }

  lemma {:induction false} ResultsAreBinary(history: seq<Record>)
    ensures forall i :: 0 <= i < |Calibrations(history)| ==> 0.0 <= Calibrations(history)[i].1 <= 1.0
  {
    if history != [] {
      var n := |history| - 1;
      ResultsAreBinary(history[..n]);
      assert history == history[..n] + [history[n]];
      StreamsGrow(history[..n], history[n]);
    }
  }

  /** Confidences between 0 and 1 miss the result by at most 1 on average. */
  lemma MissBounds(history: seq<Record>, n: nat)
    ensures var window := LastN(Calibrations(history), n);
      window != [] && Confidences(window) ==> 0.0 <= MeanMiss(window) <= 1.0
  {
    hide Mean, Calibrations;
    var window := LastN(Calibrations(history), n);
    ResultsAreBinary(history);
    if window != [] && Confidences(window) {
      MeanBounds(Scores(window, (p: (real, real)) => Miss(p)), 0.0, 1.0);
    }
  }

  lemma ShareBounds(events: seq<int>)
    requires events != []
    ensures 0.0 <= PositiveShare(events) <= 1.0
  {
    MeanBounds(Scores(events, (n: int) => if n > 0 then 1.0 else 0.0), 0.0, 1.0);
  }

  /** Four streams have one event for each record, in order: its own class with its own outcome, cost and latency. */
  lemma {:induction false} OneEventPerRecord(history: seq<Record>, i: nat)
    requires i < |history|
    ensures |Outcomes(history)| == |Costs(history)| == |Latencies(history)| == |Replannings(history)| == |history|
    ensures var r := history[i];
      && Outcomes(history)[i].key == Costs(history)[i].key == Latencies(history)[i].key == r.taskClass
      && Outcomes(history)[i].value == r.outcome
      && Costs(history)[i].value == r.costTokens
      && Latencies(history)[i].value == r.latencyMs
      && Replannings(history)[i] == r.replanningEvents
  {
    hide Stream;
    var n := |history| - 1;
    assert history == history[..n] + [history[n]];
    StreamsGrow(history[..n], history[n]);
    if n == 0 {
      assert history[..n] == [];
      NoStreams();
    } else {
      OneEventPerRecord(history[..n], if i < n then i else 0);
    }
  }

  // ---------------------------------------------------------------- the streams agree

  function CountFailures(outcomes: seq<TaskOutcome>): nat {
    if outcomes == [] then 0
    else CountFailures(outcomes[..|outcomes| - 1]) + if outcomes[|outcomes| - 1] == Failure then 1 else 0
  }

  function CountEntries(entries: seq<FailureEntry>, c: string): nat {
    if entries == [] then 0
    else CountEntries(entries[..|entries| - 1], c) + if entries[|entries| - 1].taskClass == c then 1 else 0
  }

  /** Over every history, a class has as many failure entries as failures among its outcomes. */
  lemma {:induction false} FailuresConserved(history: seq<Record>, c: string)
    ensures CountEntries(Failures(history), c) == CountFailures(ForKey(Outcomes(history), c))
  {
    hide Stream, OrUnknown;
    if history == [] {
      NoStreams();
    } else {
      var n := |history| - 1;
      var h, r := history[..n], history[n];
      assert history == h + [r];
      FailuresConserved(h, c);
      StreamsGrow(h, r);
      ForKeySnoc(Outcomes(h), Event(r.taskClass, r.outcome), c);
      var outcomes := ForKey(Outcomes(h), c);
      assert (outcomes + [r.outcome])[..|outcomes|] == outcomes;
      if r.outcome == Failure {
        var entry := FailureEntry(r.taskClass, OrUnknown(r.error), r.strategy);
        assert (Failures(h) + [entry])[..|Failures(h)|] == Failures(h);
      } else {
        assert Failures(history) == Failures(h);
      }
    }
  }

  lemma NoStreams()
    ensures Costs([]) == [] && Latencies([]) == [] && Replannings([]) == []
    ensures Failures([]) == [] && Outcomes([]) == [] && Calibrations([]) == [] && ToolUses([]) == []
  {
  }

  /** No failure goes without a name. */
  lemma {:induction false} FailuresAreNamed(history: seq<Record>)
    ensures forall i :: 0 <= i < |Failures(history)| ==> Failures(history)[i].error != ""
  {
    hide Stream;
    if history == [] {
      NoStreams();
    } else {
      var n := |history| - 1;
      assert history == history[..n] + [history[n]];
      FailuresAreNamed(history[..n]);
      StreamsGrow(history[..n], history[n]);
    }
  }

  function CountSuccesses(history: seq<Record>): nat {
    if history == [] then 0
    else CountSuccesses(history[..|history| - 1]) + if history[|history| - 1].outcome == Success then 1 else 0
  }

  /**
    When every task was predicted with certainty to succeed, there is a prediction for each task and
    the misses add up to the tasks that did not succeed.
   */
  lemma {:induction false} CertaintyMissesFailures(history: seq<Record>)
    requires forall i :: 0 <= i < |history| ==> history[i].confidence == Some(1.0)
    ensures |Calibrations(history)| == |history|
    ensures Sum(Scores(Calibrations(history), (p: (real, real)) => Miss(p))) == (|history| - CountSuccesses(history)) as real
  {
    hide Stream;
    if history == [] {
      NoStreams();
    } else {
      var n := |history| - 1;
      var h, r := history[..n], history[n];
      assert history == h + [r];
      CertaintyMissesFailures(h);
      StreamsGrow(h, r);
      var pairs := Calibrations(h);
      var pair := (1.0, Wins(r.outcome));
      assert Calibrations(history) == pairs + [pair];
      MissesSnoc(pairs, pair);
    }
  }

  lemma MissesSnoc(pairs: seq<(real, real)>, pair: (real, real))
    ensures Sum(Scores(pairs + [pair], (p: (real, real)) => Miss(p))) ==
            Sum(Scores(pairs, (p: (real, real)) => Miss(p))) + Miss(pair)
  {
    var s, t := Scores(pairs + [pair], (p: (real, real)) => Miss(p)), Scores(pairs, (p: (real, real)) => Miss(p));
    assert s[..|pairs|] == t;
  }

  // ---------------------------------------------------------------- percentiles of a buffer

  datatype Distribution = Distribution(p50: real, p90: real, p95: real, p99: real, count: nat)

  function Insert(x: real, s: seq<real>): seq<real> {
    if s == [] || x <= s[0] then [x] + s else [s[0]] + Insert(x, s[1..])
  }

  lemma SortedCons(x: real, s: seq<real>)
    requires Sorted(s) && (s == [] || x <= s[0])
    ensures Sorted([x] + s)
  {
    var r := [x] + s;
    forall i, j | 0 <= i <= j < |r| ensures r[i] <= r[j] {
      if j > 0 { assert s[0] <= s[j - 1]; }
    }
  }

  lemma {:induction false} InsertFacts(x: real, s: seq<real>)
    requires Sorted(s)
    ensures var r := Insert(x, s);
      && Sorted(r) && multiset(r) == multiset(s) + multiset{x}
      && |r| == |s| + 1 && r[0] == if s == [] || x <= s[0] then x else s[0]
  {
    if s == [] || x <= s[0] {
      SortedCons(x, s);
    } else {
      assert s == [s[0]] + s[1..];
      InsertFacts(x, s[1..]);
      SortedCons(s[0], Insert(x, s[1..]));
    }
  }

  /** `sorted(...)` of a list of integers, as reals. */
  function SortedReals(s: seq<int>): (r: seq<real>)
    ensures Sorted(r) && |r| == |s| && multiset(r) == multiset(Scores(s, (x: int) => x as real))
  {
    if s == [] then []
    else
      var n := |s| - 1;
      assert Scores(s, (x: int) => x as real) == Scores(s[..n], (x: int) => x as real) + [s[n] as real];
      InsertFacts(s[n] as real, SortedReals(s[..n]));
      Insert(s[n] as real, SortedReals(s[..n]))
  }

  function Describe(latencies: seq<int>): Distribution
    requires latencies != []
  {
    var s := SortedReals(latencies);
    Distribution(Percentile(s, 0.50).value, Percentile(s, 0.90).value, Percentile(s, 0.95).value,
                 Percentile(s, 0.99).value, |s|)
  }

  /** p50, p90, p95 and p99 never fall, and lie between the smallest and largest latency. */
  lemma PercentilesOrdered(latencies: seq<int>)
    requires latencies != []
    ensures var d, s := Describe(latencies), SortedReals(latencies);
      s[0] <= d.p50 <= d.p90 <= d.p95 <= d.p99 <= s[|s| - 1] && d.count == |latencies|
  {
    hide Percentile;
    var s := SortedReals(latencies);
    PercentileMonotone(s, 0.50, 0.90);
    PercentileMonotone(s, 0.90, 0.95);
    PercentileMonotone(s, 0.95, 0.99);
  }

  lemma {:induction false} InsertLargest(x: real, s: seq<real>)
    requires forall i :: 0 <= i < |s| ==> s[i] < x
    ensures Insert(x, s) == s + [x]
  {
    if s == [] {
      assert s + [x] == [x] + s;
    } else {
      InsertLargest(x, s[1..]);
      assert s == [s[0]] + s[1..];
    }
  }

  lemma SortedSnoc(s: seq<int>)
    requires s != []
    ensures SortedReals(s) == Insert(s[|s| - 1] as real, SortedReals(s[..|s| - 1]))
  {
    hide Insert, Scores;
  }

  /** Latencies that rise one after the other are sorted already. */
  lemma {:induction false} RisingIsSorted(s: seq<int>)
    requires forall i, j :: 0 <= i < j < |s| ==> s[i] < s[j]
    ensures var r := SortedReals(s); |r| == |s| && forall i :: 0 <= i < |s| ==> r[i] == s[i] as real
  {
    hide SortedReals, Insert, Scores;
    if s != [] {
      var n := |s| - 1;
      var front := SortedReals(s[..n]);
      RisingIsSorted(s[..n]);
      forall i | 0 <= i < |front| ensures front[i] < s[n] as real { assert s[i] < s[n]; }
      InsertLargest(s[n] as real, front);
      SortedSnoc(s);
    }
  }

  lemma StepOfLine(s: seq<real>, a: int, d: int, q: real, k: nat)
    requires |s| == 101 && 0.0 <= q <= 1.0 && k as real == q * 100.0
    requires forall i :: 0 <= i < 101 ==> s[i] == (a + d * i) as real
    ensures Percentile(s, q) == Ok((a + d * k) as real)
  {
    hide Percentile;
    forall i | 0 <= i < 101 ensures s[i] == a as real + d as real * i as real { AsReals(a, d, i); }
    PercentileOfLine(s, a as real, d as real, q, k as real);
    AsReals(a, d, k);
  }

  lemma AsReals(a: int, d: int, i: int)
    ensures (a + d * i) as real == a as real + d as real * i as real
  {
  }

  lemma LineRises(s: seq<int>, a: int, d: int)
    requires d > 0 && forall i :: 0 <= i < |s| ==> s[i] == a + d * i
    ensures forall i, j :: 0 <= i < j < |s| ==> s[i] < s[j]
  {
    forall i, j | 0 <= i < j < |s| ensures s[i] < s[j] { assert d * (j - i) > 0; }
  }

  /** Which percentiles are reported: over 101 evenly spaced latencies, those at 50, 90, 95 and 99 steps. */
  lemma HundredSteps(latencies: seq<int>, a: int, d: int)
    requires d > 0 && |latencies| == 101 && forall i :: 0 <= i < 101 ==> latencies[i] == a + d * i
    ensures Describe(latencies) == Distribution(
      (a + d * 50) as real, (a + d * 90) as real, (a + d * 95) as real, (a + d * 99) as real, 101)
  {
    hide Percentile;
    LineRises(latencies, a, d);
    RisingIsSorted(latencies);
    var s := SortedReals(latencies);
    StepOfLine(s, a, d, 0.50, 50);
    StepOfLine(s, a, d, 0.90, 90);
    StepOfLine(s, a, d, 0.95, 95);
    StepOfLine(s, a, d, 0.99, 99);
  }

  // ---------------------------------------------------------------- drift of a buffer

  /** `values[:-n]` and `values[-n:]`; with n == 0 Python's `-0` makes the first empty and the second everything. */
  function Head<T>(s: seq<T>, n: nat): seq<T>
    requires n <= |s|
  {
    if n == 0 then [] else s[..|s| - n]
  }

  function Tail<T>(s: seq<T>, n: nat): seq<T>
    requires n <= |s|
  {
    if n == 0 then s else s[|s| - n..]
  }

  predicate WinRateDrifts(outcomes: seq<TaskOutcome>, recentN: nat, z: real) {
    && |outcomes| >= 2 * recentN
    && var values := Scores(outcomes, (o: TaskOutcome) => Wins(o));
       TwoProportionDrift(Head(values, recentN), Tail(values, recentN), z)
  }

  predicate LatencyDrifts(latencies: seq<int>, recentN: nat, z: real) {
    && |latencies| >= 2 * recentN
    && var values := Scores(latencies, (x: int) => x as real);
       MeanDrift(Head(values, recentN), Tail(values, recentN), z)
  }

  lemma NothingDrifts(recentN: nat, z: real)
    ensures !WinRateDrifts([], recentN, z) && !LatencyDrifts([], recentN, z)
  {
  }

  /** Only successes up to the last `n` outcomes. */
  ghost predicate Spotless(outcomes: seq<TaskOutcome>, n: nat) {
    |outcomes| >= 2 * n && forall i :: 0 <= i < |outcomes| - n ==> outcomes[i] == Success
  }

  /** Only successes, then `n` tasks without one. */
  ghost predicate Collapsed(outcomes: seq<TaskOutcome>, n: nat) {
    Spotless(outcomes, n) && forall i :: |outcomes| - n <= i < |outcomes| ==> outcomes[i] != Success
  }

  function Misses(outcomes: seq<TaskOutcome>): (d: nat)
    ensures d <= |outcomes|
  {
    if outcomes == [] then 0
    else Misses(outcomes[..|outcomes| - 1]) + if outcomes[|outcomes| - 1] != Success then 1 else 0
  }

  lemma {:induction false} MissesDiffer(outcomes: seq<TaskOutcome>)
    ensures Differing(Scores(outcomes, (o: TaskOutcome) => Wins(o)), 1.0) == Misses(outcomes)
  {
    if outcomes != [] {
      var n, values := |outcomes| - 1, Scores(outcomes, (o: TaskOutcome) => Wins(o));
      MissesDiffer(outcomes[..n]);
      assert values[..n] == Scores(outcomes[..n], (o: TaskOutcome) => Wins(o));
    }
  }

  lemma {:induction false} AllMiss(outcomes: seq<TaskOutcome>)
    requires forall i :: 0 <= i < |outcomes| ==> outcomes[i] != Success
    ensures Misses(outcomes) == |outcomes|
  {
    if outcomes != [] { AllMiss(outcomes[..|outcomes| - 1]); }
  }

  /** A class without a miss up to its last `recentN` outcomes is flagged just when enough of those missed. */
  lemma SpotlessClassDrifts(outcomes: seq<TaskOutcome>, recentN: nat, z: real)
    requires recentN >= 1 && Spotless(outcomes, recentN)
    ensures WinRateDrifts(outcomes, recentN, z) <==>
      Flagged(|outcomes| - recentN, recentN, Misses(Tail(outcomes, recentN)), z)
  {
    hide TwoProportionDrift, Flagged, Differing, Misses;
    var values, tail := Scores(outcomes, (o: TaskOutcome) => Wins(o)), Tail(outcomes, recentN);
    assert Tail(values, recentN) == Scores(tail, (o: TaskOutcome) => Wins(o));
    AllSuccessBaseline(Head(values, recentN), Tail(values, recentN), z);
    MissesDiffer(tail);
  }

  /** A collapsed class is flagged just when z squared is below the window's length. */
  lemma CollapsedClassIsFlagged(outcomes: seq<TaskOutcome>, recentN: nat, z: real)
    requires recentN >= 1 && Collapsed(outcomes, recentN)
    ensures WinRateDrifts(outcomes, recentN, z) <==> z < 0.0 || z * z < |outcomes| as real
  {
    var values := Scores(outcomes, (o: TaskOutcome) => Wins(o));
    var b, r := |outcomes| - recentN, recentN;
    assert Head(values, recentN) == Repeat(1.0, b);
    assert Tail(values, recentN) == Repeat(0.0, r);
    CollapseIsFlagged(b, r, z);
  }

  lemma CollapseDriftsAtDefaults(outcomes: seq<TaskOutcome>)
    requires Collapsed(outcomes, 10)
    ensures WinRateDrifts(outcomes, 10, 2.0)
  {
    hide WinRateDrifts;
    CollapsedClassIsFlagged(outcomes, 10, 2.0);
  }

  /**
    With the default windows and detector (last 10 samples, two standard errors): a class of at
    least 20 tasks, none of whose last ten succeeded and all of whose other tasks within the last
    hundred did, is flagged.
   */
  lemma CollapseFlaggedByDefault(history: seq<Record>, c: string)
    requires var s := ForKey(Outcomes(history), c);
      && |s| >= 20
      && (forall i :: |s| - 10 <= i < |s| ==> s[i] != Success)
      && forall i :: 0 <= i < |s| - 10 && |s| - 100 <= i ==> s[i] == Success
    ensures WinRateDrifts(LastN(ForKey(Outcomes(history), c), DEFAULT_LIMITS.winRate), 10, 2.0)
  {
    hide WinRateDrifts, ForKey, Outcomes;
    var s := ForKey(Outcomes(history), c);
    var w := LastN(s, 100);
    forall i | 0 <= i < |w| ensures w[i] == s[|s| - |w| + i] {}
    CollapseDriftsAtDefaults(w);
  }

  /** The win-rate verdict in counts: successes before and within the last `recentN` outcomes, compared either way. */
  predicate WinRateMoved(outcomes: seq<TaskOutcome>, recentN: nat, z: real) {
    && recentN >= 1 && |outcomes| >= 2 * recentN
    && var head, tail := Head(outcomes, recentN), Tail(outcomes, recentN);
       var n1, n2, k1, k2 := |head| as real, |tail| as real, Hits(head) as real, Hits(tail) as real;
       GapExceeds(n1, n2, k1, k2, z) || GapExceeds(n2, n1, k2, k1, z)
  }

  function Hits(outcomes: seq<TaskOutcome>): nat {
    |outcomes| - Misses(outcomes)
  }

  lemma WinRateDriftsInCounts(outcomes: seq<TaskOutcome>, recentN: nat, z: real)
    requires z >= 0.0
    ensures WinRateDrifts(outcomes, recentN, z) <==> WinRateMoved(outcomes, recentN, z)
  {
    hide Regressed, GapExceeds, Mean, Misses, Differing, Counts, TwoProportionDrift, Sum;
    if recentN == 0 {
      NothingRecent(outcomes, z);
    } else if |outcomes| >= 2 * recentN {
      var values := Scores(outcomes, (o: TaskOutcome) => Wins(o));
      var head, tail := Head(outcomes, recentN), Tail(outcomes, recentN);
      assert Head(values, recentN) == Scores(head, (o: TaskOutcome) => Wins(o));
      assert Tail(values, recentN) == Scores(tail, (o: TaskOutcome) => Wins(o));
      HitsAreSums(head);
      HitsAreSums(tail);
      DriftIsRegression(Head(values, recentN), Tail(values, recentN), z);
      RegressedInCounts(Head(values, recentN), Tail(values, recentN), z);
      RegressedInCounts(Tail(values, recentN), Head(values, recentN), z);
    }
  }

  lemma NothingRecent(outcomes: seq<TaskOutcome>, z: real)
    ensures !WinRateDrifts(outcomes, 0, z)
  {
  }

  lemma HitsAreSums(outcomes: seq<TaskOutcome>)
    ensures Sum(Scores(outcomes, (o: TaskOutcome) => Wins(o))) == Hits(outcomes) as real
  {
    hide Sum, Misses, Differing;
    MissesDiffer(outcomes);
    SumOfBinary(Scores(outcomes, (o: TaskOutcome) => Wins(o)));
  }

  /** The latency verdict in sums and sums of squares of the two parts of a buffer. */
  predicate LatencyMoved(latencies: seq<int>, recentN: nat, z: real) {
    && recentN >= 2 && |latencies| >= 2 * recentN
    && var values := Scores(latencies, (x: int) => x as real);
       GapTooWide(Head(values, recentN), Tail(values, recentN), z)
  }

  lemma LatencyDriftsInSums(latencies: seq<int>, recentN: nat, z: real)
    requires z >= 0.0
    ensures LatencyDrifts(latencies, recentN, z) <==> LatencyMoved(latencies, recentN, z)
  {
    hide Mean, Variance, GapTooWide;
    if recentN >= 2 && |latencies| >= 2 * recentN {
      var values := Scores(latencies, (x: int) => x as real);
      MeanDriftInSums(Head(values, recentN), Tail(values, recentN), z);
    }
  }

  /** A class whose latency was steady and then steady at another level is flagged, at any threshold; at the same level it never is. */
  lemma LevelChangeDrifts(latencies: seq<int>, recentN: nat, x: int, y: int, z: real)
    requires recentN >= 2 && |latencies| >= 2 * recentN
    requires forall i :: 0 <= i < |latencies| - recentN ==> latencies[i] == x
    requires forall i :: |latencies| - recentN <= i < |latencies| ==> latencies[i] == y
    ensures LatencyDrifts(latencies, recentN, z) <==> x != y
  {
    hide MeanDrift;
    var values := Scores(latencies, (v: int) => v as real);
    ConstantSamplesDrift(Head(values, recentN), Tail(values, recentN), x as real, y as real, z);
  }

  /** A constant change in all of a class's latencies changes no latency flag. */
  lemma LatencyShiftInvariant(latencies: seq<int>, c: int, recentN: nat, z: real)
    ensures LatencyDrifts(seq(|latencies|, i requires 0 <= i < |latencies| => latencies[i] + c), recentN, z)
        <==> LatencyDrifts(latencies, recentN, z)
  {
    var shifted := seq(|latencies|, i requires 0 <= i < |latencies| => latencies[i] + c);
    if |latencies| >= 2 * recentN {
      var v, w := Scores(latencies, (x: int) => x as real), Scores(shifted, (x: int) => x as real);
      assert Head(w, recentN) == Shifted(Head(v, recentN), c as real);
      assert Tail(w, recentN) == Shifted(Tail(v, recentN), c as real);
      MeanDriftShiftInvariant(Head(v, recentN), Tail(v, recentN), c as real, z);
    }
  }
}
