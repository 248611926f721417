/**
  The Adaptation Manager's deployments and circuit breaker (axis/adaptation.py).

  `Ledger` is the manager's state as a value; every run of deployments, ingested tasks and
  rollback checks is a sequence of events on it. The class below is the code, proved to take
  exactly those steps.
 */
module Adaptation {
  import opened Wrappers
  import opened Collections
  import opened Telemetry

  // ---------------------------------------------------------------- the ledger

  datatype DeploymentRecord = DeploymentRecord(
    target: Option<string>,
    threshold: real,
    winRateAtDeploy: real,
    tasksSinceDeploy: nat,
    rolledBack: bool,
    drop: Option<real>)

  datatype Config = Config(
    rollbackWindow: nat,
    circuitBreakerRollbacks: nat,
    circuitBreakerWindow: nat,
    conservativeDuration: nat)

  const DEFAULT: Config := Config(50, 3, 500, 1000)

  /** `rollbacks` holds the task counter at each rollback, oldest first. */
  datatype Ledger = Ledger(
    deployments: seq<DeploymentRecord>, rollbacks: seq<nat>, conservativeUntil: nat, tasks: nat)

  const INITIAL: Ledger := Ledger([], [], 0, 0)

  type Rates = map<string, real>

  /** How far a class's win rate has fallen since the deployment; a class without a rate has not. */
  function Drop(d: DeploymentRecord, rates: Rates): real {
    if d.target.Some? && d.target.value in rates then d.winRateAtDeploy - rates[d.target.value] else 0.0
  }

  /** Whether an active deployment's rollback trigger fires. */
  predicate Trips(d: DeploymentRecord, rates: Rates) {
    !d.rolledBack && d.target.Some? && Drop(d, rates) > d.threshold
  }

  function Checked(d: DeploymentRecord, rates: Rates, since: nat): DeploymentRecord {
    if d.rolledBack then d
    else if Trips(d, rates) then d.(tasksSinceDeploy := since, rolledBack := true, drop := Some(Drop(d, rates)))
    else d.(tasksSinceDeploy := since)
  }

  function CheckedAll(ds: seq<DeploymentRecord>, rates: Rates, since: nat): (r: seq<DeploymentRecord>)
    ensures |r| == |ds| && forall i :: 0 <= i < |ds| ==> r[i] == Checked(ds[i], rates, since)
  {
    seq(|ds|, i requires 0 <= i < |ds| => Checked(ds[i], rates, since))
  }

  function CountTrips(ds: seq<DeploymentRecord>, rates: Rates): nat {
    if ds == [] then 0
    else CountTrips(ds[..|ds| - 1], rates) + if Trips(ds[|ds| - 1], rates) then 1 else 0
  }

  function CountRolledBack(ds: seq<DeploymentRecord>): nat {
    if ds == [] then 0
    else CountRolledBack(ds[..|ds| - 1]) + if ds[|ds| - 1].rolledBack then 1 else 0
  }

  /** `tasks_since_deploy` as coded: the task counter itself, capped; the time of deployment is multiplied by 0. */
  function Since(tasks: nat, config: Config): nat {
    if tasks < config.rollbackWindow then tasks else config.rollbackWindow
  }

  /**
    `check_rollbacks`. The breaker counts every rollback ever recorded: the window of recent tasks
    appears in the code, but the comparison it stands in is always true.
   */
  function Check(l: Ledger, rates: Rates, config: Config): Ledger {
    var rollbacks := l.rollbacks + Repeated(l.tasks, CountTrips(l.deployments, rates));
    Ledger(CheckedAll(l.deployments, rates, Since(l.tasks, config)), rollbacks,
           if |rollbacks| >= config.circuitBreakerRollbacks then l.tasks + config.conservativeDuration else l.conservativeUntil,
           l.tasks)
  }

  /** `_is_in_conservative_mode` */
  predicate Conservative(l: Ledger) {
    l.tasks < l.conservativeUntil
  }

  // ---------------------------------------------------------------- runs

  datatype AdaptationEvent =
    | Deploy(target: Option<string>, threshold: real, winRate: real)
    | Ingest
    | CheckRollbacks(rates: Rates)

  function Step(l: Ledger, e: AdaptationEvent, config: Config): Ledger {
    match e
    case Deploy(target, threshold, winRate) =>
      l.(deployments := l.deployments + [DeploymentRecord(target, threshold, winRate, 0, false, None)])
    case Ingest => l.(tasks := l.tasks + 1)
    case CheckRollbacks(rates) => Check(l, rates, config)
  }

  function Run(l: Ledger, events: seq<AdaptationEvent>, config: Config): Ledger {
    if events == [] then l
    else Step(Run(l, events[..|events| - 1], config), events[|events| - 1], config)
  }

  function Ingested(events: seq<AdaptationEvent>): nat {
    if events == [] then 0
    else Ingested(events[..|events| - 1]) + if events[|events| - 1].Ingest? then 1 else 0
  }

  /** A rollback happens, and gives its reason, only on a drop above the threshold. */
  ghost predicate Justified(d: DeploymentRecord) {
    && (d.rolledBack <==> d.drop.Some?)
    && (d.drop.Some? ==> d.drop.value > d.threshold)
  }

  /** Rollbacks are recorded in task order, none ahead of the counter. */
  ghost predicate Stamped(rollbacks: seq<nat>, tasks: nat) {
    && (forall i :: 0 <= i < |rollbacks| ==> rollbacks[i] <= tasks)
    && forall i, j :: 0 <= i < j < |rollbacks| ==> rollbacks[i] <= rollbacks[j]
  }

  /** The recorded rollbacks are the rolled-back deployments, and the breaker never looks past its own duration. */
  ghost predicate Consistent(l: Ledger, config: Config) {
    && |l.rollbacks| == CountRolledBack(l.deployments)
    && l.conservativeUntil <= l.tasks + config.conservativeDuration
    && Stamped(l.rollbacks, l.tasks)
    && forall i :: 0 <= i < |l.deployments| ==> Justified(l.deployments[i])
  }

  /** The same deployment later on: its terms are fixed, and once rolled back it never changes again. */
  ghost predicate SameDeployment(d: DeploymentRecord, d': DeploymentRecord) {
    && d'.target == d.target && d'.threshold == d.threshold && d'.winRateAtDeploy == d.winRateAtDeploy
    && (d.rolledBack ==> d' == d)
  }

  /** `l'` keeps all of `l`'s deployments, undoes no rollback, and moves neither clock back. */
  ghost predicate Later(l: Ledger, l': Ledger) {
    && l.tasks <= l'.tasks && l.conservativeUntil <= l'.conservativeUntil
    && l.rollbacks <= l'.rollbacks
    && |l.deployments| <= |l'.deployments|
    && forall i :: 0 <= i < |l.deployments| ==> SameDeployment(l.deployments[i], l'.deployments[i])
  }

  lemma {:induction false} TripsAreNew(ds: seq<DeploymentRecord>, rates: Rates, since: nat)
    ensures CountRolledBack(CheckedAll(ds, rates, since)) == CountRolledBack(ds) + CountTrips(ds, rates)
  {
    if ds != [] {
      var n := |ds| - 1;
      TripsAreNew(ds[..n], rates, since);
      assert CheckedAll(ds, rates, since)[..n] == CheckedAll(ds[..n], rates, since);
    }
  }

  lemma StepKeeps(l: Ledger, e: AdaptationEvent, config: Config)
    requires Consistent(l, config)
    ensures Consistent(Step(l, e, config), config) && Later(l, Step(l, e, config))
  {
    hide Trips, Check, CountRolledBack;
    match e
    case Deploy(target, threshold, winRate) =>
      OneMoreDeployment(l.deployments, DeploymentRecord(target, threshold, winRate, 0, false, None));
    case Ingest =>
    case CheckRollbacks(rates) =>
      CheckKeeps(l, rates, config);
  }

  lemma OneMoreDeployment(ds: seq<DeploymentRecord>, d: DeploymentRecord)
    requires !d.rolledBack
    ensures CountRolledBack(ds + [d]) == CountRolledBack(ds)
  {
    assert (ds + [d])[..|ds|] == ds;
  }

  lemma CheckKeeps(l: Ledger, rates: Rates, config: Config)
    requires Consistent(l, config)
    ensures Consistent(Check(l, rates, config), config) && Later(l, Check(l, rates, config))
  {
    hide CountRolledBack, CountTrips, Since, Drop;
    TripsAreNew(l.deployments, rates, Since(l.tasks, config));
  }

  /**
    Over every run: the recorded rollbacks are as many as the rolled-back deployments; a deployment
    once rolled back stays as it is (it rolls back at most once); and the conservative-mode deadline
    never moves back.
   */
  lemma {:induction false} RunKeeps(l: Ledger, events: seq<AdaptationEvent>, config: Config)
    requires Consistent(l, config)
    ensures Consistent(Run(l, events, config), config) && Later(l, Run(l, events, config))
    ensures Run(l, events, config).tasks == l.tasks + Ingested(events)
  {
    hide Consistent, Later, Check;
    if events == [] {
      LaterReflexive(l);
    } else {
      var n := |events| - 1;
      RunKeeps(l, events[..n], config);
      StepKeeps(Run(l, events[..n], config), events[n], config);
      StepCounts(Run(l, events[..n], config), events[n], config);
      LaterTransitive(l, Run(l, events[..n], config), Run(l, events, config));
    }
  }

  lemma StepCounts(l: Ledger, e: AdaptationEvent, config: Config)
    ensures Step(l, e, config).tasks == l.tasks + if e.Ingest? then 1 else 0
  {
  }

  lemma LaterReflexive(l: Ledger)
    ensures Later(l, l)
  {
  }

  lemma LaterTransitive(a: Ledger, b: Ledger, c: Ledger)
    requires Later(a, b) && Later(b, c)
    ensures Later(a, c)
  {
  }

  /** From the start, every run is consistent. */
  lemma EveryRunIsConsistent(events: seq<AdaptationEvent>, config: Config)
    ensures Consistent(Run(INITIAL, events, config), config)
  {
    RunKeeps(INITIAL, events, config);
  }

  lemma {:induction false} RunConcat(l: Ledger, xs: seq<AdaptationEvent>, ys: seq<AdaptationEvent>, config: Config)
    ensures Run(l, xs + ys, config) == Run(Run(l, xs, config), ys, config)
  {
    hide Step;
    if ys == [] {
      assert xs + ys == xs;
    } else {
      RunConcat(l, xs, ys[..|ys| - 1], config);
      assert (xs + ys)[..|xs + ys| - 1] == xs + ys[..|ys| - 1];
    }
  }

  /**
    After a check every deployment still active has lost no more than its threshold, and one that
    has just rolled back had lost more, which is the drop on its record. A class without a win rate
    has lost nothing, and a deployment without a target never rolls back.
   */
  lemma CheckLeavesWithinThreshold(l: Ledger, rates: Rates, config: Config, i: nat)
    requires i < |l.deployments|
    ensures var d, d' := l.deployments[i], Check(l, rates, config).deployments[i];
      var lost := if d.target.Some? && d.target.value in rates then d.winRateAtDeploy - rates[d.target.value] else 0.0;
      && (!d'.rolledBack && d'.target.Some? ==> lost <= d'.threshold)
      && (d'.rolledBack && !d.rolledBack ==> d.target.Some? && lost > d.threshold && d'.drop == Some(lost))
      && (d.target.None? ==> d'.rolledBack == d.rolledBack)
      && (d.rolledBack ==> d' == d)
  {
    hide CountTrips;
  }

  // ---------------------------------------------------------------- the circuit breaker

  /**
    After any check that leaves enough rollbacks recorded, the manager stays in conservative mode
    for the whole configured duration, whatever else happens.
   */
  lemma BreakerHolds(l: Ledger, rates: Rates, events: seq<AdaptationEvent>, config: Config)
    requires Consistent(l, config)
    requires |Check(l, rates, config).rollbacks| >= config.circuitBreakerRollbacks
    requires Ingested(events) < config.conservativeDuration
    ensures Conservative(Run(Check(l, rates, config), events, config))
  {
    StepKeeps(l, CheckRollbacks(rates), config);
    RunKeeps(Check(l, rates, config), events, config);
  }

  /** A check ends in conservative mode just when the breaker trips or the mode was on already. */
  lemma CheckConservative(l: Ledger, rates: Rates, config: Config)
    requires Consistent(l, config)
    ensures var n := CountRolledBack(Check(l, rates, config).deployments);
      Conservative(Check(l, rates, config)) <==>
        (n >= config.circuitBreakerRollbacks && config.conservativeDuration > 0)
        || (n < config.circuitBreakerRollbacks && Conservative(l))
  {
    TripsAreNew(l.deployments, rates, Since(l.tasks, config));
  }

  /** Left alone (no further check), it leaves conservative mode exactly when that many tasks have come in. */
  lemma {:induction false} BreakerReleases(l: Ledger, rates: Rates, events: seq<AdaptationEvent>, config: Config)
    requires Consistent(l, config)
    requires |Check(l, rates, config).rollbacks| >= config.circuitBreakerRollbacks
    requires forall i :: 0 <= i < |events| ==> !events[i].CheckRollbacks?
    ensures Run(Check(l, rates, config), events, config).conservativeUntil == l.tasks + config.conservativeDuration
    ensures Run(Check(l, rates, config), events, config).tasks == l.tasks + Ingested(events)
    ensures Conservative(Run(Check(l, rates, config), events, config)) <==>
      Ingested(events) < config.conservativeDuration
  {
    if events != [] { BreakerReleases(l, rates, events[..|events| - 1], config); }
  }

  /**
    The breaker has no memory limit: once enough rollbacks have ever been recorded, each later check
    renews conservative mode, however many tasks ago the last rollback was.
   */
  lemma BreakerNeverForgets(l: Ledger, events: seq<AdaptationEvent>, rates: Rates, config: Config)
    requires Consistent(l, config) && |l.rollbacks| >= config.circuitBreakerRollbacks && config.conservativeDuration > 0
    ensures Conservative(Check(Run(l, events, config), rates, config))
  {
    RunKeeps(l, events, config);
  }

  /** How many rollbacks happened within the last `window` tasks. */
  function Recent(rollbacks: seq<nat>, tasks: nat, window: nat): nat {
    if rollbacks == [] then 0
    else Recent(rollbacks[..|rollbacks| - 1], tasks, window) + if tasks - rollbacks[|rollbacks| - 1] < window then 1 else 0
  }

  /** The documented rule: enough rollbacks within the window. */
  predicate DocumentedTrip(rollbacks: seq<nat>, tasks: nat, config: Config) {
    Recent(rollbacks, tasks, config.circuitBreakerWindow) >= config.circuitBreakerRollbacks
  }

  /** The rule as coded: enough rollbacks. */
  predicate CodedTrip(rollbacks: seq<nat>, config: Config) {
    |rollbacks| >= config.circuitBreakerRollbacks
  }

  lemma {:induction false} RecentAtMost(rollbacks: seq<nat>, tasks: nat, window: nat)
    ensures Recent(rollbacks, tasks, window) <= |rollbacks|
  {
    if rollbacks != [] { RecentAtMost(rollbacks[..|rollbacks| - 1], tasks, window); }
  }

  /** In task order the k latest rollbacks are recent just when the first of them is. */
  lemma {:induction false} RecentIff(rollbacks: seq<nat>, tasks: nat, window: nat, k: nat)
    requires Stamped(rollbacks, tasks)
    ensures Recent(rollbacks, tasks, window) >= k <==>
      k == 0 || (|rollbacks| >= k && tasks - rollbacks[|rollbacks| - k] < window)
  {
    RecentAtMost(rollbacks, tasks, window);
    if rollbacks != [] && k > 0 {
      var n := |rollbacks| - 1;
      RecentIff(rollbacks[..n], tasks, window, k - 1);
      RecentIff(rollbacks[..n], tasks, window, k);
    }
  }

  /**
    The code's breaker is the documented one exactly as long as fewer rollbacks than the limit are
    on record, or the earliest of the last `limit` ones lies within the window.
   */
  lemma BreakerAsDocumentedIff(l: Ledger, config: Config)
    requires Consistent(l, config)
    ensures var n, k := |l.rollbacks|, config.circuitBreakerRollbacks;
      (CodedTrip(l.rollbacks, config) <==> DocumentedTrip(l.rollbacks, l.tasks, config)) <==>
      (n < k || k == 0 || l.tasks - l.rollbacks[n - k] < config.circuitBreakerWindow)
  {
    RecentIff(l.rollbacks, l.tasks, config.circuitBreakerWindow, config.circuitBreakerRollbacks);
  }

  function Ingests(n: nat): seq<AdaptationEvent> {
    seq(n, _ => Ingest)
  }

  lemma {:induction false} RunIngests(l: Ledger, n: nat, config: Config)
    ensures Run(l, Ingests(n), config) == l.(tasks := l.tasks + n)
  {
    if n > 0 {
      RunIngests(l, n - 1, config);
      assert Ingests(n)[..n - 1] == Ingests(n - 1);
    }
  }

  /** Three deployments that all roll back at once, before any task. */
  function ThreeRollbacks(): seq<AdaptationEvent> {
    var deploy := Deploy(Some("c"), 0.05, 1.0);
    [deploy, deploy, deploy, CheckRollbacks(map["c" := 0.0])]
  }

  lemma RunThreeRollbacks()
    ensures var l := Run(INITIAL, ThreeRollbacks(), DEFAULT); l.rollbacks == [0, 0, 0] && l.tasks == 0
  {
    var events, rates: Rates := ThreeRollbacks(), map["c" := 0.0];
    var d := DeploymentRecord(Some("c"), 0.05, 1.0, 0, false, None);
    assert events[..3][..2][..1][..0] == [];
    assert events[..3][..2][..1] == events[..1] && events[..3][..2] == events[..2];
    assert Run(INITIAL, events[..1], DEFAULT) == INITIAL.(deployments := [d]);
    assert Run(INITIAL, events[..2], DEFAULT) == INITIAL.(deployments := [d, d]);
    var three := [d, d, d];
    assert Run(INITIAL, events[..3], DEFAULT) == INITIAL.(deployments := three);
    assert Trips(d, rates);
    assert [d][..0] == [] && [d, d][..1] == [d] && three[..2] == [d, d];
    assert CountTrips([d], rates) == 1;
    assert CountTrips([d, d], rates) == 2;
    assert CountTrips(three, rates) == 3;
  }

  /** A run where they part: 1500 tasks after the last rollback a check still renews conservative mode. */
  lemma OldRollbacksStillTrip()
    ensures var l := Run(INITIAL, ThreeRollbacks() + Ingests(1500), DEFAULT);
      && Recent(l.rollbacks, l.tasks, DEFAULT.circuitBreakerWindow) == 0
      && !Conservative(l) && Conservative(Step(l, CheckRollbacks(map[]), DEFAULT))
  {
    hide Run, Step, Check, Recent;
    RunThreeRollbacks();
    var start := Run(INITIAL, ThreeRollbacks(), DEFAULT);
    RunConcat(INITIAL, ThreeRollbacks(), Ingests(1500), DEFAULT);
    RunIngests(start, 1500, DEFAULT);
    var l := start.(tasks := 1500);
    EveryRunIsConsistent(ThreeRollbacks(), DEFAULT);
    EveryRunIsConsistent(ThreeRollbacks() + Ingests(1500), DEFAULT);
    RecentIff(l.rollbacks, 1500, 500, 1);
    BreakerNeverForgets(l, [], map[], DEFAULT);
    assert Run(l, [], DEFAULT) == l by { RunNothing(l, DEFAULT); }
    assert Step(l, CheckRollbacks(map[]), DEFAULT) == Check(l, map[], DEFAULT) by { StepChecks(l, map[], DEFAULT); }
  }

  lemma RunNothing(l: Ledger, config: Config)
    ensures Run(l, [], config) == l
  {
  }

  lemma StepChecks(l: Ledger, rates: Rates, config: Config)
    ensures Step(l, CheckRollbacks(rates), config) == Check(l, rates, config)
  {
  }

  // ---------------------------------------------------------------- the code

  class Deployment {
    const target: Option<string>
    const threshold: real
    const deployedAt: real
    const winRateAtDeploy: real
    var tasksSinceDeploy: nat
    var rolledBack: bool
    var drop: Option<real>

    constructor (target: Option<string>, threshold: real, winRate: real, now: real)
      ensures this.target == target && this.threshold == threshold && winRateAtDeploy == winRate && deployedAt == now
      ensures tasksSinceDeploy == 0 && !rolledBack && drop == None
    {
      this.target, this.threshold, this.winRateAtDeploy, deployedAt := target, threshold, winRate, now;
      tasksSinceDeploy, rolledBack, drop := 0, false, None;
    }

    function Record(): DeploymentRecord
      reads this
    {
      DeploymentRecord(target, threshold, winRateAtDeploy, tasksSinceDeploy, rolledBack, drop)
    }

    /** One deployment's turn in the loop: roll back if its win rate has dropped by more than the threshold. */
    method CheckTrigger(rates: Rates, since: nat) returns (tripped: bool)
      modifies this
      ensures tripped <==> Trips(old(Record()), rates)
      ensures Record() == Checked(old(Record()), rates, since)
      ensures tripped <==> rolledBack && !old(rolledBack)
    {
      tripped := false;
      if rolledBack { return; }
      tasksSinceDeploy := since;
      if target.None? { return; }
      var current := if target.value in rates then rates[target.value] else winRateAtDeploy;
      var fall := winRateAtDeploy - current;
      if fall > threshold {
        rolledBack, drop, tripped := true, Some(fall), true;
      }
    }
  }

  ghost function Records(ds: seq<Deployment>): (r: seq<DeploymentRecord>)
    reads ds
    ensures |r| == |ds| && forall i :: 0 <= i < |ds| ==> r[i] == ds[i].Record()
  {
    seq(|ds|, i requires 0 <= i < |ds| reads ds => ds[i].Record())
  }

  class AdaptationManager {
    const config: Config
    const observer: TelemetryObserver
    var deployments: seq<Deployment>

    /** `_rollbacks`: the time of each rollback. */
    var rollbacks: seq<real>
    var conservativeUntil: nat

    /** The task counter at each rollback. */
    ghost var rollbackTasks: seq<nat>

    ghost predicate Valid()
      reads this
    {
      && |rollbacks| == |rollbackTasks|
      && forall i, j :: 0 <= i < j < |deployments| ==> deployments[i] != deployments[j]
    }

    ghost function View(): Ledger
      reads this, deployments, observer
    {
      Ledger(Records(deployments), rollbackTasks, conservativeUntil, observer.tasksTotal)
    }

    constructor (config: Config, observer: TelemetryObserver)
      ensures Valid() && this.config == config && this.observer == observer
      ensures View() == INITIAL.(tasks := observer.tasksTotal)
    {
      this.config, this.observer := config, observer;
      deployments, rollbacks, conservativeUntil, rollbackTasks := [], [], 0, [];
    }

    /** The runtime's side of a run: a record goes to the observer, and the manager sees one more task. */
    method TaskIngested(record: Record)
      requires Valid() && observer.Valid()
      modifies observer
      ensures Valid() && observer.Valid() && observer.history == old(observer.history) + [record]
      ensures View() == Step(old(View()), Ingest, config)
    {
      hide Telemetry.TelemetryObserver.KeyedBuffers;
      observer.Ingest(record);
    }

    /** `deploy`: registered with the class's current win rate, 0 when there is none. */
    method RegisterDeployment(target: Option<string>, threshold: real, now: real) returns (d: Deployment, rates: Rates)
      requires Valid() && observer.Valid()
      modifies this`deployments
      ensures Valid() && fresh(d) && deployments == old(deployments) + [d] && d.deployedAt == now
      ensures observer.WinRates(rates)
      ensures View() == Step(old(View()), Deploy(target, threshold,
        if target.GetOr("") in rates then rates[target.GetOr("")] else 0.0), config)
    {
      hide Telemetry.TelemetryObserver.WinRates, Telemetry.TelemetryObserver.Valid;
      rates := observer.WinRateByClass();
      var name := target.GetOr("");
      d := new Deployment(target, threshold, if name in rates then rates[name] else 0.0, now);
      ghost var before := Records(deployments);
      deployments := deployments + [d];
      assert Records(deployments) == before + [d.Record()];
    }

    /** `check_rollbacks`, over the observer's current win rates; returns what has just rolled back. */
    method CheckAll(now: real) returns (rolled: seq<Deployment>, rates: Rates)
      requires Valid() && observer.Valid()
      modifies this`rollbacks, this`rollbackTasks, this`conservativeUntil, deployments
      ensures observer.WinRates(rates)
      ensures Valid() && View() == Step(old(View()), CheckRollbacks(rates), config)
      ensures |rolled| == |rollbacks| - |old(rollbacks)| && old(rollbacks) <= rollbacks
      ensures forall i :: |old(rollbacks)| <= i < |rollbacks| ==> rollbacks[i] == now
      ensures forall d :: d in rolled <==> d in deployments && d.rolledBack && !old(d.rolledBack)
    {
      hide Telemetry.TelemetryObserver.WinRates, Telemetry.TelemetryObserver.Valid;
      hide CountTrips, Trips, Checked, Since;
      rates := observer.WinRateByClass();
      rolled := Sweep(rates, Since(observer.tasksTotal, config), now);
      rollbackTasks := rollbackTasks + Repeated(observer.tasksTotal, |rolled|);
      if |rollbacks| >= config.circuitBreakerRollbacks {
        conservativeUntil := observer.tasksTotal + config.conservativeDuration;
      }
    }

    method Sweep(rates: Rates, since: nat, now: real) returns (rolled: seq<Deployment>)
      requires forall i, j :: 0 <= i < j < |deployments| ==> deployments[i] != deployments[j]
      modifies this`rollbacks, deployments
      ensures Records(deployments) == CheckedAll(old(Records(deployments)), rates, since)
      ensures rollbacks == old(rollbacks) + Repeated(now, |rolled|)
      ensures |rolled| == CountTrips(old(Records(deployments)), rates)
      ensures forall d :: d in rolled <==> d in deployments && d.rolledBack && !old(d.rolledBack)
    {
      hide CountRolledBack, CountTrips, Trips, Checked;
      rolled := [];
      ghost var start := Records(deployments);
      NoTrips(start[..0], rates);
      for k := 0 to |deployments|
        invariant forall i :: k <= i < |deployments| ==> unchanged(deployments[i])
        invariant forall i :: 0 <= i < k ==> deployments[i].Record() == Checked(start[i], rates, since)
        invariant |rolled| == CountTrips(start[..k], rates)
        invariant rollbacks == old(rollbacks) + Repeated(now, |rolled|)
        invariant forall d :: d in rolled <==> d in deployments[..k] && d.rolledBack && !old(d.rolledBack)
      {
        OneMoreTrip(start, k, rates);
        var d := deployments[k];
        assert start[k] == d.Record();
        var tripped := d.CheckTrigger(rates, since);
        if tripped {
          rollbacks := rollbacks + [now];
          rolled := rolled + [d];
        }
      }
      assert start[..|deployments|] == start;
    }
  }

  lemma NoTrips(ds: seq<DeploymentRecord>, rates: Rates)
    requires ds == []
    ensures CountTrips(ds, rates) == 0
  {
  }

  lemma OneMoreTrip(ds: seq<DeploymentRecord>, k: nat, rates: Rates)
    requires k < |ds|
    ensures CountTrips(ds[..k + 1], rates) == CountTrips(ds[..k], rates) + if Trips(ds[k], rates) then 1 else 0
  {
    assert ds[..k + 1][..k] == ds[..k];
  }
}
