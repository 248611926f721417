/**
  The forgetting engine (axis/memory/forgetting.py): compress stale episodes, archive decayed
  entities, retire weak idle procedures, and evict the least valuable episodes over the budget.
 */
module Forgetting {
  import opened Collections
  import opened PlanTypes
  import opened Reals
  import opened Episodic
  import opened Procedural

  datatype Policy = Policy(
    episodicStaleAge: real,
    semanticDecayFloor: real,
    minSuccessRate: real,
    idleRetire: real,
    episodicMax: nat,
    recencyWeight: real,
    frequencyWeight: real,
    utilityWeight: real,
    uniquenessWeight: real)

  const DAY: real := 86400.0

  const DEFAULT: Policy := Policy(30.0 * DAY, 0.1, 0.5, 14.0 * DAY, 5000, 0.25, 0.25, 0.35, 0.15)

  // ---------------------------------------------------------------- the value function

  /** Ages below one second count as one second. */
  function Age(timestamp: real, now: real): (age: real)
    ensures age >= 1.0
  {
    if now - timestamp >= 1.0 then now - timestamp else 1.0
  }

  function Recency(timestamp: real, now: real): real {
    1.0 / (1.0 + Age(timestamp, now) / DAY)
  }

  /** `_episode_value`: higher means keep. */
  function Value(p: Policy, timestamp: real, outcome: TaskOutcome, now: real): real {
    p.recencyWeight * Recency(timestamp, now)
    + p.frequencyWeight * 0.0
    + p.utilityWeight * (if outcome == Success then 1.0 else 0.4)
    + p.uniquenessWeight * 1.0
  }

  lemma RecencyOrder(t: real, t': real, now: real)
    ensures Recency(t, now) < Recency(t', now) <==> Age(t', now) < Age(t, now)
    ensures Recency(t, now) == Recency(t', now) <==> Age(t', now) == Age(t, now)
  {
    var x, x' := 1.0 + Age(t, now) / DAY, 1.0 + Age(t', now) / DAY;
    DivCompare(Age(t, now), Age(t', now), DAY);
    DivCompare(Age(t', now), Age(t, now), DAY);
    if x' < x { ReciprocalDrops(x', x); }
    if x < x' { ReciprocalDrops(x, x'); }
  }

  lemma ReciprocalDrops(x: real, y: real)
    requires 0.0 < x < y
    ensures 1.0 / y < 1.0 / x
  {
    DivMul(1.0, x);
    DivMul(1.0, y);
    if 1.0 / x <= 1.0 / y {
      MulMonotone(1.0 / x, 1.0 / y, x);
      MulStrict(x, y, 1.0 / y);
    }
  }

  /** Within one outcome class the values are apart by the recency weight times the difference in recency. */
  lemma ValueMeansAge(p: Policy, t: real, t': real, outcome: TaskOutcome, outcome': TaskOutcome, now: real)
    requires outcome == Success <==> outcome' == Success
    ensures var v, v', a, a' := Value(p, t, outcome, now), Value(p, t', outcome', now), Age(t, now), Age(t', now);
      && (v == v' <==> p.recencyWeight == 0.0 || a == a')
      && (v < v' <==> (p.recencyWeight > 0.0 && a' < a) || (p.recencyWeight < 0.0 && a < a'))
  {
    hide Recency;
    RecencyOrder(t, t', now);
    RecencyOrder(t', t, now);
    var r, r', w := Recency(t, now), Recency(t', now), p.recencyWeight;
    assert Value(p, t, outcome, now) - Value(p, t', outcome', now) == w * r - w * r';
    WeightedOrder(w, r, r');
  }

  lemma WeightedOrder(w: real, r: real, r': real)
    ensures w * r == w * r' <==> w == 0.0 || r == r'
    ensures w * r < w * r' <==> (w > 0.0 && r < r') || (w < 0.0 && r' < r)
  {
    assert w * r - w * r' == w * (r - r');
    if w > 0.0 && r < r' { MulPositive(w, r' - r); }
    if w > 0.0 && r' < r { MulPositive(w, r - r'); }
    if w < 0.0 && r < r' { MulPositive(-w, r' - r); }
    if w < 0.0 && r' < r { MulPositive(-w, r - r'); }
  }

  // ---------------------------------------------------------------- the eviction order

  /** Position `i` is evicted before position `j`: lower value, or the same value and earlier in the list. */
  predicate Before(values: seq<real>, i: nat, j: nat)
    requires i < |values| && j < |values|
  {
    values[i] < values[j] || (values[i] == values[j] && i < j)
  }

  ghost predicate Positions(order: seq<nat>, n: nat) {
    forall k :: 0 <= k < |order| ==> order[k] < n
  }

  ghost predicate Ordered(values: seq<real>, order: seq<nat>)
    requires Positions(order, |values|)
  {
    forall a, b :: 0 <= a < b < |order| ==> Before(values, order[a], order[b])
  }

  /** Insert the newest position after everything of at most its value. */
  function Place(values: seq<real>, order: seq<nat>, i: nat): seq<nat>
    requires i < |values| && Positions(order, |values|)
  {
    if order == [] then [i]
    else
      var last := order[|order| - 1];
      if values[last] <= values[i] then order + [i]
      else Place(values, order[..|order| - 1], i) + [last]
  }

  lemma OrderedSnoc(values: seq<real>, order: seq<nat>, x: nat)
    requires Positions(order, |values|) && x < |values| && Ordered(values, order)
    requires forall a :: 0 <= a < |order| ==> Before(values, order[a], x)
    ensures Positions(order + [x], |values|) && Ordered(values, order + [x])
  {
  }

  lemma {:induction false} PlaceMembers(values: seq<real>, order: seq<nat>, i: nat)
    requires i < |values| && Positions(order, |values|)
    ensures var r := Place(values, order, i);
      |r| == |order| + 1 && forall a :: 0 <= a < |r| ==> r[a] == i || r[a] in order
    ensures i in Place(values, order, i) && forall a :: 0 <= a < |order| ==> order[a] in Place(values, order, i)
  {
    if order != [] {
      PlaceMembers(values, order[..|order| - 1], i);
    }
  }

  lemma {:induction false} PlaceOrdered(values: seq<real>, order: seq<nat>, i: nat)
    requires i < |values| && Positions(order, i) && Ordered(values, order)
    ensures Positions(Place(values, order, i), |values|) && Ordered(values, Place(values, order, i))
  {
    if order != [] {
      var n := |order| - 1;
      if values[order[n]] > values[i] {
        PlaceOrdered(values, order[..n], i);
        PlaceMembers(values, order[..n], i);
        var r := Place(values, order[..n], i);
        forall a | 0 <= a < |r| ensures Before(values, r[a], order[n]) {
          if r[a] != i {
            var b :| 0 <= b < n && order[..n][b] == r[a];
            assert Before(values, order[b], order[n]);
          }
        }
        OrderedSnoc(values, r, order[n]);
      } else {
        forall a | 0 <= a < |order| ensures Before(values, order[a], i) {
          assert a < n ==> Before(values, order[a], order[n]);
        }
        OrderedSnoc(values, order, i);
      }
    }
  }

  lemma {:induction false} PlacePositions(values: seq<real>, order: seq<nat>, i: nat)
    requires i < |values| && Positions(order, i)
    ensures Positions(Place(values, order, i), i + 1) && |Place(values, order, i)| == |order| + 1
  {
    if order != [] { PlacePositions(values, order[..|order| - 1], i); }
  }

  /** Python's stable `sorted(..., key=value)`, as positions. */
  function StableOrder(values: seq<real>, n: nat := |values|): (order: seq<nat>)
    requires n <= |values|
    ensures Positions(order, n) && |order| == n
  {
    if n == 0 then []
    else
      PlacePositions(values, StableOrder(values, n - 1), n - 1);
      Place(values, StableOrder(values, n - 1), n - 1)
  }

  /** It is in order and lists every position. */
  lemma {:induction false} StableOrderFacts(values: seq<real>, n: nat)
    requires n <= |values|
    ensures Ordered(values, StableOrder(values, n))
    ensures forall x: nat :: x < n ==> x in StableOrder(values, n)
  {
    hide Place, Before;
    if n > 0 {
      var order := StableOrder(values, n - 1);
      StableOrderFacts(values, n - 1);
      PlaceOrdered(values, order, n - 1);
      PlaceMembers(values, order, n - 1);
      var placed := Place(values, order, n - 1);
      forall x: nat | x < n ensures x in placed {
        if x < n - 1 {
          assert x in order;
          var a :| 0 <= a < |order| && order[a] == x;
        }
      }
    }
  }

  function Values(p: Policy, episodes: seq<Episode>, now: real): (v: seq<real>)
    ensures |v| == |episodes|
    ensures forall i :: 0 <= i < |episodes| ==> v[i] == Value(p, episodes[i].timestamp, episodes[i].outcome, now)
  {
    seq(|episodes|, i requires 0 <= i < |episodes| => Value(p, episodes[i].timestamp, episodes[i].outcome, now))
  }

  function IdsAt(episodes: seq<Episode>, order: seq<nat>): (ids: seq<Id>)
    requires Positions(order, |episodes|)
    ensures |ids| == |order| && forall k :: 0 <= k < |order| ==> ids[k] == episodes[order[k]].episodeId
  {
    seq(|order|, k requires 0 <= k < |order| => episodes[order[k]].episodeId)
  }

  /** The positions evicted to bring `episodes` down to the budget. */
  function EvictionOrder(p: Policy, episodes: seq<Episode>, now: real): (order: seq<nat>)
    ensures Positions(order, |episodes|)
    ensures |order| == if |episodes| > p.episodicMax then |episodes| - p.episodicMax else 0
  {
    if |episodes| > p.episodicMax
    then StableOrder(Values(p, episodes, now))[..|episodes| - p.episodicMax]
    else []
  }

  /** What is left of the episodic store after a run. */
  function Survivors(p: Policy, episodes: seq<Episode>, now: real): seq<Episode> {
    Without(episodes, ToSet(IdsAt(episodes, EvictionOrder(p, episodes, now))))
  }

  lemma StableOrderDistinct(values: seq<real>)
    ensures Distinct(StableOrder(values))
  {
    var order := StableOrder(values);
    StableOrderFacts(values, |values|);
    forall a, b | 0 <= a < b < |order| ensures order[a] != order[b] {
      assert Before(values, order[a], order[b]);
    }
  }

  lemma IdsAtDistinct(episodes: seq<Episode>, order: seq<nat>)
    requires Distinct(EpisodeIds(episodes)) && Positions(order, |episodes|) && Distinct(order)
    ensures Distinct(IdsAt(episodes, order))
    ensures forall x :: x in IdsAt(episodes, order) ==> x in EpisodeIds(episodes)
  {
    var ids := EpisodeIds(episodes);
    forall a, b | 0 <= a < b < |order| ensures IdsAt(episodes, order)[a] != IdsAt(episodes, order)[b] {
      assert order[a] != order[b];
      assert ids[order[a]] != ids[order[b]];
    }
    forall k | 0 <= k < |order| ensures IdsAt(episodes, order)[k] in ids {
      assert ids[order[k]] == IdsAt(episodes, order)[k];
    }
  }

  lemma EvictionDistinct(p: Policy, episodes: seq<Episode>, now: real)
    ensures Distinct(EvictionOrder(p, episodes, now))
  {
    StableOrderDistinct(Values(p, episodes, now));
  }

  /** The store shrinks to the smaller of its size and the budget. */
  lemma SurvivorCount(p: Policy, episodes: seq<Episode>, now: real)
    requires Distinct(EpisodeIds(episodes))
    ensures |Survivors(p, episodes, now)| == if |episodes| <= p.episodicMax then |episodes| else p.episodicMax
  {
    hide EvictionOrder;
    var order := EvictionOrder(p, episodes, now);
    EvictionDistinct(p, episodes, now);
    IdsAtDistinct(episodes, order);
    var ids := IdsAt(episodes, order);
    DistinctCard(ids);
    assert forall x :: x in ToSet(ids) ==> x in ids;
    WithoutLength(episodes, ToSet(ids));
  }

  ghost predicate Evicted(p: Policy, episodes: seq<Episode>, now: real, i: nat) {
    i in EvictionOrder(p, episodes, now)
  }

  /** An evicted position comes before every surviving one in the eviction order. */
  lemma EvictedBefore(p: Policy, episodes: seq<Episode>, now: real, i: nat, j: nat)
    requires i < |episodes| && j < |episodes|
    requires Evicted(p, episodes, now, i) && !Evicted(p, episodes, now, j)
    ensures Before(Values(p, episodes, now), i, j)
  {
    var values := Values(p, episodes, now);
    var order := StableOrder(values);
    StableOrderFacts(values, |values|);
    var cut := |episodes| - p.episodicMax;
    var a :| 0 <= a < cut && order[..cut][a] == i;
    assert j in order;
    var b :| 0 <= b < |order| && order[b] == j;
    forall q | 0 <= q < cut ensures order[q] != j {
      assert order[..cut][q] in order[..cut];
    }
    assert Before(values, order[a], order[b]);
  }

  /** No evicted episode is worth more than a survivor. */
  lemma EvictedIsWorthLess(p: Policy, episodes: seq<Episode>, now: real, i: nat, j: nat)
    requires i < |episodes| && j < |episodes|
    requires Evicted(p, episodes, now, i) && !Evicted(p, episodes, now, j)
    ensures Value(p, episodes[i].timestamp, episodes[i].outcome, now)
         <= Value(p, episodes[j].timestamp, episodes[j].outcome, now)
  {
    EvictedBefore(p, episodes, now, i, j);
  }

  // ---------------------------------------------------------------- eviction and age

  /** Both succeeded, or neither did. */
  ghost predicate SameClass(episodes: seq<Episode>, i: nat, j: nat)
    requires i < |episodes| && j < |episodes|
  {
    episodes[i].outcome == Success <==> episodes[j].outcome == Success
  }

  /** In an ordered list the places and the order agree. */
  lemma OrderedIff(values: seq<real>, order: seq<nat>, a: nat, b: nat)
    requires Positions(order, |values|) && Ordered(values, order) && a < |order| && b < |order|
    ensures Before(values, order[a], order[b]) <==> a < b
  {
    if b < a { assert Before(values, order[b], order[a]); }
  }

  lemma BudgetKeepsValues(p: Policy, budget: nat, episodes: seq<Episode>, now: real)
    ensures Values(p.(episodicMax := budget), episodes, now) == Values(p, episodes, now)
  {
    var v, w := Values(p.(episodicMax := budget), episodes, now), Values(p, episodes, now);
    assert forall i :: 0 <= i < |episodes| ==> v[i] == w[i];
  }

  /** Some budget evicts `i` and keeps `j` just when `i` comes first in the eviction order. */
  lemma SomeBudgetSeparates(p: Policy, episodes: seq<Episode>, now: real, i: nat, j: nat)
    requires i < |episodes| && j < |episodes|
    ensures Before(Values(p, episodes, now), i, j) <==> exists budget: nat ::
      Evicted(p.(episodicMax := budget), episodes, now, i) && !Evicted(p.(episodicMax := budget), episodes, now, j)
  {
    hide StableOrder, Value;
    var values := Values(p, episodes, now);
    forall budget: nat ensures Values(p.(episodicMax := budget), episodes, now) == values {
      BudgetKeepsValues(p, budget, episodes, now);
    }
    if Before(values, i, j) {
      var order := StableOrder(values);
      StableOrderFacts(values, |values|);
      assert i in order && j in order;
      var a :| 0 <= a < |order| && order[a] == i;
      var b :| 0 <= b < |order| && order[b] == j;
      OrderedIff(values, order, a, b);
      var tight := p.(episodicMax := |episodes| - b);
      assert EvictionOrder(tight, episodes, now) == order[..b];
      assert order[..b][a] == i;
      StableOrderDistinct(values);
      assert Evicted(tight, episodes, now, i) && !Evicted(tight, episodes, now, j);
    }
    forall budget: nat | Evicted(p.(episodicMax := budget), episodes, now, i)
                      && !Evicted(p.(episodicMax := budget), episodes, now, j)
      ensures Before(values, i, j)
    {
      EvictedBefore(p.(episodicMax := budget), episodes, now, i, j);
    }
  }

  /**
    `i` is newer than `j`, of its outcome class, and yet ranked for eviction ahead of it. Under a
    positive recency weight that takes two clamped ages (`j` at most a second old) and `i` earlier
    in the list; under a zero weight the list position alone decides; under a negative one, age
    counts the wrong way round.
   */
  ghost predicate NewerGoesFirst(p: Policy, episodes: seq<Episode>, now: real, i: nat, j: nat)
    requires i < |episodes| && j < |episodes|
  {
    && SameClass(episodes, i, j)
    && episodes[i].timestamp > episodes[j].timestamp
    && if p.recencyWeight > 0.0 then i < j && now - episodes[j].timestamp <= 1.0
       else if p.recencyWeight == 0.0 then i < j
       else i < j || now - episodes[j].timestamp > 1.0
  }

  lemma NewerBefore(p: Policy, episodes: seq<Episode>, now: real, i: nat, j: nat)
    requires i < |episodes| && j < |episodes| && SameClass(episodes, i, j)
    requires episodes[i].timestamp > episodes[j].timestamp
    ensures Before(Values(p, episodes, now), i, j) <==> NewerGoesFirst(p, episodes, now, i, j)
  {
    hide Value;
    var a, b := episodes[i], episodes[j];
    ValueMeansAge(p, a.timestamp, b.timestamp, a.outcome, b.outcome, now);
  }

  /** Whatever the budget, no evicted episode is newer than a survivor of its outcome class. */
  ghost predicate OldestGoFirst(p: Policy, episodes: seq<Episode>, now: real) {
    forall budget: nat, i: nat, j: nat ::
      i < |episodes| && j < |episodes| && SameClass(episodes, i, j)
      && Evicted(p.(episodicMax := budget), episodes, now, i)
      && !Evicted(p.(episodicMax := budget), episodes, now, j) ==>
        episodes[i].timestamp <= episodes[j].timestamp
  }

  /** Exactly when eviction goes by age within each outcome class, for every policy and store. */
  lemma OldestGoFirstIff(p: Policy, episodes: seq<Episode>, now: real)
    ensures OldestGoFirst(p, episodes, now) <==>
      forall i: nat, j: nat :: i < |episodes| && j < |episodes| ==> !NewerGoesFirst(p, episodes, now, i, j)
  {
    hide Values, Evicted, Before, NewerGoesFirst, SameClass;
    forall i: nat, j: nat | i < |episodes| && j < |episodes|
      ensures NewerGoesFirst(p, episodes, now, i, j) <==>
        SameClass(episodes, i, j) && episodes[i].timestamp > episodes[j].timestamp && exists budget: nat ::
          Evicted(p.(episodicMax := budget), episodes, now, i) && !Evicted(p.(episodicMax := budget), episodes, now, j)
    {
      NewerGoesFirstIff(p, episodes, now, i, j);
    }
  }

  lemma NewerGoesFirstIff(p: Policy, episodes: seq<Episode>, now: real, i: nat, j: nat)
    requires i < |episodes| && j < |episodes|
    ensures NewerGoesFirst(p, episodes, now, i, j) <==>
      SameClass(episodes, i, j) && episodes[i].timestamp > episodes[j].timestamp && exists budget: nat ::
        Evicted(p.(episodicMax := budget), episodes, now, i) && !Evicted(p.(episodicMax := budget), episodes, now, j)
  {
    hide Values, Evicted, Before;
    SomeBudgetSeparates(p, episodes, now, i, j);
    if SameClass(episodes, i, j) && episodes[i].timestamp > episodes[j].timestamp {
      NewerBefore(p, episodes, now, i, j);
    }
  }

  /** At the budget at hand: a newer episode goes first only from within the last second, and from earlier in the list. */
  lemma EvictedIsOlder(p: Policy, episodes: seq<Episode>, now: real, i: nat, j: nat)
    requires p.recencyWeight > 0.0
    requires i < |episodes| && j < |episodes| && SameClass(episodes, i, j)
    requires Evicted(p, episodes, now, i) && !Evicted(p, episodes, now, j)
    ensures episodes[i].timestamp <= episodes[j].timestamp
         || (now - episodes[i].timestamp < 1.0 && now - episodes[j].timestamp <= 1.0 && i < j)
  {
    hide Values, Evicted, Before;
    EvictedBefore(p, episodes, now, i, j);
    if episodes[i].timestamp > episodes[j].timestamp { NewerBefore(p, episodes, now, i, j); }
  }

  ghost predicate Chronological(episodes: seq<Episode>) {
    forall i, j :: 0 <= i < j < |episodes| ==> episodes[i].timestamp <= episodes[j].timestamp
  }

  /** In particular a store filled in time order is evicted by age, unless recency counts against an episode. */
  lemma ChronologicalEviction(p: Policy, episodes: seq<Episode>, now: real)
    requires p.recencyWeight >= 0.0 && Chronological(episodes)
    ensures OldestGoFirst(p, episodes, now)
  {
    hide OldestGoFirst;
    OldestGoFirstIff(p, episodes, now);
  }

  /**
    Out of time order the newer episode can go first: of two failures under a second old, the one
    half a second old is evicted and the one three quarters of a second old is kept.
   */
  lemma NewerCanBeEvicted(newer: Episode, older: Episode)
    requires newer.timestamp == 0.5 && older.timestamp == 0.25
    requires newer.outcome == Failure && older.outcome == Failure
    ensures var p := DEFAULT.(episodicMax := 1);
      && Evicted(p, [newer, older], 1.0, 0) && !Evicted(p, [newer, older], 1.0, 1)
  {
    var p, episodes := DEFAULT.(episodicMax := 1), [newer, older];
    var values := Values(p, episodes, 1.0);
    ValueMeansAge(p, 0.5, 0.25, Failure, Failure, 1.0);
    assert values[0] == values[1];
    assert StableOrder(values, 0) == [];
    assert StableOrder(values, 1) == [0];
    assert StableOrder(values, 2) == [0, 1];
    assert EvictionOrder(p, episodes, 1.0) == [0];
  }

  // ---------------------------------------------------------------- eviction across outcome classes

  /** A success is worth less than something else just when recency outweighs three fifths of the utility weight. */
  lemma SuccessIsOutranked(p: Policy, t: real, t': real, other: TaskOutcome, now: real)
    requires other != Success
    ensures Value(p, t, Success, now) < Value(p, t', other, now) <==>
      0.6 * p.utilityWeight < p.recencyWeight * (Recency(t', now) - Recency(t, now))
  {
    hide Recency;
    var w, r, r', u := p.recencyWeight, Recency(t, now), Recency(t', now), p.utilityWeight;
    assert w * (r' - r) == w * r' - w * r;
    assert u * 1.0 - u * 0.4 == 0.6 * u;
  }

  lemma RecencyBounds(t: real, now: real)
    ensures Recency(t, now) < 1.0
    ensures now - t <= 5.0 * DAY ==> Recency(t, now) >= 1.0 / 6.0
    ensures now - t >= 6.0 * DAY ==> Recency(t, now) <= 1.0 / 7.0
    ensures now - t <= 1.0 ==> Recency(t, now) > 0.999
  {
    var a := Age(t, now);
    var x := 1.0 + a / DAY;
    DivCompare(0.0, a, DAY);
    ReciprocalDrops(1.0, x);
    if now - t <= 5.0 * DAY {
      DivCompare(a, 5.0 * DAY, DAY);
      if x < 6.0 { ReciprocalDrops(x, 6.0); }
    }
    if now - t >= 6.0 * DAY {
      DivCompare(6.0 * DAY, a, DAY);
      if x > 7.0 { ReciprocalDrops(7.0, x); }
    }
    if now - t <= 1.0 {
      assert x == 86401.0 / 86400.0;
      ReciprocalDrops(x, 1000.0 / 999.0);
    }
  }

  /** Under the default weights a success of the last five days is never evicted while a failure stays, whatever the budget. */
  lemma RecentSuccessOutlivesFailure(p: Policy, episodes: seq<Episode>, now: real, i: nat, j: nat)
    requires p == DEFAULT.(episodicMax := p.episodicMax) && i < |episodes| && j < |episodes|
    requires episodes[i].outcome == Success && now - episodes[i].timestamp <= 5.0 * DAY
    requires episodes[j].outcome != Success
    ensures !(Evicted(p, episodes, now, i) && !Evicted(p, episodes, now, j))
  {
    hide Value, Recency, Evicted;
    SuccessIsOutranked(p, episodes[i].timestamp, episodes[j].timestamp, episodes[j].outcome, now);
    RecencyBounds(episodes[i].timestamp, now);
    RecencyBounds(episodes[j].timestamp, now);
    if Evicted(p, episodes, now, i) && !Evicted(p, episodes, now, j) {
      EvictedBefore(p, episodes, now, i, j);
      EqualValues(p, episodes[i].timestamp, episodes[j].timestamp, episodes[j].outcome, now);
    }
  }

  lemma EqualValues(p: Policy, t: real, t': real, other: TaskOutcome, now: real)
    requires other != Success
    ensures Value(p, t, Success, now) == Value(p, t', other, now) <==>
      0.6 * p.utilityWeight == p.recencyWeight * (Recency(t', now) - Recency(t, now))
  {
    hide Recency;
    var w, r, r', u := p.recencyWeight, Recency(t, now), Recency(t', now), p.utilityWeight;
    assert w * (r' - r) == w * r' - w * r;
    assert u * 1.0 - u * 0.4 == 0.6 * u;
  }

  /** But one of six days is outranked by a failure of this second: some budget evicts the success and keeps the failure. */
  lemma OldSuccessGoesFirst(episodes: seq<Episode>, now: real, i: nat, j: nat)
    requires i < |episodes| && j < |episodes|
    requires episodes[i].outcome == Success && now - episodes[i].timestamp >= 6.0 * DAY
    requires episodes[j].outcome != Success && now - episodes[j].timestamp <= 1.0
    ensures exists budget: nat ::
      Evicted(DEFAULT.(episodicMax := budget), episodes, now, i) && !Evicted(DEFAULT.(episodicMax := budget), episodes, now, j)
  {
    hide Value, Recency, Evicted;
    SuccessIsOutranked(DEFAULT, episodes[i].timestamp, episodes[j].timestamp, episodes[j].outcome, now);
    RecencyBounds(episodes[i].timestamp, now);
    RecencyBounds(episodes[j].timestamp, now);
    SomeBudgetSeparates(DEFAULT, episodes, now, i, j);
  }

  // ---------------------------------------------------------------- semantic store

  datatype SemanticEntity = SemanticEntity(entityId: Id, content: string, decayScore: real)

  class SemanticMemory {
    var byId: map<Id, SemanticEntity>

    constructor ()
      ensures byId == map[]
    {
      byId := map[];
    }

    method Archive(id: Id)
      modifies this
      ensures byId == old(byId) - {id}
    {
      byId := byId - {id};
    }
  }

  // ---------------------------------------------------------------- the code

  datatype ForgettingReport = ForgettingReport(compressed: nat, evicted: nat, archived: nat, retired: nat)

  predicate Stale(p: Policy, e: Episode, now: real) {
    now - e.timestamp > p.episodicStaleAge
  }

  /** Time only makes an episode stale, and one young enough is not. */
  lemma StaleForGood(p: Policy, e: Episode, now: real, later: real)
    ensures now <= later && Stale(p, e, now) ==> Stale(p, e, later)
    ensures e.timestamp >= now - p.episodicStaleAge ==> !Stale(p, e, now)
    ensures e.timestamp < now - p.episodicStaleAge ==> Stale(p, e, now)
  {
  }

  function CountStale(p: Policy, episodes: seq<Episode>, now: real): nat {
    if episodes == [] then 0
    else CountStale(p, episodes[..|episodes| - 1], now) + if Stale(p, episodes[|episodes| - 1], now) then 1 else 0
  }

  lemma OneMoreStale(p: Policy, episodes: seq<Episode>, k: nat, now: real)
    requires k < |episodes|
    ensures CountStale(p, episodes[..k + 1], now) ==
            CountStale(p, episodes[..k], now) + if Stale(p, episodes[k], now) then 1 else 0
  {
    assert episodes[..k + 1][..k] == episodes[..k];
  }

  lemma NoneStale(p: Policy, episodes: seq<Episode>, now: real)
    requires episodes == []
    ensures CountStale(p, episodes, now) == 0
  {
  }

  function Shorten(s: string): (r: string)
    ensures r <= s && |r| == if |s| <= 64 then |s| else 64
  {
    if |s| <= 64 then s else s[..64]
  }

  /** Used, weak, idle for too long, and not retired yet. */
  predicate WeakNow(p: Policy, status: Status, sampleSize: nat, successRate: real, lastUsed: real, now: real) {
    status != Retired && sampleSize > 0 && successRate < p.minSuccessRate && now - lastUsed > p.idleRetire
  }

  /** A procedure the engine retires. */
  predicate Weak(p: Policy, proc: Procedure, now: real)
    reads proc
  {
    WeakNow(p, proc.status, proc.sampleSize, proc.successRate, proc.lastUsed, now)
  }

  lemma ShortenedFits()
    ensures forall s :: |Shorten(s)| <= 64 && (|s| <= 64 ==> Shorten(s) == s)
  {
  }

  ghost function WeakIds(p: Policy, procedural: ProceduralMemory, now: real): set<Id>
    reads procedural, procedural.procedures.Values
  {
    set id | id in procedural.procedures && Weak(p, procedural.procedures[id], now)
  }

  /** The entities relevance pruning keeps. */
  function Relevant(p: Policy, entities: map<Id, SemanticEntity>): map<Id, SemanticEntity> {
    map id | id in entities && entities[id].decayScore >= p.semanticDecayFloor :: entities[id]
  }

  /** Every stale episode has lost its embedding and most of its summary. */
  ghost predicate Compressed(p: Policy, episodes: seq<Episode>, now: real)
    reads episodes
  {
    forall i :: 0 <= i < |episodes| && Stale(p, episodes[i], now) ==>
      episodes[i].embedding == [] && |episodes[i].inputSummary| <= 64
  }

  ghost predicate Pruned(p: Policy, entities: map<Id, SemanticEntity>) {
    forall id :: id in entities ==> entities[id].decayScore >= p.semanticDecayFloor
  }

  ghost predicate NoneWeak(p: Policy, procedural: ProceduralMemory, now: real)
    reads procedural, procedural.procedures.Values
  {
    forall id :: id in procedural.procedures ==> !Weak(p, procedural.procedures[id], now)
  }

  twostate predicate SameEpisodes(episodes: seq<Episode>)
    reads episodes
  {
    forall i :: 0 <= i < |episodes| ==>
      && episodes[i].embedding == old(episodes[i].embedding)
      && episodes[i].inputSummary == old(episodes[i].inputSummary)
      && episodes[i].postmortem == old(episodes[i].postmortem)
  }

  /** What compression does to each episode. */
  twostate predicate CompressedFrom(p: Policy, episodes: seq<Episode>, now: real)
    reads episodes
  {
    forall i :: 0 <= i < |episodes| ==>
      && episodes[i].postmortem == old(episodes[i].postmortem)
      && episodes[i].embedding == (if Stale(p, episodes[i], now) then [] else old(episodes[i].embedding))
      && episodes[i].inputSummary ==
         (if Stale(p, episodes[i], now) then Shorten(old(episodes[i].inputSummary)) else old(episodes[i].inputSummary))
  }

  /** What frequency gating does: the weak procedures retire. */
  twostate predicate RetiredFrom(p: Policy, procedural: ProceduralMemory, now: real)
    reads procedural, procedural.procedures.Values
  {
    RetiredIds(procedural, old(WeakIds(p, procedural, now)))
  }

  /** Exactly the named procedures were retired; nothing else about any procedure changed. */
  twostate predicate RetiredIds(procedural: ProceduralMemory, gone: set<Id>)
    reads procedural, procedural.procedures.Values
  {
    procedural.procedures == old(procedural.procedures) &&
    forall id :: id in procedural.procedures ==>
      && procedural.procedures[id].status == (if id in gone then Retired else old(procedural.procedures[id].status))
      && procedural.procedures[id].successRate == old(procedural.procedures[id].successRate)
      && procedural.procedures[id].sampleSize == old(procedural.procedures[id].sampleSize)
      && procedural.procedures[id].lastUsed == old(procedural.procedures[id].lastUsed)
  }

  twostate predicate SameProcedures(procedural: ProceduralMemory)
    reads procedural, procedural.procedures.Values
  {
    RetiredIds(procedural, {})
  }

  /** Frequency gating spares what has not been tried, what works, what was used of late and what is retired already. */
  lemma WeakIff(p: Policy, status: Status, sampleSize: nat, successRate: real, lastUsed: real, now: real)
    ensures !WeakNow(p, status, sampleSize, successRate, lastUsed, now) <==>
      || sampleSize == 0 || successRate >= p.minSuccessRate
      || lastUsed >= now - p.idleRetire || status == Retired
  {
  }

  lemma RetiredIsNotWeak(p: Policy)
    ensures forall sampleSize, successRate, lastUsed, now ::
      !WeakNow(p, Retired, sampleSize, successRate, lastUsed, now)
  {
  }

  class ForgettingEngine {
    const policy: Policy

    constructor (policy: Policy)
      ensures this.policy == policy
    {
      this.policy := policy;
    }

    /** Stale episodes lose their embedding and all but 64 characters of their summary; others keep everything. */
    method Compress(episodes: seq<Episode>, now: real) returns (count: nat)
      requires Distinct(EpisodeIds(episodes))
      modifies episodes
      ensures CompressedFrom(policy, episodes, now)
      ensures Compressed(policy, episodes, now)
      ensures old(Compressed(policy, episodes, now)) ==> SameEpisodes(episodes)
      ensures count == CountStale(policy, episodes, now)
    {
      hide EpisodeIds, CountStale, Shorten, Stale;
      DistinctEpisodes(episodes);
      count := CompressAll(episodes, now);
      ShortenedFits();
    }

    method CompressAll(episodes: seq<Episode>, now: real) returns (count: nat)
      requires Distinct(episodes)
      modifies episodes
      ensures CompressedFrom(policy, episodes, now)
      ensures count == CountStale(policy, episodes, now)
    {
      hide CountStale, Shorten, Stale;
      count := 0;
      assert CountStale(policy, episodes[..0], now) == 0 by { NoneStale(policy, episodes[..0], now); }
      for k := 0 to |episodes|
        invariant count == CountStale(policy, episodes[..k], now)
        invariant forall i :: k <= i < |episodes| ==> unchanged(episodes[i])
        invariant forall i :: 0 <= i < k ==>
          && episodes[i].postmortem == old(episodes[i].postmortem)
          && episodes[i].embedding == (if Stale(policy, episodes[i], now) then [] else old(episodes[i].embedding))
          && episodes[i].inputSummary ==
             (if Stale(policy, episodes[i], now) then Shorten(old(episodes[i].inputSummary)) else old(episodes[i].inputSummary))
      {
        var e := episodes[k];
        OneMoreStale(policy, episodes, k, now);
        if Stale(policy, e, now) {
          e.embedding := [];
          e.inputSummary := Shorten(e.inputSummary);
          count := count + 1;
        }
      }
      assert episodes[..|episodes|] == episodes;
    }

    /** Archive every entity below the decay floor. */
    method PruneSemantic(semantic: SemanticMemory) returns (count: nat)
      modifies semantic
      ensures semantic.byId == Relevant(policy, old(semantic.byId))
      ensures forall id :: id in old(semantic.byId) ==>
        (id in semantic.byId <==> !(old(semantic.byId)[id].decayScore < policy.semanticDecayFloor))
      ensures Pruned(policy, semantic.byId)
      ensures old(Pruned(policy, semantic.byId)) ==> semantic.byId == old(semantic.byId)
      ensures count == |old(semantic.byId)| - |semantic.byId|
    {
      count := 0;
      var ids := semantic.byId.Keys;
      ghost var all := semantic.byId;
      while ids != {}
        invariant ids <= all.Keys
        invariant semantic.byId ==
          map id | id in all && (id in ids || all[id].decayScore >= policy.semanticDecayFloor) :: all[id]
        invariant count == |all| - |semantic.byId|
        decreases |ids|
      {
        var id :| id in ids;
        ids := ids - {id};
        if semantic.byId[id].decayScore < policy.semanticDecayFloor {
          OneFewer(semantic.byId, id);
          semantic.Archive(id);
          count := count + 1;
        }
      }
    }

    /** Retire every weak procedure; nothing else about any procedure changes. */
    method RetireWeak(procedural: ProceduralMemory, now: real) returns (count: nat)
      requires procedural.Valid()
      modifies procedural.procedures.Values
      ensures RetiredFrom(policy, procedural, now)
      ensures NoneWeak(policy, procedural, now)
      ensures old(NoneWeak(policy, procedural, now)) ==> SameProcedures(procedural)
      ensures count == |old(WeakIds(policy, procedural, now))|
    {
      hide WeakNow;
      ghost var weak;
      count, weak := RetireAll(procedural, now);
      assert weak == old(WeakIds(policy, procedural, now));
      RetiredIsNotWeak(policy);
    }

    method RetireAll(procedural: ProceduralMemory, now: real) returns (count: nat, ghost weak: set<Id>)
      requires procedural.Valid()
      modifies procedural.procedures.Values
      ensures count == |weak| && RetiredIds(procedural, weak)
      ensures forall id :: id in weak <==> id in procedural.procedures && old(Weak(policy, procedural.procedures[id], now))
    {
      hide WeakNow, ProceduralMemory.Valid;
      count, weak := 0, {};
      var ids := procedural.procedures.Keys;
      while ids != {}
        invariant ids <= procedural.procedures.Keys
        invariant count == |weak|
        invariant forall id :: id in weak <==>
          id in procedural.procedures && id !in ids && old(Weak(policy, procedural.procedures[id], now))
        invariant RetiredIds(procedural, weak)
        decreases |ids|
      {
        var id :| id in ids;
        assert id !in weak;
        ids := ids - {id};
        if Weak(policy, procedural.procedures[id], now) {
          procedural.SetStatus(id, Retired);
          count, weak := count + 1, weak + {id};
          assert RetiredIds(procedural, weak);
        }
      }
    }

    /** `for ep in scored[:excess]: episodic.delete(ep.episode_id)` */
    method DeleteAll(episodic: EpisodicMemory, ids: seq<Id>)
      requires episodic.Valid()
      modifies episodic
      ensures episodic.Valid() && episodic.episodes == Without(old(episodic.episodes), ToSet(ids))
    {
      hide Indexes, EpisodeIds;
      ghost var all := episodic.episodes;
      assert Without(all, ToSet(ids[..0])) == all by { WithoutNone(all, ToSet(ids[..0])); }
      for k := 0 to |ids|
        invariant episodic.Valid()
        invariant episodic.episodes == Without(all, ToSet(ids[..k]))
      {
        WithoutTwice(all, ToSet(ids[..k]), {ids[k]});
        assert ids[..k + 1] == ids[..k] + [ids[k]];
        assert ToSet(ids[..k + 1]) == ToSet(ids[..k]) + {ids[k]};
        episodic.Delete(ids[k]);
      }
      assert ids[..|ids|] == ids;
    }

    /** Value-ranked eviction, down to the budget. */
    method Evict(episodic: EpisodicMemory, now: real) returns (count: nat)
      requires episodic.Valid()
      modifies episodic
      ensures episodic.Valid()
      ensures episodic.episodes == Survivors(policy, old(episodic.episodes), now)
      ensures count == old(|episodic.episodes|) - |episodic.episodes|
    {
      IndexedIdsDistinct(episodic.byId, EpisodeIds(episodic.episodes));
      SurvivorCount(policy, episodic.episodes, now);
      hide Indexes, EvictionOrder, EpisodeIds;
      var scored := EvictionOrder(policy, episodic.episodes, now);
      count := |scored|;
      DeleteAll(episodic, IdsAt(episodic.episodes, scored));
    }

    /** Nothing left to do at `now`. */
    ghost predicate Settled(episodic: EpisodicMemory, semantic: SemanticMemory, procedural: ProceduralMemory, now: real)
      reads episodic, episodic.episodes, semantic, procedural, procedural.procedures.Values
    {
      && |episodic.episodes| <= policy.episodicMax
      && Compressed(policy, episodic.episodes, now)
      && Pruned(policy, semantic.byId)
      && NoneWeak(policy, procedural, now)
    }

    /**
      One run. It leaves the stores settled, and on settled stores it changes nothing: running
      again at the same `now` is the identity.
     */
    method Run(episodic: EpisodicMemory, semantic: SemanticMemory, procedural: ProceduralMemory, now: real)
      returns (report: ForgettingReport)
      requires episodic.Valid() && procedural.Valid()
      modifies episodic, episodic.episodes, semantic, procedural.procedures.Values
      ensures report.compressed == CountStale(policy, old(episodic.episodes), now)
      ensures report.evicted + |episodic.episodes| == |old(episodic.episodes)|
      ensures report.archived + |semantic.byId| == |old(semantic.byId)|
      ensures report.retired == |old(WeakIds(policy, procedural, now))|
      ensures episodic.Valid() && procedural.Valid()
      ensures episodic.episodes == Survivors(policy, old(episodic.episodes), now)
      ensures CompressedFrom(policy, old(episodic.episodes), now) && RetiredFrom(policy, procedural, now)
      ensures semantic.byId == Relevant(policy, old(semantic.byId))
      ensures Settled(episodic, semantic, procedural, now)
      ensures old(Settled(episodic, semantic, procedural, now)) ==>
        && episodic.episodes == old(episodic.episodes) && semantic.byId == old(semantic.byId)
        && SameEpisodes(old(episodic.episodes)) && SameProcedures(procedural)
    {
      hide Indexes, EpisodeIds, Distinct, Survivors, Pruned, NoneWeak, Compressed;
      hide CompressedFrom, RetiredFrom, SameEpisodes, SameProcedures, Relevant, WeakIds, CountStale;
      var all := episodic.episodes;
      IndexedIdsDistinct(episodic.byId, EpisodeIds(all));
      SurvivorCount(policy, all, now);
      NoEvictionKeepsAll(policy, all, now);
      var compressed, archived, retired := Maintain(all, semantic, procedural, now);
      var evicted := Evict(episodic, now);
      SurvivorsCompressed(policy, all, now);
      report := ForgettingReport(compressed, evicted, archived, retired);
    }

    /** The three steps before the budget. */
    method Maintain(episodes: seq<Episode>, semantic: SemanticMemory, procedural: ProceduralMemory, now: real)
      returns (compressed: nat, archived: nat, retired: nat)
      requires Distinct(EpisodeIds(episodes)) && procedural.Valid()
      modifies episodes, semantic, procedural.procedures.Values
      ensures CompressedFrom(policy, episodes, now) && Compressed(policy, episodes, now)
      ensures old(Compressed(policy, episodes, now)) ==> SameEpisodes(episodes)
      ensures compressed == CountStale(policy, episodes, now)
      ensures semantic.byId == Relevant(policy, old(semantic.byId)) && Pruned(policy, semantic.byId)
      ensures old(Pruned(policy, semantic.byId)) ==> semantic.byId == old(semantic.byId)
      ensures archived == |old(semantic.byId)| - |semantic.byId|
      ensures RetiredFrom(policy, procedural, now) && NoneWeak(policy, procedural, now)
      ensures old(NoneWeak(policy, procedural, now)) ==> SameProcedures(procedural)
      ensures retired == |old(WeakIds(policy, procedural, now))|
    {
      hide Pruned, Compressed, CompressedFrom, SameEpisodes, Distinct, EpisodeIds, Relevant, CountStale;
      hide NoneWeak, WeakIds;
      compressed := Compress(episodes, now);
      archived := PruneSemantic(semantic);
      retired := RetireWeak(procedural, now);
    }
  }

  lemma OneFewer(m: map<Id, SemanticEntity>, id: Id)
    requires id in m
    ensures |m - {id}| == |m| - 1
  {
    assert (m - {id}).Keys == m.Keys - {id};
  }

  lemma SurvivorsCompressed(p: Policy, episodes: seq<Episode>, now: real)
    requires Compressed(p, episodes, now)
    ensures Compressed(p, Survivors(p, episodes, now), now)
  {
    hide EvictionOrder;
    var s := Survivors(p, episodes, now);
    forall i | 0 <= i < |s| && Stale(p, s[i], now) ensures s[i].embedding == [] && |s[i].inputSummary| <= 64 {
      assert s[i] in episodes;
    }
  }

  lemma NoEvictionKeepsAll(p: Policy, episodes: seq<Episode>, now: real)
    ensures |episodes| <= p.episodicMax ==> Survivors(p, episodes, now) == episodes
  {
    if |episodes| <= p.episodicMax {
      WithoutNone(episodes, ToSet(IdsAt(episodes, EvictionOrder(p, episodes, now))));
    }
  }

  lemma DistinctEpisodes(episodes: seq<Episode>)
    requires Distinct(EpisodeIds(episodes))
    ensures Distinct(episodes)
  {
    forall i, j | 0 <= i < j < |episodes| ensures episodes[i] != episodes[j] {
      assert EpisodeIds(episodes)[i] != EpisodeIds(episodes)[j];
    }
  }
}
