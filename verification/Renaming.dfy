/**
  The worklist sort does not care what the ids are called: exchanging two ids throughout a plan
  exchanges them in the result and changes nothing else.
 */
module Renaming {
  import opened Collections
  import opened PlanTypes
  import opened Topology

  function Swap(a: Id, b: Id, x: Id): (y: Id)
    ensures x != a && x != b ==> y == x
  {
    if x == a then b else if x == b then a else x
  }

  function SwapAll(a: Id, b: Id, s: seq<Id>): (r: seq<Id>)
    ensures |r| == |s| && forall k :: 0 <= k < |s| ==> r[k] == Swap(a, b, s[k])
  {
    seq(|s|, k requires 0 <= k < |s| => Swap(a, b, s[k]))
  }

  lemma SwapMember(a: Id, b: Id, s: seq<Id>, x: Id)
    ensures x in s <==> Swap(a, b, x) in SwapAll(a, b, s)
  {
    if x in s {
      var k :| 0 <= k < |s| && s[k] == x;
      assert SwapAll(a, b, s)[k] == Swap(a, b, x);
    }
  }

  lemma SwapAbsent(a: Id, b: Id, s: seq<Id>)
    requires a !in s && b !in s
    ensures SwapAll(a, b, s) == s
  {
    forall k | 0 <= k < |s| ensures Swap(a, b, s[k]) == s[k] {
      assert s[k] in s;
    }
  }

  /** `steps'` is `steps` with `a` and `b` exchanged in ids and dependencies. */
  ghost predicate Renamed(a: Id, b: Id, steps: seq<PlanStep>, steps': seq<PlanStep>) {
    && |steps'| == |steps|
    && forall i :: 0 <= i < |steps| ==>
         && steps'[i].stepId == Swap(a, b, steps[i].stepId)
         && steps'[i].dependsOn == SwapAll(a, b, steps[i].dependsOn)
  }

  /** Loop states that correspond under the exchange. */
  ghost predicate Matches(a: Id, b: Id, f: Frontier, f': Frontier) {
    && f'.queue == SwapAll(a, b, f.queue)
    && f'.order == SwapAll(a, b, f.order)
    && (forall x :: x in f.indeg ==> Swap(a, b, x) in f'.indeg && f'.indeg[Swap(a, b, x)] == f.indeg[x])
  }

  lemma RenamedIds(a: Id, b: Id, steps: seq<PlanStep>, steps': seq<PlanStep>)
    requires Renamed(a, b, steps, steps')
    ensures Ids(steps') == SwapAll(a, b, Ids(steps))
  {
  }

  lemma RenamedAt(a: Id, b: Id, steps: seq<PlanStep>, steps': seq<PlanStep>, i: nat, x: Id)
    requires Renamed(a, b, steps, steps') && i < |steps|
    ensures |steps'| == |steps| && |steps'[i].dependsOn| == |steps[i].dependsOn|
    ensures steps'[i].stepId == Swap(a, b, x) <==> steps[i].stepId == x
  {
  }

  lemma InDegreeAt(steps: seq<PlanStep>, n: nat, x: Id)
    requires 0 < n <= |steps| && x in Ids(steps)
    ensures InDegrees(steps, n)[x] ==
            InDegrees(steps, n - 1)[x] + if steps[n - 1].stepId == x then |steps[n - 1].dependsOn| else 0
  {
  }

  lemma {:induction false} RenamedInDegree(
    a: Id, b: Id, steps: seq<PlanStep>, steps': seq<PlanStep>, n: nat, x: Id)
    requires Renamed(a, b, steps, steps') && n <= |steps| && x in Ids(steps)
    ensures Swap(a, b, x) in Ids(steps') && InDegrees(steps', n)[Swap(a, b, x)] == InDegrees(steps, n)[x]
  {
    hide Swap, InDegrees;
    RenamedIds(a, b, steps, steps');
    SwapMember(a, b, Ids(steps), x);
    if n == 0 {
      NoDegree(steps, x);
      NoDegree(steps', Swap(a, b, x));
    } else {
      RenamedInDegree(a, b, steps, steps', n - 1, x);
      RenamedAt(a, b, steps, steps', n - 1, x);
      InDegreeAt(steps, n, x);
      InDegreeAt(steps', n, Swap(a, b, x));
    }
  }

  lemma NoDegree(steps: seq<PlanStep>, x: Id)
    requires x in Ids(steps)
    ensures InDegrees(steps, 0)[x] == 0
  {
  }

  lemma {:induction false} RenamedKeys(a: Id, b: Id, steps: seq<PlanStep>, steps': seq<PlanStep>, n: nat)
    requires Renamed(a, b, steps, steps') && n <= |steps|
    ensures Keys(steps', n) == SwapAll(a, b, Keys(steps, n))
  {
    if n > 0 {
      RenamedKeys(a, b, steps, steps', n - 1);
      SwapMember(a, b, Keys(steps, n - 1), steps[n - 1].stepId);
    }
  }

  lemma {:induction false} RenamedZeroDegree(
    a: Id, b: Id, keys: seq<Id>, m: map<Id, int>, m': map<Id, int>, n: nat)
    requires n <= |keys| && forall x :: x in keys ==> x in m
    requires forall x :: x in m ==> Swap(a, b, x) in m' && m'[Swap(a, b, x)] == m[x]
    requires forall x :: x in SwapAll(a, b, keys) ==> x in m'
    ensures ZeroDegree(SwapAll(a, b, keys), m', n) == SwapAll(a, b, ZeroDegree(keys, m, n))
  {
    hide Swap, Distinct;
    if n > 0 {
      RenamedZeroDegree(a, b, keys, m, m', n - 1);
      var k := keys[n - 1];
      assert k in keys && SwapAll(a, b, keys)[n - 1] == Swap(a, b, k);
      SwapAllSnoc(a, b, ZeroDegree(keys, m, n - 1), k);
    }
  }

  lemma SwapAllSnoc(a: Id, b: Id, s: seq<Id>, x: Id)
    ensures SwapAll(a, b, s + [x]) == SwapAll(a, b, s) + [Swap(a, b, x)]
  {
  }

  lemma RenamedStart(a: Id, b: Id, steps: seq<PlanStep>, steps': seq<PlanStep>)
    requires Renamed(a, b, steps, steps')
    ensures Matches(a, b, Start(steps), Start(steps'))
  {
    RenamedKeys(a, b, steps, steps', |steps|);
    forall x | x in Ids(steps)
      ensures Swap(a, b, x) in Ids(steps') && InDegrees(steps')[Swap(a, b, x)] == InDegrees(steps)[x]
    {
      RenamedInDegree(a, b, steps, steps', |steps|, x);
    }
    assert Ids(steps)[..|steps|] == Ids(steps) && Ids(steps')[..|steps'|] == Ids(steps');
    RenamedZeroDegree(a, b, Keys(steps), InDegrees(steps), InDegrees(steps'), |Keys(steps)|);
  }

  lemma SwapInjective(a: Id, b: Id, x: Id, y: Id)
    ensures Swap(a, b, x) == Swap(a, b, y) <==> x == y
  {
  }

  /** Lowering the counters of corresponding ids keeps two loop states corresponding. */
  lemma RenamedLower(a: Id, b: Id, f: Frontier, f': Frontier, x: Id)
    requires Matches(a, b, f, f') && x in f.indeg && Swap(a, b, x) in f'.indeg
    ensures Matches(a, b, Lower(f, x), Lower(f', Swap(a, b, x)))
  {
    hide Swap;
    var g, g' := Lower(f, x), Lower(f', Swap(a, b, x));
    forall y | y in g.indeg ensures Swap(a, b, y) in g'.indeg && g'.indeg[Swap(a, b, y)] == g.indeg[y] {
      SwapInjective(a, b, x, y);
    }
  }

  lemma {:induction false} RenamedVisit(
    a: Id, b: Id, steps: seq<PlanStep>, steps': seq<PlanStep>, sid: Id, f: Frontier, f': Frontier, n: nat)
    requires Renamed(a, b, steps, steps') && Matches(a, b, f, f') && n <= |steps|
    requires forall x :: x in f.indeg <==> x in Ids(steps)
    requires forall x :: x in f'.indeg <==> x in Ids(steps')
    ensures Matches(a, b, Visit(steps, sid, f, n), Visit(steps', Swap(a, b, sid), f', n))
  {
    hide Swap, Matches, Lower;
    if n > 0 {
      RenamedVisit(a, b, steps, steps', sid, f, f', n - 1);
      SwapMember(a, b, steps[n - 1].dependsOn, sid);
      var x := steps[n - 1].stepId;
      assert x == Ids(steps)[n - 1] && Swap(a, b, x) == Ids(steps')[n - 1];
      if sid in steps[n - 1].dependsOn {
        RenamedLower(a, b, Visit(steps, sid, f, n - 1), Visit(steps', Swap(a, b, sid), f', n - 1), x);
      }
    }
  }

  lemma RenamedPop(a: Id, b: Id, steps: seq<PlanStep>, steps': seq<PlanStep>, f: Frontier, f': Frontier)
    requires Renamed(a, b, steps, steps') && Matches(a, b, f, f') && f.queue != []
    requires forall x :: x in f.indeg <==> x in Ids(steps)
    requires forall x :: x in f'.indeg <==> x in Ids(steps')
    ensures Matches(a, b, Pop(steps, f), Pop(steps', f'))
  {
    var sid := f.queue[0];
    var g := f.(queue := f.queue[1..], order := f.order + [sid]);
    var g' := f'.(queue := f'.queue[1..], order := f'.order + [Swap(a, b, sid)]);
    RenamedVisit(a, b, steps, steps', sid, g, g', |steps|);
  }

  lemma {:induction false} RenamedDrain(
    a: Id, b: Id, steps: seq<PlanStep>, steps': seq<PlanStep>, f: Frontier, f': Frontier)
    requires Renamed(a, b, steps, steps') && Matches(a, b, f, f')
    requires Inv(steps, f) && Inv(steps', f')
    ensures Drain(steps', f').order == SwapAll(a, b, Drain(steps, f).order)
    decreases |f.indeg| - |f.order|
  {
    if f.queue == [] {
    } else {
      PopStep(steps, f);
      PopStep(steps', f');
      RenamedPop(a, b, steps, steps', f, f');
      RenamedDrain(a, b, steps, steps', Pop(steps, f), Pop(steps', f'));
    }
  }

  lemma RenamedErrors(a: Id, b: Id, steps: seq<PlanStep>, steps': seq<PlanStep>)
    requires Renamed(a, b, steps, steps') && KnownDeps(steps)
    ensures KnownDeps(steps')
  {
    RenamedIds(a, b, steps, steps');
    forall i, d | 0 <= i < |steps'| && d in steps'[i].dependsOn ensures d in Ids(steps') {
      var k :| 0 <= k < |steps'[i].dependsOn| && steps'[i].dependsOn[k] == d;
      assert steps[i].dependsOn[k] in steps[i].dependsOn;
      SwapMember(a, b, Ids(steps), steps[i].dependsOn[k]);
    }
  }

  lemma RenamedBack(a: Id, b: Id, steps: seq<PlanStep>, steps': seq<PlanStep>)
    requires Renamed(a, b, steps, steps')
    ensures Renamed(a, b, steps', steps)
  {
  }

  /** Equivariance of the whole sort: same success, and the same order under the exchange. */
  lemma RenamedOrder(a: Id, b: Id, steps: seq<PlanStep>, steps': seq<PlanStep>)
    requires Renamed(a, b, steps, steps')
    ensures Order(steps').Ok? <==> Order(steps).Ok?
    ensures Order(steps).Ok? ==> Ids(Order(steps').value) == SwapAll(a, b, Ids(Order(steps).value))
  {
    OrderSucceedsIff(steps);
    OrderSucceedsIff(steps');
    RenamedBack(a, b, steps, steps');
    if KnownDeps(steps) { RenamedErrors(a, b, steps, steps'); }
    if KnownDeps(steps') { RenamedErrors(a, b, steps', steps); }
    RenamedStart(a, b, steps, steps');
    StartInv(steps);
    StartInv(steps');
    RenamedDrain(a, b, steps, steps', Start(steps), Start(steps'));
    if Order(steps).Ok? { OrderIds(steps); OrderIds(steps'); }
  }
}
