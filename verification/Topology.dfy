/**
  `Plan.topological_order`: a worklist sort driven by in-degree counters.

  `Order` is the loop written as a function of the plan; `TopologicalOrder` is the
  imperative code, proved equal to it. The lemmas say what that function means: it succeeds
  exactly on well-formed plans (`OrderSucceedsIff`), and what it returns is a permutation of
  the steps in which every dependency comes strictly earlier (`OrderIsTopological`).
 */
module Topology {
  import opened Wrappers
  import opened Collections
  import opened PlanTypes

  datatype PlanError = UnknownDependency(stepId: Id, dep: Id) | NotAllReached

  // ---------------------------------------------------------------- what a plan should be

  function Ids(steps: seq<PlanStep>): (ids: seq<Id>)
    ensures |ids| == |steps| && forall i :: 0 <= i < |steps| ==> ids[i] == steps[i].stepId
  {
    seq(|steps|, i requires 0 <= i < |steps| => steps[i].stepId)
  }

  ghost predicate KnownDeps(steps: seq<PlanStep>) {
    forall i, d :: 0 <= i < |steps| && d in steps[i].dependsOn ==> d in Ids(steps)
  }

  ghost predicate DuplicateFreeDeps(steps: seq<PlanStep>) {
    forall i :: 0 <= i < |steps| ==> Distinct(steps[i].dependsOn)
  }

  ghost predicate Depends(steps: seq<PlanStep>, x: Id, d: Id) {
    exists i :: 0 <= i < |steps| && steps[i].stepId == x && d in steps[i].dependsOn
  }

  /** A closed walk along dependencies. */
  ghost predicate IsCycle(steps: seq<PlanStep>, walk: seq<Id>) {
    && |walk| >= 2
    && walk[0] == walk[|walk| - 1]
    && forall k :: 0 <= k < |walk| - 1 ==> Depends(steps, walk[k], walk[k + 1])
  }

  ghost predicate Acyclic(steps: seq<PlanStep>) {
    forall walk :: !IsCycle(steps, walk)
  }

  ghost predicate WellFormed(steps: seq<PlanStep>) {
    && Distinct(Ids(steps))
    && KnownDeps(steps)
    && DuplicateFreeDeps(steps)
    && Acyclic(steps)
  }

  /** `d` occurs in `entered` before position `k`. */
  ghost predicate EarlierIn(entered: seq<Id>, k: nat, d: Id) {
    exists j :: 0 <= j < k && j < |entered| && entered[j] == d
  }

  /** `order` lists every step exactly once, each after all the steps it depends on. */
  ghost predicate IsTopological(steps: seq<PlanStep>, order: seq<PlanStep>) {
    && |order| == |steps|
    && Distinct(Ids(order))
    && (forall s :: s in order <==> s in steps)
    && forall k, d :: 0 <= k < |order| && d in order[k].dependsOn ==> EarlierIn(Ids(order), k, d)
  }

  // ---------------------------------------------------------------- the loop as a function

  /** The `id_to_step` dictionary after the first `n` steps: a later step with the same id wins. */
  function IdToStep(steps: seq<PlanStep>, n: nat := |steps|): (m: map<Id, PlanStep>)
    requires n <= |steps|
    ensures forall x :: x in m <==> x in Ids(steps)[..n]
    ensures forall x :: x in m ==> m[x] in steps && m[x].stepId == x
  {
    if n == 0 then map[]
    else
      assert Ids(steps)[..n] == Ids(steps)[..n - 1] + [steps[n - 1].stepId];
      IdToStep(steps, n - 1)[steps[n - 1].stepId := steps[n - 1]]
  }

  /** Dictionary keys in insertion order: the first occurrence of each id. */
  function Keys(steps: seq<PlanStep>, n: nat := |steps|): (keys: seq<Id>)
    requires n <= |steps|
    ensures Distinct(keys)
    ensures forall x :: x in keys <==> x in Ids(steps)[..n]
  {
    if n == 0 then []
    else
      assert Ids(steps)[..n] == Ids(steps)[..n - 1] + [steps[n - 1].stepId];
      var keys := Keys(steps, n - 1);
      if steps[n - 1].stepId in keys then keys else keys + [steps[n - 1].stepId]
  }

  /** The in-degree counters after the dependencies of the first `n` steps have been counted. */
  function InDegrees(steps: seq<PlanStep>, n: nat := |steps|): (m: map<Id, int>)
    requires n <= |steps|
    ensures forall x :: x in m <==> x in Ids(steps)
    ensures forall x :: x in m ==> m[x] >= 0
  {
    if n == 0 then map x | x in Ids(steps) :: 0
    else
      var m := InDegrees(steps, n - 1);
      var s := steps[n - 1];
      assert s.stepId == Ids(steps)[n - 1];
      m[s.stepId := m[s.stepId] + |s.dependsOn|]
  }

  function FirstUnknown(deps: seq<Id>, known: seq<Id>): (r: Option<Id>)
    ensures r.None? <==> forall d :: d in deps ==> d in known
  {
    if deps == [] then None
    else if deps[0] !in known then Some(deps[0])
    else
      assert deps == [deps[0]] + deps[1..];
      FirstUnknown(deps[1..], known)
  }

  /** The first dependency, from step `n` on, that names no step. */
  function FirstError(steps: seq<PlanStep>, n: nat := 0): (r: Option<PlanError>)
    requires n <= |steps|
    ensures r.None? <==> forall i, d :: n <= i < |steps| && d in steps[i].dependsOn ==> d in Ids(steps)
    ensures r.Some? ==> r.value.UnknownDependency?
    decreases |steps| - n
  {
    if n == |steps| then None
    else match FirstUnknown(steps[n].dependsOn, Ids(steps))
      case Some(d) => Some(UnknownDependency(steps[n].stepId, d))
      case None => FirstError(steps, n + 1)
  }

  /** The ids among the first `n` keys whose counter is zero. */
  function ZeroDegree(keys: seq<Id>, indeg: map<Id, int>, n: nat := |keys|): (q: seq<Id>)
    requires n <= |keys| && forall x :: x in keys ==> x in indeg
    ensures forall x :: x in q <==> x in keys[..n] && indeg[x] == 0
    ensures Distinct(keys) ==> Distinct(q)
  {
    if n == 0 then []
    else
      assert keys[..n] == keys[..n - 1] + [keys[n - 1]];
      var q := ZeroDegree(keys, indeg, n - 1);
      assert Distinct(keys) ==> keys[n - 1] !in keys[..n - 1];
      if indeg[keys[n - 1]] == 0 then q + [keys[n - 1]] else q
  }

  /** The loop's variables: counters, queue, and the ids already appended to `order`. */
  datatype Frontier = Frontier(indeg: map<Id, int>, queue: seq<Id>, order: seq<Id>) {
    function Entered(): seq<Id> { order + queue }
  }

  function Start(steps: seq<PlanStep>): Frontier {
    Frontier(InDegrees(steps), ZeroDegree(Keys(steps), InDegrees(steps)), [])
  }

  /** Lower one counter; an id whose counter reaches zero joins the queue. */
  function Lower(f: Frontier, x: Id): Frontier
    requires x in f.indeg
  {
    var d := f.indeg[x] - 1;
    Frontier(f.indeg[x := d], if d == 0 then f.queue + [x] else f.queue, f.order)
  }

  /** One pass of the inner loop over the first `n` steps, after `sid` has been popped. */
  function Visit(steps: seq<PlanStep>, sid: Id, f: Frontier, n: nat := |steps|): (g: Frontier)
    requires n <= |steps| && forall x :: x in f.indeg <==> x in Ids(steps)
    ensures forall x :: x in g.indeg <==> x in Ids(steps)
    ensures g.order == f.order
  {
    if n == 0 then f
    else
      var g := Visit(steps, sid, f, n - 1);
      var s := steps[n - 1];
      assert s.stepId == Ids(steps)[n - 1];
      if sid in s.dependsOn then Lower(g, s.stepId) else g
  }

  /**
    What every iteration keeps: an id has entered the queue just when its counter is down to
    zero (or below), and no id enters twice.
   */
  ghost predicate Inv(steps: seq<PlanStep>, f: Frontier) {
    && (forall x :: x in f.indeg <==> x in Ids(steps))
    && Distinct(f.Entered())
    && (forall x :: x in f.Entered() ==> x in f.indeg)
    && forall x :: x in f.indeg ==> (f.indeg[x] <= 0 <==> x in f.Entered())
  }

  function Pop(steps: seq<PlanStep>, f: Frontier): (g: Frontier)
    requires f.queue != [] && forall x :: x in f.indeg <==> x in Ids(steps)
  {
    Visit(steps, f.queue[0], f.(queue := f.queue[1..], order := f.order + [f.queue[0]]))
  }

  function Drain(steps: seq<PlanStep>, f: Frontier): (g: Frontier)
    requires Inv(steps, f)
    decreases |f.indeg| - |f.order|
  {
    if f.queue == [] then f
    else
      PopKeepsInv(steps, f);
      PopProgress(steps, f);
      Drain(steps, Pop(steps, f))
  }

  function Order(steps: seq<PlanStep>): (r: Result<seq<PlanStep>, PlanError>) {
    match FirstError(steps)
    case Some(e) => Err(e)
    case None =>
      StartInv(steps);
      var f := Drain(steps, Start(steps));
      if |f.order| != |steps| then Err(NotAllReached)
      else Ok(StepsFor(steps, f.order))
  }

  /** `id_to_step[x]`; the second branch is never taken by the loop. */
  function StepFor(steps: seq<PlanStep>, x: Id): PlanStep {
    if x in IdToStep(steps) then IdToStep(steps)[x]
    else PlanStep(x, "", Analytical, "", None, [], 0, [], [])
  }

  function StepsFor(steps: seq<PlanStep>, ids: seq<Id>): (r: seq<PlanStep>)
    ensures |r| == |ids| && forall k :: 0 <= k < |ids| ==> r[k] == StepFor(steps, ids[k])
  {
    seq(|ids|, k requires 0 <= k < |ids| => StepFor(steps, ids[k]))
  }

  // ---------------------------------------------------------------- no id enters twice

  lemma StartInv(steps: seq<PlanStep>)
    ensures Inv(steps, Start(steps))
  {
    var f := Start(steps);
    assert Ids(steps)[..|steps|] == Ids(steps);
    assert Keys(steps)[..|Keys(steps)|] == Keys(steps);
    assert f.Entered() == f.queue;
  }

  lemma LowerKeepsInv(steps: seq<PlanStep>, f: Frontier, x: Id)
    requires Inv(steps, f) && x in f.indeg
    ensures Inv(steps, Lower(f, x)) && f.queue <= Lower(f, x).queue
  {
    var g := Lower(f, x);
    assert g.Entered() == if f.indeg[x] == 1 then f.Entered() + [x] else f.Entered();
  }

  lemma {:induction false} VisitKeepsInv(steps: seq<PlanStep>, sid: Id, f: Frontier, n: nat)
    requires n <= |steps| && Inv(steps, f)
    ensures Inv(steps, Visit(steps, sid, f, n))
    ensures f.queue <= Visit(steps, sid, f, n).queue
  {
    if n > 0 {
      VisitKeepsInv(steps, sid, f, n - 1);
      if sid in steps[n - 1].dependsOn { LowerKeepsInv(steps, Visit(steps, sid, f, n - 1), Ids(steps)[n - 1]); }
    }
  }

  lemma PopKeepsInv(steps: seq<PlanStep>, f: Frontier)
    requires Inv(steps, f) && f.queue != []
    ensures Inv(steps, Pop(steps, f))
    ensures f.Entered() <= Pop(steps, f).Entered()
    ensures Pop(steps, f).order == f.order + [f.queue[0]]
  {
    var f' := f.(queue := f.queue[1..], order := f.order + [f.queue[0]]);
    assert f'.Entered() == f.Entered();
    VisitKeepsInv(steps, f.queue[0], f', |steps|);
  }

  lemma PopProgress(steps: seq<PlanStep>, f: Frontier)
    requires Inv(steps, f) && f.queue != []
    ensures |Pop(steps, f).indeg| == |f.indeg| >= |f.order| + 1
  {
    assert forall x :: x in f.indeg.Keys <==> x in Ids(steps);
    assert Pop(steps, f).indeg.Keys == f.indeg.Keys;
    DistinctInSet(f.Entered(), f.indeg.Keys);
  }

  lemma {:induction false} DrainKeepsInv(steps: seq<PlanStep>, f: Frontier)
    requires Inv(steps, f)
    ensures Inv(steps, Drain(steps, f)) && Drain(steps, f).queue == []
    ensures f.Entered() <= Drain(steps, f).order
    decreases |f.indeg| - |f.order|
  {
    if f.queue == [] {
    } else {
      PopKeepsInv(steps, f);
      PopProgress(steps, f);
      DrainKeepsInv(steps, Pop(steps, f));
    }
  }

  // ---------------------------------------------------------------- what a counter means

  /** The distinct dependencies of one step that have already been popped. */
  ghost function Seen(deps: seq<Id>, order: seq<Id>): set<Id> {
    set d | d in deps && d in order
  }

  /** With distinct step ids, a counter is the number of listed dependencies not yet popped. */
  ghost predicate Counts(steps: seq<PlanStep>, f: Frontier) {
    && (forall x :: x in f.indeg <==> x in Ids(steps))
    && forall i :: 0 <= i < |steps| ==>
         f.indeg[Ids(steps)[i]] == |steps[i].dependsOn| - |Seen(steps[i].dependsOn, f.order)|
  }

  lemma {:induction false} InDegreesCount(steps: seq<PlanStep>, n: nat)
    requires n <= |steps| && Distinct(Ids(steps))
    ensures forall i :: 0 <= i < |steps| ==>
      InDegrees(steps, n)[Ids(steps)[i]] == if i < n then |steps[i].dependsOn| else 0
  {
    if n > 0 { InDegreesCount(steps, n - 1); }
  }

  lemma StartCounts(steps: seq<PlanStep>)
    requires Distinct(Ids(steps))
    ensures Counts(steps, Start(steps))
  {
    InDegreesCount(steps, |steps|);
    forall i | 0 <= i < |steps| ensures Seen(steps[i].dependsOn, []) == {} {}
  }

  lemma SeenGrows(deps: seq<Id>, order: seq<Id>, sid: Id)
    requires sid !in order
    ensures |Seen(deps, order + [sid])| == |Seen(deps, order)| + if sid in deps then 1 else 0
  {
    assert Seen(deps, order + [sid]) == Seen(deps, order) + if sid in deps then {sid} else {};
  }

  lemma {:induction false} VisitCounts(steps: seq<PlanStep>, sid: Id, f: Frontier, n: nat)
    requires n <= |steps| && Distinct(Ids(steps))
    requires forall x :: x in f.indeg <==> x in Ids(steps)
    ensures forall i :: 0 <= i < |steps| ==>
      Visit(steps, sid, f, n).indeg[Ids(steps)[i]] ==
      f.indeg[Ids(steps)[i]] - if i < n && sid in steps[i].dependsOn then 1 else 0
  {
    if n > 0 { VisitCounts(steps, sid, f, n - 1); }
  }

  lemma HeadIsNew(f: Frontier)
    requires Distinct(f.Entered()) && f.queue != []
    ensures f.queue[0] !in f.order
  {
    assert f.Entered()[|f.order|] == f.queue[0];
    forall k | 0 <= k < |f.order| ensures f.order[k] != f.queue[0] {
      assert f.Entered()[k] == f.order[k];
    }
  }

  lemma PopCounts(steps: seq<PlanStep>, f: Frontier)
    requires Distinct(Ids(steps)) && Inv(steps, f) && Counts(steps, f) && f.queue != []
    ensures Counts(steps, Pop(steps, f))
  {
    var sid := f.queue[0];
    var f' := f.(queue := f.queue[1..], order := f.order + [sid]);
    VisitCounts(steps, sid, f', |steps|);
    PopKeepsInv(steps, f);
    HeadIsNew(f);
    forall i | 0 <= i < |steps|
      ensures Pop(steps, f).indeg[Ids(steps)[i]] ==
              |steps[i].dependsOn| - |Seen(steps[i].dependsOn, Pop(steps, f).order)|
    {
      SeenGrows(steps[i].dependsOn, f.order, sid);
    }
  }

  /** A counter at zero means: no duplicates in the list, and every entry already popped. */
  lemma ZeroMeansAllSeen(deps: seq<Id>, order: seq<Id>)
    ensures |Seen(deps, order)| <= |deps|
    ensures |Seen(deps, order)| == |deps| <==> Distinct(deps) && forall d :: d in deps ==> d in order
  {
    CardAtMostLength(deps);
    SubsetCard(Seen(deps, order), ToSet(deps));
    if Distinct(deps) && forall d :: d in deps ==> d in order {
      DistinctCard(deps);
      assert Seen(deps, order) == ToSet(deps);
    }
    if |Seen(deps, order)| == |deps| {
      assert Seen(deps, order) == ToSet(deps);
      forall d | d in deps ensures d in order {
        assert d in ToSet(deps);
      }
    }
  }

  // ---------------------------------------------------------------- dependencies come first

  /** Every id that entered the queue did so after all of its dependencies. */
  ghost predicate DepsEarlier(steps: seq<PlanStep>, entered: seq<Id>) {
    forall i, k, d ::
      0 <= i < |steps| && 0 <= k < |entered| && entered[k] == steps[i].stepId && d in steps[i].dependsOn ==>
        EarlierIn(entered, k, d)
  }

  lemma StepAtZero(steps: seq<PlanStep>, f: Frontier, i: nat)
    requires i < |steps| && Counts(steps, f) && Inv(steps, f) && steps[i].stepId in f.Entered()
    ensures Distinct(steps[i].dependsOn) && forall d :: d in steps[i].dependsOn ==> d in f.order
  {
    assert Ids(steps)[i] == steps[i].stepId;
    assert f.indeg[Ids(steps)[i]] <= 0;
    ZeroMeansAllSeen(steps[i].dependsOn, f.order);
  }

  lemma PopDepsEarlier(steps: seq<PlanStep>, f: Frontier)
    requires Distinct(Ids(steps)) && Inv(steps, f) && Counts(steps, f) && f.queue != []
    requires DepsEarlier(steps, f.Entered())
    ensures DepsEarlier(steps, Pop(steps, f).Entered())
  {
    var g := Pop(steps, f);
    PopKeepsInv(steps, f);
    PopCounts(steps, f);
    var e, e' := f.Entered(), g.Entered();
    forall i, k, d |
      0 <= i < |steps| && 0 <= k < |e'| && e'[k] == steps[i].stepId && d in steps[i].dependsOn
      ensures EarlierIn(e', k, d)
    {
      if k < |e| {
        assert e[k] == e'[k];
        assert EarlierIn(e, k, d);
        var j :| 0 <= j < k && e[j] == d;
        assert e'[j] == d;
      } else {
        StepAtZero(steps, g, i);
        var j :| 0 <= j < |g.order| && g.order[j] == d;
        assert e'[j] == d;
      }
    }
  }

  lemma {:induction false} DrainFacts(steps: seq<PlanStep>, f: Frontier)
    requires Distinct(Ids(steps)) && Inv(steps, f) && Counts(steps, f) && DepsEarlier(steps, f.Entered())
    ensures Counts(steps, Drain(steps, f)) && DepsEarlier(steps, Drain(steps, f).order)
    decreases |f.indeg| - |f.order|
  {
    if f.queue == [] {
      assert f.Entered() == f.order;
    } else {
      PopKeepsInv(steps, f);
      PopProgress(steps, f);
      PopCounts(steps, f);
      PopDepsEarlier(steps, f);
      DrainFacts(steps, Pop(steps, f));
    }
  }

  lemma StartFacts(steps: seq<PlanStep>)
    requires Distinct(Ids(steps))
    ensures Inv(steps, Start(steps)) && Counts(steps, Start(steps))
    ensures DepsEarlier(steps, Start(steps).Entered())
  {
    StartInv(steps);
    StartCounts(steps);
    var f := Start(steps);
    forall i | 0 <= i < |steps| && steps[i].stepId in f.Entered() ensures |steps[i].dependsOn| == 0 {
      assert Ids(steps)[i] == steps[i].stepId;
      assert Seen(steps[i].dependsOn, f.order) == {};
    }
  }

  /** The popped ids at the end of the loop. */
  function Popped(steps: seq<PlanStep>): seq<Id> {
    StartInv(steps);
    Drain(steps, Start(steps)).order
  }

  lemma PoppedFacts(steps: seq<PlanStep>)
    ensures Distinct(Popped(steps)) && forall x :: x in Popped(steps) ==> x in Ids(steps)
    ensures |Popped(steps)| == |steps| ==> Distinct(Ids(steps)) && forall x :: x in Ids(steps) ==> x in Popped(steps)
  {
    StartInv(steps);
    DrainKeepsInv(steps, Start(steps));
    var f := Drain(steps, Start(steps));
    assert f.Entered() == f.order;
    DistinctInSet(f.order, ToSet(Ids(steps)));
    CardAtMostLength(Ids(steps));
    if |f.order| == |steps| {
      assert ToSet(f.order) == ToSet(Ids(steps));
      forall x | x in Ids(steps) ensures x in f.order {
        assert x in ToSet(Ids(steps));
      }
    }
  }

  // ---------------------------------------------------------------- success means well-formed

  lemma {:induction false} WalkDescends(steps: seq<PlanStep>, entered: seq<Id>, walk: seq<Id>, k: nat) returns (at: nat)
    requires Distinct(entered) && DepsEarlier(steps, entered)
    requires forall x :: x in Ids(steps) ==> x in entered
    requires IsCycle(steps, walk) && k < |walk|
    ensures at < |entered| && entered[at] == walk[k]
    ensures forall q :: 0 <= q < |entered| && entered[q] == walk[0] ==> at + k <= q
  {
    if k == 0 {
      assert Depends(steps, walk[0], walk[1]);
      var i :| 0 <= i < |steps| && steps[i].stepId == walk[0];
      assert Ids(steps)[i] == walk[0];
      assert walk[0] in entered;
      at :| 0 <= at < |entered| && entered[at] == walk[0];
    } else {
      var prev := WalkDescends(steps, entered, walk, k - 1);
      assert Depends(steps, walk[k - 1], walk[k - 1 + 1]);
      var i :| 0 <= i < |steps| && steps[i].stepId == walk[k - 1] && walk[k] in steps[i].dependsOn;
      assert EarlierIn(entered, prev, walk[k]);
      at :| 0 <= at < prev && entered[at] == walk[k];
    }
  }

  lemma SortedMeansAcyclic(steps: seq<PlanStep>, entered: seq<Id>)
    requires Distinct(entered) && DepsEarlier(steps, entered)
    requires forall x :: x in Ids(steps) ==> x in entered
    ensures Acyclic(steps)
  {
    forall walk ensures !IsCycle(steps, walk) {
      if IsCycle(steps, walk) {
        var at := WalkDescends(steps, entered, walk, |walk| - 1);
        assert false;
      }
    }
  }

  /** The loop's final state, when the step ids are distinct. */
  lemma Finished(steps: seq<PlanStep>) returns (f: Frontier)
    requires Distinct(Ids(steps))
    ensures f.order == Popped(steps) && f.queue == []
    ensures Inv(steps, f) && Counts(steps, f) && DepsEarlier(steps, f.order)
  {
    StartFacts(steps);
    f := Drain(steps, Start(steps));
    DrainFacts(steps, Start(steps));
    DrainKeepsInv(steps, Start(steps));
  }

  lemma SuccessMeansWellFormed(steps: seq<PlanStep>)
    requires FirstError(steps).None? && |Popped(steps)| == |steps|
    ensures WellFormed(steps)
    ensures DepsEarlier(steps, Popped(steps))
  {
    PoppedFacts(steps);
    var f := Finished(steps);
    SortedMeansAcyclic(steps, f.order);
    forall i | 0 <= i < |steps| ensures Distinct(steps[i].dependsOn) {
      assert Ids(steps)[i] in Ids(steps);
      StepAtZero(steps, f, i);
    }
  }

  // ---------------------------------------------------------------- well-formed means success

  ghost predicate Stuck(steps: seq<PlanStep>, order: seq<Id>, x: Id) {
    x in Ids(steps) && x !in order
  }

  lemma StuckOnAnother(steps: seq<PlanStep>, f: Frontier, x: Id) returns (d: Id)
    requires Inv(steps, f) && Counts(steps, f) && f.queue == []
    requires KnownDeps(steps) && DuplicateFreeDeps(steps)
    requires Stuck(steps, f.order, x)
    ensures Stuck(steps, f.order, d) && Depends(steps, x, d)
  {
    assert f.Entered() == f.order;
    var i :| 0 <= i < |steps| && Ids(steps)[i] == x;
    ZeroMeansAllSeen(steps[i].dependsOn, f.order);
    d :| d in steps[i].dependsOn && d !in f.order;
  }

  lemma {:induction false} StuckWalk(steps: seq<PlanStep>, f: Frontier, x: Id, n: nat) returns (walk: seq<Id>)
    requires Inv(steps, f) && Counts(steps, f) && f.queue == []
    requires KnownDeps(steps) && DuplicateFreeDeps(steps)
    requires Stuck(steps, f.order, x)
    ensures |walk| == n + 1 && forall k :: 0 <= k <= n ==> Stuck(steps, f.order, walk[k])
    ensures forall k :: 0 <= k < n ==> Depends(steps, walk[k], walk[k + 1])
  {
    if n == 0 {
      walk := [x];
    } else {
      var w := StuckWalk(steps, f, x, n - 1);
      var d := StuckOnAnother(steps, f, w[n - 1]);
      walk := w + [d];
    }
  }

  lemma StuckMeansCycle(steps: seq<PlanStep>, f: Frontier, x: Id) returns (cycle: seq<Id>)
    requires Inv(steps, f) && Counts(steps, f) && f.queue == []
    requires KnownDeps(steps) && DuplicateFreeDeps(steps)
    requires Stuck(steps, f.order, x)
    ensures IsCycle(steps, cycle)
  {
    var ids := ToSet(Ids(steps));
    var walk := StuckWalk(steps, f, x, |ids|);
    forall y | y in walk ensures y in ids {
      var k :| 0 <= k < |walk| && walk[k] == y;
      assert Stuck(steps, f.order, walk[k]);
    }
    var i, j := Pigeonhole(walk, ids);
    cycle := walk[i..j + 1];
    forall k | 0 <= k < |cycle| - 1 ensures Depends(steps, cycle[k], cycle[k + 1]) {
      assert Depends(steps, walk[i + k], walk[i + k + 1]);
    }
  }

  lemma WellFormedMeansSuccess(steps: seq<PlanStep>)
    requires WellFormed(steps)
    ensures FirstError(steps).None? && |Popped(steps)| == |steps|
  {
    PoppedFacts(steps);
    var f := Finished(steps);
    forall x | x in Ids(steps) ensures x in f.order {
      if x !in f.order {
        var cycle := StuckMeansCycle(steps, f, x);
        assert false;
      }
    }
    DistinctCard(Ids(steps));
    DistinctCard(f.order);
    assert ToSet(f.order) == ToSet(Ids(steps));
  }

  // ---------------------------------------------------------------- main results

  /**
    `topological_order` returns normally just on well-formed plans: distinct ids, every
    dependency a step of the plan, no dependency listed twice, and no cycle.
   */
  lemma OrderSucceedsIff(steps: seq<PlanStep>)
    ensures Order(steps).Ok? <==> WellFormed(steps)
    ensures Order(steps).Ok? <==> FirstError(steps).None? && |Popped(steps)| == |steps|
    ensures Order(steps) == Err(NotAllReached) <==> KnownDeps(steps) && !WellFormed(steps)
  {
    if WellFormed(steps) { WellFormedMeansSuccess(steps); }
    if FirstError(steps).None? && |Popped(steps)| == |steps| { SuccessMeansWellFormed(steps); }
  }

  lemma OrderIds(steps: seq<PlanStep>)
    requires Order(steps).Ok?
    ensures Ids(Order(steps).value) == Popped(steps)
    ensures forall s :: s in Order(steps).value ==> s in steps
  {
    PoppedFacts(steps);
    assert Ids(steps)[..|steps|] == Ids(steps);
    forall k | 0 <= k < |Popped(steps)|
      ensures StepFor(steps, Popped(steps)[k]).stepId == Popped(steps)[k] && StepFor(steps, Popped(steps)[k]) in steps
    {
      assert Popped(steps)[k] in Ids(steps);
    }
  }

  /** The result is a permutation of the steps with every dependency strictly earlier. */
  lemma OrderIsTopological(steps: seq<PlanStep>)
    requires Order(steps).Ok?
    ensures IsTopological(steps, Order(steps).value)
  {
    var order := Order(steps).value;
    OrderSucceedsIff(steps);
    SuccessMeansWellFormed(steps);
    PoppedFacts(steps);
    OrderIds(steps);
    forall s | s in steps ensures s in order {
      var i :| 0 <= i < |steps| && steps[i] == s;
      assert Ids(steps)[i] in Popped(steps);
      var k :| 0 <= k < |order| && Ids(order)[k] == s.stepId;
      assert order[k] in steps;
      SameIdSameStep(steps, order[k], s);
    }
    forall k, d | 0 <= k < |order| && d in order[k].dependsOn
      ensures EarlierIn(Ids(order), k, d)
    {
      assert order[k] in steps;
      var i :| 0 <= i < |steps| && steps[i] == order[k];
      assert Popped(steps)[k] == Ids(order)[k] == steps[i].stepId;
      assert EarlierIn(Popped(steps), k, d);
    }
  }

  lemma SameIdSameStep(steps: seq<PlanStep>, a: PlanStep, b: PlanStep)
    requires Distinct(Ids(steps)) && a in steps && b in steps && a.stepId == b.stepId
    ensures a == b
  {
    var i :| 0 <= i < |steps| && steps[i] == a;
    var j :| 0 <= j < |steps| && steps[j] == b;
    assert Ids(steps)[i] == Ids(steps)[j];
  }

  /** A rank that strictly drops along every dependency. */
  ghost predicate Ranked(steps: seq<PlanStep>, rank: map<Id, nat>) {
    forall i, d :: 0 <= i < |steps| && d in steps[i].dependsOn ==>
      steps[i].stepId in rank && d in rank && rank[d] < rank[steps[i].stepId]
  }

  /** With distinct, known and duplicate-free dependencies, having a rank is the same as succeeding. */
  lemma OrderSucceedsIffRanked(steps: seq<PlanStep>)
    ensures Order(steps).Ok? <==>
      Distinct(Ids(steps)) && KnownDeps(steps) && DuplicateFreeDeps(steps) && exists rank :: Ranked(steps, rank)
  {
    OrderSucceedsIff(steps);
    if Order(steps).Ok? {
      SuccessMeansWellFormed(steps);
      PoppedFacts(steps);
      var e := Popped(steps);
      var rank: map<Id, nat> := map x | x in e :: PositionOf(e, x);
      forall i, d | 0 <= i < |steps| && d in steps[i].dependsOn
        ensures steps[i].stepId in rank && d in rank && rank[d] < rank[steps[i].stepId]
      {
        assert Ids(steps)[i] in e;
        assert EarlierIn(e, PositionOf(e, steps[i].stepId), d);
      }
      assert Ranked(steps, rank);
    } else if exists rank :: Ranked(steps, rank) {
      var rank :| Ranked(steps, rank);
      forall walk ensures !IsCycle(steps, walk) {
        if IsCycle(steps, walk) { RankDrops(steps, rank, walk, |walk| - 1); assert false; }
      }
    }
  }

  ghost function PositionOf(s: seq<Id>, x: Id): (k: nat)
    requires x in s
    ensures k < |s| && s[k] == x
  {
    var k :| 0 <= k < |s| && s[k] == x; k
  }

  lemma {:induction false} RankDrops(steps: seq<PlanStep>, rank: map<Id, nat>, walk: seq<Id>, k: nat)
    requires Ranked(steps, rank) && IsCycle(steps, walk) && 1 <= k < |walk|
    ensures walk[0] in rank && walk[k] in rank && rank[walk[k]] < rank[walk[0]]
  {
    assert Depends(steps, walk[k - 1], walk[k - 1 + 1]);
    if k > 1 { RankDrops(steps, rank, walk, k - 1); }
  }

  /**
    The docstring says "raises on cycle", and the message says so too. A dependency listed twice
    raises the same error on a plan with no cycle at all: the counter is raised twice and lowered once.
   */
  lemma DuplicateDependencyReportedAsCycle()
    ensures var a := PlanStep("a", "x", Analytical, "", None, [], 512, [], []);
            var b := PlanStep("b", "y", Analytical, "", None, ["a", "a"], 512, [], []);
            Order([a, b]) == Err(NotAllReached) && Acyclic([a, b])
  {
    var a := PlanStep("a", "x", Analytical, "", None, [], 512, [], []);
    var b := PlanStep("b", "y", Analytical, "", None, ["a", "a"], 512, [], []);
    OrderSucceedsIff([a, b]);
    assert Ids([a, b]) == ["a", "b"];
    assert [a, b][1].dependsOn[0] == [a, b][1].dependsOn[1];
    assert !Distinct([a, b][1].dependsOn);
    assert KnownDeps([a, b]);
    var rank: map<Id, nat> := map["a" := 0, "b" := 1];
    assert Ranked([a, b], rank);
    forall walk ensures !IsCycle([a, b], walk) {
      if IsCycle([a, b], walk) { RankDrops([a, b], rank, walk, |walk| - 1); assert false; }
    }
  }

  // ---------------------------------------------------------------- the code

  // `id_to_step`, and the insertion order that `indeg.items()` iterates in.
  method BuildIndex(steps: seq<PlanStep>) returns (idToStep: map<Id, PlanStep>)
    ensures idToStep == IdToStep(steps)
  {
    idToStep := map[];
    for i := 0 to |steps|
      invariant idToStep == IdToStep(steps, i)
    {
      idToStep := idToStep[steps[i].stepId := steps[i]];
    }
  }

  method InsertionOrder(steps: seq<PlanStep>) returns (keys: seq<Id>)
    ensures keys == Keys(steps)
  {
    keys := [];
    for i := 0 to |steps|
      invariant keys == Keys(steps, i)
    {
      if steps[i].stepId !in keys { keys := keys + [steps[i].stepId]; }
    }
  }

  method CountStep(s: PlanStep, idToStep: map<Id, PlanStep>, before: map<Id, int>, ghost known: seq<Id>)
    returns (r: Result<map<Id, int>, PlanError>)
    requires s.stepId in before && forall x :: x in known <==> x in idToStep
    ensures r == match FirstUnknown(s.dependsOn, known)
                 case Some(d) => Err(UnknownDependency(s.stepId, d))
                 case None => Ok(before[s.stepId := before[s.stepId] + |s.dependsOn|])
  {
    var indeg := before;
    for j := 0 to |s.dependsOn|
      invariant indeg == before[s.stepId := before[s.stepId] + j]
      invariant FirstUnknown(s.dependsOn, known) == FirstUnknown(s.dependsOn[j..], known)
    {
      if s.dependsOn[j] !in idToStep {
        return Err(UnknownDependency(s.stepId, s.dependsOn[j]));
      }
      indeg := indeg[s.stepId := indeg[s.stepId] + 1];
    }
    r := Ok(indeg);
  }

  method CountDependencies(steps: seq<PlanStep>, idToStep: map<Id, PlanStep>)
    returns (r: Result<map<Id, int>, PlanError>)
    requires forall x :: x in Ids(steps) <==> x in idToStep
    ensures r == match FirstError(steps) case Some(e) => Err(e) case None => Ok(InDegrees(steps))
  {
    var indeg := map x | x in idToStep :: 0;
    for i := 0 to |steps|
      invariant indeg == InDegrees(steps, i) && FirstError(steps) == FirstError(steps, i)
    {
      assert steps[i].stepId == Ids(steps)[i];
      var counted := CountStep(steps[i], idToStep, indeg, Ids(steps));
      if counted.Err? { return Err(counted.error); }
      indeg := counted.value;
    }
    r := Ok(indeg);
  }

  method InitialQueue(keys: seq<Id>, indeg: map<Id, int>) returns (queue: seq<Id>)
    requires forall x :: x in keys ==> x in indeg
    ensures queue == ZeroDegree(keys, indeg)
  {
    queue := [];
    for i := 0 to |keys|
      invariant queue == ZeroDegree(keys, indeg, i)
    {
      if indeg[keys[i]] == 0 { queue := queue + [keys[i]]; }
    }
  }

  /** The inner loop: lower the counter of every step that lists `sid`, queueing those that reach zero. */
  method Release(steps: seq<PlanStep>, sid: Id, indeg0: map<Id, int>, queue0: seq<Id>, ghost order: seq<Id>)
    returns (indeg: map<Id, int>, queue: seq<Id>)
    requires forall x :: x in indeg0 <==> x in Ids(steps)
    ensures Visit(steps, sid, Frontier(indeg0, queue0, order)) == Frontier(indeg, queue, order)
  {
    indeg, queue := indeg0, queue0;
    for i := 0 to |steps|
      invariant Visit(steps, sid, Frontier(indeg0, queue0, order), i) == Frontier(indeg, queue, order)
    {
      assert steps[i].stepId == Ids(steps)[i];
      if sid in steps[i].dependsOn {
        indeg := indeg[steps[i].stepId := indeg[steps[i].stepId] - 1];
        if indeg[steps[i].stepId] == 0 { queue := queue + [steps[i].stepId]; }
      }
    }
  }

  lemma StepsForSnoc(steps: seq<PlanStep>, ids: seq<Id>, x: Id)
    requires x in IdToStep(steps)
    ensures StepsFor(steps, ids + [x]) == StepsFor(steps, ids) + [IdToStep(steps)[x]]
  {
    hide IdToStep;
  }

  lemma PopStep(steps: seq<PlanStep>, f: Frontier)
    requires Inv(steps, f) && f.queue != []
    ensures Inv(steps, Pop(steps, f)) && Drain(steps, f) == Drain(steps, Pop(steps, f))
    ensures f.queue[0] in IdToStep(steps)
    ensures Pop(steps, f).order == f.order + [f.queue[0]]
    ensures StepsFor(steps, f.order + [f.queue[0]]) == StepsFor(steps, f.order) + [IdToStep(steps)[f.queue[0]]]
    ensures |Pop(steps, f).indeg| == |f.indeg| > |f.order|
  {
    hide StepsFor, Pop, Distinct;
    PopKeepsInv(steps, f);
    PopProgress(steps, f);
    assert f.Entered()[|f.order|] == f.queue[0];
    assert f.queue[0] in f.indeg;
    assert Ids(steps)[..|steps|] == Ids(steps);
    StepsForSnoc(steps, f.order, f.queue[0]);
  }

  /** The outer loop: pop the queue until it is empty. */
  method Kahn(steps: seq<PlanStep>, idToStep: map<Id, PlanStep>, indeg0: map<Id, int>, queue0: seq<Id>)
    returns (order: seq<PlanStep>)
    requires idToStep == IdToStep(steps) && Frontier(indeg0, queue0, []) == Start(steps)
    ensures order == StepsFor(steps, Popped(steps))
  {
    var indeg, queue := indeg0, queue0;
    StartInv(steps);
    ghost var f := Start(steps);
    order := [];
    while queue != []
      invariant f.indeg == indeg && f.queue == queue && Inv(steps, f)
      invariant order == StepsFor(steps, f.order)
      invariant Drain(steps, f).order == Popped(steps)
      decreases |f.indeg| - |f.order|
    {
      PopStep(steps, f);
      var sid := queue[0];
      order := order + [idToStep[sid]];
      indeg, queue := Release(steps, sid, indeg, queue[1..], f.order + [sid]);
      f := Pop(steps, f);
    }
  }

  method TopologicalOrder(plan: Plan) returns (r: Result<seq<PlanStep>, PlanError>)
    ensures r == Order(plan.steps)
    ensures r.Ok? <==> WellFormed(plan.steps)
    ensures r.Ok? ==> IsTopological(plan.steps, r.value)
  {
    var steps := plan.steps;
    OrderSucceedsIff(steps);
    if Order(steps).Ok? { OrderIsTopological(steps); }
    assert Ids(steps)[..|steps|] == Ids(steps);
    var idToStep := BuildIndex(steps);
    var keys := InsertionOrder(steps);
    var counted := CountDependencies(steps, idToStep);
    if counted.Err? { return Err(counted.error); }
    var indeg := counted.value;
    var queue := InitialQueue(keys, indeg);
    var order := Kahn(steps, idToStep, indeg, queue);
    if |order| != |steps| { return Err(NotAllReached); }
    return Ok(order);
  }
}
