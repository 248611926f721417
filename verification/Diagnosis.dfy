/**
  Credit assignment and proposals (axis/adaptation.py): `diagnose` counts the failing episodes of a
  class by root cause, and `propose` turns a diagnosis into a scoped change.
 */
module Diagnosis {
  import opened Wrappers
  import opened Collections
  import opened PlanTypes
  import opened Text
  import opened Reals
  import opened Episodic
  import opened Windows
  import opened Telemetry
  import opened Adaptation

  datatype Cause =
    | RetrievalFailure | DecompositionFailure | StrategyMismatch | ToolSelectionError
    | ConfidenceMiscalibration | DomainKnowledgeGap | CommunicationFailure

  /** `_classify_root_cause`: the first keyword found in the lower-cased error decides. */
  function Classify(outcomeDetail: Option<string>, bucket: string): Cause {
    var d := Lower(if outcomeDetail.Some? && |outcomeDetail.value| > 0 then outcomeDetail.value else bucket);
    if Contains(d, "retrieval") || Contains(d, "stale") || Contains(d, "missing_info") then RetrievalFailure
    else if Contains(d, "decomp") || Contains(d, "plan") then DecompositionFailure
    else if Contains(d, "tool") || Contains(d, "timeout") then ToolSelectionError
    else if Contains(d, "calibration") || Contains(d, "over_confident") then ConfidenceMiscalibration
    else if Contains(d, "communication") || Contains(d, "format") then CommunicationFailure
    else if Contains(d, "knowledge") || Contains(d, "domain_gap") then DomainKnowledgeGap
    else StrategyMismatch
  }

  /** The keywords of a cause, in lower case. */
  ghost predicate Names(text: string, words: set<string>) {
    exists w :: w in words && Occurs(Lower(text), w)
  }

  const RETRIEVAL_WORDS: set<string> := {"retrieval", "stale", "missing_info"}
  const PLAN_WORDS: set<string> := {"decomp", "plan"}
  const TOOL_WORDS: set<string> := {"tool", "timeout"}
  const CALIBRATION_WORDS: set<string> := {"calibration", "over_confident"}
  const FORMAT_WORDS: set<string> := {"communication", "format"}
  const KNOWLEDGE_WORDS: set<string> := {"knowledge", "domain_gap"}

  /** Which words, anywhere in the error and in any case, lead to which cause; the earlier list has precedence. */
  lemma ClassifyIff(outcomeDetail: Option<string>, bucket: string)
    ensures var text := if outcomeDetail.Some? && outcomeDetail.value != "" then outcomeDetail.value else bucket;
      var cause := Classify(outcomeDetail, bucket);
      && (Names(text, RETRIEVAL_WORDS) ==> cause == RetrievalFailure)
      && (cause == RetrievalFailure ==> Names(text, RETRIEVAL_WORDS))
      && (cause == DecompositionFailure <==> Names(text, PLAN_WORDS) && !Names(text, RETRIEVAL_WORDS))
      && (cause == ToolSelectionError <==>
            Names(text, TOOL_WORDS) && !Names(text, RETRIEVAL_WORDS + PLAN_WORDS))
      && (cause == ConfidenceMiscalibration <==>
            Names(text, CALIBRATION_WORDS) && !Names(text, RETRIEVAL_WORDS + PLAN_WORDS + TOOL_WORDS))
      && (cause == CommunicationFailure <==>
            Names(text, FORMAT_WORDS) && !Names(text, RETRIEVAL_WORDS + PLAN_WORDS + TOOL_WORDS + CALIBRATION_WORDS))
      && (cause == DomainKnowledgeGap <==>
            Names(text, KNOWLEDGE_WORDS)
            && !Names(text, RETRIEVAL_WORDS + PLAN_WORDS + TOOL_WORDS + CALIBRATION_WORDS + FORMAT_WORDS))
      && (cause == StrategyMismatch <==>
            !Names(text, RETRIEVAL_WORDS + PLAN_WORDS + TOOL_WORDS + CALIBRATION_WORDS + FORMAT_WORDS + KNOWLEDGE_WORDS))
  {
    hide Contains, Occurs, Lower;
    var text := if outcomeDetail.Some? && outcomeDetail.value != "" then outcomeDetail.value else bucket;
    var d := Lower(text);
    forall w ensures Contains(d, w) <==> Occurs(d, w) { ContainsIff(d, w); }
    NamesTwo(text, "decomp", "plan");
    NamesTwo(text, "tool", "timeout");
    NamesTwo(text, "calibration", "over_confident");
    NamesTwo(text, "communication", "format");
    NamesTwo(text, "knowledge", "domain_gap");
    NamesThree(text, "retrieval", "stale", "missing_info");
    NamesUnion(text, RETRIEVAL_WORDS, PLAN_WORDS);
    NamesUnion(text, RETRIEVAL_WORDS + PLAN_WORDS, TOOL_WORDS);
    NamesUnion(text, RETRIEVAL_WORDS + PLAN_WORDS + TOOL_WORDS, CALIBRATION_WORDS);
    NamesUnion(text, RETRIEVAL_WORDS + PLAN_WORDS + TOOL_WORDS + CALIBRATION_WORDS, FORMAT_WORDS);
    NamesUnion(text, RETRIEVAL_WORDS + PLAN_WORDS + TOOL_WORDS + CALIBRATION_WORDS + FORMAT_WORDS, KNOWLEDGE_WORDS);
    Decide(d, outcomeDetail, bucket);
  }

  lemma NamesTwo(text: string, v: string, w: string)
    ensures Names(text, {v, w}) <==> Occurs(Lower(text), v) || Occurs(Lower(text), w)
  {
    hide Occurs, Lower;
  }

  lemma NamesThree(text: string, u: string, v: string, w: string)
    ensures Names(text, {u, v, w}) <==> Occurs(Lower(text), u) || Occurs(Lower(text), v) || Occurs(Lower(text), w)
  {
    hide Occurs, Lower;
  }

  lemma NamesUnion(text: string, xs: set<string>, ys: set<string>)
    ensures Names(text, xs + ys) <==> Names(text, xs) || Names(text, ys)
  {
    hide Occurs, Lower;
  }

  lemma Decide(d: string, outcomeDetail: Option<string>, bucket: string)
    requires d == Lower(if outcomeDetail.Some? && outcomeDetail.value != "" then outcomeDetail.value else bucket)
    ensures Classify(outcomeDetail, bucket) ==
      if Contains(d, "retrieval") || Contains(d, "stale") || Contains(d, "missing_info") then RetrievalFailure
      else if Contains(d, "decomp") || Contains(d, "plan") then DecompositionFailure
      else if Contains(d, "tool") || Contains(d, "timeout") then ToolSelectionError
      else if Contains(d, "calibration") || Contains(d, "over_confident") then ConfidenceMiscalibration
      else if Contains(d, "communication") || Contains(d, "format") then CommunicationFailure
      else if Contains(d, "knowledge") || Contains(d, "domain_gap") then DomainKnowledgeGap
      else StrategyMismatch
  {
    hide Contains, Lower;
  }

  function CauseOf(e: Episode): Cause {
    Classify(e.outcomeDetail, BucketKey(e))
  }

  // ---------------------------------------------------------------- counting

  /** How many of the episodes have this root cause. */
  function CauseCount(episodes: seq<Episode>, c: Cause): (n: nat)
    ensures n <= |episodes|
  {
    if episodes == [] then 0
    else CauseCount(episodes[..|episodes| - 1], c) + if CauseOf(episodes[|episodes| - 1]) == c then 1 else 0
  }

  /** The failing episodes whose bucket is one of `keys`. */
  function InBuckets(failing: seq<Episode>, keys: set<string>): seq<Episode> {
    if failing == [] then []
    else
      var rest := InBuckets(failing[..|failing| - 1], keys);
      if BucketKey(failing[|failing| - 1]) in keys then rest + [failing[|failing| - 1]] else rest
  }

  lemma CauseCountSnoc(episodes: seq<Episode>, e: Episode, c: Cause)
    ensures CauseCount(episodes + [e], c) == CauseCount(episodes, c) + if CauseOf(e) == c then 1 else 0
  {
    assert (episodes + [e])[..|episodes|] == episodes;
  }

  /** One more bucket adds exactly that bucket's episodes, in number and cause by cause. */
  lemma {:induction false} OneMoreBucket(failing: seq<Episode>, keys: set<string>, k: string, c: Cause)
    requires k !in keys
    ensures |InBuckets(failing, keys + {k})| == |InBuckets(failing, keys)| + |InBucket(failing, k)|
    ensures CauseCount(InBuckets(failing, keys + {k}), c) ==
            CauseCount(InBuckets(failing, keys), c) + CauseCount(InBucket(failing, k), c)
  {
    hide BucketKey, CauseOf, CauseCount;
    if failing == [] {
      NoneCounted(c);
    } else {
      var n := |failing| - 1;
      var front, e := failing[..n], failing[n];
      OneMoreBucket(front, keys, k, c);
      CauseCountSnoc(InBuckets(front, keys + {k}), e, c);
      CauseCountSnoc(InBuckets(front, keys), e, c);
      CauseCountSnoc(InBucket(front, k), e, c);
    }
  }

  lemma {:induction false} CauseCountConcat(xs: seq<Episode>, ys: seq<Episode>, c: Cause)
    ensures CauseCount(xs + ys, c) == CauseCount(xs, c) + CauseCount(ys, c)
  {
    hide CauseOf;
    if ys == [] {
      assert xs + ys == xs;
    } else {
      CauseCountConcat(xs, ys[..|ys| - 1], c);
      assert (xs + ys)[..|xs + ys| - 1] == xs + ys[..|ys| - 1];
    }
  }

  lemma NoneCounted(c: Cause)
    ensures CauseCount([], c) == 0
  {
  }

  /** All buckets together hold every failing episode. */
  lemma {:induction false} AllBuckets(failing: seq<Episode>, keys: set<string>)
    requires forall k :: InBucket(failing, k) != [] ==> k in keys
    ensures InBuckets(failing, keys) == failing
  {
    hide BucketKey;
    if failing != [] {
      var n := |failing| - 1;
      forall k ensures InBucket(failing[..n], k) != [] ==> InBucket(failing, k) != [] {}
      AllBuckets(failing[..n], keys);
      assert InBucket(failing, BucketKey(failing[n])) != [];
    }
  }

  /** Every failing episode has exactly one of the seven causes. */
  lemma {:induction false} CausesPartition(episodes: seq<Episode>)
    ensures CauseCount(episodes, RetrievalFailure) + CauseCount(episodes, DecompositionFailure)
          + CauseCount(episodes, StrategyMismatch) + CauseCount(episodes, ToolSelectionError)
          + CauseCount(episodes, ConfidenceMiscalibration) + CauseCount(episodes, DomainKnowledgeGap)
          + CauseCount(episodes, CommunicationFailure) == |episodes|
  {
    hide CauseOf;
    if episodes != [] { CausesPartition(episodes[..|episodes| - 1]); }
  }

  // ---------------------------------------------------------------- the order of counting

  /** The failing episodes bucket by bucket. */
  function Bucketed(failing: seq<Episode>, keys: seq<string>): seq<Episode> {
    if keys == [] then []
    else Bucketed(failing, keys[..|keys| - 1]) + InBucket(failing, keys[|keys| - 1])
  }

  /** The causes in the order they are first counted: the key order of the `Counter`. */
  function CauseOrder(episodes: seq<Episode>): seq<Cause> {
    if episodes == [] then []
    else
      var before, cause := CauseOrder(episodes[..|episodes| - 1]), CauseOf(episodes[|episodes| - 1]);
      if cause in before then before else before + [cause]
  }

  lemma {:induction false} CauseOrderFacts(episodes: seq<Episode>)
    ensures Distinct(CauseOrder(episodes))
    ensures forall c :: c in CauseOrder(episodes) <==> CauseCount(episodes, c) > 0
  {
    hide CauseOf;
    if episodes != [] { CauseOrderFacts(episodes[..|episodes| - 1]); }
  }

  /** Counting bucket by bucket counts every failing episode. */
  lemma {:induction false} BucketedCounts(failing: seq<Episode>, keys: seq<string>, c: Cause)
    requires Distinct(keys)
    ensures CauseCount(Bucketed(failing, keys), c) == CauseCount(InBuckets(failing, ToSet(keys)), c)
  {
    hide CauseCount, InBucket, InBuckets;
    if keys == [] {
      assert ToSet(keys) == {};
      NoBuckets(failing);
    } else {
      var n := |keys| - 1;
      BucketedCounts(failing, keys[..n], c);
      CauseCountConcat(Bucketed(failing, keys[..n]), InBucket(failing, keys[n]), c);
      OneMoreBucket(failing, ToSet(keys[..n]), keys[n], c);
      assert keys == keys[..n] + [keys[n]];
      assert ToSet(keys) == ToSet(keys[..n]) + {keys[n]};
    }
  }

  lemma AllBucketedCounts(failing: seq<Episode>, c: Cause)
    ensures CauseCount(Bucketed(failing, BucketOrder(failing)), c) == CauseCount(failing, c)
  {
    hide CauseCount, Bucketed, BucketOrder, InBucket, InBuckets;
    var keys := BucketOrder(failing);
    BucketOrderFacts(failing);
    BucketedCounts(failing, keys, c);
    forall k ensures InBucket(failing, k) != [] ==> k in ToSet(keys) { assert k in keys <==> k in ToSet(keys); }
    AllBuckets(failing, ToSet(keys));
  }

  lemma {:induction false} NoBuckets(failing: seq<Episode>)
    ensures InBuckets(failing, {}) == []
  {
    if failing != [] { NoBuckets(failing[..|failing| - 1]); }
  }

  /** A `Counter` after counting these episodes in this order. */
  ghost predicate Counted(counts: map<Cause, nat>, order: seq<Cause>, episodes: seq<Episode>) {
    && (forall c :: CountOf(counts, c) == CauseCount(episodes, c))
    && (forall c :: c in counts ==> counts[c] > 0)
    && order == CauseOrder(episodes)
  }

  lemma CountedMembers(counts: map<Cause, nat>, order: seq<Cause>, episodes: seq<Episode>)
    requires Counted(counts, order, episodes)
    ensures forall c :: c in counts <==> c in order
  {
    hide CauseCount, CauseOrder;
    CauseOrderFacts(episodes);
    forall c ensures c in counts <==> c in order { assert CountOf(counts, c) == CauseCount(episodes, c); }
  }

  lemma CountedOneMore(counts: map<Cause, nat>, order: seq<Cause>, episodes: seq<Episode>, e: Episode)
    requires Counted(counts, order, episodes)
    ensures var cause := CauseOf(e);
      Counted(counts[cause := CountOf(counts, cause) + 1],
              if cause in counts then order else order + [cause], episodes + [e])
  {
    hide CauseOf, CauseCount;
    CountedMembers(counts, order, episodes);
    assert (episodes + [e])[..|episodes|] == episodes;
    forall c ensures CauseCount(episodes + [e], c) == CauseCount(episodes, c) + if CauseOf(e) == c then 1 else 0 {
      CauseCountSnoc(episodes, e, c);
    }
  }

  lemma CountedFacts(counts: map<Cause, nat>, order: seq<Cause>, episodes: seq<Episode>)
    requires Counted(counts, order, episodes)
    ensures forall c :: CountOf(counts, c) == CauseCount(episodes, c)
    ensures forall c :: c in counts ==> counts[c] > 0
    ensures order == CauseOrder(episodes)
  {
  }

  lemma CountedNothing()
    ensures Counted(map[], [], [])
  {
  }

  // ---------------------------------------------------------------- diagnose

  datatype Finding = Finding(taskClass: string, rootCause: Cause, failureCount: nat, cluster: map<string, nat>)

  function CountOf(counts: map<Cause, nat>, c: Cause): nat {
    if c in counts then counts[c] else 0
  }

  class Diagnostician {
    const memory: EpisodicMemory
    const failureClusterMin: int

    constructor (memory: EpisodicMemory, failureClusterMin: int)
      ensures this.memory == memory && this.failureClusterMin == failureClusterMin
    {
      this.memory, this.failureClusterMin := memory, failureClusterMin;
    }

    /** `sum(len(v) for v in failures.values())` and the cluster sizes: no failing episode is lost. */
    method Sizes(buckets: map<string, seq<Episode>>, ghost failing: seq<Episode>)
      returns (total: nat, cluster: map<string, nat>)
      requires Clustered(buckets, failing)
      ensures total == |failing|
      ensures cluster.Keys == buckets.Keys && forall k :: k in buckets ==> cluster[k] == |buckets[k]|
    {
      hide BucketKey;
      total, cluster := 0, map[];
      var keys := buckets.Keys;
      ghost var done: set<string> := {};
      assert InBuckets(failing, {}) == [] by { NoBuckets(failing); }
      while keys != {}
        invariant keys <= buckets.Keys && done == buckets.Keys - keys
        invariant total == |InBuckets(failing, done)|
        invariant cluster.Keys == done && forall k :: k in done ==> cluster[k] == |buckets[k]|
        decreases |keys|
      {
        var k :| k in keys;
        OneMoreBucket(failing, done, k, StrategyMismatch);
        keys, done := keys - {k}, done + {k};
        total := total + |buckets[k]|;
        cluster := cluster[k := |buckets[k]|];
      }
      AllBuckets(failing, done);
    }

    /** One bucket's episodes, counted after those `before`; `order` is the order of first insertion. */
    method CountBucket(bucket: seq<Episode>, key: string, ghost before: seq<Episode>,
                       counts0: map<Cause, nat>, order0: seq<Cause>)
      returns (counts: map<Cause, nat>, order: seq<Cause>)
      requires Counted(counts0, order0, before) && forall e :: e in bucket ==> BucketKey(e) == key
      ensures Counted(counts, order, before + bucket)
    {
      hide BucketKey, Classify, Counted, CountOf;
      counts, order := counts0, order0;
      assert before + bucket[..0] == before;
      for i := 0 to |bucket|
        invariant Counted(counts, order, before + bucket[..i])
      {
        assert before + bucket[..i + 1] == (before + bucket[..i]) + [bucket[i]];
        assert bucket[i] in bucket;
        CountedOneMore(counts, order, before + bucket[..i], bucket[i]);
        var cause := Classify(bucket[i].outcomeDetail, key);
        if cause !in counts { order := order + [cause]; }
        counts := counts[cause := CountOf(counts, cause) + 1];
      }
      assert bucket[..|bucket|] == bucket;
    }

    /** The `Counter` of root causes over all buckets, in the buckets' own order. */
    method CountCauses(buckets: map<string, seq<Episode>>, keys: seq<string>, ghost failing: seq<Episode>)
      returns (counts: map<Cause, nat>, order: seq<Cause>)
      requires Clustered(buckets, failing) && keys == BucketOrder(failing)
      ensures forall c :: CountOf(counts, c) == CauseCount(failing, c)
      ensures forall c :: c in counts <==> c in order
      ensures forall c :: c in counts ==> counts[c] > 0
      ensures order == CauseOrder(Bucketed(failing, keys))
    {
      hide BucketKey, CauseCount, CauseOrder, InBucket, BucketOrder, Counted;
      BucketOrderFacts(failing);
      counts, order := map[], [];
      CountedNothing();
      for i := 0 to |keys|
        invariant Counted(counts, order, Bucketed(failing, keys[..i]))
      {
        assert keys[..i + 1][..i] == keys[..i];
        assert keys[i] in keys;
        BucketHasKey(failing, keys[i]);
        counts, order := CountBucket(buckets[keys[i]], keys[i], Bucketed(failing, keys[..i]), counts, order);
      }
      assert keys[..|keys|] == keys;
      CountedMembers(counts, order, Bucketed(failing, keys));
      CountedFacts(counts, order, Bucketed(failing, keys));
      forall c ensures CountOf(counts, c) == CauseCount(failing, c) { AllBucketedCounts(failing, c); }
    }

    /** `Counter.most_common(1)`: the first cause, in insertion order, of the largest count. */
    method MostCommon(counts: map<Cause, nat>, order: seq<Cause>) returns (best: Cause)
      requires order != [] && Distinct(order) && forall c :: c in counts <==> c in order
      ensures best in counts && forall c :: CountOf(counts, c) <= counts[best]
      ensures forall c :: Precedes(order, c, best) ==> CountOf(counts, c) < counts[best]
    {
      best := order[0];
      assert order[0] in order;
      ghost var b := 0;
      for i := 1 to |order|
        invariant b < i && order[b] == best && best in counts
        invariant forall j :: 0 <= j < i ==> order[j] in order && counts[order[j]] <= counts[best]
        invariant forall j :: 0 <= j < b ==> order[j] in order && counts[order[j]] < counts[best]
      {
        assert order[i] in order;
        if counts[order[i]] > counts[best] { best, b := order[i], i; }
      }
    }

    /**
      `diagnose`. It reports a cause just when the class has enough failing episodes and some cause
      covers at least half of them; the cause reported is the most frequent one, and its counts
      account for every failing episode. With a minimum of zero, a class without failures is an
      error: there is no most common cause.
     */
    method Diagnose(taskClass: string) returns (r: Result<Option<Finding>, string>)
      ensures var failing := Failing(memory.episodes, Some(taskClass));
        && (r.Err? <==> failing == [] && failureClusterMin <= 0)
        && (r.Ok? && r.value.None? <==>
              |failing| < failureClusterMin || (failing != [] && !Covered(failing)))
        && (r.Ok? && r.value.Some? ==> Reported(failing, taskClass, r.value.value))
    {
      hide BucketKey, CauseCount, InBucket, Failing, Covered, Reported, BucketOrder, CauseOrder, Bucketed;
      ghost var failing := Failing(memory.episodes, Some(taskClass));
      var buckets, keys := memory.ClusterFailures(Some(taskClass));
      var total, cluster := Sizes(buckets, failing);
      if total < failureClusterMin { return Ok(None); }
      var counts, order := CountCauses(buckets, keys, failing);
      if order == [] {
        SomeCauseCounted(counts, order, failing);
        return Err("list index out of range");
      }
      CauseMeansFailure(counts, order, failing);
      CauseOrderFacts(Bucketed(failing, keys));
      var dominant := MostCommon(counts, order);
      assert counts[dominant] == CountOf(counts, dominant) == CauseCount(failing, dominant);
      MostFrequent(failing, counts, dominant);
      if 2 * counts[dominant] < total { return Ok(None); }
      var finding := Finding(taskClass, dominant, total, cluster);
      assert CountedFirst(failing, dominant) by { IsCountedFirst(failing, counts, dominant); }
      assert Reported(failing, taskClass, finding) by { IsReported(failing, buckets, finding); }
      r := Ok(Some(finding));
    }
  }

  /** Some cause accounts for at least half of the failures. */
  ghost predicate Covered(failing: seq<Episode>) {
    exists c :: 2 * CauseCount(failing, c) >= |failing|
  }

  /** Every cause counted earlier has fewer failures. */
  ghost predicate CountedFirst(failing: seq<Episode>, c: Cause) {
    forall c' :: Precedes(CauseOrder(Bucketed(failing, BucketOrder(failing))), c', c) ==>
      CauseCount(failing, c') < CauseCount(failing, c)
  }

  lemma IsCountedFirst(failing: seq<Episode>, counts: map<Cause, nat>, best: Cause)
    requires forall c :: CountOf(counts, c) == CauseCount(failing, c)
    requires best in counts && forall c ::
      Precedes(CauseOrder(Bucketed(failing, BucketOrder(failing))), c, best) ==> CountOf(counts, c) < counts[best]
    ensures CountedFirst(failing, best)
  {
    hide CauseCount, CauseOrder, Bucketed, BucketOrder;
    assert CountOf(counts, best) == counts[best];
  }

  /** What a finding says of the failing episodes. */
  ghost predicate Reported(failing: seq<Episode>, taskClass: string, f: Finding) {
    && f.taskClass == taskClass && f.failureCount == |failing|
    && 2 * CauseCount(failing, f.rootCause) >= |failing|
    && (forall c :: CauseCount(failing, c) <= CauseCount(failing, f.rootCause))
    && CountedFirst(failing, f.rootCause)
    && forall k :: (k in f.cluster <==> InBucket(failing, k) != [])
                && (k in f.cluster ==> f.cluster[k] == |InBucket(failing, k)|)
  }

  lemma IsReported(failing: seq<Episode>, buckets: map<string, seq<Episode>>, f: Finding)
    requires Clustered(buckets, failing) && f.failureCount == |failing|
    requires f.cluster.Keys == buckets.Keys && forall k :: k in buckets ==> f.cluster[k] == |buckets[k]|
    requires 2 * CauseCount(failing, f.rootCause) >= |failing|
    requires forall c :: CauseCount(failing, c) <= CauseCount(failing, f.rootCause)
    requires CountedFirst(failing, f.rootCause)
    ensures Reported(failing, f.taskClass, f)
  {
    hide CauseCount, InBucket, CountedFirst;
  }

  lemma MostFrequent(failing: seq<Episode>, counts: map<Cause, nat>, best: Cause)
    requires forall c :: CountOf(counts, c) == CauseCount(failing, c)
    requires best in counts && forall c :: CountOf(counts, c) <= counts[best]
    ensures forall c :: CauseCount(failing, c) <= CauseCount(failing, best)
    ensures Covered(failing) <==> 2 * CauseCount(failing, best) >= |failing|
  {
    hide CauseCount;
    assert CountOf(counts, best) == counts[best];
    forall c ensures CauseCount(failing, c) <= CauseCount(failing, best) {
      assert CountOf(counts, c) <= counts[best];
    }
  }

  lemma CauseMeansFailure(counts: map<Cause, nat>, order: seq<Cause>, failing: seq<Episode>)
    requires forall c :: CountOf(counts, c) == CauseCount(failing, c)
    requires order != [] && forall c :: c in counts <==> c in order
    requires forall c :: c in counts ==> counts[c] > 0
    ensures failing != []
  {
    assert order[0] in counts;
    assert CauseCount(failing, order[0]) > 0;
  }

  // ---------------------------------------------------------------- ties

  lemma {:induction false} FirstBucket(failing: seq<Episode>)
    requires failing != []
    ensures BucketOrder(failing) != [] && BucketOrder(failing)[0] == BucketKey(failing[0])
  {
    hide BucketKey;
    if |failing| > 1 { FirstBucket(failing[..|failing| - 1]); }
  }

  lemma {:induction false} FirstInBucket(failing: seq<Episode>)
    requires failing != []
    ensures var b := InBucket(failing, BucketKey(failing[0])); b != [] && b[0] == failing[0]
  {
    hide BucketKey;
    if |failing| > 1 { FirstInBucket(failing[..|failing| - 1]); }
  }

  lemma {:induction false} FirstBucketed(failing: seq<Episode>, keys: seq<string>)
    requires keys != [] && InBucket(failing, keys[0]) != []
    ensures Bucketed(failing, keys) != [] && Bucketed(failing, keys)[0] == InBucket(failing, keys[0])[0]
  {
    hide InBucket;
    if |keys| > 1 { FirstBucketed(failing, keys[..|keys| - 1]); }
  }

  lemma {:induction false} FirstCause(episodes: seq<Episode>)
    requires episodes != []
    ensures CauseOrder(episodes) != [] && CauseOrder(episodes)[0] == CauseOf(episodes[0])
  {
    hide CauseOf;
    if |episodes| > 1 { FirstCause(episodes[..|episodes| - 1]); }
  }

  /** On a tie the cause of the first failing episode wins: with half of the failures it is the one reported. */
  lemma TieGoesToFirst(failing: seq<Episode>, taskClass: string, f: Finding)
    requires failing != [] && Reported(failing, taskClass, f)
    requires 2 * CauseCount(failing, CauseOf(failing[0])) >= |failing|
    ensures f.rootCause == CauseOf(failing[0])
  {
    hide CauseOf, CauseCount, BucketKey, InBucket, Bucketed, BucketOrder, CauseOrder;
    var first, keys := CauseOf(failing[0]), BucketOrder(failing);
    var order := CauseOrder(Bucketed(failing, keys));
    FirstBucket(failing);
    FirstInBucket(failing);
    FirstBucketed(failing, keys);
    FirstCause(Bucketed(failing, keys));
    if f.rootCause != first {
      CauseOrderFacts(Bucketed(failing, keys));
      AllBucketedCounts(failing, f.rootCause);
      assert f.rootCause in order;
      var k :| 0 <= k < |order| && order[k] == f.rootCause;
      assert Precedes(order, first, f.rootCause);
      CausesExclude(failing, first, f.rootCause);
      assert false;
    }
  }

  // ---------------------------------------------------------------- at least half, or more than half?

  /** The documented rule: some cause accounts for more than half of the failures. */
  ghost predicate CoveredByMajority(failing: seq<Episode>) {
    exists c :: 2 * CauseCount(failing, c) > |failing|
  }

  lemma CausesExclude(episodes: seq<Episode>, c: Cause, c': Cause)
    requires c != c'
    ensures CauseCount(episodes, c) + CauseCount(episodes, c') <= |episodes|
  {
    hide CauseCount;
    CausesPartition(episodes);
  }

  lemma EvenSplit(failing: seq<Episode>, c: Cause)
    requires 2 * CauseCount(failing, c) == |failing|
    ensures Covered(failing) && !CoveredByMajority(failing)
  {
    hide CauseCount;
    forall c' ensures 2 * CauseCount(failing, c') <= |failing| {
      if c' != c { CausesExclude(failing, c, c'); }
    }
  }

  /** The two rules part exactly on an even split: a cause with half of the failures. */
  lemma MajorityIff(failing: seq<Episode>)
    ensures Covered(failing) && !CoveredByMajority(failing) <==>
      exists c :: 2 * CauseCount(failing, c) == |failing|
    ensures CoveredByMajority(failing) ==> Covered(failing)
  {
    hide CauseCount;
    forall c | 2 * CauseCount(failing, c) == |failing| ensures Covered(failing) && !CoveredByMajority(failing) {
      EvenSplit(failing, c);
    }
    if Covered(failing) && !CoveredByMajority(failing) {
      var c :| 2 * CauseCount(failing, c) >= |failing|;
      assert !(2 * CauseCount(failing, c) > |failing|);
    }
  }

  lemma {:induction false} OneCause(episodes: seq<Episode>, c: Cause)
    requires forall i :: 0 <= i < |episodes| ==> CauseOf(episodes[i]) == c
    ensures CauseCount(episodes, c) == |episodes|
  {
    hide CauseOf;
    if episodes != [] { OneCause(episodes[..|episodes| - 1], c); }
  }

  lemma {:induction false} TooLong(s: string, sub: string)
    requires |sub| > |s|
    ensures !Contains(s, sub)
  {
    if s != [] { TooLong(s[1..], sub); }
  }

  lemma ClassifyTool(bucket: string)
    ensures Classify(Some("tool"), bucket) == ToolSelectionError
  {
    var d := "tool";
    assert Lower(d) == d;
    TooLong(d, "retrieval");
    TooLong(d, "stale");
    TooLong(d, "missing_info");
    TooLong(d, "decomp");
    assert !Contains(d, "plan") by { assert d[0] != "plan"[0]; TooLong(d[1..], "plan"); }
    assert "tool" <= d;
  }

  lemma ClassifyPlan(bucket: string)
    ensures Classify(Some("plan"), bucket) == DecompositionFailure
  {
    var d := "plan";
    assert Lower(d) == d;
    TooLong(d, "retrieval");
    TooLong(d, "stale");
    TooLong(d, "missing_info");
    assert "plan" <= d;
  }

  /** Such a split: five tool errors and five plan errors are diagnosed, though neither cause has more than half. */
  lemma FiveFiveIsDiagnosed(xs: seq<Episode>, ys: seq<Episode>)
    requires |xs| == 5 && forall i :: 0 <= i < 5 ==> xs[i].outcomeDetail == Some("tool")
    requires |ys| == 5 && forall i :: 0 <= i < 5 ==> ys[i].outcomeDetail == Some("plan")
    ensures Covered(xs + ys) && !CoveredByMajority(xs + ys)
  {
    hide CauseCount, Classify, BucketKey;
    forall i | 0 <= i < 5 ensures CauseOf(xs[i]) == ToolSelectionError { ClassifyTool(BucketKey(xs[i])); }
    forall i | 0 <= i < 5 ensures CauseOf(ys[i]) == DecompositionFailure { ClassifyPlan(BucketKey(ys[i])); }
    OneCause(xs, ToolSelectionError);
    OneCause(ys, DecompositionFailure);
    CauseCountConcat(xs, ys, ToolSelectionError);
    CauseCountConcat(xs, ys, DecompositionFailure);
    CausesExclude(ys, ToolSelectionError, DecompositionFailure);
    EvenSplit(xs + ys, ToolSelectionError);
  }

  lemma {:induction false} BucketHasKey(failing: seq<Episode>, k: string)
    ensures forall e :: e in InBucket(failing, k) ==> BucketKey(e) == k
  {
    hide BucketKey;
    if failing != [] { BucketHasKey(failing[..|failing| - 1], k); }
  }

  lemma SomeCauseCounted(counts: map<Cause, nat>, order: seq<Cause>, failing: seq<Episode>)
    requires forall c :: CountOf(counts, c) == CauseCount(failing, c)
    requires forall c :: c in counts <==> c in order
    ensures failing != [] ==> order != []
  {
    hide CauseOf;
    if failing != [] {
      var e := failing[|failing| - 1];
      assert CauseCount(failing, CauseOf(e)) > 0;
      assert CountOf(counts, CauseOf(e)) > 0;
    }
  }

  // ---------------------------------------------------------------- propose

  datatype ChangeClass = WorkingState | Memory | Policy | Parameter

  datatype Trigger = Trigger(taskClass: string, threshold: real, window: int)

  /** The values of the `ChangeClass` enumeration. */
  function ClassName(c: ChangeClass): string {
    match c
    case WorkingState => "class_1"
    case Memory => "class_2"
    case Policy => "class_3"
    case Parameter => "class_4"
  }

  datatype Proposal = Proposal(
    proposalId: Id,
    changeClass: ChangeClass,
    targetTaskClass: Option<string>,
    rootCause: string,
    description: string,
    affected: seq<string>,
    unaffected: set<string>,
    rollbackTrigger: Option<Trigger>,
    payload: set<string>,
    objectiveWeights: map<string, real>,
    counterfactual: real)

  function CauseName(c: Cause): string {
    match c
    case RetrievalFailure => "retrieval_failure"
    case DecompositionFailure => "decomposition_failure"
    case StrategyMismatch => "strategy_mismatch"
    case ToolSelectionError => "tool_selection_error"
    case ConfidenceMiscalibration => "confidence_miscalibration"
    case DomainKnowledgeGap => "domain_knowledge_gap"
    case CommunicationFailure => "communication_failure"
  }

  /** The payload's keys and the change's class, by root cause. */
  function Remedy(c: Cause): (set<string>, ChangeClass) {
    match c
    case RetrievalFailure => ({"policy", "task_class", "set"}, Policy)
    case StrategyMismatch => ({"policy", "task_class", "set"}, Policy)
    case ToolSelectionError => ({"procedural_template"}, Memory)
    case _ => ({"annotation"}, Memory)
  }

  function Describe(f: Finding): string {
    match f.rootCause
    case RetrievalFailure =>
      "force broad retrieval for " + f.taskClass + " to address retrieval_failure cluster"
    case StrategyMismatch =>
      "switch default strategy for " + f.taskClass + " to retrieval_first"
    case ToolSelectionError =>
      "register tool-first procedural template for " + f.taskClass
    case other =>
      "annotate failure cluster for " + f.taskClass + " with " + CauseName(other)
  }

  /** A proposal for a finding: the task classes on record are `classes`, and `records` of them are of its class. */
  function ProposalFor(
    f: Finding, id: Id, classes: set<string>, records: nat, threshold: real, window: int): Proposal
  {
    var (payload, changeClass) := Remedy(f.rootCause);
    Proposal(
      id, changeClass, Some(f.taskClass), CauseName(f.rootCause), Describe(f),
      [f.taskClass], classes - {f.taskClass},
      Some(Trigger(f.taskClass, threshold, window)), payload, map[],
      if records == 0 then 0.0 else 0.5 * f.failureCount as real / records as real)
  }

  /** `propose`, given the ledger, the new proposal's id and what is on record. */
  function Propose(
    l: Ledger, f: Finding, id: Id, classes: set<string>, records: nat, threshold: real, window: int): Option<Proposal>
  {
    if Conservative(l) && Remedy(f.rootCause).1 != Memory then None
    else Some(ProposalFor(f, id, classes, records, threshold, window))
  }

  function ClassesOf(records: seq<Record>): set<string> {
    set r | r in records :: r.taskClass
  }

  function CountClass(records: seq<Record>, cls: string): nat {
    if records == [] then 0
    else CountClass(records[..|records| - 1], cls) + if records[|records| - 1].taskClass == cls then 1 else 0
  }

  /** Nothing is proposed just when conservative mode rules out the policy change the cause asks for. */
  lemma ProposeIff(l: Ledger, f: Finding, id: Id, classes: set<string>, records: nat, threshold: real, window: int)
    ensures var p := Propose(l, f, id, classes, records, threshold, window);
      && (p.None? <==> Conservative(l) && f.rootCause in {RetrievalFailure, StrategyMismatch})
      && (p.Some? ==>
            && (p.value.changeClass == Policy <==> f.rootCause in {RetrievalFailure, StrategyMismatch})
            && p.value.affected == [f.taskClass] && f.taskClass !in p.value.unaffected)
  {
  }

  /** The improvement promised is half of the class's failure rate, so it never exceeds one half. */
  lemma EstimateIsHalf(f: Finding, id: Id, classes: set<string>, records: nat, threshold: real, window: int)
    ensures var estimate := ProposalFor(f, id, classes, records, threshold, window).counterfactual;
      && (records > 0 ==> 2.0 * (estimate * records as real) == f.failureCount as real)
      && (f.failureCount <= records ==> 0.0 <= estimate <= 0.5)
  {
    var half, n := 0.5 * f.failureCount as real, records as real;
    if records > 0 {
      DivMul(half, n);
      DivCompare(0.0, half, n);
      DivCompare(half, 0.5 * n, n);
      DivUnique(0.5 * n, n, 0.5);
    }
  }

  /**
    End to end: for as long as the breaker holds, whatever is deployed, ingested or checked, and
    whatever is diagnosed, no policy change is proposed.
   */
  lemma NoPolicyWhileBroken(
    l: Ledger, rates: Rates, events: seq<AdaptationEvent>, config: Config,
    f: Finding, id: Id, classes: set<string>, records: nat, threshold: real, window: int)
    requires Consistent(l, config)
    requires |Check(l, rates, config).rollbacks| >= config.circuitBreakerRollbacks
    requires Ingested(events) < config.conservativeDuration
    ensures var p := Propose(Run(Check(l, rates, config), events, config), f, id, classes, records, threshold, window);
      p.Some? ==> p.value.changeClass != Policy
  {
    BreakerHolds(l, rates, events, config);
    ProposeIff(Run(Check(l, rates, config), events, config), f, id, classes, records, threshold, window);
  }

  /**
    The code of `propose`: it reads conservative mode off the manager and the classes off the last N
    records of the history, so the lemmas about runs speak of it.
   */
  method ProposeFrom(manager: AdaptationManager, f: Finding, id: Id, threshold: real, window: int)
    returns (p: Option<Proposal>)
    requires manager.observer.Valid()
    ensures var o := manager.observer;
      var records := LastN(o.history, o.limits.strategyBias);
      p == Propose(manager.View(), f, id, ClassesOf(records), CountClass(records, f.taskClass), threshold, window)
    ensures Conservative(manager.View()) && p.Some? ==> p.value.changeClass != Policy
  {
    hide Telemetry.TelemetryObserver.KeyedBuffers, ProposalFor;
    var records := manager.observer.recordsAll;
    var inConservativeMode := manager.observer.tasksTotal < manager.conservativeUntil;
    var allowed := if inConservativeMode then {Memory} else {Memory, Policy};
    RemedyClasses(f.rootCause);
    if Remedy(f.rootCause).1 !in allowed { return None; }
    var total := 0;
    for i := 0 to |records|
      invariant total == CountClass(records[..i], f.taskClass)
    {
      assert records[..i + 1][..i] == records[..i];
      if records[i].taskClass == f.taskClass { total := total + 1; }
    }
    assert records[..|records|] == records;
    p := Some(ProposalFor(f, id, ClassesOf(records), total, threshold, window));
    ProposeIff(manager.View(), f, id, ClassesOf(records), total, threshold, window);
  }

  lemma RemedyClasses(c: Cause)
    ensures Remedy(c).1 in {Memory, Policy}
  {
  }
}
