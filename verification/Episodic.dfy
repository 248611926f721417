/**
  Episodic memory (axis/memory/episodic.py): a list of episodes with a position index beside it.
  `Valid` says the index is exactly the inverse of the list.
 */
module Episodic {
  import opened Wrappers
  import opened Collections
  import opened PlanTypes
  import opened Text
  import opened Windows

  class Episode {
    const episodeId: Id
    const timestamp: real
    const taskClass: string
    const outcome: TaskOutcome
    const outcomeDetail: Option<string>
    var inputSummary: string
    var embedding: seq<real>
    var postmortem: Option<string>

    constructor (id: Id, timestamp: real, taskClass: string, outcome: TaskOutcome, detail: Option<string>,
                 inputSummary: string, embedding: seq<real>)
      ensures episodeId == id && this.timestamp == timestamp && this.taskClass == taskClass
      ensures this.outcome == outcome && outcomeDetail == detail
      ensures this.inputSummary == inputSummary && this.embedding == embedding && postmortem == None
    {
      this.episodeId, this.timestamp, this.taskClass := id, timestamp, taskClass;
      this.outcome, this.outcomeDetail := outcome, detail;
      this.inputSummary, this.embedding, this.postmortem := inputSummary, embedding, None;
    }
  }

  function EpisodeIds(episodes: seq<Episode>): (ids: seq<Id>)
    ensures |ids| == |episodes| && forall i :: 0 <= i < |episodes| ==> ids[i] == episodes[i].episodeId
  {
    seq(|episodes|, i requires 0 <= i < |episodes| => episodes[i].episodeId)
  }

  /** The index maps each episode's id to its position, and nothing else. */
  ghost predicate Indexes(byId: map<Id, nat>, ids: seq<Id>) {
    && (forall i :: 0 <= i < |ids| ==> ids[i] in byId && byId[ids[i]] == i)
    && forall x :: x in byId ==> byId[x] < |ids| && ids[byId[x]] == x
  }

  /** An index exists only over distinct ids. */
  lemma IndexedIdsDistinct(byId: map<Id, nat>, ids: seq<Id>)
    requires Indexes(byId, ids)
    ensures Distinct(ids)
    ensures forall x :: x in byId <==> x in ids
  {
  }

  // ---------------------------------------------------------------- removing episodes

  /** The episodes whose id is not in `gone`, in their original order. */
  function Without(episodes: seq<Episode>, gone: set<Id>): (r: seq<Episode>)
    ensures forall i :: 0 <= i < |r| ==> r[i] in episodes && r[i].episodeId !in gone
    ensures forall i :: 0 <= i < |episodes| && episodes[i].episodeId !in gone ==> episodes[i] in r
  {
    if episodes == [] then []
    else
      var rest := Without(episodes[..|episodes| - 1], gone);
      var e := episodes[|episodes| - 1];
      assert episodes == episodes[..|episodes| - 1] + [e];
      if e.episodeId in gone then rest else rest + [e]
  }

  lemma {:induction false} WithoutConcat(a: seq<Episode>, b: seq<Episode>, gone: set<Id>)
    ensures Without(a + b, gone) == Without(a, gone) + Without(b, gone)
  {
    if b == [] {
      assert a + b == a;
    } else {
      var n := |b| - 1;
      WithoutConcat(a, b[..n], gone);
      assert (a + b)[..|a + b| - 1] == a + b[..n];
    }
  }

  lemma {:induction false} WithoutNone(episodes: seq<Episode>, gone: set<Id>)
    requires forall i :: 0 <= i < |episodes| ==> episodes[i].episodeId !in gone
    ensures Without(episodes, gone) == episodes
  {
    if episodes != [] {
      var n := |episodes| - 1;
      WithoutNone(episodes[..n], gone);
      assert episodes == episodes[..n] + [episodes[n]];
    }
  }

  lemma {:induction false} WithoutTwice(episodes: seq<Episode>, gone: set<Id>, more: set<Id>)
    ensures Without(Without(episodes, gone), more) == Without(episodes, gone + more)
  {
    if episodes != [] {
      var n := |episodes| - 1;
      WithoutTwice(episodes[..n], gone, more);
      var e := episodes[n];
      if e.episodeId !in gone {
        WithoutConcat(Without(episodes[..n], gone), [e], more);
        assert Without([e], more) == if e.episodeId in more then [] else [e];
      }
    }
  }

  function RemoveAt<T>(s: seq<T>, i: nat): seq<T>
    requires i < |s|
  {
    s[..i] + s[i + 1..]
  }

  lemma RemoveAtSnoc<T>(s: seq<T>, i: nat)
    requires i < |s|
    ensures RemoveAt(s, i) ==
            if i == |s| - 1 then s[..|s| - 1] else RemoveAt(s[..|s| - 1], i) + [s[|s| - 1]]
  {
  }

  /** Taking one position out is the same as filtering by its id. */
  lemma {:induction false} WithoutOne(episodes: seq<Episode>, i: nat)
    requires Distinct(EpisodeIds(episodes)) && i < |episodes|
    ensures Without(episodes, {episodes[i].episodeId}) == RemoveAt(episodes, i)
  {
    hide RemoveAt;
    var n, ids := |episodes| - 1, EpisodeIds(episodes);
    RemoveAtSnoc(episodes, i);
    if i == n {
      forall k | 0 <= k < n ensures episodes[..n][k].episodeId !in {episodes[i].episodeId} {
        assert ids[k] != ids[n];
      }
      WithoutNone(episodes[..n], {episodes[i].episodeId});
    } else {
      assert EpisodeIds(episodes[..n]) == ids[..n];
      WithoutOne(episodes[..n], i);
      assert ids[i] != ids[n];
    }
  }

  lemma {:induction false} WithoutLength(episodes: seq<Episode>, gone: set<Id>)
    requires Distinct(EpisodeIds(episodes)) && forall x :: x in gone ==> x in EpisodeIds(episodes)
    ensures |Without(episodes, gone)| == |episodes| - |gone|
  {
    if episodes == [] {
      assert gone == {};
    } else {
      var n := |episodes| - 1;
      var e, ids := episodes[n], EpisodeIds(episodes);
      var front := EpisodeIds(episodes[..n]);
      assert ids == front + [e.episodeId];
      assert e.episodeId !in front;
      WithoutLength(episodes[..n], gone - {e.episodeId});
      WithoutAbsent(episodes[..n], gone, e.episodeId);
    }
  }

  lemma {:induction false} WithoutAbsent(episodes: seq<Episode>, gone: set<Id>, x: Id)
    requires x !in EpisodeIds(episodes)
    ensures Without(episodes, gone - {x}) == Without(episodes, gone)
  {
    if episodes != [] {
      var n := |episodes| - 1;
      assert EpisodeIds(episodes) == EpisodeIds(episodes[..n]) + [episodes[n].episodeId];
      WithoutAbsent(episodes[..n], gone, x);
    }
  }

  lemma {:induction false} WithoutDistinct(episodes: seq<Episode>, gone: set<Id>)
    requires Distinct(EpisodeIds(episodes))
    ensures Distinct(EpisodeIds(Without(episodes, gone)))
  {
    if episodes != [] {
      var n := |episodes| - 1;
      var front := Without(episodes[..n], gone);
      WithoutDistinct(episodes[..n], gone);
      forall i | 0 <= i < |front| ensures front[i].episodeId != episodes[n].episodeId {
        assert front[i] in episodes[..n];
        var k :| 0 <= k < n && episodes[k] == front[i];
        assert EpisodeIds(episodes)[k] != EpisodeIds(episodes)[n];
      }
    }
  }

  // ---------------------------------------------------------------- failure clusters

  /** `(ep.outcome_detail or "unknown").strip() or "unknown"` */
  function BucketKey(e: Episode): string {
    var detail := if e.outcomeDetail.Some? && |e.outcomeDetail.value| > 0 then e.outcomeDetail.value else "unknown";
    var stripped := Strip(detail);
    if |stripped| > 0 then stripped else "unknown"
  }

  /** A failing episode of the class asked for; no class, or an empty one, means any. */
  predicate Fails(e: Episode, taskClass: Option<string>) {
    e.outcome == Failure && (taskClass.Some? && |taskClass.value| > 0 ==> e.taskClass == taskClass.value)
  }

  function Failing(episodes: seq<Episode>, taskClass: Option<string>): seq<Episode> {
    if episodes == [] then []
    else
      var rest := Failing(episodes[..|episodes| - 1], taskClass);
      if Fails(episodes[|episodes| - 1], taskClass) then rest + [episodes[|episodes| - 1]] else rest
  }

  /** Exactly the failed episodes of the class asked for are clustered; a class left out or empty means any. */
  lemma {:induction false} FailingIff(episodes: seq<Episode>, taskClass: Option<string>, e: Episode)
    ensures e in Failing(episodes, taskClass) <==>
      e in episodes && e.outcome == Failure && (taskClass == None || taskClass == Some("") || taskClass == Some(e.taskClass))
  {
    if episodes != [] {
      var n := |episodes| - 1;
      FailingIff(episodes[..n], taskClass, e);
      assert episodes == episodes[..n] + [episodes[n]];
    }
  }

  function InBucket(failing: seq<Episode>, key: string): seq<Episode> {
    if failing == [] then []
    else
      var rest := InBucket(failing[..|failing| - 1], key);
      if BucketKey(failing[|failing| - 1]) == key then rest + [failing[|failing| - 1]] else rest
  }

  /** Every failing episode is in the bucket of its error, and in no other. */
  ghost predicate Clustered(buckets: map<string, seq<Episode>>, failing: seq<Episode>) {
    && (forall k :: k in buckets <==> InBucket(failing, k) != [])
    && forall k :: k in buckets ==> buckets[k] == InBucket(failing, k)
  }

  /** The buckets' keys in the order their first episodes failed. */
  function BucketOrder(failing: seq<Episode>): seq<string> {
    if failing == [] then []
    else
      var before, key := BucketOrder(failing[..|failing| - 1]), BucketKey(failing[|failing| - 1]);
      if key in before then before else before + [key]
  }

  lemma {:induction false} BucketOrderFacts(failing: seq<Episode>)
    ensures Distinct(BucketOrder(failing))
    ensures forall k :: k in BucketOrder(failing) <==> InBucket(failing, k) != []
  {
    hide BucketKey;
    if failing != [] { BucketOrderFacts(failing[..|failing| - 1]); }
  }

  lemma OneMoreKey(buckets: map<string, seq<Episode>>, failing: seq<Episode>, e: Episode)
    requires Clustered(buckets, failing)
    ensures var key := BucketKey(e);
      BucketOrder(failing + [e]) == BucketOrder(failing) + if key in buckets then [] else [key]
  {
    hide BucketKey;
    assert (failing + [e])[..|failing|] == failing;
    BucketOrderFacts(failing);
  }

  lemma ClusterOneMore(buckets: map<string, seq<Episode>>, failing: seq<Episode>, e: Episode)
    requires Clustered(buckets, failing)
    ensures var key := BucketKey(e);
      Clustered(buckets[key := (if key in buckets then buckets[key] else []) + [e]], failing + [e])
  {
    hide BucketKey;
    assert (failing + [e])[..|failing|] == failing;
  }

  // ---------------------------------------------------------------- the store

  class EpisodicMemory {
    var episodes: seq<Episode>
    var byId: map<Id, nat>
    const maxEpisodes: int

    ghost predicate Valid()
      reads this
    {
      Indexes(byId, EpisodeIds(episodes))
    }

    constructor (maxEpisodes: int)
      ensures Valid() && episodes == [] && this.maxEpisodes == maxEpisodes
    {
      episodes, byId, this.maxEpisodes := [], map[], maxEpisodes;
    }

    method Reindex()
      requires Distinct(EpisodeIds(episodes))
      modifies this`byId
      ensures Valid()
    {
      byId := map[];
      for i := 0 to |episodes|
        invariant Indexes(byId, EpisodeIds(episodes)[..i])
      {
        assert EpisodeIds(episodes)[i] == episodes[i].episodeId;
        byId := byId[episodes[i].episodeId := i];
      }
      assert EpisodeIds(episodes)[..|episodes|] == EpisodeIds(episodes);
    }

    /** `pop(0)`, and the index rebuilt. */
    method DropOldest()
      requires Valid() && episodes != []
      modifies this
      ensures Valid() && episodes == old(episodes)[1..]
    {
      IndexedIdsDistinct(byId, EpisodeIds(episodes));
      ghost var before := EpisodeIds(episodes);
      byId := byId - {episodes[0].episodeId};
      episodes := episodes[1..];
      assert EpisodeIds(episodes) == before[1..];
      Reindex();
    }

    method Append(e: Episode)
      requires Valid() && e.episodeId !in EpisodeIds(episodes)
      modifies this
      ensures Valid() && episodes == old(episodes) + [e]
    {
      ghost var before := EpisodeIds(episodes);
      episodes := episodes + [e];
      assert EpisodeIds(episodes) == before + [e.episodeId];
      byId := byId[e.episodeId := |episodes| - 1];
    }

    /**
      `add`: a duplicate id is refused; otherwise the store keeps the last `max_episodes`. A negative
      limit empties the store and then raises, on popping from the empty list.
     */
    method Add(e: Episode) returns (r: Result<(), string>)
      requires Valid()
      modifies this
      ensures Valid()
      ensures r.Ok? <==> e.episodeId !in old(EpisodeIds(episodes)) && maxEpisodes >= 0
      ensures episodes ==
        if e.episodeId in old(EpisodeIds(episodes)) then old(episodes)
        else if maxEpisodes < 0 then []
        else LastN(old(episodes) + [e], maxEpisodes)
    {
      hide Indexes, EpisodeIds;
      IndexedIdsDistinct(byId, EpisodeIds(episodes));
      if e.episodeId in byId { return Err("duplicate episode_id: " + e.episodeId); }
      ghost var all := episodes + [e];
      Append(e);
      while |episodes| > maxEpisodes
        invariant Valid()
        invariant |episodes| <= |all| && episodes == all[|all| - |episodes|..]
        invariant |episodes| < |all| ==> |episodes| >= maxEpisodes
        decreases |episodes|
      {
        if episodes == [] { return Err("pop from empty list"); }
        DropOldest();
      }
      r := Ok(());
    }

    /** The Adaptation Manager's write; an unknown id raises. */
    method AnnotatePostmortem(id: Id, postmortem: string) returns (r: Result<(), string>)
      requires Valid()
      modifies episodes
      ensures Valid() && (r.Ok? <==> id in EpisodeIds(episodes))
      ensures forall e :: e in episodes ==>
        e.postmortem == if e.episodeId == id then Some(postmortem) else old(e.postmortem)
      ensures forall e :: e in episodes ==> e.inputSummary == old(e.inputSummary) && e.embedding == old(e.embedding)
    {
      IndexedIdsDistinct(byId, EpisodeIds(episodes));
      if id !in byId { return Err(id); }
      forall i | 0 <= i < |episodes| ensures episodes[i].episodeId == id <==> i == byId[id] {
        assert EpisodeIds(episodes)[i] == episodes[i].episodeId;
      }
      episodes[byId[id]].postmortem := Some(postmortem);
      r := Ok(());
    }

    /** `delete`: the episode with that id, if any, is gone; the rest keep their order. */
    method Delete(id: Id)
      requires Valid()
      modifies this
      ensures Valid() && episodes == Without(old(episodes), {id})
    {
      IndexedIdsDistinct(byId, EpisodeIds(episodes));
      if id !in byId {
        forall i | 0 <= i < |episodes| ensures episodes[i].episodeId !in {id} {
          assert EpisodeIds(episodes)[i] == episodes[i].episodeId;
        }
        WithoutNone(episodes, {id});
        return;
      }
      var idx := byId[id];
      WithoutOne(episodes, idx);
      WithoutDistinct(episodes, {id});
      byId := byId - {id};
      episodes := RemoveAt(episodes, idx);
      Reindex();
    }

    /** `cluster_failures`: the failing episodes of a class, bucketed by error. */
    method ClusterFailures(taskClass: Option<string>) returns (buckets: map<string, seq<Episode>>, order: seq<string>)
      ensures Clustered(buckets, Failing(episodes, taskClass))
      ensures order == BucketOrder(Failing(episodes, taskClass))
    {
      hide Clustered, BucketKey, BucketOrder;
      buckets, order := map[], [];
      NothingClustered();
      for i := 0 to |episodes|
        invariant Clustered(buckets, Failing(episodes[..i], taskClass))
        invariant order == BucketOrder(Failing(episodes[..i], taskClass))
      {
        assert episodes[..i + 1][..i] == episodes[..i];
        if Fails(episodes[i], taskClass) {
          var key := BucketKey(episodes[i]);
          ClusterOneMore(buckets, Failing(episodes[..i], taskClass), episodes[i]);
          OneMoreKey(buckets, Failing(episodes[..i], taskClass), episodes[i]);
          if key !in buckets { order := order + [key]; }
          buckets := buckets[key := (if key in buckets then buckets[key] else []) + [episodes[i]]];
        }
      }
      assert episodes[..|episodes|] == episodes;
    }
  }

  lemma NothingClustered()
    ensures Clustered(map[], []) && BucketOrder([]) == []
  {
  }
}
