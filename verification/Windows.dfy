/**
  Bounded buffers. A `deque(maxlen=n)` holds the last n items ever appended; a dictionary of such
  deques, filled from one stream of keyed events, holds for each key the last n events of that key.
 */
module Windows {
  import opened Statistics

  function LastN<T>(s: seq<T>, n: nat): (r: seq<T>)
    ensures |r| <= n && |r| <= |s|
  {
    if |s| <= n then s else s[|s| - n..]
  }

  /** `deque.append` */
  function Push<T>(buffer: seq<T>, n: nat, x: T): seq<T> {
    LastN(buffer + [x], n)
  }

  /** Appending to the window of a stream gives the window of the longer stream. */
  lemma PushLastN<T>(s: seq<T>, n: nat, x: T)
    ensures Push(LastN(s, n), n, x) == LastN(s + [x], n)
  {
  }

  // ---------------------------------------------------------------- keyed windows

  datatype Event<T> = Event(key: string, value: T)

  function ForKey<T>(events: seq<Event<T>>, key: string): seq<T> {
    if events == [] then []
    else
      var rest := ForKey(events[..|events| - 1], key);
      var e := events[|events| - 1];
      if e.key == key then rest + [e.value] else rest
  }

  lemma ForKeySnoc<T>(events: seq<Event<T>>, e: Event<T>, key: string)
    ensures ForKey(events + [e], key) == if e.key == key then ForKey(events, key) + [e.value] else ForKey(events, key)
  {
    assert (events + [e])[..|events|] == events;
  }

  /** Every key seen, and no other, has the last `n` of its own events. */
  ghost predicate Keyed<T(!new)>(buffers: map<string, seq<T>>, n: nat, events: seq<Event<T>>) {
    && (forall k :: k in buffers <==> ForKey(events, k) != [])
    && forall k :: k in buffers ==> buffers[k] == LastN(ForKey(events, k), n)
  }

  /** `setdefault(key, deque(maxlen=n)).append(x)` */
  function PushKeyed<T>(buffers: map<string, seq<T>>, key: string, n: nat, x: T): map<string, seq<T>> {
    buffers[key := Push(if key in buffers then buffers[key] else [], n, x)]
  }

  lemma PushKeyedKeeps<T(!new)>(buffers: map<string, seq<T>>, n: nat, events: seq<Event<T>>, key: string, x: T)
    requires Keyed(buffers, n, events)
    ensures Keyed(PushKeyed(buffers, key, n, x), n, events + [Event(key, x)])
  {
    hide LastN;
    var after := PushKeyed(buffers, key, n, x);
    forall k
      ensures k in after <==> ForKey(events + [Event(key, x)], k) != []
      ensures k in after ==> after[k] == LastN(ForKey(events + [Event(key, x)], k), n)
    {
      ForKeySnoc(events, Event(key, x), k);
      PushLastN(ForKey(events, k), n, x);
      assert LastN<T>([], n) == [] by { assert |LastN<T>([], n)| == 0; }
    }
  }

  // ---------------------------------------------------------------- rates

  function Scores<T>(s: seq<T>, score: T -> real): (r: seq<real>)
    ensures |r| == |s| && forall i :: 0 <= i < |s| ==> r[i] == score(s[i])
  {
    seq(|s|, i requires 0 <= i < |s| => score(s[i]))
  }

  /**
    The loop of `_win_rate_by_class`, `_tool_success_rate` and `_avg_cost_by_class`: the mean
    score of every non-empty buffer.
   */
  method MeanByKey<T>(buffers: map<string, seq<T>>, score: T -> real) returns (out: map<string, real>)
    ensures forall k :: k in out <==> k in buffers && buffers[k] != []
    ensures forall k :: k in out ==> out[k] == Mean(Scores(buffers[k], score))
  {
    out := map[];
    var keys := buffers.Keys;
    while keys != {}
      invariant keys <= buffers.Keys
      invariant forall k :: k in out <==> k in buffers && k !in keys && buffers[k] != []
      invariant forall k :: k in out ==> out[k] == Mean(Scores(buffers[k], score))
      decreases |keys|
    {
      var k :| k in keys;
      keys := keys - {k};
      if buffers[k] != [] {
        var total := 0.0;
        var scores := Scores(buffers[k], score);
        for i := 0 to |buffers[k]|
          invariant total == Sum(scores[..i])
        {
          assert scores[..i + 1][..i] == scores[..i];
          total := total + score(buffers[k][i]);
        }
        assert scores[..|buffers[k]|] == scores;
        out := out[k := total / |buffers[k]| as real];
      }
    }
  }

  // ---------------------------------------------------------------- shares

  function Occurrences(s: seq<string>, x: string): nat {
    if s == [] then 0 else Occurrences(s[..|s| - 1], x) + if s[|s| - 1] == x then 1 else 0
  }

  function OccurrencesIn(s: seq<string>, xs: set<string>): nat {
    if s == [] then 0 else OccurrencesIn(s[..|s| - 1], xs) + if s[|s| - 1] in xs then 1 else 0
  }

  lemma {:induction false} OneMoreValue(s: seq<string>, xs: set<string>, x: string)
    requires x !in xs
    ensures OccurrencesIn(s, xs + {x}) == OccurrencesIn(s, xs) + Occurrences(s, x)
  {
    if s != [] { OneMoreValue(s[..|s| - 1], xs, x); }
  }

  lemma {:induction false} AllValues(s: seq<string>, xs: set<string>)
    ensures (forall x :: x in s ==> x in xs) ==> OccurrencesIn(s, xs) == |s|
    ensures OccurrencesIn(s, {}) == 0
  {
    if s != [] {
      AllValues(s[..|s| - 1], xs);
      assert s == s[..|s| - 1] + [s[|s| - 1]];
    }
  }

  /** `Counter(s)` */
  method CountValues(s: seq<string>) returns (counts: map<string, nat>)
    ensures forall x :: x in counts <==> x in s
    ensures forall x :: x in counts ==> counts[x] == Occurrences(s, x)
  {
    counts := map[];
    for i := 0 to |s|
      invariant forall x :: x in counts <==> x in s[..i]
      invariant forall x :: (if x in counts then counts[x] else 0) == Occurrences(s[..i], x)
    {
      assert s[..i + 1] == s[..i] + [s[i]];
      counts := counts[s[i] := (if s[i] in counts then counts[s[i]] else 0) + 1];
    }
    assert s[..|s|] == s;
  }

  /** `sum(counts.values())`: every item was counted once. */
  method SumCounts(counts: map<string, nat>, ghost s: seq<string>) returns (total: nat)
    requires forall x :: x in counts <==> x in s
    requires forall x :: x in counts ==> counts[x] == Occurrences(s, x)
    ensures total == |s|
  {
    total := 0;
    var keys := counts.Keys;
    ghost var done: set<string> := {};
    AllValues(s, {});
    while keys != {}
      invariant keys <= counts.Keys && done == counts.Keys - keys
      invariant total == OccurrencesIn(s, done)
      decreases |keys|
    {
      var x :| x in keys;
      OneMoreValue(s, done, x);
      keys, done := keys - {x}, done + {x};
      total := total + counts[x];
    }
    AllValues(s, done);
  }

  /** `_strategy_bias` and `_failure_mode_frequency`: each value's share of a buffer. */
  method ShareByValue(s: seq<string>) returns (out: map<string, real>)
    ensures forall x :: x in out <==> x in s
    ensures forall x :: x in out ==> out[x] == Occurrences(s, x) as real / |s| as real
  {
    out := map[];
    if s == [] { return; }
    var counts := CountValues(s);
    var total := SumCounts(counts, s);
    var keys := counts.Keys;
    while keys != {}
      invariant keys <= counts.Keys
      invariant forall x :: x in out <==> x in counts && x !in keys
      invariant forall x :: x in out ==> out[x] == Occurrences(s, x) as real / |s| as real
      decreases |keys|
    {
      var x :| x in keys;
      keys := keys - {x};
      out := out[x := counts[x] as real / total as real];
    }
  }
}
