/** The bounded, insertion-ordered cache of statement keys, against an unbounded one. */
module Dedup {
  import opened Common

  const CACHE_LIMIT := 1024

  /** `Set.add` on an insertion-ordered set. */
  function Add<K(==)>(keys: seq<K>, k: K): seq<K> {
    if k in keys then keys else keys + [k]
  }

  function AddAll<K(==)>(keys: seq<K>, more: seq<K>): seq<K>
    decreases |more|
  {
    if more == [] then keys else AddAll(Add(keys, more[0]), more[1..])
  }

  /** A live statement's key: a new one may push the oldest out. */
  function AddCapped<K(==)>(cache: seq<K>, k: K): seq<K> {
    if k in cache then cache
    else if |cache| + 1 > CACHE_LIMIT then (cache + [k])[1..]
    else cache + [k]
  }

  /** For each key of the input, whether it is taken as new. */
  function AcceptsCapped<K(==)>(cache: seq<K>, input: seq<K>): seq<bool>
    decreases |input|
  {
    if input == [] then [] else [input[0] !in cache] + AcceptsCapped(AddCapped(cache, input[0]), input[1..])
  }

  function AcceptsUnbounded<K(==)>(history: seq<K>, input: seq<K>): seq<bool>
    decreases |input|
  {
    if input == [] then [] else [input[0] !in history] + AcceptsUnbounded(Add(history, input[0]), input[1..])
  }

  /** Every repeat arrives with fewer than `window` new keys inserted since its key. */
  predicate CloseRepeats<K(==)>(history: seq<K>, input: seq<K>, window: nat)
    decreases |input|
  {
    input == [] ||
    (&& (forall i :: 0 <= i < |history| && history[i] == input[0] ==> |history| - 1 - i < window)
     && CloseRepeats(Add(history, input[0]), input[1..], window))
  }

  /** What the cache holds: 1024 keys, or more if it was seeded above that. */
  function Window<K>(seed: seq<K>): nat { Max(1024, |seed|) }

  /** The cache holds the newest `window` keys of the history. */
  ghost predicate Holds<K>(cache: seq<K>, history: seq<K>, window: nat) {
    Distinct(history) && cache == history[|history| - Min(|history|, window)..]
  }

  lemma MembershipIsRecency<K>(cache: seq<K>, history: seq<K>, window: nat, k: K)
    requires Holds(cache, history, window)
    ensures k in cache ==> k in history
    ensures k in history ==>
      (k in cache <==> forall i :: 0 <= i < |history| && history[i] == k ==> |history| - 1 - i < window)
  {
    var start := |history| - Min(|history|, window);
    assert forall i :: 0 <= i < |cache| ==> cache[i] == history[start + i];
    if k in history {
      var i :| 0 <= i < |history| && history[i] == k;
      if i >= start {
        assert cache[i - start] == k;
      }
    }
  }

  lemma {:induction false} SameDecisions<K>(cache: seq<K>, history: seq<K>, input: seq<K>, window: nat)
    requires CACHE_LIMIT <= window && (CACHE_LIMIT < window ==> |history| >= window)
    requires Holds(cache, history, window)
    ensures AcceptsCapped(cache, input) == AcceptsUnbounded(history, input) <==> CloseRepeats(history, input, window)
    decreases |input|
  {
    if input != [] {
      var k := input[0];
      MembershipIsRecency(cache, history, window, k);
      if k in history && k !in cache {
        assert AcceptsCapped(cache, input)[0] && !AcceptsUnbounded(history, input)[0];
      } else {
        var cache', history' := AddCapped(cache, k), Add(history, k);
        assert Holds(cache', history', window);
        SameDecisions(cache', history', input[1..], window);
        assert AcceptsCapped(cache, input)[1..] == AcceptsCapped(cache', input[1..]);
        assert AcceptsUnbounded(history, input)[1..] == AcceptsUnbounded(history', input[1..]);
      }
    }
  }

  /**
   * Bounded deduplication refines unbounded deduplication on exactly the inputs whose
   * repeats come within the window.
   */
  lemma BoundedRefinesUnbounded<K>(seed: seq<K>, input: seq<K>)
    requires Distinct(seed)
    ensures AcceptsCapped(seed, input) == AcceptsUnbounded(seed, input)
       <==> CloseRepeats(seed, input, Window(seed))
  {
    SameDecisions(seed, seed, input, Window(seed));
  }

  function FinalCache<K(==)>(cache: seq<K>, input: seq<K>): seq<K>
    decreases |input|
  {
    if input == [] then cache else FinalCache(AddCapped(cache, input[0]), input[1..])
  }

  lemma {:induction false} CacheBounded<K>(cache: seq<K>, input: seq<K>)
    requires Distinct(cache)
    ensures Distinct(FinalCache(cache, input)) && |FinalCache(cache, input)| <= Window(cache)
    decreases |input|
  {
    if input != [] {
      CacheBounded(AddCapped(cache, input[0]), input[1..]);
    }
  }
}
