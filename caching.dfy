/** The cache-aside layer of src/orchestrator/caching.py: cache-key construction, the
    Redis-backed store (an abstract map, possibly unreachable), and the `cached` wrapper.
    SHA-256 is an input (`digest`); arguments are held as their `str()` renderings. */
module Caching {
  import opened Base
  import opened Text

  /** A keyword argument: its name and the `str()` of its value. */
  type Kwarg = (string, string)

  /** Python keyword arguments never repeat a name. */
  predicate DistinctNames(ps: seq<Kwarg>)
  {
    forall i, j :: 0 <= i < j < |ps| ==> ps[i].0 != ps[j].0
  }

  predicate StrictlySorted(ps: seq<Kwarg>)
  {
    forall i, j :: 0 <= i < j < |ps| ==> StrLess(ps[i].0, ps[j].0)
  }

  /** Insertion of one keyword argument by name. */
  function Insert(p: Kwarg, ps: seq<Kwarg>): seq<Kwarg>
  {
    if ps == [] then [p]
    else if StrLess(p.0, ps[0].0) then [p] + ps
    else [ps[0]] + Insert(p, ps[1..])
  }

  /** `sorted(kwargs.items())`: with distinct names the pairs are ordered by name alone. */
  function SortByName(ps: seq<Kwarg>): seq<Kwarg>
  {
    if ps == [] then [] else Insert(ps[0], SortByName(ps[1..]))
  }

  /** `f"{k}={v}"` for each pair. */
  function Rendered(ps: seq<Kwarg>): (r: seq<string>)
    ensures |r| == |ps| && forall i :: 0 <= i < |ps| ==> r[i] == ps[i].0 + "=" + ps[i].1
  {
    seq(|ps|, i requires 0 <= i < |ps| => ps[i].0 + "=" + ps[i].1)
  }

  /** `key_parts`: the function name, each positional argument, each sorted keyword argument. */
  function KeyParts(funcName: string, args: seq<string>, kwargs: seq<Kwarg>): seq<string>
  {
    [funcName] + args + Rendered(SortByName(kwargs))
  }

  function KeyString(funcName: string, args: seq<string>, kwargs: seq<Kwarg>): string
  {
    JoinWith(":", KeyParts(funcName, args, kwargs))
  }

  /** `_generate_cache_key`. */
  function CacheKey(digest: string -> string, funcName: string, args: seq<string>, kwargs: seq<Kwarg>): string
  {
    "cache:" + digest(KeyString(funcName, args, kwargs))
  }

  // ---------------------------------------------------------------------------
  // Sorting facts

  lemma {:induction false} InsertPermutes(p: Kwarg, ps: seq<Kwarg>)
    ensures multiset(Insert(p, ps)) == multiset(ps) + multiset{p}
    ensures |Insert(p, ps)| == |ps| + 1
  {
    if ps != [] && !StrLess(p.0, ps[0].0) {
      InsertPermutes(p, ps[1..]);
      assert ps == [ps[0]] + ps[1..];
    }
  }

  /** A pair whose name sorts before every name of a sorted list can go in front of it. */
  lemma ConsSorted(x: Kwarg, rest: seq<Kwarg>)
    requires StrictlySorted(rest)
    requires forall q :: q in rest ==> StrLess(x.0, q.0)
    ensures StrictlySorted([x] + rest)
  {
    var r := [x] + rest;
    forall i, j | 0 <= i < j < |r|
      ensures StrLess(r[i].0, r[j].0)
    {
      if i == 0 {
        assert r[j] == rest[j - 1] && rest[j - 1] in rest;
      }
    }
  }

  lemma {:induction false} InsertSorted(p: Kwarg, ps: seq<Kwarg>)
    requires StrictlySorted(ps)
    requires forall q :: q in ps ==> q.0 != p.0
    ensures StrictlySorted(Insert(p, ps))
  {
    if ps == [] {
    } else if StrLess(p.0, ps[0].0) {
      forall q | q in ps
        ensures StrLess(p.0, q.0)
      {
        var k :| 0 <= k < |ps| && ps[k] == q;
        if k > 0 {
          StrLessTransitive(p.0, ps[0].0, q.0);
        }
      }
      ConsSorted(p, ps);
    } else {
      var rest := Insert(p, ps[1..]);
      InsertSorted(p, ps[1..]);
      InsertPermutes(p, ps[1..]);
      StrLessTotal(p.0, ps[0].0);
      forall q | q in rest
        ensures StrLess(ps[0].0, q.0)
      {
        assert q in multiset(rest);
        assert q == p || q in ps[1..];
        if q != p {
          var k :| 0 <= k < |ps[1..]| && ps[1..][k] == q;
          assert ps[k + 1] == q;
        }
      }
      ConsSorted(ps[0], rest);
    }
  }

  lemma {:induction false} SortByNameSpec(ps: seq<Kwarg>)
    requires DistinctNames(ps)
    ensures StrictlySorted(SortByName(ps))
    ensures multiset(SortByName(ps)) == multiset(ps)
    ensures |SortByName(ps)| == |ps|
  {
    if ps != [] {
      var rest := SortByName(ps[1..]);
      SortByNameSpec(ps[1..]);
      InsertPermutes(ps[0], rest);
      forall q | q in rest
        ensures q.0 != ps[0].0
      {
        assert q in multiset(ps[1..]);
        var k :| 0 <= k < |ps[1..]| && ps[1..][k] == q;
        assert ps[k + 1] == q;
      }
      InsertSorted(ps[0], rest);
      assert ps == [ps[0]] + ps[1..];
    }
  }

  lemma TailMultiset(s: seq<Kwarg>)
    requires s != []
    ensures multiset(s[1..]) == multiset(s) - multiset{s[0]}
  {
    assert s == [s[0]] + s[1..];
  }

  /** Two strictly sorted arrangements of the same non-empty pairs start alike. */
  lemma SortedHeadsAgree(a: seq<Kwarg>, b: seq<Kwarg>)
    requires StrictlySorted(a) && StrictlySorted(b)
    requires a != [] && multiset(a) == multiset(b)
    ensures b != [] && a[0] == b[0]
  {
    assert a[0] in multiset(a);
    assert a[0] in multiset(b);
    var k :| 0 <= k < |b| && b[k] == a[0];
    assert b[0] in multiset(a);
    var m :| 0 <= m < |a| && a[m] == b[0];
    if k != 0 {
      // b[0] sorts before b[k] = a[0], yet a[0] sorts no later than a[m] = b[0].
      if m != 0 {
        StrLessTransitive(b[0].0, a[0].0, b[0].0);
      }
      StrLessIrreflexive(b[0].0);
    }
  }

  /** Two strictly sorted arrangements of the same pairs are the same sequence. */
  lemma {:induction false} SortedUnique(a: seq<Kwarg>, b: seq<Kwarg>)
    requires StrictlySorted(a) && StrictlySorted(b)
    requires multiset(a) == multiset(b)
    ensures a == b
    decreases |a|
  {
    if a == [] {
      assert |multiset(b)| == 0;
    } else {
      SortedHeadsAgree(a, b);
      TailMultiset(a);
      TailMultiset(b);
      SortedUnique(a[1..], b[1..]);
      assert a == [a[0]] + a[1..] && b == [b[0]] + b[1..];
    }
  }

  // ---------------------------------------------------------------------------
  // Key facts

  /** The order in which keyword arguments are passed never changes the key. */
  lemma KeyIgnoresKeywordOrder(digest: string -> string, funcName: string, args: seq<string>,
                               kw1: seq<Kwarg>, kw2: seq<Kwarg>)
    requires DistinctNames(kw1) && DistinctNames(kw2)
    requires multiset(kw1) == multiset(kw2)
    ensures CacheKey(digest, funcName, args, kw1) == CacheKey(digest, funcName, args, kw2)
  {
    SortByNameSpec(kw1);
    SortByNameSpec(kw2);
    SortedUnique(SortByName(kw1), SortByName(kw2));
  }

  /** The key string is the function name, then each positional argument in order, then
      one "name=value" per keyword argument in increasing name order, covering them all. */
  lemma KeyPartsLayout(funcName: string, args: seq<string>, kwargs: seq<Kwarg>)
    requires DistinctNames(kwargs)
    ensures var parts := KeyParts(funcName, args, kwargs);
      |parts| == 1 + |args| + |kwargs| && parts[0] == funcName && parts[1..1 + |args|] == args
    ensures var sorted := SortByName(kwargs);
      StrictlySorted(sorted) && multiset(sorted) == multiset(kwargs)
      && forall i :: 0 <= i < |sorted| ==>
        KeyParts(funcName, args, kwargs)[1 + |args| + i] == sorted[i].0 + "=" + sorted[i].1
  {
    SortByNameSpec(kwargs);
    var sorted := SortByName(kwargs);
    var parts := KeyParts(funcName, args, kwargs);
    assert parts == [funcName] + args + Rendered(sorted);
    assert parts[1..1 + |args|] == args;
    forall i | 0 <= i < |sorted|
      ensures parts[1 + |args| + i] == sorted[i].0 + "=" + sorted[i].1
    {
      assert parts[1 + |args| + i] == Rendered(sorted)[i];
    }
  }

  /** Parts are joined with ":" unescaped, so a positional argument holding ":" gives the
      same key as the arguments it splits into: `f("a:b")` and `f("a", "b")` share a key. */
  lemma SeparatorInArgumentCollides(digest: string -> string)
    ensures CacheKey(digest, "f", ["a:b"], []) == CacheKey(digest, "f", ["a", "b"], [])
  {
    assert KeyParts("f", ["a:b"], []) == ["f", "a:b"];
    assert KeyParts("f", ["a", "b"], []) == ["f", "a", "b"];
    assert JoinWith(":", ["f", "a:b"]) == "f:a:b";
    assert JoinWith(":", ["f", "a", "b"]) == "f" + ":" + JoinWith(":", ["a", "b"]);
    assert JoinWith(":", ["a", "b"]) == "a" + ":" + JoinWith(":", ["b"]);
    assert KeyString("f", ["a:b"], []) == "f:a:b" == KeyString("f", ["a", "b"], []);
  }

  // ---------------------------------------------------------------------------
  // The store and the wrapper

  /** `IntelligentCacheSystem`: a client that may have failed to connect, over a store. */
  class IntelligentCacheSystem<V> {
    const connected: bool
    var store: map<string, V>

    constructor(connected: bool)
      ensures this.connected == connected && store == map[]
    {
      this.connected := connected;
      store := map[];
    }

    /** `get`: `None` without a client, on a backend error, or on a miss. */
    method Get(key: string, backendError: bool) returns (r: Option<V>)
      ensures r.Some? <==> connected && !backendError && key in store
      ensures r.Some? ==> r.value == store[key]
    {
      if !connected {
        return None;
      }
      if backendError {
        return None;
      }
      if key in store {
        return Some(store[key]);
      }
      return None;
    }

    /** `set`: a no-op without a client or on a backend error. */
    method Set(key: string, value: V, backendError: bool)
      modifies this
      ensures store == if connected && !backendError then old(store)[key := value] else old(store)
    {
      if !connected {
        return;
      }
      if backendError {
        return;
      }
      store := store[key := value];
    }
  }

  /** A call of the wrapped function, with the value it returns (`None` for Python `None`). */
  type Func<V> = (seq<string>, seq<Kwarg>) -> Option<V>

  /** The `cached` wrapper. `invoked` says whether the wrapped function ran. */
  method CachedCall<V>(cache: IntelligentCacheSystem<V>, digest: string -> string, funcName: string,
                       func: Func<V>, args: seq<string>, kwargs: seq<Kwarg>,
                       getError: bool, setError: bool)
    returns (result: Option<V>, invoked: bool)
    modifies cache
    ensures var key := CacheKey(digest, funcName, args, kwargs);
      var hit := cache.connected && !getError && key in old(cache.store);
      (hit ==> result == Some(old(cache.store)[key]) && !invoked && cache.store == old(cache.store))
      && (!hit ==>
            invoked && result == func(args, kwargs)
            && cache.store == if result.Some? && cache.connected && !setError
                              then old(cache.store)[key := result.value] else old(cache.store))
  {
    var cacheKey := CacheKey(digest, funcName, args, kwargs);
    var cachedResult := cache.Get(cacheKey, getError);
    if cachedResult.Some? {
      return cachedResult, false;
    }
    result := func(args, kwargs);
    invoked := true;
    if result.Some? {
      cache.Set(cacheKey, result.value, setError);
    }
  }
}
