/** The tracker's seven-level cache facade (`_get_from_cache_hierarchy`,
    `_set_in_cache_hierarchy`, `_invalidate_cache_pattern` of
    `UltimateTimeTracker`, Utils/timekeeper.py). Each cache is a plain
    key/value map: expiry and eviction of the TTL and LFU caches are not
    modelled, so a stored entry stays until it is invalidated. */
module CacheHierarchy {
  import opened Wrappers
  import opened Text

  /** The seven caches and the hit/miss counters of `operation_metrics`. */
  datatype Caches<V> = Caches(
    l1: map<string, V>, l2: map<string, V>, l3: map<string, V>,
    user: map<string, V>, leaderboard: map<string, V>,
    settings: map<string, V>, analytics: map<string, V>,
    hits: nat, misses: nat)

  function Empty<V>(): Caches<V> {
    Caches(map[], map[], map[], map[], map[], map[], map[], 0, 0)
  }

  /** Whether any of the seven caches holds `key`. */
  predicate Cached<V>(c: Caches<V>, key: string) {
    key in c.l1 || key in c.l2 || key in c.l3 || key in c.user
    || key in c.leaderboard || key in c.settings || key in c.analytics
  }

  /** The value a lookup sees: the first cache holding the key, in the order
      L1, L2, L3, user, leaderboard, settings, analytics. */
  function Lookup<V>(c: Caches<V>, key: string): (r: Option<V>)
    ensures r.Some? <==> Cached(c, key)
    ensures key in c.l1 ==> r == Some(c.l1[key])
  {
    if key in c.l1 then Some(c.l1[key])
    else if key in c.l2 then Some(c.l2[key])
    else if key in c.l3 then Some(c.l3[key])
    else if key in c.user then Some(c.user[key])
    else if key in c.leaderboard then Some(c.leaderboard[key])
    else if key in c.settings then Some(c.settings[key])
    else if key in c.analytics then Some(c.analytics[key])
    else None
  }

  /** One `_get_from_cache_hierarchy(key)`: the value seen and the caches
      afterwards. A hit below L1 is copied into L1, and a hit in L3 into L2
      as well; a hit counts in `cache_hits`, a miss in `cache_misses`. */
  function Got<V>(c: Caches<V>, key: string): (r: (Caches<V>, Option<V>))
    ensures r.1 == Lookup(c, key)
  {
    var hit := c.(hits := c.hits + 1);
    if key in c.l1 then (hit, Some(c.l1[key]))
    else if key in c.l2 then (hit.(l1 := c.l1[key := c.l2[key]]), Some(c.l2[key]))
    else if key in c.l3 then
      (hit.(l1 := c.l1[key := c.l3[key]], l2 := c.l2[key := c.l3[key]]), Some(c.l3[key]))
    else if Cached(c, key) then
      var v := Lookup(c, key).value;
      (hit.(l1 := c.l1[key := v]), Some(v))
    else (c.(misses := c.misses + 1), None)
  }

  /** The specialised cache a `cache_type` string selects; any string other
      than the four names (the default is 'general') selects none. */
  datatype CacheKind = General | UserKind | LeaderboardKind | SettingsKind | AnalyticsKind

  function KindOf(cacheType: string): CacheKind {
    if cacheType == "user" then UserKind
    else if cacheType == "leaderboard" then LeaderboardKind
    else if cacheType == "settings" then SettingsKind
    else if cacheType == "analytics" then AnalyticsKind
    else General
  }

  /** One `_set_in_cache_hierarchy(key, value, cache_type)`: the value goes
      to L1, L2 and L3, and to the specialised cache `cache_type` names;
      any other `cache_type` (the default is 'general') adds no fourth copy. */
  function Put<V>(c: Caches<V>, key: string, value: V, kind: CacheKind): Caches<V>
  {
    var layered := c.(l1 := c.l1[key := value], l2 := c.l2[key := value], l3 := c.l3[key := value]);
    match kind
    case UserKind => layered.(user := c.user[key := value])
    case LeaderboardKind => layered.(leaderboard := c.leaderboard[key := value])
    case SettingsKind => layered.(settings := c.settings[key := value])
    case AnalyticsKind => layered.(analytics := c.analytics[key := value])
    case General => layered
  }

  /** `m` without the keys that contain `pattern`. */
  function Without<V>(m: map<string, V>, pattern: string): map<string, V> {
    map k | k in m && !IsSubstring(pattern, k) :: m[k]
  }

  /** `_invalidate_cache_pattern(pattern)` on all seven caches. */
  function Invalidated<V>(c: Caches<V>, pattern: string): Caches<V> {
    c.(l1 := Without(c.l1, pattern), l2 := Without(c.l2, pattern), l3 := Without(c.l3, pattern),
       user := Without(c.user, pattern), leaderboard := Without(c.leaderboard, pattern),
       settings := Without(c.settings, pattern), analytics := Without(c.analytics, pattern))
  }

  /** Read your write: right after `_set_in_cache_hierarchy(key, v, t)` a
      lookup of `key` returns `v`, whatever `t` is, and counts a hit. */
  lemma ReadYourWrite<V>(c: Caches<V>, key: string, value: V, kind: CacheKind)
    ensures Got(Put(c, key, value, kind), key).1 == Some(value)
  {
    var p := Put(c, key, value, kind);
    assert key in p.l1;
  }

  /** Setting one key leaves what every other key looks up to unchanged. */
  lemma PutKeepsOtherKeys<V>(c: Caches<V>, key: string, value: V, kind: CacheKind, other: string)
    requires other != key
    ensures Lookup(Put(c, key, value, kind), other) == Lookup(c, other)
  {
    var p := Put(c, key, value, kind);
  }

  /** Each lookup counts exactly once: a hit in `cache_hits`, a miss in
      `cache_misses`. */
  lemma GetCountsOnce<V>(c: Caches<V>, key: string)
    ensures Got(c, key).0.hits + Got(c, key).0.misses == c.hits + c.misses + 1
    ensures Got(c, key).1.Some? <==> Got(c, key).0.hits == c.hits + 1
  {
  }

  /** A lookup finds exactly the keys some cache holds, and after a hit the
      key is in L1 with the value returned, so a repeated lookup returns the
      same value straight from L1. */
  lemma PromotionMakesRepeatHitL1<V>(c: Caches<V>, key: string)
    ensures Got(c, key).1.Some? <==> Cached(c, key)
    ensures Got(c, key).1.Some? ==>
      var c' := Got(c, key).0;
      key in c'.l1 && Got(c', key).1 == Got(c, key).1 && Got(c', key).0.l1 == c'.l1
  {
  }

  /** Lookups never change what any key looks up to: promotion only copies a
      value the hierarchy already returns. */
  lemma GetPreservesLookups<V>(c: Caches<V>, key: string, other: string)
    ensures Lookup(Got(c, key).0, other) == Lookup(c, other)
  {
    if key in c.l1 || !Cached(c, key) {
      GotWithoutPromotion(c, key, other);
    } else if key in c.l3 && key !in c.l2 {
      GotFromL3(c, key, other);
    } else {
      GotIntoL1(c, key, other);
    }
  }

  lemma GotWithoutPromotion<V>(c: Caches<V>, key: string, other: string)
    requires key in c.l1 || !Cached(c, key)
    ensures Lookup(Got(c, key).0, other) == Lookup(c, other)
  {
    var d := Got(c, key).0;
    assert d.(hits := c.hits, misses := c.misses) == c;
  }

  lemma GotFromL3<V>(c: Caches<V>, key: string, other: string)
    requires key !in c.l1 && key !in c.l2 && key in c.l3
    ensures Lookup(Got(c, key).0, other) == Lookup(c, other)
  {
    var v := c.l3[key];
    var h2 := c.(l2 := c.l2[key := v]);
    PromotedToL1(c, key, v, other);
    PromotedToL1(h2, key, v, other);
    assert Got(c, key).0.(hits := c.hits) == h2.(l1 := h2.l1[key := v]);
  }

  lemma GotIntoL1<V>(c: Caches<V>, key: string, other: string)
    requires key !in c.l1 && Cached(c, key) && (key in c.l2 || key !in c.l3)
    ensures Lookup(Got(c, key).0, other) == Lookup(c, other)
  {
    var v := Lookup(c, key).value;
    PromotedToL1(c, key, v, other);
    assert Got(c, key).0.(hits := c.hits) == c.(l1 := c.l1[key := v]);
  }

  /** Copying the value a key already looks up to into a faster cache
      changes no lookup. */
  lemma PromotedToL1<V>(c: Caches<V>, key: string, v: V, other: string)
    requires Lookup(c, key) == Some(v)
    ensures Lookup(c.(l1 := c.l1[key := v]), other) == Lookup(c, other)
    ensures key !in c.l1 ==> Lookup(c.(l2 := c.l2[key := v]), other) == Lookup(c, other)
  {
  }

  /** After invalidation a key containing the pattern is a miss everywhere,
      and every other key looks up exactly as before. */
  lemma InvalidateRemovesExactlyMatches<V>(c: Caches<V>, pattern: string, key: string)
    ensures Lookup(Invalidated(c, pattern), key) ==
      (if IsSubstring(pattern, key) then None else Lookup(c, key))
  {
    var d := Invalidated(c, pattern);
    if IsSubstring(pattern, key) {
      assert !Cached(d, key);
    }
  }

  /** `cache.pop(key)` for every key of `m` that contains `pattern`. */
  method DropMatching<V>(m: map<string, V>, pattern: string) returns (r: map<string, V>)
    ensures r == Without(m, pattern)
  {
    var doomed := set k | k in m && IsSubstring(pattern, k);
    r := m;
    var left := doomed;
    while left != {}
      invariant left <= doomed
      invariant r.Keys == m.Keys - (doomed - left)
      invariant forall k :: k in r ==> r[k] == m[k]
      decreases left
    {
      var k :| k in left;
      r := r - {k};
      left := left - {k};
    }
    assert r.Keys == Without(m, pattern).Keys;
  }

  class CacheHierarchy<V> {
    var l1: map<string, V>
    var l2: map<string, V>
    var l3: map<string, V>
    var user: map<string, V>
    var leaderboard: map<string, V>
    var settings: map<string, V>
    var analytics: map<string, V>
    var hits: nat
    var misses: nat

    function View(): Caches<V>
      reads this
    {
      Caches(l1, l2, l3, user, leaderboard, settings, analytics, hits, misses)
    }

    constructor ()
      ensures View() == Empty()
    {
      l1, l2, l3 := map[], map[], map[];
      user, leaderboard, settings, analytics := map[], map[], map[], map[];
      hits, misses := 0, 0;
    }

    method Get(key: string) returns (value: Option<V>)
      modifies this
      ensures (View(), value) == Got(old(View()), key)
    {
      if key in l1 {
        hits := hits + 1;
        return Some(l1[key]);
      }
      if key in l2 {
        value := Some(l2[key]);
        l1 := l1[key := l2[key]];
        hits := hits + 1;
        return;
      }
      if key in l3 {
        var v := l3[key];
        l2 := l2[key := v];
        l1 := l1[key := v];
        hits := hits + 1;
        return Some(v);
      }
      var specialised := [user, leaderboard, settings, analytics];
      var i := 0;
      while i < 4
        invariant 0 <= i <= 4
        invariant View() == old(View())
        invariant specialised == [user, leaderboard, settings, analytics]
        invariant key !in l1 && key !in l2 && key !in l3
        invariant forall j :: 0 <= j < i ==> key !in specialised[j]
      {
        if key in specialised[i] {
          var v := specialised[i][key];
          assert i > 0 ==> key !in specialised[0];
          assert i > 1 ==> key !in specialised[1];
          assert i > 2 ==> key !in specialised[2];
          assert Lookup(View(), key) == Some(v);
          l1 := l1[key := v];
          hits := hits + 1;
          return Some(v);
        }
        i := i + 1;
      }
      assert key !in specialised[0] && key !in specialised[1];
      assert key !in specialised[2] && key !in specialised[3];
      misses := misses + 1;
      return None;
    }

    method Set(key: string, value: V, cacheType: string)
      modifies this
      ensures View() == Put(old(View()), key, value, KindOf(cacheType))
    {
      l1 := l1[key := value];
      l2 := l2[key := value];
      if cacheType == "user" {
        user := user[key := value];
      } else if cacheType == "leaderboard" {
        leaderboard := leaderboard[key := value];
      } else if cacheType == "settings" {
        settings := settings[key := value];
      } else if cacheType == "analytics" {
        analytics := analytics[key := value];
      }
      l3 := l3[key := value];
    }

    method InvalidatePattern(pattern: string)
      modifies this
      ensures View() == Invalidated(old(View()), pattern)
    {
      var a1 := DropMatching(l1, pattern);
      var a2 := DropMatching(l2, pattern);
      var a3 := DropMatching(l3, pattern);
      var u := DropMatching(user, pattern);
      var b := DropMatching(leaderboard, pattern);
      var st := DropMatching(settings, pattern);
      var an := DropMatching(analytics, pattern);
      l1, l2, l3, user, leaderboard, settings, analytics := a1, a2, a3, u, b, st, an;
    }
  }
}
