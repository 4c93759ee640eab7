/**
 * The bounded time-to-live cache every retrieval-provider client keeps:
 * a dict from cache key to `(value, stored_at)`. A lookup is a hit while
 * `now - stored_at < ttl` and an expired entry is deleted on sight;
 * inserting into a full cache first evicts the entry with the oldest
 * timestamp. `search` consults the cache, then the fetch outcome, and on a
 * timeout falls back to whatever the cache still holds for the key.
 *
 * Times are seconds; `now` is a parameter of every operation. The fetch
 * itself is the `Fetch` parameter: a (possibly falsy) result or a timeout.
 */
module ProviderCache {
  import opened Wrappers

  /** The dict every provider client returns (`tier` is always 6). */
  datatype Article = Article(title: string, snippet: string, link: string, kind: string, source: string)

  const TIER: int := 6

  /** What `await asyncio.wait_for(fetch(...))` produced: a result or a timeout. */
  datatype Fetch<V> = Fetched(result: V) | TimedOut

  /** The fetch outcome after the client's parsing: `None` stands for a falsy result. */
  function Parse<R, V>(fetch: Fetch<R>, parse: R -> Option<V>): (r: Fetch<Option<V>>)
    ensures fetch.TimedOut? <==> r.TimedOut?
    ensures fetch.Fetched? ==> r.result == parse(fetch.result)
  {
    match fetch
    case Fetched(raw) => Fetched(parse(raw))
    case TimedOut => TimedOut
  }

  /** `[result]` when there is one, else `[]`. */
  function AsList<V>(answer: Option<V>): (r: seq<V>)
    ensures |r| <= 1 && (r == [] <==> answer.None?)
    ensures answer.Some? ==> r[0] == answer.value
  {
    if answer.Some? then [answer.value] else []
  }

  /** Some key carries the oldest timestamp. */
  lemma {:induction false} OldestExists<K, V>(m: map<K, (V, real)>)
    requires |m| > 0
    ensures exists k :: k in m && forall j :: j in m ==> m[k].1 <= m[j].1
    decreases |m|
  {
    var a :| a in m;
    var rest := m - {a};
    if rest == map[] {
      forall j | j in m ensures m[a].1 <= m[j].1 {
        assert j == a || j in rest;
      }
    } else {
      assert |rest| == |m| - 1;
      OldestExists(rest);
      var b :| b in rest && forall j :: j in rest ==> rest[b].1 <= rest[j].1;
      var c := if m[a].1 <= m[b].1 then a else b;
      assert forall j :: j in m ==> m[c].1 <= m[j].1 by {
        forall j | j in m ensures m[c].1 <= m[j].1 {
          if j != a {
            assert j in rest;
          }
        }
      }
    }
  }

  /** Never more entries than the configured maximum (none at all when it is not positive). */
  predicate Bounded<K, V>(entries: map<K, (V, real)>, maxSize: int)
  {
    |entries| <= (if maxSize > 0 then maxSize else 0)
  }

  /** The cache check of `search` hits: caching is on and the entry is younger than the TTL. */
  predicate Hit<K, V>(entries: map<K, (V, real)>, enabled: bool, ttl: real, key: K, now: real)
  {
    enabled && key in entries && now - entries[key].1 < ttl
  }

  /** The cache after the check of `search` missed: an expired entry for the key is gone. */
  function Probed<K, V>(entries: map<K, (V, real)>, enabled: bool, key: K): (r: map<K, (V, real)>)
    ensures r.Keys <= entries.Keys
    ensures enabled ==> key !in r
    ensures forall k :: k in r ==> r[k] == entries[k]
  {
    if enabled then entries - {key} else entries
  }

  /** `_update_cache` raises: `min()` of the keys of a cache that is empty and yet "full". */
  predicate StoreFails<K, V>(entries: map<K, (V, real)>, maxSize: int)
  {
    |entries| >= maxSize && entries == map[]
  }

  /** The cache after a successful `_update_cache(key, value)` at `now`. */
  ghost predicate Stored<K, V>(before: map<K, (V, real)>, after: map<K, (V, real)>, maxSize: int, key: K, value: V, now: real)
  {
    if |before| < maxSize then after == before[key := (value, now)]
    else
      exists oldest :: oldest in before
        && (forall j :: j in before ==> before[oldest].1 <= before[j].1)
        && after == (before - {oldest})[key := (value, now)]
  }

  /** What `search` answers with, before wrapping it in a list. */
  function Answer<K, V>(entries: map<K, (V, real)>, enabled: bool, ttl: real, maxSize: int, key: K,
                        fetch: Fetch<Option<V>>, now: real): (r: Option<V>)
  {
    if Hit(entries, enabled, ttl, key, now) then Some(entries[key].0)
    else
      var probed := Probed(entries, enabled, key);
      match fetch
      case Fetched(None) => None
      case Fetched(Some(v)) => if enabled && StoreFails(probed, maxSize) then None else Some(v)
      case TimedOut => if key in probed then Some(probed[key].0) else None
  }

  /** The cache after `search`. */
  ghost predicate SearchEffect<K, V>(before: map<K, (V, real)>, after: map<K, (V, real)>, enabled: bool, ttl: real,
                                     maxSize: int, key: K, fetch: Fetch<Option<V>>, now: real)
  {
    if Hit(before, enabled, ttl, key, now) then after == before
    else
      var probed := Probed(before, enabled, key);
      if enabled && fetch.Fetched? && fetch.result.Some? && !StoreFails(probed, maxSize)
      then Stored(probed, after, maxSize, key, fetch.result.value, now)
      else after == probed
  }

  /** Storing keeps the bound, and the stored value is what the key now maps to. */
  lemma StoredBounded<K, V>(before: map<K, (V, real)>, after: map<K, (V, real)>, maxSize: int, key: K, value: V, now: real)
    requires Bounded(before, maxSize) && !StoreFails(before, maxSize)
    requires Stored(before, after, maxSize, key, value, now)
    ensures Bounded(after, maxSize)
    ensures key in after && after[key] == (value, now)
    ensures forall k :: k in after && k != key ==> k in before && after[k] == before[k]
  {
    if |before| >= maxSize {
      var oldest :| oldest in before
        && (forall j :: j in before ==> before[oldest].1 <= before[j].1)
        && after == (before - {oldest})[key := (value, now)];
      assert |before - {oldest}| == |before| - 1;
    }
  }

  /**
   * Run one after the other, the cache check deletes every expired entry it
   * meets; so with caching on, a timed-out fetch never finds a stale entry
   * to fall back on: the fallback only serves when another search stored
   * the key while this one was waiting.
   */
  lemma TimeoutFindsNothing<K, V>(entries: map<K, (V, real)>, ttl: real, maxSize: int, key: K, now: real)
    requires !Hit(entries, true, ttl, key, now)
    ensures Answer(entries, true, ttl, maxSize, key, TimedOut, now) == None
  {
  }

  /** A value stored at `now` is served from the cache by every search before `now + ttl`, whatever the fetch would give. */
  lemma {:induction false} StoreThenHit<K, V>(
    before: map<K, (V, real)>, after: map<K, (V, real)>, ttl: real, maxSize: int, key: K, value: V, now: real,
    later: real, fetch: Fetch<Option<V>>)
    requires Bounded(before, maxSize) && !StoreFails(before, maxSize)
    requires Stored(before, after, maxSize, key, value, now)
    requires now <= later < now + ttl
    ensures Answer(after, true, ttl, maxSize, key, fetch, later) == Some(value)
  {
    StoredBounded(before, after, maxSize, key, value, now);
  }

  /** `get_cache_stats()` */
  datatype CacheStats = CacheStats(enabled: bool, size: nat, maxSize: int, ttlHours: real)

  class TtlCache<K(==), V> {
    var entries: map<K, (V, real)>
    var enabled: bool
    var ttl: real
    var maxSize: int

    predicate Valid()
      reads this
    {
      Bounded(entries, maxSize)
    }

    constructor (enabled: bool, ttl: real, maxSize: int)
      ensures this.enabled == enabled && this.ttl == ttl && this.maxSize == maxSize
      ensures entries == map[] && Valid()
    {
      this.enabled := enabled;
      this.ttl := ttl;
      this.maxSize := maxSize;
      entries := map[];
    }

    /** The cache check at the top of `search`: a fresh entry is a hit; an expired one is deleted. */
    method Probe(key: K, now: real) returns (hit: Option<V>)
      requires Valid()
      modifies this`entries
      ensures Valid()
      ensures hit.Some? <==> Hit(old(entries), enabled, ttl, key, now)
      ensures hit.Some? ==> hit.value == old(entries)[key].0 && entries == old(entries)
      ensures hit.None? ==> entries == Probed(old(entries), enabled, key)
    {
      hit := None;
      if enabled && key in entries {
        var (value, timestamp) := entries[key];
        if now - timestamp < ttl {
          hit := Some(value);
        } else {
          entries := entries - {key};
        }
      }
    }

    /**
     * `_update_cache`: when full, evict an entry with the oldest timestamp,
     * then store `(value, now)`; `ok` is false where the Python raises.
     */
    method Update(key: K, value: V, now: real) returns (ok: bool)
      requires Valid()
      modifies this`entries
      ensures Valid()
      ensures ok <==> !StoreFails(old(entries), maxSize)
      ensures !ok ==> entries == old(entries)
      ensures ok ==> Stored(old(entries), entries, maxSize, key, value, now)
    {
      if |entries| >= maxSize {
        if entries == map[] {
          return false;
        }
        OldestExists(entries);
        var oldest :| oldest in entries && forall j :: j in entries ==> entries[oldest].1 <= entries[j].1;
        entries := entries - {oldest};
      }
      entries := entries[key := (value, now)];
      return true;
    }

    /**
     * The cache part of `search`: a hit answers from the cache; otherwise a
     * truthy fetched result answers and is stored (when caching is on); a
     * timeout answers with the entry still cached for the key, if any; a
     * store that raises makes the whole search answer nothing.
     */
    method Search(key: K, fetch: Fetch<Option<V>>, now: real) returns (answer: Option<V>)
      requires Valid()
      modifies this`entries
      ensures Valid()
      ensures answer == Answer(old(entries), enabled, ttl, maxSize, key, fetch, now)
      ensures SearchEffect(old(entries), entries, enabled, ttl, maxSize, key, fetch, now)
    {
      answer := Probe(key, now);
      if answer.Some? {
        return;
      }
      match fetch {
        case Fetched(result) =>
          if result.Some? {
            answer := result;
            if enabled {
              var ok := Update(key, result.value, now);
              if !ok {
                answer := None;
              }
            }
          }
        case TimedOut =>
          if key in entries {
            answer := Some(entries[key].0);
          }
      }
    }

    /** `clear_cache`: empties the cache and reports how many entries it held. */
    method Clear() returns (count: nat)
      modifies this`entries
      ensures count == |old(entries)| && entries == map[] && Valid()
    {
      count := |entries|;
      entries := map[];
    }

    /** `get_cache_stats`: the TTL is reported back in hours. */
    function Stats(): (s: CacheStats)
      reads this
      ensures Valid() ==> s.size <= (if maxSize > 0 then maxSize else 0)
      ensures s.ttlHours * 3600.0 == ttl && s.size == |entries|
    {
      CacheStats(enabled, |entries|, maxSize, ttl / 3600.0)
    }
  }
}
