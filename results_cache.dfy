/**
 * The per-conversation results cache that lets generate mode reuse the
 * ranked answers list mode produced. Entries live for `ttlSeconds`; an
 * entry whose age is exactly the TTL is still served. The clock is the
 * `now` parameter of each operation, in seconds.
 */
module ResultsStore {
  import opened Wrappers

  const DEFAULT_TTL_SECONDS: int := 300

  datatype Entry<R> = Entry(finalRankedAnswers: seq<R>, query: string, timestamp: real)

  predicate Expired<R>(e: Entry<R>, now: real, ttl: int)
  {
    now - e.timestamp > ttl as real
  }

  /** The entries `_cleanup_expired` keeps. */
  function Live<R>(m: map<string, Entry<R>>, now: real, ttl: int): (r: map<string, Entry<R>>)
    ensures r.Keys <= m.Keys
    ensures forall k :: k in r ==> r[k] == m[k] && !Expired(m[k], now, ttl)
    ensures forall k :: k in m && !Expired(m[k], now, ttl) ==> k in r
  {
    map k | k in m && !Expired(m[k], now, ttl) :: m[k]
  }

  /** The cache after `store`: the new entry, stamped `now`, then the expiry sweep. */
  function StoreSpec<R>(m: map<string, Entry<R>>, cid: string, results: seq<R>, query: string, now: real, ttl: int)
    : map<string, Entry<R>>
  {
    Live(m[cid := Entry(results, query, now)], now, ttl)
  }

  /** `retrieve`'s answer and the cache after it: a missing or expired entry gives `None`, and an expired one is dropped. */
  function RetrieveSpec<R>(m: map<string, Entry<R>>, cid: string, now: real, ttl: int)
    : (r: (Option<seq<R>>, map<string, Entry<R>>))
    ensures r.0.Some? <==> cid in m && !Expired(m[cid], now, ttl)
    ensures r.0.Some? ==> r.0.value == m[cid].finalRankedAnswers && r.1 == m
    ensures r.0.None? ==> r.1 == m - {cid}
  {
    if cid !in m then (None, m)
    else if Expired(m[cid], now, ttl) then (None, m - {cid})
    else (Some(m[cid].finalRankedAnswers), m)
  }

  /** Results stored at `now` come back unchanged from a retrieve at most `ttl` seconds later. */
  lemma StoreThenRetrieve<R>(
    m: map<string, Entry<R>>, cid: string, results: seq<R>, query: string, now: real, later: real, ttl: int)
    requires 0.0 <= later - now <= ttl as real
    ensures RetrieveSpec(StoreSpec(m, cid, results, query, now, ttl), cid, later, ttl).0 == Some(results)
  {
  }

  /** After more than `ttl` seconds the entry is gone, and retrieving it removes it from the cache. */
  lemma ExpiredIsForgotten<R>(
    m: map<string, Entry<R>>, cid: string, results: seq<R>, query: string, now: real, later: real, ttl: int)
    requires later - now > ttl as real
    ensures var r := RetrieveSpec(StoreSpec(m, cid, results, query, now, ttl), cid, later, ttl);
      r.0 == None && cid !in r.1
  {
  }

  /** Storing keeps every other live conversation as it was and drops the expired ones. */
  lemma StoreKeepsOthers<R>(
    m: map<string, Entry<R>>, cid: string, results: seq<R>, query: string, now: real, ttl: int, other: string)
    requires other != cid
    ensures other in StoreSpec(m, cid, results, query, now, ttl)
      <==> other in m && !Expired(m[other], now, ttl)
    ensures other in StoreSpec(m, cid, results, query, now, ttl) ==>
      StoreSpec(m, cid, results, query, now, ttl)[other] == m[other]
  {
  }

  /** Sweeping twice at the same time removes nothing more. */
  lemma CleanupIdempotent<R>(m: map<string, Entry<R>>, now: real, ttl: int)
    ensures Live(Live(m, now, ttl), now, ttl) == Live(m, now, ttl)
  {
  }

  /** `sum(len(e['final_ranked_answers']) for e in cache.values())` */
  ghost function TotalResults<R>(m: map<string, Entry<R>>): nat
    decreases |m|
  {
    if |m| == 0 then 0
    else
      var k :| k in m;
      |m[k].finalRankedAnswers| + TotalResults(m - {k})
  }

  lemma RemoveCommutes<R>(m: map<string, Entry<R>>, a: string, b: string)
    ensures m - {a} - {b} == m - {b} - {a}
  {
  }

  lemma TotalResultsPick<R>(m: map<string, Entry<R>>)
    requires |m| > 0
    ensures exists j :: j in m && TotalResults(m) == |m[j].finalRankedAnswers| + TotalResults(m - {j})
  {
  }

  /** The total does not depend on which entry is counted first. */
  lemma {:induction false} TotalResultsRemove<R>(m: map<string, Entry<R>>, k: string)
    requires k in m
    ensures TotalResults(m) == |m[k].finalRankedAnswers| + TotalResults(m - {k})
    decreases |m|
  {
    assert |m| > 0 by {
      assert k in m.Keys;
    }
    TotalResultsPick(m);
    var j :| j in m && TotalResults(m) == |m[j].finalRankedAnswers| + TotalResults(m - {j});
    if j != k {
      var withoutJ := m - {j};
      var withoutK := m - {k};
      assert k in withoutJ && withoutJ[k] == m[k] && |withoutJ| < |m|;
      assert j in withoutK && withoutK[j] == m[j] && |withoutK| < |m|;
      TotalResultsRemove(withoutJ, k);
      TotalResultsRemove(withoutK, j);
      RemoveCommutes(m, j, k);
    }
  }

  class ResultsCache<R> {
    var cache: map<string, Entry<R>>
    var ttlSeconds: int

    constructor (ttlSeconds: int)
      ensures cache == map[] && this.ttlSeconds == ttlSeconds
    {
      cache := map[];
      this.ttlSeconds := ttlSeconds;
    }

    /** `ResultsCache()`, as the module-level instance is built: five minutes. */
    constructor Default()
      ensures cache == map[] && ttlSeconds == DEFAULT_TTL_SECONDS
    {
      cache := map[];
      ttlSeconds := DEFAULT_TTL_SECONDS;
    }

    method Store(conversationId: string, results: seq<R>, query: string, now: real)
      modifies this`cache
      ensures cache == StoreSpec(old(cache), conversationId, results, query, now, ttlSeconds)
      ensures ttlSeconds >= 0 ==> conversationId in cache && cache[conversationId].finalRankedAnswers == results
    {
      cache := cache[conversationId := Entry(results, query, now)];
      CleanupExpired(now);
    }

    method Retrieve(conversationId: string, now: real) returns (r: Option<seq<R>>)
      modifies this`cache
      ensures (r, cache) == RetrieveSpec(old(cache), conversationId, now, ttlSeconds)
    {
      if conversationId !in cache {
        return None;
      }
      var entry := cache[conversationId];
      var age := now - entry.timestamp;
      if age > ttlSeconds as real {
        cache := cache - {conversationId};
        return None;
      }
      return Some(entry.finalRankedAnswers);
    }

    /** Collects the expired conversation ids, then deletes them one by one. */
    method CleanupExpired(now: real)
      modifies this`cache
      ensures cache == Live(old(cache), now, ttlSeconds)
    {
      var expired := set cid | cid in cache && Expired(cache[cid], now, ttlSeconds);
      while expired != {}
        invariant expired <= old(cache).Keys
        invariant forall k :: k in expired ==> Expired(old(cache)[k], now, ttlSeconds)
        invariant cache == map k | k in old(cache) && (k in expired || !Expired(old(cache)[k], now, ttlSeconds))
                              :: old(cache)[k]
        decreases |expired|
      {
        var cid :| cid in expired;
        cache := cache - {cid};
        expired := expired - {cid};
      }
    }

    method GetStats() returns (totalEntries: nat, totalResults: nat)
      ensures totalEntries == |cache| && totalResults == TotalResults(cache)
    {
      totalEntries := |cache|;
      totalResults := 0;
      var rest := cache;
      while rest != map[]
        invariant totalResults + TotalResults(rest) == TotalResults(cache)
        decreases |rest|
      {
        var cid :| cid in rest;
        TotalResultsRemove(rest, cid);
        totalResults := totalResults + |rest[cid].finalRankedAnswers|;
        rest := rest - {cid};
      }
    }
  }
}
