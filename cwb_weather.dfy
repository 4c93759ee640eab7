/**
 * The Central Weather Bureau client: free-form Taiwanese place names are
 * mapped onto the bureau's city and county names, and forecasts are cached
 * per normalised name (one hour, at most 100 entries by default).
 */
module CwbWeather {
  import opened Wrappers
  import opened Text
  import opened ProviderCache

  /** `CITY_MAPPING`, in its insertion order (the partial match tries the pairs in this order). */
  const CITY_MAPPING: seq<(string, string)> := [
    ("台北", "臺北市"),
    ("臺北", "臺北市"),
    ("台北市", "臺北市"),
    ("臺北市", "臺北市"),
    ("新北", "新北市"),
    ("新北市", "新北市"),
    ("桃園", "桃園市"),
    ("桃園市", "桃園市"),
    ("台中", "臺中市"),
    ("臺中", "臺中市"),
    ("台中市", "臺中市"),
    ("臺中市", "臺中市"),
    ("台南", "臺南市"),
    ("臺南", "臺南市"),
    ("台南市", "臺南市"),
    ("臺南市", "臺南市"),
    ("高雄", "高雄市"),
    ("高雄市", "高雄市"),
    ("基隆", "基隆市"),
    ("基隆市", "基隆市"),
    ("新竹", "新竹市"),
    ("新竹市", "新竹市"),
    ("新竹縣", "新竹縣"),
    ("苗栗", "苗栗縣"),
    ("苗栗縣", "苗栗縣"),
    ("彰化", "彰化縣"),
    ("彰化縣", "彰化縣"),
    ("南投", "南投縣"),
    ("南投縣", "南投縣"),
    ("雲林", "雲林縣"),
    ("雲林縣", "雲林縣"),
    ("嘉義", "嘉義市"),
    ("嘉義市", "嘉義市"),
    ("嘉義縣", "嘉義縣"),
    ("屏東", "屏東縣"),
    ("屏東縣", "屏東縣"),
    ("宜蘭", "宜蘭縣"),
    ("宜蘭縣", "宜蘭縣"),
    ("花蓮", "花蓮縣"),
    ("花蓮縣", "花蓮縣"),
    ("台東", "臺東縣"),
    ("臺東", "臺東縣"),
    ("台東縣", "臺東縣"),
    ("臺東縣", "臺東縣"),
    ("澎湖", "澎湖縣"),
    ("澎湖縣", "澎湖縣"),
    ("金門", "金門縣"),
    ("金門縣", "金門縣"),
    ("連江", "連江縣"),
    ("連江縣", "連江縣"),
    ("馬祖", "連江縣")
  ]

  const DEFAULT_TTL_HOURS: real := 1.0
  const DEFAULT_MAX_SIZE: int := 100

  /** The first pair whose key is `key` (dict lookup; no key repeats in the mapping). */
  function FindKey(pairs: seq<(string, string)>, key: string): (r: Option<nat>)
    ensures r.Some? ==> r.value < |pairs| && pairs[r.value].0 == key
    ensures r.None? <==> forall i :: 0 <= i < |pairs| ==> pairs[i].0 != key
  {
    if pairs == [] then None
    else if pairs[0].0 == key then Some(0)
    else
      match FindKey(pairs[1..], key)
      case None => None
      case Some(i) => Some(i + 1)
  }

  /** `key in location or location in key` */
  predicate Related(key: string, location: string)
  {
    Contains(location, key) || Contains(key, location)
  }

  /** The first pair whose key is related to `location`. */
  function FirstRelated(pairs: seq<(string, string)>, location: string): (r: Option<nat>)
    ensures r.Some? ==> r.value < |pairs| && Related(pairs[r.value].0, location)
    ensures r.Some? ==> forall j :: 0 <= j < r.value ==> !Related(pairs[j].0, location)
    ensures r.None? <==> forall i :: 0 <= i < |pairs| ==> !Related(pairs[i].0, location)
  {
    if pairs == [] then None
    else if Related(pairs[0].0, location) then Some(0)
    else
      match FirstRelated(pairs[1..], location)
      case None => None
      case Some(i) => Some(i + 1)
  }

  /** `_normalize_location` over a mapping: strip, then an exact key, then the first key related to the name by containment. */
  function Normalise(pairs: seq<(string, string)>, location: string): (r: Option<string>)
  {
    var loc := Strip(location);
    match FindKey(pairs, loc)
    case Some(i) => Some(pairs[i].1)
    case None =>
      match FirstRelated(pairs, loc)
      case Some(i) => Some(pairs[i].1)
      case None => None
  }

  function NormaliseLocation(location: string): (r: Option<string>)
  {
    Normalise(CITY_MAPPING, location)
  }

  /**
   * The result is always one of the mapping's values; an exact key wins
   * over any partial match; and a name is unknown exactly when no key
   * contains it or is contained in it.
   */
  lemma NormaliseSound(pairs: seq<(string, string)>, location: string)
    ensures Normalise(pairs, location).Some? ==>
      exists i :: 0 <= i < |pairs| && Normalise(pairs, location).value == pairs[i].1
    ensures FindKey(pairs, Strip(location)).Some? ==>
      Normalise(pairs, location) == Some(pairs[FindKey(pairs, Strip(location)).value].1)
    ensures Normalise(pairs, location).None? <==>
      forall i :: 0 <= i < |pairs| ==> !Related(pairs[i].0, Strip(location))
  {
    var loc := Strip(location);
    if FindKey(pairs, loc).Some? {
      var i := FindKey(pairs, loc).value;
      assert StartsWith(loc, loc);
      assert Related(pairs[i].0, loc);
    }
  }

  /** A blank name is "contained" in every key, so it is read as the first entry's place. */
  lemma BlankIsFirst(pairs: seq<(string, string)>, location: string)
    requires |pairs| > 0 && forall i :: 0 <= i < |pairs| ==> pairs[i].0 != ""
    requires forall i :: 0 <= i < |location| ==> IsSpace(location[i])
    ensures Normalise(pairs, location) == Some(pairs[0].1)
  {
    var loc := Strip(location);
    assert loc == [];
    assert StartsWith(pairs[0].0, loc);
    assert Related(pairs[0].0, loc);
  }

  class CwbWeatherClient {
    var enabled: bool
    var apiKey: string
    const cache: TtlCache<string, Article>

    predicate Valid()
      reads this, cache
    {
      cache.Valid()
    }

    /** A client without an API key (`None` and "" alike) is disabled whatever the configuration says. */
    constructor (enabled: bool, apiKey: string, cacheEnabled: bool, ttlHours: real, maxSize: int)
      ensures this.enabled == (enabled && apiKey != "") && this.apiKey == apiKey
      ensures cache.enabled == cacheEnabled && cache.ttl == ttlHours * 3600.0 && cache.maxSize == maxSize
      ensures cache.entries == map[] && Valid()
      ensures fresh(cache)
    {
      this.enabled := enabled && apiKey != "";
      this.apiKey := apiKey;
      cache := new TtlCache(cacheEnabled, ttlHours * 3600.0, maxSize);
    }

    /** `search`: a disabled client or an unknown place answers `[]`; otherwise the cached search under the normalised name. */
    method Search(location: string, fetch: Fetch<Option<Article>>, now: real) returns (results: seq<Article>)
      requires Valid()
      modifies cache`entries
      ensures Valid()
      ensures !enabled || NormaliseLocation(location).None? ==> results == [] && cache.entries == old(cache.entries)
      ensures enabled && NormaliseLocation(location).Some? ==>
        var key := NormaliseLocation(location).value;
        results == AsList(Answer(old(cache.entries), cache.enabled, cache.ttl, cache.maxSize, key, fetch, now))
        && SearchEffect(old(cache.entries), cache.entries, cache.enabled, cache.ttl, cache.maxSize, key, fetch, now)
    {
      if !enabled {
        return [];
      }
      var normalised := NormaliseLocation(location);
      if normalised.None? {
        return [];
      }
      var answer := cache.Search(normalised.value, fetch, now);
      results := AsList(answer);
    }

    /** `is_available` */
    function IsAvailable(): (r: bool)
      reads this
      ensures r <==> enabled && apiKey != ""
    {
      enabled && apiKey != ""
    }
  }
}
