/**
 * The Wikipedia client: article summaries for a query, each cut at a
 * sentence boundary, cached per (query, result count, language) for a day.
 * The Python key is the string `f"{query}:{max_results}:{language}"`; the
 * language is fixed per client and the count has no colon, so the string
 * determines the triple and the model keys on the triple itself.
 */
module Wikipedia {
  import opened Wrappers
  import opened Text
  import opened ProviderCache

  const DEFAULT_LANGUAGE: string := "zh"
  const DEFAULT_MAX_RESULTS: int := 3
  const DEFAULT_MAX_SUMMARY_LENGTH: int := 500
  const DEFAULT_TTL_HOURS: real := 24.0
  const DEFAULT_MAX_SIZE: int := 200

  const ELLIPSIS: string := "..."

  /** `str.rfind(c, 0, hi)`: the last index below the (Python-normalised) bound holding `c`. */
  function RFind(s: string, c: char, hi: int): (r: Option<nat>)
    ensures r.Some? ==> r.value < |s| && s[r.value] == c && (hi >= 0 ==> r.value < hi)
    ensures r.Some? ==> forall j :: r.value < j < |s| && j < hi ==> s[j] != c
    ensures r.None? ==> forall j :: 0 <= j < |s| && j < hi && (hi >= 0 || j < |s| + hi) ==> s[j] != c
  {
    var end := if hi < 0 then Max(0, |s| + hi) else Min(hi, |s|);
    LastBefore(s, c, end)
  }

  function LastBefore(s: string, c: char, end: nat): (r: Option<nat>)
    requires end <= |s|
    ensures r.Some? ==> r.value < end && s[r.value] == c
    ensures r.Some? ==> forall j :: r.value < j < end ==> s[j] != c
    ensures r.None? ==> forall j :: 0 <= j < end ==> s[j] != c
  {
    if end == 0 then None
    else if s[end - 1] == c then Some(end - 1)
    else LastBefore(s, c, end - 1)
  }

  /** `result.endswith(('。', '.', '！', '？', '!', '?'))` */
  predicate EndsAtSentence(s: string)
  {
    |s| > 0 && s[|s| - 1] in {'。', '.', '！', '？', '!', '?'}
  }

  /** The cut point: the last Chinese full stop before the limit, else the last ASCII one. */
  function SentenceEnd(summary: string, maxLen: int): (r: Option<nat>)
    ensures r.Some? ==> r.value < |summary| && (maxLen >= 0 ==> r.value < maxLen) && summary[r.value] in {'。', '.'}
  {
    match RFind(summary, '。', maxLen)
    case Some(i) => Some(i)
    case None => RFind(summary, '.', maxLen)
  }

  function WithEllipsis(result: string): (r: string)
    ensures r == result || r == result + ELLIPSIS
    ensures EndsAtSentence(r)
  {
    if EndsAtSentence(result) then result else result + ELLIPSIS
  }

  /**
   * `_truncate_summary` as written: with no full stop before the limit the
   * cut point becomes `max - 3`, and `summary[:truncate_at + 1]` then keeps
   * `max - 2` characters, to which the ellipsis is added.
   */
  function TruncateAsWritten(summary: string, maxLen: int): (r: string)
  {
    if |summary| <= maxLen then summary
    else
      var truncateAt: int := match SentenceEnd(summary, maxLen)
        case Some(i) => i
        case None => maxLen - 3;
      WithEllipsis(if truncateAt > 0 then SliceTo(summary, truncateAt + 1) else SliceTo(summary, maxLen - 3))
  }

  /** A summary without a full stop in its first `max` characters comes back one character too long. */
  lemma TruncateOverflows(summary: string, maxLen: int)
    requires 4 <= maxLen < |summary|
    requires forall j :: 0 <= j < maxLen ==> summary[j] != '。' && summary[j] != '.'
    requires !EndsAtSentence(summary[..maxLen - 2])
    ensures |TruncateAsWritten(summary, maxLen)| == maxLen + 1
  {
    assert SentenceEnd(summary, maxLen).None?;
  }

  /**
   * `_truncate_summary` as evidently intended: with no full stop before
   * the limit, keep `max - 3` characters so that the ellipsis fits.
   */
  function Truncate(summary: string, maxLen: int): (r: string)
  {
    if |summary| <= maxLen then summary
    else
      match SentenceEnd(summary, maxLen)
      case Some(i) =>
        WithEllipsis(if i > 0 then summary[..i + 1] else SliceTo(summary, maxLen - 3))
      case None => WithEllipsis(SliceTo(summary, maxLen - 3))
  }

  /**
   * A short summary is kept whole. A long one comes back within the limit,
   * as a prefix of the summary that ends at the last full stop before the
   * limit when there is one past the first character, and otherwise as the
   * first `max - 3` characters followed by the ellipsis (unless they end a
   * sentence themselves).
   */
  lemma TruncateWithinLimit(summary: string, maxLen: int)
    requires maxLen >= 3
    ensures |summary| <= maxLen ==> Truncate(summary, maxLen) == summary
    ensures |Truncate(summary, maxLen)| <= maxLen
    ensures |summary| > maxLen ==> EndsAtSentence(Truncate(summary, maxLen))
    ensures |summary| > maxLen && SentenceEnd(summary, maxLen).Some? && SentenceEnd(summary, maxLen).value > 0 ==>
      Truncate(summary, maxLen) == summary[..SentenceEnd(summary, maxLen).value + 1]
    ensures |summary| > maxLen && (SentenceEnd(summary, maxLen).None? || SentenceEnd(summary, maxLen).value == 0) ==>
      var r := Truncate(summary, maxLen);
      r == summary[..maxLen - 3] || r == summary[..maxLen - 3] + ELLIPSIS
  {
  }

  /**
   * `_truncate_summary` as written: a short summary is kept whole; a long
   * one ends a sentence and is at most one character over the limit; when a
   * full stop past the first character lies before the limit, the cut is
   * there and agrees with the intended definition, and otherwise the first
   * `max - 2` characters are kept (the whole cut when `max` is 3).
   */
  lemma TruncateAsWrittenShape(summary: string, maxLen: int)
    requires maxLen >= 3
    ensures |summary| <= maxLen ==> TruncateAsWritten(summary, maxLen) == summary
    ensures |TruncateAsWritten(summary, maxLen)| <= maxLen + 1
    ensures |summary| > maxLen ==> EndsAtSentence(TruncateAsWritten(summary, maxLen))
    ensures |summary| > maxLen && SentenceEnd(summary, maxLen).Some? ==>
      TruncateAsWritten(summary, maxLen) == Truncate(summary, maxLen)
    ensures |summary| > maxLen > 3 && SentenceEnd(summary, maxLen).None? ==>
      var r := TruncateAsWritten(summary, maxLen);
      r == summary[..maxLen - 2] || r == summary[..maxLen - 2] + ELLIPSIS
  {
  }

  /** A page the library returned (disambiguation, missing and failing pages are skipped before this). */
  datatype Page = Page(title: string, summary: string, url: string)

  /** The entry `_do_search` appends for one page, its summary cut as written. */
  function Summary(p: Page, maxLen: int): Article
  {
    Article("[維基百科] " + p.title, TruncateAsWritten(p.summary, maxLen), p.url, "encyclopedia", "wikipedia")
  }

  /**
   * The summaries `_do_search` builds from the pages it could read, in
   * search order: every page read gives its entry, every entry comes from
   * a page read, and a snippet may be one character over the limit.
   */
  function Summaries(pages: seq<Option<Page>>, maxLen: int): (r: seq<Article>)
    ensures |r| <= |pages|
    ensures forall j :: 0 <= j < |pages| && pages[j].Some? ==> Summary(pages[j].value, maxLen) in r
    ensures forall a :: a in r ==> exists j :: 0 <= j < |pages| && pages[j].Some? && a == Summary(pages[j].value, maxLen)
    ensures forall i :: 0 <= i < |r| ==> r[i].kind == "encyclopedia" && r[i].source == "wikipedia"
    ensures maxLen >= 3 ==> forall i :: 0 <= i < |r| ==> |r[i].snippet| <= maxLen + 1
  {
    if pages == [] then []
    else
      var rest := Summaries(pages[1..], maxLen);
      assert forall j :: 1 <= j < |pages| ==> pages[j] == pages[1..][j - 1];
      match pages[0]
      case None => rest
      case Some(p) =>
        var a := Summary(p, maxLen);
        assert maxLen >= 3 ==> |a.snippet| <= maxLen + 1 by {
          if maxLen >= 3 {
            TruncateAsWrittenShape(p.summary, maxLen);
          }
        }
        [a] + rest
  }

  /** Only a non-empty list of summaries is cached; an empty one answers `[]` all the same. */
  function NonEmpty(articles: seq<Article>): (r: Option<seq<Article>>)
    ensures r.Some? <==> articles != []
    ensures r.Some? ==> r.value == articles
  {
    if articles == [] then None else Some(articles)
  }

  /** The fetch outcome as `search` sees it: the summaries, `None` when there are none. */
  function ParsePages(fetch: Fetch<seq<Option<Page>>>, maxLen: int): (r: Fetch<Option<seq<Article>>>)
    ensures fetch.TimedOut? <==> r.TimedOut?
    ensures fetch.Fetched? ==> r.result == NonEmpty(Summaries(fetch.result, maxLen))
  {
    match fetch
    case Fetched(pages) => Fetched(NonEmpty(Summaries(pages, maxLen)))
    case TimedOut => TimedOut
  }

  datatype Key = Key(query: string, maxResults: int, language: string)

  class WikipediaClient {
    var enabled: bool
    var language: string
    var maxResults: int
    var maxSummaryLength: int
    const cache: TtlCache<Key, seq<Article>>

    predicate Valid()
      reads this, cache
    {
      cache.Valid()
    }

    /** `enabled` is false also when the wikipedia library is not installed. */
    constructor (enabled: bool, language: Option<string>, configLanguage: string, maxResults: int, maxSummaryLength: int,
                 cacheEnabled: bool, ttlHours: real, maxSize: int)
      ensures this.enabled == enabled && this.maxResults == maxResults && this.maxSummaryLength == maxSummaryLength
      ensures this.language == (if language.Some? && language.value != "" then language.value else configLanguage)
      ensures cache.enabled == cacheEnabled && cache.ttl == ttlHours * 3600.0 && cache.maxSize == maxSize
      ensures cache.entries == map[] && Valid()
      ensures fresh(cache)
    {
      this.enabled := enabled;
      this.language := if language.Some? && language.value != "" then language.value else configLanguage;
      this.maxResults := maxResults;
      this.maxSummaryLength := maxSummaryLength;
      cache := new TtlCache(cacheEnabled, ttlHours * 3600.0, maxSize);
    }

    /** The cache key: a missing or zero count falls back to the configured one. */
    function KeyFor(query: string, maxResults: int): (k: Key)
      reads this
      ensures k.query == query && k.language == language
      ensures k.maxResults == (if maxResults != 0 then maxResults else this.maxResults)
    {
      Key(query, if maxResults != 0 then maxResults else this.maxResults, language)
    }

    /**
     * `search`: the pages come from the `fetch` parameter (`None` for a page
     * that was skipped). A disabled client answers `[]` and leaves the cache alone.
     */
    method Search(query: string, maxResults: int, fetch: Fetch<seq<Option<Page>>>, now: real) returns (results: seq<Article>)
      requires Valid()
      modifies cache`entries
      ensures Valid()
      ensures !enabled ==> results == [] && cache.entries == old(cache.entries)
      ensures enabled ==>
        var parsed := ParsePages(fetch, maxSummaryLength);
        results == Answer(old(cache.entries), cache.enabled, cache.ttl, cache.maxSize, KeyFor(query, maxResults), parsed, now).GetOr([])
        && SearchEffect(old(cache.entries), cache.entries, cache.enabled, cache.ttl, cache.maxSize, KeyFor(query, maxResults), parsed, now)
    {
      if !enabled {
        return [];
      }
      var parsed := ParsePages(fetch, maxSummaryLength);
      var answer := cache.Search(KeyFor(query, maxResults), parsed, now);
      results := answer.GetOr([]);
    }
  }
}
