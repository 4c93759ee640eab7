/**
 * The Taiwan company-registration client: a query is either a unified
 * business number (eight digits) or part of a company name, and the first
 * registration record becomes a snippet of number, capital, representative
 * and status. Records are cached for a week by default.
 *
 * The digits of the capital amounts come from Python's float formatting,
 * which is not modelled: `render` stands for it.
 */
module TwCompany {
  import opened Wrappers
  import opened Text
  import opened ProviderCache

  const DEFAULT_TTL_HOURS: real := 168.0
  const DEFAULT_MAX_SIZE: int := 200
  const NO_DETAILS: string := "無詳細資料"
  const FINDBIZ_HOME: string := "https://findbiz.nat.gov.tw/"
  const FINDBIZ_QUERY: string := "https://findbiz.nat.gov.tw/fts/query/QueryBar/queryInit.do?banNo="

  /** `re.match(r'^\d{8}$', query)` on a stripped query. */
  predicate IsUbn(query: string)
  {
    |query| == 8 && forall i :: 0 <= i < 8 ==> IsDecimal(query[i])
  }

  /** The `$filter` parameter: an exact number match, or a name-contains match. */
  function Filter(query: string, isUbn: bool): (f: string)
    ensures isUbn ==> f == "Business_Accounting_NO eq " + query
    ensures !isUbn ==> f == "contains(Company_Name,'" + query + "')"
  {
    if isUbn then "Business_Accounting_NO eq " + query
    else "contains(Company_Name,'" + query + "')"
  }

  // ----- Capital -----

  /** The unit the snippet shows the capital in. */
  datatype Capital =
    | HundredMillions(amount: real)   // "{:.2f}億"
    | TenThousands(amount: real)      // "{:.0f}萬"
    | Grouped(value: int)             // "{:,}"
    | Unparsed(raw: string)           // the string as received

  const YI: int := 100000000
  const WAN: int := 10000

  function CapitalOf(capital: string): (c: Option<Capital>)
    ensures c.None? <==> capital == ""
    ensures c.Some? && c.value.Unparsed? ==> ParseInt(capital).None? && c.value.raw == capital
  {
    if capital == "" then None
    else
      match ParseInt(capital)
      case None => Some(Unparsed(capital))
      case Some(v) =>
        if v >= YI then Some(HundredMillions(v as real / YI as real))
        else if v >= WAN then Some(TenThousands(v as real / WAN as real))
        else Some(Grouped(v))
  }

  /**
   * The three units split the parsed amounts at 10^8 and 10^4, and the
   * amount shown in a unit is the capital divided by that unit.
   */
  lemma CapitalBands(capital: string)
    requires ParseInt(capital).Some? && capital != ""
    ensures var v := ParseInt(capital).value;
      match CapitalOf(capital).value
      case HundredMillions(a) => v >= YI && a * YI as real == v as real && a >= 1.0
      case TenThousands(a) => WAN <= v < YI && a * WAN as real == v as real && 1.0 <= a < 10000.0
      case Grouped(g) => v < WAN && g == v
      case Unparsed(_) => false
  {
  }

  /** The text after "資本額: ": the raw string for an unparsable amount, `render` otherwise. */
  function CapitalText(c: Capital, render: Capital -> string): string
  {
    if c.Unparsed? then c.raw else render(c)
  }

  // ----- The record -----

  /** The first record of the reply (`.get(field, "")`; a missing name is `None`). */
  datatype Record = Record(
    companyName: Option<string>, ubn: string, capital: string, representative: string,
    address: string, status: string, approvedDate: string)

  datatype Response = Response(httpStatus: int, records: seq<Record>) | Failed

  function SnippetParts(r: Record, render: Capital -> string): (parts: seq<string>)
    ensures |parts| <= 4
    ensures parts == [] <==> r.ubn == "" && r.capital == "" && r.representative == "" && r.status == ""
  {
    (if r.ubn != "" then ["統編: " + r.ubn] else [])
    + (match CapitalOf(r.capital)
       case Some(c) => ["資本額: " + CapitalText(c, render)]
       case None => [])
    + (if r.representative != "" then ["代表人: " + r.representative] else [])
    + (if r.status != "" then ["狀態: " + r.status] else [])
  }

  /** The parts joined by " | " (or the no-details text), then the address on a line of its own. */
  function Snippet(r: Record, render: Capital -> string): (s: string)
    ensures r.address != "" ==> var tail := "\n地址: " + r.address; |tail| <= |s| && s[|s| - |tail|..] == tail
    ensures r.address == "" && SnippetParts(r, render) == [] ==> s == NO_DETAILS
    ensures r.address == "" && |SnippetParts(r, render)| == 1 ==> s == SnippetParts(r, render)[0]
  {
    var parts := SnippetParts(r, render);
    var head := if parts == [] then NO_DETAILS else Join(parts, " | ");
    if r.address != "" then
      var tail := "\n地址: " + r.address;
      assert (head + tail)[|head|..] == tail;
      head + tail
    else head
  }

  /** The registry page of the number when there is one, else the registry's home page. */
  function Link(ubn: string): (l: string)
    ensures ubn != "" ==> l == FINDBIZ_QUERY + ubn
    ensures ubn == "" ==> l == FINDBIZ_HOME
  {
    if ubn != "" then FINDBIZ_QUERY + ubn else FINDBIZ_HOME
  }

  /** `_fetch_company_data` after the request. */
  function FormatCompany(query: string, response: Response, render: Capital -> string): (r: Option<Article>)
    ensures r.Some? <==> response.Response? && response.httpStatus == 200 && response.records != []
    ensures r.Some? ==> var rec := response.records[0];
      r.value.title == "[公司登記] " + rec.companyName.GetOr(query) && r.value.link == Link(rec.ubn)
  {
    match response
    case Failed => None
    case Response(httpStatus, records) =>
      if httpStatus != 200 || records == [] then None
      else
        var rec := records[0];
        Some(Article("[公司登記] " + rec.companyName.GetOr(query), Snippet(rec, render), Link(rec.ubn), "company_tw", "moea"))
  }

  function ParseResponse(query: string, fetch: Fetch<Response>, render: Capital -> string): (r: Fetch<Option<Article>>)
    ensures fetch.TimedOut? <==> r.TimedOut?
    ensures fetch.Fetched? ==> r.result == FormatCompany(query, fetch.result, render)
  {
    match fetch
    case Fetched(response) => Fetched(FormatCompany(query, response, render))
    case TimedOut => TimedOut
  }

  class TwCompanyClient {
    var enabled: bool
    const cache: TtlCache<string, Article>

    predicate Valid()
      reads this, cache
    {
      cache.Valid()
    }

    constructor (enabled: bool, cacheEnabled: bool, ttlHours: real, maxSize: int)
      ensures this.enabled == enabled
      ensures cache.enabled == cacheEnabled && cache.ttl == ttlHours * 3600.0 && cache.maxSize == maxSize
      ensures cache.entries == map[] && Valid()
      ensures fresh(cache)
    {
      this.enabled := enabled;
      cache := new TtlCache(cacheEnabled, ttlHours * 3600.0, maxSize);
    }

    /**
     * `search`: the stripped query is the cache key; `fetch` is the reply to
     * the request made with `Filter(query, IsUbn(query))`.
     */
    method Search(query: string, fetch: Fetch<Response>, now: real, render: Capital -> string)
      returns (results: seq<Article>, filter: string)
      requires Valid()
      modifies cache`entries
      ensures Valid()
      ensures filter == Filter(Strip(query), IsUbn(Strip(query)))
      ensures !enabled ==> results == [] && cache.entries == old(cache.entries)
      ensures enabled ==> results == AsList(Answer(old(cache.entries), cache.enabled, cache.ttl, cache.maxSize,
        Strip(query), ParseResponse(Strip(query), fetch, render), now))
      ensures enabled ==> SearchEffect(old(cache.entries), cache.entries, cache.enabled, cache.ttl, cache.maxSize,
        Strip(query), ParseResponse(Strip(query), fetch, render), now)
    {
      var key := Strip(query);
      filter := Filter(key, IsUbn(key));
      if !enabled {
        return [], filter;
      }
      var parsed := ParseResponse(key, fetch, render);
      var answer := cache.Search(key, parsed, now);
      results := AsList(answer);
    }
  }
}
