/**
 * The Taiwan stock client: a stock code is looked up on the listed market
 * (TWSE) first and on the over-the-counter market (TPEX) when the first
 * has nothing; quotes are cached for five minutes by default.
 *
 * Python's `float()` and the number formatting of the price line are not
 * modelled: `parseFloat` and `render` stand for them.
 */
module Twse {
  import opened Wrappers
  import opened Text
  import opened ProviderCache

  const DEFAULT_TTL_HOURS: real := 0.083
  const DEFAULT_MAX_SIZE: int := 200
  const STOCK_DAY_PAGE: string := "https://www.twse.com.tw/zh/page/trading/exchange/STOCK_DAY.html?stockNo="

  datatype Exchange = TWSE | TPEX

  /** The `ex_ch` channel: `tse_<code>.tw` or `otc_<code>.tw`. */
  function Channel(symbol: string, exchange: Exchange): (c: string)
    ensures |c| == |symbol| + 7 && c[3] == '_' && c[4..4 + |symbol|] == symbol && c[|c| - 3..] == ".tw"
    ensures c[..3] == (if exchange == TWSE then "tse" else "otc")
  {
    (if exchange == TWSE then "tse" else "otc") + "_" + symbol + ".tw"
  }

  function Label(exchange: Exchange): string
  {
    if exchange == TWSE then "上市" else "上櫃"
  }

  /** `exchange.lower()` */
  function Source(exchange: Exchange): string
  {
    if exchange == TWSE then "twse" else "tpex"
  }

  /** The first entry of `msgArray`: name `n`, last trade `z`, previous close `y`, volume `v`, open `o`. */
  datatype Quote = Quote(n: Option<string>, z: Option<string>, y: Option<string>, v: Option<string>, o: Option<string>)

  datatype Response = Response(status: int, msgArray: seq<Quote>) | Failed

  /** The previous close, "0" when missing. */
  function YesterdayClose(q: Quote): string
  {
    q.y.GetOr("0")
  }

  /** The price shown: the last trade, or when there was none ("-") the open, or failing that the previous close. */
  function LastPrice(q: Quote): (p: string)
    ensures q.z.Some? && q.z.value != "-" ==> p == q.z.value
    ensures (q.z.None? || q.z.value == "-") && q.o.Some? ==> p == q.o.value
    ensures (q.z.None? || q.z.value == "-") && q.o.None? ==> p == YesterdayClose(q)
  {
    var last := q.z.GetOr("-");
    if last == "-" then q.o.GetOr(YesterdayClose(q)) else last
  }

  /** `int(x)` for a float: truncation toward zero. */
  function Truncate(x: real): (n: int)
    ensures x >= 0.0 ==> n as real <= x < n as real + 1.0
    ensures x < 0.0 ==> n as real - 1.0 < x <= n as real
  {
    if x >= 0.0 then x.Floor else -((-x).Floor)
  }

  /** The numbers of the price line, or the raw strings when one of them does not parse. */
  datatype PriceLine =
    | Numbers(last: real, change: real, changePct: real, volume: int)
    | Raw(lastPrice: string, yesterdayClose: string)

  function PriceLineOf(q: Quote, parseFloat: string -> Option<real>): (p: PriceLine)
    ensures p.Numbers? <==> parseFloat(LastPrice(q)).Some? && parseFloat(YesterdayClose(q)).Some? && parseFloat(q.v.GetOr("0")).Some?
    ensures p.Numbers? ==> p.change == p.last - parseFloat(YesterdayClose(q)).value
    ensures p.Numbers? && parseFloat(YesterdayClose(q)).value == 0.0 ==> p.changePct == 0.0
    ensures p.Numbers? && parseFloat(YesterdayClose(q)).value != 0.0 ==>
      p.changePct * parseFloat(YesterdayClose(q)).value == p.change * 100.0
  {
    var last := parseFloat(LastPrice(q));
    var yesterday := parseFloat(YesterdayClose(q));
    var volume := parseFloat(q.v.GetOr("0"));
    if last.None? || yesterday.None? || volume.None? then Raw(LastPrice(q), YesterdayClose(q))
    else
      var change := last.value - yesterday.value;
      var pct := if yesterday.value != 0.0 then change / yesterday.value * 100.0 else 0.0;
      Numbers(last.value, change, pct, Truncate(volume.value))
  }

  function Snippet(line: PriceLine, render: PriceLine -> string): string
  {
    match line
    case Raw(last, yesterday) => "最新價: " + last + " | 昨收: " + yesterday
    case Numbers(_, _, _, _) => render(line)
  }

  /** `_fetch_from_exchange` after the request. */
  function FromExchange(symbol: string, exchange: Exchange, response: Response,
                        parseFloat: string -> Option<real>, render: PriceLine -> string): (r: Option<Article>)
    ensures r.Some? <==> response.Response? && response.status == 200 && response.msgArray != []
    ensures r.Some? ==> r.value.source == Source(exchange) && r.value.link == STOCK_DAY_PAGE + symbol
    ensures r.Some? ==> r.value.title == "[台股-" + Label(exchange) + "] " + response.msgArray[0].n.GetOr(symbol) + " (" + symbol + ")"
  {
    match response
    case Failed => None
    case Response(status, quotes) =>
      if status != 200 || quotes == [] then None
      else
        var q := quotes[0];
        Some(Article("[台股-" + Label(exchange) + "] " + q.n.GetOr(symbol) + " (" + symbol + ")",
                     Snippet(PriceLineOf(q, parseFloat), render), STOCK_DAY_PAGE + symbol, "stock_tw", Source(exchange)))
  }

  /** `_fetch_stock_data`: the listed market's answer if it has one, else the over-the-counter market's. */
  function FetchStock(symbol: string, twse: Response, tpex: Response,
                      parseFloat: string -> Option<real>, render: PriceLine -> string): (r: Option<Article>)
  {
    match FromExchange(symbol, TWSE, twse, parseFloat, render)
    case Some(a) => Some(a)
    case None => FromExchange(symbol, TPEX, tpex, parseFloat, render)
  }

  /**
   * A code the listed market knows is always answered from it, whatever
   * the other market says; only codes it does not know reach the OTC
   * market; and nothing is found when neither knows the code.
   */
  lemma ListedMarketFirst(symbol: string, twse: Response, tpex: Response,
                          parseFloat: string -> Option<real>, render: PriceLine -> string)
    ensures var r := FetchStock(symbol, twse, tpex, parseFloat, render);
      (r.Some? && r.value.source == "twse" <==> twse.Response? && twse.status == 200 && twse.msgArray != [])
      && (r.Some? && r.value.source == "tpex" <==>
          !(twse.Response? && twse.status == 200 && twse.msgArray != [])
          && tpex.Response? && tpex.status == 200 && tpex.msgArray != [])
      && (r.None? <==>
          !(twse.Response? && twse.status == 200 && twse.msgArray != [])
          && !(tpex.Response? && tpex.status == 200 && tpex.msgArray != []))
  {
  }

  function ParseResponses(symbol: string, fetch: Fetch<(Response, Response)>,
                          parseFloat: string -> Option<real>, render: PriceLine -> string): (r: Fetch<Option<Article>>)
    ensures fetch.TimedOut? <==> r.TimedOut?
    ensures fetch.Fetched? ==> r.result == FetchStock(symbol, fetch.result.0, fetch.result.1, parseFloat, render)
  {
    match fetch
    case Fetched(replies) => Fetched(FetchStock(symbol, replies.0, replies.1, parseFloat, render))
    case TimedOut => TimedOut
  }

  class TwseClient {
    var enabled: bool
    const cache: TtlCache<string, Article>

    predicate Valid()
      reads this, cache
    {
      cache.Valid()
    }

    constructor (enabled: bool, cacheEnabled: bool, ttlHours: real, maxSize: int)
      ensures this.enabled == enabled
      ensures cache.enabled == cacheEnabled && cache.ttl == ttlHours * 3600.0 && cache.maxSize == maxSize
      ensures cache.entries == map[] && Valid()
      ensures fresh(cache)
    {
      this.enabled := enabled;
      cache := new TtlCache(cacheEnabled, ttlHours * 3600.0, maxSize);
    }

    /** `search`: the stripped code is the cache key; `fetch` holds the two markets' replies. */
    method Search(symbol: string, fetch: Fetch<(Response, Response)>, now: real,
                  parseFloat: string -> Option<real>, render: PriceLine -> string) returns (results: seq<Article>)
      requires Valid()
      modifies cache`entries
      ensures Valid()
      ensures !enabled ==> results == [] && cache.entries == old(cache.entries)
      ensures enabled ==> results == AsList(Answer(old(cache.entries), cache.enabled, cache.ttl, cache.maxSize,
        Strip(symbol), ParseResponses(Strip(symbol), fetch, parseFloat, render), now))
      ensures enabled ==> SearchEffect(old(cache.entries), cache.entries, cache.enabled, cache.ttl, cache.maxSize,
        Strip(symbol), ParseResponses(Strip(symbol), fetch, parseFloat, render), now)
    {
      if !enabled {
        return [];
      }
      var key := Strip(symbol);
      var parsed := ParseResponses(key, fetch, parseFloat, render);
      var answer := cache.Search(key, parsed, now);
      results := AsList(answer);
    }

    /** `is_available`: this client needs no API key. */
    function IsAvailable(): (r: bool)
      reads this
      ensures r == enabled
    {
      enabled
    }
  }
}
