/**
 * The global stock client: a quote for a ticker symbol (US, Hong Kong and
 * other markets), with the P/E ratio and market capitalisation added when
 * fundamentals are asked for; quotes are cached for fifteen minutes by
 * default.
 *
 * The number formatting of the snippet (`{:,.2f}`, `{:.2f}`, `{:.1f}`) is
 * not modelled: the functions of a `Format` stand for it.
 */
module Yfinance {
  import opened Wrappers
  import opened Text
  import opened ProviderCache

  const DEFAULT_TTL_HOURS: real := 0.25
  const DEFAULT_MAX_SIZE: int := 100
  const QUOTE_PAGE: string := "https://finance.yahoo.com/quote/"

  const TRILLION: real := 1000000000000.0
  const BILLION: real := 1000000000.0

  /** `fast_info`: the last and previous prices; `None` where the library gives none. */
  datatype FastInfo = FastInfo(lastPrice: Option<real>, previousClose: Option<real>)

  /** `ticker.info`: the P/E ratio, market cap and short name, each `None` when absent. */
  datatype Fundamentals = Fundamentals(peRatio: Option<real>, marketCap: Option<real>, shortName: Option<string>)

  /**
   * What the library answered: no `fast_info` at all, or the quote with the
   * fundamentals (`None` when that second call raised).
   */
  datatype Reply = NoInfo | Quote(info: FastInfo, fundamentals: Option<Fundamentals>)

  datatype Format = Format(money: real -> string, fixed2: real -> string, fixed1: real -> string)

  /** The change since the previous close and that change in percent (0 when the previous close is 0). */
  datatype Move = Move(change: real, changePct: real)

  function MoveOf(last: real, previous: real): (m: Move)
    ensures m.change == last - previous
    ensures previous == 0.0 ==> m.changePct == 0.0
    ensures previous != 0.0 ==> m.changePct * previous == m.change * 100.0
    ensures previous > 0.0 ==> (m.changePct >= 0.0 <==> last >= previous)
  {
    var change := last - previous;
    Move(change, if previous != 0.0 then change / previous * 100.0 else 0.0)
  }

  /** `"+"` before a change that is not negative; a negative one carries its own minus sign. */
  function Sign(change: real): (s: string)
    ensures s == "+" <==> change >= 0.0
    ensures s == "" <==> change < 0.0
  {
    if change >= 0.0 then "+" else ""
  }

  /** The unit the market cap is shown in. */
  datatype Cap = Trillions(amount: real) | Billions(amount: real)

  /** A cap below a billion is not shown. */
  function CapOf(marketCap: real): (c: Option<Cap>)
    ensures c.None? <==> marketCap < BILLION
  {
    if marketCap >= TRILLION then Some(Trillions(marketCap / TRILLION))
    else if marketCap >= BILLION then Some(Billions(marketCap / BILLION))
    else None
  }

  /** The two units split the caps shown at 10^12, and the amount shown times its unit is the cap. */
  lemma CapBands(marketCap: real)
    requires marketCap >= BILLION
    ensures match CapOf(marketCap).value
      case Trillions(a) => marketCap >= TRILLION && a * TRILLION == marketCap && a >= 1.0
      case Billions(a) => BILLION <= marketCap < TRILLION && a * BILLION == marketCap && 1.0 <= a < 1000.0
  {
  }

  /** `if x:` on a number that may be missing. */
  predicate Truthy(x: Option<real>)
  {
    x.Some? && x.value != 0.0
  }

  /** The fundamentals parts appended to the snippet, in order: P/E ratio, then market cap. */
  function FundamentalParts(f: Fundamentals, fmt: Format): (r: string)
    ensures r == "" <==> !Truthy(f.peRatio) && (!Truthy(f.marketCap) || f.marketCap.value < BILLION)
  {
    (if Truthy(f.peRatio) then " | 本益比: " + fmt.fixed1(f.peRatio.value) else "")
    + (if Truthy(f.marketCap) then
         match CapOf(f.marketCap.value)
         case Some(Trillions(a)) => " | 市值: $" + fmt.fixed2(a) + "T"
         case Some(Billions(a)) => " | 市值: $" + fmt.fixed2(a) + "B"
         case None => ""
       else "")
  }

  /** The price line: last price, signed change and signed percent change. */
  function PriceLine(last: real, m: Move, fmt: Format): (r: string)
  {
    var sign := Sign(m.change);
    "最新價: $" + fmt.money(last) + " | 漲跌: " + sign + fmt.money(m.change) + " (" + sign + fmt.fixed2(m.changePct) + "%)"
  }

  /**
   * `_fetch_stock_data` after the library calls. No last price, or no
   * previous close to subtract (the subtraction raises and the search
   * answers nothing), gives no article.
   */
  function FormatStock(symbol: string, reply: Reply, includeFundamentals: bool, fmt: Format): (r: Option<Article>)
    ensures r.Some? <==> reply.Quote? && reply.info.lastPrice.Some? && reply.info.previousClose.Some?
    ensures r.Some? ==> r.value.link == QUOTE_PAGE + symbol && r.value.kind == "stock_global" && r.value.source == "yfinance"
    ensures r.Some? ==>
      var name := if includeFundamentals && reply.fundamentals.Some? then reply.fundamentals.value.shortName.GetOr(symbol) else symbol;
      r.value.title == "[全球股市] " + name + " (" + symbol + ")"
    ensures r.Some? ==>
      var line := PriceLine(reply.info.lastPrice.value, MoveOf(reply.info.lastPrice.value, reply.info.previousClose.value), fmt);
      |line| <= |r.value.snippet| && r.value.snippet[..|line|] == line
      && (!includeFundamentals || reply.fundamentals.None? ==> r.value.snippet == line)
  {
    match reply
    case NoInfo => None
    case Quote(info, fundamentals) =>
      if info.lastPrice.None? || info.previousClose.None? then None
      else
        var last := info.lastPrice.value;
        var line := PriceLine(last, MoveOf(last, info.previousClose.value), fmt);
        var extra := if includeFundamentals && fundamentals.Some? then FundamentalParts(fundamentals.value, fmt) else "";
        var name := if includeFundamentals && fundamentals.Some? then fundamentals.value.shortName.GetOr(symbol) else symbol;
        assert (line + extra)[..|line|] == line;
        Some(Article("[全球股市] " + name + " (" + symbol + ")", line + extra, QUOTE_PAGE + symbol, "stock_global", "yfinance"))
  }

  function ParseReply(symbol: string, fetch: Fetch<Reply>, includeFundamentals: bool, fmt: Format): (r: Fetch<Option<Article>>)
    ensures fetch.TimedOut? <==> r.TimedOut?
    ensures fetch.Fetched? ==> r.result == FormatStock(symbol, fetch.result, includeFundamentals, fmt)
  {
    match fetch
    case Fetched(reply) => Fetched(FormatStock(symbol, reply, includeFundamentals, fmt))
    case TimedOut => TimedOut
  }

  /** `symbol.upper().strip()`: the symbol queried, cached and shown, with no lower-case ASCII letter left. */
  function NormaliseSymbol(symbol: string): (r: string)
    ensures |r| <= |symbol|
    ensures forall i :: 0 <= i < |r| ==> !('a' <= r[i] <= 'z')
  {
    var upper := Upper(symbol);
    var left := TrimLeft(upper);
    var r := TrimRight(left);
    assert forall i | 0 <= i < |r| :: !('a' <= r[i] <= 'z') by {
      forall i | 0 <= i < |r| ensures !('a' <= r[i] <= 'z') {
        assert r[i] == left[i] == upper[|upper| - |left| + i];
      }
    }
    r
  }

  class YfinanceClient {
    var enabled: bool
    var includeFundamentals: bool
    const cache: TtlCache<string, Article>

    predicate Valid()
      reads this, cache
    {
      cache.Valid()
    }

    /** `enabled` is false also when the yfinance library is not installed. */
    constructor (enabled: bool, includeFundamentals: bool, cacheEnabled: bool, ttlHours: real, maxSize: int)
      ensures this.enabled == enabled && this.includeFundamentals == includeFundamentals
      ensures cache.enabled == cacheEnabled && cache.ttl == ttlHours * 3600.0 && cache.maxSize == maxSize
      ensures cache.entries == map[] && Valid()
      ensures fresh(cache)
    {
      this.enabled := enabled;
      this.includeFundamentals := includeFundamentals;
      cache := new TtlCache(cacheEnabled, ttlHours * 3600.0, maxSize);
    }

    /** `search`: "nvda " and "NVDA" share one cache entry. */
    method Search(symbol: string, fetch: Fetch<Reply>, now: real, fmt: Format) returns (results: seq<Article>)
      requires Valid()
      modifies cache`entries
      ensures Valid()
      ensures !enabled ==> results == [] && cache.entries == old(cache.entries)
      ensures enabled ==> results == AsList(Answer(old(cache.entries), cache.enabled, cache.ttl, cache.maxSize,
        NormaliseSymbol(symbol), ParseReply(NormaliseSymbol(symbol), fetch, includeFundamentals, fmt), now))
      ensures enabled ==> SearchEffect(old(cache.entries), cache.entries, cache.enabled, cache.ttl, cache.maxSize,
        NormaliseSymbol(symbol), ParseReply(NormaliseSymbol(symbol), fetch, includeFundamentals, fmt), now)
    {
      if !enabled {
        return [];
      }
      var key := NormaliseSymbol(symbol);
      var parsed := ParseReply(key, fetch, includeFundamentals, fmt);
      var answer := cache.Search(key, parsed, now);
      results := AsList(answer);
    }

    /** `is_available` */
    function IsAvailable(): (r: bool)
      reads this
      ensures r == enabled
    {
      enabled
    }
  }
}
