/**
 * The fast-track path: a query with no context, no earlier queries and no
 * free conversation, on a site with standard vector retrieval, is
 * retrieved and ranked at once. A query with a temporal keyword asks for
 * 150 items instead of 50 and keeps only the ones published within the
 * last year when at least 50 of them are, at most 80 either way.
 *
 * The retriever is the parameter `search` (count to rows), JSON decoding
 * is `decode`, `strptime('%Y-%m-%d')` is `parseDay` and the cutoff (now
 * minus 365 days) is `cutoff`; ranking itself is not part of this model.
 */
module FastTrack {
  import opened Wrappers
  import opened Text
  import opened Values

  const NO_STANDARD_RETRIEVAL_SITES: seq<string> :=
    ["datacommons", "all", "conv_history", "CricketLens", "cricketlens", "cricketlens.com"]

  const TEMPORAL_KEYWORDS: seq<string> := ["最新", "最近", "近期", "latest", "recent", "新", "現在", "目前", "當前"]

  /** The fewest recent items the temporal filter needs, and the most items kept. */
  const MIN_RECENT: nat := 50
  const MAX_ITEMS: nat := 80

  /** One retrieved row: url, schema JSON text, name, site. */
  datatype Row = Row(url: string, json: string, name: string, site: string)

  /** `site_supports_standard_retrieval` */
  function SiteSupportsStandardRetrieval(site: string, aggregationEnabled: bool): (b: bool)
    ensures site == "all" ==> (b <==> !aggregationEnabled)
    ensures site != "all" ==> (b <==> site !in NO_STANDARD_RETRIEVAL_SITES)
  {
    if site == "all" && !aggregationEnabled then true
    else site !in NO_STANDARD_RETRIEVAL_SITES
  }

  /** How many items the fast track asks the retriever for. */
  function RetrievalCount(query: string): (n: nat)
    ensures n == 150 <==> AnyIn(TEMPORAL_KEYWORDS, query)
    ensures n == 50 <==> !AnyIn(TEMPORAL_KEYWORDS, query)
  {
    if AnyIn(TEMPORAL_KEYWORDS, query) then 150 else 50
  }

  /**
   * The publication day of a row: its `datePublished`, cut at 'T' when it
   * has one, parsed; `None` for an undated ("Unknown"), non-string or
   * unparseable date or undecodable JSON.
   */
  function Published(row: Row, decode: string -> Option<map<string, Value>>, parseDay: string -> Option<int>): Option<int>
  {
    match decode(row.json)
    case None => None
    case Some(schema) =>
      var date := if "datePublished" in schema then schema["datePublished"] else Str("Unknown");
      if date == Str("Unknown") || !date.Str? then None
      else parseDay(if 'T' in date.s then SplitOnce(date.s, "T")[0] else date.s)
  }

  /** Whether a row was published on or after the cutoff. */
  predicate IsRecent(row: Row, cutoff: int, decode: string -> Option<map<string, Value>>, parseDay: string -> Option<int>)
  {
    Published(row, decode, parseDay).Some? && Published(row, decode, parseDay).value >= cutoff
  }

  /** The rows published on or after the cutoff, in order. */
  function Recent(rows: seq<Row>, cutoff: int, decode: string -> Option<map<string, Value>>,
                  parseDay: string -> Option<int>): (r: seq<Row>)
    ensures |r| <= |rows|
  {
    if rows == [] then []
    else
      var init := Recent(rows[..|rows| - 1], cutoff, decode, parseDay);
      var last := rows[|rows| - 1];
      if IsRecent(last, cutoff, decode, parseDay) then init + [last] else init
  }

  /** The recent rows are exactly the rows dated on or after the cutoff. */
  lemma {:induction false} RecentExactly(rows: seq<Row>, cutoff: int, decode: string -> Option<map<string, Value>>,
                                         parseDay: string -> Option<int>)
    ensures forall x :: x in Recent(rows, cutoff, decode, parseDay) <==> x in rows && IsRecent(x, cutoff, decode, parseDay)
  {
    if rows != [] {
      RecentExactly(rows[..|rows| - 1], cutoff, decode, parseDay);
      assert forall x :: x in rows <==> x in rows[..|rows| - 1] || x == rows[|rows| - 1];
    }
  }

  /**
   * The rows a temporal query keeps: the first 80 recent ones when at
   * least 50 are recent, else the first 80 retrieved.
   */
  function TemporalFilter(rows: seq<Row>, cutoff: int, decode: string -> Option<map<string, Value>>,
                          parseDay: string -> Option<int>): (r: seq<Row>)
    ensures |r| <= MAX_ITEMS && |r| <= |rows|
  {
    var recent := Recent(rows, cutoff, decode, parseDay);
    if |recent| < MIN_RECENT then rows[..Min(|rows|, MAX_ITEMS)]
    else recent[..Min(|recent|, MAX_ITEMS)]
  }

  /**
   * With at least 50 recent rows only recent rows are kept; otherwise the
   * first 80 rows are kept whatever their dates. Either way the rows kept
   * were retrieved.
   */
  lemma TemporalFilterKeeps(rows: seq<Row>, cutoff: int, decode: string -> Option<map<string, Value>>,
                            parseDay: string -> Option<int>)
    ensures forall x :: x in TemporalFilter(rows, cutoff, decode, parseDay) ==> x in rows
    ensures |Recent(rows, cutoff, decode, parseDay)| >= MIN_RECENT ==>
      forall x :: x in TemporalFilter(rows, cutoff, decode, parseDay) ==> IsRecent(x, cutoff, decode, parseDay)
    ensures |Recent(rows, cutoff, decode, parseDay)| < MIN_RECENT ==>
      TemporalFilter(rows, cutoff, decode, parseDay) == rows[..Min(|rows|, MAX_ITEMS)]
  {
    RecentExactly(rows, cutoff, decode, parseDay);
    var recent := Recent(rows, cutoff, decode, parseDay);
    var r := TemporalFilter(rows, cutoff, decode, parseDay);
    forall x | x in r
      ensures x in rows
      ensures |recent| >= MIN_RECENT ==> IsRecent(x, cutoff, decode, parseDay)
    {
      if |recent| < MIN_RECENT {
        assert x in rows[..Min(|rows|, MAX_ITEMS)];
      } else {
        assert x in recent;
      }
    }
  }

  /** The date-filtering loop of `do`. */
  method FilterRecent(rows: seq<Row>, cutoff: int, decode: string -> Option<map<string, Value>>,
                      parseDay: string -> Option<int>) returns (kept: seq<Row>)
    ensures kept == TemporalFilter(rows, cutoff, decode, parseDay)
  {
    var filtered: seq<Row> := [];
    assert rows[..0] == [];
    for i := 0 to |rows|
      invariant filtered == Recent(rows[..i], cutoff, decode, parseDay)
    {
      assert rows[..i + 1][..i] == rows[..i];
      if IsRecent(rows[i], cutoff, decode, parseDay) {
        filtered := filtered + [rows[i]];
      }
    }
    assert rows[..|rows|] == rows;
    if |filtered| < MIN_RECENT {
      kept := rows[..Min(|rows|, MAX_ITEMS)];
    } else {
      kept := filtered[..Min(|filtered|, MAX_ITEMS)];
    }
  }

  /** The request state the fast track reads and updates. */
  class Handler {
    const site: string
    const contextUrl: string
    const prevQueries: seq<string>
    const freeConversation: bool
    const query: string
    var queryDone: bool
    var abortFastTrack: bool
    var retrievalDone: bool
    var finalRetrievedItems: seq<Row>
    /** Whether a fast-track ranking was started. */
    var rankingStarted: bool

    constructor (site: string, contextUrl: string, prevQueries: seq<string>, freeConversation: bool, query: string)
      ensures this.site == site && this.contextUrl == contextUrl && this.prevQueries == prevQueries
      ensures this.freeConversation == freeConversation && this.query == query
      ensures !queryDone && !abortFastTrack && !retrievalDone && finalRetrievedItems == [] && !rankingStarted
    {
      this.site := site;
      this.contextUrl := contextUrl;
      this.prevQueries := prevQueries;
      this.freeConversation := freeConversation;
      this.query := query;
      queryDone := false;
      abortFastTrack := false;
      retrievalDone := false;
      finalRetrievedItems := [];
      rankingStarted := false;
    }
  }

  class FastTrack {
    const handler: Handler

    constructor (handler: Handler)
      ensures this.handler == handler
    {
      this.handler := handler;
    }

    /** `is_fastTrack_eligible` */
    function IsEligible(aggregationEnabled: bool): (b: bool)
      reads handler
    {
      SiteSupportsStandardRetrieval(handler.site, aggregationEnabled) && handler.contextUrl == ""
      && |handler.prevQueries| == 0 && !handler.freeConversation
    }

    /**
     * `do`: nothing happens for an ineligible query; otherwise retrieval is
     * marked done, the retrieved rows (date-filtered for a temporal query)
     * become the final retrieved items, and ranking starts unless the query
     * is done or the fast track was aborted.
     */
    method Do(aggregationEnabled: bool, search: nat -> seq<Row>, cutoff: int,
              decode: string -> Option<map<string, Value>>, parseDay: string -> Option<int>)
      modifies handler
      ensures !old(IsEligible(aggregationEnabled)) ==>
        (handler.retrievalDone == old(handler.retrievalDone) && handler.finalRetrievedItems == old(handler.finalRetrievedItems)
         && handler.rankingStarted == old(handler.rankingStarted))
      ensures old(IsEligible(aggregationEnabled)) ==>
        (var rows := search(RetrievalCount(handler.query));
         handler.retrievalDone
         && handler.finalRetrievedItems ==
              (if AnyIn(TEMPORAL_KEYWORDS, handler.query) && |rows| > 0
               then TemporalFilter(rows, cutoff, decode, parseDay) else rows)
         && handler.rankingStarted == (old(handler.rankingStarted) || (!handler.queryDone && !handler.abortFastTrack)))
      ensures handler.queryDone == old(handler.queryDone) && handler.abortFastTrack == old(handler.abortFastTrack)
    {
      if !IsEligible(aggregationEnabled) {
        return;
      }
      handler.retrievalDone := true;
      var temporal := AnyIn(TEMPORAL_KEYWORDS, handler.query);
      var items := search(RetrievalCount(handler.query));
      if temporal && |items| > 0 {
        items := FilterRecent(items, cutoff, decode, parseDay);
      }
      handler.finalRetrievedItems := items;
      if !handler.queryDone && !handler.abortFastTrack {
        handler.rankingStarted := true;
      }
    }
  }
}
