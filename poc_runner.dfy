/**
 * The threshold comparison run of the semantic chunker: every article of a
 * TSV file is chunked once per threshold under test, the chunk counts,
 * chunk sizes and sentences per chunk are summarised per threshold, and the
 * summary suggests the threshold whose average chunk count per article is
 * closest to 5.5.
 *
 * The embedding model and the cosine are parameters, as in the chunker; the
 * clock reading and the file name are parameters of the run.
 */
module PocRunner {
  import opened Wrappers
  import opened Text
  import opened Values
  import PocChunking
  import PocLengthAnalysis

  type Vec = PocChunking.Vec

  /** The thresholds tried when none are given. */
  const DEFAULT_THRESHOLDS: seq<real> := [0.75, 0.80, 0.85, 0.90]
  /** How much of a chunk's text its summary shows. */
  const PREVIEW_LENGTH: nat := 200
  /** The middle of the aimed-for 3 to 8 chunks per article. */
  const TARGET_AVG: real := 5.5

  /** An article as loaded: its URL and the raw `headline` and `articleBody` values. */
  datatype Article = Article(url: string, headline: Value, body: Value)

  datatype ChunkSummary = ChunkSummary(index: nat, sentenceCount: nat, charCount: nat, preview: string)

  /** Minimum, maximum and mean of the neighbour similarities; all absent when there are none. */
  datatype SimilarityStats = SimilarityStats(min: Option<real>, max: Option<real>, avg: Option<real>)

  /** What one article gives at one threshold. */
  datatype ThresholdResult = ThresholdResult(
    chunkCount: nat, sentenceCount: nat, avgChunkSize: real,
    chunks: seq<ChunkSummary>, similarity: SimilarityStats)

  /** One article across all thresholds (`results_by_threshold` is keyed by the threshold). */
  datatype ArticleResult = ArticleResult(
    url: string, headline: Value, originalLength: nat, byThreshold: map<real, ThresholdResult>)

  /** `ThresholdStats` */
  datatype ThresholdStats = ThresholdStats(
    threshold: real, totalArticles: nat, totalChunks: nat, avgChunksPerArticle: real,
    minChunks: nat, maxChunks: nat, avgChunkSize: real, avgSentencesPerChunk: real)

  /** `POCResults`; the statistics are listed in the order the thresholds were first tested. */
  datatype PocResults = PocResults(
    runTime: string, tsvFile: string, totalArticles: nat, thresholdsTested: seq<real>,
    statsByThreshold: seq<ThresholdStats>, articles: seq<ArticleResult>)

  /** The errors processing an article with an unusable headline or body raises. */
  datatype RunError = TypeError | AttributeError

  // ---------------------------------------------------------------------
  // Loading
  // ---------------------------------------------------------------------

  /**
   * The rows the run reads: with `max_articles` set, and not 0, the loop
   * stops at that row number (at once when it is negative).
   */
  function Window(rows: seq<string>, maxArticles: Option<int>): (w: seq<string>)
    ensures |w| <= |rows| && w == rows[..|w|]
    ensures (maxArticles.None? || maxArticles.value == 0) ==> w == rows
    ensures maxArticles.Some? && maxArticles.value != 0 ==>
      |w| == Min(Max(maxArticles.value, 0), |rows|)
  {
    if maxArticles.Some? && maxArticles.value != 0 then rows[..Min(Max(maxArticles.value, 0), |rows|)]
    else rows
  }

  /**
   * One row as an article: the URL and the `headline` and `articleBody`
   * of its JSON object, '' when missing. A row that does not parse, or
   * whose JSON is not an object, gives none (the run only warns).
   */
  function ArticleOf(line: string, decode: string -> Option<Value>): (a: Option<Article>)
    ensures a.Some? <==>
      PocChunking.ParseTsvLine(line, decode).Ok? && PocChunking.ParseTsvLine(line, decode).value.1.Dict?
    ensures a.Some? ==>
      var (url, data) := PocChunking.ParseTsvLine(line, decode).value;
      a.value.url == url
      && a.value.headline == GetOr(data.fields, "headline", Str([]))
      && a.value.body == GetOr(data.fields, "articleBody", Str([]))
  {
    match PocChunking.ParseTsvLine(line, decode)
    case Err(_) => None
    case Ok((url, data)) =>
      if data.Dict? then
        Some(Article(url, GetOr(data.fields, "headline", Str([])), GetOr(data.fields, "articleBody", Str([]))))
      else None
  }

  /** `ArticleOf` as a function of the row alone. */
  function Parser(decode: string -> Option<Value>): string -> Option<Article>
  {
    line => ArticleOf(line, decode)
  }

  /**
   * The loading of `run_poc`: skip the header row, stop at `max_articles`,
   * keep every row that parses.
   */
  method LoadArticles(lines: seq<string>, maxArticles: Option<int>, decode: string -> Option<Value>)
    returns (articles: seq<Article>)
    ensures articles == PocChunking.Parsed(Window(PocChunking.DataRows(lines), maxArticles), Parser(decode))
    ensures |articles| <= |PocChunking.DataRows(lines)|
    ensures maxArticles.Some? && maxArticles.value != 0 ==> |articles| <= Max(maxArticles.value, 0)
  {
    articles := LoadRows(PocChunking.DataRows(lines), maxArticles, Parser(decode));
  }

  /** The loading loop, for any way of reading a row. */
  method LoadRows(rows: seq<string>, maxArticles: Option<int>, parse: string -> Option<Article>)
    returns (articles: seq<Article>)
    ensures articles == PocChunking.Parsed(Window(rows, maxArticles), parse)
    ensures |articles| <= |Window(rows, maxArticles)|
  {
    ghost var window := Window(rows, maxArticles);
    articles := [];
    var i := 0;
    while i < |rows|
      invariant i <= |window|
      invariant articles == PocChunking.Parsed(rows[..i], parse)
      decreases |rows| - i
    {
      if maxArticles.Some? && maxArticles.value != 0 && i >= maxArticles.value {
        break;
      }
      PocChunking.ParsedStep(rows, i, parse);
      var a := parse(rows[i]);
      if a.Some? {
        articles := articles + [a.value];
      }
      i := i + 1;
    }
    assert rows[..i] == window;
    PocChunking.ParsedRows(window, parse);
  }

  // ---------------------------------------------------------------------
  // One article
  // ---------------------------------------------------------------------

  /**
   * What processing an article needs of it: the length of its body and the
   * text the chunker splits. Printing `headline[:30]` needs a string or a
   * list, `len(body)` a string, list or dict; a non-empty list or dict body
   * fails in the sentence splitter once a threshold is tried, an empty one
   * splits into no sentences.
   */
  function Prepare(a: Article, thresholds: seq<real>): (r: Result<(nat, string), RunError>)
    ensures r.Ok? ==> Len(a.body) == Some(r.value.0)
    ensures r.Ok? && a.body.Str? ==> r.value.1 == a.body.s
    ensures r.Ok? && !a.body.Str? ==> PocChunking.Sentences(r.value.1) == []
    ensures (a.headline.Str? || a.headline.List?) && a.body.Str? ==> r.Ok?
    ensures !(a.headline.Str? || a.headline.List?) || Len(a.body).None? ==> r == Err(TypeError)
  {
    if !(a.headline.Str? || a.headline.List?) then Err(TypeError)
    else
      match Len(a.body)
      case None => Err(TypeError)
      case Some(n) =>
        if a.body.Str? then Ok((n, a.body.s))
        else if !Truthy(a.body) || thresholds == [] then Ok((n, []))
        else Err(AttributeError)
  }

  /** How many chunks the chunker makes of `text` at threshold `t`. */
  function ChunkCount(text: string, t: real, embed: string -> Vec, cosine: (Vec, Vec) -> real): (n: nat)
  {
    var sentences := PocChunking.Sentences(text);
    if sentences == [] then 0
    else 1 + PocChunking.CountBelow(PocChunking.Similarities(sentences, embed, cosine), t)
  }

  /**
   * A higher threshold never gives fewer chunks, there is a chunk exactly
   * when there is a sentence, and never more chunks than sentences.
   */
  lemma ChunkCountMonotone(text: string, low: real, high: real, embed: string -> Vec, cosine: (Vec, Vec) -> real)
    requires low <= high
    ensures ChunkCount(text, low, embed, cosine) <= ChunkCount(text, high, embed, cosine)
    ensures ChunkCount(text, low, embed, cosine) == 0 <==> PocChunking.Sentences(text) == []
    ensures ChunkCount(text, high, embed, cosine) <= |PocChunking.Sentences(text)|
  {
    var sentences := PocChunking.Sentences(text);
    if sentences != [] {
      PocChunking.CountBelowMonotone(PocChunking.Similarities(sentences, embed, cosine), low, high);
    }
  }

  /** `c.full_text[:200] + ('...' if len(c.full_text) > 200 else '')` */
  function Preview(text: string): (p: string)
    ensures |text| <= PREVIEW_LENGTH ==> p == text
    ensures |text| > PREVIEW_LENGTH ==> |p| == PREVIEW_LENGTH + 3 && p[..PREVIEW_LENGTH] == text[..PREVIEW_LENGTH]
  {
    if |text| > PREVIEW_LENGTH then text[..PREVIEW_LENGTH] + "..." else text
  }

  function Summaries(chunks: seq<PocChunking.Chunk>): (s: seq<ChunkSummary>)
    ensures |s| == |chunks|
  {
    seq(|chunks|, i requires 0 <= i < |chunks| =>
      ChunkSummary(chunks[i].chunkIndex, chunks[i].SentenceCount(), chunks[i].CharCount(), Preview(chunks[i].fullText)))
  }

  /** The sentences the summarised chunks hold together. */
  function SentenceTotal(chunks: seq<ChunkSummary>): nat
  {
    if chunks == [] then 0 else SentenceTotal(chunks[..|chunks| - 1]) + chunks[|chunks| - 1].sentenceCount
  }

  lemma {:induction false} SummariesTotal(chunks: seq<PocChunking.Chunk>)
    ensures SentenceTotal(Summaries(chunks)) == |PocChunking.Flatten(chunks)|
    decreases |chunks|
  {
    if chunks != [] {
      var init := chunks[..|chunks| - 1];
      SummariesTotal(init);
      assert Summaries(chunks)[..|chunks| - 1] == Summaries(init);
    }
  }

  function SimStats(scores: seq<real>): (s: SimilarityStats)
    ensures scores == [] ==> s == SimilarityStats(None, None, None)
    ensures scores != [] ==>
      s.min.Some? && s.max.Some? && s.avg.Some?
      && PocLengthAnalysis.Spans(scores, s.min.value, s.max.value)
      && s.avg.value == PocLengthAnalysis.Mean(scores)
  {
    if scores == [] then SimilarityStats(None, None, None)
    else
      PocLengthAnalysis.LeastGreatestSpan(scores);
      SimilarityStats(Some(PocLengthAnalysis.Least(scores)), Some(PocLengthAnalysis.Greatest(scores)),
                      Some(PocLengthAnalysis.Mean(scores)))
  }

  /** What `chunk_article` promises about its result for `text` at threshold `t`. */
  predicate Chunked(result: PocChunking.ChunkingResult, text: string, t: real,
                    embed: string -> Vec, cosine: (Vec, Vec) -> real)
  {
    var sentences := PocChunking.Sentences(text);
    result.sentenceCount == |sentences|
    && PocChunking.WellLaidOut(result.chunks)
    && PocChunking.Flatten(result.chunks) == sentences
    && (sentences == [] ==> result.chunks == [] && result.similarityScores == [])
    && (sentences != [] ==>
          result.similarityScores == PocChunking.Similarities(sentences, embed, cosine)
          && |result.chunks| == 1 + PocChunking.CountBelow(result.similarityScores, t))
  }

  /** The stored form of a chunking result. */
  function Summarize(result: PocChunking.ChunkingResult): ThresholdResult
  {
    ThresholdResult(|result.chunks|, result.sentenceCount, result.AvgChunkSize(),
                    Summaries(result.chunks), SimStats(result.similarityScores))
  }

  /**
   * The counts stored for `text` at threshold `t`: its sentences, the chunk
   * count the threshold gives, one summary per chunk numbered in order and
   * holding at least one sentence, and the summaries' sentences adding up to
   * all of them.
   */
  predicate Counted(res: ThresholdResult, text: string, t: real, embed: string -> Vec, cosine: (Vec, Vec) -> real)
  {
    var sentences := PocChunking.Sentences(text);
    res.sentenceCount == |sentences|
    && res.chunkCount == ChunkCount(text, t, embed, cosine)
    && |res.chunks| == res.chunkCount
    && (forall k :: 0 <= k < |res.chunks| ==> res.chunks[k].index == k && res.chunks[k].sentenceCount > 0)
    && SentenceTotal(res.chunks) == |sentences|
  }

  /** The measures stored for `text`: the average chunk size over the joined sentences, and the similarity statistics. */
  predicate Measured(res: ThresholdResult, text: string, embed: string -> Vec, cosine: (Vec, Vec) -> real)
  {
    var sentences := PocChunking.Sentences(text);
    res.avgChunkSize == PocLengthAnalysis.PerArticle(|Concat(sentences)|, res.chunkCount)
    && res.similarity == SimStats(PocChunking.Similarities(sentences, embed, cosine))
  }

  /** What the stored result at threshold `t` says about `text`. */
  predicate Outcome(res: ThresholdResult, text: string, t: real, embed: string -> Vec, cosine: (Vec, Vec) -> real)
  {
    Counted(res, text, t, embed, cosine) && Measured(res, text, embed, cosine)
  }

  lemma SummarizeCounts(result: PocChunking.ChunkingResult, text: string, t: real,
                        embed: string -> Vec, cosine: (Vec, Vec) -> real)
    requires Chunked(result, text, t, embed, cosine)
    ensures Counted(Summarize(result), text, t, embed, cosine)
  {
    var chunks := result.chunks;
    SummariesTotal(chunks);
    var summaries := Summaries(chunks);
    forall k | 0 <= k < |summaries|
      ensures summaries[k].index == k && summaries[k].sentenceCount > 0
    {
      PocChunking.ChunkAt(chunks, k);
    }
  }

  lemma SummarizeMeasures(result: PocChunking.ChunkingResult, text: string, t: real,
                          embed: string -> Vec, cosine: (Vec, Vec) -> real)
    requires Chunked(result, text, t, embed, cosine)
    ensures Measured(Summarize(result), text, embed, cosine)
  {
    PocChunking.LaidOutText(result.chunks);
  }

  /** Chunk the text at one threshold and summarise the result. */
  method RunThreshold(text: string, t: real, url: string, headline: string,
                      embed: string -> Vec, cosine: (Vec, Vec) -> real) returns (res: ThresholdResult)
    ensures Outcome(res, text, t, embed, cosine)
  {
    var result := PocChunking.DEFAULT_ENGINE.ChunkArticle(text, Some(t), url, headline, embed, cosine);
    assert Chunked(result, text, t, embed, cosine);
    SummarizeCounts(result, text, t, embed, cosine);
    SummarizeMeasures(result, text, t, embed, cosine);
    res := Summarize(result);
  }

  /** Every stored result is the outcome of its threshold. */
  predicate AllOutcomes(m: map<real, ThresholdResult>, text: string, embed: string -> Vec, cosine: (Vec, Vec) -> real)
  {
    forall t :: t in m ==> Outcome(m[t], text, t, embed, cosine)
  }

  lemma OutcomePut(m: map<real, ThresholdResult>, t: real, res: ThresholdResult, text: string,
                   embed: string -> Vec, cosine: (Vec, Vec) -> real)
    requires AllOutcomes(m, text, embed, cosine) && Outcome(res, text, t, embed, cosine)
    ensures AllOutcomes(m[t := res], text, embed, cosine)
  {
  }

  /** `article_result`: what processing article `a` over the thresholds records. */
  predicate Processed(a: Article, res: ArticleResult, thresholds: seq<real>,
                      embed: string -> Vec, cosine: (Vec, Vec) -> real)
  {
    Prepare(a, thresholds).Ok?
    && var (n, text) := Prepare(a, thresholds).value;
    res.url == a.url && res.headline == a.headline && res.originalLength == n
    && res.byThreshold.Keys == Tried(thresholds)
    && AllOutcomes(res.byThreshold, text, embed, cosine)
  }

  /** The thresholds tried, as the keys of `results_by_threshold`. */
  function Tried(thresholds: seq<real>): set<real>
  {
    set t | t in thresholds
  }

  lemma TriedStep(thresholds: seq<real>, i: nat)
    requires i < |thresholds|
    ensures Tried(thresholds[..i + 1]) == Tried(thresholds[..i]) + {thresholds[i]}
  {
    assert thresholds[..i + 1] == thresholds[..i] + [thresholds[i]];
  }

  /** One article chunked at every threshold. */
  method ProcessArticle(a: Article, thresholds: seq<real>, embed: string -> Vec, cosine: (Vec, Vec) -> real)
    returns (r: Result<ArticleResult, RunError>)
    ensures r.Err? <==> Prepare(a, thresholds).Err?
    ensures r.Err? ==> r.error == Prepare(a, thresholds).error
    ensures r.Ok? ==> Processed(a, r.value, thresholds, embed, cosine)
  {
    var prepared := Prepare(a, thresholds);
    if prepared.Err? {
      return Err(prepared.error);
    }
    var (n, text) := prepared.value;
    var headline := if a.headline.Str? then a.headline.s else [];
    var byThreshold: map<real, ThresholdResult> := map[];
    for i := 0 to |thresholds|
      invariant byThreshold.Keys == Tried(thresholds[..i])
      invariant AllOutcomes(byThreshold, text, embed, cosine)
    {
      var res := RunThreshold(text, thresholds[i], a.url, headline, embed, cosine);
      OutcomePut(byThreshold, thresholds[i], res, text, embed, cosine);
      TriedStep(thresholds, i);
      byThreshold := byThreshold[thresholds[i] := res];
    }
    assert thresholds[..|thresholds|] == thresholds;
    r := Ok(ArticleResult(a.url, a.headline, n, byThreshold));
  }

  // ---------------------------------------------------------------------
  // Statistics per threshold
  // ---------------------------------------------------------------------

  /** Every article has a result at threshold `t`. */
  predicate Covers(results: seq<ArticleResult>, t: real)
  {
    forall i :: 0 <= i < |results| ==> t in results[i].byThreshold
  }

  function ChunkCounts(results: seq<ArticleResult>, t: real): (cs: seq<nat>)
    requires Covers(results, t)
    ensures |cs| == |results|
  {
    seq(|results|, i requires 0 <= i < |results| => results[i].byThreshold[t].chunkCount)
  }

  function Total(xs: seq<nat>): nat
  {
    if xs == [] then 0 else Total(xs[..|xs| - 1]) + xs[|xs| - 1]
  }

  /** `min(chunk_counts)` */
  function Fewest(xs: seq<nat>): (m: nat)
    requires xs != []
    ensures m in xs && forall x :: x in xs ==> m <= x
  {
    if |xs| == 1 then xs[0]
    else
      var init, last := xs[..|xs| - 1], xs[|xs| - 1];
      assert xs == init + [last];
      var m := Fewest(init);
      if last < m then last else m
  }

  /** `max(chunk_counts)` */
  function Most(xs: seq<nat>): (m: nat)
    requires xs != []
    ensures m in xs && forall x :: x in xs ==> x <= m
  {
    if |xs| == 1 then xs[0]
    else
      var init, last := xs[..|xs| - 1], xs[|xs| - 1];
      assert xs == init + [last];
      var m := Most(init);
      if last > m then last else m
  }

  /** The average chunk sizes above 0, in article order (articles without chunks have size 0). */
  function PositiveSizes(results: seq<ArticleResult>, t: real): seq<real>
    requires Covers(results, t)
  {
    if results == [] then []
    else
      var size := results[|results| - 1].byThreshold[t].avgChunkSize;
      PositiveSizes(results[..|results| - 1], t) + (if size > 0.0 then [size] else [])
  }

  /** The chunk summaries of all articles at threshold `t`. */
  function AllChunks(results: seq<ArticleResult>, t: real): seq<ChunkSummary>
    requires Covers(results, t)
  {
    if results == [] then []
    else AllChunks(results[..|results| - 1], t) + results[|results| - 1].byThreshold[t].chunks
  }

  function SentenceCounts(chunks: seq<ChunkSummary>): (xs: seq<real>)
    ensures |xs| == |chunks|
  {
    seq(|chunks|, i requires 0 <= i < |chunks| => chunks[i].sentenceCount as real)
  }

  /** The statistics `run_poc` records for threshold `t`. */
  function Stats(results: seq<ArticleResult>, t: real): ThresholdStats
    requires Covers(results, t)
  {
    var counts := ChunkCounts(results, t);
    ThresholdStats(
      t, |results|, Total(counts), PocLengthAnalysis.PerArticle(Total(counts), |counts|),
      if counts == [] then 0 else Fewest(counts),
      if counts == [] then 0 else Most(counts),
      PocLengthAnalysis.MeanOrZero(PositiveSizes(results, t)),
      PocLengthAnalysis.MeanOrZero(SentenceCounts(AllChunks(results, t))))
  }

  /**
   * The fewest and most chunks are those of some article and bound every
   * article's count; with no articles every figure is 0.
   */
  lemma StatsRange(results: seq<ArticleResult>, t: real)
    requires Covers(results, t)
    ensures var s := Stats(results, t);
      s.threshold == t && s.totalArticles == |results|
      && (forall i :: 0 <= i < |results| ==>
            s.minChunks <= results[i].byThreshold[t].chunkCount <= s.maxChunks)
      && (results != [] ==>
            (exists i :: 0 <= i < |results| && s.minChunks == results[i].byThreshold[t].chunkCount)
            && (exists j :: 0 <= j < |results| && s.maxChunks == results[j].byThreshold[t].chunkCount))
      && (results == [] ==>
            s.totalChunks == 0 && s.minChunks == 0 && s.maxChunks == 0
            && s.avgChunksPerArticle == 0.0 && s.avgChunkSize == 0.0 && s.avgSentencesPerChunk == 0.0)
  {
    var counts := ChunkCounts(results, t);
    var s := Stats(results, t);
    forall i | 0 <= i < |results|
      ensures s.minChunks <= results[i].byThreshold[t].chunkCount <= s.maxChunks
    {
      assert counts[i] in counts;
    }
    if results != [] {
      var i :| 0 <= i < |counts| && counts[i] == s.minChunks;
      var j :| 0 <= j < |counts| && counts[j] == s.maxChunks;
    }
  }

  /** Only positive average sizes enter the average chunk size, one at most per article. */
  lemma {:induction false} PositiveSizesPositive(results: seq<ArticleResult>, t: real)
    requires Covers(results, t)
    ensures forall x :: x in PositiveSizes(results, t) ==> x > 0.0
    ensures |PositiveSizes(results, t)| <= |results|
    decreases |results|
  {
    if results != [] {
      PositiveSizesPositive(results[..|results| - 1], t);
    }
  }

  /** Every article's positive average size enters the average chunk size. */
  lemma {:induction false} PositiveSizesComplete(results: seq<ArticleResult>, t: real)
    requires Covers(results, t)
    ensures forall i :: 0 <= i < |results| && results[i].byThreshold[t].avgChunkSize > 0.0 ==>
      results[i].byThreshold[t].avgChunkSize in PositiveSizes(results, t)
    decreases |results|
  {
    if results != [] {
      var init := results[..|results| - 1];
      PositiveSizesComplete(init, t);
      forall i | 0 <= i < |init|
        ensures init[i] == results[i]
      {
      }
    }
  }

  /**
   * When each article keeps one summary per chunk, the average number of
   * sentences per chunk is taken over exactly the total chunk count.
   */
  lemma {:induction false} AllChunksCount(results: seq<ArticleResult>, t: real)
    requires Covers(results, t)
    requires forall i :: 0 <= i < |results| ==> |results[i].byThreshold[t].chunks| == results[i].byThreshold[t].chunkCount
    ensures |AllChunks(results, t)| == Stats(results, t).totalChunks
    decreases |results|
  {
    if results != [] {
      var init := results[..|results| - 1];
      AllChunksCount(init, t);
      assert ChunkCounts(results, t)[..|results| - 1] == ChunkCounts(init, t);
    }
  }

  lemma {:induction false} TotalMonotone(xs: seq<nat>, ys: seq<nat>)
    requires |xs| == |ys| && forall i :: 0 <= i < |xs| ==> xs[i] <= ys[i]
    ensures Total(xs) <= Total(ys)
    decreases |xs|
  {
    if xs != [] {
      TotalMonotone(xs[..|xs| - 1], ys[..|ys| - 1]);
    }
  }

  /**
   * Over the processed articles, every article has at least as many chunks
   * at a higher threshold, and so has the total.
   */
  lemma TotalChunksMonotone(articles: seq<Article>, results: seq<ArticleResult>, thresholds: seq<real>,
                            embed: string -> Vec, cosine: (Vec, Vec) -> real, low: real, high: real)
    requires |results| == |articles|
    requires forall i :: 0 <= i < |results| ==> Processed(articles[i], results[i], thresholds, embed, cosine)
    requires low in thresholds && high in thresholds && low <= high
    ensures Covers(results, low) && Covers(results, high)
    ensures forall i :: 0 <= i < |results| ==>
      results[i].byThreshold[low].chunkCount <= results[i].byThreshold[high].chunkCount
    ensures Stats(results, low).totalChunks <= Stats(results, high).totalChunks
  {
    forall i | 0 <= i < |results|
      ensures low in results[i].byThreshold && high in results[i].byThreshold
      ensures results[i].byThreshold[low].chunkCount <= results[i].byThreshold[high].chunkCount
    {
      assert Processed(articles[i], results[i], thresholds, embed, cosine);
      var text := Prepare(articles[i], thresholds).value.1;
      assert low in results[i].byThreshold.Keys && high in results[i].byThreshold.Keys;
      ChunkCountMonotone(text, low, high, embed, cosine);
    }
    TotalMonotone(ChunkCounts(results, low), ChunkCounts(results, high));
  }

  // ---------------------------------------------------------------------
  // The run
  // ---------------------------------------------------------------------

  /** The thresholds in the order they are first met, each once (the keys of `stats_by_threshold`). */
  function Distinct(xs: seq<real>): (d: seq<real>)
    ensures forall x :: x in d <==> x in xs
    ensures forall i, j :: 0 <= i < j < |d| ==> d[i] != d[j]
  {
    if xs == [] then []
    else
      var init := Distinct(xs[..|xs| - 1]);
      assert xs == xs[..|xs| - 1] + [xs[|xs| - 1]];
      if xs[|xs| - 1] in init then init else init + [xs[|xs| - 1]]
  }

  /** The first article, in order, that processing rejects. */
  predicate FirstFailure(articles: seq<Article>, thresholds: seq<real>, k: nat)
  {
    k < |articles| && Prepare(articles[k], thresholds).Err?
    && forall j :: 0 <= j < k ==> Prepare(articles[j], thresholds).Ok?
  }

  /** Process the loaded articles in order, stopping at the first that fails. */
  method ProcessAll(articles: seq<Article>, thresholds: seq<real>, embed: string -> Vec, cosine: (Vec, Vec) -> real)
    returns (r: Result<seq<ArticleResult>, RunError>)
    ensures r.Err? ==> exists k: nat :: FirstFailure(articles, thresholds, k) && r.error == Prepare(articles[k], thresholds).error
    ensures r.Ok? ==>
      |r.value| == |articles|
      && forall i :: 0 <= i < |articles| ==> Processed(articles[i], r.value[i], thresholds, embed, cosine)
  {
    var results: seq<ArticleResult> := [];
    for i := 0 to |articles|
      invariant |results| == i
      invariant forall j :: 0 <= j < i ==> Processed(articles[j], results[j], thresholds, embed, cosine)
    {
      var one := ProcessArticle(articles[i], thresholds, embed, cosine);
      if one.Err? {
        assert FirstFailure(articles, thresholds, i);
        return Err(one.error);
      }
      results := results + [one.value];
    }
    return Ok(results);
  }

  /** Processed articles have a result at every threshold tried. */
  lemma ProcessedCovers(articles: seq<Article>, results: seq<ArticleResult>, thresholds: seq<real>,
                        embed: string -> Vec, cosine: (Vec, Vec) -> real)
    requires |results| == |articles|
    requires forall i :: 0 <= i < |results| ==> Processed(articles[i], results[i], thresholds, embed, cosine)
    ensures forall t :: t in thresholds ==> Covers(results, t)
  {
    forall t, i | t in thresholds && 0 <= i < |results|
      ensures t in results[i].byThreshold
    {
      assert Processed(articles[i], results[i], thresholds, embed, cosine);
      assert t in Tried(thresholds);
    }
  }

  /** The statistics of the processed articles for each distinct threshold, in order. */
  method StatsByThreshold(results: seq<ArticleResult>, thresholds: seq<real>) returns (stats: seq<ThresholdStats>)
    requires forall t :: t in thresholds ==> Covers(results, t)
    ensures |stats| == |Distinct(thresholds)|
    ensures forall k :: 0 <= k < |stats| ==> stats[k] == Stats(results, Distinct(thresholds)[k])
  {
    stats := [];
    ghost var seen: seq<real> := [];
    for i := 0 to |thresholds|
      invariant seen == Distinct(thresholds[..i])
      invariant |stats| == |seen|
      invariant forall k :: 0 <= k < |stats| ==> seen[k] in thresholds && stats[k] == Stats(results, seen[k])
    {
      assert thresholds[..i + 1][..i] == thresholds[..i];
      var t := thresholds[i];
      if !(exists k :: 0 <= k < |stats| && stats[k].threshold == t) {
        assert t !in seen;
        stats := stats + [Stats(results, t)];
        seen := seen + [t];
      } else {
        var k :| 0 <= k < |stats| && stats[k].threshold == t;
        assert seen[k] == t;
      }
    }
    assert thresholds[..|thresholds|] == thresholds;
  }

  /**
   * `run_poc`: load the articles, chunk each at every threshold (the four
   * defaults when none are given), and summarise each threshold. The first
   * article whose headline or body cannot be processed ends the run with
   * its error.
   */
  method RunPoc(lines: seq<string>, thresholds: Option<seq<real>>, maxArticles: Option<int>,
                decode: string -> Option<Value>, embed: string -> Vec, cosine: (Vec, Vec) -> real,
                runTime: string, tsvFile: string) returns (r: Result<PocResults, RunError>)
    ensures var ts, loaded := thresholds.GetOr(DEFAULT_THRESHOLDS), PocChunking.Parsed(Window(PocChunking.DataRows(lines), maxArticles), Parser(decode));
      (r.Err? ==> exists k: nat :: FirstFailure(loaded, ts, k) && r.error == Prepare(loaded[k], ts).error)
      && (r.Ok? ==>
            r.value.runTime == runTime && r.value.tsvFile == tsvFile
            && r.value.totalArticles == |loaded| && r.value.thresholdsTested == ts
            && |r.value.articles| == |loaded|
            && (forall i :: 0 <= i < |loaded| ==> Processed(loaded[i], r.value.articles[i], ts, embed, cosine))
            && |r.value.statsByThreshold| == |Distinct(ts)|
            && (forall t :: t in ts ==> Covers(r.value.articles, t))
            && forall k :: 0 <= k < |Distinct(ts)| ==>
                 r.value.statsByThreshold[k] == Stats(r.value.articles, Distinct(ts)[k]))
  {
    var ts := thresholds.GetOr(DEFAULT_THRESHOLDS);
    var articles := LoadArticles(lines, maxArticles, decode);
    var processed := ProcessAll(articles, ts, embed, cosine);
    if processed.Err? {
      return Err(processed.error);
    }
    var results := processed.value;
    ProcessedCovers(articles, results, ts, embed, cosine);
    var stats := StatsByThreshold(results, ts);
    r := Ok(PocResults(runTime, tsvFile, |results|, ts, stats, results));
  }

  // ---------------------------------------------------------------------
  // The suggestion
  // ---------------------------------------------------------------------

  /** How far a threshold's average chunk count is from the target. */
  function Distance(s: ThresholdStats): (d: real)
    ensures d >= 0.0
    ensures d == s.avgChunksPerArticle - TARGET_AVG || d == TARGET_AVG - s.avgChunksPerArticle
  {
    if s.avgChunksPerArticle < TARGET_AVG then TARGET_AVG - s.avgChunksPerArticle
    else s.avgChunksPerArticle - TARGET_AVG
  }

  /** Among the first `n` statistics, the `b`-th is the first one closest to the target. */
  predicate FirstClosest(stats: seq<ThresholdStats>, b: nat, n: nat)
    requires n <= |stats|
  {
    b < n
    && (forall j :: 0 <= j < n ==> Distance(stats[b]) <= Distance(stats[j]))
    && (forall j :: 0 <= j < b ==> Distance(stats[b]) < Distance(stats[j]))
  }

  /**
   * The threshold `print_summary` suggests: that of the first statistics
   * entry whose average chunk count is closest to 5.5, and none when there
   * are no entries or that threshold is 0 (the summary only prints a
   * truthy one).
   */
  method SuggestedThreshold(stats: seq<ThresholdStats>) returns (suggested: Option<real>)
    ensures stats == [] ==> suggested == None
    ensures stats != [] ==>
      (exists b: nat :: FirstClosest(stats, b, |stats|)
         && suggested == (if stats[b].threshold != 0.0 then Some(stats[b].threshold) else None))
  {
    var best: Option<real> := None;
    var bestDiff := 0.0;
    ghost var b := 0;
    for k := 0 to |stats|
      invariant best.None? <==> k == 0
      invariant k > 0 ==> FirstClosest(stats, b, k) && best == Some(stats[b].threshold) && bestDiff == Distance(stats[b])
    {
      var diff := Distance(stats[k]);
      if best.None? || diff < bestDiff {
        bestDiff := diff;
        best := Some(stats[k].threshold);
        b := k;
      }
    }
    if best.Some? && best.value != 0.0 {
      suggested := best;
    } else {
      suggested := None;
    }
  }
}
