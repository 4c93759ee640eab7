/**
 * The chunker's analysis by news source: articles are loaded from several
 * TSV exports and tagged with the source their URL names, then grouped by
 * source and by body length; every group of at least three articles is
 * chunked by length and summarised by its chunks per article and the
 * similarity between neighbouring chunks.
 *
 * Whether each file exists is part of the input; the embedding model, the
 * cosine and the centroid are the chunker's parameters.
 */
module PocSourceAnalysis {
  import opened Wrappers
  import opened Text
  import opened Values
  import PocChunking
  import PocLengthAnalysis
  import PrepareTestData

  type Chunker = PocLengthAnalysis.Chunker
  type AnalyzeError = PocLengthAnalysis.AnalyzeError

  const DEFAULT_MAX_PER_FILE: int := 100
  const DEFAULT_TARGET_LENGTH: int := 200
  /** Smaller groups are not analysed. */
  const MIN_GROUP_SIZE: nat := 3

  // ---------------------------------------------------------------------
  // Sources
  // ---------------------------------------------------------------------

  /** The source of a URL that names none of the known ones. */
  const OTHER: string := "其他"

  /** The URL fragments tested, in order, and the source each one names. */
  const SOURCES: seq<(string, string)> := [
    ("udn.com", "UDN 聯合"), ("ltn.com", "LTN 自由"), ("cna.com", "CNA 中央社"),
    ("ettoday", "ETtoday"), ("chinatimes", "中時")]

  /** The source of the first entry whose fragment occurs in the URL, or the fallback. */
  function FirstMatch(url: string, table: seq<(string, string)>, fallback: string): (source: string)
    ensures (forall k :: 0 <= k < |table| ==> !Contains(url, table[k].0)) ==> source == fallback
    ensures (exists k :: 0 <= k < |table| && Contains(url, table[k].0)) ==>
      exists k :: 0 <= k < |table| && source == table[k].1
    ensures forall k :: (0 <= k < |table| && Contains(url, table[k].0)
      && forall j :: 0 <= j < k ==> !Contains(url, table[j].0)) ==> source == table[k].1
  {
    if table == [] then fallback
    else if Contains(url, table[0].0) then table[0].1
    else
      var rest := FirstMatch(url, table[1..], fallback);
      assert forall k :: 1 <= k < |table| ==> table[k] == table[1..][k - 1];
      rest
  }

  /**
   * `extract_source`: the first of udn.com, ltn.com, cna.com, ettoday and
   * chinatimes that the URL contains names the source; otherwise it is
   * 其他.
   */
  function ExtractSource(url: string): (source: string)
    ensures source == OTHER <==> forall k :: 0 <= k < |SOURCES| ==> !Contains(url, SOURCES[k].0)
    ensures forall k :: (0 <= k < |SOURCES| && Contains(url, SOURCES[k].0)
      && forall j :: 0 <= j < k ==> !Contains(url, SOURCES[j].0)) ==> source == SOURCES[k].1
  {
    assert forall k :: 0 <= k < |SOURCES| ==> SOURCES[k].1 != OTHER;
    FirstMatch(url, SOURCES, OTHER)
  }

  // ---------------------------------------------------------------------
  // Loading
  // ---------------------------------------------------------------------

  /** A loaded article: its JSON object and the `_url`, `_source` and `_length` the loader adds to it. */
  datatype SourceArticle = SourceArticle(data: map<string, Value>, url: string, source: string, length: nat)

  /** A usable line as a tagged article (a line is usable on the same terms as for the test set). */
  function Tagged(line: string, decode: string -> Option<Value>): (a: Option<SourceArticle>)
    ensures a.Some? <==> PrepareTestData.CandidateOf(line, decode).Some?
    ensures a.Some? ==>
      var c := PrepareTestData.CandidateOf(line, decode).value;
      a.value == SourceArticle(c.data, c.url, ExtractSource(c.url), c.length)
  {
    match PrepareTestData.CandidateOf(line, decode)
    case Some(c) => Some(SourceArticle(c.data, c.url, ExtractSource(c.url), c.length))
    case None => None
  }

  function TaggedParser(decode: string -> Option<Value>): string -> Option<SourceArticle>
  {
    line => Tagged(line, decode)
  }

  /** `xs[:n]` for a count that stops the reading once reached: nothing when it is not positive. */
  function Take<T>(xs: seq<T>, n: int): (r: seq<T>)
    ensures |r| <= |xs| && r == xs[..|r|]
    ensures n <= 0 ==> r == []
    ensures n > 0 ==> |r| == Min(n, |xs|)
  {
    if n <= 0 then [] else xs[..Min(n, |xs|)]
  }

  /** What one existing file gives: its first `max_per_file` usable articles. */
  function FileArticles(lines: seq<string>, maxPerFile: int, decode: string -> Option<Value>): seq<SourceArticle>
  {
    Take(PocChunking.Parsed(PocChunking.DataRows(lines), TaggedParser(decode)), maxPerFile)
  }

  /** The reading loop of one file: stop once `max_per_file` articles are kept. */
  method LoadFile(rows: seq<string>, maxPerFile: int, parse: string -> Option<SourceArticle>)
    returns (articles: seq<SourceArticle>)
    ensures articles == Take(PocChunking.Parsed(rows, parse), maxPerFile)
  {
    articles := [];
    var count := 0;
    var i := 0;
    while i < |rows|
      invariant 0 <= i <= |rows|
      invariant articles == PocChunking.Parsed(rows[..i], parse) && count == |articles|
      invariant maxPerFile > 0 ==> count <= maxPerFile
      invariant maxPerFile <= 0 ==> i == 0
      decreases |rows| - i
    {
      if count >= maxPerFile {
        break;
      }
      PocChunking.ParsedStep(rows, i, parse);
      var a := parse(rows[i]);
      if a.Some? {
        articles := articles + [a.value];
        count := count + 1;
      }
      i := i + 1;
    }
    PocChunking.ParsedPrefix(rows, i, parse);
    if i == |rows| {
      assert rows[..i] == rows;
    }
  }

  /** What the files give in order; a missing file (`None`) gives nothing. */
  function AllFiles(files: seq<Option<seq<string>>>, maxPerFile: int, decode: string -> Option<Value>): seq<SourceArticle>
  {
    if files == [] then []
    else
      AllFiles(files[..|files| - 1], maxPerFile, decode)
      + match files[|files| - 1]
        case None => []
        case Some(lines) => FileArticles(lines, maxPerFile, decode)
  }

  /** `load_articles_from_multiple_tsv`: the articles of every existing file, in file order. */
  method LoadArticlesFromMultipleTsv(files: seq<Option<seq<string>>>, maxPerFile: int, decode: string -> Option<Value>)
    returns (articles: seq<SourceArticle>)
    ensures articles == AllFiles(files, maxPerFile, decode)
  {
    articles := [];
    for k := 0 to |files|
      invariant articles == AllFiles(files[..k], maxPerFile, decode)
    {
      assert files[..k + 1][..k] == files[..k];
      if files[k].Some? {
        var found := LoadFile(PocChunking.DataRows(files[k].value), maxPerFile, TaggedParser(decode));
        articles := articles + found;
      }
    }
    assert files[..|files|] == files;
  }

  /**
   * Every loaded article carries a body of at least 100 characters whose
   * length it records, and the source its URL names; each file adds at
   * most `max_per_file` of them.
   */
  lemma {:induction false} LoadedTagged(files: seq<Option<seq<string>>>, maxPerFile: int, decode: string -> Option<Value>)
    ensures forall a :: a in AllFiles(files, maxPerFile, decode) ==>
      a.length >= PocLengthAnalysis.MIN_BODY_LENGTH
      && Len(GetOr(a.data, "articleBody", Str([]))) == Some(a.length)
      && a.source == ExtractSource(a.url)
    ensures |AllFiles(files, maxPerFile, decode)| <= |files| * (if maxPerFile > 0 then maxPerFile else 0)
    decreases |files|
  {
    if files != [] {
      var init := files[..|files| - 1];
      LoadedTagged(init, maxPerFile, decode);
      var bound := if maxPerFile > 0 then maxPerFile else 0;
      FilesBound(|init|, bound);
      match files[|files| - 1]
      case None =>
      case Some(lines) =>
        FileTagged(lines, maxPerFile, decode);
    }
  }

  lemma FilesBound(n: nat, bound: nat)
    ensures n * bound + bound == (n + 1) * bound
  {
  }

  lemma FileTagged(lines: seq<string>, maxPerFile: int, decode: string -> Option<Value>)
    ensures forall a :: a in FileArticles(lines, maxPerFile, decode) ==>
      a.length >= PocLengthAnalysis.MIN_BODY_LENGTH
      && Len(GetOr(a.data, "articleBody", Str([]))) == Some(a.length)
      && a.source == ExtractSource(a.url)
    ensures |FileArticles(lines, maxPerFile, decode)| <= (if maxPerFile > 0 then maxPerFile else 0)
  {
    var rows := PocChunking.DataRows(lines);
    var parsed := PocChunking.Parsed(rows, TaggedParser(decode));
    PocChunking.ParsedRows(rows, TaggedParser(decode));
    forall a | a in FileArticles(lines, maxPerFile, decode)
      ensures a.length >= PocLengthAnalysis.MIN_BODY_LENGTH
      ensures Len(GetOr(a.data, "articleBody", Str([]))) == Some(a.length)
      ensures a.source == ExtractSource(a.url)
    {
      assert a in parsed;
      var j :| 0 <= j < |rows| && TaggedParser(decode)(rows[j]) == Some(a);
      assert Tagged(rows[j], decode) == Some(a);
    }
  }

  // ---------------------------------------------------------------------
  // Groups
  // ---------------------------------------------------------------------

  /** The articles of one source, in order. */
  function OfSource(articles: seq<SourceArticle>, source: string): seq<SourceArticle>
  {
    if articles == [] then []
    else
      var last := articles[|articles| - 1];
      OfSource(articles[..|articles| - 1], source) + (if last.source == source then [last] else [])
  }

  /** The sources the articles name. */
  function SourcesOf(articles: seq<SourceArticle>): set<string>
  {
    set a | a in articles :: a.source
  }

  /** An article is in the group of its own source and of no other. */
  lemma {:induction false} OfSourceMembers(articles: seq<SourceArticle>, source: string)
    ensures forall a :: a in OfSource(articles, source) <==> a in articles && a.source == source
    ensures OfSource(articles, source) == [] <==> source !in SourcesOf(articles)
    decreases |articles|
  {
    if articles != [] {
      var init := articles[..|articles| - 1];
      OfSourceMembers(init, source);
      assert articles == init + [articles[|articles| - 1]];
      if OfSource(articles, source) != [] {
        assert OfSource(articles, source)[0] in OfSource(articles, source);
      }
    }
  }

  /** Each source that occurs, with its articles in order. */
  function Grouping(articles: seq<SourceArticle>): map<string, seq<SourceArticle>>
  {
    map s | s in SourcesOf(articles) :: OfSource(articles, s)
  }

  /** The sources in the order first met, each once. */
  function Order(articles: seq<SourceArticle>): (order: seq<string>)
    ensures forall s :: s in order <==> s in SourcesOf(articles)
    ensures forall i, j :: 0 <= i < j < |order| ==> order[i] != order[j]
  {
    if articles == [] then []
    else
      var init := articles[..|articles| - 1];
      var last := articles[|articles| - 1];
      assert articles == init + [last];
      var order := Order(init);
      if last.source in order then order else order + [last.source]
  }

  /** `by_source[a['_source']].append(a)` */
  function Append(groups: map<string, seq<SourceArticle>>, a: SourceArticle): map<string, seq<SourceArticle>>
  {
    if a.source in groups then groups[a.source := groups[a.source] + [a]] else groups[a.source := [a]]
  }

  lemma OrderStep(prefix: seq<SourceArticle>, a: SourceArticle)
    ensures Order(prefix + [a]) == if a.source in Grouping(prefix) then Order(prefix) else Order(prefix) + [a.source]
  {
    var next := prefix + [a];
    assert next[..|next| - 1] == prefix;
  }

  lemma GroupingStep(prefix: seq<SourceArticle>, a: SourceArticle)
    ensures Grouping(prefix + [a]) == Append(Grouping(prefix), a)
  {
    var next := prefix + [a];
    assert next[..|next| - 1] == prefix;
    assert SourcesOf(next) == SourcesOf(prefix) + {a.source};
    var g := Append(Grouping(prefix), a);
    forall s | s in g
      ensures g[s] == OfSource(next, s)
    {
      if s == a.source && s !in SourcesOf(prefix) {
        OfSourceMembers(prefix, s);
      }
    }
  }

  /**
   * The `by_source` grouping (a defaultdict filled article by article):
   * each source that occurs, with its articles in order, and the sources
   * in the order first met.
   */
  method GroupBySource(articles: seq<SourceArticle>) returns (groups: map<string, seq<SourceArticle>>, order: seq<string>)
    ensures groups == Grouping(articles) && order == Order(articles)
  {
    groups := map[];
    order := [];
    for i := 0 to |articles|
      invariant groups == Grouping(articles[..i]) && order == Order(articles[..i])
    {
      var a := articles[i];
      assert articles[..i + 1] == articles[..i] + [a];
      GroupingStep(articles[..i], a);
      OrderStep(articles[..i], a);
      if a.source !in groups {
        order := order + [a.source];
      }
      groups := Append(groups, a);
    }
    assert articles[..|articles|] == articles;
  }

  /** The length groups: below 500, 500 up to 1000, and 1000 or more. */
  datatype Band = Short | Medium | Long

  const BANDS: seq<Band> := [Short, Medium, Long]

  function Label(band: Band): string
  {
    match band
    case Short => "短文 (<500字)"
    case Medium => "中等 (500-1000字)"
    case Long => "長文 (>1000字)"
  }

  predicate Fits(band: Band, length: nat)
  {
    match band
    case Short => length < 500
    case Medium => 500 <= length < 1000
    case Long => length >= 1000
  }

  /** The articles of one length group, in order. */
  function InBand(articles: seq<SourceArticle>, band: Band): (r: seq<SourceArticle>)
    ensures |r| <= |articles|
  {
    if articles == [] then []
    else
      var last := articles[|articles| - 1];
      InBand(articles[..|articles| - 1], band) + (if Fits(band, last.length) then [last] else [])
  }

  /** The length groups hold every article exactly once between them. */
  lemma {:induction false} BandsPartition(articles: seq<SourceArticle>)
    ensures |InBand(articles, Short)| + |InBand(articles, Medium)| + |InBand(articles, Long)| == |articles|
    ensures forall a, band :: a in InBand(articles, band) <==> a in articles && Fits(band, a.length)
    decreases |articles|
  {
    if articles != [] {
      var init := articles[..|articles| - 1];
      BandsPartition(init);
      assert articles == init + [articles[|articles| - 1]];
    }
  }

  // ---------------------------------------------------------------------
  // Group statistics
  // ---------------------------------------------------------------------

  /**
   * The text `chunk_by_length` splits: a string body as it is; any falsy
   * body gives no sentences; anything else fails in `text.strip()`.
   */
  function BodyText(a: SourceArticle): (r: Result<string, AnalyzeError>)
    ensures r.Err? <==> Truthy(GetOr(a.data, "articleBody", Str([]))) && !GetOr(a.data, "articleBody", Str([])).Str?
    ensures r.Ok? && !GetOr(a.data, "articleBody", Str([])).Str? ==> r.value == []
  {
    match GetOr(a.data, "articleBody", Str([]))
    case Str(s) => Ok(s)
    case other => if Truthy(other) then Err(PocLengthAnalysis.AttributeError) else Ok([])
  }

  /** What articles add to their group: a chunk count and the neighbour similarities. */
  datatype Gathered = Gathered(chunks: nat, similarities: seq<real>)

  type Figures = Result<Gathered, AnalyzeError>

  /** One article's figures, for a chunker and a target length. */
  function ArticleFigures(c: Chunker, a: SourceArticle, target: int): (r: Figures)
    ensures r.Err? <==> BodyText(a).Err?
  {
    match BodyText(a)
    case Err(e) => Err(e)
    case Ok(text) =>
      var chunks := PocLengthAnalysis.ArticleChunks(c, text, target);
      Ok(Gathered(|chunks|, PocLengthAnalysis.Between(chunks, c.centroid, c.cosine)))
  }

  function Measure(c: Chunker, target: int): SourceArticle -> Figures
  {
    a => ArticleFigures(c, a, target)
  }

  /** One more article's figures added to what was gathered; a failure ends the gathering. */
  function Extend(g: Gathered, one: Figures): Figures
  {
    if one.Err? then one else Ok(Gathered(g.chunks + one.value.chunks, g.similarities + one.value.similarities))
  }

  /** The total chunk count and all neighbour similarities of a group; the first failing article ends it. */
  function GroupFigures(group: seq<SourceArticle>, measure: SourceArticle -> Figures): Figures
  {
    if group == [] then Ok(Gathered(0, []))
    else
      var before := GroupFigures(group[..|group| - 1], measure);
      if before.Err? then before else Extend(before.value, measure(group[|group| - 1]))
  }

  /** A group fails exactly when one of its articles does, and then with the first article's error. */
  lemma {:induction false} GroupFails(group: seq<SourceArticle>, measure: SourceArticle -> Figures)
    ensures GroupFigures(group, measure).Err? <==> exists a :: a in group && measure(a).Err?
    ensures GroupFigures(group, measure).Err? ==>
      exists k :: 0 <= k < |group| && measure(group[k]) == GroupFigures(group, measure)
        && forall j :: 0 <= j < k ==> measure(group[j]).Ok?
    decreases |group|
  {
    if group != [] {
      var init := group[..|group| - 1];
      GroupFails(init, measure);
      assert group == init + [group[|group| - 1]];
      assert forall j :: 0 <= j < |init| ==> group[j] == init[j];
      if GroupFigures(group, measure).Err? && GroupFigures(init, measure).Ok? {
        var k := |group| - 1;
        forall j | 0 <= j < k
          ensures measure(group[j]).Ok?
        {
          assert group[j] in init;
        }
      }
    }
  }

  /** Once a prefix of the group fails, the whole group fails with the same error. */
  lemma {:induction false} GroupErrorSticks(group: seq<SourceArticle>, i: nat, measure: SourceArticle -> Figures)
    requires i <= |group| && GroupFigures(group[..i], measure).Err?
    ensures GroupFigures(group, measure) == GroupFigures(group[..i], measure)
    decreases |group| - i
  {
    if i < |group| {
      assert group[..i + 1][..i] == group[..i];
      GroupErrorSticks(group, i + 1, measure);
    } else {
      assert group[..i] == group;
    }
  }

  /** With the chunker's own figures, a group fails exactly when it holds a body that is neither a string nor falsy. */
  lemma GroupFailsOnBody(c: Chunker, group: seq<SourceArticle>, target: int)
    ensures GroupFigures(group, Measure(c, target)).Err? <==> exists a :: a in group && BodyText(a).Err?
  {
    GroupFails(group, Measure(c, target));
  }

  /** A group's summary (`all_similarities` is kept for the source groups only). */
  datatype GroupStats = GroupStats(count: nat, avgChunks: real, betweenAvg: real, similarities: Option<seq<real>>)

  function GroupResult(group: seq<SourceArticle>, measure: SourceArticle -> Figures, keep: bool): Result<GroupStats, AnalyzeError>
  {
    match GroupFigures(group, measure)
    case Err(e) => Err(e)
    case Ok(g) =>
      Ok(GroupStats(|group|, PocLengthAnalysis.PerArticle(g.chunks, |group|), PocLengthAnalysis.MeanOrZero(g.similarities),
                    if keep then Some(g.similarities) else None))
  }

  /** One article chunked by length and measured. */
  method MeasureArticle(c: Chunker, a: SourceArticle, target: int) returns (r: Figures)
    ensures r == ArticleFigures(c, a, target)
  {
    var text := BodyText(a);
    if text.Err? {
      return Err(text.error);
    }
    var chunks := c.ChunkByLength(text.value, target, PocLengthAnalysis.DEFAULT_MIN_LENGTH);
    var sims := c.BetweenChunkSimilarity(chunks);
    r := Ok(Gathered(|chunks|, sims));
  }

  lemma FiguresStep(group: seq<SourceArticle>, i: nat, measure: SourceArticle -> Figures, g: Gathered)
    requires i < |group| && GroupFigures(group[..i], measure) == Ok(g)
    ensures GroupFigures(group[..i + 1], measure) == Extend(g, measure(group[i]))
  {
    assert group[..i + 1][..i] == group[..i];
  }

  /** The loop over a group's articles: chunk each and gather the counts and similarities. */
  method GatherGroup(c: Chunker, group: seq<SourceArticle>, target: int, ghost measure: SourceArticle -> Figures)
    returns (r: Figures)
    requires forall a :: measure(a) == ArticleFigures(c, a, target)
    ensures r == GroupFigures(group, measure)
  {
    var g := Gathered(0, []);
    var i := 0;
    while i < |group|
      invariant 0 <= i <= |group|
      invariant GroupFigures(group[..i], measure) == Ok(g)
    {
      var next := GatherArticle(c, group, i, target, g, measure);
      if next.Err? {
        GroupErrorSticks(group, i + 1, measure);
        return next;
      }
      g := next.value;
      i := i + 1;
    }
    assert group[..|group|] == group;
    r := Ok(g);
  }

  /** One pass of the loop: the next article chunked, measured and added. */
  method GatherArticle(c: Chunker, group: seq<SourceArticle>, i: nat, target: int, g: Gathered,
                       ghost measure: SourceArticle -> Figures) returns (next: Figures)
    requires forall a :: measure(a) == ArticleFigures(c, a, target)
    requires i < |group| && GroupFigures(group[..i], measure) == Ok(g)
    ensures next == GroupFigures(group[..i + 1], measure)
  {
    var one := MeasureArticle(c, group[i], target);
    FiguresStep(group, i, measure, g);
    next := Extend(g, one);
  }

  /** One group analysed: its size, chunks per article and mean neighbour similarity. */
  method AnalyzeGroup(c: Chunker, group: seq<SourceArticle>, target: int, keep: bool)
    returns (r: Result<GroupStats, AnalyzeError>)
    ensures r == GroupResult(group, Measure(c, target), keep)
  {
    var g := GatherGroup(c, group, target, Measure(c, target));
    if g.Err? {
      return Err(g.error);
    }
    r := Ok(GroupStats(|group|, PocLengthAnalysis.PerArticle(g.value.chunks, |group|),
                       PocLengthAnalysis.MeanOrZero(g.value.similarities), if keep then Some(g.value.similarities) else None));
  }

  // ---------------------------------------------------------------------
  // The analysis
  // ---------------------------------------------------------------------

  /** A group large enough to be analysed. */
  predicate Large(group: seq<SourceArticle>)
  {
    |group| >= MIN_GROUP_SIZE
  }

  /** The source entries, in the order the sources are visited; the first failing group ends it. */
  function OverSources(groups: map<string, seq<SourceArticle>>, order: seq<string>, measure: SourceArticle -> Figures)
    : Result<map<string, GroupStats>, AnalyzeError>
    requires forall s :: s in order ==> s in groups
  {
    if order == [] then Ok(map[])
    else
      var s := order[|order| - 1];
      match OverSources(groups, order[..|order| - 1], measure)
      case Err(e) => Err(e)
      case Ok(out) =>
        if !Large(groups[s]) then Ok(out)
        else
          match GroupResult(groups[s], measure, true)
          case Err(e) => Err(e)
          case Ok(one) => Ok(out[s := one])
  }

  /**
   * Visiting the sources fails exactly when a large group fails; otherwise
   * there is one entry per large group, and it is that group's summary.
   */
  lemma {:induction false} OverSourcesEntries(groups: map<string, seq<SourceArticle>>, order: seq<string>,
                                              measure: SourceArticle -> Figures)
    requires forall s :: s in order ==> s in groups
    ensures OverSources(groups, order, measure).Err? <==>
      exists s :: s in order && Large(groups[s]) && GroupResult(groups[s], measure, true).Err?
    ensures OverSources(groups, order, measure).Ok? ==>
      var out := OverSources(groups, order, measure).value;
      (forall s :: s in out <==> s in order && Large(groups[s]))
      && forall s :: s in out ==> GroupResult(groups[s], measure, true) == Ok(out[s])
    decreases |order|
  {
    if order != [] {
      var init := order[..|order| - 1];
      assert order == init + [order[|order| - 1]];
      OverSourcesEntries(groups, init, measure);
    }
  }

  lemma {:induction false} OverSourcesSticks(groups: map<string, seq<SourceArticle>>, order: seq<string>, k: nat,
                                             measure: SourceArticle -> Figures)
    requires forall s :: s in order ==> s in groups
    requires k <= |order| && OverSources(groups, order[..k], measure).Err?
    ensures OverSources(groups, order, measure) == OverSources(groups, order[..k], measure)
    decreases |order| - k
  {
    if k < |order| {
      assert order[..k + 1][..k] == order[..k];
      OverSourcesSticks(groups, order, k + 1, measure);
    } else {
      assert order[..k] == order;
    }
  }

  /** The loop over the sources: every group of at least three articles is summarised. */
  method AnalyzeSources(c: Chunker, groups: map<string, seq<SourceArticle>>, order: seq<string>, target: int)
    returns (r: Result<map<string, GroupStats>, AnalyzeError>)
    requires forall s :: s in order ==> s in groups
    ensures r == OverSources(groups, order, Measure(c, target))
  {
    var results: map<string, GroupStats> := map[];
    for k := 0 to |order|
      invariant OverSources(groups, order[..k], Measure(c, target)) == Ok(results)
    {
      var s := order[k];
      assert order[..k + 1][..k] == order[..k];
      if Large(groups[s]) {
        var one := AnalyzeGroup(c, groups[s], target, true);
        if one.Err? {
          OverSourcesSticks(groups, order, k + 1, Measure(c, target));
          return Err(one.error);
        }
        results := results[s := one.value];
      }
    }
    assert order[..|order|] == order;
    r := Ok(results);
  }

  /** The length groups' entries written over `results`, band by band; the first failing group ends it. */
  function OverBands(results: map<string, GroupStats>, articles: seq<SourceArticle>, bands: seq<Band>,
                     measure: SourceArticle -> Figures): Result<map<string, GroupStats>, AnalyzeError>
  {
    if bands == [] then Ok(results)
    else
      var band := bands[|bands| - 1];
      match OverBands(results, articles, bands[..|bands| - 1], measure)
      case Err(e) => Err(e)
      case Ok(out) =>
        if !Large(InBand(articles, band)) then Ok(out)
        else
          match GroupResult(InBand(articles, band), measure, false)
          case Err(e) => Err(e)
          case Ok(one) => Ok(out[Label(band) := one])
  }

  /** Different length groups have different labels. */
  lemma LabelsDistinct(b1: Band, b2: Band)
    requires b1 != b2
    ensures Label(b1) != Label(b2)
  {
    assert Label(Short)[0] == '短' && Label(Medium)[0] == '中' && Label(Long)[0] == '長';
  }

  /** Writing the length groups fails exactly when a large one fails. */
  lemma {:induction false} OverBandsFails(results: map<string, GroupStats>, articles: seq<SourceArticle>, bands: seq<Band>,
                                          measure: SourceArticle -> Figures)
    ensures OverBands(results, articles, bands, measure).Err? <==>
      exists b :: b in bands && Large(InBand(articles, b)) && GroupResult(InBand(articles, b), measure, false).Err?
    decreases |bands|
  {
    if bands != [] {
      var init := bands[..|bands| - 1];
      var band := bands[|bands| - 1];
      assert bands == init + [band];
      assert forall b :: b in bands <==> b in init || b == band;
      OverBandsFails(results, articles, init, measure);
      var before := OverBands(results, articles, init, measure);
      if before.Err? {
        var b :| b in init && Large(InBand(articles, b)) && GroupResult(InBand(articles, b), measure, false).Err?;
        assert b in bands;
        assert OverBands(results, articles, bands, measure).Err?;
      } else if Large(InBand(articles, band)) && GroupResult(InBand(articles, band), measure, false).Err? {
        assert band in bands;
        assert OverBands(results, articles, bands, measure).Err?;
      } else {
        assert OverBands(results, articles, bands, measure).Ok?;
        forall b | b in bands && Large(InBand(articles, b))
          ensures GroupResult(InBand(articles, b), measure, false).Ok?
        {
          if b != band {
            assert b in init;
          }
        }
      }
    }
  }

  /** When writing the length groups succeeds, the entries are the old ones and the large groups' labels. */
  lemma {:induction false} OverBandsKeys(results: map<string, GroupStats>, articles: seq<SourceArticle>, bands: seq<Band>,
                                         measure: SourceArticle -> Figures)
    requires OverBands(results, articles, bands, measure).Ok?
    ensures forall key :: key in OverBands(results, articles, bands, measure).value <==>
      key in results || exists b :: b in bands && key == Label(b) && Large(InBand(articles, b))
    decreases |bands|
  {
    if bands != [] {
      var init := bands[..|bands| - 1];
      var band := bands[|bands| - 1];
      assert bands == init + [band];
      assert forall b :: b in bands <==> b in init || b == band;
      OverBandsKeys(results, articles, init, measure);
    }
  }

  /** When writing the length groups succeeds, each large group's label holds its summary. */
  lemma {:induction false} OverBandsValues(results: map<string, GroupStats>, articles: seq<SourceArticle>, bands: seq<Band>,
                                           measure: SourceArticle -> Figures)
    requires OverBands(results, articles, bands, measure).Ok?
    ensures forall b :: b in bands && Large(InBand(articles, b)) ==>
      Label(b) in OverBands(results, articles, bands, measure).value
      && GroupResult(InBand(articles, b), measure, false) == Ok(OverBands(results, articles, bands, measure).value[Label(b)])
    decreases |bands|
  {
    if bands != [] {
      var init := bands[..|bands| - 1];
      var band := bands[|bands| - 1];
      assert bands == init + [band];
      assert forall b :: b in bands <==> b in init || b == band;
      OverBandsValues(results, articles, init, measure);
      forall b | b != band
        ensures Label(b) != Label(band)
      {
        LabelsDistinct(b, band);
      }
    }
  }

  /** When writing the length groups succeeds, an entry no large group's label names is kept. */
  lemma {:induction false} OverBandsKept(results: map<string, GroupStats>, articles: seq<SourceArticle>, bands: seq<Band>,
                                         measure: SourceArticle -> Figures)
    requires OverBands(results, articles, bands, measure).Ok?
    ensures forall key :: (key in results && forall b :: b in bands && Large(InBand(articles, b)) ==> key != Label(b)) ==>
      key in OverBands(results, articles, bands, measure).value
      && OverBands(results, articles, bands, measure).value[key] == results[key]
    decreases |bands|
  {
    if bands != [] {
      var init := bands[..|bands| - 1];
      var band := bands[|bands| - 1];
      assert bands == init + [band];
      assert forall b :: b in bands <==> b in init || b == band;
      OverBandsKept(results, articles, init, measure);
    }
  }

  lemma {:induction false} OverBandsSticks(results: map<string, GroupStats>, articles: seq<SourceArticle>, k: nat,
                                           measure: SourceArticle -> Figures)
    requires k <= |BANDS| && OverBands(results, articles, BANDS[..k], measure).Err?
    ensures OverBands(results, articles, BANDS, measure) == OverBands(results, articles, BANDS[..k], measure)
    decreases |BANDS| - k
  {
    if k < |BANDS| {
      assert BANDS[..k + 1][..k] == BANDS[..k];
      OverBandsSticks(results, articles, k + 1, measure);
    } else {
      assert BANDS[..k] == BANDS;
    }
  }

  /** The loop over the length groups: each of at least three articles is summarised under its label. */
  method AnalyzeBands(c: Chunker, articles: seq<SourceArticle>, target: int, results: map<string, GroupStats>)
    returns (r: Result<map<string, GroupStats>, AnalyzeError>)
    ensures r == OverBands(results, articles, BANDS, Measure(c, target))
  {
    var out := results;
    for k := 0 to |BANDS|
      invariant OverBands(results, articles, BANDS[..k], Measure(c, target)) == Ok(out)
    {
      var band := BANDS[k];
      assert BANDS[..k + 1][..k] == BANDS[..k];
      var group := InBand(articles, band);
      if Large(group) {
        var one := AnalyzeGroup(c, group, target, false);
        if one.Err? {
          OverBandsSticks(results, articles, k + 1, Measure(c, target));
          return Err(one.error);
        }
        out := out[Label(band) := one.value];
      }
    }
    assert BANDS[..|BANDS|] == BANDS;
    r := Ok(out);
  }

  /** Every length group is among the three visited. */
  lemma EveryBand(b: Band)
    ensures b in BANDS
  {
    match b
    case Short => assert BANDS[0] == b;
    case Medium => assert BANDS[1] == b;
    case Long => assert BANDS[2] == b;
  }

  /**
   * `analyze_by_source`: the source groups of at least three articles, then
   * the length groups of at least three, each summarised; a length group's
   * entry replaces a source entry of the same name.
   */
  method AnalyzeBySource(c: Chunker, articles: seq<SourceArticle>, target: int)
    returns (r: Result<map<string, GroupStats>, AnalyzeError>)
    ensures r == Analysis(articles, Measure(c, target))
  {
    var groups, order := GroupBySource(articles);
    var bySource := AnalyzeSources(c, groups, order, target);
    if bySource.Err? {
      return Err(bySource.error);
    }
    r := AnalyzeBands(c, articles, target, bySource.value);
  }

  /** The whole analysis: the source entries, then the length groups' entries over them. */
  function Analysis(articles: seq<SourceArticle>, measure: SourceArticle -> Figures): Result<map<string, GroupStats>, AnalyzeError>
  {
    match OverSources(Grouping(articles), Order(articles), measure)
    case Err(e) => Err(e)
    case Ok(bySource) => OverBands(bySource, articles, BANDS, measure)
  }

  /**
   * The analysis fails exactly when a large source or length group does.
   * Otherwise it has an entry for each source with at least three articles
   * and for each length group with at least three; a length group's entry
   * is its summary, and so is a source's unless a length group's label
   * took its name.
   */
  lemma AnalysisEntries(articles: seq<SourceArticle>, measure: SourceArticle -> Figures)
    ensures Analysis(articles, measure).Err? <==>
      (exists s :: Large(OfSource(articles, s)) && GroupResult(OfSource(articles, s), measure, true).Err?)
      || (exists b :: Large(InBand(articles, b)) && GroupResult(InBand(articles, b), measure, false).Err?)
    ensures Analysis(articles, measure).Ok? ==>
      var out := Analysis(articles, measure).value;
      (forall key :: key in out <==> Large(OfSource(articles, key)) || exists b :: key == Label(b) && Large(InBand(articles, b)))
      && (forall b :: Large(InBand(articles, b)) ==> GroupResult(InBand(articles, b), measure, false) == Ok(out[Label(b)]))
      && forall s :: (Large(OfSource(articles, s)) && forall b :: Large(InBand(articles, b)) ==> s != Label(b)) ==>
        GroupResult(OfSource(articles, s), measure, true) == Ok(out[s])
  {
    SourceEntries(articles, measure);
    forall b
      ensures b in BANDS
    {
      EveryBand(b);
    }
    var bySource := OverSources(Grouping(articles), Order(articles), measure);
    if bySource.Ok? {
      OverBandsFails(bySource.value, articles, BANDS, measure);
      if OverBands(bySource.value, articles, BANDS, measure).Ok? {
        OverBandsKeys(bySource.value, articles, BANDS, measure);
        OverBandsValues(bySource.value, articles, BANDS, measure);
        OverBandsKept(bySource.value, articles, BANDS, measure);
      }
    }
  }

  /** The grouping seen source by source. */
  lemma GroupingView(articles: seq<SourceArticle>)
    ensures forall s :: s in Grouping(articles) <==> s in Order(articles)
    ensures forall s :: s in Grouping(articles) ==> Grouping(articles)[s] == OfSource(articles, s)
    ensures forall s :: s !in Grouping(articles) ==> OfSource(articles, s) == []
  {
    forall s | s !in Grouping(articles)
      ensures OfSource(articles, s) == []
    {
      OfSourceMembers(articles, s);
    }
  }

  /** The source entries in terms of each source's articles. */
  lemma SourceEntries(articles: seq<SourceArticle>, measure: SourceArticle -> Figures)
    ensures OverSources(Grouping(articles), Order(articles), measure).Err? <==>
      exists s :: Large(OfSource(articles, s)) && GroupResult(OfSource(articles, s), measure, true).Err?
    ensures OverSources(Grouping(articles), Order(articles), measure).Ok? ==>
      var out := OverSources(Grouping(articles), Order(articles), measure).value;
      (forall s :: s in out <==> Large(OfSource(articles, s)))
      && forall s :: s in out ==> GroupResult(OfSource(articles, s), measure, true) == Ok(out[s])
  {
    var groups, order := Grouping(articles), Order(articles);
    GroupingView(articles);
    OverSourcesEntries(groups, order, measure);
    var r := OverSources(groups, order, measure);
    if r.Err? {
      var s :| s in order && Large(groups[s]) && GroupResult(groups[s], measure, true).Err?;
      assert Large(OfSource(articles, s)) && GroupResult(OfSource(articles, s), measure, true).Err?;
    } else {
      forall s | Large(OfSource(articles, s))
        ensures s in r.value
      {
        assert s in groups;
      }
    }
  }
}
