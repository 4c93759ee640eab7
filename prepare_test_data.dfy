/**
 * Preparing the chunker's test set: read the articles of a TSV export whose
 * body has at least 100 characters, sort them into short, medium and long
 * bodies, and draw a fixed number from each band.
 *
 * `random.sample` under the fixed seed 42 is modelled by the positions it
 * draws, which are parameters.
 */
module PrepareTestData {
  import opened Wrappers
  import opened Text
  import opened Values
  import PocChunking
  import PocLengthAnalysis

  const DEFAULT_MAX_LINES: int := 500
  /** Bodies shorter than this are short. */
  const SHORT_BELOW: nat := 500
  /** Bodies longer than this are long. */
  const LONG_ABOVE: nat := 1500
  const DEFAULT_SHORT_COUNT: int := 5
  const DEFAULT_MEDIUM_COUNT: int := 10
  const DEFAULT_LONG_COUNT: int := 5

  /** A usable article: its URL, its JSON object and the length of its body. */
  datatype Candidate = Candidate(url: string, data: map<string, Value>, length: nat)

  /** A selected article: its URL and its JSON object. */
  datatype Pick = Pick(url: string, data: map<string, Value>)

  // ---------------------------------------------------------------------
  // Reading
  // ---------------------------------------------------------------------

  /**
   * The lines `parse_tsv_file` reads, `lines[start:start + max_lines]`: a
   * stretch of the data rows from their start, `max_lines` of them when
   * that is not negative (a negative one counts from the end, as Python
   * slicing does).
   */
  function Scanned(lines: seq<string>, maxLines: int): (r: seq<string>)
    ensures |r| <= |PocChunking.DataRows(lines)| && r == PocChunking.DataRows(lines)[..|r|]
    ensures maxLines >= 0 ==> |r| == Min(maxLines, |PocChunking.DataRows(lines)|)
  {
    var start := PocChunking.DataStart(lines);
    var upTo := SliceTo(lines, start + maxLines);
    assert upTo == lines[..|upTo|];
    if start <= |upTo| then
      assert upTo[start..] == lines[start..][..|upTo| - start];
      upTo[start..]
    else []
  }

  /**
   * One line as a candidate: it must split at a tab into a URL and a JSON
   * object whose `articleBody` has a length of at least 100. Everything
   * else, exceptions included, skips the line.
   */
  function CandidateOf(line: string, decode: string -> Option<Value>): (c: Option<Candidate>)
    ensures c.Some? ==>
      c.value.length >= PocLengthAnalysis.MIN_BODY_LENGTH
      && Len(GetOr(c.value.data, "articleBody", Str([]))) == Some(c.value.length)
      && PocChunking.ParseTsvLine(line, decode) == Ok((c.value.url, Dict(c.value.data)))
    ensures c.None? <==>
      match PocChunking.ParseTsvLine(line, decode)
      case Err(_) => true
      case Ok((_, data)) =>
        !data.Dict? || PocLengthAnalysis.LongBody(GetOr(data.fields, "articleBody", Str([]))).None?
  {
    match PocChunking.ParseTsvLine(line, decode)
    case Err(_) => None
    case Ok((url, data)) =>
      if !data.Dict? then None
      else
        match PocLengthAnalysis.LongBody(GetOr(data.fields, "articleBody", Str([])))
        case None => None
        case Some(n) => Some(Candidate(url, data.fields, n))
  }

  /** `CandidateOf` as a function of the line alone. */
  function CandidateParser(decode: string -> Option<Value>): string -> Option<Candidate>
  {
    line => CandidateOf(line, decode)
  }

  /** Every candidate read has a body of at least 100 characters, and its recorded length is that body's. */
  lemma CandidatesUsable(rows: seq<string>, decode: string -> Option<Value>)
    ensures forall c :: c in PocChunking.Parsed(rows, CandidateParser(decode)) ==>
      c.length >= PocLengthAnalysis.MIN_BODY_LENGTH && Len(GetOr(c.data, "articleBody", Str([]))) == Some(c.length)
  {
    PocChunking.ParsedRows(rows, CandidateParser(decode));
    forall c | c in PocChunking.Parsed(rows, CandidateParser(decode))
      ensures c.length >= PocLengthAnalysis.MIN_BODY_LENGTH && Len(GetOr(c.data, "articleBody", Str([]))) == Some(c.length)
    {
      var j :| 0 <= j < |rows| && CandidateParser(decode)(rows[j]) == Some(c);
      assert CandidateOf(rows[j], decode) == Some(c);
    }
  }

  /** `parse_tsv_file`: the candidates among the lines read, in file order. */
  method ParseTsvFile(lines: seq<string>, maxLines: int, decode: string -> Option<Value>)
    returns (articles: seq<Candidate>)
    ensures articles == PocChunking.Parsed(Scanned(lines, maxLines), CandidateParser(decode))
    ensures |articles| <= |Scanned(lines, maxLines)|
    ensures forall c :: c in articles ==>
      c.length >= PocLengthAnalysis.MIN_BODY_LENGTH && Len(GetOr(c.data, "articleBody", Str([]))) == Some(c.length)
  {
    var rows := Scanned(lines, maxLines);
    articles := ReadRows(rows, CandidateParser(decode));
    PocChunking.ParsedRows(rows, CandidateParser(decode));
    CandidatesUsable(rows, decode);
  }

  /** The reading loop, for any way of reading a line. */
  method ReadRows(rows: seq<string>, parse: string -> Option<Candidate>) returns (articles: seq<Candidate>)
    ensures articles == PocChunking.Parsed(rows, parse)
  {
    articles := [];
    for i := 0 to |rows|
      invariant articles == PocChunking.Parsed(rows[..i], parse)
    {
      PocChunking.ParsedStep(rows, i, parse);
      var c := parse(rows[i]);
      if c.Some? {
        articles := articles + [c.value];
      }
    }
    assert rows[..|rows|] == rows;
  }

  // ---------------------------------------------------------------------
  // Selecting
  // ---------------------------------------------------------------------

  datatype Band = Short | Medium | Long

  /** The length test of each band's list: below 500, 500 to 1500 inclusive, above 1500. */
  predicate Fits(band: Band, length: nat)
  {
    match band
    case Short => length < SHORT_BELOW
    case Medium => SHORT_BELOW <= length <= LONG_ABOVE
    case Long => length > LONG_ABOVE
  }

  /** The articles of one band, in order, as (URL, JSON object). */
  function Bucket(articles: seq<Candidate>, band: Band): (b: seq<Pick>)
    ensures |b| <= |articles|
  {
    if articles == [] then []
    else
      var last := articles[|articles| - 1];
      Bucket(articles[..|articles| - 1], band) + (if Fits(band, last.length) then [Pick(last.url, last.data)] else [])
  }

  /** Every article falls in exactly one band, so the three bands hold all of them between them. */
  lemma {:induction false} BandsPartition(articles: seq<Candidate>)
    ensures |Bucket(articles, Short)| + |Bucket(articles, Medium)| + |Bucket(articles, Long)| == |articles|
    ensures forall i :: 0 <= i < |articles| ==>
      (Fits(Short, articles[i].length) && Pick(articles[i].url, articles[i].data) in Bucket(articles, Short))
      || (Fits(Medium, articles[i].length) && Pick(articles[i].url, articles[i].data) in Bucket(articles, Medium))
      || (Fits(Long, articles[i].length) && Pick(articles[i].url, articles[i].data) in Bucket(articles, Long))
    decreases |articles|
  {
    if articles != [] {
      var init := articles[..|articles| - 1];
      BandsPartition(init);
      forall i | 0 <= i < |init|
        ensures init[i] == articles[i]
      {
      }
    }
  }

  /** `random.sample(population, k)` picks k distinct positions of the population. */
  predicate IsDraw(positions: seq<nat>, size: nat, k: nat)
  {
    |positions| == k
    && (forall i :: 0 <= i < k ==> positions[i] < size)
    && (forall i, j :: 0 <= i < j < k ==> positions[i] != positions[j])
  }

  /** The positions the three `random.sample` calls draw, in call order. */
  datatype Draws = Draws(short: seq<nat>, medium: seq<nat>, long: seq<nat>)

  /** A band's articles at the drawn positions. */
  function Sample(bucket: seq<Pick>, positions: seq<nat>): (s: seq<Pick>)
    requires forall i :: 0 <= i < |positions| ==> positions[i] < |bucket|
    ensures |s| == |positions|
  {
    seq(|positions|, i requires 0 <= i < |positions| => bucket[positions[i]])
  }

  /** What one band adds: a draw of `count` of its articles when it has that many, else all of them. */
  function Contribution(bucket: seq<Pick>, count: nat, positions: seq<nat>): seq<Pick>
    requires |bucket| >= count ==> IsDraw(positions, |bucket|, count)
  {
    if |bucket| >= count then Sample(bucket, positions) else bucket
  }

  /**
   * A band adds as many of its articles as asked for, or all of them when
   * it has fewer, and nothing from elsewhere; a draw takes each position at
   * most once.
   */
  lemma ContributionShape(bucket: seq<Pick>, count: nat, positions: seq<nat>)
    requires |bucket| >= count ==> IsDraw(positions, |bucket|, count)
    ensures |Contribution(bucket, count, positions)| == Min(count, |bucket|)
    ensures forall p :: p in Contribution(bucket, count, positions) ==> p in bucket
    ensures |bucket| < count ==> Contribution(bucket, count, positions) == bucket
  {
    var r := Contribution(bucket, count, positions);
    forall p | p in r
      ensures p in bucket
    {
      if |bucket| >= count {
        var i :| 0 <= i < |r| && r[i] == p;
        assert p == bucket[positions[i]];
      }
    }
  }

  datatype SelectError = ValueError

  /** Each band's draw is a valid draw whenever the band is sampled. */
  predicate DrawsFit(articles: seq<Candidate>, shortCount: int, mediumCount: int, longCount: int, draws: Draws)
  {
    (shortCount >= 0 && |Bucket(articles, Short)| >= shortCount ==> IsDraw(draws.short, |Bucket(articles, Short)|, shortCount))
    && (mediumCount >= 0 && |Bucket(articles, Medium)| >= mediumCount ==> IsDraw(draws.medium, |Bucket(articles, Medium)|, mediumCount))
    && (longCount >= 0 && |Bucket(articles, Long)| >= longCount ==> IsDraw(draws.long, |Bucket(articles, Long)|, longCount))
  }

  /**
   * `select_articles_by_length`: the short band's contribution, then the
   * medium band's, then the long band's. A negative count makes
   * `random.sample` raise `ValueError`.
   */
  method SelectArticlesByLength(articles: seq<Candidate>, shortCount: int, mediumCount: int, longCount: int, draws: Draws)
    returns (r: Result<seq<Pick>, SelectError>)
    requires DrawsFit(articles, shortCount, mediumCount, longCount, draws)
    ensures r.Err? <==> shortCount < 0 || mediumCount < 0 || longCount < 0
    ensures r.Ok? ==>
      var s, m, l := Bucket(articles, Short), Bucket(articles, Medium), Bucket(articles, Long);
      var ns, nm, nl := Min(shortCount, |s|), Min(mediumCount, |m|), Min(longCount, |l|);
      r.value == Contribution(s, shortCount, draws.short) + Contribution(m, mediumCount, draws.medium)
                 + Contribution(l, longCount, draws.long)
      && |r.value| == ns + nm + nl
      && (forall i :: 0 <= i < ns ==> r.value[i] in s)
      && (forall i :: ns <= i < ns + nm ==> r.value[i] in m)
      && (forall i :: ns + nm <= i < |r.value| ==> r.value[i] in l)
  {
    var short := Bucket(articles, Short);
    var medium := Bucket(articles, Medium);
    var long := Bucket(articles, Long);
    if shortCount < 0 || mediumCount < 0 || longCount < 0 {
      return Err(ValueError);
    }
    var a := Contribution(short, shortCount, draws.short);
    var b := Contribution(medium, mediumCount, draws.medium);
    var c := Contribution(long, longCount, draws.long);
    ContributionShape(short, shortCount, draws.short);
    ContributionShape(medium, mediumCount, draws.medium);
    ContributionShape(long, longCount, draws.long);
    InOrder(a, b, c, short, medium, long);
    r := Ok(a + b + c);
  }

  lemma InOrder(a: seq<Pick>, b: seq<Pick>, c: seq<Pick>, s: seq<Pick>, m: seq<Pick>, l: seq<Pick>)
    requires (forall p :: p in a ==> p in s) && (forall p :: p in b ==> p in m) && (forall p :: p in c ==> p in l)
    ensures forall i :: 0 <= i < |a| ==> (a + b + c)[i] in s
    ensures forall i :: |a| <= i < |a| + |b| ==> (a + b + c)[i] in m
    ensures forall i :: |a| + |b| <= i < |a + b + c| ==> (a + b + c)[i] in l
  {
    var all := a + b + c;
    forall i | 0 <= i < |all|
      ensures i < |a| ==> all[i] in s
      ensures |a| <= i < |a| + |b| ==> all[i] in m
      ensures |a| + |b| <= i ==> all[i] in l
    {
      if i < |a| {
        assert all[i] == a[i];
      } else if i < |a| + |b| {
        assert all[i] == b[i - |a|];
      } else {
        assert all[i] == c[i - |a| - |b|];
      }
    }
  }
}
