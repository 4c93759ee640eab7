/**
 * The 29-slot feature vector of the learning-to-rank pipeline: the index
 * layout, and the five groups of features computed for one (query, document)
 * pair. Dates are parsed outside the model: the age of a publication date in
 * whole days is passed in, `None` standing for a date that does not parse.
 */
module Features {
  import opened Wrappers
  import opened Text

  // Query features (0-5)
  const QUERY_LENGTH: nat := 0
  const WORD_COUNT: nat := 1
  const HAS_QUOTES: nat := 2
  const HAS_NUMBERS: nat := 3
  const HAS_QUESTION_WORDS: nat := 4
  const KEYWORD_COUNT: nat := 5
  // Document features (6-13)
  const DOC_LENGTH: nat := 6
  const RECENCY_DAYS: nat := 7
  const HAS_AUTHOR: nat := 8
  const HAS_PUBLICATION_DATE: nat := 9
  const SCHEMA_COMPLETENESS: nat := 10
  const TITLE_LENGTH: nat := 11
  const DESCRIPTION_LENGTH: nat := 12
  const URL_LENGTH: nat := 13
  // Query-document features (14-20)
  const VECTOR_SIMILARITY: nat := 14
  const BM25_SCORE: nat := 15
  const KEYWORD_BOOST: nat := 16
  const TEMPORAL_BOOST: nat := 17
  const FINAL_RETRIEVAL_SCORE: nat := 18
  const KEYWORD_OVERLAP_RATIO: nat := 19
  const TITLE_EXACT_MATCH: nat := 20
  // Ranking features (21-26)
  const RETRIEVAL_POSITION: nat := 21
  const RANKING_POSITION: nat := 22
  const LLM_FINAL_SCORE: nat := 23
  const RELATIVE_SCORE_TO_TOP: nat := 24
  const SCORE_PERCENTILE: nat := 25
  const POSITION_CHANGE: nat := 26
  // MMR features (27-28)
  const MMR_DIVERSITY_SCORE: nat := 27
  const DETECTED_INTENT: nat := 28

  const TOTAL_FEATURES: nat := 29

  /** Recency reported for a document without a usable publication date. */
  const MISSING_RECENCY_DAYS: int := 999999

  /** The index constants in declaration order, grouped in blocks of 6, 8, 7, 6 and 2. */
  const FeatureIndices: seq<nat> := [
    QUERY_LENGTH, WORD_COUNT, HAS_QUOTES, HAS_NUMBERS, HAS_QUESTION_WORDS, KEYWORD_COUNT,
    DOC_LENGTH, RECENCY_DAYS, HAS_AUTHOR, HAS_PUBLICATION_DATE, SCHEMA_COMPLETENESS,
    TITLE_LENGTH, DESCRIPTION_LENGTH, URL_LENGTH,
    VECTOR_SIMILARITY, BM25_SCORE, KEYWORD_BOOST, TEMPORAL_BOOST, FINAL_RETRIEVAL_SCORE,
    KEYWORD_OVERLAP_RATIO, TITLE_EXACT_MATCH,
    RETRIEVAL_POSITION, RANKING_POSITION, LLM_FINAL_SCORE, RELATIVE_SCORE_TO_TOP,
    SCORE_PERCENTILE, POSITION_CHANGE,
    MMR_DIVERSITY_SCORE, DETECTED_INTENT]

  const BlockSizes: seq<nat> := [6, 8, 7, 6, 2]

  /** Each slot 0..28 is named by exactly one constant, and the blocks tile the vector. */
  lemma IndexLayout()
    ensures |FeatureIndices| == TOTAL_FEATURES
    ensures forall i :: 0 <= i < |FeatureIndices| ==> FeatureIndices[i] == i
    ensures BlockSizes[0] + BlockSizes[1] + BlockSizes[2] + BlockSizes[3] + BlockSizes[4] == TOTAL_FEATURES
    ensures DOC_LENGTH == BlockSizes[0] && VECTOR_SIMILARITY == DOC_LENGTH + BlockSizes[1]
    ensures RETRIEVAL_POSITION == VECTOR_SIMILARITY + BlockSizes[2]
    ensures MMR_DIVERSITY_SCORE == RETRIEVAL_POSITION + BlockSizes[3]
  {
  }

  // ---------------------------------------------------------------- query

  datatype QueryFeatures = QueryFeatures(
    queryLength: nat, wordCount: nat, hasQuotes: nat, hasNumbers: nat,
    hasQuestionWords: nat, keywordCount: nat)

  const QuestionWords: seq<string> := [
    "什麼", "為什麼", "如何", "怎麼", "哪裡", "哪些", "誰", "何時",
    "what", "why", "how", "where", "which", "who", "when"]

  /** `re.search(r'\d', s)`: `\d` matches every Unicode decimal digit, full-width ones included. */
  predicate HasDigit(s: string)
  {
    exists i :: 0 <= i < |s| && IsDecimal(s[i])
  }

  /** A year in full-width digits counts as a number, as an ASCII one does. */
  lemma FullWidthYearHasNumbers()
    ensures ExtractQueryFeatures("２０２４年選舉").hasNumbers == 1
    ensures ExtractQueryFeatures("2024年選舉").hasNumbers == 1
    ensures ExtractQueryFeatures("年度選舉").hasNumbers == 0
  {
    FullWidthDigitIsDecimal("２０２４年選舉"[0]);
    AsciiDigitIsDecimal("2024年選舉"[0]);
    forall i | 0 <= i < 4 {
      CjkIsNotDecimal("年度選舉"[i]);
    }
  }

  /** Number of whitespace tokens of at least two characters. */
  function KeywordCount(words: seq<string>): (n: nat)
    ensures n <= |words|
    ensures n == |words| <==> forall i :: 0 <= i < |words| ==> |words[i]| >= 2
  {
    if words == [] then 0
    else (if |words[0]| >= 2 then 1 else 0) + KeywordCount(words[1..])
  }

  function Flag(b: bool): nat { if b then 1 else 0 }

  function ExtractQueryFeatures(query: string): (r: QueryFeatures)
    ensures query == [] ==> r == QueryFeatures(0, 0, 0, 0, 0, 0)
    ensures r.queryLength == |query| && r.wordCount == |Split(query)|
    ensures r.keywordCount <= r.wordCount
    ensures r.hasQuotes <= 1 && r.hasNumbers <= 1 && r.hasQuestionWords <= 1
    ensures r.hasQuotes == 1 <==> '"' in query || '\'' in query
    ensures r.hasNumbers == 1 <==> HasDigit(query)
    ensures r.hasQuestionWords == 1 <==> AnyIn(QuestionWords, Lower(query))
  {
    if query == [] then QueryFeatures(0, 0, 0, 0, 0, 0)
    else
      var words := Split(query);
      QueryFeatures(
        |query|, |words|,
        Flag('"' in query || '\'' in query),
        Flag(HasDigit(query)),
        Flag(CountIn(QuestionWords, Lower(query)) > 0),
        KeywordCount(words))
  }

  // ---------------------------------------------------------------- document

  datatype DocumentFeatures = DocumentFeatures(
    docLength: nat, recencyDays: int, hasAuthor: nat, hasPublicationDate: nat,
    schemaCompleteness: real, titleLength: nat, descriptionLength: nat, urlLength: nat)

  /** How many of the five schema fields are non-empty. */
  function PopulatedFields(fields: seq<string>): (n: nat)
    ensures n <= |fields|
  {
    if fields == [] then 0
    else (if fields[0] != [] then 1 else 0) + PopulatedFields(fields[1..])
  }

  /**
   * `publishedAgeDays` is the whole-day age of the publication date when it
   * parses as an ISO date, `None` when parsing fails. A missing date is the
   * empty string.
   */
  function ExtractDocumentFeatures(
    title: string, description: string, publishedDate: string,
    publishedAgeDays: Option<int>, author: string, url: string): (r: DocumentFeatures)
    ensures r.docLength == |Split(description)|
    ensures r.recencyDays ==
      (if publishedDate != [] && publishedAgeDays.Some? then publishedAgeDays.value
       else MISSING_RECENCY_DAYS)
    ensures r.hasPublicationDate == Flag(publishedDate != [])
    ensures r.hasAuthor == Flag(author != [])
    ensures 0.0 <= r.schemaCompleteness <= 1.0
    ensures r.schemaCompleteness * 5.0 == PopulatedFields([title, description, publishedDate, author, url]) as real
    ensures r.titleLength == |title| && r.descriptionLength == |description| && r.urlLength == |url|
  {
    var populated := PopulatedFields([title, description, publishedDate, author, url]);
    DocumentFeatures(
      |Split(description)|,
      if publishedDate != [] then publishedAgeDays.GetOr(MISSING_RECENCY_DAYS) else MISSING_RECENCY_DAYS,
      Flag(author != []),
      Flag(publishedDate != []),
      populated as real / 5.0,
      |title|, |description|, |url|)
  }

  /** The publication-date flag ignores whether the date parses; recency does not. */
  lemma PublicationFlagIgnoresParsing(
    title: string, description: string, date: string, a1: Option<int>, a2: Option<int>,
    author: string, url: string)
    ensures ExtractDocumentFeatures(title, description, date, a1, author, url).hasPublicationDate
         == ExtractDocumentFeatures(title, description, date, a2, author, url).hasPublicationDate
    ensures a1.None? ==> ExtractDocumentFeatures(title, description, date, a1, author, url).recencyDays
                         == MISSING_RECENCY_DAYS
  {
  }

  // ---------------------------------------------------------------- query-document

  datatype QueryDocFeatures = QueryDocFeatures(
    vectorSimilarity: real, bm25Score: real, keywordBoost: real, temporalBoost: real,
    finalRetrievalScore: real, keywordOverlapRatio: real, titleExactMatch: nat)

  function WordSet(s: string): set<string>
  {
    set i | 0 <= i < |Split(s)| :: Split(s)[i]
  }

  /** A share `part / whole` of a non-empty whole lies in [0, 1] and scales back. */
  lemma Share(part: nat, whole: nat)
    requires part <= whole && whole > 0
    ensures 0.0 <= (part as real) / (whole as real) <= 1.0
    ensures (part as real) / (whole as real) * (whole as real) == part as real
  {
  }

  lemma SubsetCard<T>(a: set<T>, b: set<T>)
    requires a <= b
    ensures |a| <= |b|
  {
    assert b == a + (b - a);
  }

  /** `len(q & d) / len(q)`, or 0.0 for an empty query word set. */
  function OverlapRatio(q: set<string>, d: set<string>): (r: real)
    ensures 0.0 <= r <= 1.0
    ensures q == {} ==> r == 0.0
    ensures q != {} ==> r * (|q| as real) == |q * d| as real
  {
    if |q| > 0 then
      SubsetCard(q * d, q);
      Share(|q * d|, |q|);
      (|q * d| as real) / (|q| as real)
    else 0.0
  }

  function ExtractQueryDocFeatures(
    query: string, title: string, description: string,
    bm25: real, vector: real, keywordBoost: real, temporalBoost: real, finalScore: real): (r: QueryDocFeatures)
    ensures 0.0 <= r.keywordOverlapRatio <= 1.0
    ensures r.keywordOverlapRatio == OverlapRatio(WordSet(Lower(query)), WordSet(Lower(title + " " + description)))
    ensures r.titleExactMatch == 1 <==> title != [] && Contains(Lower(title), Lower(query))
    ensures r.titleExactMatch <= 1
    ensures r.vectorSimilarity == vector && r.bm25Score == bm25 && r.keywordBoost == keywordBoost
    ensures r.temporalBoost == temporalBoost && r.finalRetrievalScore == finalScore
  {
    QueryDocFeatures(
      vector, bm25, keywordBoost, temporalBoost, finalScore,
      OverlapRatio(WordSet(Lower(query)), WordSet(Lower(title + " " + description))),
      Flag(title != [] && Contains(Lower(title), Lower(query))))
  }

  // ---------------------------------------------------------------- ranking

  datatype RankingFeatures = RankingFeatures(
    retrievalPosition: int, rankingPosition: int, llmFinalScore: real,
    relativeScoreToTop: real, scorePercentile: real, positionChange: int)

  predicate SortedAsc(s: seq<real>)
  {
    forall i, j :: 0 <= i < j < |s| ==> s[i] <= s[j]
  }

  /** Insert `x` into an ascending list, in front of the first larger element. */
  function Insert(x: real, t: seq<real>): (r: seq<real>)
    requires SortedAsc(t)
    ensures SortedAsc(r)
    ensures multiset(r) == multiset(t) + multiset{x}
  {
    if t == [] then [x]
    else if x <= t[0] then [x] + t
    else
      var rest := Insert(x, t[1..]);
      assert forall i :: 0 <= i < |rest| ==> t[0] <= rest[i] by {
        forall i | 0 <= i < |rest| ensures t[0] <= rest[i] {
          assert rest[i] in multiset(rest);
        }
      }
      assert t == [t[0]] + t[1..];
      [t[0]] + rest
  }

  /** Python's `sorted(scores)`. */
  function SortAsc(s: seq<real>): (r: seq<real>)
    ensures SortedAsc(r)
    ensures multiset(r) == multiset(s) && |r| == |s|
  {
    if s == [] then []
    else
      assert s == [s[0]] + s[1..];
      Insert(s[0], SortAsc(s[1..]))
  }

  /** `xs.index(x)`: the first position of `x`. */
  function IndexOf<T(==)>(xs: seq<T>, x: T): (i: nat)
    requires x in xs
    ensures i < |xs| && xs[i] == x
    ensures forall j :: 0 <= j < i ==> xs[j] != x
  {
    if xs[0] == x then 0 else 1 + IndexOf(xs[1..], x)
  }

  /** How many scores are strictly below `x`. */
  function CountLess(s: seq<real>, x: real): (n: nat)
    ensures n <= |s|
  {
    if s == [] then 0 else (if s[0] < x then 1 else 0) + CountLess(s[1..], x)
  }

  lemma {:induction false} CountLessInsert(y: real, t: seq<real>, x: real)
    requires SortedAsc(t)
    ensures CountLess(Insert(y, t), x) == CountLess(t, x) + (if y < x then 1 else 0)
  {
    if t != [] && y > t[0] {
      CountLessInsert(y, t[1..], x);
    }
  }

  lemma {:induction false} CountLessSort(s: seq<real>, x: real)
    ensures CountLess(SortAsc(s), x) == CountLess(s, x)
  {
    if s != [] {
      CountLessSort(s[1..], x);
      CountLessInsert(s[0], SortAsc(s[1..]), x);
    }
  }

  lemma {:induction false} CountLessNone(t: seq<real>, x: real)
    requires forall i :: 0 <= i < |t| ==> x <= t[i]
    ensures CountLess(t, x) == 0
  {
    if t != [] {
      CountLessNone(t[1..], x);
    }
  }

  lemma {:induction false} SortedIndexIsCountLess(t: seq<real>, x: real)
    requires SortedAsc(t) && x in t
    ensures IndexOf(t, x) == CountLess(t, x)
  {
    if t[0] == x {
      CountLessNone(t[1..], x);
    } else {
      assert t[0] <= t[IndexOf(t, x)];
      SortedIndexIsCountLess(t[1..], x);
    }
  }

  /**
   * The rank used by the percentile, the first position of the score in the
   * sorted list, is the number of scores strictly below it.
   */
  lemma PercentileRankIsCountLess(scores: seq<real>, x: real)
    requires x in scores
    ensures x in SortAsc(scores)
    ensures IndexOf(SortAsc(scores), x) == CountLess(scores, x)
    ensures CountLess(scores, x) < |scores|
  {
    assert x in multiset(SortAsc(scores));
    SortedIndexIsCountLess(SortAsc(scores), x);
    CountLessSort(scores, x);
  }

  /** `sorted_scores.index(score) if score in sorted_scores else 0` */
  function PercentileRank(scores: seq<real>, x: real): (rank: nat)
    ensures x in scores ==> rank == CountLess(scores, x) && rank < |scores|
    ensures x !in scores ==> rank == 0
  {
    var sorted := SortAsc(scores);
    if x in sorted then
      PercentileRankIsCountLess(scores, x);
      IndexOf(sorted, x)
    else
      assert x !in multiset(scores);
      0
  }

  function ExtractRankingFeatures(
    retrievalPosition: int, rankingPosition: int, llmScore: real, allScores: seq<real>): (r: RankingFeatures)
    ensures |allScores| > 0 && MaxOf(allScores) > 0.0 ==>
      r.relativeScoreToTop == llmScore / MaxOf(allScores)
    ensures !(|allScores| > 0 && MaxOf(allScores) > 0.0) ==> r.relativeScoreToTop == 1.0
    ensures |allScores| <= 1 ==> r.scorePercentile == 50.0
    ensures |allScores| > 1 && llmScore in allScores ==>
      r.scorePercentile == (CountLess(allScores, llmScore) as real) / ((|allScores| - 1) as real) * 100.0
    ensures |allScores| > 1 && llmScore !in allScores ==> r.scorePercentile == 0.0
    ensures 0.0 <= r.scorePercentile <= 100.0
    ensures r.positionChange == retrievalPosition - rankingPosition
    ensures r.retrievalPosition == retrievalPosition && r.rankingPosition == rankingPosition
    ensures r.llmFinalScore == llmScore
  {
    var relative :=
      if |allScores| > 0 && MaxOf(allScores) > 0.0 then llmScore / MaxOf(allScores) else 1.0;
    var percentile :=
      if |allScores| > 1 then
        var rank := PercentileRank(allScores, llmScore);
        Share(rank, |allScores| - 1);
        (rank as real) / ((|allScores| - 1) as real) * 100.0
      else 50.0;
    RankingFeatures(retrievalPosition, rankingPosition, llmScore, relative, percentile,
                    retrievalPosition - rankingPosition)
  }

  // ---------------------------------------------------------------- MMR and intent

  datatype MmrFeatures = MmrFeatures(mmrDiversityScore: real, detectedIntent: nat)

  /** `{'SPECIFIC': 0, 'EXPLORATORY': 1, 'BALANCED': 2}.get(intent, 2)` */
  function EncodeIntent(intent: Option<string>): (code: nat)
    ensures code <= 2
    ensures code == 0 <==> intent == Some("SPECIFIC")
    ensures code == 1 <==> intent == Some("EXPLORATORY")
  {
    match intent
    case Some(name) =>
      if name == "SPECIFIC" then 0 else if name == "EXPLORATORY" then 1 else 2
    case None => 2
  }

  function ExtractMmrFeatures(diversity: Option<real>, intent: Option<string>): (r: MmrFeatures)
    ensures diversity.None? ==> r.mmrDiversityScore == 0.0
    ensures diversity.Some? ==> r.mmrDiversityScore == diversity.value
    ensures r.detectedIntent == EncodeIntent(intent)
  {
    MmrFeatures(diversity.GetOr(0.0), EncodeIntent(intent))
  }

  // ---------------------------------------------------------------- the vector

  /** Lay the five groups out at their index constants. */
  function FeatureVector(
    q: QueryFeatures, d: DocumentFeatures, qd: QueryDocFeatures, r: RankingFeatures, m: MmrFeatures): (v: seq<real>)
    ensures |v| == TOTAL_FEATURES
    ensures v[QUERY_LENGTH] == q.queryLength as real && v[WORD_COUNT] == q.wordCount as real
    ensures v[HAS_QUOTES] == q.hasQuotes as real && v[HAS_NUMBERS] == q.hasNumbers as real
    ensures v[HAS_QUESTION_WORDS] == q.hasQuestionWords as real && v[KEYWORD_COUNT] == q.keywordCount as real
    ensures v[DOC_LENGTH] == d.docLength as real && v[RECENCY_DAYS] == d.recencyDays as real
    ensures v[HAS_AUTHOR] == d.hasAuthor as real && v[HAS_PUBLICATION_DATE] == d.hasPublicationDate as real
    ensures v[SCHEMA_COMPLETENESS] == d.schemaCompleteness && v[TITLE_LENGTH] == d.titleLength as real
    ensures v[DESCRIPTION_LENGTH] == d.descriptionLength as real && v[URL_LENGTH] == d.urlLength as real
    ensures v[VECTOR_SIMILARITY] == qd.vectorSimilarity && v[BM25_SCORE] == qd.bm25Score
    ensures v[KEYWORD_BOOST] == qd.keywordBoost && v[TEMPORAL_BOOST] == qd.temporalBoost
    ensures v[FINAL_RETRIEVAL_SCORE] == qd.finalRetrievalScore
    ensures v[KEYWORD_OVERLAP_RATIO] == qd.keywordOverlapRatio
    ensures v[TITLE_EXACT_MATCH] == qd.titleExactMatch as real
    ensures v[RETRIEVAL_POSITION] == r.retrievalPosition as real && v[RANKING_POSITION] == r.rankingPosition as real
    ensures v[LLM_FINAL_SCORE] == r.llmFinalScore && v[RELATIVE_SCORE_TO_TOP] == r.relativeScoreToTop
    ensures v[SCORE_PERCENTILE] == r.scorePercentile && v[POSITION_CHANGE] == r.positionChange as real
    ensures v[MMR_DIVERSITY_SCORE] == m.mmrDiversityScore && v[DETECTED_INTENT] == m.detectedIntent as real
  {
    QueryBlock(q) + DocumentBlock(d) + QueryDocBlock(qd) + RankingBlock(r) + MmrBlock(m)
  }

  function QueryBlock(q: QueryFeatures): seq<real>
  {
    [q.queryLength as real, q.wordCount as real, q.hasQuotes as real, q.hasNumbers as real,
     q.hasQuestionWords as real, q.keywordCount as real]
  }

  function DocumentBlock(d: DocumentFeatures): seq<real>
  {
    [d.docLength as real, d.recencyDays as real, d.hasAuthor as real, d.hasPublicationDate as real,
     d.schemaCompleteness, d.titleLength as real, d.descriptionLength as real, d.urlLength as real]
  }

  function QueryDocBlock(qd: QueryDocFeatures): seq<real>
  {
    [qd.vectorSimilarity, qd.bm25Score, qd.keywordBoost, qd.temporalBoost, qd.finalRetrievalScore,
     qd.keywordOverlapRatio, qd.titleExactMatch as real]
  }

  function RankingBlock(r: RankingFeatures): seq<real>
  {
    [r.retrievalPosition as real, r.rankingPosition as real, r.llmFinalScore, r.relativeScoreToTop,
     r.scorePercentile, r.positionChange as real]
  }

  function MmrBlock(m: MmrFeatures): seq<real>
  {
    [m.mmrDiversityScore, m.detectedIntent as real]
  }
}
