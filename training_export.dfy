/**
 * Exporting the analytics log as XGBoost training data: the LLM scores of
 * each query (for the percentile feature), the 29 features of each logged
 * row, the CSV rows (features then the label), the run-length query groups
 * GroupKFold needs, and the metadata written beside the CSV.
 *
 * The SQL query, the CSV and JSON writers and the export timestamp are not
 * modelled: the fetched rows are a parameter and the written CSV is the
 * sequence of its numeric rows.
 */
module TrainingExport {
  import opened Wrappers
  import opened Text
  import opened Features

  /**
   * One row the analytics query returns; `None` is SQL NULL. The
   * publication age is the whole-day age of `publishedDate` at export time,
   * `None` when the date does not parse (the clock is not modelled).
   */
  datatype DbRow = DbRow(
    queryId: string, queryText: string, docTitle: Option<string>, docDescription: Option<string>,
    publishedDate: Option<string>, publishedAgeDays: Option<int>, author: Option<string>, docUrl: string,
    bm25Score: Option<real>, vectorSimilarity: Option<real>, keywordBoost: Option<real>,
    temporalBoost: Option<real>, finalRetrievalScore: Option<real>,
    retrievalPosition: Option<int>, llmRankingPosition: Option<int>,
    llmFinalScore: real, mmrDiversityScore: Option<real>)

  // ----- Scores per query -----

  /** The LLM scores of the rows of query `q`, in row order. */
  function ScoresOf(rows: seq<DbRow>, q: string): (s: seq<real>)
    ensures |s| <= |rows|
  {
    if rows == [] then []
    else ScoresOf(rows[..|rows| - 1], q)
         + (if rows[|rows| - 1].queryId == q then [rows[|rows| - 1].llmFinalScore] else [])
  }

  /** `compute_all_llm_scores_per_query`: the `defaultdict(list)` filled row by row. */
  function Scores(rows: seq<DbRow>): map<string, seq<real>>
  {
    if rows == [] then map[]
    else
      var m := Scores(rows[..|rows| - 1]);
      var row := rows[|rows| - 1];
      m[row.queryId := (if row.queryId in m then m[row.queryId] else []) + [row.llmFinalScore]]
  }

  /** The query ids in order of first appearance. */
  function QueryOrder(rows: seq<DbRow>): (order: seq<string>)
  {
    if rows == [] then []
    else
      var order := QueryOrder(rows[..|rows| - 1]);
      if rows[|rows| - 1].queryId in order then order else order + [rows[|rows| - 1].queryId]
  }

  predicate Distinct(xs: seq<string>)
  {
    forall i, j :: 0 <= i < j < |xs| ==> xs[i] != xs[j]
  }

  /** The map's keys are exactly the query ids of the rows. */
  lemma {:induction false} ScoresKeys(rows: seq<DbRow>)
    ensures forall q :: q in Scores(rows) <==> q in QueryOrder(rows)
    ensures Distinct(QueryOrder(rows))
  {
    if rows != [] {
      var init := rows[..|rows| - 1];
      var q := rows[|rows| - 1].queryId;
      ScoresKeys(init);
      var order := QueryOrder(init);
      if q !in order {
        assert QueryOrder(rows) == order + [q];
        assert forall x :: x in order + [q] <==> x in order || x == q;
      }
    }
  }

  /** Each query's list holds that query's scores in row order; a query with no row has no list. */
  lemma {:induction false} ScoresLists(rows: seq<DbRow>)
    ensures forall q :: ScoresOf(rows, q) == (if q in Scores(rows) then Scores(rows)[q] else [])
  {
    if rows != [] {
      ScoresLists(rows[..|rows| - 1]);
    }
  }

  /** Every row's query has a list (the lookup in `export_to_csv` cannot fail). */
  lemma {:induction false} ScoresCoverRows(rows: seq<DbRow>)
    ensures forall i :: 0 <= i < |rows| ==> rows[i].queryId in Scores(rows)
  {
    if rows != [] {
      var init := rows[..|rows| - 1];
      ScoresCoverRows(init);
      forall i | 0 <= i < |rows|
        ensures rows[i].queryId in Scores(rows)
      {
        if i < |init| {
          assert rows[i] == init[i];
        }
      }
    }
  }

  /** The total length of the lists of the queries in `order`. */
  function TotalLength(order: seq<string>, m: map<string, seq<real>>): nat
  {
    if order == [] then 0
    else
      var q := order[|order| - 1];
      TotalLength(order[..|order| - 1], m) + (if q in m then |m[q]| else 0)
  }

  /** Growing one query's list by one grows the total by one, when that query is listed once. */
  lemma {:induction false} TotalLengthGrow(order: seq<string>, m: map<string, seq<real>>, q: string, s: seq<real>)
    requires Distinct(order) && q in order
    requires |s| == (if q in m then |m[q]| else 0) + 1
    ensures TotalLength(order, m[q := s]) == TotalLength(order, m) + 1
  {
    var init := order[..|order| - 1];
    if order[|order| - 1] == q {
      assert q !in init;
      TotalLengthSame(init, m, q, s);
    } else {
      assert q in init;
      TotalLengthGrow(init, m, q, s);
    }
  }

  /** A query outside `order` does not count towards its total. */
  lemma {:induction false} TotalLengthSame(order: seq<string>, m: map<string, seq<real>>, q: string, s: seq<real>)
    requires q !in order
    ensures TotalLength(order, m[q := s]) == TotalLength(order, m)
  {
    if order != [] {
      TotalLengthSame(order[..|order| - 1], m, q, s);
    }
  }

  /** The lists' lengths add up to the row count. */
  lemma {:induction false} ScoresTotal(rows: seq<DbRow>)
    ensures TotalLength(QueryOrder(rows), Scores(rows)) == |rows|
  {
    if rows != [] {
      var init := rows[..|rows| - 1];
      var row := rows[|rows| - 1];
      ScoresTotal(init);
      ScoresKeys(init);
      var m := Scores(init);
      var order := QueryOrder(init);
      var s := (if row.queryId in m then m[row.queryId] else []) + [row.llmFinalScore];
      if row.queryId in order {
        TotalLengthGrow(order, m, row.queryId, s);
      } else {
        TotalLengthSame(order, m, row.queryId, s);
        assert QueryOrder(rows) == order + [row.queryId];
        assert QueryOrder(rows)[..|QueryOrder(rows)| - 1] == order;
      }
    }
  }

  /** `compute_all_llm_scores_per_query` */
  method ComputeScoresPerQuery(rows: seq<DbRow>) returns (m: map<string, seq<real>>)
    ensures m == Scores(rows)
  {
    m := map[];
    assert rows[..0] == [];
    for i := 0 to |rows|
      invariant m == Scores(rows[..i])
    {
      assert rows[..i + 1][..i] == rows[..i];
      var q := rows[i].queryId;
      var list := if q in m then m[q] else [];
      m := m[q := list + [rows[i].llmFinalScore]];
    }
    assert rows[..|rows|] == rows;
  }

  // ----- Features of a row -----

  /**
   * `extract_features_from_row`: NULL text is '', NULL scores and positions
   * are 0, and the intent, not stored yet, is always encoded as BALANCED (2).
   */
  function RowFeatures(row: DbRow, allScores: seq<real>): (v: seq<real>)
    ensures |v| == TOTAL_FEATURES
    ensures v[DETECTED_INTENT] == 2.0
    ensures v[LLM_FINAL_SCORE] == row.llmFinalScore
    ensures v[BM25_SCORE] == row.bm25Score.GetOr(0.0)
    ensures v[MMR_DIVERSITY_SCORE] == row.mmrDiversityScore.GetOr(0.0)
  {
    var q := ExtractQueryFeatures(row.queryText);
    var d := ExtractDocumentFeatures(row.docTitle.GetOr(""), row.docDescription.GetOr(""),
                                     row.publishedDate.GetOr(""), row.publishedAgeDays,
                                     row.author.GetOr(""), row.docUrl);
    var qd := ExtractQueryDocFeatures(row.queryText, row.docTitle.GetOr(""), row.docDescription.GetOr(""),
                                      row.bm25Score.GetOr(0.0), row.vectorSimilarity.GetOr(0.0),
                                      row.keywordBoost.GetOr(0.0), row.temporalBoost.GetOr(0.0),
                                      row.finalRetrievalScore.GetOr(0.0));
    var r := ExtractRankingFeatures(row.retrievalPosition.GetOr(0), row.llmRankingPosition.GetOr(0),
                                    row.llmFinalScore, allScores);
    var m := ExtractMmrFeatures(row.mmrDiversityScore, None);
    FeatureVector(q, d, qd, r, m)
  }

  // ----- The CSV and the metadata -----

  /** The CSV header: the 29 feature names in index order, then the label. */
  const FEATURE_NAMES: seq<string> := [
    "query_length", "word_count", "has_quotes", "has_numbers", "has_question_words", "keyword_count",
    "doc_length", "recency_days", "has_author", "has_publication_date",
    "schema_completeness", "title_length", "description_length", "url_length",
    "vector_similarity", "bm25_score", "keyword_boost", "temporal_boost",
    "final_retrieval_score", "keyword_overlap_ratio", "title_exact_match",
    "retrieval_position", "ranking_position", "llm_final_score",
    "relative_score_to_top", "score_percentile", "position_change",
    "mmr_diversity_score", "detected_intent",
    "label"]

  /** The header has one more column than there are features, the last is the label, and each name sits at its feature's index. */
  lemma HeaderLayout()
    ensures |FEATURE_NAMES| == TOTAL_FEATURES + 1 && FEATURE_NAMES[TOTAL_FEATURES] == "label"
    ensures FEATURE_NAMES[QUERY_LENGTH] == "query_length" && FEATURE_NAMES[KEYWORD_COUNT] == "keyword_count"
    ensures FEATURE_NAMES[DOC_LENGTH] == "doc_length" && FEATURE_NAMES[URL_LENGTH] == "url_length"
    ensures FEATURE_NAMES[VECTOR_SIMILARITY] == "vector_similarity"
    ensures FEATURE_NAMES[TITLE_EXACT_MATCH] == "title_exact_match"
    ensures FEATURE_NAMES[RETRIEVAL_POSITION] == "retrieval_position" && FEATURE_NAMES[POSITION_CHANGE] == "position_change"
    ensures FEATURE_NAMES[MMR_DIVERSITY_SCORE] == "mmr_diversity_score"
    ensures FEATURE_NAMES[DETECTED_INTENT] == "detected_intent"
    ensures forall i, j :: 0 <= i < j < |FEATURE_NAMES| ==> FEATURE_NAMES[i] != FEATURE_NAMES[j]
  {
  }

  /** The metadata written beside the CSV (without the export timestamp). */
  datatype Metadata = Metadata(
    featureVersion: string, expectedFeatures: nat, featureNames: seq<string>,
    totalSamples: nat, totalQueries: nat, queryGroups: seq<nat>,
    labelType: string, labelDescription: string)

  /** The run tracking of `export_to_csv` part-way: the closed groups, the current query and its size. */
  datatype Runs = Runs(groups: seq<nat>, current: Option<string>, size: nat)

  function RunStep(st: Runs, q: string): Runs
  {
    if st.current != Some(q) then
      Runs(if st.current.Some? then st.groups + [st.size] else st.groups, Some(q), 1)
    else st.(size := st.size + 1)
  }

  function RunsOf(ids: seq<string>): Runs
  {
    if ids == [] then Runs([], None, 0) else RunStep(RunsOf(ids[..|ids| - 1]), ids[|ids| - 1])
  }

  /** The groups once the last run is closed. */
  function QueryGroups(ids: seq<string>): seq<nat>
  {
    var st := RunsOf(ids);
    if st.size > 0 then st.groups + [st.size] else st.groups
  }

  function Sum(xs: seq<nat>): nat
  {
    if xs == [] then 0 else Sum(xs[..|xs| - 1]) + xs[|xs| - 1]
  }

  /** The number of positions that start a run: the first, and every change of query id. */
  function RunStarts(ids: seq<string>): nat
  {
    if ids == [] then 0
    else RunStarts(ids[..|ids| - 1]) + (if |ids| == 1 || ids[|ids| - 2] != ids[|ids| - 1] then 1 else 0)
  }

  lemma {:induction false} RunsInvariant(ids: seq<string>)
    ensures var st := RunsOf(ids);
      (ids == [] <==> st.current.None?)
      && (ids != [] ==> st.current == Some(ids[|ids| - 1]) && st.size >= 1)
      && (ids == [] ==> st.size == 0 && st.groups == [])
      && (forall g :: g in st.groups ==> g >= 1)
      && Sum(st.groups) + st.size == |ids|
      && |st.groups| + (if ids == [] then 0 else 1) == RunStarts(ids)
  {
    if ids != [] {
      var init := ids[..|ids| - 1];
      RunsInvariant(init);
      var st := RunsOf(init);
      if init != [] {
        assert ids[|ids| - 2] == init[|init| - 1];
      }
      if st.current != Some(ids[|ids| - 1]) && st.current.Some? {
        assert (st.groups + [st.size])[..|st.groups|] == st.groups;
      }
    }
  }

  /**
   * `query_groups` is the run-length encoding of the query ids: one group
   * per run, every group at least 1, and the sizes add up to the row count.
   */
  lemma QueryGroupsRunLength(ids: seq<string>)
    ensures forall g :: g in QueryGroups(ids) ==> g >= 1
    ensures Sum(QueryGroups(ids)) == |ids|
    ensures |QueryGroups(ids)| == RunStarts(ids)
  {
    RunsInvariant(ids);
    var st := RunsOf(ids);
    if st.size > 0 {
      assert (st.groups + [st.size])[..|st.groups|] == st.groups;
    }
  }

  function QueryIds(rows: seq<DbRow>): (ids: seq<string>)
    ensures |ids| == |rows| && forall i :: 0 <= i < |rows| ==> ids[i] == rows[i].queryId
  {
    seq(|rows|, i requires 0 <= i < |rows| => rows[i].queryId)
  }

  /** The metadata of an export of `rows`. */
  function MetadataOf(rows: seq<DbRow>): (meta: Metadata)
    ensures meta.totalSamples == |rows| && meta.totalQueries == |meta.queryGroups|
    ensures meta.featureNames == FEATURE_NAMES[..TOTAL_FEATURES] && meta.expectedFeatures == TOTAL_FEATURES
  {
    var groups := QueryGroups(QueryIds(rows));
    Metadata("phase_a", TOTAL_FEATURES, FEATURE_NAMES[..TOTAL_FEATURES], |rows|, |groups|, groups,
             "llm_final_score", "Synthetic labels from LLM ranking (0-100)")
  }

  /** The exported metadata's groups sum to its sample count. */
  lemma MetadataConsistent(rows: seq<DbRow>)
    ensures Sum(MetadataOf(rows).queryGroups) == MetadataOf(rows).totalSamples
    ensures forall g :: g in MetadataOf(rows).queryGroups ==> g >= 1
    ensures "label" !in MetadataOf(rows).featureNames
  {
    QueryGroupsRunLength(QueryIds(rows));
    HeaderLayout();
    assert forall i :: 0 <= i < TOTAL_FEATURES ==> FEATURE_NAMES[..TOTAL_FEATURES][i] == FEATURE_NAMES[i];
  }

  /** A CSV data row: the features, then the label (the LLM final score). */
  function CsvRow(row: DbRow, scores: map<string, seq<real>>): (r: seq<real>)
    requires row.queryId in scores
    ensures |r| == TOTAL_FEATURES + 1 && r[TOTAL_FEATURES] == row.llmFinalScore
  {
    RowFeatures(row, scores[row.queryId]) + [row.llmFinalScore]
  }

  /** The CSV data rows written for `rows`: `line(row)` for each row, in row order. */
  function Lines(rows: seq<DbRow>, line: DbRow --> seq<real>): (csv: seq<seq<real>>)
    requires forall i :: 0 <= i < |rows| ==> line.requires(rows[i])
    ensures |csv| == |rows|
  {
    if rows == [] then [] else Lines(rows[..|rows| - 1], line) + [line(rows[|rows| - 1])]
  }

  /** Row `i` of the CSV is the line of row `i` of the log. */
  lemma {:induction false} LinesAt(rows: seq<DbRow>, line: DbRow --> seq<real>)
    requires forall i :: 0 <= i < |rows| ==> line.requires(rows[i])
    ensures forall i :: 0 <= i < |rows| ==> Lines(rows, line)[i] == line(rows[i])
  {
    if rows != [] {
      var init := rows[..|rows| - 1];
      LinesAt(init, line);
      forall i | 0 <= i < |init|
        ensures Lines(rows, line)[i] == line(rows[i])
      {
        assert rows[i] == init[i];
      }
    }
  }

  /**
   * The writing loop of `export_to_csv`: `line(row)` written for each row
   * (the features then the label), and the query groups, a group closed
   * whenever the query id changes and the last one closed after the loop.
   */
  method WriteRows(rows: seq<DbRow>, line: DbRow --> seq<real>) returns (csv: seq<seq<real>>, groups: seq<nat>)
    requires forall i :: 0 <= i < |rows| ==> line.requires(rows[i])
    ensures csv == Lines(rows, line)
    ensures groups == QueryGroups(QueryIds(rows))
  {
    groups := [];
    var current: Option<string> := None;
    var size: nat := 0;
    csv := [];
    var ids := QueryIds(rows);
    assert ids[..0] == [];
    for i := 0 to |rows|
      invariant Runs(groups, current, size) == RunsOf(ids[..i])
      invariant csv == Lines(rows[..i], line)
    {
      assert ids[..i + 1][..i] == ids[..i] && ids[i] == rows[i].queryId;
      assert rows[..i + 1][..i] == rows[..i];
      var row := rows[i];
      if current != Some(row.queryId) {
        if current.Some? {
          groups := groups + [size];
        }
        current := Some(row.queryId);
        size := 0;
      }
      size := size + 1;
      csv := csv + [line(row)];
    }
    assert ids[..|rows|] == ids && rows[..|rows|] == rows;
    if size > 0 {
      groups := groups + [size];
    }
  }

  /** `export_to_csv`: the row count, the CSV data rows and the metadata. */
  method ExportToCsv(rows: seq<DbRow>) returns (count: nat, csv: seq<seq<real>>, meta: Metadata)
    ensures count == |rows| && |csv| == |rows|
    ensures forall i :: 0 <= i < |rows| ==> (rows[i].queryId in Scores(rows)
      && csv[i] == CsvRow(rows[i], Scores(rows)))
    ensures meta == MetadataOf(rows)
  {
    var scores := ComputeScoresPerQuery(rows);
    ScoresCoverRows(rows);
    var line := (row: DbRow) requires row.queryId in scores => CsvRow(row, scores);
    var groups;
    csv, groups := WriteRows(rows, line);
    LinesAt(rows, line);
    meta := Metadata("phase_a", TOTAL_FEATURES, FEATURE_NAMES[..TOTAL_FEATURES], |rows|, |groups|, groups,
                     "llm_final_score", "Synthetic labels from LLM ranking (0-100)");
    count := |rows|;
  }
}
