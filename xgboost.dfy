/**
 * The learned re-ranker that sits after LLM ranking. It assembles the
 * 29-slot feature row of every result and predicts a score per row. In
 * shadow mode it compares that ordering with the LLM's and returns the list
 * untouched; in production mode it sorts by the predicted score.
 *
 * No trained model is ever loaded: the loader only caches the placeholder
 * `None`. Prediction therefore falls back to the LLM score divided by the
 * largest one, and the production branch is modelled but never reached.
 */
module Xgboost {
  import opened Wrappers
  import opened Text
  import opened Features

  /** A result arrives either as a dict (from the LLM ranker) or as an object with attributes. */
  datatype Shape = DictShape | ObjectShape

  /**
   * One ranked result. `publishedAgeDays` is the parsed age of
   * `publishedDate`; `retrievalPosition`, `mmrScore` and `detectedIntent`
   * are object attributes (`None` when absent), and `xgboostScore` /
   * `xgboostConfidence` are the attributes production mode attaches.
   */
  datatype RankedResult = RankedResult(
    shape: Shape, title: string, description: string, url: string,
    publishedDate: string, publishedAgeDays: Option<int>, author: string,
    vectorScore: real, bm25Score: real, keywordBoost: real, temporalBoost: real,
    finalRetrievalScore: real, retrievalPosition: Option<int>, llmScore: real,
    mmrScore: Option<real>, detectedIntent: Option<string>,
    xgboostScore: Option<real>, xgboostConfidence: Option<real>)

  /** Stands for a loaded booster; the loader never creates one. */
  datatype Booster = Booster(path: string)

  /** The keys of the `xgboost_params` configuration; `None` is a missing key. */
  datatype XgboostConfig = XgboostConfig(
    enabled: Option<bool>, modelPath: Option<string>, confidenceThreshold: Option<real>,
    featureVersion: Option<int>, useShadowMode: Option<bool>)

  const DEFAULT_MODEL_PATH: string := "models/xgboost_ranker_v1_binary.json"
  const DEFAULT_CONFIDENCE_THRESHOLD: real := 0.8
  const DEFAULT_FEATURE_VERSION: int := 2
  const PLACEHOLDER_CONFIDENCE: real := 0.5
  const TOP_OVERLAP_K: nat := 10

  // ---------------------------------------------------------------- feature rows

  /** `all_llm_scores`: the LLM score of every result, in order. */
  function LlmScores(results: seq<RankedResult>): (s: seq<real>)
    ensures |s| == |results|
    ensures forall i :: 0 <= i < |results| ==> s[i] == results[i].llmScore
  {
    if results == [] then [] else [results[0].llmScore] + LlmScores(results[1..])
  }

  /**
   * The feature row of result `i`. Dict results carry no retrieval position,
   * diversity score or intent, so they get position `i`, no diversity score
   * and BALANCED; objects supply theirs, with position `i` as the default.
   */
  function FeatureRow(results: seq<RankedResult>, query: string, i: nat): (v: seq<real>)
    requires i < |results|
    ensures |v| == TOTAL_FEATURES
  {
    var r := results[i];
    var retrievalPosition := if r.shape == DictShape then i else r.retrievalPosition.GetOr(i);
    var mmr := if r.shape == DictShape then None else r.mmrScore;
    var intent := if r.shape == DictShape then Some("BALANCED") else r.detectedIntent;
    FeatureVector(
      ExtractQueryFeatures(query),
      ExtractDocumentFeatures(r.title, r.description, r.publishedDate, r.publishedAgeDays, r.author, r.url),
      ExtractQueryDocFeatures(query, r.title, r.description, r.bm25Score, r.vectorScore,
                              r.keywordBoost, r.temporalBoost, r.finalRetrievalScore),
      ExtractRankingFeatures(retrievalPosition, i, r.llmScore, LlmScores(results)),
      ExtractMmrFeatures(mmr, intent))
  }

  /**
   * A dict result's row has both positions equal to its index, so no
   * position change, no diversity score and the BALANCED intent code; every
   * row carries the result's own LLM score in the LLM slot.
   */
  lemma DictRowDefaults(results: seq<RankedResult>, query: string, i: nat)
    requires i < |results| && results[i].shape == DictShape
    ensures var v := FeatureRow(results, query, i);
      v[RETRIEVAL_POSITION] == i as real && v[RANKING_POSITION] == i as real
      && v[POSITION_CHANGE] == 0.0 && v[MMR_DIVERSITY_SCORE] == 0.0 && v[DETECTED_INTENT] == 2.0
  {
    var r := results[i];
    var rf := ExtractRankingFeatures(i, i, r.llmScore, LlmScores(results));
    var mf := ExtractMmrFeatures(None, Some("BALANCED"));
    assert mf.detectedIntent == 2;
    assert FeatureRow(results, query, i) == FeatureVector(
      ExtractQueryFeatures(query),
      ExtractDocumentFeatures(r.title, r.description, r.publishedDate, r.publishedAgeDays, r.author, r.url),
      ExtractQueryDocFeatures(query, r.title, r.description, r.bm25Score, r.vectorScore,
                              r.keywordBoost, r.temporalBoost, r.finalRetrievalScore),
      rf, mf);
  }

  /** Every row carries the result's own LLM score in the LLM slot. */
  lemma RowLlmSlot(results: seq<RankedResult>, query: string, i: nat)
    requires i < |results|
    ensures FeatureRow(results, query, i)[LLM_FINAL_SCORE] == results[i].llmScore
  {
  }

  // ---------------------------------------------------------------- prediction

  datatype PredictError =
    | WrongWidth    // the feature-count assertion fails
    | EmptyInput    // `max()` of an empty column raises

  /** Column `j` of the first `k` rows. */
  function Column(features: array2<real>, j: nat, k: nat): (c: seq<real>)
    requires j < features.Length1 && k <= features.Length0
    reads features
    ensures |c| == k && forall i :: 0 <= i < k ==> c[i] == features[i, j]
  {
    if k == 0 then [] else Column(features, j, k - 1) + [features[k - 1, j]]
  }

  /** `scores / scores.max()` when the maximum is positive, all zeros otherwise. */
  function NormaliseByMax(s: seq<real>): (r: seq<real>)
    requires |s| > 0
    ensures |r| == |s|
  {
    var top := MaxOf(s);
    if top > 0.0 then Scale(s, top) else Repeat(0.0, |s|)
  }

  function Scale(s: seq<real>, d: real): (r: seq<real>)
    requires d > 0.0
    ensures |r| == |s| && forall i :: 0 <= i < |s| ==> r[i] == s[i] / d
  {
    if s == [] then [] else [s[0] / d] + Scale(s[1..], d)
  }

  /**
   * Dividing by the largest score keeps the LLM order, sends the largest
   * score to 1.0 and, for non-negative scores, lands in [0, 1].
   */
  lemma NormalisedScores(s: seq<real>, i: nat, j: nat)
    requires |s| > 0 && i < |s| && j < |s|
    ensures var r := NormaliseByMax(s);
      (MaxOf(s) > 0.0 && s[i] <= s[j] ==> r[i] <= r[j])
      && (MaxOf(s) > 0.0 && s[i] == MaxOf(s) ==> r[i] == 1.0)
      && (MaxOf(s) > 0.0 && 0.0 <= s[i] ==> 0.0 <= r[i] <= 1.0)
      && (MaxOf(s) <= 0.0 ==> r[i] == 0.0)
  {
    var top := MaxOf(s);
    if top > 0.0 {
      var r := Scale(s, top);
      assert r[i] == s[i] / top && r[j] == s[j] / top;
      if s[i] <= s[j] {
        DivMonotone(s[i], s[j], top);
      }
      DivSelf(top);
      if 0.0 <= s[i] {
        DivUnit(s[i], top);
      }
    }
  }

  lemma DivMonotone(a: real, b: real, d: real)
    requires d > 0.0 && a <= b
    ensures a / d <= b / d
  {
  }

  lemma DivSelf(d: real)
    requires d > 0.0
    ensures d / d == 1.0
  {
  }

  lemma DivUnit(a: real, d: real)
    requires d > 0.0 && 0.0 <= a <= d
    ensures 0.0 <= a / d <= 1.0
  {
  }

  /**
   * Prediction on the LLM column: without a model, the normalised LLM
   * scores with confidence 0.5 each (an empty column raises); a loaded
   * model's branch is a placeholder returning zeros.
   */
  function PredictColumn(llm: seq<real>, model: Option<Booster>): (r: Result<(seq<real>, seq<real>), PredictError>)
    ensures r.Ok? ==> |r.value.0| == |llm| && |r.value.1| == |llm|
    ensures r.Err? <==> model.None? && llm == []
  {
    if model.Some? then Ok((Repeat(0.0, |llm|), Repeat(0.0, |llm|)))
    else if llm == [] then Err(EmptyInput)
    else Ok((NormaliseByMax(llm), Repeat(PLACEHOLDER_CONFIDENCE, |llm|)))
  }

  /** `predict`: checks the width, then predicts from the LLM-score column. */
  function Predict(features: array2<real>, model: Option<Booster>): (r: Result<(seq<real>, seq<real>), PredictError>)
    reads features
    ensures features.Length1 != TOTAL_FEATURES ==> r == Err(WrongWidth)
    ensures features.Length1 == TOTAL_FEATURES ==>
      r == PredictColumn(Column(features, LLM_FINAL_SCORE, features.Length0), model)
  {
    if features.Length1 != TOTAL_FEATURES then Err(WrongWidth)
    else PredictColumn(Column(features, LLM_FINAL_SCORE, features.Length0), model)
  }

  function Abs(x: real): real { if x < 0.0 then -x else x }

  /** `|p - 0.5| * 2` for every prediction. */
  function CalculateConfidence(predictions: seq<real>): (c: seq<real>)
    ensures |c| == |predictions|
    ensures forall i :: 0 <= i < |c| ==> 0.0 <= c[i]
    ensures forall i :: 0 <= i < |c| ==> (c[i] == 0.0 <==> predictions[i] == 0.5)
    ensures forall i :: 0 <= i < |c| && 0.0 <= predictions[i] <= 1.0 ==>
      c[i] <= 1.0 && (c[i] == 1.0 <==> predictions[i] == 0.0 || predictions[i] == 1.0)
  {
    if predictions == [] then []
    else [Abs(predictions[0] - 0.5) * 2.0] + CalculateConfidence(predictions[1..])
  }

  function Sum(s: seq<real>): real
  {
    if s == [] then 0.0 else s[0] + Sum(s[1..])
  }

  /** `np.mean`; the empty mean (NaN in numpy) is taken as 0.0. */
  function Mean(s: seq<real>): real
  {
    if s == [] then 0.0 else Sum(s) / (|s| as real)
  }

  // ---------------------------------------------------------------- stable descending sort

  /** Put `x`, which came before everything in `s`, in front of the first element it is not below. */
  function InsertDesc<T>(x: T, s: seq<T>, key: T -> real): (r: seq<T>)
  {
    if s == [] || key(x) >= key(s[0]) then [x] + s else [s[0]] + InsertDesc(x, s[1..], key)
  }

  /** `sorted(xs, key=key, reverse=True)`: stable, so equal keys keep their input order. */
  function SortDesc<T>(s: seq<T>, key: T -> real): (r: seq<T>)
  {
    if s == [] then [] else InsertDesc(s[0], SortDesc(s[1..], key), key)
  }

  predicate NonIncreasing<T>(s: seq<T>, key: T -> real)
  {
    forall i, j :: 0 <= i < j < |s| ==> key(s[j]) <= key(s[i])
  }

  /** Inserting adds exactly `x`. */
  lemma {:induction false} InsertDescPerm<T>(x: T, s: seq<T>, key: T -> real)
    ensures multiset(InsertDesc(x, s, key)) == multiset(s) + multiset{x}
  {
    if s != [] && key(x) < key(s[0]) {
      InsertDescPerm(x, s[1..], key);
      assert s == [s[0]] + s[1..];
    }
  }

  /** An element whose key bounds every key of an ordered list can go in front of it. */
  lemma ConsNonIncreasing<T>(y: T, rest: seq<T>, key: T -> real)
    requires NonIncreasing(rest, key)
    requires forall i :: 0 <= i < |rest| ==> key(rest[i]) <= key(y)
    ensures NonIncreasing([y] + rest, key)
  {
    var r := [y] + rest;
    forall i, j | 0 <= i < j < |r|
      ensures key(r[j]) <= key(r[i])
    {
      assert r[j] == rest[j - 1];
      if i > 0 {
        assert r[i] == rest[i - 1];
      }
    }
  }

  lemma {:induction false} InsertDescSorted<T>(x: T, s: seq<T>, key: T -> real)
    requires NonIncreasing(s, key)
    ensures NonIncreasing(InsertDesc(x, s, key), key)
    ensures multiset(InsertDesc(x, s, key)) == multiset(s) + multiset{x}
  {
    InsertDescPerm(x, s, key);
    if s != [] && key(x) < key(s[0]) {
      var tail := s[1..];
      assert NonIncreasing(tail, key) by {
        forall i, j | 0 <= i < j < |tail| ensures key(tail[j]) <= key(tail[i]) {
          assert tail[i] == s[i + 1] && tail[j] == s[j + 1];
        }
      }
      InsertDescSorted(x, tail, key);
      var rest := InsertDesc(x, tail, key);
      forall i | 0 <= i < |rest| ensures key(rest[i]) <= key(s[0]) {
        assert rest[i] in multiset(rest);
        if rest[i] != x {
          assert rest[i] in multiset(tail);
          var k :| 0 <= k < |tail| && tail[k] == rest[i];
          assert s[k + 1] == rest[i];
        }
      }
      ConsNonIncreasing(s[0], rest, key);
    } else if s != [] {
      ConsNonIncreasing(x, s, key);
    }
  }

  /** The sort is ordered by key and is a permutation of its input. */
  lemma {:induction false} SortDescSorted<T>(s: seq<T>, key: T -> real)
    ensures NonIncreasing(SortDesc(s, key), key)
    ensures multiset(SortDesc(s, key)) == multiset(s)
  {
    if s != [] {
      SortDescSorted(s[1..], key);
      InsertDescSorted(s[0], SortDesc(s[1..], key), key);
      assert s == [s[0]] + s[1..];
    }
  }

  /** A list already in descending key order, ties included, is returned as it is. */
  lemma {:induction false} SortDescKeepsSorted<T>(s: seq<T>, key: T -> real)
    requires NonIncreasing(s, key)
    ensures SortDesc(s, key) == s
  {
    if s != [] {
      SortDescKeepsSorted(s[1..], key);
      assert s == [s[0]] + s[1..];
    }
  }

  // ---------------------------------------------------------------- comparison metrics

  datatype Comparison = Comparison(top10Overlap: real, rankCorrelation: real, avgPositionChange: real)

  function Urls(results: seq<RankedResult>): (u: seq<string>)
    ensures |u| == |results| && forall i :: 0 <= i < |results| ==> u[i] == results[i].url
  {
    if results == [] then [] else [results[0].url] + Urls(results[1..])
  }

  function Indices(n: nat): (s: seq<nat>)
    ensures |s| == n && forall i :: 0 <= i < n ==> s[i] == i
  {
    if n == 0 then [] else Indices(n - 1) + [n - 1]
  }

  /** `np.argsort(-scores)`, with ties broken by position. */
  function ArgsortDesc(scores: seq<real>): (order: seq<nat>)
  {
    SortDesc(Indices(|scores|), (i: nat) => if i < |scores| then scores[i] else 0.0)
  }

  lemma ArgsortIsPermutation(scores: seq<real>)
    ensures multiset(ArgsortDesc(scores)) == multiset(Indices(|scores|))
    ensures |ArgsortDesc(scores)| == |scores|
    ensures forall k :: 0 <= k < |ArgsortDesc(scores)| ==> ArgsortDesc(scores)[k] < |scores|
  {
    var key := (i: nat) => if i < |scores| then scores[i] else 0.0;
    var order := ArgsortDesc(scores);
    SortDescSorted(Indices(|scores|), key);
    assert |order| == |multiset(order)| == |multiset(Indices(|scores|))| == |scores|;
    forall k | 0 <= k < |order| ensures order[k] < |scores| {
      assert order[k] in multiset(Indices(|scores|));
    }
  }

  function Pick(urls: seq<string>, order: seq<nat>): (r: seq<string>)
    requires forall k :: 0 <= k < |order| ==> order[k] < |urls|
    ensures |r| == |order| && forall k :: 0 <= k < |order| ==> r[k] == urls[order[k]]
  {
    if order == [] then [] else [urls[order[0]]] + Pick(urls, order[1..])
  }

  /** `|i - xgb_urls.index(url)|` for every LLM position `i < n` whose url the model ranking holds. */
  function PositionChanges(llm: seq<string>, xgb: seq<string>, n: nat): (r: seq<real>)
    requires n <= |llm|
    ensures |r| <= n && forall k :: 0 <= k < |r| ==> 0.0 <= r[k]
  {
    if n == 0 then []
    else
      PositionChanges(llm, xgb, n - 1)
      + (if llm[n - 1] in xgb then [Abs((n - 1) as real - IndexOf(xgb, llm[n - 1]) as real)] else [])
  }

  function SetOf(s: seq<string>): set<string> { set u | u in s }

  /**
   * Overlap of the two top-`min(10, n)` url sets as a share of that size
   * (0.0 for no results), the rank correlation (an input here), and the
   * mean position change of the urls (0.0 when there is nothing to compare).
   */
  function ComparisonMetrics(results: seq<RankedResult>, scores: seq<real>, rankCorrelation: real): (c: Comparison)
    requires |scores| == |results|
  {
    ArgsortIsPermutation(scores);
    var llm := Urls(results);
    var xgb := Pick(llm, ArgsortDesc(scores));
    var k := Min(TOP_OVERLAP_K, |results|);
    var shared := SetOf(llm[..k]) * SetOf(xgb[..k]);
    Comparison(
      if k > 0 then |shared| as real / k as real else 0.0,
      rankCorrelation,
      Mean(PositionChanges(llm, xgb, |llm|)))
  }

  predicate DistinctUrls(results: seq<RankedResult>)
  {
    forall i, j :: 0 <= i < j < |results| ==> results[i].url != results[j].url
  }

  lemma {:induction false} DistinctSetCard(s: seq<string>)
    requires forall i, j :: 0 <= i < j < |s| ==> s[i] != s[j]
    ensures |SetOf(s)| == |s|
  {
    if s != [] {
      var init := s[..|s| - 1];
      DistinctSetCard(init);
      assert SetOf(s) == SetOf(init) + {s[|s| - 1]};
      assert s[|s| - 1] !in SetOf(init);
    }
  }

  lemma {:induction false} NoPositionChange(llm: seq<string>, n: nat)
    requires n <= |llm| && forall i, j :: 0 <= i < j < |llm| ==> llm[i] != llm[j]
    ensures PositionChanges(llm, llm, n) == Repeat(0.0, n)
  {
    if n > 0 {
      NoPositionChange(llm, n - 1);
      assert llm[n - 1] in llm;
      assert IndexOf(llm, llm[n - 1]) == n - 1;
      assert Repeat(0.0, n) == Repeat(0.0, n - 1) + [0.0];
    }
  }

  lemma MeanZeros(n: nat)
    ensures Mean(Repeat(0.0, n)) == 0.0
  {
    SumZeros(n);
  }

  lemma {:induction false} SumZeros(n: nat)
    ensures Sum(Repeat(0.0, n)) == 0.0
  {
    if n > 0 {
      SumZeros(n - 1);
      assert Repeat(0.0, n)[1..] == Repeat(0.0, n - 1);
    }
  }

  /**
   * When the model's scores already descend in the LLM order (ties
   * included) and the urls are distinct, the two rankings agree: full top-k
   * overlap and no position change.
   */
  lemma AgreeingRankings(results: seq<RankedResult>, scores: seq<real>, rankCorrelation: real)
    requires |scores| == |results| && |results| > 0 && DistinctUrls(results)
    requires forall i, j :: 0 <= i < j < |scores| ==> scores[j] <= scores[i]
    ensures ComparisonMetrics(results, scores, rankCorrelation).top10Overlap == 1.0
    ensures ComparisonMetrics(results, scores, rankCorrelation).avgPositionChange == 0.0
  {
    ArgsortKeepsOrder(scores);
    var llm := Urls(results);
    assert Pick(llm, Indices(|scores|)) == llm;
    var k := Min(TOP_OVERLAP_K, |results|);
    var top := llm[..k];
    assert forall a, b :: 0 <= a < b < |llm| ==> llm[a] != llm[b] by {
      forall a, b | 0 <= a < b < |llm| ensures llm[a] != llm[b] {
        assert llm[a] == results[a].url && llm[b] == results[b].url;
      }
    }
    assert forall a, b :: 0 <= a < b < |top| ==> top[a] != top[b] by {
      forall a, b | 0 <= a < b < |top| ensures top[a] != top[b] {
        assert top[a] == llm[a] && top[b] == llm[b];
      }
    }
    DistinctSetCard(top);
    assert SetOf(top) * SetOf(top) == SetOf(top);
    DivSelf(k as real);
    NoPositionChange(llm, |llm|);
    MeanZeros(|llm|);
    assert ComparisonMetrics(results, scores, rankCorrelation)
      == Comparison(|SetOf(llm[..k])| as real / k as real, rankCorrelation, Mean(Repeat(0.0, |llm|)));
  }

  /** Scores that already descend (ties included) are ranked in their own order. */
  lemma ArgsortKeepsOrder(scores: seq<real>)
    requires forall i, j :: 0 <= i < j < |scores| ==> scores[j] <= scores[i]
    ensures ArgsortDesc(scores) == Indices(|scores|)
  {
    var key := (i: nat) => if i < |scores| then scores[i] else 0.0;
    SortDescKeepsSorted(Indices(|scores|), key);
  }

  /** The overlap is a share in [0, 1] and the mean position change is non-negative. */
  lemma MetricBounds(results: seq<RankedResult>, scores: seq<real>, rankCorrelation: real)
    requires |scores| == |results|
    ensures 0.0 <= ComparisonMetrics(results, scores, rankCorrelation).top10Overlap <= 1.0
    ensures 0.0 <= ComparisonMetrics(results, scores, rankCorrelation).avgPositionChange
  {
    ArgsortIsPermutation(scores);
    var llm := Urls(results);
    var xgb := Pick(llm, ArgsortDesc(scores));
    var k := Min(TOP_OVERLAP_K, |results|);
    var shared := SetOf(llm[..k]) * SetOf(xgb[..k]);
    if k > 0 {
      ElementsCard(llm[..k]);
      assert shared <= SetOf(llm[..k]);
      assert SetOf(llm[..k]) == shared + (SetOf(llm[..k]) - shared);
      Share(|shared|, k);
    }
    SumNonNegative(PositionChanges(llm, xgb, |llm|));
  }

  lemma {:induction false} ElementsCard(s: seq<string>)
    ensures |SetOf(s)| <= |s|
  {
    if s != [] {
      ElementsCard(s[1..]);
      assert SetOf(s) == SetOf(s[1..]) + {s[0]};
    }
  }

  lemma {:induction false} SumNonNegative(s: seq<real>)
    requires forall k :: 0 <= k < |s| ==> 0.0 <= s[k]
    ensures 0.0 <= Sum(s) && 0.0 <= Mean(s)
  {
    if s != [] {
      SumNonNegative(s[1..]);
    }
  }

  // ---------------------------------------------------------------- re-ranking outcome

  datatype Metadata = Metadata(
    usedMl: bool, shadowMode: bool, avgXgboostScore: real, avgConfidence: real,
    numResults: nat, comparison: Option<Comparison>)

  function ScoreKey(r: RankedResult): real { r.xgboostScore.GetOr(0.0) }

  /** The result with its predicted score and confidence attached as attributes. */
  function AttachOne(r: RankedResult, score: real, confidence: real): RankedResult
  {
    r.(xgboostScore := Some(score), xgboostConfidence := Some(confidence))
  }

  /** Position of the first dict result, or the length when there is none. */
  function FirstDict(results: seq<RankedResult>): (d: nat)
    ensures d <= |results|
    ensures forall k :: 0 <= k < d ==> results[k].shape == ObjectShape
    ensures d < |results| ==> results[d].shape == DictShape
  {
    if results == [] then 0
    else if results[0].shape == DictShape then 0
    else
      var d := FirstDict(results[1..]);
      assert forall k :: 0 <= k < 1 + d ==> results[k].shape == ObjectShape by {
        forall k | 0 <= k < 1 + d ensures results[k].shape == ObjectShape {
          if k > 0 {
            assert results[k] == results[1..][k - 1];
          }
        }
      }
      1 + d
  }

  /**
   * The attribute assignment loop: results before the first dict get their
   * score and confidence attached, the dict raises and the rest stay as
   * they are; the flag says whether it raised.
   */
  function Attach(results: seq<RankedResult>, scores: seq<real>, confidences: seq<real>): (r: (seq<RankedResult>, bool))
    requires |scores| == |results| == |confidences|
    ensures |r.0| == |results|
    ensures r.1 <==> FirstDict(results) < |results|
    ensures forall k :: 0 <= k < |results| ==>
      r.0[k] == if k < FirstDict(results) then AttachOne(results[k], scores[k], confidences[k]) else results[k]
  {
    if results == [] then ([], false)
    else if results[0].shape == DictShape then (results, true)
    else
      var (rest, failed) := Attach(results[1..], scores[1..], confidences[1..]);
      ([AttachOne(results[0], scores[0], confidences[0])] + rest, failed)
  }

  /** What `rerank` returns for the ranker's switches and model. */
  function RerankOutcome(
    enabled: bool, shadow: bool, model: Option<Booster>, results: seq<RankedResult>,
    rankCorrelation: real): (r: (seq<RankedResult>, Metadata))
  {
    var base := Metadata(false, shadow, 0.0, 0.0, |results|, None);
    if !enabled || (model.None? && !shadow) then (results, base)
    else
      match PredictColumn(LlmScores(results), model)
      case Err(_) => (results, base)
      case Ok((scores, confidences)) =>
        var md := base.(avgXgboostScore := Mean(scores), avgConfidence := Mean(confidences));
        if shadow then
          (results, md.(comparison := Some(ComparisonMetrics(results, scores, rankCorrelation))))
        else
          var (attached, failed) := Attach(results, scores, confidences);
          if failed then (attached, md)
          else (SortDesc(attached, ScoreKey), md.(usedMl := true))
  }

  /**
   * Shadow mode and a missing model never reorder: the list comes back as
   * it went in, nothing is marked as ML-ranked, and the result count is
   * recorded. Shadow mode adds the comparison metrics unless the list is
   * empty, when prediction raises.
   */
  lemma OutcomeCases(
    enabled: bool, shadow: bool, model: Option<Booster>, results: seq<RankedResult>, rankCorrelation: real)
    ensures var (out, md) := RerankOutcome(enabled, shadow, model, results, rankCorrelation);
      md.numResults == |results| && md.shadowMode == shadow
      && (!enabled || shadow || model.None? ==> out == results && !md.usedMl)
      && (shadow && enabled && results != [] ==> md.comparison.Some?)
      && (enabled && shadow && model.None? && results == [] ==> md.comparison.None?)
  {
  }

  /**
   * In production mode with object results, the output is sorted by score
   * and is a permutation of the scored input; since the placeholder
   * scores are all zero and the sort is stable, it is the scored input in
   * its original order.
   */
  lemma ProductionSorts(model: Booster, results: seq<RankedResult>, rankCorrelation: real)
    requires forall i :: 0 <= i < |results| ==> results[i].shape == ObjectShape
    ensures var (out, md) := RerankOutcome(true, false, Some(model), results, rankCorrelation);
      md.usedMl && NonIncreasing(out, ScoreKey) && |out| == |results|
      && multiset(out) == multiset(Attach(results, Repeat(0.0, |results|), Repeat(0.0, |results|)).0)
      && out == Attach(results, Repeat(0.0, |results|), Repeat(0.0, |results|)).0
  {
    var zeros := Repeat(0.0, |results|);
    var attached := Attach(results, zeros, zeros).0;
    ZeroScoresInOrder(results);
    SortDescKeepsSorted(attached, ScoreKey);
  }

  /** Object results given the placeholder scores all score zero, so they are already in descending order. */
  lemma ZeroScoresInOrder(results: seq<RankedResult>)
    requires forall i :: 0 <= i < |results| ==> results[i].shape == ObjectShape
    ensures NonIncreasing(Attach(results, Repeat(0.0, |results|), Repeat(0.0, |results|)).0, ScoreKey)
  {
    var zeros := Repeat(0.0, |results|);
    var attached := Attach(results, zeros, zeros).0;
    assert forall k :: 0 <= k < |attached| ==> ScoreKey(attached[k]) == 0.0;
  }

  // ---------------------------------------------------------------- the ranker object

  /** The process-wide `_MODEL_CACHE`: model path to the loaded model. */
  class ModelCache {
    var entries: map<string, Option<Booster>>

    constructor ()
      ensures entries == map[]
    {
      entries := map[];
    }

    /** Only the placeholder `None` is ever stored. */
    predicate OnlyPlaceholders()
      reads this
    {
      forall p :: p in entries ==> entries[p].None?
    }
  }

  class XgboostRanker {
    var enabled: bool
    var modelPath: string
    var confidenceThreshold: real
    var featureVersion: int
    var useShadowMode: bool
    var model: Option<Booster>

    /** Reads the configuration with its defaults and loads the model when enabled. */
    constructor (config: XgboostConfig, cache: ModelCache, fileExists: bool)
      requires cache.OnlyPlaceholders()
      modifies cache
      ensures modelPath == config.modelPath.GetOr(DEFAULT_MODEL_PATH)
      ensures confidenceThreshold == config.confidenceThreshold.GetOr(DEFAULT_CONFIDENCE_THRESHOLD)
      ensures featureVersion == config.featureVersion.GetOr(DEFAULT_FEATURE_VERSION)
      ensures useShadowMode == config.useShadowMode.GetOr(true)
      ensures model == None && cache.OnlyPlaceholders()
      ensures enabled == (config.enabled.GetOr(false)
                          && (modelPath in old(cache.entries) || fileExists || useShadowMode))
    {
      enabled := config.enabled.GetOr(false);
      modelPath := config.modelPath.GetOr(DEFAULT_MODEL_PATH);
      confidenceThreshold := config.confidenceThreshold.GetOr(DEFAULT_CONFIDENCE_THRESHOLD);
      featureVersion := config.featureVersion.GetOr(DEFAULT_FEATURE_VERSION);
      useShadowMode := config.useShadowMode.GetOr(true);
      model := None;
      new;
      if enabled {
        LoadModel(cache, fileExists);
      }
    }

    /**
     * A cached path is reused; a missing file keeps the ranker on in shadow
     * mode and switches it off otherwise; an existing file stores the
     * current (placeholder) model in the cache.
     */
    method LoadModel(cache: ModelCache, fileExists: bool)
      modifies this`enabled, this`model, cache
      ensures modelPath in old(cache.entries) ==>
        model == old(cache.entries)[modelPath] && enabled == old(enabled) && cache.entries == old(cache.entries)
      ensures modelPath !in old(cache.entries) && !fileExists ==>
        model == old(model) && enabled == (old(enabled) && useShadowMode) && cache.entries == old(cache.entries)
      ensures modelPath !in old(cache.entries) && fileExists ==>
        model == old(model) && enabled == old(enabled) && cache.entries == old(cache.entries)[modelPath := old(model)]
      ensures old(cache.OnlyPlaceholders()) && old(model) == None ==> model == None && cache.OnlyPlaceholders()
    {
      if modelPath in cache.entries {
        model := cache.entries[modelPath];
        return;
      }
      if !fileExists {
        if !useShadowMode {
          enabled := false;
        }
        return;
      }
      cache.entries := cache.entries[modelPath := model];
    }

    /** The `n × 29` feature matrix, one row per result. */
    method ExtractFeatures(results: seq<RankedResult>, query: string) returns (features: array2<real>)
      ensures fresh(features)
      ensures features.Length0 == |results| && features.Length1 == TOTAL_FEATURES
      ensures forall i, j :: 0 <= i < |results| && 0 <= j < TOTAL_FEATURES ==>
        features[i, j] == FeatureRow(results, query, i)[j]
    {
      features := new real[|results|, TOTAL_FEATURES]((i, j) => 0.0);
      var queryFeats := ExtractQueryFeatures(query);
      var allScores := CollectLlmScores(results);
      for i := 0 to |results|
        invariant forall r, j :: 0 <= r < i && 0 <= j < TOTAL_FEATURES ==>
          features[r, j] == FeatureRow(results, query, r)[j]
      {
        FillRow(features, results, query, queryFeats, allScores, i);
      }
    }

    /** Row `i` of the matrix: the features of result `i`. */
    method FillRow(features: array2<real>, results: seq<RankedResult>, query: string,
                   queryFeats: QueryFeatures, allScores: seq<real>, i: nat)
      requires i < |results| && queryFeats == ExtractQueryFeatures(query) && allScores == LlmScores(results)
      requires features.Length0 == |results| && features.Length1 == TOTAL_FEATURES
      modifies features
      ensures forall c :: 0 <= c < TOTAL_FEATURES ==> features[i, c] == FeatureRow(results, query, i)[c]
      ensures forall r, c :: 0 <= r < features.Length0 && r != i && 0 <= c < features.Length1 ==>
        features[r, c] == old(features[r, c])
    {
      var row := RowFor(results, query, queryFeats, allScores, i);
      SetRow(features, i, row);
    }

    /** Re-ranks `results`; `rankCorrelation` is the rank correlation of the two orders. */
    method Rerank(results: seq<RankedResult>, query: string, rankCorrelation: real)
      returns (reranked: seq<RankedResult>, metadata: Metadata)
      ensures (reranked, metadata) == RerankOutcome(enabled, useShadowMode, model, results, rankCorrelation)
      ensures useShadowMode || model.None? ==> reranked == results && !metadata.usedMl
    {
      metadata := Metadata(false, useShadowMode, 0.0, 0.0, |results|, None);
      reranked := results;
      if !enabled || (model.None? && !useShadowMode) {
        return;
      }
      var features := ExtractFeatures(results, query);
      var column := Column(features, LLM_FINAL_SCORE, features.Length0);
      forall i | 0 <= i < |results| ensures column[i] == results[i].llmScore {
        RowLlmSlot(results, query, i);
      }
      assert column == LlmScores(results);
      var prediction := Predict(features, model);
      if prediction.Err? {
        return;
      }
      var (scores, confidences) := prediction.value;
      metadata := metadata.(avgXgboostScore := Mean(scores), avgConfidence := Mean(confidences));
      if useShadowMode {
        metadata := metadata.(comparison := Some(ComparisonMetrics(results, scores, rankCorrelation)));
        return;
      }
      var attached, failed := AttachScores(results, scores, confidences);
      if failed {
        reranked := attached;
        return;
      }
      reranked := SortDesc(attached, ScoreKey);
      metadata := metadata.(usedMl := true);
    }
  }

  /** The row of result `i` from the precomputed query features and score list. */
  function RowFor(results: seq<RankedResult>, query: string, queryFeats: QueryFeatures, allScores: seq<real>, i: nat)
    : (v: seq<real>)
    requires i < |results| && queryFeats == ExtractQueryFeatures(query) && allScores == LlmScores(results)
    ensures v == FeatureRow(results, query, i)
  {
    var r := results[i];
    var retrievalPosition := if r.shape == DictShape then i else r.retrievalPosition.GetOr(i);
    var mmr := if r.shape == DictShape then None else r.mmrScore;
    var intent := if r.shape == DictShape then Some("BALANCED") else r.detectedIntent;
    FeatureVector(
      queryFeats,
      ExtractDocumentFeatures(r.title, r.description, r.publishedDate, r.publishedAgeDays, r.author, r.url),
      ExtractQueryDocFeatures(query, r.title, r.description, r.bm25Score, r.vectorScore,
                              r.keywordBoost, r.temporalBoost, r.finalRetrievalScore),
      ExtractRankingFeatures(retrievalPosition, i, r.llmScore, allScores),
      ExtractMmrFeatures(mmr, intent))
  }

  /** The loop that sets `xgboost_score` and `xgboost_confidence` on each result, stopping at a dict. */
  method AttachScores(results: seq<RankedResult>, scores: seq<real>, confidences: seq<real>)
    returns (attached: seq<RankedResult>, failed: bool)
    requires |scores| == |results| == |confidences|
    ensures (attached, failed) == Attach(results, scores, confidences)
  {
    attached := results;
    var i := 0;
    while i < |results|
      invariant 0 <= i <= |results| && |attached| == |results|
      invariant forall k :: 0 <= k < i ==> results[k].shape == ObjectShape
      invariant forall k :: 0 <= k < |results| ==>
        attached[k] == if k < i then AttachOne(results[k], scores[k], confidences[k]) else results[k]
    {
      if results[i].shape == DictShape {
        assert FirstDict(results) == i;
        assert attached == Attach(results, scores, confidences).0;
        return attached, true;
      }
      attached := attached[i := AttachOne(results[i], scores[i], confidences[i])];
      i := i + 1;
    }
    assert FirstDict(results) == |results|;
    assert attached == Attach(results, scores, confidences).0;
    return attached, false;
  }

  /** The loop that gathers `all_llm_scores`. */
  method CollectLlmScores(results: seq<RankedResult>) returns (allScores: seq<real>)
    ensures allScores == LlmScores(results)
  {
    allScores := [];
    for k := 0 to |results|
      invariant allScores == LlmScores(results[..k])
    {
      LlmScoresSnoc(results, k);
      allScores := allScores + [results[k].llmScore];
    }
    assert results[..|results|] == results;
  }

  lemma LlmScoresSnoc(results: seq<RankedResult>, k: nat)
    requires k < |results|
    ensures LlmScores(results[..k + 1]) == LlmScores(results[..k]) + [results[k].llmScore]
  {
  }

  /** `features[i, :] = row` */
  method SetRow(features: array2<real>, i: nat, row: seq<real>)
    requires i < features.Length0 && |row| == features.Length1
    modifies features
    ensures forall c :: 0 <= c < features.Length1 ==> features[i, c] == row[c]
    ensures forall r, c :: 0 <= r < features.Length0 && r != i && 0 <= c < features.Length1 ==>
      features[r, c] == old(features[r, c])
  {
    for j := 0 to features.Length1
      invariant forall c :: 0 <= c < j ==> features[i, c] == row[c]
      invariant forall r, c :: 0 <= r < features.Length0 && r != i && 0 <= c < features.Length1 ==>
        features[r, c] == old(features[r, c])
    {
      features[i, j] := row[j];
    }
  }
}
