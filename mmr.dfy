/**
 * Maximal Marginal Relevance re-ranking: a greedy selection that trades a
 * document's (min-max normalised) relevance against its highest cosine
 * similarity to the documents already picked, with the trade-off λ chosen
 * from the query's intent.
 *
 * The floating-point quotient `dot(v1, v2) / (|v1| * |v2|)` that the
 * numeric library computes is a parameter (`quotient`); the zero-norm test,
 * the length check and the clamp to [0, 1] around it are modelled.
 */
module Mmr {
  import opened Wrappers
  import opened Text

  type Vec = seq<real>

  /** One ranked result: its title, url, `ranking.score` (0 when absent) and its embedding, if any. */
  datatype Doc = Doc(name: string, url: string, score: real, vector: Option<Vec>)

  datatype Intent = Specific | Exploratory | Balanced

  const DEFAULT_LAMBDA: real := 0.7
  const SPECIFIC_LAMBDA: real := 0.8
  const EXPLORATORY_LAMBDA: real := 0.5

  /** More candidates than this are needed before MMR runs at all. */
  const MIN_CANDIDATES: nat := 3

  const SpecificIndicators: seq<string> := [
    "how to", "如何", "怎麼", "怎么",
    "what is", "什麼是", "什么是",
    "where", "哪裡", "哪里",
    "when", "什麼時候", "什么时候"]

  const ExploratoryIndicators: seq<string> := [
    "best", "最好", "推薦", "推荐",
    "ideas", "點子", "想法",
    "options", "選項", "选项",
    "alternatives", "替代", "其他",
    "trends", "趨勢", "趋势",
    "popular", "熱門", "热门",
    "methods", "ways", "方法", "方式"]

  /**
   * Intent of a non-empty query and the λ that goes with it: more specific
   * cues than exploratory ones give (0.8, SPECIFIC), the reverse gives
   * (0.5, EXPLORATORY), and a tie keeps the configured λ.
   */
  function Classify(query: string, lambda: real): (r: (real, Intent))
  {
    var specific := CountIn(SpecificIndicators, Lower(query));
    var exploratory := CountIn(ExploratoryIndicators, Lower(query));
    if specific > exploratory then (SPECIFIC_LAMBDA, Specific)
    else if exploratory > specific then (EXPLORATORY_LAMBDA, Exploratory)
    else (lambda, Balanced)
  }

  /** The three outcomes of the intent vote, each with its λ. */
  lemma ClassifyOutcomes(query: string, lambda: real)
    ensures var (l, intent) := Classify(query, lambda);
      var s := CountIn(SpecificIndicators, Lower(query));
      var e := CountIn(ExploratoryIndicators, Lower(query));
      (intent == Specific <==> s > e) && (intent == Exploratory <==> e > s)
      && (intent == Balanced <==> s == e)
      && (intent == Specific ==> l == SPECIFIC_LAMBDA)
      && (intent == Exploratory ==> l == EXPLORATORY_LAMBDA)
      && (intent == Balanced ==> l == lambda)
  {
  }

  /** A query without any cue of either kind is BALANCED and keeps λ. */
  lemma NoCueIsBalanced(query: string, lambda: real)
    requires !AnyIn(SpecificIndicators, Lower(query)) && !AnyIn(ExploratoryIndicators, Lower(query))
    ensures Classify(query, lambda) == (lambda, Balanced)
  {
  }

  // ---------------------------------------------------------------- cosine

  /** The squared Euclidean norm; the norm is zero exactly when this is. */
  function NormSq(a: Vec): real
  {
    if a == [] then 0.0 else a[0] * a[0] + NormSq(a[1..])
  }

  function Clamp01(x: real): (r: real)
    ensures 0.0 <= r <= 1.0
    ensures 0.0 <= x <= 1.0 ==> r == x
  {
    if x < 0.0 then 0.0 else if x > 1.0 then 1.0 else x
  }

  /**
   * `cosine_similarity`: vectors of different lengths make the library raise,
   * which the source turns into 0.0; a zero norm gives 0.0; otherwise the
   * quotient clamped to [0, 1].
   */
  function Cosine(v1: Vec, v2: Vec, quotient: (Vec, Vec) -> real): (r: real)
    ensures 0.0 <= r <= 1.0
    ensures NormSq(v1) == 0.0 || NormSq(v2) == 0.0 ==> r == 0.0
    ensures |v1| != |v2| ==> r == 0.0
  {
    if |v1| != |v2| then 0.0
    else if NormSq(v1) == 0.0 || NormSq(v2) == 0.0 then 0.0
    else Clamp01(quotient(v1, v2))
  }

  // ---------------------------------------------------------------- the greedy selection

  /** A result that carries an embedding. */
  datatype Cand = Cand(doc: Doc, vec: Vec)

  /** λ, the score normalisation, and the similarity quotient for one re-ranking. */
  datatype Setting = Setting(lambda: real, minScore: real, range: real, quotient: (Vec, Vec) -> real)

  /** `[r for r in results if r has a vector]` */
  function Candidates(results: seq<Doc>): (cs: seq<Cand>)
    ensures |cs| <= |results|
    ensures forall i :: 0 <= i < |cs| ==> cs[i].doc.vector == Some(cs[i].vec)
  {
    if results == [] then []
    else
      var rest := Candidates(results[1..]);
      match results[0].vector
      case Some(v) => [Cand(results[0], v)] + rest
      case None => rest
  }

  /** `[r for r in results if r has no vector]` */
  function NonVector(results: seq<Doc>): (ds: seq<Doc>)
    ensures |ds| <= |results|
    ensures forall i :: 0 <= i < |ds| ==> ds[i].vector.None?
  {
    if results == [] then []
    else (if results[0].vector.None? then [results[0]] else []) + NonVector(results[1..])
  }

  function Scores(cs: seq<Cand>): (s: seq<real>)
    ensures |s| == |cs|
    ensures forall i :: 0 <= i < |cs| ==> s[i] == cs[i].doc.score
  {
    if cs == [] then [] else [cs[0].doc.score] + Scores(cs[1..])
  }

  function MinOf(s: seq<real>): (m: real)
    requires |s| > 0
    ensures m in s && forall i :: 0 <= i < |s| ==> m <= s[i]
  {
    if |s| == 1 then s[0] else var r := MinOf(s[1..]); if s[0] <= r then s[0] else r
  }

  /** min/max of the candidate scores, and `max - min`, or 1.0 when all scores are equal. */
  function Normalisation(cs: seq<Cand>, lambda: real, quotient: (Vec, Vec) -> real): (st: Setting)
    requires |cs| > 0
    ensures st.range > 0.0 && st.lambda == lambda && st.quotient == quotient
    ensures forall i :: 0 <= i < |cs| ==> st.minScore <= cs[i].doc.score <= st.minScore + st.range
    ensures exists i :: 0 <= i < |cs| && cs[i].doc.score == st.minScore
  {
    var s := Scores(cs);
    var hi := MaxOf(s);
    var lo := MinOf(s);
    Setting(lambda, lo, if hi != lo then hi - lo else 1.0, quotient)
  }

  /** Min-max normalised relevance. */
  function Relevance(c: Cand, st: Setting): real
    requires st.range > 0.0
  {
    (c.doc.score - st.minScore) / st.range
  }

  lemma RelevanceInUnitRange(c: Cand, st: Setting)
    requires st.range > 0.0
    requires st.minScore <= c.doc.score <= st.minScore + st.range
    ensures 0.0 <= Relevance(c, st) <= 1.0
  {
    UnitQuotient(c.doc.score - st.minScore, st.range);
  }

  lemma UnitQuotient(x: real, y: real)
    requires 0.0 <= x <= y && y > 0.0
    ensures 0.0 <= x / y <= 1.0
  {
  }

  /** Highest similarity of `cs[j]` to the first `k` selected documents, starting from 0.0. */
  function MaxSimPrefix(cs: seq<Cand>, st: Setting, sel: seq<nat>, j: nat, k: nat): (m: real)
    requires j < |cs| && k <= |sel| && forall i :: 0 <= i < |sel| ==> sel[i] < |cs|
    ensures 0.0 <= m <= 1.0
  {
    if k == 0 then 0.0
    else
      var prev := MaxSimPrefix(cs, st, sel, j, k - 1);
      var sim := Cosine(cs[j].vec, cs[sel[k - 1]].vec, st.quotient);
      if prev >= sim then prev else sim
  }

  predicate ValidSel(cs: seq<Cand>, sel: seq<nat>)
  {
    forall i :: 0 <= i < |sel| ==> sel[i] < |cs|
  }

  /** `λ · relevance − (1 − λ) · max similarity to the selection` */
  function MmrScore(cs: seq<Cand>, st: Setting, sel: seq<nat>, j: nat): real
    requires j < |cs| && ValidSel(cs, sel) && st.range > 0.0
  {
    st.lambda * Relevance(cs[j], st) - (1.0 - st.lambda) * MaxSimPrefix(cs, st, sel, j, |sel|)
  }

  /**
   * The scan over candidates `0 .. n-1`: the unselected one with the highest
   * MMR score, an earlier one winning ties (the comparison is strict).
   */
  function BestUpTo(cs: seq<Cand>, st: Setting, sel: seq<nat>, n: nat): (b: Option<nat>)
    requires n <= |cs| && ValidSel(cs, sel) && st.range > 0.0
    ensures b.Some? ==> b.value < n && b.value !in sel
  {
    if n == 0 then None
    else
      var prev := BestUpTo(cs, st, sel, n - 1);
      if n - 1 in sel then prev
      else match prev
        case None => Some(n - 1)
        case Some(k) =>
          if MmrScore(cs, st, sel, n - 1) > MmrScore(cs, st, sel, k) then Some(n - 1) else prev
  }

  /** The scan's pick is an argmax over the unselected candidates, and the earliest one. */
  lemma {:induction false} BestIsFirstArgmax(cs: seq<Cand>, st: Setting, sel: seq<nat>, n: nat)
    requires n <= |cs| && ValidSel(cs, sel) && st.range > 0.0
    ensures (exists j :: 0 <= j < n && j !in sel) <==> BestUpTo(cs, st, sel, n).Some?
    ensures BestUpTo(cs, st, sel, n).Some? ==>
      var b := BestUpTo(cs, st, sel, n).value;
      (forall j :: 0 <= j < n && j !in sel ==> MmrScore(cs, st, sel, j) <= MmrScore(cs, st, sel, b))
      && (forall j :: 0 <= j < b && j !in sel ==> MmrScore(cs, st, sel, j) < MmrScore(cs, st, sel, b))
  {
    if n > 0 {
      BestIsFirstArgmax(cs, st, sel, n - 1);
    }
  }

  /**
   * `t` rounds of selection: round 1 takes the first candidate with its
   * normalised relevance; every later round appends the scan's pick and its
   * MMR score.
   */
  function Greedy(cs: seq<Cand>, st: Setting, t: nat): (r: (seq<nat>, seq<real>))
    requires |cs| > 0 && t >= 1 && st.range > 0.0
    ensures |r.0| == |r.1| && 1 <= |r.0| <= t && r.0[0] == 0
    ensures ValidSel(cs, r.0)
  {
    if t == 1 then ([0], [Relevance(cs[0], st)])
    else
      var prev := Greedy(cs, st, t - 1);
      match BestUpTo(cs, st, prev.0, |cs|)
      case Some(b) => (prev.0 + [b], prev.1 + [MmrScore(cs, st, prev.0, b)])
      case None => prev
  }

  predicate Distinct(s: seq<nat>)
  {
    forall i, j :: 0 <= i < j < |s| ==> s[i] != s[j]
  }

  /** `set(range(n))`, built up one element at a time so that its size is known. */
  function Range(n: nat): (r: set<int>)
    ensures forall x :: x in r <==> 0 <= x < n
    ensures |r| == n
  {
    if n == 0 then {}
    else
      var r := Range(n - 1);
      assert n - 1 !in r;
      r + {n - 1}
  }

  /** A list has at least as many entries as distinct values. */
  lemma {:induction false} ElementsCard(s: seq<nat>)
    ensures |set x: int | x in s| <= |s|
  {
    if s != [] {
      ElementsCard(s[1..]);
      assert (set x: int | x in s) == (set x: int | x in s[1..]) + {s[0] as int};
    }
  }

  /** Fewer picks than candidates leave some candidate unpicked. */
  lemma Unpicked(cs: seq<Cand>, sel: seq<nat>)
    requires |sel| < |cs|
    ensures exists j :: 0 <= j < |cs| && j !in sel
  {
    var picked := set x: int | x in sel;
    var all := Range(|cs|);
    ElementsCard(sel);
    SubsetCard(all, picked);
  }

  lemma SubsetCard(a: set<int>, b: set<int>)
    ensures a <= b ==> |a| <= |b|
  {
    if a <= b {
      assert b == a + (b - a);
    }
  }

  /** Every pick after the first is the scan's choice over the picks before it, with its MMR score. */
  predicate ScanSteps(cs: seq<Cand>, st: Setting, p: seq<nat>, s: seq<real>)
    requires ValidSel(cs, p) && |p| == |s| && st.range > 0.0
  {
    forall i :: 1 <= i < |p| ==>
      BestUpTo(cs, st, p[..i], |cs|) == Some(p[i]) && s[i] == MmrScore(cs, st, p[..i], p[i])
  }

  /** Round 1 scores the first candidate by relevance; each later round records a scan. */
  lemma {:induction false} GreedySteps(cs: seq<Cand>, st: Setting, t: nat)
    requires |cs| > 0 && t >= 1 && st.range > 0.0
    ensures Greedy(cs, st, t).1[0] == Relevance(cs[0], st)
    ensures ScanSteps(cs, st, Greedy(cs, st, t).0, Greedy(cs, st, t).1)
  {
    if t > 1 {
      GreedySteps(cs, st, t - 1);
      var prev := Greedy(cs, st, t - 1);
      var p := prev.0;
      var best := BestUpTo(cs, st, p, |cs|);
      if best.Some? {
        var p' := p + [best.value];
        assert p'[..|p|] == p;
        forall i | 1 <= i < |p| ensures p'[..i] == p[..i] {
        }
      }
    }
  }

  /** No candidate is picked twice. */
  lemma {:induction false} GreedyDistinct(cs: seq<Cand>, st: Setting, t: nat)
    requires |cs| > 0 && t >= 1 && st.range > 0.0
    ensures Distinct(Greedy(cs, st, t).0)
  {
    if t > 1 {
      GreedyDistinct(cs, st, t - 1);
    }
  }

  /** While candidates last every round picks one: `t` rounds give `t` picks. */
  lemma {:induction false} GreedyLength(cs: seq<Cand>, st: Setting, t: nat)
    requires |cs| > 0 && 1 <= t <= |cs| && st.range > 0.0
    ensures |Greedy(cs, st, t).0| == t
  {
    if t > 1 {
      GreedyLength(cs, st, t - 1);
      var p := Greedy(cs, st, t - 1).0;
      Unpicked(cs, p);
      BestIsFirstArgmax(cs, st, p, |cs|);
    }
  }

  /**
   * Each pick after the first maximises the MMR score over the candidates not
   * yet picked, and no earlier unpicked candidate ties with it.
   */
  lemma LaterPicksMaximise(cs: seq<Cand>, st: Setting, t: nat, i: nat, j: nat)
    requires |cs| > 0 && t >= 1 && st.range > 0.0
    requires 1 <= i < |Greedy(cs, st, t).0| && j < |cs|
    ensures var p := Greedy(cs, st, t).0;
      j !in p[..i] ==> MmrScore(cs, st, p[..i], j) <= MmrScore(cs, st, p[..i], p[i])
    ensures var p := Greedy(cs, st, t).0;
      j !in p[..i] && j < p[i] ==> MmrScore(cs, st, p[..i], j) < MmrScore(cs, st, p[..i], p[i])
  {
    GreedySteps(cs, st, t);
    var p := Greedy(cs, st, t).0;
    assert ValidSel(cs, p[..i]);
    BestIsFirstArgmax(cs, st, p[..i], |cs|);
  }

  /** With λ = 1 similarity is ignored, so the picks after the first come in descending relevance. */
  lemma PureRelevanceDescends(cs: seq<Cand>, st: Setting, t: nat, i: nat)
    requires |cs| > 0 && t >= 1 && st.range > 0.0 && st.lambda == 1.0
    requires 1 <= i && i + 1 < |Greedy(cs, st, t).0|
    ensures var p := Greedy(cs, st, t).0;
      Relevance(cs[p[i + 1]], st) <= Relevance(cs[p[i]], st)
  {
    GreedyDistinct(cs, st, t);
    var p := Greedy(cs, st, t).0;
    assert p[i + 1] !in p[..i + 1];
    assert p[..i + 1] == p[..i] + [p[i]];
    assert p[i + 1] !in p[..i];
    LaterPicksMaximise(cs, st, t, i, p[i + 1]);
  }

  // ---------------------------------------------------------------- the result lists

  function PickedDocs(cs: seq<Cand>, p: seq<nat>): (ds: seq<Doc>)
    requires ValidSel(cs, p)
    ensures |ds| == |p|
    ensures forall i :: 0 <= i < |p| ==> ds[i] == cs[p[i]].doc
  {
    if p == [] then [] else [cs[p[0]].doc] + PickedDocs(cs, p[1..])
  }

  /** Number of selection rounds: `1 + len(range(1, min(top_k, n)))`. */
  function Rounds(topK: int, n: nat): (t: nat)
    ensures t >= 1
  {
    if Min(topK, n) > 1 then Min(topK, n) else 1
  }

  /**
   * Padding after the selection: while fewer than `top_k` documents were
   * picked, results without an embedding are appended in input order, each
   * with score 0.0.
   */
  function Pad(picked: seq<Doc>, s: seq<real>, nv: seq<Doc>, topK: int): (r: (seq<Doc>, seq<real>))
  {
    var remaining := topK - |picked|;
    if remaining > 0 && nv != [] then
      (picked + SliceTo(nv, remaining), s + Repeat(0.0, Min(remaining, |nv|)))
    else (picked, s)
  }

  lemma PadShape(picked: seq<Doc>, s: seq<real>, nv: seq<Doc>, topK: int)
    requires |picked| == |s|
    ensures var (docs, scores) := Pad(picked, s, nv, topK);
      |docs| == |scores| && docs[..|picked|] == picked && scores[..|s|] == s
      && docs[|picked|..] == (if topK > |picked| then SliceTo(nv, topK - |picked|) else [])
      && (forall i :: |s| <= i < |scores| ==> scores[i] == 0.0)
      && (topK >= |picked| ==> |docs| <= topK)
  {
    var (docs, scores) := Pad(picked, s, nv, topK);
    assert docs[..|picked|] == picked;
    assert scores[..|s|] == s;
  }

  /** The MMR branch: the greedy rounds over the embedded results, then padding. */
  function MmrResult(results: seq<Doc>, topK: int, lambda: real, quotient: (Vec, Vec) -> real)
    : (r: (seq<Doc>, seq<real>))
    requires |Candidates(results)| > 0
  {
    var cs := Candidates(results);
    var st := Normalisation(cs, lambda, quotient);
    var (p, s) := Greedy(cs, st, Rounds(topK, |cs|));
    Pad(PickedDocs(cs, p), s, NonVector(results), topK)
  }

  /** The two lists `rerank` returns, as a function of its inputs. */
  function RerankSpec(results: seq<Doc>, topK: int, lambda: real, quotient: (Vec, Vec) -> real)
    : (r: (seq<Doc>, seq<real>))
  {
    if results == [] then ([], [])
    else if |Candidates(results)| <= MIN_CANDIDATES then
      (SliceTo(results, topK), Repeat(0.0, Min(topK, |results|)))
    else MmrResult(results, topK, lambda, quotient)
  }

  /** Empty input gives two empty lists; with at most three embedded results nothing is re-ranked. */
  lemma RerankShortcuts(results: seq<Doc>, topK: int, lambda: real, quotient: (Vec, Vec) -> real)
    ensures results == [] ==> RerankSpec(results, topK, lambda, quotient) == ([], [])
    ensures results != [] && |Candidates(results)| <= MIN_CANDIDATES ==>
      RerankSpec(results, topK, lambda, quotient)
        == (SliceTo(results, topK), Repeat(0.0, Min(topK, |results|)))
  {
  }

  /**
   * When MMR runs, the `max(1, min(top_k, candidates))` embedded picks come
   * first, with their round scores, the first of them being the first
   * embedded result with its normalised relevance in [0, 1].
   */
  lemma RerankPicksFirst(results: seq<Doc>, topK: int, lambda: real, quotient: (Vec, Vec) -> real)
    requires |Candidates(results)| > MIN_CANDIDATES
    ensures var cs := Candidates(results);
      var st := Normalisation(cs, lambda, quotient);
      var (docs, scores) := RerankSpec(results, topK, lambda, quotient);
      var k := Rounds(topK, |cs|);
      var (p, s) := Greedy(cs, st, k);
      |docs| == |scores| && k <= |docs| && |p| == k
      && docs[..k] == PickedDocs(cs, p) && scores[..k] == s
      && docs[0] == cs[0].doc && scores[0] == Relevance(cs[0], st) && 0.0 <= scores[0] <= 1.0
  {
    var cs := Candidates(results);
    var st := Normalisation(cs, lambda, quotient);
    var k := Rounds(topK, |cs|);
    GreedyLength(cs, st, k);
    GreedySteps(cs, st, k);
    RelevanceInUnitRange(cs[0], st);
    var (p, s) := Greedy(cs, st, k);
    PadShape(PickedDocs(cs, p), s, NonVector(results), topK);
  }

  /**
   * When MMR runs, everything after the picks is a result without an
   * embedding, taken in input order, with score 0.0.
   */
  lemma RerankPadding(results: seq<Doc>, topK: int, lambda: real, quotient: (Vec, Vec) -> real)
    requires |Candidates(results)| > MIN_CANDIDATES
    ensures var cs := Candidates(results);
      var (docs, scores) := RerankSpec(results, topK, lambda, quotient);
      var k := Rounds(topK, |cs|);
      k <= |docs|
      && docs[k..] == (if topK > k then SliceTo(NonVector(results), topK - k) else [])
      && (forall i :: k <= i < |docs| ==> scores[i] == 0.0 && docs[i].vector.None?)
  {
    var cs := Candidates(results);
    var st := Normalisation(cs, lambda, quotient);
    var k := Rounds(topK, |cs|);
    GreedyLength(cs, st, k);
    var (p, s) := Greedy(cs, st, k);
    var nv := NonVector(results);
    PadShape(PickedDocs(cs, p), s, nv, topK);
    var docs := RerankSpec(results, topK, lambda, quotient).0;
    forall i | k <= i < |docs| ensures docs[i].vector.None? {
      assert docs[i] == docs[k..][i - k];
    }
  }

  /** For `top_k >= 1` both lists have the same length, at most `top_k`. */
  lemma RerankLength(results: seq<Doc>, topK: int, lambda: real, quotient: (Vec, Vec) -> real)
    requires topK >= 1
    ensures var (docs, scores) := RerankSpec(results, topK, lambda, quotient);
      |docs| == |scores| <= topK
  {
    var cs := Candidates(results);
    if results != [] && |cs| > MIN_CANDIDATES {
      var st := Normalisation(cs, lambda, quotient);
      var k := Rounds(topK, |cs|);
      GreedyLength(cs, st, k);
      var (p, s) := Greedy(cs, st, k);
      PadShape(PickedDocs(cs, p), s, NonVector(results), topK);
    }
  }

  // ---------------------------------------------------------------- the re-ranker object

  class MmrReranker {
    var lambda: real
    var query: string
    var detectedIntent: Intent

    constructor (lambdaParam: real, query: string)
      ensures this.query == query
      ensures query == [] ==> lambda == lambdaParam && detectedIntent == Balanced
      ensures query != [] ==> (lambda, detectedIntent) == Classify(query, lambdaParam)
    {
      this.lambda := lambdaParam;
      this.query := query;
      this.detectedIntent := Balanced;
      new;
      this.lambda := DetectIntentAndAdjustLambda(query);
    }

    /** Returns the λ for `query`; records the detected intent unless the query is empty. */
    method DetectIntentAndAdjustLambda(query: string) returns (adjusted: real)
      modifies this`detectedIntent
      ensures query == [] ==> adjusted == lambda && detectedIntent == old(detectedIntent)
      ensures query != [] ==> (adjusted, detectedIntent) == Classify(query, lambda)
    {
      if query == [] {
        return lambda;
      }
      var lowered := Lower(query);
      var specific := CountIn(SpecificIndicators, lowered);
      var exploratory := CountIn(ExploratoryIndicators, lowered);
      if specific > exploratory {
        adjusted := SPECIFIC_LAMBDA;
        detectedIntent := Specific;
      } else if exploratory > specific {
        adjusted := EXPLORATORY_LAMBDA;
        detectedIntent := Exploratory;
      } else {
        adjusted := lambda;
        detectedIntent := Balanced;
      }
    }

    /** Greedy MMR selection, then padding with results that have no embedding. */
    method Rerank(results: seq<Doc>, topK: int, quotient: (Vec, Vec) -> real)
      returns (docs: seq<Doc>, scores: seq<real>)
      ensures (docs, scores) == RerankSpec(results, topK, lambda, quotient)
    {
      if results == [] {
        return [], [];
      }
      var cs := Candidates(results);
      if |cs| <= MIN_CANDIDATES {
        return SliceTo(results, topK), Repeat(0.0, Min(topK, |results|));
      }
      var st := Normalisation(cs, lambda, quotient);
      var selected, mmrScores := SelectGreedy(cs, st, topK);
      docs, scores := PickedDocs(cs, selected), mmrScores;
      var nonVector := NonVector(results);
      var remaining := topK - |selected|;
      if remaining > 0 && nonVector != [] {
        docs := docs + SliceTo(nonVector, remaining);
        scores := scores + Repeat(0.0, Min(remaining, |nonVector|));
      }
      assert (docs, scores) == Pad(PickedDocs(cs, selected), mmrScores, nonVector, topK);
      assert (docs, scores) == MmrResult(results, topK, lambda, quotient);
    }
  }

  /** The selection rounds: the first candidate, then one scan per round up to `min(top_k, n)`. */
  method SelectGreedy(cs: seq<Cand>, st: Setting, topK: int) returns (selected: seq<nat>, mmrScores: seq<real>)
    requires |cs| > 0 && st.range > 0.0
    ensures (selected, mmrScores) == Greedy(cs, st, Rounds(topK, |cs|))
  {
    selected := [0];
    mmrScores := [(cs[0].doc.score - st.minScore) / st.range];
    var limit := Min(topK, |cs|);
    var iteration := 1;
    while iteration < limit
      invariant 1 <= iteration <= Max(1, limit)
      invariant (selected, mmrScores) == Greedy(cs, st, iteration)
    {
      var best, bestScore := ScanBest(cs, st, selected);
      if best.Some? {
        selected := selected + [best.value];
        mmrScores := mmrScores + [bestScore];
      }
      iteration := iteration + 1;
    }
  }

  /** One round's scan: the unselected candidate with the highest MMR score, the first on ties. */
  method ScanBest(cs: seq<Cand>, st: Setting, selected: seq<nat>) returns (best: Option<nat>, bestScore: real)
    requires ValidSel(cs, selected) && st.range > 0.0
    ensures best == BestUpTo(cs, st, selected, |cs|)
    ensures best.Some? ==> bestScore == MmrScore(cs, st, selected, best.value)
  {
    best, bestScore := None, 0.0;
    var idx := 0;
    while idx < |cs|
      invariant 0 <= idx <= |cs|
      invariant best == BestUpTo(cs, st, selected, idx)
      invariant best.Some? ==> bestScore == MmrScore(cs, st, selected, best.value)
    {
      if idx !in selected {
        var relevance := (cs[idx].doc.score - st.minScore) / st.range;
        var maxSimilarity := MaxSimilarity(cs, st, selected, idx);
        var mmr := st.lambda * relevance - (1.0 - st.lambda) * maxSimilarity;
        assert mmr == MmrScore(cs, st, selected, idx);
        if best.None? || mmr > bestScore {
          best, bestScore := Some(idx), mmr;
        }
      }
      idx := idx + 1;
    }
  }

  /** Highest cosine similarity of candidate `idx` to the selected ones, starting from 0.0. */
  method MaxSimilarity(cs: seq<Cand>, st: Setting, selected: seq<nat>, idx: nat) returns (m: real)
    requires idx < |cs| && ValidSel(cs, selected)
    ensures m == MaxSimPrefix(cs, st, selected, idx, |selected|)
    ensures 0.0 <= m <= 1.0
  {
    m := 0.0;
    var k := 0;
    while k < |selected|
      invariant 0 <= k <= |selected|
      invariant m == MaxSimPrefix(cs, st, selected, idx, k)
    {
      var similarity := Cosine(cs[idx].vec, cs[selected[k]].vec, st.quotient);
      if similarity > m {
        m := similarity;
      }
      k := k + 1;
    }
  }
}
