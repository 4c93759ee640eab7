/**
 * The proof-of-concept length analysis: sentences (cut as the semantic
 * chunker cuts them) are packed greedily into chunks of about a target
 * length, a short remainder is merged into the chunk before it, and the
 * cohesion inside chunks and the similarity between neighbouring chunks are
 * gathered over a set of articles.
 *
 * The embedding model, the cosine and the chunk centroid (`np.mean` over the
 * rows) are parameters of the chunker.
 */
module PocLengthAnalysis {
  import opened Wrappers
  import opened Text
  import opened Values
  import PocChunking

  type Vec = seq<real>

  const DEFAULT_TARGET_LENGTH: int := 300
  const DEFAULT_MIN_LENGTH: int := 100
  /** Bodies shorter than this are skipped by the analysis. */
  const MIN_BODY_LENGTH: nat := 100

  /** One chunk: its sentences, their embeddings, their join and its character count. */
  datatype LengthChunk = LengthChunk(sentences: seq<string>, embeddings: seq<Vec>, text: string, charCount: nat)

  // ---------------------------------------------------------------------
  // Packing sentences by length
  // ---------------------------------------------------------------------

  /** The summed lengths of the sentences. */
  function TotalLen(xs: seq<string>): nat
  {
    if xs == [] then 0 else TotalLen(xs[..|xs| - 1]) + |xs[|xs| - 1]|
  }

  /** The summed lengths are the length of the joined text. */
  lemma {:induction false} TotalLenIsLength(xs: seq<string>)
    ensures TotalLen(xs) == |Concat(xs)|
    decreases |xs|
  {
    if xs != [] {
      TotalLenIsLength(xs[..|xs| - 1]);
    }
  }

  lemma TotalLenPush(xs: seq<string>, s: string)
    ensures TotalLen(xs + [s]) == TotalLen(xs) + |s|
  {
    assert (xs + [s])[..|xs|] == xs;
  }

  /** The sentences of the groups, in order. */
  function Joined(gs: seq<seq<string>>): seq<string>
  {
    if gs == [] then [] else Joined(gs[..|gs| - 1]) + gs[|gs| - 1]
  }

  lemma JoinedPush(gs: seq<seq<string>>, g: seq<string>)
    ensures Joined(gs + [g]) == Joined(gs) + g
  {
    assert (gs + [g])[..|gs|] == gs;
  }

  predicate NonEmpty(gs: seq<seq<string>>)
  {
    forall i :: 0 <= i < |gs| ==> gs[i] != []
  }

  /** A group of two sentences or more stays within the target length. */
  predicate Fits(g: seq<string>, target: int)
  {
    |g| >= 2 ==> TotalLen(g) <= target
  }

  predicate AllFit(gs: seq<seq<string>>, target: int)
  {
    forall i :: 0 <= i < |gs| ==> Fits(gs[i], target)
  }

  /** The groups closed so far and the group under way. */
  datatype Progress = Progress(closed: seq<seq<string>>, current: seq<string>)

  /** One turn of the packing loop: close the group under way if the sentence would overflow it, then add the sentence. */
  function Step(p: Progress, s: string, target: int): Progress
  {
    if TotalLen(p.current) + |s| > target && p.current != [] then Progress(p.closed + [p.current], [s])
    else Progress(p.closed, p.current + [s])
  }

  /** The packing loop over all the sentences. */
  function Greedy(xs: seq<string>, target: int): Progress
  {
    if xs == [] then Progress([], []) else Step(Greedy(xs[..|xs| - 1], target), xs[|xs| - 1], target)
  }

  /** The groups and the group under way hold the sentences, in order, and no group is empty. */
  predicate Covers(p: Progress, xs: seq<string>)
  {
    Joined(p.closed) + p.current == xs && NonEmpty(p.closed)
    && (xs == [] ==> p.closed == []) && (xs != [] ==> p.current != [])
  }

  lemma {:induction false} GreedyCovers(xs: seq<string>, target: int)
    ensures Covers(Greedy(xs, target), xs)
    decreases |xs|
  {
    if xs != [] {
      var init, s := xs[..|xs| - 1], xs[|xs| - 1];
      GreedyCovers(init, target);
      assert xs == init + [s];
      StepCovers(Greedy(init, target), init, s, target);
    }
  }

  lemma StepCovers(p: Progress, xs: seq<string>, s: string, target: int)
    requires Covers(p, xs)
    ensures Covers(Step(p, s, target), xs + [s])
  {
    if TotalLen(p.current) + |s| > target && p.current != [] {
      CloseCovers(p, xs, s);
    } else {
      assert Joined(p.closed) + (p.current + [s]) == (Joined(p.closed) + p.current) + [s];
    }
  }

  lemma CloseCovers(p: Progress, xs: seq<string>, s: string)
    requires Covers(p, xs) && p.current != []
    ensures Covers(Progress(p.closed + [p.current], [s]), xs + [s])
  {
    JoinedPush(p.closed, p.current);
    assert (p.closed + [p.current])[|p.closed|] == p.current;
  }

  /** Every group the packing loop forms, closed or under way, fits the target. */
  lemma {:induction false} GreedyFits(xs: seq<string>, target: int)
    ensures AllFit(Greedy(xs, target).closed, target) && Fits(Greedy(xs, target).current, target)
    decreases |xs|
  {
    if xs != [] {
      var init, s := xs[..|xs| - 1], xs[|xs| - 1];
      GreedyFits(init, target);
      var p := Greedy(init, target);
      if TotalLen(p.current) + |s| > target && p.current != [] {
        assert (p.closed + [p.current])[|p.closed|] == p.current;
      } else {
        TotalLenPush(p.current, s);
      }
    }
  }

  /** The remainder is short and there is a chunk to merge it into. */
  predicate Merges(p: Progress, minLength: int)
  {
    p.current != [] && TotalLen(p.current) < minLength && p.closed != []
  }

  /**
   * After the loop: a remainder shorter than `minLength` joins the last
   * closed group when there is one, otherwise it is a group of its own.
   */
  function Finish(p: Progress, minLength: int): (r: seq<seq<string>>)
    ensures Joined(r) == Joined(p.closed) + p.current
    ensures Merges(p, minLength) ==> |r| == |p.closed| && r[|r| - 1] == p.closed[|p.closed| - 1] + p.current
    ensures p.current != [] && !Merges(p, minLength) ==> |r| == |p.closed| + 1 && r[|r| - 1] == p.current
    ensures p.current == [] ==> r == p.closed
    ensures forall i :: 0 <= i < |p.closed| - 1 ==> r[i] == p.closed[i]
  {
    if p.current == [] then p.closed
    else if Merges(p, minLength) then
      var k := |p.closed| - 1;
      var r := p.closed[..k] + [p.closed[k] + p.current];
      assert p.closed == p.closed[..k] + [p.closed[k]];
      JoinedPush(p.closed[..k], p.closed[k]);
      JoinedPush(p.closed[..k], p.closed[k] + p.current);
      r
    else
      JoinedPush(p.closed, p.current);
      p.closed + [p.current]
  }

  /** `chunk_by_length` on sentences: the groups of sentences that become chunks. */
  function Groups(xs: seq<string>, target: int, minLength: int): seq<seq<string>>
  {
    Finish(Greedy(xs, target), minLength)
  }

  /** The groups hold every sentence once, in order; none is empty; no sentences, no groups. */
  lemma GroupsPartition(xs: seq<string>, target: int, minLength: int)
    ensures Joined(Groups(xs, target, minLength)) == xs
    ensures NonEmpty(Groups(xs, target, minLength))
    ensures Groups(xs, target, minLength) == [] <==> xs == []
  {
    var p := Greedy(xs, target);
    GreedyCovers(xs, target);
    var r := Groups(xs, target, minLength);
    if Merges(p, minLength) {
      assert r[|r| - 1] == p.closed[|p.closed| - 1] + p.current;
    }
  }

  /**
   * Every group but the last stays within the target unless it holds a
   * single sentence, and so does the last one unless the short remainder
   * was merged into it.
   */
  lemma GroupsFit(xs: seq<string>, target: int, minLength: int)
    ensures var gs := Groups(xs, target, minLength);
      forall i :: 0 <= i < |gs| - 1 ==> Fits(gs[i], target)
    ensures !Merges(Greedy(xs, target), minLength) ==> AllFit(Groups(xs, target, minLength), target)
  {
    var p := Greedy(xs, target);
    GreedyFits(xs, target);
    var gs := Groups(xs, target, minLength);
    forall i | 0 <= i < |gs| - 1
      ensures Fits(gs[i], target)
    {
      assert gs[i] == p.closed[i];
    }
    if !Merges(p, minLength) && p.current != [] {
      assert gs == p.closed + [p.current];
    }
  }

  /** The embeddings of the sentences, one each. */
  function Embeds(g: seq<string>, embed: string -> Vec): seq<Vec>
  {
    seq(|g|, i requires 0 <= i < |g| => embed(g[i]))
  }

  /** The chunk a group becomes. */
  function Pack(g: seq<string>, embed: string -> Vec): LengthChunk
  {
    LengthChunk(g, Embeds(g, embed), Concat(g), TotalLen(g))
  }

  function PackAll(gs: seq<seq<string>>, embed: string -> Vec): seq<LengthChunk>
  {
    seq(|gs|, i requires 0 <= i < |gs| => Pack(gs[i], embed))
  }

  /** The texts of the chunks, in order. */
  function AllTexts(cs: seq<LengthChunk>): string
  {
    if cs == [] then [] else AllTexts(cs[..|cs| - 1]) + cs[|cs| - 1].text
  }

  lemma {:induction false} PackedTexts(gs: seq<seq<string>>, embed: string -> Vec)
    ensures AllTexts(PackAll(gs, embed)) == Concat(Joined(gs))
    decreases |gs|
  {
    if gs != [] {
      var init := gs[..|gs| - 1];
      assert PackAll(gs, embed)[..|gs| - 1] == PackAll(init, embed);
      PackedTexts(init, embed);
      ConcatAppend(Joined(init), gs[|gs| - 1]);
    }
  }

  /**
   * The chunks' texts join to the join of the sentences; each chunk holds
   * at least one sentence, its text is the join of its sentences and its
   * character count is that text's length; no sentences, no chunks.
   */
  lemma LengthChunksShape(xs: seq<string>, target: int, minLength: int, embed: string -> Vec)
    ensures var cs := PackAll(Groups(xs, target, minLength), embed);
      AllTexts(cs) == Concat(xs) && (cs == [] <==> xs == [])
    ensures var cs := PackAll(Groups(xs, target, minLength), embed);
      forall i :: 0 <= i < |cs| ==> cs[i].sentences != [] && cs[i].text == Concat(cs[i].sentences) && cs[i].charCount == |cs[i].text|
  {
    var gs := Groups(xs, target, minLength);
    GroupsPartition(xs, target, minLength);
    PackedTexts(gs, embed);
    var cs := PackAll(gs, embed);
    forall i | 0 <= i < |cs|
      ensures cs[i].sentences != [] && cs[i].text == Concat(cs[i].sentences) && cs[i].charCount == |cs[i].text|
    {
      TotalLenIsLength(gs[i]);
    }
  }

  lemma EmbedsAppend(a: seq<string>, b: seq<string>, embed: string -> Vec)
    ensures Embeds(a + b, embed) == Embeds(a, embed) + Embeds(b, embed)
  {
    var l, r := Embeds(a + b, embed), Embeds(a, embed) + Embeds(b, embed);
    assert |l| == |r|;
    forall i | 0 <= i < |l|
      ensures l[i] == r[i]
    {
      if i < |a| {
        assert (a + b)[i] == a[i];
      } else {
        assert (a + b)[i] == b[i - |a|];
      }
    }
  }

  lemma TotalLenAppend(a: seq<string>, b: seq<string>)
    ensures TotalLen(a + b) == TotalLen(a) + TotalLen(b)
  {
    ConcatAppend(a, b);
    TotalLenIsLength(a + b);
    TotalLenIsLength(a);
    TotalLenIsLength(b);
  }

  /** Merging a group into the chunk before it extends that chunk's sentences, embeddings, text and count. */
  lemma PackMerge(a: seq<string>, b: seq<string>, embed: string -> Vec)
    ensures Pack(a + b, embed) == LengthChunk(a + b, Embeds(a, embed) + Embeds(b, embed), Concat(a) + Concat(b), TotalLen(a) + TotalLen(b))
  {
    ConcatAppend(a, b);
    EmbedsAppend(a, b, embed);
    TotalLenAppend(a, b);
  }

  /** The loop state mirrors the packing loop's progress. */
  predicate Tracks(chunks: seq<LengthChunk>, current: seq<string>, currentEmb: seq<Vec>, currentLength: nat,
                   p: Progress, embed: string -> Vec)
  {
    chunks == PackAll(p.closed, embed) && current == p.current
    && currentEmb == Embeds(current, embed) && currentLength == TotalLen(current)
  }

  lemma PackAllPush(gs: seq<seq<string>>, g: seq<string>, embed: string -> Vec)
    ensures PackAll(gs + [g], embed) == PackAll(gs, embed) + [Pack(g, embed)]
  {
    var l, r := PackAll(gs + [g], embed), PackAll(gs, embed) + [Pack(g, embed)];
    forall i | 0 <= i < |l|
      ensures l[i] == r[i]
    {
      if i < |gs| {
        assert (gs + [g])[i] == gs[i];
      }
    }
  }

  lemma PackAllMerge(gs: seq<seq<string>>, g: seq<string>, embed: string -> Vec)
    requires gs != []
    ensures var k := |gs| - 1;
      PackAll(gs[..k] + [gs[k] + g], embed) == PackAll(gs, embed)[..k] + [Pack(gs[k] + g, embed)]
  {
    var k := |gs| - 1;
    assert PackAll(gs[..k], embed) == PackAll(gs, embed)[..k];
    PackAllPush(gs[..k], gs[k] + g, embed);
  }

  lemma EmbedsPush(g: seq<string>, s: string, embed: string -> Vec)
    ensures Embeds(g + [s], embed) == Embeds(g, embed) + [embed(s)]
  {
    EmbedsAppend(g, [s], embed);
  }

  // ---------------------------------------------------------------------
  // Similarities
  // ---------------------------------------------------------------------

  /** The cosines of row `i` against every later row. */
  function Row(e: seq<Vec>, i: nat, cosine: (Vec, Vec) -> real): seq<real>
    requires i < |e|
  {
    seq(|e| - i - 1, k requires 0 <= k < |e| - i - 1 => cosine(e[i], e[i + 1 + k]))
  }

  /** The cosines of every pair of rows `i < j` with `i < n`, in the order of the nested loops. */
  function Pairs(e: seq<Vec>, n: nat, cosine: (Vec, Vec) -> real): seq<real>
    requires n <= |e|
  {
    if n == 0 then [] else Pairs(e, n - 1, cosine) + Row(e, n - 1, cosine)
  }

  /** Row `i` pairs with the `|e| - i - 1` rows after it, so the first `n` rows give `n(2|e| - n - 1)/2` pairs. */
  lemma {:induction false} PairsCount(e: seq<Vec>, n: nat, cosine: (Vec, Vec) -> real)
    requires n <= |e|
    ensures 2 * |Pairs(e, n, cosine)| == n * (2 * |e| - n - 1)
    decreases n
  {
    if n > 0 {
      PairsCount(e, n - 1, cosine);
      PairsArith(n, |e|);
    }
  }

  lemma PairsArith(n: int, m: int)
    ensures (n - 1) * (2 * m - n) + 2 * (m - n) == n * (2 * m - n - 1)
  {
    assert (n - 1) * (2 * m - n) == n * (2 * m - n) - (2 * m - n);
    assert n * (2 * m - n - 1) == n * (2 * m - n) - n;
  }

  /** Two rows or more give `|e|(|e| - 1)/2` pairs, at least one. */
  lemma PairsTotal(e: seq<Vec>, cosine: (Vec, Vec) -> real)
    requires |e| >= 2
    ensures 2 * |Pairs(e, |e|, cosine)| == |e| * (|e| - 1) && Pairs(e, |e|, cosine) != []
  {
    PairsCount(e, |e|, cosine);
    PositiveProduct(|e|);
  }

  lemma PairsNonEmpty(e: seq<Vec>, cosine: (Vec, Vec) -> real)
    requires |e| >= 2
    ensures Pairs(e, |e|, cosine) != []
  {
    PairsTotal(e, cosine);
  }

  lemma PositiveProduct(m: int)
    requires m >= 2
    ensures m * (m - 1) >= 2
  {
    assert m * (m - 1) == m * m - m;
    assert m * m >= 2 * m;
  }

  function Sum(xs: seq<real>): real
  {
    if xs == [] then 0.0 else Sum(xs[..|xs| - 1]) + xs[|xs| - 1]
  }

  /** `np.mean` */
  function Mean(xs: seq<real>): (m: real)
    requires xs != []
    ensures m * |xs| as real == Sum(xs)
  {
    Sum(xs) / |xs| as real
  }

  /** `np.min` */
  function Least(xs: seq<real>): (m: real)
    requires xs != []
    ensures m in xs && forall x :: x in xs ==> m <= x
  {
    if |xs| == 1 then xs[0]
    else
      var init, last := xs[..|xs| - 1], xs[|xs| - 1];
      assert xs == init + [last];
      var m := Least(init);
      if last < m then last else m
  }

  /** `np.max` */
  function Greatest(xs: seq<real>): (m: real)
    requires xs != []
    ensures m in xs && forall x :: x in xs ==> x <= m
  {
    if |xs| == 1 then xs[0]
    else
      var init, last := xs[..|xs| - 1], xs[|xs| - 1];
      assert xs == init + [last];
      var m := Greatest(init);
      if last > m then last else m
  }

  /** The pairwise cosines inside a chunk and their mean, least and greatest. */
  datatype Cohesion = Cohesion(avg: real, min: real, max: real, all: seq<real>)

  /** `compute_internal_similarity`: nothing for fewer than two rows. */
  function Internal(e: seq<Vec>, cosine: (Vec, Vec) -> real): Option<Cohesion>
  {
    if |e| < 2 then None
    else
      var all := Pairs(e, |e|, cosine);
      PairsNonEmpty(e, cosine);
      Some(Cohesion(Mean(all), Least(all), Greatest(all), all))
  }

  /** Fewer than two rows give nothing; otherwise every pair of rows is compared once. */
  lemma InternalCount(e: seq<Vec>, cosine: (Vec, Vec) -> real)
    ensures Internal(e, cosine).None? <==> |e| < 2
    ensures Internal(e, cosine).Some? ==> 2 * |Internal(e, cosine).value.all| == |e| * (|e| - 1)
  {
    if |e| >= 2 {
      PairsTotal(e, cosine);
      assert Internal(e, cosine).value.all == Pairs(e, |e|, cosine);
    }
  }

  /** The average is the mean of the pairwise cosines, and the least and greatest bound them all. */
  lemma InternalStats(e: seq<Vec>, cosine: (Vec, Vec) -> real)
    ensures Internal(e, cosine).Some? ==>
      var c := Internal(e, cosine).value;
      c.all != [] && c.avg == Mean(c.all) && Spans(c.all, c.min, c.max)
  {
    if |e| >= 2 {
      var all := Pairs(e, |e|, cosine);
      PairsNonEmpty(e, cosine);
      assert Internal(e, cosine) == Some(Cohesion(Mean(all), Least(all), Greatest(all), all));
      LeastGreatestSpan(all);
    }
  }

  /** `lo` and `hi` are values of `xs` and every value lies between them. */
  predicate Spans(xs: seq<real>, lo: real, hi: real)
  {
    lo in xs && hi in xs && forall x :: x in xs ==> lo <= x <= hi
  }

  lemma LeastGreatestSpan(xs: seq<real>)
    requires xs != []
    ensures Spans(xs, Least(xs), Greatest(xs))
  {
  }

  /** `compute_between_chunk_similarity`: the cosine of the centroids of each pair of neighbouring chunks. */
  function Between(chunks: seq<LengthChunk>, centroid: seq<Vec> -> Vec, cosine: (Vec, Vec) -> real): seq<real>
  {
    if |chunks| < 2 then []
    else NeighbourCosines(chunks, centroid, cosine)
  }

  function NeighbourCosines(chunks: seq<LengthChunk>, centroid: seq<Vec> -> Vec, cosine: (Vec, Vec) -> real): seq<real>
    requires |chunks| >= 2
  {
    seq(|chunks| - 1, i requires 0 <= i < |chunks| - 1 =>
      cosine(centroid(chunks[i].embeddings), centroid(chunks[i + 1].embeddings)))
  }

  /** The cohesion means of the chunks that have one, in order. */
  function Cohesions(chunks: seq<LengthChunk>, cosine: (Vec, Vec) -> real): (r: seq<real>)
    ensures |r| <= |chunks|
  {
    if chunks == [] then []
    else
      var rest := Cohesions(chunks[..|chunks| - 1], cosine);
      match Internal(chunks[|chunks| - 1].embeddings, cosine)
      case None => rest
      case Some(c) => rest + [c.avg]
  }

  /** The character counts of the chunks, in order. */
  function CharCounts(chunks: seq<LengthChunk>): (r: seq<real>)
    ensures |r| == |chunks|
  {
    if chunks == [] then [] else CharCounts(chunks[..|chunks| - 1]) + [chunks[|chunks| - 1].charCount as real]
  }

  // ---------------------------------------------------------------------
  // The chunker
  // ---------------------------------------------------------------------

  /** `LengthBasedChunker`, with its models passed in. */
  datatype Chunker = Chunker(embed: string -> Vec, cosine: (Vec, Vec) -> real, centroid: seq<Vec> -> Vec)
  {
    /**
     * `chunk_by_length`: split the text into sentences, then pack them in
     * order, closing a chunk when the next sentence would take it past the
     * target, and merge a final remainder shorter than `minLength` into the
     * chunk before it.
     */
    method ChunkByLength(text: string, target: int, minLength: int) returns (chunks: seq<LengthChunk>)
      ensures chunks == PackAll(Groups(PocChunking.Sentences(text), target, minLength), embed)
    {
      var sentences := PocChunking.SplitSentences(text);
      if sentences == [] {
        return [];
      }
      var embeddings := seq(|sentences|, i requires 0 <= i < |sentences| => embed(sentences[i]));
      var current, currentEmb, currentLength;
      chunks, current, currentEmb, currentLength := PackByLength(sentences, embeddings, target);
      chunks := CloseRemainder(chunks, current, currentEmb, currentLength, Greedy(sentences, target), minLength);
    }

    /** The packing loop of `chunk_by_length`. */
    method PackByLength(sentences: seq<string>, embeddings: seq<Vec>, target: int)
      returns (chunks: seq<LengthChunk>, current: seq<string>, currentEmb: seq<Vec>, currentLength: nat)
      requires embeddings == Embeds(sentences, embed)
      ensures Tracks(chunks, current, currentEmb, currentLength, Greedy(sentences, target), embed)
    {
      chunks := [];
      current := [];
      currentEmb := [];
      currentLength := 0;
      for i := 0 to |sentences|
        invariant Tracks(chunks, current, currentEmb, currentLength, Greedy(sentences[..i], target), embed)
      {
        assert sentences[..i + 1][..i] == sentences[..i];
        var p := Greedy(sentences[..i], target);
        var sentence := sentences[i];
        var sentLen := |sentence|;
        if currentLength + sentLen > target && current != [] {
          PackAllPush(p.closed, current, embed);
          chunks := chunks + [LengthChunk(current, currentEmb, Concat(current), currentLength)];
          current := [];
          currentEmb := [];
          currentLength := 0;
        }
        EmbedsPush(current, sentence, embed);
        TotalLenPush(current, sentence);
        current := current + [sentence];
        currentEmb := currentEmb + [embeddings[i]];
        currentLength := currentLength + sentLen;
      }
      assert sentences[..|sentences|] == sentences;
    }

    /** The end of `chunk_by_length`: the remainder becomes a chunk, or joins the last one when it is short. */
    method CloseRemainder(chunks: seq<LengthChunk>, current: seq<string>, currentEmb: seq<Vec>, currentLength: nat,
                          p: Progress, minLength: int) returns (r: seq<LengthChunk>)
      requires Tracks(chunks, current, currentEmb, currentLength, p, embed)
      ensures r == PackAll(Finish(p, minLength), embed)
    {
      r := chunks;
      if current != [] {
        if currentLength < minLength && chunks != [] {
          var k := |chunks| - 1;
          var last := chunks[k];
          PackAllMerge(p.closed, current, embed);
          PackMerge(p.closed[k], current, embed);
          r := chunks[..k] + [LengthChunk(last.sentences + current, last.embeddings + currentEmb,
                                          last.text + Concat(current), last.charCount + currentLength)];
        } else {
          PackAllPush(p.closed, current, embed);
          r := chunks + [LengthChunk(current, currentEmb, Concat(current), currentLength)];
        }
      }
    }

    /** `compute_internal_similarity`: the nested loops over the pairs of rows. */
    method InternalSimilarity(e: seq<Vec>) returns (r: Option<Cohesion>)
      ensures r == Internal(e, cosine)
    {
      if |e| < 2 {
        return None;
      }
      var all: seq<real> := [];
      for i := 0 to |e|
        invariant all == Pairs(e, i, cosine)
      {
        all := AppendRow(e, i, all);
      }
      PairsNonEmpty(e, cosine);
      return Some(Cohesion(Mean(all), Least(all), Greatest(all), all));
    }

    /** The inner loop: row `i` against every later row. */
    method AppendRow(e: seq<Vec>, i: nat, acc: seq<real>) returns (r: seq<real>)
      requires i < |e|
      ensures r == acc + Row(e, i, cosine)
    {
      r := acc;
      for j := i + 1 to |e|
        invariant r == acc + Row(e, i, cosine)[..j - i - 1]
      {
        assert Row(e, i, cosine)[..j - i] == Row(e, i, cosine)[..j - i - 1] + [cosine(e[i], e[j])];
        r := r + [cosine(e[i], e[j])];
      }
      assert Row(e, i, cosine)[..|e| - i - 1] == Row(e, i, cosine);
    }

    /** `compute_between_chunk_similarity` */
    method BetweenChunkSimilarity(chunks: seq<LengthChunk>) returns (sims: seq<real>)
      ensures sims == Between(chunks, centroid, cosine)
      ensures |chunks| < 2 ==> sims == []
      ensures |chunks| >= 2 ==> |sims| == |chunks| - 1
    {
      if |chunks| < 2 {
        return [];
      }
      sims := [];
      for i := 0 to |chunks| - 1
        invariant |sims| == i
        invariant forall j :: 0 <= j < i ==> sims[j] == cosine(centroid(chunks[j].embeddings), centroid(chunks[j + 1].embeddings))
      {
        var emb1 := centroid(chunks[i].embeddings);
        var emb2 := centroid(chunks[i + 1].embeddings);
        sims := sims + [cosine(emb1, emb2)];
      }
    }
  }

  // ---------------------------------------------------------------------
  // Analysis over articles
  // ---------------------------------------------------------------------

  /** What escapes the analysis when a body is not a string. */
  datatype AnalyzeError = TypeError | AttributeError

  /** What the analysis does with one article. */
  datatype Body = Skip | Use(text: string) | Fails(error: AnalyzeError)

  /**
   * `article.get('articleBody', '')` followed by the skip rule: an empty or
   * falsy body, or one shorter than 100, is skipped. A truthy number or
   * boolean has no length (`TypeError`); a long list or dict reaches
   * `text.strip()` (`AttributeError`).
   */
  function BodyOf(article: map<string, Value>): (b: Body)
    ensures !Truthy(Get(article, "articleBody")) ==> b == Skip
    ensures b.Use? ==> Get(article, "articleBody") == Str(b.text) && |b.text| >= MIN_BODY_LENGTH
    ensures Get(article, "articleBody").Str? ==>
      (b.Use? <==> |Get(article, "articleBody").s| >= MIN_BODY_LENGTH) && !b.Fails?
    ensures b.Fails? ==> Truthy(Get(article, "articleBody")) && !Get(article, "articleBody").Str?
  {
    match Get(article, "articleBody")
    case Null => Skip
    case Bool(v) => if !v then Skip else Fails(TypeError)
    case Num(n) => if n == 0.0 then Skip else Fails(TypeError)
    case Str(text) => if |text| < MIN_BODY_LENGTH then Skip else Use(text)
    case List(items) => if |items| < MIN_BODY_LENGTH then Skip else Fails(AttributeError)
    case Dict(fields) => if |fields| < MIN_BODY_LENGTH then Skip else Fails(AttributeError)
  }

  /**
   * `body and len(body) >= 100` inside the loaders' `try`: the body's
   * length when it is long enough; none when it is falsy, too short, or has
   * no length (the exception skips the row).
   */
  function LongBody(body: Value): (n: Option<nat>)
    ensures n.Some? <==> Truthy(body) && Len(body).Some? && Len(body).value >= MIN_BODY_LENGTH
    ensures n.Some? ==> n == Len(body)
  {
    match Len(body)
    case Some(k) => if k >= MIN_BODY_LENGTH then Some(k) else None
    case None => None
  }

  /** What the analysis has gathered so far. */
  datatype Tally = Tally(totalChunks: nat, chunkLengths: seq<real>, cohesions: seq<real>, betweens: seq<real>)

  const EMPTY_TALLY: Tally := Tally(0, [], [], [])

  /** The result for one target length (the standard deviations are not modelled). */
  datatype LengthAnalysisResult = LengthAnalysisResult(
    targetLength: int, totalArticles: nat, totalChunks: nat,
    avgChunksPerArticle: real, avgActualChunkLength: real,
    internalCohesionAvg: real, betweenChunkSimilarityAvg: real,
    boundarySimilarities: seq<real>)

  /** `np.mean(xs) if xs else 0` */
  function MeanOrZero(xs: seq<real>): (m: real)
    ensures xs == [] ==> m == 0.0
    ensures xs != [] ==> m * |xs| as real == Sum(xs)
  {
    if xs == [] then 0.0 else Mean(xs)
  }

  /** `total / count if count else 0` */
  function PerArticle(total: nat, count: nat): (avg: real)
    ensures count == 0 ==> avg == 0.0
    ensures avg * count as real == total as real || count == 0
  {
    if count > 0 then total as real / count as real else 0.0
  }

  /** The result built from the tally; the per-article average divides by every article, skipped or not. */
  function Summary(t: Tally, target: int, articleCount: nat): LengthAnalysisResult
  {
    LengthAnalysisResult(
      target, articleCount, t.totalChunks,
      PerArticle(t.totalChunks, articleCount),
      MeanOrZero(t.chunkLengths), MeanOrZero(t.cohesions), MeanOrZero(t.betweens), t.betweens)
  }

  /** The chunks the analysis makes of one body. */
  function ArticleChunks(c: Chunker, text: string, target: int): seq<LengthChunk>
  {
    PackAll(Groups(PocChunking.Sentences(text), target, DEFAULT_MIN_LENGTH), c.embed)
  }

  /** Adding one article's chunks to the tally. */
  function AddChunks(t: Tally, chunks: seq<LengthChunk>, c: Chunker): Tally
  {
    Tally(t.totalChunks + |chunks|, t.chunkLengths + CharCounts(chunks),
          t.cohesions + Cohesions(chunks, c.cosine), t.betweens + Between(chunks, c.centroid, c.cosine))
  }

  /** The tally over the articles in order; the first failing body ends the analysis. */
  function TallyAll(c: Chunker, articles: seq<map<string, Value>>, target: int): Result<Tally, AnalyzeError>
  {
    if articles == [] then Ok(EMPTY_TALLY)
    else
      match TallyAll(c, articles[..|articles| - 1], target)
      case Err(e) => Err(e)
      case Ok(t) =>
        match BodyOf(articles[|articles| - 1])
        case Skip => Ok(t)
        case Use(text) => Ok(AddChunks(t, ArticleChunks(c, text, target), c))
        case Fails(e) => Err(e)
  }

  /** `analyze_length` */
  function Analysis(c: Chunker, articles: seq<map<string, Value>>, target: int): Result<LengthAnalysisResult, AnalyzeError>
  {
    match TallyAll(c, articles, target)
    case Err(e) => Err(e)
    case Ok(t) => Ok(Summary(t, target, |articles|))
  }

  /** Appending a skipped article leaves the tally as it was. */
  lemma SkippedArticle(c: Chunker, articles: seq<map<string, Value>>, a: map<string, Value>, target: int)
    requires BodyOf(a) == Skip
    ensures TallyAll(c, articles + [a], target) == TallyAll(c, articles, target)
  {
    assert (articles + [a])[..|articles|] == articles;
  }

  /**
   * The tally keeps one length per chunk and at most one cohesion per
   * chunk; the boundary similarities are the chunks less one per article
   * that had chunks.
   */
  lemma {:induction false} TallyCounts(c: Chunker, articles: seq<map<string, Value>>, target: int)
    ensures TallyAll(c, articles, target).Ok? ==>
      var t := TallyAll(c, articles, target).value;
      |t.chunkLengths| == t.totalChunks && |t.cohesions| <= t.totalChunks && |t.betweens| <= t.totalChunks
    decreases |articles|
  {
    if articles != [] {
      TallyCounts(c, articles[..|articles| - 1], target);
    }
  }

  /**
   * The per-article average divides the chunk count by every article,
   * including the skipped ones; with no articles it is 0.
   */
  lemma PerArticleAverage(c: Chunker, articles: seq<map<string, Value>>, target: int)
    ensures Analysis(c, articles, target).Ok? ==>
      var r := Analysis(c, articles, target).value;
      r.totalArticles == |articles| && r.targetLength == target
      && (articles == [] ==> r.avgChunksPerArticle == 0.0 && r.totalChunks == 0)
      && r.avgChunksPerArticle == PerArticle(r.totalChunks, |articles|)
  {
    if TallyAll(c, articles, target).Ok? {
      var t := TallyAll(c, articles, target).value;
      assert Analysis(c, articles, target) == Ok(Summary(t, target, |articles|));
    }
  }

  /** When every article is skipped nothing is chunked, yet every article is counted. */
  lemma {:induction false} AllSkipped(c: Chunker, articles: seq<map<string, Value>>, target: int)
    requires forall i :: 0 <= i < |articles| ==> BodyOf(articles[i]) == Skip
    ensures TallyAll(c, articles, target) == Ok(EMPTY_TALLY)
    ensures Analysis(c, articles, target) == Ok(LengthAnalysisResult(target, |articles|, 0, 0.0, 0.0, 0.0, 0.0, []))
    decreases |articles|
  {
    if articles != [] {
      AllSkipped(c, articles[..|articles| - 1], target);
    }
  }

  /** Once an article has failed, the analysis fails with its error whatever follows. */
  lemma {:induction false} ErrorSticks(c: Chunker, articles: seq<map<string, Value>>, k: nat, target: int, e: AnalyzeError)
    requires k <= |articles| && TallyAll(c, articles[..k], target) == Err(e)
    ensures TallyAll(c, articles, target) == Err(e)
    decreases |articles|
  {
    if k == |articles| {
      assert articles[..k] == articles;
    } else {
      var init := articles[..|articles| - 1];
      assert init[..k] == articles[..k];
      ErrorSticks(c, init, k, target, e);
    }
  }

  /**
   * `analyze_length`: chunk every usable body, collect the chunk lengths,
   * the cohesion of every chunk that has one and the similarities between
   * neighbouring chunks, and summarise them over all the articles.
   */
  method AnalyzeLength(chunker: Chunker, articles: seq<map<string, Value>>, target: int)
    returns (r: Result<LengthAnalysisResult, AnalyzeError>)
    ensures r == Analysis(chunker, articles, target)
  {
    var t := EMPTY_TALLY;
    for i := 0 to |articles|
      invariant TallyAll(chunker, articles[..i], target) == Ok(t)
    {
      assert articles[..i + 1][..i] == articles[..i];
      match BodyOf(articles[i])
      case Skip =>
      case Fails(e) =>
        ErrorSticks(chunker, articles, i + 1, target, e);
        return Err(e);
      case Use(text) =>
        t := AddArticle(chunker, t, text, target);
    }
    assert articles[..|articles|] == articles;
    return Ok(Summary(t, target, |articles|));
  }

  /** One usable article: chunk it and add its chunks to the tally. */
  method AddArticle(chunker: Chunker, t: Tally, text: string, target: int) returns (r: Tally)
    ensures r == AddChunks(t, ArticleChunks(chunker, text, target), chunker)
  {
    var chunks := chunker.ChunkByLength(text, target, DEFAULT_MIN_LENGTH);
    var lengths, cohesions := GatherChunks(chunker, chunks);
    var between := chunker.BetweenChunkSimilarity(chunks);
    r := Tally(t.totalChunks + |chunks|, t.chunkLengths + lengths, t.cohesions + cohesions, t.betweens + between);
  }

  /** The loop over one article's chunks: their lengths, and the cohesion of each chunk that has one. */
  method GatherChunks(chunker: Chunker, chunks: seq<LengthChunk>) returns (lengths: seq<real>, cohesions: seq<real>)
    ensures lengths == CharCounts(chunks) && cohesions == Cohesions(chunks, chunker.cosine)
  {
    lengths := [];
    cohesions := [];
    for i := 0 to |chunks|
      invariant lengths == CharCounts(chunks[..i]) && cohesions == Cohesions(chunks[..i], chunker.cosine)
    {
      assert chunks[..i + 1][..i] == chunks[..i];
      lengths := lengths + [chunks[i].charCount as real];
      var internal := chunker.InternalSimilarity(chunks[i].embeddings);
      if internal.Some? {
        cohesions := cohesions + [internal.value.avg];
      }
    }
    assert chunks[..|chunks|] == chunks;
  }
}
