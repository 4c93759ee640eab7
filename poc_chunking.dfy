/**
 * The proof-of-concept semantic chunker: an article body is cut into
 * Chinese sentences at the marks 。！？!?, neighbouring sentences are
 * compared by the cosine similarity of their embeddings, and the sentence
 * sequence is cut wherever that similarity falls below a threshold.
 *
 * The embedding model and the cosine are parameters (`embed`, `cosine`).
 */
module PocChunking {
  import opened Wrappers
  import opened Text
  import opened Values

  const DEFAULT_THRESHOLD: real := 0.80
  /** Sentences shorter than this are dropped as noise. */
  const MIN_SENTENCE_LENGTH: nat := 5

  type Vec = seq<real>

  datatype Chunk = Chunk(chunkIndex: nat, sentences: seq<string>, fullText: string, charStart: nat, charEnd: nat)
  {
    function SentenceCount(): nat { |sentences| }
    function CharCount(): nat { |fullText| }
  }

  datatype ChunkingResult = ChunkingResult(
    url: string, headline: string, originalLength: nat, threshold: real,
    chunks: seq<Chunk>, sentenceCount: nat, similarityScores: seq<real>)
  {
    function ChunkCount(): nat { |chunks| }

    /** The mean `CharCount` of the chunks, 0 when there are none. */
    function AvgChunkSize(): (r: real)
      ensures chunks == [] ==> r == 0.0
      ensures chunks != [] ==> r * |chunks| as real == TotalChars(chunks) as real
    {
      if chunks == [] then 0.0 else TotalChars(chunks) as real / |chunks| as real
    }
  }

  function TotalChars(chunks: seq<Chunk>): nat
  {
    if chunks == [] then 0 else TotalChars(chunks[..|chunks| - 1]) + chunks[|chunks| - 1].CharCount()
  }

  // ---------------------------------------------------------------------
  // Sentence splitting
  // ---------------------------------------------------------------------

  /** The sentence-ending marks `。！？!?`. */
  predicate IsMark(c: char)
  {
    c == '。' || c == '！' || c == '？' || c == '!' || c == '?'
  }

  predicate NoMark(s: string)
  {
    forall j :: 0 <= j < |s| ==> !IsMark(s[j])
  }

  /** A mark can only be the last character. */
  predicate MarkOnlyLast(s: string)
  {
    forall j :: 0 <= j < |s| - 1 ==> !IsMark(s[j])
  }

  /** The text with all whitespace removed. */
  function Squeeze(s: string): string
  {
    if s == [] then [] else (if IsSpace(s[0]) then [] else [s[0]]) + Squeeze(s[1..])
  }

  lemma {:induction false} SqueezeTrimLeft(s: string)
    ensures Squeeze(TrimLeft(s)) == Squeeze(s)
    decreases |s|
  {
    if s != [] && IsSpace(s[0]) {
      SqueezeTrimLeft(s[1..]);
    }
  }

  /** `re.sub(r'\s+', ' ', s)`: every run of whitespace becomes a single space. */
  function CollapseSpaces(s: string): (r: string)
    ensures |r| <= |s| && (r == [] <==> s == [])
    ensures s != [] ==> (IsSpace(r[0]) <==> IsSpace(s[0]))
    decreases |s|
  {
    if s == [] then []
    else if IsSpace(s[0]) then
      var t := TrimLeft(s);
      assert t == TrimLeft(s[1..]);
      [' '] + CollapseSpaces(t)
    else
      [s[0]] + CollapseSpaces(s[1..])
  }

  /** The only whitespace is single spaces, no two of them side by side. */
  predicate SingleSpaced(r: string)
  {
    (forall i :: 0 <= i < |r| && IsSpace(r[i]) ==> r[i] == ' ')
    && (forall i :: 0 <= i < |r| - 1 ==> !IsSpace(r[i]) || !IsSpace(r[i + 1]))
  }

  /** After collapsing, the text is single-spaced. */
  lemma {:induction false} CollapseSingleSpaces(s: string)
    ensures SingleSpaced(CollapseSpaces(s))
    decreases |s|
  {
    if s != [] {
      var r := CollapseSpaces(s);
      var rest;
      if IsSpace(s[0]) {
        var t := TrimLeft(s);
        CollapseSingleSpaces(t);
        rest := CollapseSpaces(t);
        assert r == [' '] + rest;
        assert rest == [] || !IsSpace(rest[0]);
      } else {
        CollapseSingleSpaces(s[1..]);
        rest := CollapseSpaces(s[1..]);
        assert r == [s[0]] + rest;
      }
      forall i | 0 <= i < |r| && IsSpace(r[i])
        ensures r[i] == ' '
      {
        if i > 0 {
          assert r[i] == rest[i - 1];
        }
      }
      forall i | 0 <= i < |r| - 1
        ensures !IsSpace(r[i]) || !IsSpace(r[i + 1])
      {
        assert r[i + 1] == rest[i];
        if i > 0 {
          assert r[i] == rest[i - 1];
        }
      }
    }
  }

  /** Collapsing keeps every other character of the text, in order. */
  lemma {:induction false} CollapseKeepsText(s: string)
    ensures Squeeze(CollapseSpaces(s)) == Squeeze(s)
    decreases |s|
  {
    if s != [] {
      if IsSpace(s[0]) {
        var t := TrimLeft(s);
        SqueezeTrimLeft(s);
        CollapseKeepsText(t);
        assert CollapseSpaces(s) == [' '] + CollapseSpaces(t);
      } else {
        CollapseKeepsText(s[1..]);
        assert CollapseSpaces(s) == [s[0]] + CollapseSpaces(s[1..]);
      }
    }
  }

  /** A piece of `re.split('([。！？!?])', s)`: a single mark, or a run without marks. */
  predicate IsPart(p: string)
  {
    (|p| == 1 && IsMark(p[0])) || NoMark(p)
  }

  /** `re.split('([。！？!?])', s)`: the runs between the marks, with each mark kept as a piece of its own. */
  function MarkSplit(s: string): (parts: seq<string>)
  {
    Pieces(s, [])
  }

  /** The pieces of `s` when the run `run` is already under way. */
  function Pieces(s: string, run: string): (parts: seq<string>)
    ensures |parts| >= 1
    decreases |s|
  {
    if s == [] then [run]
    else if IsMark(s[0]) then [run] + ([[s[0]]] + Pieces(s[1..], []))
    else Pieces(s[1..], run + [s[0]])
  }

  /** Each piece is a single mark or a run without marks. */
  lemma MarkSplitParts(s: string)
    ensures forall i :: 0 <= i < |MarkSplit(s)| ==> IsPart(MarkSplit(s)[i])
  {
    PiecesParts(s, []);
  }

  lemma {:induction false} PiecesParts(s: string, run: string)
    requires NoMark(run)
    ensures forall i :: 0 <= i < |Pieces(s, run)| ==> IsPart(Pieces(s, run)[i])
    decreases |s|
  {
    if s != [] {
      if IsMark(s[0]) {
        var rest := Pieces(s[1..], []);
        PiecesParts(s[1..], []);
        var parts := Pieces(s, run);
        assert parts[0] == run && parts[1] == [s[0]];
        forall i | 2 <= i < |parts|
          ensures IsPart(parts[i])
        {
          assert parts[i] == rest[i - 2];
        }
      } else {
        NoMarkAppend(run, s[0]);
        PiecesParts(s[1..], run + [s[0]]);
      }
    }
  }

  lemma NoMarkAppend(t: string, c: char)
    requires NoMark(t) && !IsMark(c)
    ensures NoMark(t + [c])
  {
    forall j | 0 <= j < |t| + 1
      ensures !IsMark((t + [c])[j])
    {
      if j < |t| {
        assert (t + [c])[j] == t[j];
      }
    }
  }

  /** Putting the pieces back together gives the text. */
  lemma MarkSplitConcat(s: string)
    ensures Concat(MarkSplit(s)) == s
  {
    PiecesConcat(s, []);
  }

  lemma {:induction false} PiecesConcat(s: string, run: string)
    ensures Concat(Pieces(s, run)) == run + s
    decreases |s|
  {
    if s == [] {
      assert [run][..0] == [];
    } else if IsMark(s[0]) {
      PiecesConcat(s[1..], []);
      MarkPieceConcat(s, run);
    } else {
      PiecesConcat(s[1..], run + [s[0]]);
      RunPieceConcat(s, run);
    }
  }

  lemma MarkPieceConcat(s: string, run: string)
    requires s != [] && IsMark(s[0]) && Concat(Pieces(s[1..], [])) == s[1..]
    ensures Concat(Pieces(s, run)) == run + s
  {
    var rest := Pieces(s[1..], []);
    assert Pieces(s, run) == [run] + ([[s[0]]] + rest);
    ConcatCons(run, [[s[0]]] + rest);
    ConcatCons([s[0]], rest);
    assert s == [s[0]] + s[1..];
  }

  lemma RunPieceConcat(s: string, run: string)
    requires s != [] && !IsMark(s[0]) && Concat(Pieces(s[1..], run + [s[0]])) == (run + [s[0]]) + s[1..]
    ensures Concat(Pieces(s, run)) == run + s
  {
    assert Pieces(s, run) == Pieces(s[1..], run + [s[0]]);
    assert s == [s[0]] + s[1..];
    assert run + s == (run + [s[0]]) + s[1..];
  }

  /** `re.match('([。！？!?])', part)` */
  predicate Matches(part: string)
  {
    part != [] && IsMark(part[0])
  }

  /** `if current.strip(): sentences.append(current.strip())` */
  function Keep(current: string): seq<string>
  {
    if Strip(current) != [] then [Strip(current)] else []
  }

  /**
   * The sentences the splitting loop collects from `parts` when it has
   * already accumulated `current`: each mark closes the sentence under
   * way, and what follows the last mark is the final sentence.
   */
  function Collect(parts: seq<string>, current: string): seq<string>
    decreases |parts|
  {
    if parts == [] then Keep(current)
    else if Matches(parts[0]) then Keep(current + parts[0]) + Collect(parts[1..], [])
    else Collect(parts[1..], current + parts[0])
  }

  /** `[s for s in sentences if len(s) >= 5]` */
  function LongOnly(xs: seq<string>): (r: seq<string>)
    ensures forall k :: 0 <= k < |r| ==> |r[k]| >= MIN_SENTENCE_LENGTH && r[k] in xs
  {
    if xs == [] then []
    else (if |xs[0]| >= MIN_SENTENCE_LENGTH then [xs[0]] else []) + LongOnly(xs[1..])
  }

  /** Every sentence of five characters or more is kept. */
  lemma {:induction false} LongOnlyKeeps(xs: seq<string>, k: nat)
    requires k < |xs| && |xs[k]| >= MIN_SENTENCE_LENGTH
    ensures xs[k] in LongOnly(xs)
    decreases k
  {
    if k > 0 {
      assert xs[1..][k - 1] == xs[k];
      LongOnlyKeeps(xs[1..], k - 1);
    }
  }

  /** `split_sentences(text)` */
  function Sentences(text: string): seq<string>
  {
    if text == [] then []
    else LongOnly(Collect(MarkSplit(CollapseSpaces(Strip(text))), []))
  }

  /** What every sentence looks like: stripped, long enough, with a mark at most at its end. */
  predicate Sentence(s: string)
  {
    |s| >= MIN_SENTENCE_LENGTH && !IsSpace(s[0]) && !IsSpace(s[|s| - 1]) && MarkOnlyLast(s)
  }

  /** Stripped, non-empty, and a mark at most at the end. */
  predicate Shaped(s: string)
  {
    s != [] && !IsSpace(s[0]) && !IsSpace(s[|s| - 1]) && MarkOnlyLast(s)
  }

  predicate AllShaped(xs: seq<string>)
  {
    forall k :: 0 <= k < |xs| ==> Shaped(xs[k])
  }

  /** `r` is the stretch of `x` that starts at `k`. */
  predicate StretchAt(r: string, x: string, k: nat)
  {
    k + |r| <= |x| && r == x[k..k + |r|]
  }

  /** What stripping leaves is a stretch of the text. */
  lemma StripSlice(x: string)
    ensures exists k: nat :: StretchAt(Strip(x), x, k)
  {
    var y := TrimLeft(x);
    var k := |x| - |y|;
    StretchOfSuffix(Strip(x), x, k);
  }

  lemma StretchOfSuffix(r: string, x: string, k: nat)
    requires k <= |x| && |r| <= |x| - k && r == x[k..][..|r|]
    ensures StretchAt(r, x, k)
  {
    assert x[k..][..|r|] == x[k..k + |r|];
  }

  /** Stripping a text that ends in a non-space character only trims its left. */
  lemma StripBeforeMark(x: string, m: char)
    requires !IsSpace(m)
    ensures exists j: nat :: j <= |x| && Strip(x + [m]) == x[j..] + [m]
  {
    var s := x + [m];
    TrimLeftKeepsLast(s);
    var y := TrimLeft(s);
    var j := |s| - |y|;
    assert y == s[j..];
    assert TrimRight(y) == y;
    assert s[j..] == x[j..] + [m];
  }

  /** Stripping the left of a text whose last character is not whitespace keeps that character. */
  lemma {:induction false} TrimLeftKeepsLast(s: string)
    requires s != [] && !IsSpace(s[|s| - 1])
    ensures TrimLeft(s) != []
    decreases |s|
  {
    if IsSpace(s[0]) {
      assert |s| > 1;
      TrimLeftKeepsLast(s[1..]);
    }
  }

  lemma MarkIsNotSpace(m: char)
    requires IsMark(m)
    ensures !IsSpace(m)
  {
  }

  lemma NoMarkStretch(r: string, x: string, k: nat)
    requires NoMark(x) && StretchAt(r, x, k)
    ensures NoMark(r)
  {
    forall j | 0 <= j < |r|
      ensures !IsMark(r[j])
    {
      assert r[j] == x[k + j];
    }
  }

  lemma MarkedRun(t: string, m: char)
    requires NoMark(t)
    ensures MarkOnlyLast(t + [m])
  {
    forall j | 0 <= j < |t|
      ensures !IsMark((t + [m])[j])
    {
      assert (t + [m])[j] == t[j];
    }
  }

  /** A run without marks strips to at most one sentence, without marks. */
  lemma KeepPlain(x: string)
    requires NoMark(x)
    ensures AllShaped(Keep(x))
  {
    var r := Strip(x);
    StripSlice(x);
    var k: nat :| StretchAt(r, x, k);
    NoMarkStretch(r, x, k);
    if r != [] {
      assert Shaped(r);
      assert Keep(x) == [r];
    }
  }

  /** A run closed by a mark strips to a sentence ending in that mark. */
  lemma KeepMarked(x: string, m: char)
    requires NoMark(x) && IsMark(m)
    ensures Keep(x + [m]) != [] && AllShaped(Keep(x + [m]))
  {
    MarkIsNotSpace(m);
    StripBeforeMark(x, m);
    var j: nat :| j <= |x| && Strip(x + [m]) == x[j..] + [m];
    NoMarkSuffix(x, j);
    MarkedShape(Strip(x + [m]), x[j..], m);
  }

  lemma NoMarkSuffix(x: string, j: nat)
    requires NoMark(x) && j <= |x|
    ensures NoMark(x[j..])
  {
    forall i | 0 <= i < |x| - j
      ensures !IsMark(x[j..][i])
    {
      assert x[j..][i] == x[j + i];
    }
  }

  lemma MarkedShape(y: string, t: string, m: char)
    requires y == t + [m] && NoMark(t) && !IsSpace(m)
    requires !IsSpace(y[0])
    ensures Shaped(y)
  {
    MarkedRun(t, m);
  }

  /** Every sentence the loop collects is stripped and carries a mark only at its end. */
  lemma {:induction false} CollectShape(parts: seq<string>, current: string)
    requires forall i :: 0 <= i < |parts| ==> IsPart(parts[i])
    requires NoMark(current)
    ensures AllShaped(Collect(parts, current))
    decreases |parts|
  {
    if parts == [] {
      KeepPlain(current);
    } else if Matches(parts[0]) {
      assert parts[0] == [parts[0][0]];
      KeepMarked(current, parts[0][0]);
      CollectShape(parts[1..], []);
    } else {
      assert NoMark(parts[0]);
      CollectShape(parts[1..], current + parts[0]);
    }
  }

  /** Empty text has no sentences; every sentence is stripped, has at least five characters, and ends any mark it holds. */
  lemma SentencesShape(text: string)
    ensures text == [] ==> Sentences(text) == []
    ensures forall k :: 0 <= k < |Sentences(text)| ==> Sentence(Sentences(text)[k])
  {
    if text != [] {
      var collected := Collect(MarkSplit(CollapseSpaces(Strip(text))), []);
      MarkSplitParts(CollapseSpaces(Strip(text)));
      CollectShape(MarkSplit(CollapseSpaces(Strip(text))), []);
      forall k | 0 <= k < |Sentences(text)|
        ensures Sentence(Sentences(text)[k])
      {
        var s := Sentences(text)[k];
        assert s in collected;
        assert Shaped(s);
      }
    }
  }

  /** `split_sentences`: collapse the whitespace, split at the marks, gather the sentences and drop the short ones. */
  method SplitSentences(text: string) returns (sentences: seq<string>)
    ensures sentences == Sentences(text)
  {
    if text == [] {
      return [];
    }
    var parts := MarkSplit(CollapseSpaces(Strip(text)));
    var found := GatherSentences(parts);
    sentences := LongOnly(found);
  }

  /** The loop of `split_sentences` over the pieces of the text. */
  method GatherSentences(parts: seq<string>) returns (found: seq<string>)
    ensures found == Collect(parts, [])
  {
    found := [];
    var current: string := [];
    for i := 0 to |parts|
      invariant found + Collect(parts[i..], current) == Collect(parts, [])
    {
      assert parts[i..][1..] == parts[i + 1..];
      var part := parts[i];
      if part != [] && IsMark(part[0]) {
        current := current + part;
        found := found + Keep(current);
        current := [];
      } else {
        current := current + part;
      }
    }
    found := found + Keep(current);
  }

  // ---------------------------------------------------------------------
  // Similarities and chunking
  // ---------------------------------------------------------------------

  /** `compute_similarity`: the cosine of each pair of neighbouring embeddings. */
  method ComputeSimilarity(embeddings: seq<Vec>, cosine: (Vec, Vec) -> real) returns (sims: seq<real>)
    ensures |embeddings| < 2 ==> sims == []
    ensures |embeddings| >= 2 ==> |sims| == |embeddings| - 1
    ensures forall i :: 0 <= i < |sims| ==> sims[i] == cosine(embeddings[i], embeddings[i + 1])
  {
    if |embeddings| < 2 {
      return [];
    }
    sims := [];
    for i := 0 to |embeddings| - 1
      invariant |sims| == i
      invariant forall j :: 0 <= j < i ==> sims[j] == cosine(embeddings[j], embeddings[j + 1])
    {
      sims := sims + [cosine(embeddings[i], embeddings[i + 1])];
    }
  }

  /** The similarities `chunk_article` computes: the cosine of each pair of neighbouring sentences' embeddings. */
  function Similarities(sentences: seq<string>, embed: string -> Vec, cosine: (Vec, Vec) -> real): (sims: seq<real>)
    ensures |sentences| < 2 ==> sims == []
    ensures |sentences| >= 2 ==> |sims| == |sentences| - 1
  {
    if |sentences| < 2 then []
    else seq(|sentences| - 1, i requires 0 <= i < |sentences| - 1 => cosine(embed(sentences[i]), embed(sentences[i + 1])))
  }

  /** How many similarities fall below the threshold. */
  function CountBelow(sims: seq<real>, threshold: real): (n: nat)
    ensures n <= |sims|
  {
    if sims == [] then 0
    else CountBelow(sims[..|sims| - 1], threshold) + (if sims[|sims| - 1] < threshold then 1 else 0)
  }

  lemma CountBelowStep(sims: seq<real>, i: nat, threshold: real)
    requires i < |sims|
    ensures CountBelow(sims[..i + 1], threshold) == CountBelow(sims[..i], threshold) + (if sims[i] < threshold then 1 else 0)
  {
    assert sims[..i + 1][..i] == sims[..i];
  }

  /** A higher threshold never leaves fewer similarities below it. */
  lemma {:induction false} CountBelowMonotone(sims: seq<real>, low: real, high: real)
    requires low <= high
    ensures CountBelow(sims, low) <= CountBelow(sims, high)
    decreases |sims|
  {
    if sims != [] {
      CountBelowMonotone(sims[..|sims| - 1], low, high);
    }
  }

  /** The sentences of the chunks, in order. */
  function Flatten(chunks: seq<Chunk>): seq<string>
  {
    if chunks == [] then [] else Flatten(chunks[..|chunks| - 1]) + chunks[|chunks| - 1].sentences
  }

  /** The texts of the chunks, in order. */
  function Texts(chunks: seq<Chunk>): string
  {
    if chunks == [] then [] else Texts(chunks[..|chunks| - 1]) + chunks[|chunks| - 1].fullText
  }

  /** Where the next chunk starts. */
  function End(chunks: seq<Chunk>): nat
  {
    if chunks == [] then 0 else chunks[|chunks| - 1].charEnd
  }

  /**
   * Chunks numbered by position, each holding at least one sentence and
   * the join of its sentences, each starting where the one before ended
   * (the first at 0) and spanning its own text.
   */
  predicate WellLaidOut(chunks: seq<Chunk>)
    decreases |chunks|
  {
    chunks == []
    || (var init, c := chunks[..|chunks| - 1], chunks[|chunks| - 1];
        WellLaidOut(init) && c.chunkIndex == |init| && c.sentences != []
        && c.fullText == Concat(c.sentences)
        && c.charStart == End(init) && c.charEnd == c.charStart + |c.fullText|)
  }

  /**
   * Well laid out chunks join to the join of all their sentences, and the
   * character counts add up to its length, which is where the last chunk
   * ends.
   */
  lemma {:induction false} LaidOutText(chunks: seq<Chunk>)
    requires WellLaidOut(chunks)
    ensures Texts(chunks) == Concat(Flatten(chunks))
    ensures End(chunks) == |Texts(chunks)| == TotalChars(chunks)
    decreases |chunks|
  {
    if chunks != [] {
      var init := chunks[..|chunks| - 1];
      var c := chunks[|chunks| - 1];
      LaidOutText(init);
      ConcatAppend(Flatten(init), c.sentences);
    }
  }

  /**
   * The chunk at position `i` has index `i`, starts at the length of the
   * text before it, and its offsets locate its own text in the joined text.
   */
  lemma {:induction false} ChunkAt(chunks: seq<Chunk>, i: nat)
    requires WellLaidOut(chunks) && i < |chunks|
    ensures chunks[i].chunkIndex == i && chunks[i].sentences != []
    ensures chunks[i].fullText == Concat(chunks[i].sentences)
    ensures chunks[i].charStart == |Texts(chunks[..i])|
    ensures chunks[i].charEnd == chunks[i].charStart + |chunks[i].fullText| <= |Texts(chunks)|
    ensures Texts(chunks)[chunks[i].charStart..chunks[i].charEnd] == chunks[i].fullText
    decreases |chunks|
  {
    var init := chunks[..|chunks| - 1];
    LaidOutText(init);
    if i < |init| {
      ChunkAt(init, i);
      assert init[i] == chunks[i] && init[..i] == chunks[..i];
      assert Texts(chunks) == Texts(init) + chunks[|chunks| - 1].fullText;
    } else {
      assert init == chunks[..i];
    }
  }

  /** Every chunk holds a sentence, so there are never more chunks than sentences. */
  lemma {:induction false} LaidOutCount(chunks: seq<Chunk>)
    requires WellLaidOut(chunks)
    ensures |chunks| <= |Flatten(chunks)|
    decreases |chunks|
  {
    if chunks != [] {
      LaidOutCount(chunks[..|chunks| - 1]);
    }
  }

  /** Closing the chunk under way keeps the layout and its sentences, and moves the end past its text. */
  lemma Close(chunks: seq<Chunk>, current: seq<string>, charPos: nat, prefix: seq<string>)
    requires WellLaidOut(chunks) && charPos == End(chunks) && current != []
    requires Flatten(chunks) + current == prefix
    ensures var c := Chunk(|chunks|, current, Concat(current), charPos, charPos + |Concat(current)|);
      WellLaidOut(chunks + [c]) && Flatten(chunks + [c]) == prefix
      && End(chunks + [c]) == charPos + |Concat(current)|
  {
    var c := Chunk(|chunks|, current, Concat(current), charPos, charPos + |Concat(current)|);
    CloseLayout(chunks, c);
    CloseSentences(chunks, c);
  }

  lemma CloseLayout(chunks: seq<Chunk>, c: Chunk)
    requires WellLaidOut(chunks) && c.chunkIndex == |chunks| && c.sentences != []
    requires c.fullText == Concat(c.sentences) && c.charStart == End(chunks)
    requires c.charEnd == c.charStart + |c.fullText|
    ensures WellLaidOut(chunks + [c]) && End(chunks + [c]) == c.charEnd
  {
    assert (chunks + [c])[..|chunks|] == chunks;
  }

  lemma CloseSentences(chunks: seq<Chunk>, c: Chunk)
    ensures Flatten(chunks + [c]) == Flatten(chunks) + c.sentences
  {
    assert (chunks + [c])[..|chunks|] == chunks;
  }

  datatype ChunkError = IndexError

  /**
   * `chunk_by_threshold`: a new chunk starts wherever the similarity of a
   * sentence to the one before it is below the threshold. Similarities
   * beyond the last sentence raise `IndexError`.
   */
  method ChunkByThreshold(sentences: seq<string>, sims: seq<real>, threshold: real) returns (r: Result<seq<Chunk>, ChunkError>)
    ensures sentences == [] ==> r == Ok([])
    ensures |sentences| == 1 ==> r == Ok([Chunk(0, sentences, sentences[0], 0, |sentences[0]|)])
    ensures |sentences| >= 2 ==> (r.Err? <==> |sims| >= |sentences|)
    ensures r.Ok? ==> WellLaidOut(r.value)
    ensures r.Ok? && |sentences| >= 2 ==>
      Flatten(r.value) == sentences[..|sims| + 1] && |r.value| == 1 + CountBelow(sims, threshold)
    ensures sentences != [] && |sims| == |sentences| - 1 ==>
      r.Ok? && Flatten(r.value) == sentences && |r.value| == 1 + CountBelow(sims, threshold)
      && Texts(r.value) == Concat(sentences)
  {
    if sentences == [] {
      return Ok([]);
    }
    if |sentences| == 1 {
      var only := [Chunk(0, sentences, sentences[0], 0, |sentences[0]|)];
      assert Concat(sentences) == sentences[0] by {
        assert sentences[..0] == [];
      }
      assert Flatten(only) == sentences by {
        assert only[..0] == [];
      }
      LaidOutText(only);
      return Ok(only);
    }
    r := CutAtLowSimilarity(sentences, sims, threshold);
    if r.Ok? && |sims| == |sentences| - 1 {
      assert sentences[..|sims| + 1] == sentences;
      LaidOutText(r.value);
    }
  }

  /** The cutting loop of `chunk_by_threshold`, for two sentences or more. */
  method CutAtLowSimilarity(sentences: seq<string>, sims: seq<real>, threshold: real) returns (r: Result<seq<Chunk>, ChunkError>)
    requires |sentences| >= 2
    ensures r.Err? <==> |sims| >= |sentences|
    ensures r.Ok? ==>
      WellLaidOut(r.value) && Flatten(r.value) == sentences[..|sims| + 1]
      && |r.value| == 1 + CountBelow(sims, threshold)
  {
    var chunks: seq<Chunk> := [];
    var current := [sentences[0]];
    var charPos := 0;
    assert sims[..0] == [];
    for i := 0 to |sims|
      invariant i < |sentences|
      invariant WellLaidOut(chunks) && charPos == End(chunks) && current != []
      invariant Flatten(chunks) + current == sentences[..i + 1]
      invariant |chunks| == CountBelow(sims[..i], threshold)
    {
      if i + 1 >= |sentences| {
        return Err(IndexError);
      }
      CountBelowStep(sims, i, threshold);
      var next := sentences[i + 1];
      assert sentences[..i + 2] == sentences[..i + 1] + [next];
      if sims[i] < threshold {
        var text := Concat(current);
        Close(chunks, current, charPos, sentences[..i + 1]);
        chunks := chunks + [Chunk(|chunks|, current, text, charPos, charPos + |text|)];
        charPos := charPos + |text|;
        current := [next];
      } else {
        assert Flatten(chunks) + (current + [next]) == (Flatten(chunks) + current) + [next];
        current := current + [next];
      }
    }
    assert sims[..|sims|] == sims;
    var text := Concat(current);
    Close(chunks, current, charPos, sentences[..|sims| + 1]);
    chunks := chunks + [Chunk(|chunks|, current, text, charPos, charPos + |text|)];
    return Ok(chunks);
  }

  // ---------------------------------------------------------------------
  // One article
  // ---------------------------------------------------------------------

  /** The engine with its default threshold. */
  datatype Engine = Engine(threshold: real)
  {
    /**
     * `chunk_article`: split the body, embed the sentences, compare
     * neighbours and cut below the threshold (the engine's own unless one
     * is requested).
     */
    method ChunkArticle(body: string, requested: Option<real>, url: string, headline: string,
                        embed: string -> Vec, cosine: (Vec, Vec) -> real) returns (result: ChunkingResult)
      ensures result.url == url && result.headline == headline && result.originalLength == |body|
      ensures result.threshold == requested.GetOr(this.threshold)
      ensures result.sentenceCount == |Sentences(body)|
      ensures WellLaidOut(result.chunks)
      ensures Flatten(result.chunks) == Sentences(body)
      ensures Texts(result.chunks) == Concat(Sentences(body))
      ensures Sentences(body) == [] ==> result.chunks == [] && result.similarityScores == []
      ensures Sentences(body) != [] ==>
        result.similarityScores == Similarities(Sentences(body), embed, cosine)
        && |result.similarityScores| == |Sentences(body)| - 1
        && |result.chunks| == 1 + CountBelow(result.similarityScores, result.threshold)
    {
      var threshold := requested.GetOr(this.threshold);
      var sentences := SplitSentences(body);
      if sentences == [] {
        return ChunkingResult(url, headline, |body|, threshold, [], 0, []);
      }
      var chunks, sims := ChunkSentences(sentences, threshold, embed, cosine);
      result := ChunkingResult(url, headline, |body|, threshold, chunks, |sentences|, sims);
    }
  }

  /** The embedding, comparing and cutting steps of `chunk_article`, for at least one sentence. */
  method ChunkSentences(sentences: seq<string>, threshold: real,
                        embed: string -> Vec, cosine: (Vec, Vec) -> real) returns (chunks: seq<Chunk>, sims: seq<real>)
    requires sentences != []
    ensures WellLaidOut(chunks) && Flatten(chunks) == sentences && Texts(chunks) == Concat(sentences)
    ensures sims == Similarities(sentences, embed, cosine)
    ensures |sims| == |sentences| - 1 && |chunks| == 1 + CountBelow(sims, threshold)
  {
    var embeddings := seq(|sentences|, i requires 0 <= i < |sentences| => embed(sentences[i]));
    sims := ComputeSimilarity(embeddings, cosine);
    SimilaritiesOfEmbeddings(sentences, embeddings, sims, embed, cosine);
    var r := ChunkByThreshold(sentences, sims, threshold);
    chunks := r.value;
  }

  lemma SimilaritiesOfEmbeddings(sentences: seq<string>, embeddings: seq<Vec>, sims: seq<real>,
                                 embed: string -> Vec, cosine: (Vec, Vec) -> real)
    requires |embeddings| == |sentences| && forall i :: 0 <= i < |sentences| ==> embeddings[i] == embed(sentences[i])
    requires |embeddings| < 2 ==> sims == []
    requires |embeddings| >= 2 ==> |sims| == |embeddings| - 1
    requires forall i :: 0 <= i < |sims| ==> sims[i] == cosine(embeddings[i], embeddings[i + 1])
    ensures sims == Similarities(sentences, embed, cosine)
  {
    var expected := Similarities(sentences, embed, cosine);
    forall i | 0 <= i < |sims|
      ensures sims[i] == expected[i]
    {
      assert embeddings[i] == embed(sentences[i]) && embeddings[i + 1] == embed(sentences[i + 1]);
    }
  }

  const DEFAULT_ENGINE: Engine := Engine(DEFAULT_THRESHOLD)

  /** The average chunk size of a chunked article is the length of its joined sentences over the chunk count. */
  lemma AverageOfArticle(result: ChunkingResult)
    requires WellLaidOut(result.chunks) && result.chunks != []
    ensures result.AvgChunkSize() * |result.chunks| as real == |Concat(Flatten(result.chunks))| as real
  {
    LaidOutText(result.chunks);
  }

  // ---------------------------------------------------------------------
  // Input lines
  // ---------------------------------------------------------------------

  datatype TsvError = ValueError | JsonDecodeError

  /** `lines and lines[0].strip().startswith('url\t')`: the file opens with a header row. */
  predicate HasHeader(lines: seq<string>)
  {
    lines != [] && StartsWith(Strip(lines[0]), "url\t")
  }

  /** Where the data rows start: after the header row, if there is one. */
  function DataStart(lines: seq<string>): (start: nat)
    ensures start <= |lines|
  {
    if HasHeader(lines) then 1 else 0
  }

  /** The data rows of a file: every line after the header row, if there is one. */
  function DataRows(lines: seq<string>): seq<string>
  {
    lines[DataStart(lines)..]
  }

  /** What the rows that parse give, in row order; the rows that do not are skipped. */
  function Parsed<T>(rows: seq<string>, parse: string -> Option<T>): seq<T>
  {
    if rows == [] then []
    else
      var init := Parsed(rows[..|rows| - 1], parse);
      match parse(rows[|rows| - 1])
      case Some(x) => init + [x]
      case None => init
  }

  /** A value is kept exactly when some row parses to it; never more values than rows. */
  lemma {:induction false} ParsedRows<T>(rows: seq<string>, parse: string -> Option<T>)
    ensures |Parsed(rows, parse)| <= |rows|
    ensures forall x :: x in Parsed(rows, parse) <==> exists j :: 0 <= j < |rows| && parse(rows[j]) == Some(x)
    decreases |rows|
  {
    if rows != [] {
      var init := rows[..|rows| - 1];
      ParsedRows(init, parse);
      forall x
        ensures (exists j :: 0 <= j < |rows| && parse(rows[j]) == Some(x))
          <==> (x in Parsed(init, parse) || parse(rows[|rows| - 1]) == Some(x))
      {
        if exists j :: 0 <= j < |rows| && parse(rows[j]) == Some(x) {
          var j :| 0 <= j < |rows| && parse(rows[j]) == Some(x);
          if j < |init| {
            assert init[j] == rows[j];
          }
        }
        if x in Parsed(init, parse) {
          var j :| 0 <= j < |init| && parse(init[j]) == Some(x);
          assert rows[j] == init[j];
        }
      }
    }
  }

  lemma ParsedStep<T>(rows: seq<string>, i: nat, parse: string -> Option<T>)
    requires i < |rows|
    ensures Parsed(rows[..i + 1], parse) ==
      Parsed(rows[..i], parse) + (if parse(rows[i]).Some? then [parse(rows[i]).value] else [])
  {
    assert rows[..i + 1][..i] == rows[..i];
  }

  /** What the first rows give is the start of what all of them give. */
  lemma {:induction false} ParsedPrefix<T>(rows: seq<string>, i: nat, parse: string -> Option<T>)
    requires i <= |rows|
    ensures |Parsed(rows[..i], parse)| <= |Parsed(rows, parse)|
    ensures Parsed(rows[..i], parse) == Parsed(rows, parse)[..|Parsed(rows[..i], parse)|]
    decreases |rows|
  {
    if i < |rows| {
      var init := rows[..|rows| - 1];
      ParsedPrefix(init, i, parse);
      assert init[..i] == rows[..i];
    } else {
      assert rows[..i] == rows;
    }
  }

  /** The position of the first tab. */
  function TabIndex(s: string): (k: nat)
    requires '\t' in s
    ensures k < |s| && s[k] == '\t' && '\t' !in s[..k]
  {
    if s[0] == '\t' then 0
    else
      assert s == [s[0]] + s[1..];
      var k := TabIndex(s[1..]) + 1;
      assert s[..k] == [s[0]] + s[1..][..k - 1];
      k
  }

  /** Splitting once at a tab cuts at the first tab. */
  lemma SplitAtFirstTab(s: string)
    requires '\t' in s
    ensures var parts, k := SplitOnce(s, "\t"), TabIndex(s);
      |parts| == 2 && parts[0] == s[..k] && parts[1] == s[k + 1..]
  {
    ContainsChar(s, '\t');
    var parts := SplitOnce(s, "\t");
    SplitOnceChar(s, '\t');
    var k := TabIndex(s);
    var n := |parts[0]|;
    assert s[n] == '\t' && parts[0] == s[..n];
    forall j | 0 <= j < n
      ensures s[j] != '\t'
    {
      assert s[j] == parts[0][j];
    }
    forall j | 0 <= j < k
      ensures s[j] != '\t'
    {
      assert s[j] == s[..k][j];
    }
  }

  /**
   * `parse_tsv_line`: the stripped line split at its first tab into the URL
   * and the JSON text; `decode` stands for `json.loads`.
   */
  function ParseTsvLine(line: string, decode: string -> Option<Value>): (r: Result<(string, Value), TsvError>)
    ensures r == Err(ValueError) <==> '\t' !in Strip(line)
    ensures '\t' in Strip(line) ==>
      var s, k := Strip(line), TabIndex(Strip(line));
      match decode(s[k + 1..])
      case None => r == Err(JsonDecodeError)
      case Some(data) => r == Ok((s[..k], data))
  {
    var s := Strip(line);
    ContainsChar(s, '\t');
    var parts := SplitOnce(s, "\t");
    if |parts| != 2 then Err(ValueError)
    else
      SplitAtFirstTab(s);
      match decode(parts[1])
      case None => Err(JsonDecodeError)
      case Some(data) => Ok((parts[0], data))
  }
}
