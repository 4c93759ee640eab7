/**
 * The failed-upload processor: it reads a log of URLs whose upload failed,
 * looks each one up in the original TSV of `url<TAB>schema JSON` lines,
 * sorts the failures into categories, and offers to retry only the
 * categories that are not data errors.
 *
 * Decoding the JSON column, extracting a domain from a URL, embedding and
 * uploading are not modelled: the decoded document (or the decoding
 * error) and the extracted domain are parameters.
 */
module FailedUpload {
  import opened Wrappers
  import opened Text

  const MAX_BODY_CHARS: int := 20000
  const TRUNCATION_MARK: string := "\n\n[截斷]"
  const TOO_LONG_CHARS: int := 50000

  /** `truncate_text`: the text itself when it fits, else its first `maxChars` characters and the mark. */
  function TruncateText(text: string, maxChars: int): (r: string)
    ensures |text| <= maxChars ==> r == text
    ensures |text| > maxChars ==> r == SliceTo(text, maxChars) + TRUNCATION_MARK
    ensures |text| > maxChars >= 0 ==> |r| == maxChars + |TRUNCATION_MARK| && r[..maxChars] == text[..maxChars]
  {
    if |text| <= maxChars then text else SliceTo(text, maxChars) + TRUNCATION_MARK
  }

  /**
   * `extract_site_from_url`: a non-empty override is returned as given;
   * otherwise the domain the URL parser found, or an error when it found none.
   */
  function SiteFromUrl(url: string, override: string, domain: Option<string>): (r: Result<string, string>)
    ensures override != "" ==> r == Ok(override)
    ensures override == "" ==> (r.Ok? <==> domain.Some? && domain.value != "")
    ensures r.Ok? ==> r.value != "" && (override == "" ==> r.value == domain.value)
  {
    if override != "" then Ok(override)
    else if domain.None? || domain.value == "" then Err("Failed to parse URL '" + url + "'")
    else Ok(domain.value)
  }

  // ----- Loading the TSV -----

  /** The two schema fields the classification reads; "" stands for a missing or empty field. */
  datatype Schema = Schema(headline: string, articleBody: string)

  /**
   * What `json.loads` makes of the JSON column: an error, or a document;
   * a document is the schema, or `None` for the JSON literal `null`.
   */
  datatype Decoded = Undecodable | Json(schema: Option<Schema>)

  /** What the loader stores for a decoded column: the document (`None` for `null`), or `None` for an error. */
  function Stored(d: Decoded): (r: Option<Schema>)
    ensures r.Some? ==> d == Json(r)
  {
    if d.Json? then d.schema else None
  }

  /** The url column and the JSON column of a stripped, non-empty line with a tab. */
  function Columns(line: string): Option<(string, string)>
  {
    var stripped := Strip(line);
    if stripped == [] then None
    else
      var parts := SplitOnce(stripped, "\t");
      if |parts| != 2 then None else Some((parts[0], parts[1]))
  }

  /** The loader part-way through the file: the table so far, and whether no two-column line has been read yet. */
  datatype Loading = Loading(table: map<string, Option<Schema>>, firstLine: bool)

  /**
   * One line of the loader. A line with no tab is skipped; a decodable JSON
   * column is stored (`None` for `null`, even on the first line); an
   * undecodable one is stored as `None`, except on the first two-column
   * line, which is taken for a header.
   */
  function LoadLine(st: Loading, line: string, decode: string -> Decoded): (r: Loading)
    ensures Columns(line).None? ==> r == st
    ensures Columns(line).Some? ==> !r.firstLine
    ensures Columns(line).Some? && (decode(Columns(line).value.1).Json? || !st.firstLine) ==>
      r.table == st.table[Columns(line).value.0 := Stored(decode(Columns(line).value.1))]
    ensures Columns(line).Some? && decode(Columns(line).value.1) == Json(None) ==>
      r.table == st.table[Columns(line).value.0 := None]
    ensures Columns(line).Some? && decode(Columns(line).value.1).Undecodable? && st.firstLine ==> r.table == st.table
  {
    match Columns(line)
    case None => st
    case Some((url, json)) =>
      match decode(json)
      case Json(schema) => Loading(st.table[url := schema], false)
      case Undecodable => if st.firstLine then Loading(st.table, false) else Loading(st.table[url := None], false)
  }

  function Load(lines: seq<string>, decode: string -> Decoded): Loading
  {
    if lines == [] then Loading(map[], true)
    else LoadLine(Load(lines[..|lines| - 1], decode), lines[|lines| - 1], decode)
  }

  /** Whether some line of `lines` has two columns. */
  predicate AnyColumns(lines: seq<string>)
  {
    lines != [] && (AnyColumns(lines[..|lines| - 1]) || Columns(lines[|lines| - 1]).Some?)
  }

  /**
   * What line `i` stores, if anything: its url and decoded schema; nothing
   * for a line without two columns or for an undecodable header line.
   */
  function Record(lines: seq<string>, i: nat, decode: string -> Decoded): Option<(string, Option<Schema>)>
    requires i < |lines|
  {
    match Columns(lines[i])
    case None => None
    case Some((url, json)) =>
      if decode(json).Undecodable? && !AnyColumns(lines[..i]) then None else Some((url, Stored(decode(json))))
  }

  /** The header flag is still set exactly while no two-column line has been read. */
  lemma {:induction false} LoadFirstLine(lines: seq<string>, decode: string -> Decoded)
    ensures Load(lines, decode).firstLine <==> !AnyColumns(lines)
  {
    if lines != [] {
      var init := lines[..|lines| - 1];
      LoadFirstLine(init, decode);
    }
  }

  /** Reading the last line stores exactly what its record says. */
  lemma LoadLastLine(lines: seq<string>, decode: string -> Decoded)
    requires lines != []
    ensures var before := Load(lines[..|lines| - 1], decode).table;
      var rec := Record(lines, |lines| - 1, decode);
      Load(lines, decode).table == if rec.None? then before else before[rec.value.0 := rec.value.1]
  {
    var init := lines[..|lines| - 1];
    LoadFirstLine(init, decode);
    assert lines[..|lines| - 1] == init;
  }

  /**
   * The table maps each url to what its last storing line stored: a later
   * line with the same url overwrites an earlier one.
   */
  lemma {:induction false} LoadLastWins(lines: seq<string>, decode: string -> Decoded, i: nat)
    requires i < |lines| && Record(lines, i, decode).Some?
    requires forall j :: i < j < |lines| ==>
      Record(lines, j, decode).None? || Record(lines, j, decode).value.0 != Record(lines, i, decode).value.0
    ensures Record(lines, i, decode).value.0 in Load(lines, decode).table
    ensures Load(lines, decode).table[Record(lines, i, decode).value.0] == Record(lines, i, decode).value.1
  {
    var init := lines[..|lines| - 1];
    LoadLastLine(lines, decode);
    if i < |lines| - 1 {
      RecordPrefix(lines, i, decode);
      forall j | i < j < |init|
        ensures Record(init, j, decode).None? || Record(init, j, decode).value.0 != Record(init, i, decode).value.0
      {
        RecordPrefix(lines, j, decode);
      }
      LoadLastWins(init, decode, i);
    }
  }

  /** A line's record does not depend on the lines after it. */
  lemma RecordPrefix(lines: seq<string>, i: nat, decode: string -> Decoded)
    requires i < |lines| - 1
    ensures Record(lines[..|lines| - 1], i, decode) == Record(lines, i, decode)
  {
    assert lines[..|lines| - 1][..i] == lines[..i];
  }

  /**
   * A `null` JSON column decodes, so even on the first line it is not
   * taken for a header: its url is stored with no schema, which the
   * classification then reports as invalid JSON.
   */
  lemma NullFirstLineStored(line: string, decode: string -> Decoded)
    requires Columns(line).Some? && decode(Columns(line).value.1) == Json(None)
    ensures Load([line], decode).table == map[Columns(line).value.0 := None]
    ensures CategoryOf(Item(Columns(line).value.0, ""), Load([line], decode).table) == InvalidJson
  {
    assert [line][..0] == [];
  }

  /** `classify_failures`' loading loop over the TSV lines. */
  method LoadTsv(lines: seq<string>, decode: string -> Decoded) returns (table: map<string, Option<Schema>>)
    ensures table == Load(lines, decode).table
  {
    table := map[];
    var firstLine := true;
    assert lines[..0] == [];
    for i := 0 to |lines|
      invariant Loading(table, firstLine) == Load(lines[..i], decode)
    {
      assert lines[..i + 1][..i] == lines[..i];
      var stripped := Strip(lines[i]);
      if stripped == [] {
        continue;
      }
      var parts := SplitOnce(stripped, "\t");
      if |parts| != 2 {
        continue;
      }
      var url, json := parts[0], parts[1];
      var decoded := decode(json);
      if decoded.Json? {
        table := table[url := decoded.schema];
      } else {
        if firstLine {
          firstLine := false;
          continue;
        }
        table := table[url := None];
      }
      firstLine := false;
    }
    assert lines[..|lines|] == lines;
  }

  // ----- Classifying -----

  datatype Category = MissingFromTsv | InvalidJson | MissingHeadline | MissingBody | TooLong | Unknown

  /** The key the category is reported and sorted under. */
  function CategoryName(c: Category): string
  {
    match c
    case MissingFromTsv => "missing_from_tsv"
    case InvalidJson => "invalid_json"
    case MissingHeadline => "missing_headline"
    case MissingBody => "missing_body"
    case TooLong => "too_long"
    case Unknown => "unknown"
  }

  /** A line of the failure log: the url and the reason logged with it ("" when none). */
  datatype Item = Item(url: string, reason: string)

  /** A classified failure: its category, url, schema (when the TSV had one) and reason. */
  datatype Failure = Failure(category: Category, url: string, schema: Option<Schema>, reason: string)

  /**
   * The category of one failed item, tested in order: not in the TSV,
   * undecodable JSON, no headline, no body, a body over 50000 characters,
   * and otherwise unknown.
   */
  function CategoryOf(item: Item, table: map<string, Option<Schema>>): (c: Category)
    ensures c == MissingFromTsv <==> item.url !in table
    ensures c == InvalidJson <==> item.url in table && table[item.url].None?
    ensures c == MissingHeadline <==> item.url in table && table[item.url].Some? && table[item.url].value.headline == ""
    ensures c == MissingBody <==> (item.url in table && table[item.url].Some? && table[item.url].value.headline != ""
      && table[item.url].value.articleBody == "")
    ensures c == TooLong ==> |table[item.url].value.articleBody| > TOO_LONG_CHARS
    ensures c == Unknown ==> (item.url in table && table[item.url].Some?
      && table[item.url].value.headline != "" && 0 < |table[item.url].value.articleBody| <= TOO_LONG_CHARS)
  {
    if item.url !in table then MissingFromTsv
    else match table[item.url]
      case None => InvalidJson
      case Some(schema) =>
        if schema.headline == "" then MissingHeadline
        else if schema.articleBody == "" then MissingBody
        else if |schema.articleBody| > TOO_LONG_CHARS then TooLong
        else Unknown
  }

  /**
   * The reason recorded: the logged one (or a default) for a missing url,
   * undecodable JSON or an unknown failure; a fixed reason for the three
   * data checks. `digits` renders the body length.
   */
  function Classify(item: Item, table: map<string, Option<Schema>>, digits: int -> string): (f: Failure)
    ensures f.category == CategoryOf(item, table) && f.url == item.url
    ensures f.category in {MissingFromTsv, InvalidJson, Unknown} && item.reason != "" ==> f.reason == item.reason
    ensures f.category == MissingHeadline ==> f.reason == "Missing or empty headline"
    ensures f.category == MissingBody ==> f.reason == "Missing or empty articleBody"
    ensures f.schema == (if item.url in table then table[item.url] else None)
    ensures f.reason != ""
  {
    var logged := item.reason;
    match CategoryOf(item, table)
    case MissingFromTsv =>
      Failure(MissingFromTsv, item.url, None, if logged != "" then logged else "URL not found in original TSV file")
    case InvalidJson =>
      Failure(InvalidJson, item.url, None, if logged != "" then logged else "Invalid JSON in TSV file")
    case MissingHeadline =>
      Failure(MissingHeadline, item.url, table[item.url], "Missing or empty headline")
    case MissingBody =>
      Failure(MissingBody, item.url, table[item.url], "Missing or empty articleBody")
    case TooLong =>
      Failure(TooLong, item.url, table[item.url],
              "Article too long (" + digits(|table[item.url].value.articleBody|) + " chars)")
    case Unknown =>
      Failure(Unknown, item.url, table[item.url],
              if logged != "" then logged else "Unknown error (likely rate limit or network issue)")
  }

  /** The failures of category `c`, in order. */
  function Of(c: Category, fs: seq<Failure>): (r: seq<Failure>)
    ensures |r| <= |fs|
    ensures forall f :: f in r ==> f in fs && f.category == c
  {
    if fs == [] then []
    else Of(c, fs[..|fs| - 1]) + (if fs[|fs| - 1].category == c then [fs[|fs| - 1]] else [])
  }

  /** `categories[c]`, with an absent category read as the empty list. */
  function Get(m: map<Category, seq<Failure>>, c: Category): seq<Failure>
  {
    if c in m then m[c] else []
  }

  /** The `defaultdict` of lists `classify_failures` fills, one item at a time. */
  function Grouped(items: seq<Item>, table: map<string, Option<Schema>>, digits: int -> string): map<Category, seq<Failure>>
  {
    if items == [] then map[]
    else
      var m := Grouped(items[..|items| - 1], table, digits);
      var f := Classify(items[|items| - 1], table, digits);
      m[f.category := Get(m, f.category) + [f]]
  }

  /** The failures in item order. */
  function Failures(items: seq<Item>, table: map<string, Option<Schema>>, digits: int -> string): (fs: seq<Failure>)
    ensures |fs| == |items|
    ensures forall i :: 0 <= i < |items| ==> fs[i] == Classify(items[i], table, digits)
  {
    if items == [] then []
    else Failures(items[..|items| - 1], table, digits) + [Classify(items[|items| - 1], table, digits)]
  }

  /** Each category's list holds exactly that category's failures, in item order; no empty list is kept. */
  lemma {:induction false} GroupedByCategory(items: seq<Item>, table: map<string, Option<Schema>>, digits: int -> string, c: Category)
    ensures Get(Grouped(items, table, digits), c) == Of(c, Failures(items, table, digits))
    ensures c in Grouped(items, table, digits) ==> Grouped(items, table, digits)[c] != []
  {
    if items != [] {
      var init := items[..|items| - 1];
      GroupedByCategory(init, table, digits, c);
      var fs := Failures(items, table, digits);
      assert fs[..|fs| - 1] == Failures(init, table, digits);
    }
  }

  function Total(m: map<Category, seq<Failure>>): nat
  {
    |Get(m, MissingFromTsv)| + |Get(m, InvalidJson)| + |Get(m, MissingHeadline)|
    + |Get(m, MissingBody)| + |Get(m, TooLong)| + |Get(m, Unknown)|
  }

  lemma TotalAdd(m: map<Category, seq<Failure>>, f: Failure)
    ensures Total(m[f.category := Get(m, f.category) + [f]]) == Total(m) + 1
  {
    var m' := m[f.category := Get(m, f.category) + [f]];
    match f.category
    case MissingFromTsv => assert Get(m', MissingFromTsv) == Get(m, MissingFromTsv) + [f];
    case InvalidJson => assert Get(m', InvalidJson) == Get(m, InvalidJson) + [f];
    case MissingHeadline => assert Get(m', MissingHeadline) == Get(m, MissingHeadline) + [f];
    case MissingBody => assert Get(m', MissingBody) == Get(m, MissingBody) + [f];
    case TooLong => assert Get(m', TooLong) == Get(m, TooLong) + [f];
    case Unknown => assert Get(m', Unknown) == Get(m, Unknown) + [f];
  }

  /** Every failed item lands in exactly one category: the lists' lengths add up to the item count. */
  lemma {:induction false} GroupedPartition(items: seq<Item>, table: map<string, Option<Schema>>, digits: int -> string)
    ensures Total(Grouped(items, table, digits)) == |items|
  {
    if items != [] {
      GroupedPartition(items[..|items| - 1], table, digits);
      TotalAdd(Grouped(items[..|items| - 1], table, digits), Classify(items[|items| - 1], table, digits));
    }
  }

  /** The classifying loop of `classify_failures`. */
  method ClassifyFailures(items: seq<Item>, table: map<string, Option<Schema>>, digits: int -> string)
    returns (categories: map<Category, seq<Failure>>)
    ensures categories == Grouped(items, table, digits)
  {
    categories := map[];
    assert items[..0] == [];
    for i := 0 to |items|
      invariant categories == Grouped(items[..i], table, digits)
    {
      assert items[..i + 1][..i] == items[..i];
      var f := Classify(items[i], table, digits);
      categories := categories[f.category := Get(categories, f.category) + [f]];
    }
    assert items[..|items|] == items;
  }

  // ----- Retrying -----

  /** The four data-error categories are never retried; only `too_long` and `unknown` are offered. */
  function Retryable(c: Category): (r: bool)
    ensures r <==> c !in {MissingFromTsv, InvalidJson, MissingHeadline, MissingBody}
  {
    !(c in {MissingFromTsv, InvalidJson, MissingHeadline, MissingBody})
  }

  /**
   * The categories retried, in the sorted order of their names ("too_long"
   * before "unknown"): the retryable categories present that the operator
   * answered yes to.
   */
  function RetriedCategories(categories: map<Category, seq<Failure>>, yes: Category -> bool): (r: seq<Category>)
    ensures forall c :: c in r ==> Retryable(c) && c in categories && yes(c)
    ensures forall c :: c in categories && Retryable(c) && yes(c) ==> c in r
  {
    assert forall c: Category :: Retryable(c) ==> c == TooLong || c == Unknown;
    (if TooLong in categories && yes(TooLong) then [TooLong] else [])
    + (if Unknown in categories && yes(Unknown) then [Unknown] else [])
  }

  /**
   * The reason recorded when an upload raised, tested in order: a token
   * limit, a rate limit (or a 429), an embedding error, else the exception
   * type and the first 100 characters of its message.
   */
  function ErrorReason(errorType: string, message: string): (r: string)
    ensures Contains(Lower(message), "token") ==> r == "token limit exceeded"
    ensures !Contains(Lower(message), "token") && (Contains(Lower(message), "rate") || Contains(message, "429"))
      ==> r == "rate limit"
    ensures (!Contains(Lower(message), "token") && !Contains(Lower(message), "rate") && !Contains(message, "429")
             && Contains(Lower(message), "embedding")) ==> r == "embedding error: " + errorType
    ensures (!Contains(Lower(message), "token") && !Contains(Lower(message), "rate") && !Contains(message, "429")
             && !Contains(Lower(message), "embedding")) ==>
      StartsWith(r, errorType + ": ") && |r| <= |errorType| + 2 + 100
  {
    var lower := Lower(message);
    if Contains(lower, "token") then "token limit exceeded"
    else if Contains(lower, "rate") || Contains(message, "429") then "rate limit"
    else if Contains(lower, "embedding") then "embedding error: " + errorType
    else
      var r := errorType + ": " + SliceTo(message, 100);
      assert r[..|errorType + ": "|] == errorType + ": ";
      r
  }

  // ----- Reading the log -----

  /** The log part-way: the items read and the source TSV named by a comment, if any. */
  datatype LogState = LogState(items: seq<Item>, sourceTsv: Option<string>)

  /** The text after the first "Source TSV:", stripped. */
  function SourceOf(line: string): Option<string>
  {
    var parts := SplitOnce(line, "Source TSV:");
    if |parts| == 2 then Some(Strip(parts[1])) else None
  }

  /** Whether a log line is a data line: neither blank nor a comment. */
  predicate DataLine(line: string)
  {
    Strip(line) != [] && !StartsWith(Strip(line), "#")
  }

  /** A data line: the url before the first tab and the reason after it ("" without a tab). */
  function ItemOf(stripped: string): (item: Item)
    ensures '\t' !in item.url
  {
    var parts := SplitOnce(stripped, "\t");
    assert |parts| == 2 ==> '\t' !in parts[0] by {
      if |parts| == 2 {
        SplitOnceChar(stripped, '\t');
      }
    }
    if |parts| == 2 then Item(parts[0], parts[1])
    else
      assert !Contains(stripped, "\t");
      ContainsChar(stripped, '\t');
      Item(stripped, "")
  }

  /**
   * One log line: blank lines are skipped; a '#' line is a comment, which
   * sets the source TSV when it names one; any other line is a url with an
   * optional tab-separated reason.
   */
  function LogLine(st: LogState, line: string): (r: LogState)
    ensures !DataLine(line) ==> r.items == st.items
    ensures DataLine(line) ==> r == st.(items := st.items + [ItemOf(Strip(line))])
  {
    var stripped := Strip(line);
    if stripped == [] then st
    else if StartsWith(stripped, "#") then
      match SourceOf(stripped)
      case Some(src) => st.(sourceTsv := Some(src))
      case None => st
    else st.(items := st.items + [ItemOf(stripped)])
  }

  function ReadLog(lines: seq<string>): LogState
  {
    if lines == [] then LogState([], None)
    else LogLine(ReadLog(lines[..|lines| - 1]), lines[|lines| - 1])
  }

  function DataLines(lines: seq<string>): nat
  {
    if lines == [] then 0 else DataLines(lines[..|lines| - 1]) + (if DataLine(lines[|lines| - 1]) then 1 else 0)
  }

  /** One item per data line, and no item's url holds a tab. */
  lemma {:induction false} ReadLogItems(lines: seq<string>)
    ensures |ReadLog(lines).items| == DataLines(lines)
    ensures forall i :: 0 <= i < |ReadLog(lines).items| ==> '\t' !in ReadLog(lines).items[i].url
  {
    if lines != [] {
      var init, last := lines[..|lines| - 1], lines[|lines| - 1];
      ReadLogItems(init);
      assert ReadLog(lines) == LogLine(ReadLog(init), last);
      var before := ReadLog(init).items;
      var after := ReadLog(lines).items;
      if DataLine(last) {
        assert after == before + [ItemOf(Strip(last))];
        forall i | 0 <= i < |after|
          ensures '\t' !in after[i].url
        {
          if i < |before| {
            assert after[i] == before[i];
          }
        }
      } else {
        assert after == before;
      }
    }
  }

  /** `main`'s loop over the failure log. */
  method ParseLog(lines: seq<string>) returns (items: seq<Item>, sourceTsv: Option<string>)
    ensures LogState(items, sourceTsv) == ReadLog(lines)
  {
    items := [];
    sourceTsv := None;
    assert lines[..0] == [];
    for i := 0 to |lines|
      invariant LogState(items, sourceTsv) == ReadLog(lines[..i])
    {
      assert lines[..i + 1][..i] == lines[..i];
      var line := Strip(lines[i]);
      if line == [] {
        continue;
      }
      if StartsWith(line, "#") {
        var parts := SplitOnce(line, "Source TSV:");
        if |parts| == 2 {
          sourceTsv := Some(Strip(parts[1]));
        }
        continue;
      }
      var parts := SplitOnce(line, "\t");
      var reason := if |parts| > 1 then parts[1] else "";
      items := items + [Item(parts[0], reason)];
      assert items[|items| - 1] == ItemOf(line);
    }
    assert lines[..|lines|] == lines;
  }
}
