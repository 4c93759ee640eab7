/**
 * Validating exported training data before training: the metadata must
 * hold the eight required keys; the CSV must have 30 header columns and
 * as many data rows as the metadata's sample count; every feature column's
 * minimum and maximum are collected; and the query groups must add up to
 * the sample count. Missing cells, constant or extreme columns and small
 * groups are warnings only.
 *
 * A CSV file is the sequence of records `csv.reader` yields; the metadata
 * file is the JSON object it holds. The three checks each return a
 * `Result`: `Ok(passed)`, or `Err(e)` for the exception that escapes.
 */
module TrainingValidate {
  import opened Wrappers
  import opened Values
  import Features
  import TrainingExport

  /** The exceptions the checks let escape. */
  datatype Error = StopIteration | IndexError | TypeError

  /** 29 features and the label. */
  const EXPECTED_COLUMNS: nat := Features.TOTAL_FEATURES + 1

  const REQUIRED_KEYS: seq<string> := [
    "feature_version", "expected_features", "feature_names",
    "total_samples", "total_queries", "query_groups",
    "label_type", "label_description"]

  /**
   * Python's `x == v` for a number `x` and a JSON value `v`: only a number
   * of the same value or a boolean (`True` is 1, `False` is 0) equals it.
   */
  predicate SameNumber(v: Value, x: real)
  {
    match v
    case Num(n) => n == x
    case Bool(b) => (if b then 1.0 else 0.0) == x
    case _ => false
  }

  predicate HasRequiredKeys(meta: map<string, Value>)
  {
    forall i :: 0 <= i < |REQUIRED_KEYS| ==> REQUIRED_KEYS[i] in meta
  }

  /** `validate_metadata`: the metadata when every required key is present, `None` at the first missing one. */
  method ValidateMetadata(meta: map<string, Value>) returns (r: Option<map<string, Value>>)
    ensures r.Some? <==> HasRequiredKeys(meta)
    ensures r.Some? ==> r.value == meta
  {
    for i := 0 to |REQUIRED_KEYS|
      invariant forall j :: 0 <= j < i ==> REQUIRED_KEYS[j] in meta
    {
      if REQUIRED_KEYS[i] !in meta {
        return None;
      }
    }
    return Some(meta);
  }

  // ----- [1] CSV structure -----

  predicate Missing(cell: string)
  {
    cell == "" || cell == "None"
  }

  /**
   * The missing-cell scan part-way: the count so far, and whether a warning
   * printed for one of the first five missing cells looked its column up
   * past the end of the header (the `IndexError` of `header[j]`).
   */
  datatype Tally = Tally(missing: nat, raised: bool)

  function CellStep(t: Tally, width: nat, j: nat, cell: string): Tally
  {
    if Missing(cell) then Tally(t.missing + 1, t.raised || (t.missing + 1 <= 5 && j >= width)) else t
  }

  function RowTally(t: Tally, width: nat, row: seq<string>): Tally
  {
    if row == [] then t
    else CellStep(RowTally(t, width, row[..|row| - 1]), width, |row| - 1, row[|row| - 1])
  }

  function TallyRows(width: nat, rows: seq<seq<string>>): Tally
  {
    if rows == [] then Tally(0, false)
    else RowTally(TallyRows(width, rows[..|rows| - 1]), width, rows[|rows| - 1])
  }

  /** The number of missing cells in `row`. */
  function MissingIn(row: seq<string>): nat
  {
    if row == [] then 0 else MissingIn(row[..|row| - 1]) + (if Missing(row[|row| - 1]) then 1 else 0)
  }

  function MissingCells(rows: seq<seq<string>>): nat
  {
    if rows == [] then 0 else MissingCells(rows[..|rows| - 1]) + MissingIn(rows[|rows| - 1])
  }

  predicate WithinWidth(width: nat, rows: seq<seq<string>>)
  {
    forall i :: 0 <= i < |rows| ==> |rows[i]| <= width
  }

  lemma {:induction false} RowTallyCounts(t: Tally, width: nat, row: seq<string>)
    ensures RowTally(t, width, row).missing == t.missing + MissingIn(row)
    ensures t.raised ==> RowTally(t, width, row).raised
    ensures |row| <= width ==> RowTally(t, width, row).raised == t.raised
  {
    if row != [] {
      RowTallyCounts(t, width, row[..|row| - 1]);
    }
  }

  /**
   * The scan counts exactly the missing cells, and it cannot fail when no
   * row is wider than the header.
   */
  lemma {:induction false} TallyCounts(width: nat, rows: seq<seq<string>>)
    ensures TallyRows(width, rows).missing == MissingCells(rows)
    ensures WithinWidth(width, rows) ==> !TallyRows(width, rows).raised
  {
    if rows != [] {
      var init := rows[..|rows| - 1];
      TallyCounts(width, init);
      RowTallyCounts(TallyRows(width, init), width, rows[|rows| - 1]);
      if WithinWidth(width, rows) {
        assert WithinWidth(width, init) by {
          forall i | 0 <= i < |init| ensures |init[i]| <= width {
            assert init[i] == rows[i];
          }
        }
      }
    }
  }

  /** The inner loop over the cells of one row. */
  method ScanRow(t: Tally, width: nat, row: seq<string>) returns (r: Tally)
    ensures r == RowTally(t, width, row)
  {
    r := t;
    assert row[..0] == [];
    for j := 0 to |row|
      invariant r == RowTally(t, width, row[..j])
    {
      assert row[..j + 1][..j] == row[..j];
      if Missing(row[j]) {
        var raised := r.raised || (r.missing + 1 <= 5 && j >= width);
        r := Tally(r.missing + 1, raised);
      }
    }
    assert row[..|row|] == row;
  }

  /** The scan for missing values of `validate_csv_structure`. */
  method ScanMissing(width: nat, rows: seq<seq<string>>) returns (t: Tally)
    ensures t == TallyRows(width, rows)
  {
    t := Tally(0, false);
    assert rows[..0] == [];
    for i := 0 to |rows|
      invariant t == TallyRows(width, rows[..i])
    {
      assert rows[..i + 1][..i] == rows[..i];
      t := ScanRow(t, width, rows[i]);
    }
    assert rows[..|rows|] == rows;
  }

  /** `validate_csv_structure` */
  function CsvStructure(csv: seq<seq<string>>, meta: map<string, Value>): (r: Result<bool, Error>)
    requires HasRequiredKeys(meta)
    ensures csv == [] <==> r == Err(StopIteration)
    ensures r == Ok(true) ==> |csv[0]| == EXPECTED_COLUMNS && SameNumber(meta["total_samples"], (|csv| - 1) as real)
    ensures csv != [] && |csv[0]| == EXPECTED_COLUMNS && WithinWidth(EXPECTED_COLUMNS, csv[1..]) ==>
      r == Ok(SameNumber(meta["total_samples"], (|csv| - 1) as real))
  {
    assert "total_samples" == REQUIRED_KEYS[3];
    if csv == [] then Err(StopIteration)
    else if |csv[0]| != EXPECTED_COLUMNS then Ok(false)
    else if !SameNumber(meta["total_samples"], (|csv| - 1) as real) then Ok(false)
    else
      TallyCounts(|csv[0]|, csv[1..]);
      if TallyRows(|csv[0]|, csv[1..]).raised then Err(IndexError) else Ok(true)
  }

  method ValidateCsvStructure(csv: seq<seq<string>>, meta: map<string, Value>) returns (r: Result<bool, Error>)
    requires HasRequiredKeys(meta)
    ensures r == CsvStructure(csv, meta)
  {
    assert "total_samples" == REQUIRED_KEYS[3];
    if csv == [] {
      return Err(StopIteration);
    }
    var header := csv[0];
    if |header| != EXPECTED_COLUMNS {
      return Ok(false);
    }
    var rows := csv[1..];
    if !SameNumber(meta["total_samples"], |rows| as real) {
      return Ok(false);
    }
    var t := ScanMissing(|header|, rows);
    if t.raised {
      return Err(IndexError);
    }
    return Ok(true);
  }

  // ----- [2] Feature ranges -----

  /** A column's minimum and maximum so far; `Untouched` is the initial `inf` / `-inf` pair. */
  datatype Range = Untouched | Span(lo: real, hi: real)

  function Widen(r: Range, x: real): Range
  {
    match r
    case Untouched => Span(x, x)
    case Span(lo, hi) => Span(if x < lo then x else lo, if x > hi then x else hi)
  }

  /** `x` lies within the range. */
  predicate Covers(r: Range, x: real)
  {
    r.Span? && r.lo <= x <= r.hi
  }

  /** `a` contains `b`. */
  predicate Contains(a: Range, b: Range)
  {
    b.Span? ==> a.Span? && a.lo <= b.lo && b.hi <= a.hi
  }

  predicate AllContain(a: seq<Range>, b: seq<Range>)
  {
    |a| == |b| && forall i :: 0 <= i < |a| ==> Contains(a[i], b[i])
  }

  /** The ranges after the cells of `row`: a numeric cell past the header's width is an `IndexError`. */
  function RowRanges(rs: seq<Range>, row: seq<string>, parse: string -> Option<real>): (r: Result<seq<Range>, Error>)
    ensures r.Ok? ==> |r.value| == |rs|
  {
    if row == [] then Ok(rs)
    else
      match RowRanges(rs, row[..|row| - 1], parse)
      case Err(e) => Err(e)
      case Ok(prev) =>
        var j := |row| - 1;
        match parse(row[j])
        case None => Ok(prev)
        case Some(x) => if j < |prev| then Ok(prev[j := Widen(prev[j], x)]) else Err(IndexError)
  }

  function Ranges(width: nat, rows: seq<seq<string>>, parse: string -> Option<real>): (r: Result<seq<Range>, Error>)
    ensures r.Ok? ==> |r.value| == width
  {
    if rows == [] then Ok(seq(width, i => Untouched))
    else
      match Ranges(width, rows[..|rows| - 1], parse)
      case Err(e) => Err(e)
      case Ok(prev) => RowRanges(prev, rows[|rows| - 1], parse)
  }

  /** Some numeric cell of `row` lies past column `width`. */
  predicate Overflows(width: nat, row: seq<string>, parse: string -> Option<real>)
  {
    exists j :: width <= j < |row| && parse(row[j]).Some?
  }

  /** Every numeric cell of `row` lies within its column's range. */
  predicate CoversRow(rs: seq<Range>, row: seq<string>, parse: string -> Option<real>)
  {
    forall j :: 0 <= j < |row| && parse(row[j]).Some? ==> j < |rs| && Covers(rs[j], parse(row[j]).value)
  }

  lemma WidenContains(r: Range, x: real)
    ensures Contains(Widen(r, x), r) && Covers(Widen(r, x), x)
  {
  }

  lemma ContainsCovers(a: Range, b: Range, x: real)
    requires Contains(a, b) && Covers(b, x)
    ensures Covers(a, x)
  {
  }

  /**
   * One row fails exactly when it has a numeric cell past the width; when
   * it does not, the new ranges contain the old ones and cover its cells.
   */
  lemma {:induction false} RowRangesSpec(rs: seq<Range>, row: seq<string>, parse: string -> Option<real>)
    ensures RowRanges(rs, row, parse).Err? <==> Overflows(|rs|, row, parse)
    ensures RowRanges(rs, row, parse).Ok? ==>
      AllContain(RowRanges(rs, row, parse).value, rs) && CoversRow(RowRanges(rs, row, parse).value, row, parse)
  {
    if row != [] {
      var init := row[..|row| - 1];
      var j := |row| - 1;
      RowRangesSpec(rs, init, parse);
      assert forall k :: 0 <= k < |init| ==> init[k] == row[k];
      if Overflows(|rs|, init, parse) {
        var k :| |rs| <= k < |init| && parse(init[k]).Some?;
        assert parse(row[k]).Some?;
      }
      match RowRanges(rs, init, parse)
      case Err(_) =>
      case Ok(prev) =>
        if parse(row[j]).Some? && j < |prev| {
          var x := parse(row[j]).value;
          var next := prev[j := Widen(prev[j], x)];
          WidenContains(prev[j], x);
          forall k | 0 <= k < |rs|
            ensures Contains(next[k], rs[k])
          {
            if k == j {
              assert Contains(prev[j], rs[j]);
            }
          }
          forall k | 0 <= k < |row| && parse(row[k]).Some?
            ensures k < |next| && Covers(next[k], parse(row[k]).value)
          {
            if k < j {
              assert init[k] == row[k] && next[k] == prev[k];
            }
          }
        } else if parse(row[j]).Some? {
          assert Overflows(|rs|, row, parse);
        } else {
          forall k | |rs| <= k < |row|
            ensures parse(row[k]).None?
          {
            if k < |init| {
              assert init[k] == row[k];
            }
          }
        }
    }
  }

  lemma CoversRowWiden(a: seq<Range>, b: seq<Range>, row: seq<string>, parse: string -> Option<real>)
    requires AllContain(a, b) && CoversRow(b, row, parse)
    ensures CoversRow(a, row, parse)
  {
    forall j | 0 <= j < |row| && parse(row[j]).Some?
      ensures j < |a| && Covers(a[j], parse(row[j]).value)
    {
      ContainsCovers(a[j], b[j], parse(row[j]).value);
    }
  }

  /**
   * Collecting the ranges fails exactly when some row has a numeric cell
   * past the header's width; otherwise every numeric cell of every row lies
   * within its column's range.
   */
  lemma {:induction false} RangesSpec(width: nat, rows: seq<seq<string>>, parse: string -> Option<real>)
    ensures Ranges(width, rows, parse).Err? <==> exists i :: 0 <= i < |rows| && Overflows(width, rows[i], parse)
    ensures Ranges(width, rows, parse).Ok? ==>
      forall i :: 0 <= i < |rows| ==> CoversRow(Ranges(width, rows, parse).value, rows[i], parse)
  {
    if rows != [] {
      var init := rows[..|rows| - 1];
      var last := rows[|rows| - 1];
      RangesSpec(width, init, parse);
      assert forall i :: 0 <= i < |init| ==> init[i] == rows[i];
      match Ranges(width, init, parse)
      case Err(_) =>
        var i :| 0 <= i < |init| && Overflows(width, init[i], parse);
        assert Overflows(width, rows[i], parse);
      case Ok(prev) =>
        RowRangesSpec(prev, last, parse);
        if RowRanges(prev, last, parse).Ok? {
          var next := RowRanges(prev, last, parse).value;
          forall i | 0 <= i < |rows|
            ensures CoversRow(next, rows[i], parse)
          {
            if i < |init| {
              CoversRowWiden(next, prev, rows[i], parse);
            }
          }
        } else {
          assert Overflows(width, rows[|rows| - 1], parse);
        }
    }
  }

  /** An error part-way through a row is the row's error. */
  lemma {:induction false} RowRangesStops(rs: seq<Range>, row: seq<string>, k: nat, parse: string -> Option<real>)
    requires k <= |row| && RowRanges(rs, row[..k], parse).Err?
    ensures RowRanges(rs, row, parse) == RowRanges(rs, row[..k], parse)
  {
    if k < |row| {
      assert row[..|row| - 1][..k] == row[..k];
      RowRangesStops(rs, row[..|row| - 1], k, parse);
    } else {
      assert row[..k] == row;
    }
  }

  /** An error part-way through the rows is the final error. */
  lemma {:induction false} RangesStops(width: nat, rows: seq<seq<string>>, k: nat, parse: string -> Option<real>)
    requires k <= |rows| && Ranges(width, rows[..k], parse).Err?
    ensures Ranges(width, rows, parse) == Ranges(width, rows[..k], parse)
  {
    if k < |rows| {
      assert rows[..|rows| - 1][..k] == rows[..k];
      RangesStops(width, rows[..|rows| - 1], k, parse);
    } else {
      assert rows[..k] == rows;
    }
  }

  /** The inner loop of `validate_feature_ranges` over the cells of one row. */
  method WidenRow(rs: seq<Range>, row: seq<string>, parse: string -> Option<real>) returns (r: Result<seq<Range>, Error>)
    ensures r == RowRanges(rs, row, parse)
  {
    var ranges := rs;
    assert row[..0] == [];
    for j := 0 to |row|
      invariant RowRanges(rs, row[..j], parse) == Ok(ranges)
    {
      assert row[..j + 1][..j] == row[..j];
      match parse(row[j])
      case None =>
      case Some(x) =>
        if j >= |ranges| {
          RowRangesStops(rs, row, j + 1, parse);
          return Err(IndexError);
        }
        ranges := ranges[j := Widen(ranges[j], x)];
    }
    assert row[..|row|] == row;
    return Ok(ranges);
  }

  /** The collecting loop of `validate_feature_ranges`: `mins` and `maxs` over every row. */
  method CollectRanges(width: nat, rows: seq<seq<string>>, parse: string -> Option<real>) returns (r: Result<seq<Range>, Error>)
    ensures r == Ranges(width, rows, parse)
  {
    var ranges := seq(width, i => Untouched);
    assert rows[..0] == [];
    for i := 0 to |rows|
      invariant Ranges(width, rows[..i], parse) == Ok(ranges)
    {
      assert rows[..i + 1][..i] == rows[..i];
      var next := WidenRow(ranges, rows[i], parse);
      if next.Err? {
        RangesStops(width, rows, i + 1, parse);
        return next;
      }
      ranges := next.value;
    }
    assert rows[..|rows|] == rows;
    return Ok(ranges);
  }

  /**
   * `validate_feature_ranges`: the ranges are only reported, so the check
   * passes unless reading fails: an empty file, a numeric cell past the
   * header's width, or an empty header (the label range `mins[-1]`).
   */
  function FeatureRanges(csv: seq<seq<string>>, parse: string -> Option<real>): (r: Result<bool, Error>)
    ensures r.Ok? ==> r.value
    ensures r.Ok? <==> (csv != [] && |csv[0]| > 0
      && forall i :: 0 <= i < |csv| - 1 ==> !Overflows(|csv[0]|, csv[1..][i], parse))
  {
    if csv == [] then Err(StopIteration)
    else
      RangesSpec(|csv[0]|, csv[1..], parse);
      match Ranges(|csv[0]|, csv[1..], parse)
      case Err(e) => Err(e)
      case Ok(_) => if |csv[0]| == 0 then Err(IndexError) else Ok(true)
  }

  method ValidateFeatureRanges(csv: seq<seq<string>>, parse: string -> Option<real>) returns (r: Result<bool, Error>)
    ensures r == FeatureRanges(csv, parse)
  {
    if csv == [] {
      return Err(StopIteration);
    }
    var header := csv[0];
    var ranges := CollectRanges(|header|, csv[1..], parse);
    if ranges.Err? {
      return Err(ranges.error);
    }
    if |header| == 0 {
      return Err(IndexError);
    }
    return Ok(true);
  }

  // ----- [3] Query groups -----

  /** A value `sum` can add to a number: a number, or a boolean counting as 1 or 0. */
  predicate Addable(v: Value)
  {
    v.Num? || v.Bool?
  }

  /** `sum(items)` over a list: a `TypeError` at the first item that is not a number or a boolean. */
  function SumValues(items: seq<Value>): (r: Result<real, Error>)
    ensures r.Ok? <==> forall i :: 0 <= i < |items| ==> Addable(items[i])
    ensures r.Err? ==> r.error == TypeError
  {
    if items == [] then Ok(0.0)
    else
      var front, last := items[..|items| - 1], items[|items| - 1];
      assert forall i :: 0 <= i < |front| ==> front[i] == items[i];
      match SumValues(front)
      case Err(e) => Err(e)
      case Ok(total) =>
        match last
        case Num(n) => Ok(total + n)
        case Bool(b) => Ok(total + if b then 1.0 else 0.0)
        case _ => Err(TypeError)
  }

  /**
   * `sum(v)` of any JSON value: a list sums its items; a string or a dict
   * iterates its characters or keys, so only an empty one sums (to 0); a
   * number, a boolean or `None` is not iterable.
   */
  function SumOf(v: Value): (r: Result<real, Error>)
    ensures v.List? ==> r == SumValues(v.items)
    ensures (v.Str? || v.Dict?) ==> (r.Ok? <==> !Truthy(v)) && (r.Ok? ==> r.value == 0.0)
    ensures r.Err? ==> r.error == TypeError
    ensures v.Null? || v.Bool? || v.Num? ==> r.Err?
  {
    match v
    case List(items) => SumValues(items)
    case Str(s) => if s == [] then Ok(0.0) else Err(TypeError)
    case Dict(fields) => if fields == map[] then Ok(0.0) else Err(TypeError)
    case _ => Err(TypeError)
  }

  /** The JSON list of the numbers `xs`. */
  function Nums(xs: seq<nat>): (v: seq<Value>)
    ensures |v| == |xs| && forall i :: 0 <= i < |xs| ==> v[i] == Num(xs[i] as real)
  {
    seq(|xs|, i requires 0 <= i < |xs| => Num(xs[i] as real))
  }

  /** A list of numbers sums to their sum. */
  lemma {:induction false} SumNums(xs: seq<nat>)
    ensures SumValues(Nums(xs)) == Ok(TrainingExport.Sum(xs) as real)
  {
    if xs != [] {
      SumNums(xs[..|xs| - 1]);
      assert Nums(xs)[..|xs| - 1] == Nums(xs[..|xs| - 1]);
    }
  }

  /**
   * `validate_query_groups`: the check passes exactly when `sum` of the
   * groups equals `total_samples`, and raises what `sum` raises.
   */
  function QueryGroupsCheck(meta: map<string, Value>): (r: Result<bool, Error>)
    requires HasRequiredKeys(meta)
    ensures forall groups: seq<nat> :: meta["query_groups"] == List(Nums(groups)) ==>
      r == Ok(SameNumber(meta["total_samples"], TrainingExport.Sum(groups) as real))
    ensures SumOf(meta["query_groups"]).Ok? ==> r == Ok(SameNumber(meta["total_samples"], SumOf(meta["query_groups"]).value))
    ensures SumOf(meta["query_groups"]).Err? ==> r == Err(TypeError)
    ensures meta["query_groups"] == Str("") ==> r == Ok(SameNumber(meta["total_samples"], 0.0))
  {
    assert "total_samples" == REQUIRED_KEYS[3] && "query_groups" == REQUIRED_KEYS[5];
    assert forall groups: seq<nat> :: SumValues(Nums(groups)) == Ok(TrainingExport.Sum(groups) as real) by {
      forall groups: seq<nat> ensures SumValues(Nums(groups)) == Ok(TrainingExport.Sum(groups) as real) {
        SumNums(groups);
      }
    }
    match SumOf(meta["query_groups"])
    case Err(e) => Err(e)
    case Ok(total) => Ok(SameNumber(meta["total_samples"], total))
  }

  /**
   * The group check accepts what `json.load` may give besides integers:
   * `"query_groups": ""` against 0 samples, `[true, 99]` against `100.0`
   * samples; and `["3"]` raises `TypeError`.
   */
  lemma LaxGroups(meta: map<string, Value>)
    requires "query_groups" in meta && "total_samples" in meta && HasRequiredKeys(meta)
    ensures meta["query_groups"] == Str("") && meta["total_samples"] == Num(0.0) ==> QueryGroupsCheck(meta) == Ok(true)
    ensures meta["query_groups"] == List([Bool(true), Num(99.0)]) && meta["total_samples"] == Num(100.0) ==>
      QueryGroupsCheck(meta) == Ok(true)
    ensures meta["query_groups"] == List([Str("3")]) ==> QueryGroupsCheck(meta) == Err(TypeError)
  {
    if meta["query_groups"] == List([Bool(true), Num(99.0)]) {
      assert [Bool(true), Num(99.0)][..1] == [Bool(true)];
      assert [Bool(true)][..0] == [];
    }
  }

  // ----- All checks -----

  /**
   * `main`: a missing file or incomplete metadata fails at once; otherwise
   * all three checks run in turn (an escaping exception ends the run) and
   * the data passes when every one passes.
   */
  function Validation(csvFile: Option<seq<seq<string>>>, metaFile: Option<map<string, Value>>,
                      parse: string -> Option<real>): (r: Result<bool, Error>)
    ensures r == Ok(true) ==> (csvFile.Some? && metaFile.Some? && HasRequiredKeys(metaFile.value)
      && CsvStructure(csvFile.value, metaFile.value) == Ok(true)
      && FeatureRanges(csvFile.value, parse) == Ok(true)
      && QueryGroupsCheck(metaFile.value) == Ok(true))
  {
    if csvFile.None? || metaFile.None? || !HasRequiredKeys(metaFile.value) then Ok(false)
    else
      var csv := csvFile.value;
      var meta := metaFile.value;
      match CsvStructure(csv, meta)
      case Err(e) => Err(e)
      case Ok(structure) =>
        match FeatureRanges(csv, parse)
        case Err(e) => Err(e)
        case Ok(ranges) =>
          match QueryGroupsCheck(meta)
          case Err(e) => Err(e)
          case Ok(groups) => Ok(structure && ranges && groups)
  }

  method RunValidation(csvFile: Option<seq<seq<string>>>, metaFile: Option<map<string, Value>>,
                       parse: string -> Option<real>) returns (r: Result<bool, Error>)
    ensures r == Validation(csvFile, metaFile, parse)
  {
    if csvFile.None? || metaFile.None? {
      return Ok(false);
    }
    var meta := ValidateMetadata(metaFile.value);
    if meta.None? {
      return Ok(false);
    }
    var structure := ValidateCsvStructure(csvFile.value, meta.value);
    if structure.Err? {
      return Err(structure.error);
    }
    var ranges := ValidateFeatureRanges(csvFile.value, parse);
    if ranges.Err? {
      return Err(ranges.error);
    }
    var groups := QueryGroupsCheck(meta.value);
    if groups.Err? {
      return Err(groups.error);
    }
    return Ok(structure.value && ranges.value && groups.value);
  }

  // ----- Exported data passes -----

  /** The metadata as the JSON object the exporter writes (without the timestamp). */
  function MetaJson(meta: TrainingExport.Metadata): (m: map<string, Value>)
    ensures HasRequiredKeys(m)
  {
    map[
      "feature_version" := Str(meta.featureVersion),
      "expected_features" := Num(meta.expectedFeatures as real),
      "feature_names" := List(seq(|meta.featureNames|, i requires 0 <= i < |meta.featureNames| => Str(meta.featureNames[i]))),
      "total_samples" := Num(meta.totalSamples as real),
      "total_queries" := Num(meta.totalQueries as real),
      "query_groups" := List(Nums(meta.queryGroups)),
      "label_type" := Str(meta.labelType),
      "label_description" := Str(meta.labelDescription)]
  }

  /** The CSV records of numeric rows, each value written by `render`. */
  function Rendered(lines: seq<seq<real>>, render: real -> string): (csv: seq<seq<string>>)
    ensures |csv| == |lines| && forall i :: 0 <= i < |lines| ==> |csv[i]| == |lines[i]|
  {
    seq(|lines|, i requires 0 <= i < |lines| => seq(|lines[i]|, j requires 0 <= j < |lines[i]| => render(lines[i][j])))
  }

  /**
   * What the exporter writes passes validation: the header of 30 names, one
   * 30-value row per logged row, and metadata whose groups add up to the
   * sample count. It holds however the values are written, since no row is
   * wider than the header.
   */
  lemma ExportPassesValidation(rows: seq<TrainingExport.DbRow>, lines: seq<seq<real>>,
                               render: real -> string, parse: string -> Option<real>)
    requires |lines| == |rows| && forall i :: 0 <= i < |lines| ==> |lines[i]| == EXPECTED_COLUMNS
    ensures Validation(Some([TrainingExport.FEATURE_NAMES] + Rendered(lines, render)),
                       Some(MetaJson(TrainingExport.MetadataOf(rows))), parse) == Ok(true)
  {
    TrainingExport.HeaderLayout();
    TrainingExport.MetadataConsistent(rows);
    var csv := [TrainingExport.FEATURE_NAMES] + Rendered(lines, render);
    var meta := MetaJson(TrainingExport.MetadataOf(rows));
    assert csv[1..] == Rendered(lines, render);
    assert WithinWidth(EXPECTED_COLUMNS, csv[1..]);
    assert CsvStructure(csv, meta) == Ok(true);
    forall i | 0 <= i < |csv| - 1
      ensures !Overflows(|csv[0]|, csv[1..][i], parse)
    {
    }
    assert FeatureRanges(csv, parse) == Ok(true);
    assert QueryGroupsCheck(meta) == Ok(true);
  }
}
