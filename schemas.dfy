/**
 * The structured outputs of the deep-research agents (analyst, critic,
 * writer) and their validation: every field has its type, enumerated
 * status fields accept only their literals, length floors apply, citation
 * and source ids are positive, list fields default to empty, and a draft
 * must be at least 100 characters when the analyst says it is ready.
 *
 * An output is validated from a decoded JSON object; the result is the
 * typed record or the names of the failing fields, in declaration order.
 * Extra keys are ignored, as the validation library does by default.
 */
module Schemas {
  import opened Wrappers
  import opened Values
  import opened Text

  // ----- field parsers -----

  function StrOf(v: Value): (r: Option<string>)
    ensures r.Some? <==> v.Str?
  {
    if v.Str? then Some(v.s) else None
  }

  /** The integer a number equals, if it has no fractional part. */
  function Whole(x: real): (r: Option<int>)
    ensures r.Some? ==> r.value as real == x
    ensures r.None? ==> x.Floor as real < x
  {
    if x.Floor as real == x then Some(x.Floor) else None
  }

  /**
   * An integer as the validation library's lax mode reads one: a number
   * without a fractional part, or a string that `int()` reads.
   */
  function IntOf(v: Value): (r: Option<int>)
    ensures r.Some? ==> v.Num? || v.Str?
    ensures v.Num? ==> r == Whole(v.n)
    ensures v.Str? ==> (r.Some? <==> IntDigits(Unsigned(Strip(v.s))))
  {
    if v.Num? then Whole(v.n)
    else if v.Str? then ParseInt(v.s)
    else None
  }

  /** A string of digits is coerced to the number it writes, as the number itself is. */
  lemma NumericStringCoerced(d: string, k: int)
    requires IntDigits(d)
    ensures IntOf(Str(d)) == Some(DigitsValue(d))
    ensures IntOf(Num(k as real)) == Some(k)
  {
    ParseIntDigits(d);
  }

  /** A list of strings. */
  function StrsOf(v: Value): (r: Option<seq<string>>)
    ensures r.Some? ==> v.List? && |r.value| == |v.items|
  {
    if !v.List? then None else StrItems(v.items)
  }

  function StrItems(items: seq<Value>): (r: Option<seq<string>>)
    ensures r.Some? ==> |r.value| == |items| && forall i :: 0 <= i < |items| ==> items[i] == Str(r.value[i])
  {
    if items == [] then Some([])
    else
      match StrItems(items[..|items| - 1])
      case None => None
      case Some(init) =>
        if items[|items| - 1].Str? then Some(init + [items[|items| - 1].s]) else None
  }

  /** A list of integers. */
  function IntsOf(v: Value): (r: Option<seq<int>>)
    ensures r.Some? ==> v.List? && |r.value| == |v.items|
  {
    if !v.List? then None else IntItems(v.items)
  }

  function IntItems(items: seq<Value>): (r: Option<seq<int>>)
    ensures r.Some? ==> |r.value| == |items|
  {
    if items == [] then Some([])
    else
      var init, n := IntItems(items[..|items| - 1]), IntOf(items[|items| - 1]);
      if init.Some? && n.Some? then Some(init.value + [n.value]) else None
  }

  lemma IntItemsStep(items: seq<Value>)
    requires items != [] && IntItems(items).Some?
    ensures IntItems(items[..|items| - 1]).Some? && IntOf(items[|items| - 1]).Some?
    ensures IntItems(items).value == IntItems(items[..|items| - 1]).value + [IntOf(items[|items| - 1]).value]
  {
    var init, n := IntItems(items[..|items| - 1]), IntOf(items[|items| - 1]);
    assert IntItems(items) == if init.Some? && n.Some? then Some(init.value + [n.value]) else None;
  }

  /** An accepted list of integers holds, in order, the integer each item reads as. */
  lemma {:induction false} IntItemsReads(items: seq<Value>)
    requires IntItems(items).Some?
    ensures |IntItems(items).value| == |items|
    ensures forall i :: 0 <= i < |items| ==> IntOf(items[i]) == Some(IntItems(items).value[i])
  {
    if items != [] {
      var front := items[..|items| - 1];
      IntItemsReads(front);
      var init, last := IntItems(front).value, items[|items| - 1];
      var r := IntItems(items).value;
      IntItemsStep(items);
      forall i | 0 <= i < |items|
        ensures IntOf(items[i]) == Some(r[i])
      {
        if i < |front| {
          assert items[i] == front[i] && r[i] == init[i];
          assert IntOf(front[i]) == Some(init[i]);
        } else {
          assert items[i] == last && r[i] == IntOf(last).value;
        }
      }
    }
  }

  /** A list of integers is refused exactly when one of its items does not read as an integer. */
  lemma {:induction false} IntItemsRefuses(items: seq<Value>)
    ensures IntItems(items).None? <==> exists i :: 0 <= i < |items| && IntOf(items[i]).None?
  {
    if items != [] {
      var front, last := items[..|items| - 1], items[|items| - 1];
      IntItemsRefuses(front);
      if IntItems(front).None? {
        var i :| 0 <= i < |front| && IntOf(front[i]).None?;
        assert items[i] == front[i];
      } else if IntOf(last).Some? {
        assert IntItems(items).Some?;
        forall i | 0 <= i < |items| ensures IntOf(items[i]).Some? {
          if i < |front| {
            assert items[i] == front[i];
          }
        }
      }
    }
  }

  function StrList(xs: seq<string>): (v: Value)
    ensures v.List? && |v.items| == |xs|
  {
    List(seq(|xs|, i requires 0 <= i < |xs| => Str(xs[i])))
  }

  function IntList(xs: seq<int>): (v: Value)
    ensures v.List? && |v.items| == |xs|
  {
    List(seq(|xs|, i requires 0 <= i < |xs| => Num(xs[i] as real)))
  }

  lemma {:induction false} StrItemsRoundTrip(xs: seq<string>)
    ensures StrsOf(StrList(xs)) == Some(xs)
  {
    if xs != [] {
      var init := xs[..|xs| - 1];
      StrItemsRoundTrip(init);
      assert StrList(xs).items[..|xs| - 1] == StrList(init).items;
      assert init + [xs[|xs| - 1]] == xs;
    }
  }

  lemma {:induction false} IntItemsRoundTrip(xs: seq<int>)
    ensures IntsOf(IntList(xs)) == Some(xs)
  {
    if xs != [] {
      var init := xs[..|xs| - 1];
      IntItemsRoundTrip(init);
      assert IntList(xs).items[..|xs| - 1] == IntList(init).items;
      assert IntOf(Num(xs[|xs| - 1] as real)) == Some(xs[|xs| - 1]);
      assert init + [xs[|xs| - 1]] == xs;
    }
  }

  /** A required field. */
  function Required<T>(d: map<string, Value>, key: string, parse: Value -> Option<T>): (r: Option<T>)
    ensures key !in d ==> r.None?
  {
    if key in d then parse(d[key]) else None
  }

  /** A list field that defaults to empty. */
  function Listed<T>(d: map<string, Value>, key: string, parse: Value -> Option<seq<T>>): (r: Option<seq<T>>)
    ensures key !in d ==> r == Some([])
  {
    if key in d then parse(d[key]) else Some([])
  }

  /** The failing field's name, or nothing. */
  function Check(name: string, ok: bool): (errors: seq<string>)
    ensures errors == [] <==> ok
  {
    if ok then [] else [name]
  }

  predicate AllPositive(xs: seq<int>)
  {
    forall i :: 0 <= i < |xs| ==> xs[i] > 0
  }

  // ----- AnalystResearchOutput -----

  datatype AnalystStatus = DraftReady | SearchRequired

  function AnalystStatusOf(v: Value): (r: Option<AnalystStatus>)
    ensures r == Some(DraftReady) <==> v == Str("DRAFT_READY")
    ensures r == Some(SearchRequired) <==> v == Str("SEARCH_REQUIRED")
  {
    if v == Str("DRAFT_READY") then Some(DraftReady)
    else if v == Str("SEARCH_REQUIRED") then Some(SearchRequired)
    else None
  }

  function AnalystStatusText(s: AnalystStatus): string
  {
    match s
    case DraftReady => "DRAFT_READY"
    case SearchRequired => "SEARCH_REQUIRED"
  }

  datatype AnalystResearchOutput = AnalystResearchOutput(
    status: AnalystStatus,
    draft: string,
    reasoningChain: string,
    citationsUsed: seq<int>,
    missingInformation: seq<string>,
    newQueries: seq<string>)
  {
    /** What every validated analyst output satisfies. */
    predicate Valid()
    {
      (status == DraftReady ==> |draft| >= 100) && AllPositive(citationsUsed)
    }

    /** The output as a JSON object. */
    function Dump(): (d: map<string, Value>)
    {
      map["status" := Str(AnalystStatusText(status)), "draft" := Str(draft), "reasoning_chain" := Str(reasoningChain),
          "citations_used" := IntList(citationsUsed), "missing_information" := StrList(missingInformation),
          "new_queries" := StrList(newQueries)]
    }
  }

  /**
   * Validating an analyst output. The draft check reads the status only
   * when the status itself validated.
   */
  function ParseAnalyst(d: map<string, Value>): (r: Result<AnalystResearchOutput, seq<string>>)
    ensures r.Ok? ==> r.value.Valid()
    ensures r.Err? ==> r.error != []
    ensures ("status" in d && d["status"] == Str("DRAFT_READY") && "draft" in d && d["draft"].Str?
             && |d["draft"].s| < 100) ==> r.Err? && "draft" in r.error
  {
    var status := Required(d, "status", AnalystStatusOf);
    var draft := Required(d, "draft", StrOf);
    var chain := Required(d, "reasoning_chain", StrOf);
    var citations := Listed(d, "citations_used", IntsOf);
    var missing := Listed(d, "missing_information", StrsOf);
    var queries := Listed(d, "new_queries", StrsOf);
    var errors :=
      Check("status", status.Some?)
      + Check("draft", draft.Some? && !(status == Some(DraftReady) && |draft.value| < 100))
      + Check("reasoning_chain", chain.Some?)
      + Check("citations_used", citations.Some? && AllPositive(citations.value))
      + Check("missing_information", missing.Some?)
      + Check("new_queries", queries.Some?);
    if errors == [] then
      Ok(AnalystResearchOutput(status.value, draft.value, chain.value, citations.value, missing.value, queries.value))
    else Err(errors)
  }

  /** A valid analyst output validates back to itself from its JSON object. */
  lemma AnalystRoundTrip(o: AnalystResearchOutput)
    requires o.Valid()
    ensures ParseAnalyst(o.Dump()) == Ok(o)
  {
    IntItemsRoundTrip(o.citationsUsed);
    StrItemsRoundTrip(o.missingInformation);
    StrItemsRoundTrip(o.newQueries);
  }

  // ----- CriticReviewOutput -----

  datatype CriticStatus = Pass | Warn | Reject
  datatype Compliance = Complies | Violates

  function CriticStatusOf(v: Value): (r: Option<CriticStatus>)
    ensures r.Some? <==> v in {Str("PASS"), Str("WARN"), Str("REJECT")}
  {
    if v == Str("PASS") then Some(Pass)
    else if v == Str("WARN") then Some(Warn)
    else if v == Str("REJECT") then Some(Reject)
    else None
  }

  function CriticStatusText(s: CriticStatus): string
  {
    match s
    case Pass => "PASS"
    case Warn => "WARN"
    case Reject => "REJECT"
  }

  function ComplianceOf(v: Value): (r: Option<Compliance>)
    ensures r.Some? <==> v in {Str("符合"), Str("違反")}
  {
    if v == Str("符合") then Some(Complies)
    else if v == Str("違反") then Some(Violates)
    else None
  }

  function ComplianceText(c: Compliance): string
  {
    match c
    case Complies => "符合"
    case Violates => "違反"
  }

  datatype CriticReviewOutput = CriticReviewOutput(
    status: CriticStatus,
    critique: string,
    suggestions: seq<string>,
    modeCompliance: Compliance,
    logicalGaps: seq<string>,
    sourceIssues: seq<string>)
  {
    predicate Valid()
    {
      |critique| >= 50
    }

    function Dump(): (d: map<string, Value>)
    {
      map["status" := Str(CriticStatusText(status)), "critique" := Str(critique), "suggestions" := StrList(suggestions),
          "mode_compliance" := Str(ComplianceText(modeCompliance)), "logical_gaps" := StrList(logicalGaps),
          "source_issues" := StrList(sourceIssues)]
    }
  }

  function ParseCritic(d: map<string, Value>): (r: Result<CriticReviewOutput, seq<string>>)
    ensures r.Ok? ==> r.value.Valid()
    ensures r.Err? ==> r.error != []
  {
    var status := Required(d, "status", CriticStatusOf);
    var critique := Required(d, "critique", StrOf);
    var suggestions := Listed(d, "suggestions", StrsOf);
    var compliance := Required(d, "mode_compliance", ComplianceOf);
    var gaps := Listed(d, "logical_gaps", StrsOf);
    var issues := Listed(d, "source_issues", StrsOf);
    var errors :=
      Check("status", status.Some?)
      + Check("critique", critique.Some? && |critique.value| >= 50)
      + Check("suggestions", suggestions.Some?)
      + Check("mode_compliance", compliance.Some?)
      + Check("logical_gaps", gaps.Some?)
      + Check("source_issues", issues.Some?);
    if errors == [] then
      Ok(CriticReviewOutput(status.value, critique.value, suggestions.value, compliance.value, gaps.value, issues.value))
    else Err(errors)
  }

  lemma CriticRoundTrip(o: CriticReviewOutput)
    requires o.Valid()
    ensures ParseCritic(o.Dump()) == Ok(o)
  {
    var d := o.Dump();
    StrItemsRoundTrip(o.suggestions);
    StrItemsRoundTrip(o.logicalGaps);
    StrItemsRoundTrip(o.sourceIssues);
    assert Required(d, "status", CriticStatusOf) == Some(o.status);
    assert Required(d, "critique", StrOf) == Some(o.critique);
    assert Required(d, "mode_compliance", ComplianceOf) == Some(o.modeCompliance);
    assert Listed(d, "suggestions", StrsOf) == Some(o.suggestions);
    assert Listed(d, "logical_gaps", StrsOf) == Some(o.logicalGaps);
    assert Listed(d, "source_issues", StrsOf) == Some(o.sourceIssues);
  }

  // ----- WriterComposeOutput -----

  datatype Confidence = High | Medium | Low

  function ConfidenceOf(v: Value): (r: Option<Confidence>)
    ensures r.Some? <==> v in {Str("High"), Str("Medium"), Str("Low")}
  {
    if v == Str("High") then Some(High)
    else if v == Str("Medium") then Some(Medium)
    else if v == Str("Low") then Some(Low)
    else None
  }

  function ConfidenceText(c: Confidence): string
  {
    match c
    case High => "High"
    case Medium => "Medium"
    case Low => "Low"
  }

  datatype WriterComposeOutput = WriterComposeOutput(
    finalReport: string,
    sourcesUsed: seq<int>,
    confidenceLevel: Confidence,
    methodologyNote: string)
  {
    predicate Valid()
    {
      |finalReport| >= 200 && AllPositive(sourcesUsed)
    }

    function Dump(): (d: map<string, Value>)
    {
      map["final_report" := Str(finalReport), "sources_used" := IntList(sourcesUsed),
          "confidence_level" := Str(ConfidenceText(confidenceLevel)), "methodology_note" := Str(methodologyNote)]
    }
  }

  /** Validating a writer output: here the source list is required. */
  function ParseWriter(d: map<string, Value>): (r: Result<WriterComposeOutput, seq<string>>)
    ensures r.Ok? ==> r.value.Valid()
    ensures r.Err? ==> r.error != []
    ensures "sources_used" !in d ==> r.Err? && "sources_used" in r.error
  {
    var report := Required(d, "final_report", StrOf);
    var sources := Required(d, "sources_used", IntsOf);
    var confidence := Required(d, "confidence_level", ConfidenceOf);
    var note := Required(d, "methodology_note", StrOf);
    var errors :=
      Check("final_report", report.Some? && |report.value| >= 200)
      + Check("sources_used", sources.Some? && AllPositive(sources.value))
      + Check("confidence_level", confidence.Some?)
      + Check("methodology_note", note.Some?);
    if errors == [] then Ok(WriterComposeOutput(report.value, sources.value, confidence.value, note.value))
    else Err(errors)
  }

  lemma WriterRoundTrip(o: WriterComposeOutput)
    requires o.Valid()
    ensures ParseWriter(o.Dump()) == Ok(o)
  {
    IntItemsRoundTrip(o.sourcesUsed);
    assert ConfidenceOf(Str(ConfidenceText(o.confidenceLevel))) == Some(o.confidenceLevel);
  }
}
