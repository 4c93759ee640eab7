/**
 * The deep-research handler's rule-based mode detection and the temporal
 * context it hands to the reasoning module.
 *
 * The current date is the parameter `today`; the orchestrator run, the
 * mock results and the message sending are not part of this model.
 */
module DeepResearch {
  import opened Wrappers
  import opened Text
  import opened Values

  datatype Mode = Strict | Discovery | Monitor

  function ModeName(m: Mode): (s: string)
    ensures s in {"strict", "discovery", "monitor"}
  {
    match m
    case Strict => "strict"
    case Discovery => "discovery"
    case Monitor => "monitor"
  }

  const FACT_CHECK_KEYWORDS: seq<string> :=
    ["verify", "is it true", "fact check", "check if", "真的嗎", "查證", "驗證", "是真的", "確認"]

  const MONITOR_KEYWORDS: seq<string> :=
    ["how has", "evolution", "trend", "sentiment", "tracking", "over time", "changed", "shift",
     "輿情", "變化", "趨勢", "演變", "追蹤"]

  /**
   * `_detect_research_mode`: strict when the lower-cased query holds a
   * fact-check keyword (checked first, so it wins over monitoring words),
   * else monitor when it holds a monitoring keyword, else discovery.
   */
  function DetectResearchMode(query: string): (m: Mode)
    ensures m == Strict <==> AnyIn(FACT_CHECK_KEYWORDS, Lower(query))
    ensures m == Monitor <==> !AnyIn(FACT_CHECK_KEYWORDS, Lower(query)) && AnyIn(MONITOR_KEYWORDS, Lower(query))
    ensures m == Discovery <==> !AnyIn(FACT_CHECK_KEYWORDS, Lower(query)) && !AnyIn(MONITOR_KEYWORDS, Lower(query))
  {
    var q := Lower(query);
    if AnyIn(FACT_CHECK_KEYWORDS, q) then Strict
    else if AnyIn(MONITOR_KEYWORDS, q) then Monitor
    else Discovery
  }

  /**
   * `_get_temporal_context`: a missing or empty temporal range gives a
   * non-temporal context with method "none" and no dates; otherwise its
   * entries are copied (`is_temporal` defaulting to false).
   */
  function TemporalContext(temporalRange: Option<map<string, Value>>, today: string): (c: map<string, Value>)
    ensures c.Keys == {"is_temporal_query", "method", "start_date", "end_date", "relative_days", "current_date"}
    ensures c["current_date"] == Str(today)
    ensures temporalRange.None? || temporalRange.value == map[] ==>
      c["is_temporal_query"] == Bool(false) && c["method"] == Str("none")
      && c["start_date"] == Null && c["end_date"] == Null && c["relative_days"] == Null
    ensures temporalRange.Some? && temporalRange.value != map[] ==>
      var r := temporalRange.value;
      c["is_temporal_query"] == (if "is_temporal" in r then r["is_temporal"] else Bool(false))
      && c["method"] == Get(r, "method") && c["start_date"] == Get(r, "start_date")
      && c["end_date"] == Get(r, "end_date") && c["relative_days"] == Get(r, "relative_days")
  {
    var present := temporalRange.Some? && Truthy(Dict(temporalRange.value));
    var r := if present then temporalRange.value else map[];
    map["is_temporal_query" := (if present then (if "is_temporal" in r then r["is_temporal"] else Bool(false)) else Bool(false)),
        "method" := (if present then Get(r, "method") else Str("none")),
        "start_date" := (if present then Get(r, "start_date") else Null),
        "end_date" := (if present then Get(r, "end_date") else Null),
        "relative_days" := (if present then Get(r, "relative_days") else Null),
        "current_date" := Str(today)]
  }
}
