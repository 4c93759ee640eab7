/**
 * The post-ranking step: when the connection is gone the query is marked
 * done and nothing else happens; otherwise a "results_map" message listing
 * the results that carry a postal address is sent when at least half of
 * the results have one. The MMR re-ranking of the summary step is gated
 * on its configuration, the result count and the available vectors, and
 * leaves no vector on the answers it returns.
 *
 * `str()` of a value that is not a string is the parameter `render`; the
 * LLM summary prompt and the analytics logging are not part of this model.
 */
module PostRanking {
  import opened Wrappers
  import opened Text
  import opened Values
  import Mmr

  /** One location of the map message. */
  datatype Location = Location(title: Value, address: string)

  /** The structured address fields, in the order their values are joined. */
  const STRUCTURED_FIELDS: seq<string> := ["streetAddress", "addressLocality", "addressRegion", "postalCode"]

  /** `str(v)`: a string is itself, anything else is rendered. */
  function StrOf(v: Value, render: Value -> string): (s: string)
    ensures v.Str? ==> s == v.s
  {
    if v.Str? then v.s else render(v)
  }

  /** `s.split(", {")[0]`: the text before the first `", {"`. */
  function CutAtDict(s: string): (r: string)
    ensures |r| <= |s| && r == s[..|r|]
    ensures !Contains(r, ", {")
    ensures Contains(s, ", {") <==> r != s
  {
    var parts := SplitOnce(s, ", {");
    if |parts| == 2 then
      SplitOnceHead(s, ", {");
      assert s[..|parts[0]|] == parts[0];
      parts[0]
    else
      parts[0]
  }

  /** The values of the structured fields that are present and not dicts, as strings, in field order. */
  function StructuredParts(addr: map<string, Value>, fields: seq<string>, render: Value -> string): (parts: seq<Value>)
    ensures |parts| <= |fields|
    ensures forall i :: 0 <= i < |parts| ==> parts[i].Str?
  {
    if fields == [] then []
    else
      var rest := StructuredParts(addr, fields[..|fields| - 1], render);
      var f := fields[|fields| - 1];
      if f in addr && !addr[f].Dict? then rest + [Str(StrOf(addr[f], render))] else rest
  }

  /** The country part: the `name` of a country dict (taken as it is), or a country string not starting with `{`. */
  function CountryPart(addr: map<string, Value>): (part: seq<Value>)
    ensures |part| <= 1
  {
    if "addressCountry" !in addr then []
    else
      match addr["addressCountry"]
      case Dict(c) => if "name" in c then [c["name"]] else []
      case Str(s) => if !StartsWith(s, "{") then [Str(s)] else []
      case _ => []
  }

  /** The strings of `parts`, or `None` when one of them is not a string (the `TypeError` of `join`). */
  function Strings(parts: seq<Value>): (r: Option<seq<string>>)
    ensures r.Some? <==> forall i :: 0 <= i < |parts| ==> parts[i].Str?
    ensures r.Some? ==> |r.value| == |parts| && forall i :: 0 <= i < |parts| ==> r.value[i] == parts[i].s
  {
    if parts == [] then Some([])
    else
      match Strings(parts[..|parts| - 1])
      case None => None
      case Some(init) =>
        if parts[|parts| - 1].Str? then Some(init + [parts[|parts| - 1].s]) else None
  }

  /** A structured address: its parts joined by ", " (`Null` when there are none), or `Err` when a country name is not a string. */
  function Structured(addr: map<string, Value>, render: Value -> string): (r: Result<Value, string>)
    ensures r.Ok? ==> r.value == Null || r.value.Str?
    ensures r.Err? ==> "addressCountry" in addr && addr["addressCountry"].Dict?
  {
    var parts := StructuredParts(addr, STRUCTURED_FIELDS, render) + CountryPart(addr);
    if parts == [] then Ok(Null)
    else
      match Strings(parts)
      case None =>
        assert !parts[|parts| - 1].Str?;
        Err("TypeError")
      case Some(strings) => Ok(Str(Join(strings, ", ")))
  }

  /**
   * The address of one result: the first truthy of the schema's address,
   * location, streetAddress and postalAddress, cut before an embedded dict
   * when it is a string with `{`, joined from its parts when it is a dict;
   * `None` when that leaves nothing truthy.
   */
  function AddressOf(result: map<string, Value>, render: Value -> string): (r: Result<Option<string>, string>)
    ensures "schema_object" !in result || !result["schema_object"].Dict? ==> r == Ok(None)
  {
    if "schema_object" !in result then Ok(None)
    else
      match result["schema_object"]
      case Dict(schema) =>
        var first := OrChain([Get(schema, "address"), Get(schema, "location"),
                              Get(schema, "streetAddress"), Get(schema, "postalAddress")]);
        var address :=
          if first.Str? && '{' in first.s then Ok(Str(CutAtDict(first.s)))
          else if first.Dict? then Structured(first.fields, render)
          else Ok(first);
        (match address
         case Err(e) => Err(e)
         case Ok(a) => Ok(if Truthy(a) then Some(StrOf(a, render)) else None))
      case _ => Ok(None)
  }

  /** The locations of `results` in order, or the first error. */
  function Locations(results: seq<map<string, Value>>, render: Value -> string): (r: Result<seq<Location>, string>)
    ensures r.Ok? ==> |r.value| <= |results|
  {
    if results == [] then Ok([])
    else
      match Locations(results[..|results| - 1], render)
      case Err(e) => Err(e)
      case Ok(locs) =>
        var result := results[|results| - 1];
        match AddressOf(result, render)
        case Err(e) => Err(e)
        case Ok(None) => Ok(locs)
        case Ok(Some(a)) => Ok(locs + [Location(Title(result), a)])
  }

  /** `result.get('name', 'Unnamed')` */
  function Title(result: map<string, Value>): Value
  {
    if "name" in result then result["name"] else Str("Unnamed")
  }

  /** The results that carry a schema object. */
  function WithSchema(results: seq<map<string, Value>>): (n: nat)
    ensures n <= |results|
  {
    if results == [] then 0
    else WithSchema(results[..|results| - 1]) + (if "schema_object" in results[|results| - 1] then 1 else 0)
  }

  /** Only results with a schema object give a location: at most one each. */
  lemma {:induction false} LocationsFromSchemas(results: seq<map<string, Value>>, render: Value -> string)
    ensures Locations(results, render).Ok? ==> |Locations(results, render).value| <= WithSchema(results)
  {
    if results != [] {
      LocationsFromSchemas(results[..|results| - 1], render);
    }
  }

  /**
   * The message `check_and_send_map_message` sends: the locations when
   * they are at least half of a non-empty result list, else none. An
   * exception while collecting is caught and sends nothing.
   */
  function MapMessage(results: seq<map<string, Value>>, render: Value -> string): (m: Option<seq<Location>>)
    ensures m.Some? ==> Locations(results, render) == Ok(m.value)
    ensures m.Some? ==> 0 < |m.value| <= |results| && 2 * |m.value| >= |results|
    ensures (Locations(results, render).Ok? && |Locations(results, render).value| > 0
             && 2 * |Locations(results, render).value| >= |results|) ==> m.Some?
  {
    if results == [] then None
    else
      match Locations(results, render)
      case Err(_) => None
      case Ok(locs) => if |locs| > 0 && 2 * |locs| >= |results| then Some(locs) else None
  }

  /** The messages one check sends: the map message, when there is one. */
  function MapSent(results: seq<map<string, Value>>, render: Value -> string): (sent: seq<seq<Location>>)
    ensures |sent| <= 1
    ensures sent != [] <==> MapMessage(results, render).Some?
  {
    match MapMessage(results, render)
    case Some(locs) => [locs]
    case None => []
  }

  /** The collecting loop of `check_and_send_map_message`. */
  method CollectLocations(results: seq<map<string, Value>>, render: Value -> string) returns (r: Result<seq<Location>, string>)
    ensures r == Locations(results, render)
  {
    var locs: seq<Location> := [];
    assert results[..0] == [];
    for i := 0 to |results|
      invariant Locations(results[..i], render) == Ok(locs)
    {
      assert results[..i + 1][..i] == results[..i];
      var address := AddressOf(results[i], render);
      if address.Err? {
        LocationsStop(results, i + 1, render);
        return Err(address.error);
      }
      if address.value.Some? {
        locs := locs + [Location(Title(results[i]), address.value.value)];
      }
    }
    assert results[..|results|] == results;
    return Ok(locs);
  }

  lemma {:induction false} LocationsStop(results: seq<map<string, Value>>, k: nat, render: Value -> string)
    requires k <= |results| && Locations(results[..k], render).Err?
    ensures Locations(results, render) == Locations(results[..k], render)
  {
    if k < |results| {
      assert results[..|results| - 1][..k] == results[..k];
      LocationsStop(results[..|results| - 1], k, render);
    } else {
      assert results[..k] == results;
    }
  }

  /** The request state the step reads and updates. */
  class Handler {
    var connectionAlive: bool
    var queryDone: bool
    var finalRankedAnswers: seq<map<string, Value>>
    /** The map messages sent, in order. */
    var sent: seq<seq<Location>>

    constructor (alive: bool, answers: seq<map<string, Value>>)
      ensures connectionAlive == alive && !queryDone && finalRankedAnswers == answers && sent == []
    {
      connectionAlive := alive;
      queryDone := false;
      finalRankedAnswers := answers;
      sent := [];
    }
  }

  class PostRankingStep {
    var handler: Handler

    constructor (handler: Handler)
      ensures this.handler == handler
    {
      this.handler := handler;
    }

    /** `check_and_send_map_message` */
    method CheckAndSendMapMessage(render: Value -> string)
      modifies handler
      ensures handler.sent == old(handler.sent) + MapSent(old(handler.finalRankedAnswers), render)
      ensures handler.connectionAlive == old(handler.connectionAlive) && handler.queryDone == old(handler.queryDone)
      ensures handler.finalRankedAnswers == old(handler.finalRankedAnswers)
    {
      var results := handler.finalRankedAnswers;
      if results == [] {
        return;
      }
      var collected := CollectLocations(results, render);
      if collected.Err? {
        return;
      }
      var locs := collected.value;
      if |locs| > 0 && 2 * |locs| >= |results| {
        handler.sent := handler.sent + [locs];
      }
    }

    /** `do`, up to the summary prompt: a dead connection only marks the query done. */
    method Do(render: Value -> string)
      modifies handler
      ensures !old(handler.connectionAlive) ==> (handler.queryDone && handler.sent == old(handler.sent)
                                                 && handler.finalRankedAnswers == old(handler.finalRankedAnswers))
      ensures old(handler.connectionAlive) ==> (handler.queryDone == old(handler.queryDone)
                                                && handler.sent == old(handler.sent) + MapSent(old(handler.finalRankedAnswers), render))
      ensures handler.connectionAlive == old(handler.connectionAlive)
    {
      if !handler.connectionAlive {
        handler.queryDone := true;
        return;
      }
      CheckAndSendMapMessage(render);
    }
  }

  // ----- MMR re-ranking in the summary step -----

  /** Each answer whose url has a vector gets it; the others keep theirs. */
  function Attach(ranked: seq<Mmr.Doc>, urlToVector: map<string, Mmr.Vec>): (r: seq<Mmr.Doc>)
    ensures |r| == |ranked|
    ensures forall i :: 0 <= i < |r| ==>
      r[i] == (if ranked[i].url in urlToVector then ranked[i].(vector := Some(urlToVector[ranked[i].url])) else ranked[i])
  {
    seq(|ranked|, i requires 0 <= i < |ranked| =>
      if ranked[i].url in urlToVector then ranked[i].(vector := Some(urlToVector[ranked[i].url])) else ranked[i])
  }

  /** `result.pop('vector', None)` on every answer. */
  function Strip(docs: seq<Mmr.Doc>): (r: seq<Mmr.Doc>)
    ensures |r| == |docs|
    ensures forall i :: 0 <= i < |r| ==> r[i] == docs[i].(vector := None)
  {
    seq(|docs|, i requires 0 <= i < |docs| => docs[i].(vector := None))
  }

  /** The λ the re-ranker settles on for `query`. */
  function AdjustedLambda(query: string, lambda: real): real
  {
    if query == [] then lambda else Mmr.Classify(query, lambda).0
  }

  /**
   * `apply_mmr_reranking`: the answers unchanged when MMR is disabled, when
   * there are no more answers than the threshold, or when no vector is
   * known; otherwise every answer re-ranked (top k is the answer count)
   * with its vector attached, and then no answer keeps a vector.
   */
  method ApplyMmrReranking(ranked: seq<Mmr.Doc>, urlToVector: map<string, Mmr.Vec>, enabled: bool,
                           threshold: int, lambda: real, query: string, quotient: (Mmr.Vec, Mmr.Vec) -> real)
    returns (answers: seq<Mmr.Doc>)
    ensures !enabled || |ranked| <= threshold || urlToVector == map[] ==> answers == ranked
    ensures enabled && |ranked| > threshold && urlToVector != map[] ==>
      answers == Strip(Mmr.RerankSpec(Attach(ranked, urlToVector), |ranked|, AdjustedLambda(query, lambda), quotient).0)
    ensures enabled && |ranked| > threshold && urlToVector != map[] ==>
      forall i :: 0 <= i < |answers| ==> answers[i].vector.None?
  {
    if !enabled {
      return ranked;
    }
    if |ranked| <= threshold {
      return ranked;
    }
    if urlToVector == map[] {
      return ranked;
    }
    var withVectors := ranked;
    for i := 0 to |ranked|
      invariant |withVectors| == |ranked|
      invariant forall j :: 0 <= j < i ==> withVectors[j] == Attach(ranked, urlToVector)[j]
      invariant forall j :: i <= j < |ranked| ==> withVectors[j] == ranked[j]
    {
      var url := ranked[i].url;
      if url in urlToVector {
        withVectors := withVectors[i := withVectors[i].(vector := Some(urlToVector[url]))];
      }
    }
    assert withVectors == Attach(ranked, urlToVector);
    var reranker := new Mmr.MmrReranker(lambda, query);
    var reranked, scores := reranker.Rerank(withVectors, |withVectors|, quotient);
    answers := reranked;
    for i := 0 to |answers|
      invariant |answers| == |reranked|
      invariant forall j :: 0 <= j < i ==> answers[j] == reranked[j].(vector := None)
      invariant forall j :: i <= j < |answers| ==> answers[j] == reranked[j]
    {
      answers := answers[i := answers[i].(vector := None)];
    }
    assert answers == Strip(reranked);
  }
}
