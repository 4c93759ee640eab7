/**
 * The Wikidata client: one SPARQL query per (entity type, name), whose first
 * binding becomes a snippet of labelled facts and a link to the entity page.
 * The name enters the query inside a string literal, `"<name>"@en`.
 */
module Wikidata {
  import opened Wrappers
  import opened Text
  import opened ProviderCache

  const DEFAULT_TTL_HOURS: real := 24.0
  const DEFAULT_MAX_SIZE: int := 200
  const NO_DETAILS: string := "無詳細資料"
  const ENTITY_PAGE: string := "https://www.wikidata.org/wiki/"

  datatype Kind = Company | Person | Generic

  /** Which query builder `_fetch_entity_data` calls. */
  function KindOf(entityType: string): (k: Kind)
    ensures k == Company <==> entityType == "company"
    ensures k == Person <==> entityType == "person"
  {
    if entityType == "company" then Company
    else if entityType == "person" then Person
    else Generic
  }

  // ----- The name inside the SPARQL string literal -----

  /** Where a SPARQL string literal body ends: the first quote not taken by a backslash escape. */
  function Closing(s: string): (r: Option<nat>)
    ensures r.Some? ==> r.value < |s| && s[r.value] == '"'
    decreases |s|
  {
    if s == [] then None
    else if s[0] == '\\' then
      if |s| < 2 then None
      else match Closing(s[2..]) case Some(i) => Some(i + 2) case None => None
    else if s[0] == '"' then Some(0)
    else match Closing(s[1..]) case Some(i) => Some(i + 1) case None => None
  }

  /** What a SPARQL reader makes of a literal body: a backslash stands for the character after it. */
  function Decode(s: string): (r: string)
    decreases |s|
  {
    if s == [] then []
    else if s[0] == '\\' && |s| >= 2 then [s[1]] + Decode(s[2..])
    else [s[0]] + Decode(s[1..])
  }

  /** `name.replace('"', '\\"')`: quotes are escaped, backslashes are not. */
  function EscapeAsWritten(name: string): (r: string)
    ensures |r| >= |name|
  {
    if name == [] then []
    else (if name[0] == '"' then "\\\"" else [name[0]]) + EscapeAsWritten(name[1..])
  }

  /**
   * A name holding a backslash followed by a quote escapes to `\\"`, in
   * which the reader takes the backslashes as one escaped backslash and the
   * quote as the end of the literal: the literal closes inside the name and
   * the rest of the name is read as query text.
   */
  lemma EscapeAsWrittenClosesEarly()
    ensures var escaped := EscapeAsWritten("\\\"");
      escaped == "\\\\\"" && Closing(escaped + "\"") == Some(2) && |escaped| == 3
  {
    var escaped := EscapeAsWritten("\\\"");
    assert escaped == "\\\\\"" by {
      assert EscapeAsWritten("\"") == "\\\"" by {
        assert EscapeAsWritten("\""[1..]) == [];
      }
      assert "\\\""[1..] == "\"";
    }
    assert (escaped + "\"")[2..] == "\"\"";
  }

  /** The escaping the literal needs: backslashes first, then quotes. */
  function Escape(name: string): (r: string)
    ensures |r| >= |name|
  {
    if name == [] then []
    else (if name[0] == '"' || name[0] == '\\' then ['\\', name[0]] else [name[0]]) + Escape(name[1..])
  }

  /** With both escaped, the literal closes exactly at its own closing quote, whatever follows it. */
  lemma {:induction false} EscapeClosesAtEnd(name: string, rest: string)
    requires rest != [] && rest[0] == '"'
    ensures Closing(Escape(name) + rest) == Some(|Escape(name)|)
    decreases |name|
  {
    if name != [] {
      EscapeClosesAtEnd(name[1..], rest);
      var head := if name[0] == '"' || name[0] == '\\' then ['\\', name[0]] else [name[0]];
      var s := Escape(name) + rest;
      assert s == head + (Escape(name[1..]) + rest);
      if |head| == 2 {
        assert s[2..] == Escape(name[1..]) + rest;
      } else {
        assert s[1..] == Escape(name[1..]) + rest;
      }
    }
  }

  /** ... and the reader gets the name back. */
  lemma {:induction false} EscapeDecodes(name: string)
    ensures Decode(Escape(name)) == name
    decreases |name|
  {
    if name != [] {
      EscapeDecodes(name[1..]);
      var s := Escape(name);
      if name[0] == '"' || name[0] == '\\' {
        assert s[2..] == Escape(name[1..]);
      } else {
        assert s[1..] == Escape(name[1..]);
      }
    }
  }

  /** The literal that goes into the query. */
  function LabelLiteral(name: string): (r: string)
    ensures |r| == |Escape(name)| + 5
    ensures Closing(r[1..]) == Some(|Escape(name)|) && Decode(r[1..1 + |Escape(name)|]) == name
  {
    var r := "\"" + Escape(name) + "\"@en";
    EscapeClosesAtEnd(name, "\"@en");
    EscapeDecodes(name);
    assert r[1..] == Escape(name) + "\"@en";
    assert r[1..1 + |Escape(name)|] == Escape(name);
    r
  }

  // ----- The answer -----

  /** The fields of the first binding (`.get("value", "")`; the label is missing as `None`). */
  datatype Binding = Binding(
    itemLabel: Option<string>, description: string, uri: string,
    inception: string, headquarters: string, ceo: string, industry: string,
    birthDate: string, occupation: string, nationality: string)

  /** The SPARQL endpoint's reply: an HTTP status and the bindings, or a failed request. */
  datatype Response = Response(status: int, bindings: seq<Binding>) | Failed

  /** `date[:4] if len(date) >= 4 else date` */
  function Year(date: string): (y: string)
    ensures |y| == Min(4, |date|) && y == date[..|y|]
  {
    if |date| >= 4 then date[..4] else date
  }

  /** `part` behind its label when it is non-empty; nothing otherwise. */
  function Labelled(prefix: string, part: string): (r: seq<string>)
    ensures r == [] <==> part == ""
  {
    if part == "" then [] else [prefix + part]
  }

  /** The snippet parts, in the order the source appends them. */
  function SnippetParts(kind: Kind, b: Binding): (r: seq<string>)
    ensures r == [] <==> b.description == "" && match kind
      case Company => b.inception == "" && b.headquarters == "" && b.ceo == "" && b.industry == ""
      case Person => b.birthDate == "" && b.occupation == "" && b.nationality == ""
      case Generic => true
    ensures |r| <= (match kind case Company => 5 case Person => 4 case Generic => 1)
  {
    Labelled("", b.description)
    + match kind
      case Company =>
        (if b.inception == "" then [] else ["成立: " + Year(b.inception) + "年"])
        + Labelled("總部: ", b.headquarters) + Labelled("CEO: ", b.ceo) + Labelled("產業: ", b.industry)
      case Person =>
        (if b.birthDate == "" then [] else ["出生: " + Year(b.birthDate) + "年"])
        + Labelled("職業: ", b.occupation) + Labelled("國籍: ", b.nationality)
      case Generic => []
  }

  function Snippet(parts: seq<string>): (r: string)
    ensures parts == [] ==> r == NO_DETAILS
    ensures |parts| == 1 ==> r == parts[0]
  {
    if parts == [] then NO_DETAILS else Join(parts, " | ")
  }

  /** `uri.split("/")[-1]`: what follows the last slash. */
  function LastSegment(uri: string): (r: string)
    ensures |r| <= |uri| && r == uri[|uri| - |r|..]
    ensures '/' !in r
    ensures |r| < |uri| ==> uri[|uri| - |r| - 1] == '/'
    decreases |uri|
  {
    if uri == [] || uri[|uri| - 1] == '/' then []
    else LastSegment(uri[..|uri| - 1]) + [uri[|uri| - 1]]
  }

  /** The entity page when the URI names one; the URI itself otherwise. */
  function Link(uri: string): (r: string)
    ensures LastSegment(uri) != "" ==> r == ENTITY_PAGE + LastSegment(uri)
    ensures LastSegment(uri) == "" ==> r == uri
  {
    var entityId := if uri != "" then LastSegment(uri) else "";
    if entityId != "" then ENTITY_PAGE + entityId else uri
  }

  /** `_fetch_entity_data` after the request: only a 200 reply with a binding gives an article. */
  function FormatEntity(name: string, kind: Kind, response: Response): (r: Option<Article>)
    ensures r.Some? <==> response.Response? && response.status == 200 && response.bindings != []
    ensures r.Some? ==> var b := response.bindings[0];
      r.value.title == "[Wikidata] " + b.itemLabel.GetOr(name)
      && r.value.snippet == Snippet(SnippetParts(kind, b))
      && r.value.link == Link(b.uri)
  {
    match response
    case Failed => None
    case Response(status, bindings) =>
      if status != 200 || bindings == [] then None
      else
        var b := bindings[0];
        Some(Article("[Wikidata] " + b.itemLabel.GetOr(name), Snippet(SnippetParts(kind, b)), Link(b.uri),
                     "company_global", "wikidata"))
  }

  function ParseResponse(name: string, kind: Kind, fetch: Fetch<Response>): (r: Fetch<Option<Article>>)
    ensures fetch.TimedOut? <==> r.TimedOut?
    ensures fetch.Fetched? ==> r.result == FormatEntity(name, kind, fetch.result)
  {
    match fetch
    case Fetched(response) => Fetched(FormatEntity(name, kind, response))
    case TimedOut => TimedOut
  }

  /** `f"{entity_type}:{name}"` */
  function CacheKey(entityType: string, name: string): (k: string)
    ensures |k| == |entityType| + 1 + |name| && k[|entityType|] == ':'
  {
    entityType + ":" + name
  }

  class WikidataClient {
    var enabled: bool
    const cache: TtlCache<string, Article>

    predicate Valid()
      reads this, cache
    {
      cache.Valid()
    }

    constructor (enabled: bool, cacheEnabled: bool, ttlHours: real, maxSize: int)
      ensures this.enabled == enabled
      ensures cache.enabled == cacheEnabled && cache.ttl == ttlHours * 3600.0 && cache.maxSize == maxSize
      ensures cache.entries == map[] && Valid()
      ensures fresh(cache)
    {
      this.enabled := enabled;
      cache := new TtlCache(cacheEnabled, ttlHours * 3600.0, maxSize);
    }

    /** `search`: the stripped name is the one queried, cached and shown. */
    method Search(name: string, entityType: string, fetch: Fetch<Response>, now: real) returns (results: seq<Article>)
      requires Valid()
      modifies cache`entries
      ensures Valid()
      ensures !enabled ==> results == [] && cache.entries == old(cache.entries)
      ensures enabled ==> results == AsList(Answer(old(cache.entries), cache.enabled, cache.ttl, cache.maxSize,
        CacheKey(entityType, Strip(name)), ParseResponse(Strip(name), KindOf(entityType), fetch), now))
      ensures enabled ==> SearchEffect(old(cache.entries), cache.entries, cache.enabled, cache.ttl, cache.maxSize,
        CacheKey(entityType, Strip(name)), ParseResponse(Strip(name), KindOf(entityType), fetch), now)
    {
      if !enabled {
        return [];
      }
      var stripped := Strip(name);
      var key := CacheKey(entityType, stripped);
      var parsed := ParseResponse(stripped, KindOf(entityType), fetch);
      var answer := cache.Search(key, parsed, now);
      results := AsList(answer);
    }
  }
}
