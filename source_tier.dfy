/**
 * The source-tier filter of the reasoning pipeline: every retrieved item
 * is looked up by its site in the tier table (an unknown site is tier 999,
 * type "unknown"); strict mode drops the items above the mode's maximum
 * tier and the unknown ones, and fails when nothing survives; every kept
 * item is an enriched copy carrying its tier metadata and a tier prefix on
 * its description, in input order.
 *
 * `str()` of a description that is not a string is the parameter `render`.
 */
module SourceTier {
  import opened Wrappers
  import opened Text
  import opened Values

  /** One entry of the tier table. */
  datatype TierInfo = TierInfo(tier: int, kind: string)

  const UNKNOWN_TIER: int := 999
  const DEFAULT_MAX_TIER: int := 5
  const UNKNOWN_PREFIX: string := "[Tier Unknown | unknown]"

  datatype Error =
    | AttributeError          // a `site` that is not a string has no `strip()`
    | NoValidSources(maxTier: int)

  type Item = map<string, Value>

  /** `mode_configs.get(mode, {}).get("max_tier", 5)` */
  function MaxTier(modeConfigs: map<string, map<string, int>>, mode: string): (t: int)
    ensures mode !in modeConfigs ==> t == DEFAULT_MAX_TIER
  {
    if mode in modeConfigs && "max_tier" in modeConfigs[mode] then modeConfigs[mode]["max_tier"] else DEFAULT_MAX_TIER
  }

  /** `item.get("site", "").strip()` */
  function SiteOf(item: Item): (r: Result<string, Error>)
    ensures "site" !in item ==> r == Ok("")
    ensures r.Ok? <==> "site" !in item || item["site"].Str?
  {
    if "site" !in item then Ok("")
    else if item["site"].Str? then Ok(Strip(item["site"].s))
    else Err(AttributeError)
  }

  /** The prefix of an enriched description. */
  function Prefix(tier: int, kind: string): (p: string)
    ensures |p| > 0 && p[0] == '[' && p[|p| - 1] == ']'
  {
    if tier == UNKNOWN_TIER then UNKNOWN_PREFIX
    else "[Tier " + IntText(tier) + " | " + kind + "]"
  }

  /** Only tier 999 is shown as unknown, whatever the type of a known tier says. */
  lemma PrefixUnknownIff(tier: int, kind: string)
    ensures Prefix(tier, kind) == UNKNOWN_PREFIX <==> tier == UNKNOWN_TIER
  {
    if tier != UNKNOWN_TIER {
      var p := Prefix(tier, kind);
      var digits := IntText(tier);
      assert p[6] == digits[0];
      assert UNKNOWN_PREFIX[6] == 'U';
    }
  }

  /** `item.get("description", "")`, as the f-string renders it. */
  function DescriptionOf(item: Item, render: Value -> string): (d: string)
    ensures "description" !in item ==> d == ""
  {
    if "description" !in item then ""
    else if item["description"].Str? then item["description"].s
    else render(item["description"])
  }

  /** The right strip of the joined text removes the description's trailing whitespace, and the separating space too when nothing else is left. */
  lemma DescribedText(prefix: string, description: string)
    requires |prefix| > 0 && !IsSpace(prefix[|prefix| - 1])
    ensures var s := prefix + " " + description; var t := TrimRight(description);
      TrimRight(s) == if t == [] then prefix else prefix + " " + t
  {
    var s := prefix + " " + description;
    var t := TrimRight(description);
    if t == [] {
      assert forall i :: |prefix| <= i < |s| ==> IsSpace(s[i]) by {
        forall i | |prefix| <= i < |s| ensures IsSpace(s[i]) {
          if i > |prefix| {
            assert s[i] == description[i - |prefix| - 1];
          }
        }
      }
      assert s[|prefix| - 1] == prefix[|prefix| - 1];
      TrimRightUnique(s, |prefix|);
      assert s[..|prefix|] == prefix;
    } else {
      var k := |prefix| + 1 + |t|;
      assert s[k - 1] == description[|t| - 1] == t[|t| - 1];
      assert forall i :: k <= i < |s| ==> IsSpace(s[i]) by {
        forall i | k <= i < |s| ensures IsSpace(s[i]) {
          assert s[i] == description[i - |prefix| - 1];
        }
      }
      TrimRightUnique(s, k);
      assert s[..k] == prefix + " " + t;
    }
  }

  /** `f"{prefix} {description}".strip()` */
  function Described(prefix: string, description: string): (d: string)
    requires |prefix| > 0 && !IsSpace(prefix[0]) && !IsSpace(prefix[|prefix| - 1])
    ensures StartsWith(d, prefix)
    ensures |d| <= |prefix| + 1 + |description|
    ensures TrimRight(description) == [] ==> d == prefix
    ensures TrimRight(description) != [] ==> d == prefix + " " + TrimRight(description)
  {
    var s := prefix + " " + description;
    var left := TrimLeft(s);
    assert s[0] == prefix[0];
    assert left == s;
    var d := TrimRight(left);
    DescribedText(prefix, description);
    d
  }

  /** The `_reasoning_metadata` entry of an enriched item. */
  function Metadata(info: TierInfo, source: string): Value
  {
    Dict(map["tier" := Num(info.tier as real), "type" := Str(info.kind), "original_source" := Str(source)])
  }

  /** A copy of `item` with the given metadata and description. */
  function WithMetadata(item: Item, metadata: Value, description: string): (e: Item)
    ensures forall k :: k in e <==> k in item || k == "_reasoning_metadata" || k == "description"
    ensures forall k :: k in item && k != "_reasoning_metadata" && k != "description" ==> k in e && e[k] == item[k]
    ensures "_reasoning_metadata" in e && e["_reasoning_metadata"] == metadata
    ensures "description" in e && e["description"] == Str(description)
  {
    item["_reasoning_metadata" := metadata]["description" := Str(description)]
  }

  /** `_enrich_item`: a copy of `item` with its tier metadata and the tier prefix on its description. */
  function Enrich(item: Item, info: TierInfo, source: string, render: Value -> string): (e: Item)
    ensures "description" in e && e["description"].Str? && StartsWith(e["description"].s, Prefix(info.tier, info.kind))
    ensures var rest := TrimRight(DescriptionOf(item, render));
      e["description"] == Str(if rest == [] then Prefix(info.tier, info.kind) else Prefix(info.tier, info.kind) + " " + rest)
  {
    WithMetadata(item, Metadata(info, source), Described(Prefix(info.tier, info.kind), DescriptionOf(item, render)))
  }

  /** The tier recorded in an item's reasoning metadata, if any. */
  function MetadataTier(e: Item): Option<real>
  {
    if "_reasoning_metadata" in e && e["_reasoning_metadata"].Dict? && "tier" in e["_reasoning_metadata"].fields
       && e["_reasoning_metadata"].fields["tier"].Num?
    then Some(e["_reasoning_metadata"].fields["tier"].n)
    else None
  }

  /** Whether `mode` keeps an item of `tier`: strict mode drops tiers above the maximum and the unknown tier. */
  predicate Keeps(mode: string, maxTier: int, tier: int)
  {
    mode != "strict" || !(tier > maxTier || tier == UNKNOWN_TIER)
  }

  /** What the loop of `filter_and_enrich` does with one item. */
  datatype Outcome = Drop | Keep(enriched: Item) | Fail

  /** The loop over `items`, each handled by `step`, before the strict-mode empty check. */
  function Fold(items: seq<Item>, step: Item -> Outcome): (r: Result<seq<Item>, Error>)
    ensures r.Ok? ==> |r.value| <= |items|
    ensures r.Err? ==> r.error == AttributeError
  {
    if items == [] then Ok([])
    else
      match Fold(items[..|items| - 1], step)
      case Err(e) => Err(e)
      case Ok(out) =>
        match step(items[|items| - 1])
        case Fail => Err(AttributeError)
        case Drop => Ok(out)
        case Keep(e) => Ok(out + [e])
  }

  /** The indices of the kept items, in increasing order. */
  function PicksOf(items: seq<Item>, step: Item -> Outcome): (ps: seq<nat>)
    ensures |ps| <= |items|
    ensures forall j :: 0 <= j < |ps| ==> ps[j] < |items| && step(items[ps[j]]).Keep?
    ensures forall j, j' :: 0 <= j < j' < |ps| ==> ps[j] < ps[j']
  {
    if items == [] then []
    else
      var init := items[..|items| - 1];
      var ps := PicksOf(init, step);
      assert forall j :: 0 <= j < |ps| ==> items[ps[j]] == init[ps[j]];
      if step(items[|items| - 1]).Keep? then ps + [|items| - 1] else ps
  }

  lemma {:induction false} FoldOkIff(items: seq<Item>, step: Item -> Outcome)
    ensures Fold(items, step).Ok? <==> forall i :: 0 <= i < |items| ==> !step(items[i]).Fail?
  {
    if items != [] {
      var init := items[..|items| - 1];
      FoldOkIff(init, step);
      assert forall i :: 0 <= i < |init| ==> items[i] == init[i];
    }
  }

  lemma {:induction false} FoldIsPicks(items: seq<Item>, step: Item -> Outcome)
    requires Fold(items, step).Ok?
    ensures var out := Fold(items, step).value;
      var ps := PicksOf(items, step);
      |out| == |ps| && forall j :: 0 <= j < |ps| ==> out[j] == step(items[ps[j]]).enriched
  {
    if items != [] {
      var init := items[..|items| - 1];
      FoldIsPicks(init, step);
      var ps := PicksOf(init, step);
      assert forall j :: 0 <= j < |ps| ==> items[ps[j]] == init[ps[j]];
    }
  }

  lemma {:induction false} PicksComplete(items: seq<Item>, step: Item -> Outcome, i: nat)
    requires i < |items| && step(items[i]).Keep?
    ensures i in PicksOf(items, step)
  {
    if i < |items| - 1 {
      var init := items[..|items| - 1];
      assert items[i] == init[i];
      PicksComplete(init, step, i);
    }
  }

  lemma {:induction false} PicksAll(items: seq<Item>, step: Item -> Outcome)
    requires forall i :: 0 <= i < |items| ==> step(items[i]).Keep?
    ensures PicksOf(items, step) == seq(|items|, i => i)
  {
    if items != [] {
      var init := items[..|items| - 1];
      assert forall i :: 0 <= i < |init| ==> init[i] == items[i];
      PicksAll(init, step);
    }
  }

  lemma {:induction false} FoldStops(items: seq<Item>, k: nat, step: Item -> Outcome)
    requires k <= |items| && Fold(items[..k], step).Err?
    ensures Fold(items, step) == Fold(items[..k], step)
  {
    if k < |items| {
      assert items[..|items| - 1][..k] == items[..k];
      FoldStops(items[..|items| - 1], k, step);
    } else {
      assert items[..k] == items;
    }
  }

  /** `SourceTierFilter` over its tier table. */
  datatype SourceTierFilter = SourceTierFilter(sourceTiers: map<string, TierInfo>)
  {
    /** `_get_tier_info` */
    function TierInfoOf(source: string): (info: TierInfo)
      ensures source !in sourceTiers ==> info == TierInfo(UNKNOWN_TIER, "unknown")
      ensures source in sourceTiers ==> info == sourceTiers[source]
    {
      if source in sourceTiers then sourceTiers[source] else TierInfo(UNKNOWN_TIER, "unknown")
    }

    /** `get_tier` */
    function GetTier(source: string): (tier: int)
      ensures source !in sourceTiers ==> tier == UNKNOWN_TIER
      ensures source in sourceTiers ==> tier == sourceTiers[source].tier
    {
      TierInfoOf(source).tier
    }

    /** Whether `item` survives the mode: its site is a string and its tier is kept. */
    predicate Kept(item: Item, mode: string, maxTier: int)
    {
      SiteOf(item).Ok? && Keeps(mode, maxTier, TierInfoOf(SiteOf(item).value).tier)
    }

    /** The enriched copy of an item whose site is a string. */
    function Enriched(item: Item, render: Value -> string): Item
      requires SiteOf(item).Ok?
    {
      var source := SiteOf(item).value;
      Enrich(item, TierInfoOf(source), source, render)
    }

    /** One turn of the loop: fail on a site that is not a string, else keep the enriched copy or drop the item. */
    function Step(item: Item, mode: string, maxTier: int, render: Value -> string): (o: Outcome)
      ensures o.Fail? <==> SiteOf(item).Err?
      ensures o.Keep? <==> Kept(item, mode, maxTier)
      ensures o.Keep? ==> o.enriched == Enriched(item, render)
    {
      if SiteOf(item).Err? then Fail
      else if Kept(item, mode, maxTier) then Keep(Enriched(item, render))
      else Drop
    }

    /** The loop of `filter_and_enrich` over `items`. */
    function Filtered(items: seq<Item>, mode: string, maxTier: int, render: Value -> string): Result<seq<Item>, Error>
    {
      Fold(items, (item: Item) => Step(item, mode, maxTier, render))
    }

    /** `filter_and_enrich` */
    function FilterAndEnrich(items: seq<Item>, mode: string, modeConfigs: map<string, map<string, int>>,
                             render: Value -> string): (r: Result<seq<Item>, Error>)
      ensures r.Ok? ==> Filtered(items, mode, MaxTier(modeConfigs, mode), render) == r
      ensures mode == "strict" ==> r != Ok([])
      ensures r == Err(NoValidSources(MaxTier(modeConfigs, mode))) <==>
        mode == "strict" && Filtered(items, mode, MaxTier(modeConfigs, mode), render) == Ok([])
    {
      var maxTier := MaxTier(modeConfigs, mode);
      match Filtered(items, mode, maxTier, render)
      case Err(e) => Err(e)
      case Ok(out) => if mode == "strict" && out == [] then Err(NoValidSources(maxTier)) else Ok(out)
    }

    /** The indices of the surviving items, in increasing order. */
    function Picks(items: seq<Item>, mode: string, maxTier: int, render: Value -> string): seq<nat>
    {
      PicksOf(items, (item: Item) => Step(item, mode, maxTier, render))
    }

    /**
     * The filter fails exactly when some item's site is not a string;
     * otherwise it returns the enriched copies of exactly the surviving
     * items, in input order.
     */
    lemma FilterKeepsExactly(items: seq<Item>, mode: string, maxTier: int, render: Value -> string)
      ensures Filtered(items, mode, maxTier, render).Ok? <==> forall i :: 0 <= i < |items| ==> SiteOf(items[i]).Ok?
      ensures var ps := Picks(items, mode, maxTier, render);
        (forall j, j' :: 0 <= j < j' < |ps| ==> ps[j] < ps[j'])
        && forall i :: 0 <= i < |items| ==> (i in ps <==> Kept(items[i], mode, maxTier))
      ensures Filtered(items, mode, maxTier, render).Ok? ==>
        var out := Filtered(items, mode, maxTier, render).value;
        var ps := Picks(items, mode, maxTier, render);
        |out| == |ps| && forall j :: 0 <= j < |ps| ==> out[j] == Enriched(items[ps[j]], render)
    {
      var step := (item: Item) => Step(item, mode, maxTier, render);
      FoldOkIff(items, step);
      forall i | 0 <= i < |items|
        ensures i in Picks(items, mode, maxTier, render) <==> Kept(items[i], mode, maxTier)
      {
        if Kept(items[i], mode, maxTier) {
          PicksComplete(items, step, i);
        }
      }
      if Filtered(items, mode, maxTier, render).Ok? {
        FoldIsPicks(items, step);
      }
    }

    /** Outside strict mode every item is kept, in order, as its enriched copy. */
    lemma NonStrictKeepsAll(items: seq<Item>, mode: string, maxTier: int, render: Value -> string)
      requires mode != "strict"
      requires forall i :: 0 <= i < |items| ==> SiteOf(items[i]).Ok?
      ensures Filtered(items, mode, maxTier, render).Ok?
      ensures var out := Filtered(items, mode, maxTier, render).value;
        |out| == |items| && forall i :: 0 <= i < |items| ==> out[i] == Enriched(items[i], render)
    {
      var step := (item: Item) => Step(item, mode, maxTier, render);
      FoldOkIff(items, step);
      FoldIsPicks(items, step);
      PicksAll(items, step);
    }

    /** An enriched copy records the tier of its site. */
    lemma EnrichedTier(item: Item, render: Value -> string)
      requires SiteOf(item).Ok?
      ensures MetadataTier(Enriched(item, render)) == Some(TierInfoOf(SiteOf(item).value).tier as real)
    {
      var source := SiteOf(item).value;
      var info := TierInfoOf(source);
      var m := Metadata(info, source);
      assert m.fields["tier"] == Num(info.tier as real);
    }

    /** In strict mode every kept item carries a known tier no larger than the maximum. */
    lemma StrictKeepsKnownTiers(items: seq<Item>, maxTier: int, render: Value -> string)
      requires Filtered(items, "strict", maxTier, render).Ok?
      ensures forall e :: e in Filtered(items, "strict", maxTier, render).value ==>
        MetadataTier(e).Some? && MetadataTier(e).value <= maxTier as real && MetadataTier(e).value != UNKNOWN_TIER as real
    {
      var step := (item: Item) => Step(item, "strict", maxTier, render);
      FoldIsPicks(items, step);
      var out := Filtered(items, "strict", maxTier, render).value;
      var ps := PicksOf(items, step);
      forall e | e in out
        ensures MetadataTier(e).Some? && MetadataTier(e).value <= maxTier as real
        ensures MetadataTier(e).value != UNKNOWN_TIER as real
      {
        var j :| 0 <= j < |out| && out[j] == e;
        var item := items[ps[j]];
        assert Kept(item, "strict", maxTier);
        EnrichedTier(item, render);
      }
    }

    /** The loop of `filter_and_enrich`, with the strict-mode check after it. */
    method FilterAndEnrichItems(items: seq<Item>, mode: string, modeConfigs: map<string, map<string, int>>,
                                render: Value -> string) returns (r: Result<seq<Item>, Error>)
      ensures r == FilterAndEnrich(items, mode, modeConfigs, render)
    {
      var maxTier := MaxTier(modeConfigs, mode);
      var step := (item: Item) => Step(item, mode, maxTier, render);
      var out: seq<Item> := [];
      assert items[..0] == [];
      for i := 0 to |items|
        invariant Fold(items[..i], step) == Ok(out)
      {
        assert items[..i + 1][..i] == items[..i];
        var outcome := Step(items[i], mode, maxTier, render);
        match outcome
        case Fail =>
          FoldStops(items, i + 1, step);
          return Err(AttributeError);
        case Keep(enriched) =>
          out := out + [enriched];
        case Drop =>
      }
      assert items[..|items|] == items;
      if mode == "strict" && out == [] {
        return Err(NoValidSources(maxTier));
      }
      return Ok(out);
    }
  }
}
