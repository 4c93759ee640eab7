/**
 * The configuration loader: YAML files of the configuration directory,
 * read through a least-recently-used cache of twenty entries, typed
 * accessors with their fallbacks, and a dot-separated key lookup that
 * falls back to a default.
 *
 * The directory's contents are the parameter `disk` (file name without
 * `.yaml` to its parsed document); YAML parsing is not part of this model.
 */
module ConfigLoader {
  import opened Wrappers
  import opened Text
  import opened Values

  datatype Error = FileNotFound(name: string) | AttributeError

  /** The number of documents the cache keeps. */
  const CACHE_SIZE: nat := 20

  /** Reading one file: missing is `FileNotFoundError`, an empty document is `{}` (`config or {}`). */
  function LoadFile(disk: map<string, Value>, name: string): (r: Result<Value, Error>)
    ensures name !in disk <==> r == Err(FileNotFound(name))
    ensures r.Ok? ==> Truthy(r.value) || r.value == Dict(map[])
  {
    if name !in disk then Err(FileNotFound(name))
    else if Truthy(disk[name]) then Ok(disk[name])
    else Ok(Dict(map[]))
  }

  /** `d.get(key, default)` on a document that must be a dict. */
  function SectionGet(d: Value, key: string, default: Value): (r: Result<Value, Error>)
    ensures !d.Dict? <==> r == Err(AttributeError)
    ensures d.Dict? && key !in d.fields ==> r == Ok(default)
  {
    if !d.Dict? then Err(AttributeError)
    else if key in d.fields then Ok(d.fields[key]) else Ok(default)
  }

  /** `section.get(mode, section.get("discovery", {}))` */
  function ModeEntry(section: Value, mode: string): (r: Result<Value, Error>)
    ensures !section.Dict? ==> r == Err(AttributeError)
    ensures section.Dict? && mode in section.fields ==> r == Ok(section.fields[mode])
    ensures section.Dict? && mode !in section.fields && "discovery" in section.fields ==> r == Ok(section.fields["discovery"])
    ensures section.Dict? && mode !in section.fields && "discovery" !in section.fields ==> r == Ok(Dict(map[]))
  {
    match SectionGet(section, "discovery", Dict(map[]))
    case Err(e) => Err(e)
    case Ok(fallback) => SectionGet(section, mode, fallback)
  }

  /** `get_mode_patterns` on a loaded document. */
  function ModePatterns(config: Value): (r: Result<Value, Error>)
    ensures config.Dict? && "mode_patterns" !in config.fields ==> r == Ok(Dict(map[]))
  {
    SectionGet(config, "mode_patterns", Dict(map[]))
  }

  /** `get_default_mode` on a loaded document. */
  function DefaultMode(config: Value): (r: Result<Value, Error>)
    ensures config.Dict? && "default_mode" !in config.fields ==> r == Ok(Str("discovery"))
  {
    SectionGet(config, "default_mode", Str("discovery"))
  }

  /** The per-mode entry of a section of a loaded document (`get_critic_rules`, `get_source_tier_config`). */
  function SectionMode(config: Value, section: string, mode: string): (r: Result<Value, Error>)
    ensures config.Dict? && section !in config.fields ==> r == Ok(Dict(map[]))
  {
    match SectionGet(config, section, Dict(map[]))
    case Err(e) => Err(e)
    case Ok(entries) => ModeEntry(entries, mode)
  }

  /**
   * The value at a key path: every step needs a dict and a non-`None`
   * value, else the lookup gives the default (`None` here).
   */
  function Path(value: Value, keys: seq<string>): (r: Option<Value>)
    ensures r.Some? && keys != [] ==> r.value != Null
    decreases |keys|
  {
    if keys == [] then Some(value)
    else if !value.Dict? then None
    else
      var next := Get(value.fields, keys[0]);
      if next == Null then None else Path(next, keys[1..])
  }

  /** `get(config_name, key, default)` on the outcome of loading the file. */
  function GetKey(loaded: Result<Value, Error>, key: string, default: Value): (r: Value)
    ensures loaded.Err? ==> r == default
    ensures r == Null ==> default == Null
  {
    match loaded
    case Err(_) => default
    case Ok(config) =>
      match Path(config, SplitChar(key, '.'))
      case None => default
      case Some(v) => v
  }

  /** A dotted key walks one dict level per piece. */
  lemma GetKeyNested(fields: map<string, Value>, head: string, key: string, default: Value)
    requires '.' !in head && head in fields && fields[head] != Null
    ensures GetKey(Ok(Dict(fields)), head + "." + key, default) == GetKey(Ok(fields[head]), key, default)
  {
    var s := head + "." + key;
    SplitCharAfter(head, key, '.');
    assert SplitChar(s, '.')[1..] == SplitChar(key, '.');
  }

  /** The pieces of `head + [c] + key` are `head` and then the pieces of `key`. */
  lemma {:induction false} SplitCharAfter(head: string, key: string, c: char)
    requires c !in head
    ensures SplitChar(head + [c] + key, c) == [head] + SplitChar(key, c)
    decreases |head|
  {
    var s := head + [c] + key;
    if head == [] {
      assert s[1..] == key;
    } else {
      assert s[1..] == head[1..] + [c] + key;
      assert s[0] == head[0] && [head[0]] + head[1..] == head;
      SplitCharAfter(head[1..], key, c);
    }
  }

  /** The loop of `get` over the key pieces. */
  method Lookup(config: Value, keys: seq<string>, default: Value) returns (r: Value)
    ensures r == (match Path(config, keys) case None => default case Some(v) => v)
  {
    var value := config;
    for i := 0 to |keys|
      invariant Path(value, keys[i..]) == Path(config, keys)
      invariant i > 0 ==> value != Null
    {
      assert keys[i..][1..] == keys[i + 1..];
      if !value.Dict? {
        return default;
      }
      value := Get(value.fields, keys[i]);
      if value == Null {
        return default;
      }
    }
    assert keys[|keys|..] == [];
    return value;
  }

  /** The cached document of `name`, if any. */
  function CachedIn(cache: seq<(string, Value)>, name: string): (r: Option<nat>)
    ensures r.Some? ==> r.value < |cache| && cache[r.value].0 == name
    ensures r.None? ==> forall i :: 0 <= i < |cache| ==> cache[i].0 != name
  {
    if cache == [] then None
    else if cache[|cache| - 1].0 == name then Some(|cache| - 1)
    else CachedIn(cache[..|cache| - 1], name)
  }

  class ConfigLoader {
    /** The cached documents, least recently used first. */
    var cache: seq<(string, Value)>

    predicate Valid()
      reads this
    {
      |cache| <= CACHE_SIZE && forall i, j :: 0 <= i < j < |cache| ==> cache[i].0 != cache[j].0
    }

    /** The document the cache holds for `name`. */
    function Cached(name: string): Option<Value>
      reads this
    {
      match CachedIn(cache, name)
      case None => None
      case Some(i) => Some(cache[i].1)
    }

    /** What `load(name)` returns: the cached document, else the file. */
    function Loaded(name: string, disk: map<string, Value>): Result<Value, Error>
      reads this
    {
      match Cached(name)
      case Some(v) => Ok(v)
      case None => LoadFile(disk, name)
    }

    constructor ()
      ensures cache == [] && Valid()
    {
      cache := [];
    }

    /**
     * `load`: a cached document is returned and becomes the most recently
     * used; otherwise the file is read, cached (evicting the least recently
     * used entry beyond twenty) and returned. A missing file is not cached.
     */
    method Load(name: string, disk: map<string, Value>) returns (r: Result<Value, Error>)
      requires Valid()
      modifies this
      ensures Valid()
      ensures r == old(Loaded(name, disk))
      ensures r.Ok? ==> |cache| > 0 && cache[|cache| - 1] == (name, r.value)
      ensures r.Err? ==> cache == old(cache)
      ensures forall e :: e in cache ==> e in old(cache) || e == (name, r.value)
      ensures old(CachedIn(cache, name)).Some? ==>
        var i := old(CachedIn(cache, name)).value;
        cache == old(cache)[..i] + old(cache)[i + 1..] + [old(cache)[i]]
      ensures old(CachedIn(cache, name)).None? && r.Ok? ==>
        var grown := old(cache) + [(name, r.value)];
        cache == if |grown| > CACHE_SIZE then grown[1..] else grown
    {
      var idx := CachedIn(cache, name);
      if idx.Some? {
        var i := idx.value;
        var e := cache[i];
        cache := cache[..i] + cache[i + 1..] + [e];
        assert forall k :: 0 <= k < |cache| - 1 ==> cache[k] == old(cache)[if k < i then k else k + 1];
        return Ok(e.1);
      }
      var loaded := LoadFile(disk, name);
      if loaded.Err? {
        return loaded;
      }
      cache := cache + [(name, loaded.value)];
      if |cache| > CACHE_SIZE {
        cache := cache[1..];
      }
      return loaded;
    }

    /** `reload`: every cached document is dropped. */
    method Reload()
      modifies this
      ensures cache == [] && Valid()
    {
      cache := [];
    }

    /** `get_mode_patterns` */
    method GetModePatterns(disk: map<string, Value>) returns (r: Result<Value, Error>)
      requires Valid()
      modifies this
      ensures Valid()
      ensures r == (match old(Loaded("mode_detection", disk)) case Err(e) => Err(e) case Ok(c) => ModePatterns(c))
    {
      var loaded := Load("mode_detection", disk);
      r := if loaded.Err? then Err(loaded.error) else ModePatterns(loaded.value);
    }

    /** `get_default_mode` */
    method GetDefaultMode(disk: map<string, Value>) returns (r: Result<Value, Error>)
      requires Valid()
      modifies this
      ensures Valid()
      ensures r == (match old(Loaded("mode_detection", disk)) case Err(e) => Err(e) case Ok(c) => DefaultMode(c))
    {
      var loaded := Load("mode_detection", disk);
      r := if loaded.Err? then Err(loaded.error) else DefaultMode(loaded.value);
    }

    /** `get_critic_rules` */
    method GetCriticRules(mode: string, disk: map<string, Value>) returns (r: Result<Value, Error>)
      requires Valid()
      modifies this
      ensures Valid()
      ensures r == (match old(Loaded("critic_rules", disk))
                    case Err(e) => Err(e)
                    case Ok(c) => SectionMode(c, "mode_compliance_rules", mode))
    {
      var loaded := Load("critic_rules", disk);
      r := if loaded.Err? then Err(loaded.error) else SectionMode(loaded.value, "mode_compliance_rules", mode);
    }

    /** `get_source_tier_config` */
    method GetSourceTierConfig(mode: string, disk: map<string, Value>) returns (r: Result<Value, Error>)
      requires Valid()
      modifies this
      ensures Valid()
      ensures r == (match old(Loaded("source_filtering", disk))
                    case Err(e) => Err(e)
                    case Ok(c) => SectionMode(c, "source_tier_config", mode))
    {
      var loaded := Load("source_filtering", disk);
      r := if loaded.Err? then Err(loaded.error) else SectionMode(loaded.value, "source_tier_config", mode);
    }

    /** `get_tier_definitions` */
    method GetTierDefinitions(disk: map<string, Value>) returns (r: Result<Value, Error>)
      requires Valid()
      modifies this
      ensures Valid()
      ensures r == (match old(Loaded("source_filtering", disk))
                    case Err(e) => Err(e)
                    case Ok(c) => SectionGet(c, "tier_definitions", Dict(map[])))
    {
      var loaded := Load("source_filtering", disk);
      r := if loaded.Err? then Err(loaded.error) else SectionGet(loaded.value, "tier_definitions", Dict(map[]));
    }

    /** `get`: a missing file gives the default; otherwise the dotted key is looked up. */
    method Get(name: string, key: string, default: Value, disk: map<string, Value>) returns (r: Value)
      requires Valid()
      modifies this
      ensures Valid()
      ensures r == GetKey(old(Loaded(name, disk)), key, default)
    {
      var loaded := Load(name, disk);
      if loaded.Err? {
        return default;
      }
      r := Lookup(loaded.value, SplitChar(key, '.'), default);
    }
  }
}
