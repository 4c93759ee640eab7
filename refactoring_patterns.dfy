/**
 * The nesting-reduction helpers shared by the handlers: safe nested
 * lookup, multi-predicate filtering, guarded processing, first match,
 * per-item error-tolerant batch processing, a dictionary switch, a chain
 * of conditions and the required/optional key extraction.
 *
 * Python callables are function parameters. `getattr` on an object that
 * is not a dict is the parameter `attr` (`None` when `hasattr` is false);
 * a processor that raises is a `Raised` outcome.
 */
module RefactoringPatterns {
  import opened Wrappers
  import opened Values

  // ----- safe_get -----

  /** The value at the end of the key path from `current`, or `None` where `safe_get` gives its default. */
  function Walk(current: Value, keys: seq<string>, attr: (Value, string) -> Option<Value>): (r: Option<Value>)
    ensures r.Some? ==> r.value != Null
    decreases |keys|
  {
    if current == Null then None
    else if keys == [] then Some(current)
    else if current.Dict? then Walk(Get(current.fields, keys[0]), keys[1..], attr)
    else
      match attr(current, keys[0])
      case None => None
      case Some(next) => Walk(next, keys[1..], attr)
  }

  /** `safe_get(data, *keys, default=default)` */
  function SafeGet(data: Value, keys: seq<string>, default: Value, attr: (Value, string) -> Option<Value>): (r: Value)
    ensures r == Null ==> default == Null
    ensures keys == [] ==> r == (if data == Null then default else data)
  {
    match Walk(data, keys, attr)
    case None => default
    case Some(v) => v
  }

  /** A dict step moves to the key's value; a missing key ends in the default. */
  lemma SafeGetDictStep(fields: map<string, Value>, key: string, rest: seq<string>, default: Value,
                        attr: (Value, string) -> Option<Value>)
    ensures key in fields ==> SafeGet(Dict(fields), [key] + rest, default, attr) == SafeGet(fields[key], rest, default, attr)
    ensures key !in fields ==> SafeGet(Dict(fields), [key] + rest, default, attr) == default
  {
    var keys := [key] + rest;
    assert keys[0] == key && keys[1..] == rest;
    assert Walk(Dict(fields), keys, attr) == Walk(Get(fields, key), rest, attr);
  }

  /**
   * A step from anything that is not a dict goes through `getattr`: a
   * missing attribute, or one that is `None`, ends in the default, as
   * does a `None` reached part-way.
   */
  lemma SafeGetAttrStep(v: Value, key: string, rest: seq<string>, default: Value,
                        attr: (Value, string) -> Option<Value>)
    ensures v == Null ==> SafeGet(v, [key] + rest, default, attr) == default
    ensures !v.Dict? && (attr(v, key).None? || attr(v, key) == Some(Null)) ==>
      SafeGet(v, [key] + rest, default, attr) == default
    ensures !v.Dict? && v != Null && attr(v, key).Some? ==>
      SafeGet(v, [key] + rest, default, attr) == SafeGet(attr(v, key).value, rest, default, attr)
  {
    var keys := [key] + rest;
    assert keys[0] == key && keys[1..] == rest;
    assert Walk(Null, rest, attr) == None;
  }

  /** The loop of `safe_get`. */
  method SafeGetLoop(data: Value, keys: seq<string>, default: Value, attr: (Value, string) -> Option<Value>)
    returns (r: Value)
    ensures r == SafeGet(data, keys, default, attr)
  {
    var current := data;
    for i := 0 to |keys|
      invariant Walk(current, keys[i..], attr) == Walk(data, keys, attr)
    {
      assert keys[i..][1..] == keys[i + 1..];
      if current == Null {
        return default;
      }
      if current.Dict? {
        current := Get(current.fields, keys[i]);
      } else {
        var next := attr(current, keys[i]);
        if next.None? {
          return default;
        }
        current := next.value;
      }
    }
    return if current != Null then current else default;
  }

  // ----- filter_items -----

  /** The items of `xs` satisfying `p`, in order. */
  function Select<T>(xs: seq<T>, p: T -> bool): (r: seq<T>)
    ensures |r| <= |xs|
    ensures forall x :: x in r ==> x in xs && p(x)
    ensures forall x :: x in xs && p(x) ==> x in r
  {
    if xs == [] then []
    else (if p(xs[0]) then [xs[0]] else []) + Select(xs[1..], p)
  }

  /** The items satisfying every predicate. */
  predicate AllHold<T>(predicates: seq<T -> bool>, x: T)
  {
    forall j :: 0 <= j < |predicates| ==> predicates[j](x)
  }

  /** `filter_items`: one pass per predicate, in order. */
  function FilterItems<T>(items: seq<T>, predicates: seq<T -> bool>): (r: seq<T>)
    ensures predicates == [] ==> r == items
  {
    if predicates == [] then items
    else Select(FilterItems(items, predicates[..|predicates| - 1]), predicates[|predicates| - 1])
  }

  /** `p` and then `q`. */
  function Both<T>(p: T -> bool, q: T -> bool): T -> bool
  {
    x => p(x) && q(x)
  }

  /** Every one of `predicates`. */
  function AllOf<T>(predicates: seq<T -> bool>): T -> bool
  {
    x => AllHold(predicates, x)
  }

  lemma {:induction false} SelectSelect<T>(xs: seq<T>, p: T -> bool, q: T -> bool)
    ensures Select(Select(xs, p), q) == Select(xs, Both(p, q))
  {
    if xs != [] {
      SelectSelect(xs[1..], p, q);
      if p(xs[0]) {
        assert Select(xs, p)[1..] == Select(xs[1..], p);
      } else {
        assert Select(xs, p) == Select(xs[1..], p);
      }
    }
  }

  lemma {:induction false} SelectSame<T>(xs: seq<T>, p: T -> bool, q: T -> bool)
    requires forall x :: p(x) == q(x)
    ensures Select(xs, p) == Select(xs, q)
  {
    if xs != [] {
      SelectSame(xs[1..], p, q);
    }
  }

  lemma {:induction false} SelectAll<T>(xs: seq<T>, p: T -> bool)
    requires forall x :: p(x)
    ensures Select(xs, p) == xs
  {
    if xs != [] {
      SelectAll(xs[1..], p);
    }
  }

  /** Filtering predicate by predicate keeps exactly the items satisfying all of them, in input order. */
  lemma {:induction false} FilterItemsSelectsAll<T>(items: seq<T>, predicates: seq<T -> bool>)
    ensures FilterItems(items, predicates) == Select(items, AllOf(predicates))
  {
    if predicates == [] {
      SelectAll(items, AllOf(predicates));
    } else {
      var init := predicates[..|predicates| - 1];
      var last := predicates[|predicates| - 1];
      FilterItemsSelectsAll(items, init);
      SelectSelect(items, AllOf(init), last);
      forall x
        ensures Both(AllOf(init), last)(x) == AllOf(predicates)(x)
      {
        assert forall j :: 0 <= j < |init| ==> init[j] == predicates[j];
      }
      SelectSame(items, Both(AllOf(init), last), AllOf(predicates));
    }
  }

  /** The comprehension loop of `filter_items`. */
  method FilterItemsLoop<T>(items: seq<T>, predicates: seq<T -> bool>) returns (result: seq<T>)
    ensures result == FilterItems(items, predicates)
  {
    result := items;
    for i := 0 to |predicates|
      invariant result == FilterItems(items, predicates[..i])
    {
      assert predicates[..i + 1][..i] == predicates[..i];
      result := Select(result, predicates[i]);
    }
    assert predicates[..|predicates|] == predicates;
  }

  // ----- process_if_valid, first_match, switch_on -----

  /** `process_if_valid`: the processed data, or the default for `None` or data the validator refuses. */
  function ProcessIfValid<T>(data: Value, validator: Value -> bool, processor: Value -> T, default: T): (r: T)
    ensures data != Null && validator(data) ==> r == processor(data)
    ensures data == Null || !validator(data) ==> r == default
  {
    if data == Null then default
    else if !validator(data) then default
    else processor(data)
  }

  /**
   * The guard the helper's documentation says it replaces: data is
   * processed only when it is truthy and valid.
   */
  function ProcessIfTruthy<T>(data: Value, validator: Value -> bool, processor: Value -> T, default: T): (r: T)
    ensures Truthy(data) && validator(data) ==> r == processor(data)
    ensures !Truthy(data) || !validator(data) ==> r == default
  {
    if !Truthy(data) then default
    else if !validator(data) then default
    else processor(data)
  }

  /**
   * The helper and the guard it replaces agree on `None` and on truthy
   * data; on falsy data other than `None` (0, "", [], {}) the helper
   * processes what the guard would have skipped.
   */
  lemma ProcessIfValidVersusGuard<T>(data: Value, validator: Value -> bool, processor: Value -> T, default: T)
    ensures data == Null || Truthy(data) ==>
      ProcessIfValid(data, validator, processor, default) == ProcessIfTruthy(data, validator, processor, default)
    ensures data != Null && !Truthy(data) && validator(data) ==>
      ProcessIfValid(data, validator, processor, default) == processor(data)
      && ProcessIfTruthy(data, validator, processor, default) == default
  {
  }

  /** Zero passes the `is None` test: a validator accepting it gets it processed, where the guard returns the default. */
  lemma ZeroIsProcessed()
    ensures ProcessIfValid(Num(0.0), _ => true, _ => 1, 0) == 1
    ensures ProcessIfTruthy(Num(0.0), _ => true, _ => 1, 0) == 0
  {
  }

  /** `first_match`: the first item satisfying the predicate, or the default. */
  method FirstMatch<T>(items: seq<T>, matches: T -> bool, default: T) returns (r: T)
    ensures (forall i :: 0 <= i < |items| ==> !matches(items[i])) ==> r == default
    ensures (exists i :: 0 <= i < |items| && matches(items[i])) ==>
      exists i :: 0 <= i < |items| && matches(items[i]) && r == items[i] && forall j :: 0 <= j < i ==> !matches(items[j])
  {
    for i := 0 to |items|
      invariant forall j :: 0 <= j < i ==> !matches(items[j])
    {
      if matches(items[i]) {
        return items[i];
      }
    }
    return default;
  }

  /** `switch_on`: `cases.get(value, default)`. */
  function SwitchOn<K, T>(value: K, cases: map<K, T>, default: T): (r: T)
    ensures value in cases ==> r == cases[value]
    ensures value !in cases ==> r == default
  {
    if value in cases then cases[value] else default
  }

  // ----- batch_process -----

  /** What one processor call does: return a value (`None` included) or raise. */
  datatype Call<R> = Returned(result: Option<R>) | Raised

  /** The non-`None` results, in item order. */
  function Collected<T, R>(items: seq<T>, processor: T -> Call<R>): (rs: seq<R>)
    ensures |rs| <= |items|
  {
    if items == [] then []
    else
      var rest := Collected(items[..|items| - 1], processor);
      match processor(items[|items| - 1])
      case Returned(Some(r)) => rest + [r]
      case _ => rest
  }

  /** The items whose processing raised, in order. */
  function Failed<T, R>(items: seq<T>, processor: T -> Call<R>): (fs: seq<T>)
    ensures forall x :: x in fs ==> x in items && processor(x).Raised?
  {
    if items == [] then []
    else
      var rest := Failed(items[..|items| - 1], processor);
      var x := items[|items| - 1];
      if processor(x).Raised? then rest + [x] else rest
  }

  /** The items whose processor returned `None`. */
  function NoneCount<T, R>(items: seq<T>, processor: T -> Call<R>): nat
  {
    if items == [] then 0
    else NoneCount(items[..|items| - 1], processor) + (if processor(items[|items| - 1]) == Returned(None) then 1 else 0)
  }

  /** Every item gives exactly one of: a kept result, a skipped `None`, a handled error. */
  lemma {:induction false} BatchPartition<T, R>(items: seq<T>, processor: T -> Call<R>)
    ensures |Collected(items, processor)| + NoneCount(items, processor) + |Failed(items, processor)| == |items|
  {
    if items != [] {
      BatchPartition(items[..|items| - 1], processor);
    }
  }

  /**
   * `batch_process`: the non-`None` results in order, and the items handed
   * to the error handler (none when there is no handler).
   */
  method BatchProcess<T, R>(items: seq<T>, processor: T -> Call<R>, hasHandler: bool) returns (results: seq<R>, handled: seq<T>)
    ensures results == Collected(items, processor)
    ensures handled == (if hasHandler then Failed(items, processor) else [])
  {
    results := [];
    handled := [];
    assert items[..0] == [];
    for i := 0 to |items|
      invariant results == Collected(items[..i], processor)
      invariant handled == (if hasHandler then Failed(items[..i], processor) else [])
    {
      assert items[..i + 1][..i] == items[..i];
      match processor(items[i])
      case Returned(result) =>
        if result.Some? {
          results := results + [result.value];
        }
      case Raised =>
        if hasHandler {
          handled := handled + [items[i]];
        }
    }
    assert items[..|items|] == items;
  }

  // ----- chain_conditions -----

  /** The index of the first false outcome, or the count when all hold. */
  function FirstFalse(outcomes: seq<bool>): (k: nat)
    ensures k <= |outcomes|
    ensures forall j :: 0 <= j < k ==> outcomes[j]
    ensures k < |outcomes| ==> !outcomes[k]
  {
    if outcomes == [] || !outcomes[0] then 0 else 1 + FirstFalse(outcomes[1..])
  }

  /**
   * `chain_conditions` over the outcomes its conditions would return: with
   * short-circuiting an AND that calls the conditions only up to the first
   * false one; without it, every condition is called and the result is
   * always true.
   */
  method ChainConditions(outcomes: seq<bool>, shortCircuit: bool) returns (result: bool, called: nat)
    ensures shortCircuit ==> (result <==> forall j :: 0 <= j < |outcomes| ==> outcomes[j])
    ensures shortCircuit ==> called == (if result then |outcomes| else FirstFalse(outcomes) + 1)
    ensures !shortCircuit ==> result && called == |outcomes|
  {
    called := 0;
    for i := 0 to |outcomes|
      invariant called == i
      invariant shortCircuit ==> forall j :: 0 <= j < i ==> outcomes[j]
    {
      called := called + 1;
      if shortCircuit && !outcomes[i] {
        FirstFalseAt(outcomes, i);
        return false, called;
      }
    }
    return true, called;
  }

  lemma {:induction false} FirstFalseAt(outcomes: seq<bool>, i: nat)
    requires i < |outcomes| && !outcomes[i] && forall j :: 0 <= j < i ==> outcomes[j]
    ensures FirstFalse(outcomes) == i
  {
    if i > 0 {
      assert forall j :: 0 <= j < i - 1 ==> outcomes[1..][j] == outcomes[j + 1];
      FirstFalseAt(outcomes[1..], i - 1);
    }
  }

  // ----- validate_and_extract -----

  /**
   * `validate_and_extract`: `None` for data that is not a dict or lacks a
   * required key; otherwise the required keys and the optional keys the
   * data has, each with the data's value.
   */
  method ValidateAndExtract(data: Value, required: seq<string>, optional: Option<seq<string>>)
    returns (r: Option<map<string, Value>>)
    ensures r.None? <==> !data.Dict? || exists k :: k in required && k !in data.fields
    ensures r.Some? ==> r.value.Keys == (set k | k in required) + (set k | k in optional.GetOr([]) && k in data.fields)
    ensures r.Some? ==> forall k :: k in r.value ==> k in data.fields && r.value[k] == data.fields[k]
  {
    if !data.Dict? {
      return None;
    }
    for i := 0 to |required|
      invariant forall j :: 0 <= j < i ==> required[j] in data.fields
    {
      if required[i] !in data.fields {
        return None;
      }
    }
    var result := map k | k in required :: data.fields[k];
    var extra := optional.GetOr([]);
    for i := 0 to |extra|
      invariant result.Keys == (set k | k in required) + (set k | k in extra[..i] && k in data.fields)
      invariant forall k :: k in result ==> k in data.fields && result[k] == data.fields[k]
    {
      assert forall k :: k in extra[..i + 1] <==> k in extra[..i] || k == extra[i];
      if extra[i] in data.fields {
        result := result[extra[i] := data.fields[extra[i]]];
      }
    }
    assert extra[..|extra|] == extra;
    return Some(result);
  }
}
