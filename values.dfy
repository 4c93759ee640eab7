/**
 * The JSON-like values the handlers, configuration files and LLM outputs
 * carry (Python's None, bool, number, str, list and dict), and Python's
 * truthiness of each.
 */
module Values {
  import opened Wrappers

  datatype Value =
    | Null
    | Bool(b: bool)
    | Num(n: real)
    | Str(s: string)
    | List(items: seq<Value>)
    | Dict(fields: map<string, Value>)

  /** `bool(v)`: None, False, 0, '', [] and {} are false. */
  predicate Truthy(v: Value)
  {
    match v
    case Null => false
    case Bool(b) => b
    case Num(n) => n != 0.0
    case Str(s) => s != []
    case List(items) => items != []
    case Dict(fields) => fields != map[]
  }

  /** `d.get(k)` */
  function Get(d: map<string, Value>, k: string): (v: Value)
    ensures k !in d ==> v == Null
  {
    if k in d then d[k] else Null
  }

  /** `d.get(k, default)` */
  function GetOr(d: map<string, Value>, k: string, default: Value): (v: Value)
    ensures k in d ==> v == d[k]
    ensures k !in d ==> v == default
  {
    if k in d then d[k] else default
  }

  /** `len(v)`: defined for str, list and dict; the rest raise TypeError (None here). */
  function Len(v: Value): (n: Option<nat>)
    ensures n.Some? <==> (v.Str? || v.List? || v.Dict?)
    ensures n.Some? ==> (n.value == 0 <==> !Truthy(v))
  {
    match v
    case Str(s) => Some(|s|)
    case List(items) => Some(|items|)
    case Dict(fields) => Some(|fields|)
    case _ => None
  }

  /** `vs[0] or vs[1] or …`: the first truthy value, or the last value when none is. */
  function OrChain(vs: seq<Value>): (r: Value)
    requires |vs| > 0
    ensures Truthy(r) <==> exists i :: 0 <= i < |vs| && Truthy(vs[i])
    ensures Truthy(r) ==> exists i :: 0 <= i < |vs| && r == vs[i] && forall j :: 0 <= j < i ==> !Truthy(vs[j])
    ensures !Truthy(r) ==> r == vs[|vs| - 1]
  {
    if |vs| == 1 || Truthy(vs[0]) then vs[0]
    else
      var r := OrChain(vs[1..]);
      assert forall i :: 1 <= i < |vs| ==> vs[i] == vs[1..][i - 1];
      if Truthy(r) then
        var i :| 0 <= i < |vs[1..]| && r == vs[1..][i] && forall j :: 0 <= j < i ==> !Truthy(vs[1..][j]);
        assert r == vs[i + 1] && forall j :: 0 <= j < i + 1 ==> !Truthy(vs[j]) by {
          forall j | 0 <= j < i + 1 ensures !Truthy(vs[j]) {
            if j > 0 {
              assert vs[j] == vs[1..][j - 1];
            }
          }
        }
        r
      else
        r
  }
}
