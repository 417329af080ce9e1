/** The Python operations the compiler applies to schema values, with the
    built-in exceptions they raise when a value has the wrong shape.

    The compiler annotates its parameters as dicts and lists but checks
    them only in a few places; elsewhere a malformed schema reaches a
    Python operator, and the interpreter's own exception escapes.
 */
module PyOps {
  import opened Outcomes
  import opened Dicts
  import opened JsonValues

  /** `needle` occurs as a contiguous piece of `hay`. */
  predicate IsSubstring(needle: string, hay: string)
    decreases |hay|
  {
    |needle| <= |hay| && (hay[..|needle|] == needle || (|hay| > 0 && IsSubstring(needle, hay[1..])))
  }

  /** `x in container`: key membership for a dict, element equality for a
      list, substring search for a string; any other container raises. */
  function Contains(container: Json, x: Json): (r: Result<bool>)
    ensures container.JObj? && x.JStr? ==> r == Ok(Has(container, x.s))
    ensures container.JArr? ==> r == Ok(x in container.items)
    ensures !container.JObj? && !container.JArr? && !container.JStr? ==> r.Err?
  {
    match container
    case JObj(m) => if Hashable(x) then Ok(x.JStr? && x.s in Keys(m)) else Err(PyErr(BuiltinTypeError))
    case JArr(a) => Ok(x in a)
    case JStr(s) => if x.JStr? then Ok(IsSubstring(x.s, s)) else Err(PyErr(BuiltinTypeError))
    case _ => Err(PyErr(BuiltinTypeError))
  }

  /** `x.get(k, default)`: only dicts have `get`. */
  function DictGet(x: Json, k: string, default: Json): (r: Result<Json>)
    ensures r.Ok? <==> x.JObj?
    ensures r.Ok? ==> r.value == GetOr(x, k, default)
    ensures r.Ok? ==> r.value == default || r.value < x
  {
    if x.JObj? then
      if Has(x, k) then AtBelow(x, k); Ok(At(x, k)) else Ok(default)
    else Err(PyErr(AttributeError))
  }

  /** `x[k]` with a string subscript: a dict without `k` raises `KeyError`,
      every other kind of value raises the built-in `TypeError`. */
  function Index(x: Json, k: string): (r: Result<Json>)
    ensures r.Ok? <==> Has(x, k)
    ensures r.Ok? ==> r.value == At(x, k)
    ensures r == Err(PyErr(KeyError)) <==> x.JObj? && !Has(x, k)
  {
    if Has(x, k) then Ok(At(x, k))
    else if x.JObj? then Err(PyErr(KeyError))
    else Err(PyErr(BuiltinTypeError))
  }

  function CharStrings(s: string): (r: seq<Json>)
    ensures |r| == |s|
    ensures forall i :: 0 <= i < |s| ==> r[i] == JStr([s[i]])
  {
    if s == [] then [] else [JStr([s[0]])] + CharStrings(s[1..])
  }

  function KeyStrings(m: seq<Entry<string, Json>>): (r: seq<Json>)
    ensures |r| == |m|
    ensures forall i :: 0 <= i < |m| ==> r[i] == JStr(m[i].key)
  {
    if m == [] then [] else [JStr(m[0].key)] + KeyStrings(m[1..])
  }

  /** `for x in v` / `tuple(v)`: a list yields its items, a dict its keys,
      a string its characters; any other value is not iterable. */
  function Iter(v: Json): (r: Result<seq<Json>>)
    ensures r.Ok? <==> v.JArr? || v.JObj? || v.JStr?
    ensures r.Err? ==> r.error == PyErr(BuiltinTypeError)
    ensures v.JArr? ==> r == Ok(v.items)
    ensures r.Ok? ==> forall i :: 0 <= i < |r.value| && r.value[i].JObj? ==> r.value[i] < v
    ensures r.Ok? ==> (|r.value| > 0 <==> Truthy(v))
  {
    match v
    case JArr(a) => Ok(a)
    case JObj(m) => Ok(KeyStrings(m))
    case JStr(s) => Ok(CharStrings(s))
    case _ => Err(PyErr(BuiltinTypeError))
  }

  /** `v.items()`: only dicts have it. */
  function Items(v: Json): (r: Result<seq<Entry<string, Json>>>)
    ensures r.Ok? <==> v.JObj?
    ensures r.Ok? ==> r.value == v.members
  {
    if v.JObj? then Ok(v.members) else Err(PyErr(AttributeError))
  }

  /** `acc.update(v)` on a Python set: every element must be hashable. */
  function SetUpdate(acc: set<Json>, v: Json): (r: Result<set<Json>>)
    ensures r.Ok? ==> acc <= r.value
    ensures r.Ok? <==> Iter(v).Ok? && forall i :: 0 <= i < |Iter(v).value| ==> Hashable(Iter(v).value[i])
  {
    var xs :- Iter(v);
    if forall i | 0 <= i < |xs| :: Hashable(xs[i]) then Ok(acc + set i | 0 <= i < |xs| :: xs[i])
    else Err(PyErr(BuiltinTypeError))
  }
}
