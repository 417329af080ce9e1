/** JSON values as the compiler receives them: the result of parsing a schema
    document into Python dicts, lists and scalars.

    Objects are insertion-ordered dictionaries whose keys are distinct, as
    Python dicts are. Numbers are integers or floats; a float is kept as a
    decimal mantissa and exponent and is otherwise opaque.
 */
module JsonValues {
  import opened Outcomes
  import opened Dicts

  datatype Json =
    | JNull
    | JBool(b: bool)
    | JInt(i: int)
    | JFloat(mantissa: int, exponent: int)
    | JStr(s: string)
    | JArr(items: seq<Json>)
    | JObj(members: seq<Entry<string, Json>>)

  /** Python truthiness: `None`, `False`, zero, and empty strings, lists and
      dicts are false; everything else is true. */
  predicate Truthy(j: Json) {
    match j
    case JNull => false
    case JBool(b) => b
    case JInt(i) => i != 0
    case JFloat(m, _) => m != 0
    case JStr(s) => |s| > 0
    case JArr(a) => |a| > 0
    case JObj(m) => |m| > 0
  }

  /** Lists and dicts cannot be dictionary keys or set elements. */
  predicate Hashable(j: Json) {
    !j.JArr? && !j.JObj?
  }

  /** `k in j` for a dict `j`. */
  predicate Has(j: Json, k: string) {
    j.JObj? && k in Keys(j.members)
  }

  /** `j[k]` for a dict `j` that holds `k`. */
  function At(j: Json, k: string): Json
    requires Has(j, k)
  {
    Lookup(j.members, k).value
  }

  /** `j.get(k, default)` for a dict `j`. */
  function GetOr(j: Json, k: string, default: Json): Json
    requires j.JObj?
  {
    Lookup(j.members, k).GetOr(default)
  }

  // ---------------------------------------------------------------------
  // Size, used as a termination measure.

  function Sum(xs: seq<nat>): nat {
    if xs == [] then 0 else xs[0] + Sum(xs[1..])
  }

  lemma {:induction false} SumBound(xs: seq<nat>, i: int)
    requires 0 <= i < |xs|
    ensures xs[i] <= Sum(xs)
  {
    if i > 0 {
      SumBound(xs[1..], i - 1);
    }
  }

  function Size(j: Json): nat {
    match j
    case JArr(a) => 1 + Sum(seq(|a|, i requires 0 <= i < |a| => Size(a[i])))
    case JObj(m) => 1 + Sum(seq(|m|, i requires 0 <= i < |m| => Size(m[i].val)))
    case _ => 1
  }

  lemma ItemSmaller(a: seq<Json>, i: int)
    requires 0 <= i < |a|
    ensures Size(a[i]) < Size(JArr(a))
  {
    SumBound(seq(|a|, i requires 0 <= i < |a| => Size(a[i])), i);
  }

  lemma MemberSmaller(m: seq<Entry<string, Json>>, i: int)
    requires 0 <= i < |m|
    ensures Size(m[i].val) < Size(JObj(m))
  {
    SumBound(seq(|m|, i requires 0 <= i < |m| => Size(m[i].val)), i);
  }

  lemma AtSmaller(j: Json, k: string)
    requires Has(j, k)
    ensures Size(At(j, k)) < Size(j)
  {
    LookupFound(j.members, k);
    var i :| 0 <= i < |j.members| && j.members[i] == Entry(k, At(j, k));
    MemberSmaller(j.members, i);
  }

  /** A value stored in a dict is structurally below the dict. */
  lemma AtBelow(j: Json, k: string)
    requires Has(j, k)
    ensures At(j, k) < j
  {
    LookupFound(j.members, k);
  }

  // ---------------------------------------------------------------------
  // The strings that occur anywhere inside a value. Every `$ref` target is
  // one of them, which makes the set a bound on the references a schema can
  // hold.

  ghost function StringsIn(j: Json): set<string> {
    match j
    case JStr(s) => {s}
    case JArr(a) => set i, s | 0 <= i < |a| && s in StringsIn(a[i]) :: s
    case JObj(m) => set i, s | 0 <= i < |m| && s in StringsIn(m[i].val) :: s
    case _ => {}
  }

  lemma MemberStrings(m: seq<Entry<string, Json>>, i: int)
    requires 0 <= i < |m|
    ensures StringsIn(m[i].val) <= StringsIn(JObj(m))
  {
  }

  lemma ObjStringsBound(m: seq<Entry<string, Json>>, bound: set<string>)
    requires forall i :: 0 <= i < |m| ==> StringsIn(m[i].val) <= bound
    ensures StringsIn(JObj(m)) <= bound
  {
  }

  lemma AtStrings(j: Json, k: string)
    requires Has(j, k)
    ensures StringsIn(At(j, k)) <= StringsIn(j)
  {
    LookupFound(j.members, k);
    var i :| 0 <= i < |j.members| && j.members[i] == Entry(k, At(j, k));
    MemberStrings(j.members, i);
  }
}
