/** `ReferenceResolver.resolve_ref`: local `$ref` resolution with cycle
    detection.

    The resolver keeps a set of the references it is in the middle of
    resolving. A reference is added before its target is looked up and
    removed in a `finally` block, so the set seen by the caller afterwards
    is the set it had before, whether resolution succeeded or raised. Here
    the set is threaded explicitly: every call takes the set and returns
    the set it leaves behind.

    The source also writes the resolved property schemas back into the
    root schema it was given; only the returned value is modelled.
 */
module RefResolver {
  import opened Outcomes
  import opened Dicts
  import opened JsonValues
  import opened PyOps
  import opened Pointer

  /** `for part in path: current = current[part]`, with a missing key
      reported as a reference error. */
  function Navigate(current: Json, path: seq<string>): (r: Result<Json>)
    ensures r.Ok? ==> StringsIn(r.value) <= StringsIn(current)
    ensures r.Err? ==> r.error == RefErr || r.error == PyErr(BuiltinTypeError)
    decreases |path|
  {
    if path == [] then Ok(current)
    else
      match Index(current, path[0])
      case Err(e) => if e == PyErr(KeyError) then Err(RefErr) else Err(e)
      case Ok(next) => AtStrings(current, path[0]); Navigate(next, path[1..])
  }

  /** The `$ref` entry of a dict, with the fact that a string there is
      among the dict's strings. */
  function RefAt(j: Json): (ref: Json)
    requires Has(j, "$ref")
    ensures ref == At(j, "$ref")
    ensures ref.JStr? ==> ref.s in StringsIn(j)
  {
    AtStrings(j, "$ref");
    At(j, "$ref")
  }

  /** The dict `j` with its `properties` entry replaced in place. */
  function WithProperties(j: Json, props: Json): (r: Json)
    requires j.JObj?
    ensures r.JObj? && Keys(r.members) == Keys(j.members) + (if "properties" in Keys(j.members) then [] else ["properties"])
    ensures Has(r, "properties") && At(r, "properties") == props
    ensures forall k :: k != "properties" ==> Lookup(r.members, k) == Lookup(j.members, k)
  {
    JObj(Put(j.members, "properties", props))
  }

  /** Termination measure: how many `$ref` strings of the root (plus the
      one being resolved) are not yet in progress. */
  ghost function Budget(root: Json, ref: Json, inProgress: set<string>): nat {
    |StringsIn(root) - inProgress| + (if ref.JStr? && ref.s !in StringsIn(root) && ref.s !in inProgress then 1 else 0)
  }

  lemma StrictSubsetCard<T>(a: set<T>, b: set<T>)
    requires a < b
    ensures |a| < |b|
  {
    var rest := b - a;
    assert b == a + rest;
    assert a * rest == {};
  }

  lemma BudgetShrinks(root: Json, r: string, inProgress: set<string>)
    requires r !in inProgress
    ensures |StringsIn(root) - (inProgress + {r})| < Budget(root, JStr(r), inProgress)
  {
    if r in StringsIn(root) {
      StrictSubsetCard(StringsIn(root) - (inProgress + {r}), StringsIn(root) - inProgress);
    } else {
      assert StringsIn(root) - (inProgress + {r}) == StringsIn(root) - inProgress;
    }
  }

  /** `resolve_ref(ref, ...)` with the in-progress set `inProgress`:
      the result, and the in-progress set afterwards. */
  function ResolveRef(root: Json, ref: Json, inProgress: set<string>): (out: (Result<Json>, set<string>))
    ensures out.1 == inProgress
    ensures !ref.JStr? ==> out.0 == Err(PyErr(AttributeError))
    ensures ref.JStr? && !StartsWithHash(ref.s) ==> out.0 == Err(RefErr)
    ensures ref.JStr? && ref.s in inProgress ==> out.0 == Err(RefErr)
    ensures out.0.Ok? ==> !Has(out.0.value, "$ref")
    ensures out.0.Ok? ==> StringsIn(out.0.value) <= StringsIn(root)
    decreases Budget(root, ref, inProgress), 0
  {
    if !ref.JStr? then (Err(PyErr(AttributeError)), inProgress)
    else if !StartsWithHash(ref.s) then (Err(RefErr), inProgress)
    else if ref.s in inProgress then (Err(RefErr), inProgress)
    else
      var held := inProgress + {ref.s};
      BudgetShrinks(root, ref.s, inProgress);
      var attempt := Follow(root, ref.s, held);
      (attempt.0, attempt.1 - {ref.s})
  }

  /** The body of the `try` block, entered with `ref` already in progress. */
  function Follow(root: Json, ref: string, held: set<string>): (out: (Result<Json>, set<string>))
    ensures out.1 == held
    ensures out.0.Ok? ==> !Has(out.0.value, "$ref")
    ensures out.0.Ok? ==> StringsIn(out.0.value) <= StringsIn(root)
    decreases |StringsIn(root) - held|, 2
  {
    match Navigate(root, PathOf(ref))
    case Err(e) => (Err(e), held)
    case Ok(current) =>
      if Has(current, "$ref") then
        ResolveRef(root, RefAt(current), held)
      else if Has(current, "properties") then
        var props := At(current, "properties");
        AtStrings(current, "properties");
        match Items(props)
        case Err(e) => (Err(e), held)
        case Ok(members) =>
          MemberRefs(props);
          var sub := SubstProps(root, members, held);
          match sub.0
          case Err(e) => (Err(e), sub.1)
          case Ok(resolved) =>
            var r := WithProperties(current, JObj(resolved));
            WithPropertiesRefs(current, resolved, root);
            (Ok(r), sub.1)
      else (Ok(current), held)
  }

  lemma MemberRefs(props: Json)
    requires props.JObj?
    ensures forall i :: 0 <= i < |props.members| ==> StringsIn(props.members[i].val) <= StringsIn(props)
  {
    forall i | 0 <= i < |props.members| {
      MemberStrings(props.members, i);
    }
  }

  lemma WithPropertiesRefs(current: Json, resolved: seq<Entry<string, Json>>, root: Json)
    requires current.JObj? && StringsIn(current) <= StringsIn(root)
    requires forall i :: 0 <= i < |resolved| ==> StringsIn(resolved[i].val) <= StringsIn(root)
    ensures StringsIn(WithProperties(current, JObj(resolved))) <= StringsIn(root)
  {
    var m := WithProperties(current, JObj(resolved)).members;
    ObjStringsBound(resolved, StringsIn(root));
    forall i | 0 <= i < |m|
      ensures StringsIn(m[i].val) <= StringsIn(root)
    {
      PutEntry(current.members, "properties", JObj(resolved), i);
      if m[i] != Entry("properties", JObj(resolved)) {
        var j :| 0 <= j < |current.members| && current.members[j] == m[i];
        MemberStrings(current.members, j);
      }
    }
    ObjStringsBound(m, StringsIn(root));
  }

  /** Every entry of `Put(d, k, v)` is the new entry or an entry of `d`. */
  lemma {:induction false} PutEntry(d: seq<Entry<string, Json>>, k: string, v: Json, i: int)
    requires 0 <= i < |Put(d, k, v)|
    ensures Put(d, k, v)[i] == Entry(k, v) || Put(d, k, v)[i] in d
  {
    if d != [] && d[0].key != k && i > 0 {
      PutEntry(d[1..], k, v, i - 1);
    }
  }

  /** One iteration of the `properties` loop: a property schema that is a
      dict holding `$ref` is replaced by that reference's resolution. */
  function SubstOne(root: Json, ps: Json, inProgress: set<string>): (out: (Result<Json>, set<string>))
    requires StringsIn(ps) <= StringsIn(root)
    ensures out.1 == inProgress
    ensures !Has(ps, "$ref") ==> out.0 == Ok(ps)
    ensures out.0.Ok? ==> !Has(out.0.value, "$ref")
    ensures out.0.Ok? ==> StringsIn(out.0.value) <= StringsIn(root)
    decreases |StringsIn(root) - inProgress|, 1, 0
  {
    if Has(ps, "$ref") then ResolveRef(root, RefAt(ps), inProgress) else (Ok(ps), inProgress)
  }

  /** The `properties` loop over all members, in order. */
  function SubstProps(root: Json, members: seq<Entry<string, Json>>, inProgress: set<string>)
    : (out: (Result<seq<Entry<string, Json>>>, set<string>))
    requires forall i :: 0 <= i < |members| ==> StringsIn(members[i].val) <= StringsIn(root)
    ensures out.1 == inProgress
    ensures out.0.Ok? ==> Keys(out.0.value) == Keys(members)
    ensures out.0.Ok? ==> forall i :: 0 <= i < |members| ==>
      SubstOne(root, members[i].val, inProgress).0 == Ok(out.0.value[i].val)
    decreases |StringsIn(root) - inProgress|, 1, |members|
  {
    if members == [] then (Ok([]), inProgress)
    else
      var head := SubstOne(root, members[0].val, inProgress);
      match head.0
      case Err(e) => (Err(e), head.1)
      case Ok(v) =>
        var rest := SubstProps(root, members[1..], head.1);
        match rest.0
        case Err(e) => (Err(e), rest.1)
        case Ok(tail) =>
          var r := [Entry(members[0].key, v)] + tail;
          assert forall i :: 1 <= i < |members| ==> r[i] == tail[i - 1] && members[i] == members[1..][i - 1];
          (Ok(r), rest.1)
  }

  // ---------------------------------------------------------------------
  // Properties.

  /** Navigation composes: walking `p + q` is walking `p`, then `q`. */
  lemma {:induction false} NavigateAppend(current: Json, p: seq<string>, q: seq<string>)
    ensures Navigate(current, p + q) ==
      match Navigate(current, p) case Ok(mid) => Navigate(mid, q) case Err(e) => Err(e)
    decreases |p|
  {
    if p != [] {
      assert (p + q)[0] == p[0];
      assert (p + q)[1..] == p[1..] + q;
      if Index(current, p[0]).Ok? {
        NavigateAppend(At(current, p[0]), p[1..], q);
      }
    } else {
      assert p + q == q;
    }
  }

  /** A segment naming a key the dict reached so far does not hold is a
      reference error. */
  lemma MissingKeyIsRefErr(root: Json, path: seq<string>, k: string)
    requires Navigate(root, path).Ok? && Navigate(root, path).value.JObj?
    requires !Has(Navigate(root, path).value, k)
    ensures Navigate(root, path + [k]) == Err(RefErr)
  {
    NavigateAppend(root, path, [k]);
  }

  /** A target whose own `$ref` names it again fails as circular. */
  lemma SelfReferenceIsCircular(root: Json, ref: string, inProgress: set<string>)
    requires StartsWithHash(ref)
    requires Navigate(root, PathOf(ref)).Ok?
    requires var t := Navigate(root, PathOf(ref)).value; Has(t, "$ref") && At(t, "$ref") == JStr(ref)
    ensures ResolveRef(root, JStr(ref), inProgress).0 == Err(RefErr)
  {
  }

  /** A target that is itself a `$ref` is resolved by following that
      reference, with the first one still in progress. */
  lemma FollowsChain(root: Json, a: string, b: Json, inProgress: set<string>)
    requires StartsWithHash(a) && a !in inProgress
    requires Navigate(root, PathOf(a)).Ok?
    requires var t := Navigate(root, PathOf(a)).value; Has(t, "$ref") && At(t, "$ref") == b
    ensures ResolveRef(root, JStr(a), inProgress).0 == ResolveRef(root, b, inProgress + {a}).0
  {
  }

  /** Two targets whose `$ref`s name each other fail as circular too. */
  lemma MutualReferenceIsCircular(root: Json, a: string, b: string)
    requires StartsWithHash(a) && StartsWithHash(b) && a != b
    requires Navigate(root, PathOf(a)).Ok? && Navigate(root, PathOf(b)).Ok?
    requires var t := Navigate(root, PathOf(a)).value; Has(t, "$ref") && At(t, "$ref") == JStr(b)
    requires var t := Navigate(root, PathOf(b)).value; Has(t, "$ref") && At(t, "$ref") == JStr(a)
    ensures ResolveRef(root, JStr(a), {}).0 == Err(RefErr)
  {
    FollowsChain(root, a, JStr(b), {});
    FollowsChain(root, b, JStr(a), {} + {a});
  }

  /** The pointer of an existing path whose target is a plain value (no
      `$ref`, no `properties`) resolves to exactly that value. */
  lemma PointerResolvesToTarget(root: Json, path: seq<string>, inProgress: set<string>)
    requires PointerTo(path) !in inProgress
    requires Navigate(root, path).Ok?
    requires var t := Navigate(root, path).value; !Has(t, "$ref") && !Has(t, "properties")
    ensures ResolveRef(root, JStr(PointerTo(path)), inProgress) == (Navigate(root, path), inProgress)
  {
    PathOfPointer(path);
    assert PointerTo(path)[0] == '#';
  }

  /** The `properties` loop succeeds exactly when every member does. */
  lemma {:induction false} SubstPropsOk(root: Json, members: seq<Entry<string, Json>>, inProgress: set<string>)
    requires forall i :: 0 <= i < |members| ==> StringsIn(members[i].val) <= StringsIn(root)
    ensures SubstProps(root, members, inProgress).0.Ok? <==>
      forall i :: 0 <= i < |members| ==> SubstOne(root, members[i].val, inProgress).0.Ok?
    decreases |members|
  {
    if members != [] {
      SubstPropsOk(root, members[1..], inProgress);
      assert forall i :: 1 <= i < |members| ==> members[i] == members[1..][i - 1];
    }
  }

  /** A target holding `properties` (and no `$ref`) comes back with each
      property that is a `$ref` dict replaced by that reference's
      resolution, made while the outer reference is still in progress;
      every other property and every other entry of the target is kept.
      The resolution fails exactly when one of those inner references
      does. */
  lemma ResolvesProperties(root: Json, ref: string, inProgress: set<string>, t: Json, ms: seq<Entry<string, Json>>)
    requires StartsWithHash(ref) && ref !in inProgress
    requires Navigate(root, PathOf(ref)) == Ok(t)
    requires !Has(t, "$ref") && Has(t, "properties") && At(t, "properties") == JObj(ms)
    ensures ResolveRef(root, JStr(ref), inProgress).0.Ok? <==>
      forall i :: 0 <= i < |ms| && Has(ms[i].val, "$ref") ==>
        ResolveRef(root, At(ms[i].val, "$ref"), inProgress + {ref}).0.Ok?
    ensures ResolveRef(root, JStr(ref), inProgress).0.Ok? ==>
      var v := ResolveRef(root, JStr(ref), inProgress).0.value;
      Has(v, "properties") && v == WithProperties(t, At(v, "properties"))
      && At(v, "properties").JObj? && Keys(At(v, "properties").members) == Keys(ms)
      && forall i :: 0 <= i < |ms| ==>
        if Has(ms[i].val, "$ref") then ResolveRef(root, At(ms[i].val, "$ref"), inProgress + {ref}).0 == Ok(At(v, "properties").members[i].val)
        else At(v, "properties").members[i].val == ms[i].val
  {
    var held := inProgress + {ref};
    assert ResolveRef(root, JStr(ref), inProgress).0 == Follow(root, ref, held).0;
    AtStrings(t, "properties");
    MemberRefs(JObj(ms));
    assert StringsIn(t) <= StringsIn(root) by {
      assert Navigate(root, PathOf(ref)).Ok?;
    }
    SubstPropsOk(root, ms, held);
  }
}
