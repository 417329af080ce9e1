/** `TypeResolver.resolve_type`: the type of a leaf schema fragment.

    The checks run in a fixed order, and the first one that applies decides
    the result: `const`, `type: "null"`, a list of type names, `enum`, a
    missing type, `array`, a string `format`, and finally the table of type
    names. The root schema the source passes along is never consulted, so it
    is not a parameter here.
 */
module TypeResolver {
  import opened Outcomes
  import opened Dicts
  import opened JsonValues
  import opened PyOps
  import opened TypeIR

  const FormatTypes: map<string, Ty> :=
    map["date-time" := TDateTime, "email" := TStr, "uri" := TUrl, "uuid" := TUuid]

  const NamedTypes: map<string, Ty> :=
    map["string" := TStr, "integer" := TInt, "number" := TFloat, "boolean" := TBool, "object" := TDict]

  /** `table.get(key, str)`: an unknown key falls back to `str`, an
      unhashable key raises the built-in `TypeError`. */
  function TableGet(table: map<string, Ty>, key: Json): (r: Result<Ty>)
    ensures r.Ok? <==> Hashable(key)
    ensures r.Err? ==> r.error == PyErr(BuiltinTypeError)
    ensures r.Ok? ==> r.value in table.Values || r.value == TStr
  {
    if !Hashable(key) then Err(PyErr(BuiltinTypeError))
    else if key.JStr? && key.s in table then Ok(table[key.s])
    else Ok(TStr)
  }

  /** `[t for t in types if t != "null"]`. */
  function NonNull(types: seq<Json>): (others: seq<Json>)
    ensures forall t :: t in others <==> t in types && t != JStr("null")
    ensures |others| <= |types|
    ensures multiset(others) == multiset(types)[JStr("null") := 0]
  {
    if types == [] then []
    else
      assert types == [types[0]] + types[1..];
      (if types[0] != JStr("null") then [types[0]] else []) + NonNull(types[1..])
  }

  /** The schema `{"type": t}`. */
  function TypeOnly(t: Json): Json {
    JObj([Entry("type", t)])
  }

  lemma TypeOnlySmaller(schema: Json, t: Json)
    requires Has(schema, "type") && At(schema, "type").JArr? && t in At(schema, "type").items
    ensures Size(TypeOnly(t)) < Size(schema)
  {
    var types := At(schema, "type").items;
    var i :| 0 <= i < |types| && types[i] == t;
    ItemSmaller(types, i);
    AtSmaller(schema, "type");
    var sizes := seq(1, i requires 0 <= i < 1 => Size(TypeOnly(t).members[i].val));
    assert Sum(sizes) == Size(t) + Sum(sizes[1..]);
  }

  /** Every result is a leaf type, every success comes from a dict, and the
      only failures are the library's type error and an unhashable key. */
  function ResolveType(schema: Json): (r: Result<Ty>)
    ensures r.Ok? ==> schema.JObj? && LeafType(r.value)
    ensures r.Err? ==> r.error == TypeErr || r.error == PyErr(BuiltinTypeError)
    decreases Size(schema), 1
  {
    if !schema.JObj? then Err(TypeErr)
    else if Has(schema, "const") then
      var c := At(schema, "const");
      Ok(if c == JNull then TOptional(TAny) else TLiteral([c]))
    else
      var t := GetOr(schema, "type", JNull);
      if t == JStr("null") then Ok(TOptional(TAny))
      else if t.JArr? then
        var others := NonNull(t.items);
        if JStr("null") in t.items && |others| == 1 then
          TypeOnlySmaller(schema, others[0]);
          var inner :- ResolveType(TypeOnly(others[0]));
          Ok(TOptional(inner))
        else Err(TypeErr)
      else if Has(schema, "enum") then
        var e := At(schema, "enum");
        if !Truthy(e) then Err(TypeErr)
        else
          var values :- Iter(e);
          Ok(TLiteral(values))
      else ResolveTypeName(schema, t)
  }

  /** The checks after `enum`: a missing type, arrays, string formats and
      the table of type names. */
  function ResolveTypeName(schema: Json, t: Json): (r: Result<Ty>)
    requires schema.JObj? && t == GetOr(schema, "type", JNull)
    ensures r.Ok? ==> LeafType(r.value)
    ensures r.Err? ==> r.error == TypeErr || r.error == PyErr(BuiltinTypeError)
    decreases Size(schema), 0
  {
    if !Truthy(t) then Err(TypeErr)
    else if t == JStr("array") then
      var items := GetOr(schema, "items", JNull);
      if !Truthy(items) then Err(TypeErr)
      else
        AtSmaller(schema, "items");
        var item :- ResolveType(items);
        Ok(if Truthy(GetOr(schema, "uniqueItems", JBool(false))) then TSet(item) else TList(item))
    else if t == JStr("string") && Has(schema, "format") then TableGet(FormatTypes, At(schema, "format"))
    else TableGet(NamedTypes, t)
  }

  // ---------------------------------------------------------------------
  // Properties.

  /** The keys `resolve_type` reads. */
  const ReadKeys: set<string> := {"const", "type", "enum", "items", "uniqueItems", "format"}

  predicate AgreeOn(a: Json, b: Json, keys: set<string>)
    requires a.JObj? && b.JObj?
  {
    forall k :: k in keys ==> Lookup(a.members, k) == Lookup(b.members, k)
  }

  /** Nothing outside the six keys it reads affects the resolved type. */
  lemma ResolveReadsOnlyItsKeys(a: Json, b: Json)
    requires a.JObj? && b.JObj? && AgreeOn(a, b, ReadKeys)
    ensures ResolveType(a) == ResolveType(b)
  {
    SameKey(a, b, "const");
    SameKey(a, b, "type");
    SameKey(a, b, "enum");
    SameKey(a, b, "items");
    SameKey(a, b, "uniqueItems");
    SameKey(a, b, "format");
    var t := GetOr(a, "type", JNull);
    if Has(a, "const") {
      ConstDecides(a);
      ConstDecides(b);
    } else if t == JStr("null") {
      NullTypeIsOptionalAny(a);
      NullTypeIsOptionalAny(b);
    } else if t.JArr? {
      TypeListOutcome(a);
      TypeListOutcome(b);
    } else if Has(a, "enum") {
      SameEnum(a, b);
    } else {
      SameTail(a, b);
    }
  }

  /** Two dicts that agree on `k` agree on every way of reading it. */
  lemma SameKey(a: Json, b: Json, k: string)
    requires a.JObj? && b.JObj? && Lookup(a.members, k) == Lookup(b.members, k)
    ensures Has(a, k) == Has(b, k)
    ensures Has(a, k) ==> At(a, k) == At(b, k)
    ensures forall d :: GetOr(a, k, d) == GetOr(b, k, d)
  {
  }

  lemma SameEnum(a: Json, b: Json)
    requires a.JObj? && b.JObj? && !Has(a, "const") && !Has(b, "const") && Has(a, "enum") && Has(b, "enum")
    requires At(a, "enum") == At(b, "enum") && GetOr(a, "type", JNull) == GetOr(b, "type", JNull)
    requires GetOr(a, "type", JNull) != JStr("null") && !GetOr(a, "type", JNull).JArr?
    ensures ResolveType(a) == ResolveType(b)
  {
  }

  /** The checks after `enum`: the type name, `items`, `uniqueItems` and `format`. */
  lemma SameTail(a: Json, b: Json)
    requires a.JObj? && b.JObj? && !Has(a, "const") && !Has(b, "const") && !Has(a, "enum") && !Has(b, "enum")
    requires GetOr(a, "type", JNull) == GetOr(b, "type", JNull)
    requires GetOr(a, "type", JNull) != JStr("null") && !GetOr(a, "type", JNull).JArr?
    requires GetOr(a, "items", JNull) == GetOr(b, "items", JNull)
    requires GetOr(a, "uniqueItems", JBool(false)) == GetOr(b, "uniqueItems", JBool(false))
    requires Has(a, "format") == Has(b, "format") && (Has(a, "format") ==> At(a, "format") == At(b, "format"))
    ensures ResolveType(a) == ResolveType(b)
  {
  }

  /** A `const` decides the result whatever else the schema says: `null`
      gives `Optional[Any]`, any other value the one-value literal. */
  lemma ConstDecides(schema: Json)
    requires Has(schema, "const")
    ensures At(schema, "const") == JNull ==> ResolveType(schema) == Ok(TOptional(TAny))
    ensures At(schema, "const") != JNull ==> ResolveType(schema) == Ok(TLiteral([At(schema, "const")]))
  {
  }

  /** Without a `const`, `type: "null"` gives `Optional[Any]`. */
  lemma NullTypeIsOptionalAny(schema: Json)
    requires schema.JObj? && !Has(schema, "const") && GetOr(schema, "type", JNull) == JStr("null")
    ensures ResolveType(schema) == Ok(TOptional(TAny))
  {
  }

  /** A list of type names succeeds exactly when it holds `"null"` and one
      other entry; the result is then `Optional` of that entry's type. */
  lemma TypeListOutcome(schema: Json)
    requires schema.JObj? && !Has(schema, "const") && GetOr(schema, "type", JNull).JArr?
    ensures var types := GetOr(schema, "type", JNull).items;
      ResolveType(schema).Ok? <==>
        JStr("null") in types && |NonNull(types)| == 1 && ResolveType(TypeOnly(NonNull(types)[0])).Ok?
    ensures var types := GetOr(schema, "type", JNull).items;
      ResolveType(schema).Ok? ==> ResolveType(schema).value == TOptional(ResolveType(TypeOnly(NonNull(types)[0])).value)
    ensures var types := GetOr(schema, "type", JNull).items;
      JStr("null") !in types || |NonNull(types)| != 1 ==> ResolveType(schema) == Err(TypeErr)
  {
  }

  /** An empty `enum` fails; a non-empty list gives the literal of its values in order. */
  lemma EnumOutcome(schema: Json)
    requires schema.JObj? && !Has(schema, "const") && Has(schema, "enum")
    requires GetOr(schema, "type", JNull) != JStr("null") && !GetOr(schema, "type", JNull).JArr?
    ensures !Truthy(At(schema, "enum")) ==> ResolveType(schema) == Err(TypeErr)
    ensures At(schema, "enum").JArr? && Truthy(At(schema, "enum")) ==>
      ResolveType(schema) == Ok(TLiteral(At(schema, "enum").items))
  {
  }

  /** Without `const`, `enum` or a usable type list, a missing or falsy `type` fails. */
  lemma MissingTypeFails(schema: Json)
    requires schema.JObj? && !Has(schema, "const") && !Has(schema, "enum")
    requires !Truthy(GetOr(schema, "type", JNull))
    ensures ResolveType(schema) == Err(TypeErr)
  {
    var t := GetOr(schema, "type", JNull);
    if t.JArr? {
      assert JStr("null") !in t.items;
    }
  }

  /** Arrays: a falsy `items` fails, errors of the item type propagate, and
      `uniqueItems` chooses between `Set` and `List`. */
  lemma ArrayOutcome(schema: Json)
    requires schema.JObj? && !Has(schema, "const") && !Has(schema, "enum")
    requires GetOr(schema, "type", JNull) == JStr("array")
    ensures var items := GetOr(schema, "items", JNull);
      && (!Truthy(items) ==> ResolveType(schema) == Err(TypeErr))
      && (Truthy(items) && ResolveType(items).Err? ==> ResolveType(schema) == ResolveType(items))
      && (Truthy(items) && ResolveType(items).Ok? ==>
            ResolveType(schema) == Ok(
              if Truthy(GetOr(schema, "uniqueItems", JBool(false))) then TSet(ResolveType(items).value)
              else TList(ResolveType(items).value)))
  {
  }

  /** Strings with a `format`: the four known formats map to their types,
      any other hashable format to `str`. */
  lemma StringFormatOutcome(schema: Json)
    requires schema.JObj? && !Has(schema, "const") && !Has(schema, "enum")
    requires GetOr(schema, "type", JNull) == JStr("string") && Has(schema, "format")
    ensures var f := At(schema, "format");
      && (f == JStr("date-time") ==> ResolveType(schema) == Ok(TDateTime))
      && (f == JStr("email") ==> ResolveType(schema) == Ok(TStr))
      && (f == JStr("uri") ==> ResolveType(schema) == Ok(TUrl))
      && (f == JStr("uuid") ==> ResolveType(schema) == Ok(TUuid))
      && (Hashable(f) && !(f.JStr? && f.s in FormatTypes) ==> ResolveType(schema) == Ok(TStr))
  {
    assert ResolveType(schema) == TableGet(FormatTypes, At(schema, "format"));
  }

  /** Type names: the five known names map to their types, and any other
      truthy hashable name falls back to `str` instead of failing. */
  lemma TypeNameOutcome(schema: Json)
    requires schema.JObj? && !Has(schema, "const") && !Has(schema, "enum")
    requires var t := GetOr(schema, "type", JNull);
      Truthy(t) && Hashable(t) && t != JStr("null") && t != JStr("array") && !(t == JStr("string") && Has(schema, "format"))
    ensures var t := GetOr(schema, "type", JNull);
      && (t.JStr? && t.s in NamedTypes ==> ResolveType(schema) == Ok(NamedTypes[t.s]))
      && (!(t.JStr? && t.s in NamedTypes) ==> ResolveType(schema) == Ok(TStr))
  {
    assert ResolveType(schema) == TableGet(NamedTypes, GetOr(schema, "type", JNull));
  }
}
