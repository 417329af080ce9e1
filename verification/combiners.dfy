/** `CombinerHandler`: `allOf`, `anyOf` and `oneOf`, and the property
    conversion the three share.

    Model classes come out as `TModel` values: `allOf` gives one model named
    `AllOfModel`, `anyOf` a union with one alternative per branch, and
    `oneOf` a root model over the variants, discriminated on their `type`
    property when there is more than one.
 */
module Combiners {
  import opened Outcomes
  import opened Dicts
  import opened JsonValues
  import opened PyOps
  import opened TypeIR
  import opened TypeResolver

  /** A converted property: its type and its `Field` metadata. */
  datatype Converted = Converted(ty: Ty, info: FieldInfo)

  /** The type `_convert_property` settles on before any `Optional`
      wrapping: a type from the constraint builder beats a `const`
      literal, which beats the resolved type. */
  function Picked(built: Built, prop: Json, resolved: Ty): (t: Ty)
    requires prop.JObj?
    ensures built.TypeOverride? ==> t == built.ty
    ensures !built.TypeOverride? && Has(prop, "const") ==> t == TLiteral([At(prop, "const")])
    ensures !built.TypeOverride? && !Has(prop, "const") ==> t == resolved
  {
    if built.TypeOverride? then built.ty
    else if Has(prop, "const") then TLiteral([At(prop, "const")])
    else resolved
  }

  /** The constraint keywords are copied into the field only when neither a
      type override nor a `const` took over. */
  predicate KeywordsApply(built: Built, prop: Json)
    requires prop.JObj?
  {
    built.Constraints? && !Has(prop, "const")
  }

  /** `_convert_property(prop, required)`.

      Success needs a resolvable property schema and, when the schema has no
      `default`, a `required` container that can answer `in` for the
      schema's own `name` entry (`None` counts as the empty list). The field is made optional, with default
      `None`, exactly when there is no `default` and that `name` entry is
      not in `required`; the property's key in its parent is never looked
      at. */
  function ConvertProperty(cb: ConstraintBuilder, prop: Json, required: Json): (r: Result<Converted>)
    ensures r.Ok? <==>
      ResolveType(prop).Ok? && (Has(prop, "default") || Contains(RequiredOrEmpty(required), GetOr(prop, "name", JNull)).Ok?)
    ensures r.Err? && prop.JObj? ==> r.error == TypeErr || r.error == PyErr(BuiltinTypeError)
    ensures r.Ok? ==> var base := Picked(cb.build(prop), prop, ResolveType(prop).value);
      && (Has(prop, "default") ==>
            r.value.ty == base && r.value.info.default == DefaultValue(At(prop, "default")))
      && (!Has(prop, "default") && !Contains(RequiredOrEmpty(required), GetOr(prop, "name", JNull)).value ==>
            r.value.ty == TOptional(base) && r.value.info.default == DefaultValue(JNull))
      && (!Has(prop, "default") && Contains(RequiredOrEmpty(required), GetOr(prop, "name", JNull)).value ==>
            r.value.ty == base &&
            r.value.info.default ==
              if KeywordsApply(cb.build(prop), prop) && "default" in Keys(cb.build(prop).kwargs)
              then DefaultValue(LastValue(cb.build(prop).kwargs, "default").value)
              else Required)
    ensures r.Ok? ==>
      r.value.info.description ==
        if KeywordsApply(cb.build(prop), prop) && "description" in Keys(cb.build(prop).kwargs)
        then LastValue(cb.build(prop).kwargs, "description").value
        else GetOr(prop, "description", JNull)
    ensures r.Ok? ==> forall k :: k != "default" && k != "description" ==>
      Lookup(r.value.info.extra, k) ==
        if KeywordsApply(cb.build(prop), prop) then LastValue(cb.build(prop).kwargs, k) else None
  {
    var built := cb.build(prop);
    var hasDesc :- Contains(prop, JStr("description"));
    var kw0 :- if hasDesc then DescriptionKeyword(prop) else Ok([]);
    var resolved :- ResolveType(prop);
    var ty := Picked(built, prop, resolved);
    var r := WithKeywords(built, prop, RequiredOrEmpty(required), kw0, ty);
    if r.Ok? then WithKeywordsInfo(built, prop, RequiredOrEmpty(required), kw0, ty); r else r
  }

  /** `if required_fields is None: required_fields = []`. */
  function RequiredOrEmpty(required: Json): (r: Json)
    ensures required == JNull ==> r == JArr([])
    ensures required != JNull ==> r == required
  {
    if required == JNull then JArr([]) else required
  }

  /** The rest of `_convert_property` once the type is picked: merge the
      constraint keywords over the description, then settle the default. */
  function WithKeywords(built: Built, prop: Json, required: Json, kw0: seq<Entry<string, Json>>, ty: Ty): (r: Result<Converted>)
    requires prop.JObj?
    requires kw0 == if Has(prop, "description") then [Entry("description", At(prop, "description"))] else []
    ensures r.Ok? <==> Has(prop, "default") || Contains(required, GetOr(prop, "name", JNull)).Ok?
    ensures r.Err? ==> r.error == PyErr(BuiltinTypeError)
    ensures r.Ok? ==>
      && (Has(prop, "default") ==>
            r.value.ty == ty && r.value.info.default == DefaultValue(At(prop, "default")))
      && (!Has(prop, "default") && !Contains(required, GetOr(prop, "name", JNull)).value ==>
            r.value.ty == TOptional(ty) && r.value.info.default == DefaultValue(JNull))
      && (!Has(prop, "default") && Contains(required, GetOr(prop, "name", JNull)).value ==>
            r.value.ty == ty &&
            r.value.info.default ==
              if KeywordsApply(built, prop) && "default" in Keys(built.kwargs)
              then DefaultValue(LastValue(built.kwargs, "default").value)
              else Required)
  {
    var kw1 := if KeywordsApply(built, prop) then Update(kw0, built.kwargs) else kw0;
    KeywordsLookup(built, prop, kw0, kw1);
    WithDefault(prop, required, ty, kw1)
  }

  /** The description and the extra keywords `WithKeywords` leaves on the
      field: constraint keywords win over the schema's own description. */
  lemma WithKeywordsInfo(built: Built, prop: Json, required: Json, kw0: seq<Entry<string, Json>>, ty: Ty)
    requires prop.JObj?
    requires kw0 == if Has(prop, "description") then [Entry("description", At(prop, "description"))] else []
    requires WithKeywords(built, prop, required, kw0, ty).Ok?
    ensures var info := WithKeywords(built, prop, required, kw0, ty).value.info;
      && info.description ==
           (if KeywordsApply(built, prop) && "description" in Keys(built.kwargs)
            then LastValue(built.kwargs, "description").value
            else GetOr(prop, "description", JNull))
      && forall k :: k != "default" && k != "description" ==>
           Lookup(info.extra, k) == if KeywordsApply(built, prop) then LastValue(built.kwargs, k) else None
  {
    var kw1 := if KeywordsApply(built, prop) then Update(kw0, built.kwargs) else kw0;
    KeywordsLookup(built, prop, kw0, kw1);
  }

  /** The default handling at the end of `_convert_property`, given the type
      and the keyword dict built so far. */
  function WithDefault(prop: Json, required: Json, ty: Ty, kw: seq<Entry<string, Json>>): (r: Result<Converted>)
    requires prop.JObj?
    ensures r.Ok? <==> Has(prop, "default") || Contains(required, GetOr(prop, "name", JNull)).Ok?
    ensures r.Err? ==> r.error == PyErr(BuiltinTypeError)
    ensures r.Ok? ==>
      && (Has(prop, "default") ==>
            r.value.ty == ty && r.value.info.default == DefaultValue(At(prop, "default")))
      && (!Has(prop, "default") && !Contains(required, GetOr(prop, "name", JNull)).value ==>
            r.value.ty == TOptional(ty) && r.value.info.default == DefaultValue(JNull))
      && (!Has(prop, "default") && Contains(required, GetOr(prop, "name", JNull)).value ==>
            r.value.ty == ty &&
            r.value.info.default == match Lookup(kw, "default") case Some(d) => DefaultValue(d) case None => Required)
    ensures r.Ok? ==> r.value.info.description == Lookup(kw, "description").GetOr(JNull)
    ensures r.Ok? ==> forall k :: k != "default" && k != "description" ==> Lookup(r.value.info.extra, k) == Lookup(kw, k)
  {
    if Has(prop, "default") then
      Ok(Converted(ty, FieldOf(Put(kw, "default", At(prop, "default")))))
    else
      var isRequired :- Contains(required, GetOr(prop, "name", JNull));
      if !isRequired then Ok(Converted(TOptional(ty), FieldOf(Put(kw, "default", JNull))))
      else Ok(Converted(ty, FieldOf(kw)))
  }

  /** What the keyword dict holds once the constraints are merged in: a
      constraint keyword wins over the description set before it. */
  lemma KeywordsLookup(built: Built, prop: Json, kw0: seq<Entry<string, Json>>, kw1: seq<Entry<string, Json>>)
    requires prop.JObj?
    requires kw0 == if Has(prop, "description") then [Entry("description", At(prop, "description"))] else []
    requires kw1 == if KeywordsApply(built, prop) then Update(kw0, built.kwargs) else kw0
    ensures forall k ::
      Lookup(kw1, k) ==
        if KeywordsApply(built, prop) && k in Keys(built.kwargs) then LastValue(built.kwargs, k)
        else if k == "description" && Has(prop, "description") then Some(At(prop, "description"))
        else None
  {
    forall k
      ensures Lookup(kw1, k) ==
        if KeywordsApply(built, prop) && k in Keys(built.kwargs) then LastValue(built.kwargs, k)
        else if k == "description" && Has(prop, "description") then Some(At(prop, "description"))
        else None
    {
      if KeywordsApply(built, prop) {
        UpdateLookup(kw0, built.kwargs, k);
      }
    }
  }

  /** `field_kwargs["description"] = prop["description"]` on an empty dict. */
  function DescriptionKeyword(prop: Json): (r: Result<seq<Entry<string, Json>>>)
    ensures prop.JObj? && Has(prop, "description") ==> r == Ok([Entry("description", At(prop, "description"))])
    ensures r.Ok? ==> Keys(r.value) <= ["description"]
  {
    var d :- Index(prop, "description");
    Ok([Entry("description", d)])
  }

  /** One entry of a field-definition comprehension: the property `e.val`
      converted under the name `e.key`. */
  function ConvertField(cb: ConstraintBuilder, e: Entry<string, Json>, required: Json): (r: Result<FieldDef>)
    ensures r.Ok? <==> ConvertProperty(cb, e.val, required).Ok?
    ensures r.Ok? ==> r.value == FieldDef(e.key, ConvertProperty(cb, e.val, required).value.ty, ConvertProperty(cb, e.val, required).value.info)
  {
    var c :- ConvertProperty(cb, e.val, required);
    Ok(FieldDef(e.key, c.ty, c.info))
  }

  /** `{name: _convert_property(prop) for name, prop in members}`: the
      optional `required` argument is left out, so it is `None`. */
  function ConvertAll(cb: ConstraintBuilder, members: seq<Entry<string, Json>>): (r: Result<seq<FieldDef>>)
    ensures r.Ok? <==> forall i :: 0 <= i < |members| ==> ConvertProperty(cb, members[i].val, JNull).Ok?
    ensures r.Ok? ==> FieldNames(r.value) == Keys(members)
    ensures r.Ok? ==> forall i :: 0 <= i < |members| ==> ConvertField(cb, members[i], JNull) == Ok(r.value[i])
  {
    MapAll((e: Entry<string, Json>) => ConvertField(cb, e, JNull), members)
  }

  // ---------------------------------------------------------------------
  // allOf

  /** The `properties` a dict branch contributes to the merge. */
  function BranchProps(x: Json): seq<Entry<string, Json>> {
    if x.JObj? && GetOr(x, "properties", JObj([])).JObj? then GetOr(x, "properties", JObj([])).members else []
  }

  /** The properties of all branches, in branch order. */
  function AllProps(xs: seq<Json>): seq<Entry<string, Json>> {
    if xs == [] then [] else BranchProps(xs[0]) + AllProps(xs[1..])
  }

  /** A branch the merge loop gets through: a dict whose `properties` is a
      dict and whose `required` can be added to a set. */
  predicate AcceptedBranch(x: Json) {
    x.JObj? && GetOr(x, "properties", JObj([])).JObj? && SetUpdate({}, GetOr(x, "required", JArr([]))).Ok?
  }

  /** The merge loop of `handle_all_of`: a property seen before is combined
      with `merge_constraints(old, new)`, a new one is stored as it is. The
      `required` names are collected into a set that nothing reads. */
  function MergeBranches(cb: ConstraintBuilder, xs: seq<Json>, merged: seq<Entry<string, Json>>, required: set<Json>)
    : (r: Result<seq<Entry<string, Json>>>)
    ensures r.Ok? <==> forall i :: 0 <= i < |xs| ==> AcceptedBranch(xs[i])
    ensures r.Ok? ==> r.value == UpsertAll(merged, AllProps(xs), cb.merge)
    decreases |xs|
  {
    if xs == [] then Ok(merged)
    else
      var x := xs[0];
      if !x.JObj? then Err(CombinerErr)
      else
        var members :- Items(GetOr(x, "properties", JObj([])));
        var required' :- SetUpdate(required, GetOr(x, "required", JArr([])));
        UpsertAllAppend(merged, members, AllProps(xs[1..]), cb.merge);
        MergeBranches(cb, xs[1..], UpsertAll(merged, members, cb.merge), required')
  }

  /** The properties `allOf` ends up with: all branches' properties merged
      in order. */
  function AllOfMerged(cb: ConstraintBuilder, xs: seq<Json>): seq<Entry<string, Json>> {
    UpsertAll([], AllProps(xs), cb.merge)
  }

  /** `handle_all_of(schemas)`: one extra-forbidding `AllOfModel` with a
      field per merged property, in first-seen order. */
  function HandleAllOf(cb: ConstraintBuilder, schemas: Json): (r: Result<Ty>)
    ensures !Truthy(schemas) ==> r == Err(CombinerErr)
    ensures r.Ok? ==> Iter(schemas).Ok? && forall i :: 0 <= i < |Iter(schemas).value| ==> AcceptedBranch(Iter(schemas).value[i])
    ensures r.Ok? ==> ModelShape(r.value, AllOfModel, BaseModel, true, None)
    ensures r.Ok? ==> var merged := AllOfMerged(cb, Iter(schemas).value);
      && FieldNames(r.value.fields) == Keys(merged)
      && forall i :: 0 <= i < |merged| ==> ConvertField(cb, merged[i], JNull) == Ok(r.value.fields[i])
  {
    if !Truthy(schemas) then Err(CombinerErr)
    else
      var xs :- Iter(schemas);
      var merged :- MergeBranches(cb, xs, [], {});
      var fields :- ConvertAll(cb, merged);
      Ok(TModel(AllOfModel, BaseModel, fields, true, None))
  }

  // ---------------------------------------------------------------------
  // anyOf

  /** One branch of `handle_any_of`: an object schema becomes an
      extra-forbidding `AnyOfModel`, anything else a resolved type. */
  function AnyOfBranch(cb: ConstraintBuilder, x: Json): (r: Result<Ty>)
    ensures !x.JObj? ==> r == Err(CombinerErr)
    ensures x.JObj? && GetOr(x, "type", JNull) != JStr("object") ==> r == ResolveType(x)
    ensures x.JObj? && GetOr(x, "type", JNull) == JStr("object") ==>
      (r.Ok? <==> GetOr(x, "properties", JObj([])).JObj? && ConvertAll(cb, GetOr(x, "properties", JObj([])).members).Ok?)
    ensures x.JObj? && GetOr(x, "type", JNull) == JStr("object") && r.Ok? ==>
      && ModelShape(r.value, AnyOfModel, BaseModel, true, None)
      && FieldNames(r.value.fields) == Keys(GetOr(x, "properties", JObj([])).members)
      && forall i :: 0 <= i < |GetOr(x, "properties", JObj([])).members| ==>
           ConvertField(cb, GetOr(x, "properties", JObj([])).members[i], JNull) == Ok(r.value.fields[i])
  {
    if !x.JObj? then Err(CombinerErr)
    else if GetOr(x, "type", JNull) == JStr("object") then
      var members :- Items(GetOr(x, "properties", JObj([])));
      var fields :- ConvertAll(cb, members);
      Ok(TModel(AnyOfModel, BaseModel, fields, true, None))
    else ResolveType(x)
  }

  /** `handle_any_of(schemas)`: a union with exactly one alternative per
      branch, in order. */
  function HandleAnyOf(cb: ConstraintBuilder, schemas: Json): (r: Result<Ty>)
    ensures !Truthy(schemas) ==> r == Err(CombinerErr)
    ensures r.Ok? ==> Iter(schemas).Ok? && r.value.TUnion?
    ensures r.Ok? ==> var xs := Iter(schemas).value;
      |r.value.alts| == |xs| && forall i :: 0 <= i < |xs| ==> AnyOfBranch(cb, xs[i]) == Ok(r.value.alts[i])
    ensures Truthy(schemas) && Iter(schemas).Ok? ==> var xs := Iter(schemas).value;
      (r.Ok? <==> forall i :: 0 <= i < |xs| ==> AnyOfBranch(cb, xs[i]).Ok?)
  {
    if !Truthy(schemas) then Err(CombinerErr)
    else
      var xs :- Iter(schemas);
      var alts :- MapAll((x: Json) => AnyOfBranch(cb, x), xs);
      Ok(TUnion(alts))
  }

  // ---------------------------------------------------------------------
  // oneOf

  /** `handle_one_of(schema)`: a root model over the variants of
      `schema["oneOf"]`, keyed by their `type` constants. */
  function HandleOneOf(cb: ConstraintBuilder, schema: Json): (r: Result<Ty>)
    ensures !schema.JObj? ==> r == Err(PyErr(AttributeError))
    ensures schema.JObj? && !Truthy(GetOr(schema, "oneOf", JArr([]))) ==> r == Err(CombinerErr)
    ensures r.Ok? ==> r.value.TRoot?
    decreases schema, 3, 0
  {
    var schemas :- DictGet(schema, "oneOf", JArr([]));
    if !Truthy(schemas) then Err(CombinerErr)
    else
      var xs :- Iter(schemas);
      OneOfFromBranches(cb, schema, xs)
  }

  /** The part of `handle_one_of` after the branches are listed: build every
      variant, key them by tag, and wrap the result. */
  function OneOfFromBranches(cb: ConstraintBuilder, schema: Json, xs: seq<Json>): (r: Result<Ty>)
    requires forall i :: 0 <= i < |xs| && xs[i].JObj? ==> xs[i] < schema
    ensures r.Ok? <==> OneOfVariants(cb, schema, xs).Ok?
    ensures r.Ok? ==> var variants := Update([], OneOfVariants(cb, schema, xs).value);
      && (|variants| == 1 ==> r.value == TRoot(variants[0].val))
      && (|variants| != 1 ==> r.value == TRoot(TDiscUnion(Values(variants), "type")))
    decreases schema, 2, 1
  {
    var pairs :- OneOfVariants(cb, schema, xs);
    var variants := Update([], pairs);
    if |variants| == 1 then Ok(TRoot(variants[0].val))
    else Ok(TRoot(TDiscUnion(Values(variants), "type")))
  }

  /** The variant each branch builds, in order, as (tag, model) pairs,
      stopping at the first branch that fails. A branch that is not a dict
      is a combiner error. The `x in xs` guard always holds and only lets
      termination see that every branch lies inside `schema`. */
  function OneOfVariants(cb: ConstraintBuilder, schema: Json, xs: seq<Json>): (r: Result<seq<Entry<Json, Ty>>>)
    requires forall i :: 0 <= i < |xs| && xs[i].JObj? ==> xs[i] < schema
    ensures r.Ok? <==> forall k :: 0 <= k < |xs| ==> xs[k].JObj? && Variant(cb, xs[k]).Ok?
    ensures r.Ok? ==> |r.value| == |xs|
    ensures r.Ok? ==> forall k :: 0 <= k < |xs| ==> Variant(cb, xs[k]) == Ok(r.value[k])
    decreases schema, 2, 0
  {
    MapAll((x: Json) => if x.JObj? && x in xs then Variant(cb, x) else Err(CombinerErr), xs)
  }

  /** The `type` constant a variant is keyed by: `properties.type.const`,
      `null` when either is missing; `.get` on a `properties` or a
      `properties.type` that is not a dict raises `AttributeError`. */
  function TypeConst(x: Json): (r: Result<Json>)
    requires x.JObj?
    ensures var props := GetOr(x, "properties", JObj([]));
      r.Ok? <==> props.JObj? && GetOr(props, "type", JObj([])).JObj?
    ensures r.Err? ==> r.error == PyErr(AttributeError)
    ensures r.Ok? ==> r.value == GetOr(GetOr(GetOr(x, "properties", JObj([])), "type", JObj([])), "const", JNull)
  {
    var typeSchema :- DictGet(GetOr(x, "properties", JObj([])), "type", JObj([]));
    DictGet(typeSchema, "const", JNull)
  }

  /** One `oneOf` variant: its tag, and the extra-forbidding model
      `Variant_<tag>` with one field per property, in order. */
  function Variant(cb: ConstraintBuilder, x: Json): (r: Result<Entry<Json, Ty>>)
    requires x.JObj?
    ensures TypeConst(x).Ok? && !Truthy(TypeConst(x).value) ==> r == Err(CombinerErr)
    ensures r.Ok? ==> TypeConst(x) == Ok(r.value.key) && Truthy(r.value.key) && Hashable(r.value.key)
    ensures r.Ok? ==> ModelShape(r.value.val, VariantOf(r.value.key), BaseModel, true, None)
    ensures r.Ok? ==> FieldNames(r.value.val.fields) == Keys(GetOr(x, "properties", JObj([])).members)
    decreases x, 2, 0
  {
    var properties := GetOr(x, "properties", JObj([]));
    var tag :- TypeConst(x);
    if !Truthy(tag) then Err(CombinerErr)
    else
      var members := properties.members;
      PropertiesBelow(x);
      var fields :- VariantFields(cb, x, members, tag, GetOr(x, "required", JArr([])));
      if !Hashable(tag) then Err(PyErr(BuiltinTypeError))
      else Ok(Entry(tag, TModel(VariantOf(tag), BaseModel, fields, true, None)))
  }

  /** Field `i` of a variant model is what `VariantField` makes of the
      variant's `i`-th property, under the variant's tag and `required`. */
  lemma VariantFieldsAre(cb: ConstraintBuilder, x: Json)
    requires x.JObj? && Variant(cb, x).Ok?
    ensures var v := Variant(cb, x).value; var ms := GetOr(x, "properties", JObj([])).members;
      forall i :: 0 <= i < |ms| ==>
        ms[i].val < x && VariantField(cb, x, ms[i], v.key, GetOr(x, "required", JArr([]))) == Ok(v.val.fields[i])
  {
    PropertiesBelow(x);
  }

  lemma PropertiesBelow(x: Json)
    requires x.JObj? && GetOr(x, "properties", JObj([])).JObj?
    ensures var m := GetOr(x, "properties", JObj([])).members;
      forall i :: 0 <= i < |m| ==> m[i].val < x
  {
    if Has(x, "properties") {
      AtBelow(x, "properties");
    }
  }

  /** The field loop of one variant. */
  function VariantFields(cb: ConstraintBuilder, x: Json, members: seq<Entry<string, Json>>, tag: Json, required: Json)
    : (r: Result<seq<FieldDef>>)
    requires x.JObj?
    requires forall i :: 0 <= i < |members| ==> members[i].val < x
    ensures r.Ok? ==> FieldNames(r.value) == Keys(members)
    ensures r.Ok? ==> forall i :: 0 <= i < |members| ==> VariantField(cb, x, members[i], tag, required) == Ok(r.value[i])
    decreases x, 1, |members|
  {
    if members == [] then Ok([])
    else
      var f :- VariantField(cb, x, members[0], tag, required);
      var rest :- VariantFields(cb, x, members[1..], tag, required);
      assert forall i :: 1 <= i < |members| ==> members[i] == members[1..][i - 1];
      assert Keys(members) == [members[0].key] + Keys(members[1..]);
      Ok([f] + rest)
  }

  /** One property of a variant. The `type` property becomes the literal of
      the tag, defaulting to it; a property holding `oneOf` becomes a
      required nested union; any other property is converted with the
      variant's `required`, and a property whose key is listed there is
      made required with only its description kept. */
  function VariantField(cb: ConstraintBuilder, x: Json, m: Entry<string, Json>, tag: Json, required: Json)
    : (r: Result<FieldDef>)
    requires x.JObj? && m.val < x
    ensures r.Ok? ==> r.value.name == m.key
    ensures m.key == "type" ==> (r.Ok? <==> m.val.JObj?)
    ensures m.key == "type" && r.Ok? ==>
      r.value == FieldDef("type", TLiteral([tag]), FieldInfo(DefaultValue(tag), GetOr(m.val, "description", JNull), []))
    ensures m.key != "type" && Has(m.val, "oneOf") ==>
      (r.Ok? <==> HandleOneOf(cb, m.val).Ok?) &&
      (r.Ok? ==> r.value == FieldDef(m.key, HandleOneOf(cb, m.val).value, FieldInfo(Required, JNull, [])))
    ensures m.key != "type" && m.val.JObj? && !Has(m.val, "oneOf") && r.Ok? ==>
      var c := ConvertProperty(cb, m.val, required);
      && c.Ok? && Contains(required, JStr(m.key)).Ok?
      && r.value.ty == c.value.ty
      && (Contains(required, JStr(m.key)).value ==>
            r.value.info == FieldInfo(Required, GetOr(m.val, "description", JNull), []))
      && (!Contains(required, JStr(m.key)).value ==> r.value.info == c.value.info)
    decreases x, 0, 0
  {
    var ps := m.val;
    if m.key == "type" then
      var desc :- DictGet(ps, "description", JNull);
      Ok(FieldDef("type", TLiteral([tag]), FieldInfo(DefaultValue(tag), desc, [])))
    else
      var nested :- Contains(ps, JStr("oneOf"));
      if nested then
        var t :- HandleOneOf(cb, ps);
        Ok(FieldDef(m.key, t, FieldInfo(Required, JNull, [])))
      else
        var c :- ConvertProperty(cb, ps, required);
        var isRequired :- Contains(required, JStr(m.key));
        if isRequired then Ok(FieldDef(m.key, c.ty, FieldInfo(Required, GetOr(ps, "description", JNull), [])))
        else Ok(FieldDef(m.key, c.ty, c.info))
  }

  // ---------------------------------------------------------------------
  // Properties.

  /** With an explicit `default` the `required` argument is never
      consulted, and the default is kept without an `Optional` wrapper. */
  lemma ConvertDefaultIgnoresRequired(cb: ConstraintBuilder, prop: Json, required1: Json, required2: Json)
    requires Has(prop, "default")
    ensures ConvertProperty(cb, prop, required1) == ConvertProperty(cb, prop, required2)
  {
  }

  /** A variant property listed in `required` by its key, with no `default`
      and no `name` entry of its own, is marked required in its metadata
      but keeps the `Optional` type that the conversion gave it, since the
      conversion looks `required` up by the schema's `name` entry. */
  lemma RequiredVariantFieldStaysOptional(cb: ConstraintBuilder, x: Json, m: Entry<string, Json>, tag: Json, required: Json)
    requires x.JObj? && m.val < x && m.key != "type" && m.val.JObj? && !Has(m.val, "oneOf")
    requires !Has(m.val, "default") && !Has(m.val, "name")
    requires required.JArr? && JStr(m.key) in required.items && JNull !in required.items
    requires VariantField(cb, x, m, tag, required).Ok?
    ensures var f := VariantField(cb, x, m, tag, required).value;
      f.ty.TOptional? && f.info.default == Required
  {
  }

  /** The merged properties of `allOf` are the union of all branches'
      properties, in first-seen order. */
  lemma AllOfFieldNames(cb: ConstraintBuilder, schemas: Json)
    requires HandleAllOf(cb, schemas).Ok?
    ensures FieldNames(HandleAllOf(cb, schemas).value.fields) == AppendNew([], Keys(AllProps(Iter(schemas).value)))
  {
    UpsertAllKeys([], AllProps(Iter(schemas).value), cb.merge);
  }

  /** A property declared by one branch only keeps its schema unchanged;
      one declared again is folded with `merge_constraints`, oldest first. */
  lemma AllOfMergedSchema(cb: ConstraintBuilder, xs: seq<Json>, k: string)
    ensures var vs := ValuesOf(AllProps(xs), k);
      && (vs == [] ==> Lookup(AllOfMerged(cb, xs), k) == None)
      && (|vs| == 1 ==> Lookup(AllOfMerged(cb, xs), k) == Some(vs[0]))
      && (|vs| > 1 ==> Lookup(AllOfMerged(cb, xs), k) == Some(Fold(vs[0], vs[1..], cb.merge)))
  {
    UpsertAllLookup([], AllProps(xs), cb.merge, k);
  }

  /** `allOf` passes no `required` list on, so every field whose merged
      schema has no `default` becomes `Optional` with default `None`,
      whatever the branches list as required. */
  lemma AllOfFieldsOptional(cb: ConstraintBuilder, schemas: Json, i: int)
    requires HandleAllOf(cb, schemas).Ok?
    requires 0 <= i < |AllOfMerged(cb, Iter(schemas).value)|
    requires !Has(AllOfMerged(cb, Iter(schemas).value)[i].val, "default")
    ensures var f := HandleAllOf(cb, schemas).value.fields[i];
      f.ty.TOptional? && f.info.default == DefaultValue(JNull)
  {
    var merged := AllOfMerged(cb, Iter(schemas).value);
    assert ConvertField(cb, merged[i], JNull) == Ok(HandleAllOf(cb, schemas).value.fields[i]);
    assert Contains(RequiredOrEmpty(JNull), GetOr(merged[i].val, "name", JNull)) == Ok(false);
  }

  /** The merge loop stops with a combiner error at the first branch that is
      not a dict, when every branch before it went through. */
  lemma {:induction false} MergeRejectsNonDict(cb: ConstraintBuilder, xs: seq<Json>, merged: seq<Entry<string, Json>>, required: set<Json>, i: int)
    requires 0 <= i < |xs| && !xs[i].JObj?
    requires forall j :: 0 <= j < i ==> AcceptedBranch(xs[j])
    ensures MergeBranches(cb, xs, merged, required) == Err(CombinerErr)
    decreases i
  {
    if i > 0 {
      var x := xs[0];
      assert AcceptedBranch(x);
      var members := GetOr(x, "properties", JObj([])).members;
      var required' := SetUpdate(required, GetOr(x, "required", JArr([]))).value;
      MergeRejectsNonDict(cb, xs[1..], UpsertAll(merged, members, cb.merge), required', i - 1);
    }
  }

  /** `allOf` rejects an empty list, and a list whose first failing branch
      is not a dict, with a combiner error. */
  lemma AllOfRejects(cb: ConstraintBuilder, schemas: Json, i: int)
    requires Truthy(schemas) && Iter(schemas).Ok?
    requires var xs := Iter(schemas).value;
      0 <= i < |xs| && !xs[i].JObj? && forall j :: 0 <= j < i ==> AcceptedBranch(xs[j])
    ensures HandleAllOf(cb, schemas) == Err(CombinerErr)
  {
    MergeRejectsNonDict(cb, Iter(schemas).value, [], {}, i);
  }

  /** `anyOf` rejects a list whose first failing branch is not a dict with a
      combiner error. */
  lemma AnyOfRejects(cb: ConstraintBuilder, schemas: Json, i: int)
    requires Truthy(schemas) && Iter(schemas).Ok?
    requires var xs := Iter(schemas).value;
      0 <= i < |xs| && !xs[i].JObj? && forall j :: 0 <= j < i ==> AnyOfBranch(cb, xs[j]).Ok?
    ensures HandleAnyOf(cb, schemas) == Err(CombinerErr)
  {
    var xs := Iter(schemas).value;
    var f := (x: Json) => AnyOfBranch(cb, x);
    assert f(xs[i]).Err?;
    var k :| 0 <= k < |xs| && f(xs[k]) == Err(MapAll(f, xs).error) && forall j :: 0 <= j < k ==> f(xs[j]).Ok?;
    assert k == i;
  }

  /** Entering `handle_one_of` with a usable `oneOf` list. */
  lemma OneOfUnfold(cb: ConstraintBuilder, schema: Json)
    requires schema.JObj? && Truthy(GetOr(schema, "oneOf", JArr([])))
    requires Iter(GetOr(schema, "oneOf", JArr([]))).Ok?
    ensures var xs := Iter(GetOr(schema, "oneOf", JArr([]))).value;
      && (forall i :: 0 <= i < |xs| && xs[i].JObj? ==> xs[i] < schema)
      && HandleOneOf(cb, schema) == OneOfFromBranches(cb, schema, xs)
  {
    AtBelow(schema, "oneOf");
  }

  /** `oneOf` stops with a combiner error at the first branch that is not a
      dict, when every branch before it built. */
  lemma OneOfRejectsNonDict(cb: ConstraintBuilder, schema: Json, xs: seq<Json>, i: int)
    requires forall i :: 0 <= i < |xs| && xs[i].JObj? ==> xs[i] < schema
    requires 0 <= i < |xs| && !xs[i].JObj?
    requires forall j :: 0 <= j < i ==> xs[j].JObj? && Variant(cb, xs[j]).Ok?
    ensures OneOfVariants(cb, schema, xs) == Err(CombinerErr)
  {
    var f := (x: Json) => if x.JObj? && x in xs then Variant(cb, x) else Err(CombinerErr);
    assert OneOfVariants(cb, schema, xs) == MapAll(f, xs);
    assert f(xs[i]) == Err(CombinerErr);
    var k :| 0 <= k < |xs| && f(xs[k]) == Err(MapAll(f, xs).error) && forall j :: 0 <= j < k ==> f(xs[j]).Ok?;
    assert k == i;
  }

  /** Variants are keyed by tag: there is one per distinct tag, in
      first-seen order, and a later variant with the same tag replaces the
      earlier one. */
  lemma OneOfKeyedByTag(cb: ConstraintBuilder, schema: Json, xs: seq<Json>)
    requires forall i :: 0 <= i < |xs| && xs[i].JObj? ==> xs[i] < schema
    requires OneOfVariants(cb, schema, xs).Ok?
    ensures var pairs := OneOfVariants(cb, schema, xs).value;
      var variants := Update([], pairs);
      && Keys(variants) == AppendNew([], Keys(pairs))
      && Distinct(Keys(variants))
      && forall tag :: Lookup(variants, tag) == LastValue(pairs, tag)
  {
    var pairs := OneOfVariants(cb, schema, xs).value;
    UpdateKeys([], pairs);
    UpsertAllKeepsDistinct([], pairs, Second);
    forall tag
      ensures Lookup(Update([], pairs), tag) == LastValue(pairs, tag)
    {
      UpdateLookup([], pairs, tag);
    }
  }
}
