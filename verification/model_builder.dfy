/** `PydanticModelBuilder`: the entry point that turns a schema into a model.

    A schema is handled in three stages: a top-level `$ref` is resolved
    against the root schema, then `allOf`, `anyOf` and `oneOf` are tried in
    that order, and otherwise the schema's `properties` become the fields of
    a model named after its `title`. A field whose schema is an object with
    properties is compiled by the same procedure, so compilation recurses
    through nested objects.

    The builder keeps one reference resolver for its whole life, but every
    `resolve_ref` call restores the resolver's in-progress set and the
    builder never calls it while another call is active, so each call starts
    from the empty set.

    The recursion between models and their fields is not well-founded in
    the source: a field can refer back to an enclosing `"type": "object"`
    schema with `properties` that does not itself hold the referring
    property; each field starts a fresh resolution, so that schema is
    compiled again, and the interpreter stops with a `RecursionError`. A
    reference to the very object holding it fails as circular instead, and
    a target without a usable `type` fails in the type resolver. `fuel`
    stands for that recursion limit, counted in nested models rather than
    interpreter frames; running out is `PyErr(RecursionError)`.
 */
module ModelBuilder {
  import opened Outcomes
  import opened Dicts
  import opened JsonValues
  import opened PyOps
  import opened TypeIR
  import opened TypeResolver
  import opened RefResolver
  import opened Combiners
  import opened Pointer

  /** `if "$ref" in schema: schema = resolve_ref(schema["$ref"], ...)`,
      with a fresh in-progress set. */
  function Dereference(schema: Json, root: Json): (r: Result<Json>)
    ensures r.Ok? ==> !Has(r.value, "$ref")
    ensures schema.JObj? && !Has(schema, "$ref") ==> r == Ok(schema)
    ensures Has(schema, "$ref") ==> r == ResolveRef(root, At(schema, "$ref"), {}).0
  {
    var hasRef :- Contains(schema, JStr("$ref"));
    if hasRef then
      var ref :- Index(schema, "$ref");
      ResolveRef(root, ref, {}).0
    else Ok(schema)
  }

  /** Which combiner, if any, a (dereferenced) schema dispatches to. */
  datatype Dispatch = AllOf | AnyOf | OneOf | Plain

  /** The combiner tests `"allOf" in s`, `"anyOf" in s`, `"oneOf" in s`, in
      that order. */
  function DispatchOf(s: Json): (r: Result<Dispatch>)
    ensures s.JObj? ==> r.Ok?
    ensures s.JObj? ==> (r.value == AllOf <==> Has(s, "allOf"))
    ensures s.JObj? ==> (r.value == AnyOf <==> !Has(s, "allOf") && Has(s, "anyOf"))
    ensures s.JObj? ==> (r.value == OneOf <==> !Has(s, "allOf") && !Has(s, "anyOf") && Has(s, "oneOf"))
  {
    var isAll :- Contains(s, JStr("allOf"));
    if isAll then Ok(AllOf)
    else
      var isAny :- Contains(s, JStr("anyOf"));
      if isAny then Ok(AnyOf)
      else
        var isOne :- Contains(s, JStr("oneOf"));
        if isOne then Ok(OneOf) else Ok(Plain)
  }

  /** Running the chosen combiner handler. */
  function RunCombiner(cb: ConstraintBuilder, d: Dispatch, s: Json): (r: Result<Ty>)
    requires d != Plain
    ensures r.Ok? ==> s.JObj? && (r.value.TModel? || r.value.TUnion? || r.value.TRoot?)
  {
    match d
    case AllOf => var v :- Index(s, "allOf"); HandleAllOf(cb, v)
    case AnyOf => var v :- Index(s, "anyOf"); HandleAnyOf(cb, v)
    case OneOf => HandleOneOf(cb, s)
  }

  /** `create_pydantic_model(schema, root_schema)` on a builder whose base
      class is `base`. */
  function CreateModel(cb: ConstraintBuilder, base: Base, schema: Json, root: Json, fuel: nat): (r: Result<Ty>)
    ensures r.Ok? ==> r.value.TModel? || r.value.TUnion? || r.value.TRoot?
    decreases fuel, 3, 0
  {
    var s :- Dereference(schema, root);
    CreateModelFrom(cb, base, s, root, fuel)
  }

  /** `create_pydantic_model` after the top-level reference is resolved. */
  function CreateModelFrom(cb: ConstraintBuilder, base: Base, s: Json, root: Json, fuel: nat): (r: Result<Ty>)
    ensures r.Ok? ==> r.value.TModel? || r.value.TUnion? || r.value.TRoot?
    decreases fuel, 2, 1
  {
    var d :- DispatchOf(s);
    if d != Plain then RunCombiner(cb, d, s) else PlainModelOf(cb, base, s, root, fuel)
  }

  /** A schema without combiners: a model named by its `title`, with one
      field per entry of its `properties`. */
  function PlainModelOf(cb: ConstraintBuilder, base: Base, s: Json, root: Json, fuel: nat): (r: Result<Ty>)
    ensures r.Ok? ==> r.value.TModel?
    decreases fuel, 2, 0
  {
    var title :- DictGet(s, "title", JStr("DynamicModel"));
    var description := GetOr(s, "description", JNull);
    var required := GetOr(s, "required", JArr([]));
    var members :- Items(GetOr(s, "properties", JObj([])));
    var fields :- BuildFields(cb, base, members, required, root, fuel);
    Ok(TModel(Titled(title), base, fields, false, if Truthy(description) then Some(description) else None))
  }

  /** The field loop of `create_pydantic_model`, one property at a time. */
  function BuildFields(cb: ConstraintBuilder, base: Base, members: seq<Entry<string, Json>>, required: Json, root: Json, fuel: nat)
    : (r: Result<seq<FieldDef>>)
    ensures r.Ok? ==> FieldNames(r.value) == Keys(members)
    decreases fuel, 1, |members|
  {
    if members == [] then Ok([])
    else
      var field :- BuildField(cb, base, members[0], required, root, fuel);
      var rest :- BuildFields(cb, base, members[1..], required, root, fuel);
      assert Keys(members) == [members[0].key] + Keys(members[1..]);
      Ok([field] + rest)
  }

  /** One property: the type of the field first, then whether it is
      required, then its `Field` metadata. */
  function BuildField(cb: ConstraintBuilder, base: Base, e: Entry<string, Json>, required: Json, root: Json, fuel: nat)
    : (r: Result<FieldDef>)
    ensures r.Ok? ==> r.value.name == e.key
    decreases fuel, 0, 3
  {
    var ty :- GetFieldType(cb, base, e.val, root, fuel);
    var isRequired :- Contains(required, JStr(e.key));
    var info :- BuildFieldInfo(cb, e.val, isRequired);
    Ok(FieldDef(e.key, ty, info))
  }

  /** `_get_field_type(field_schema, root_schema)`: a field type exists
      only for a schema whose reference, if any, leads to a dict, and a
      leaf type is what the type resolver makes of that dict. */
  function GetFieldType(cb: ConstraintBuilder, base: Base, fs: Json, root: Json, fuel: nat): (r: Result<Ty>)
    ensures r.Ok? ==> Dereference(fs, root).Ok? && Dereference(fs, root).value.JObj?
    ensures r.Ok? && LeafType(r.value) ==> r == ResolveType(Dereference(fs, root).value)
    decreases fuel, 0, 2
  {
    var s :- Dereference(fs, root);
    FieldTypeFrom(cb, base, s, root, fuel)
  }

  /** `_get_field_type` after the reference is resolved: the combiners
      first, then the plain schema. */
  function FieldTypeFrom(cb: ConstraintBuilder, base: Base, s: Json, root: Json, fuel: nat): (r: Result<Ty>)
    ensures r.Ok? ==> s.JObj?
    ensures r.Ok? && LeafType(r.value) ==> r == ResolveType(s)
    decreases fuel, 0, 1
  {
    var d :- DispatchOf(s);
    if d != Plain then
      var c := RunCombiner(cb, d, s);
      if c.Ok? then ClassIsNotLeaf(c.value); c else c
    else PlainFieldType(cb, base, s, root, fuel)
  }

  lemma ClassIsNotLeaf(t: Ty)
    requires t.TModel? || t.TUnion? || t.TRoot?
    ensures !LeafType(t)
  {
  }

  /** The end of `_get_field_type`: an object with `properties` becomes a
      nested model, anything else goes to the type resolver. */
  function PlainFieldType(cb: ConstraintBuilder, base: Base, s: Json, root: Json, fuel: nat): (r: Result<Ty>)
    ensures r.Ok? ==> s.JObj?
    ensures r.Ok? ==> (LeafType(r.value) <==> !(GetOr(s, "type", JNull) == JStr("object") && Has(s, "properties")))
    ensures r.Ok? && LeafType(r.value) ==> r == ResolveType(s)
    decreases fuel, 0, 0
  {
    var t :- DictGet(s, "type", JNull);
    var nested :- if t == JStr("object") then Contains(s, JStr("properties")) else Ok(false);
    if nested then
      if fuel == 0 then Err(PyErr(RecursionError))
      else
        var m := CreateModel(cb, base, s, root, Below(fuel));
        if m.Ok? then ClassIsNotLeaf(m.value); m else m
    else ResolveType(s)
  }

  /** The recursion limit left one level down. */
  function Below(fuel: nat): (r: nat)
    requires fuel > 0
    ensures r < fuel
  {
    fuel - 1
  }

  /** `_build_field_info(field_schema, required)`: dict constraints first,
      then the description, then the default. A type override from the
      constraint builder is dropped here. */
  function BuildFieldInfo(cb: ConstraintBuilder, fs: Json, required: bool): (r: Result<FieldInfo>)
    ensures fs.JObj? ==> r.Ok?
    ensures r.Ok? && fs.JObj? ==>
      && (Has(fs, "default") ==> r.value.default == DefaultValue(At(fs, "default")))
      && (!Has(fs, "default") && !required ==> r.value.default == DefaultValue(JNull))
      && (!Has(fs, "default") && required ==>
            r.value.default ==
              if cb.build(fs).Constraints? && "default" in Keys(cb.build(fs).kwargs)
              then DefaultValue(LastValue(cb.build(fs).kwargs, "default").value)
              else Required)
    ensures r.Ok? && fs.JObj? ==>
      r.value.description ==
        if Has(fs, "description") then At(fs, "description")
        else if cb.build(fs).Constraints? && "description" in Keys(cb.build(fs).kwargs)
        then LastValue(cb.build(fs).kwargs, "description").value
        else JNull
    ensures r.Ok? ==> forall k :: k != "default" && k != "description" ==>
      Lookup(r.value.extra, k) ==
        if cb.build(fs).Constraints? then LastValue(cb.build(fs).kwargs, k) else None
  {
    var built := cb.build(fs);
    var kw0 := if built.Constraints? then Update([], built.kwargs) else [];
    ConstraintKeywords(built, kw0);
    var kw1 :- WithDescription(fs, kw0);
    var kw2 :- WithFieldDefault(fs, kw1, required);
    Ok(FieldOf(kw2))
  }

  /** `if "description" in fs: kw["description"] = fs["description"]`. */
  function WithDescription(fs: Json, kw: seq<Entry<string, Json>>): (r: Result<seq<Entry<string, Json>>>)
    ensures fs.JObj? ==> r.Ok?
    ensures r.Ok? && fs.JObj? ==> forall k ::
      Lookup(r.value, k) == if k == "description" && Has(fs, k) then Some(At(fs, k)) else Lookup(kw, k)
  {
    var hasDesc :- Contains(fs, JStr("description"));
    if hasDesc then
      var d :- Index(fs, "description");
      Ok(Put(kw, "description", d))
    else Ok(kw)
  }

  /** The default rule of `_build_field_info`: an explicit `default` is
      used as it is, otherwise an optional field defaults to `None`. */
  function WithFieldDefault(fs: Json, kw: seq<Entry<string, Json>>, required: bool): (r: Result<seq<Entry<string, Json>>>)
    ensures fs.JObj? ==> r.Ok?
    ensures r.Ok? && fs.JObj? ==> forall k ::
      Lookup(r.value, k) ==
        if k == "default" && Has(fs, k) then Some(At(fs, k))
        else if k == "default" && !required then Some(JNull)
        else Lookup(kw, k)
  {
    var hasDefault :- Contains(fs, JStr("default"));
    if hasDefault then
      var d :- Index(fs, "default");
      Ok(Put(kw, "default", d))
    else if !required then Ok(Put(kw, "default", JNull))
    else Ok(kw)
  }

  /** The keyword dict a dict of constraints starts `_build_field_info` with. */
  lemma ConstraintKeywords(built: Built, kw0: seq<Entry<string, Json>>)
    requires kw0 == if built.Constraints? then Update([], built.kwargs) else []
    ensures forall k ::
      Lookup(kw0, k) ==
        if built.Constraints? then LastValue(built.kwargs, k) else None
  {
    forall k
      ensures Lookup(kw0, k) ==
        if built.Constraints? then LastValue(built.kwargs, k) else None
    {
      if built.Constraints? {
        UpdateLookup([], built.kwargs, k);
      }
    }
  }

  /** `create_model(schema, root_schema=None)` from the package root: a
      fresh builder, and the schema as its own root when none is given, so
      a standalone schema's references are looked up inside it. */
  function Compile(cb: ConstraintBuilder, base: Base, schema: Json, root: Option<Json>, fuel: nat): (r: Result<Ty>)
    ensures r.Ok? ==> r.value.TModel? || r.value.TUnion? || r.value.TRoot?
    ensures root.None? && Has(schema, "$ref") && ResolveRef(schema, At(schema, "$ref"), {}).0.Err? ==>
      r == Err(ResolveRef(schema, At(schema, "$ref"), {}).0.error)
  {
    CreateModel(cb, base, schema, root.GetOr(schema), fuel)
  }

  // ---------------------------------------------------------------------
  // Properties.

  /** A standalone schema whose own top-level `$ref` is `"#"` names itself,
      so compiling it is a circular-reference error. */
  lemma CompileSelfReference(cb: ConstraintBuilder, base: Base, schema: Json, fuel: nat)
    requires Has(schema, "$ref") && At(schema, "$ref") == JStr("#")
    ensures Compile(cb, base, schema, None, fuel) == Err(RefErr)
  {
    FragmentWithoutSlashIsRoot("#");
    SelfReferenceIsCircular(schema, "#", {});
  }

  /** A property whose `$ref` names the object holding it does not
      recurse, at any depth: resolving that reference substitutes the
      object's own `$ref` properties while the reference is still in
      progress, which is circular, so the field's type is an error whatever
      the recursion limit. */
  lemma BackReferenceToHolderFails(cb: ConstraintBuilder, base: Base, root: Json, ref: string, t: Json,
                                   ms: seq<Entry<string, Json>>, i: int, fuel: nat)
    requires StartsWithHash(ref) && Navigate(root, PathOf(ref)) == Ok(t)
    requires !Has(t, "$ref") && Has(t, "properties") && At(t, "properties") == JObj(ms)
    requires 0 <= i < |ms| && Has(ms[i].val, "$ref") && At(ms[i].val, "$ref") == JStr(ref)
    ensures ResolveRef(root, JStr(ref), {}).0.Err?
    ensures GetFieldType(cb, base, ms[i].val, root, fuel).Err?
  {
    ResolvesProperties(root, ref, {}, t, ms);
    assert ResolveRef(root, At(ms[i].val, "$ref"), {} + {ref}).0.Err?;
    FieldTypeSteps(cb, base, ms[i].val, root, fuel);
  }

  /** In particular a property of the root whose schema is `{"$ref": "#"}`. */
  lemma BackReferenceToRootFails(cb: ConstraintBuilder, base: Base, root: Json, ms: seq<Entry<string, Json>>, i: int, fuel: nat)
    requires root.JObj? && !Has(root, "$ref") && Has(root, "properties") && At(root, "properties") == JObj(ms)
    requires 0 <= i < |ms| && Has(ms[i].val, "$ref") && At(ms[i].val, "$ref") == JStr("#")
    ensures ResolveRef(root, JStr("#"), {}).0.Err?
    ensures GetFieldType(cb, base, ms[i].val, root, fuel).Err?
  {
    FragmentWithoutSlashIsRoot("#");
    assert Navigate(root, PathOf("#")) == Ok(root);
    BackReferenceToHolderFails(cb, base, root, "#", root, ms, i, fuel);
  }

  /** A field whose reference resolves to a dict with no combiners, no
      `const`, no `enum` and no usable `type` (such as a root schema that
      never says `"type": "object"`) is handed to the type resolver, which
      rejects it: it fails with the library `TypeError` instead of
      recursing. */
  lemma UntypedTargetFails(cb: ConstraintBuilder, base: Base, fs: Json, root: Json, fuel: nat, v: Json)
    requires Has(fs, "$ref") && ResolveRef(root, At(fs, "$ref"), {}).0 == Ok(v)
    requires v.JObj? && !Has(v, "allOf") && !Has(v, "anyOf") && !Has(v, "oneOf")
    requires !Has(v, "const") && !Has(v, "enum") && !Truthy(GetOr(v, "type", JNull))
    ensures GetFieldType(cb, base, fs, root, fuel) == Err(TypeErr)
  {
    FieldTypeSteps(cb, base, fs, root, fuel);
    UntypedSchemaFails(cb, base, v, root, fuel);
  }

  lemma UntypedSchemaFails(cb: ConstraintBuilder, base: Base, v: Json, root: Json, fuel: nat)
    requires v.JObj? && !Has(v, "allOf") && !Has(v, "anyOf") && !Has(v, "oneOf")
    requires !Has(v, "const") && !Has(v, "enum") && !Truthy(GetOr(v, "type", JNull))
    ensures FieldTypeFrom(cb, base, v, root, fuel) == Err(TypeErr)
  {
    assert DispatchOf(v) == Ok(Plain);
    PlainFieldTypeSteps(cb, base, v, root, fuel);
    MissingTypeFails(v);
  }

  /** A top-level `$ref` whose target is a dict is transparent: compiling
      the schema is compiling the target, against the same root. */
  lemma RefIsTransparent(cb: ConstraintBuilder, base: Base, schema: Json, root: Json, fuel: nat, target: Json)
    requires Has(schema, "$ref") && ResolveRef(root, At(schema, "$ref"), {}).0 == Ok(target) && target.JObj?
    ensures CreateModel(cb, base, schema, root, fuel) == CreateModel(cb, base, target, root, fuel)
  {
    CreateModelSteps(cb, base, schema, root, fuel);
    CreateModelSteps(cb, base, target, root, fuel);
  }

  /** `create_pydantic_model` resolves a top-level `$ref` first and carries
      on with its target; a dict without one is taken as it is. */
  lemma CreateModelSteps(cb: ConstraintBuilder, base: Base, schema: Json, root: Json, fuel: nat)
    ensures schema.JObj? && !Has(schema, "$ref") ==>
      CreateModel(cb, base, schema, root, fuel) == CreateModelFrom(cb, base, schema, root, fuel)
    ensures Has(schema, "$ref") && ResolveRef(root, At(schema, "$ref"), {}).0.Ok? ==>
      CreateModel(cb, base, schema, root, fuel) ==
        CreateModelFrom(cb, base, ResolveRef(root, At(schema, "$ref"), {}).0.value, root, fuel)
    ensures Has(schema, "$ref") && ResolveRef(root, At(schema, "$ref"), {}).0.Err? ==>
      CreateModel(cb, base, schema, root, fuel) == Err(ResolveRef(root, At(schema, "$ref"), {}).0.error)
  {
  }

  /** `_get_field_type` follows the same order as `create_pydantic_model`:
      a `$ref` is resolved first and its failure is the result, then
      `allOf`, `anyOf` and `oneOf` are tried in turn, and only then is the
      schema looked at as a nested object or a leaf. */
  lemma FieldTypeSteps(cb: ConstraintBuilder, base: Base, fs: Json, root: Json, fuel: nat)
    ensures Has(fs, "$ref") && ResolveRef(root, At(fs, "$ref"), {}).0.Err? ==>
      GetFieldType(cb, base, fs, root, fuel) == Err(ResolveRef(root, At(fs, "$ref"), {}).0.error)
    ensures Has(fs, "$ref") && ResolveRef(root, At(fs, "$ref"), {}).0.Ok? ==>
      GetFieldType(cb, base, fs, root, fuel) == FieldTypeFrom(cb, base, ResolveRef(root, At(fs, "$ref"), {}).0.value, root, fuel)
    ensures fs.JObj? && !Has(fs, "$ref") ==>
      GetFieldType(cb, base, fs, root, fuel) == FieldTypeFrom(cb, base, fs, root, fuel)
    ensures fs.JObj? && !Has(fs, "$ref") && Has(fs, "allOf") ==>
      GetFieldType(cb, base, fs, root, fuel) == HandleAllOf(cb, At(fs, "allOf"))
    ensures fs.JObj? && !Has(fs, "$ref") && !Has(fs, "allOf") && Has(fs, "anyOf") ==>
      GetFieldType(cb, base, fs, root, fuel) == HandleAnyOf(cb, At(fs, "anyOf"))
    ensures fs.JObj? && !Has(fs, "$ref") && !Has(fs, "allOf") && !Has(fs, "anyOf") && Has(fs, "oneOf") ==>
      GetFieldType(cb, base, fs, root, fuel) == HandleOneOf(cb, fs)
  {
  }

  /** Combiners are tried in the order `allOf`, `anyOf`, `oneOf`, after the
      reference and before any property: the first one present decides the
      result, and no field of the schema itself is built. */
  lemma CombinerPrecedence(cb: ConstraintBuilder, base: Base, schema: Json, root: Json, fuel: nat)
    requires schema.JObj? && !Has(schema, "$ref")
    ensures Has(schema, "allOf") ==>
      CreateModel(cb, base, schema, root, fuel) == HandleAllOf(cb, At(schema, "allOf"))
    ensures !Has(schema, "allOf") && Has(schema, "anyOf") ==>
      CreateModel(cb, base, schema, root, fuel) == HandleAnyOf(cb, At(schema, "anyOf"))
    ensures !Has(schema, "allOf") && !Has(schema, "anyOf") && Has(schema, "oneOf") ==>
      CreateModel(cb, base, schema, root, fuel) == HandleOneOf(cb, schema)
  {
    CreateModelSteps(cb, base, schema, root, fuel);
  }

  /** A plain object schema compiles to a model named by its `title`
      (`DynamicModel` by default) on the builder's base class, documented by
      its `description` only when that is truthy, with exactly one field per
      declared property, in declaration order. */
  lemma PlainModel(cb: ConstraintBuilder, base: Base, schema: Json, root: Json, fuel: nat)
    requires schema.JObj? && !Has(schema, "$ref")
    requires !Has(schema, "allOf") && !Has(schema, "anyOf") && !Has(schema, "oneOf")
    requires CreateModel(cb, base, schema, root, fuel).Ok?
    ensures var m := CreateModel(cb, base, schema, root, fuel).value;
      var description := GetOr(schema, "description", JNull);
      && ModelShape(m, Titled(GetOr(schema, "title", JStr("DynamicModel"))), base, false,
                    if Truthy(description) then Some(description) else None)
      && GetOr(schema, "properties", JObj([])).JObj?
      && BuildFields(cb, base, GetOr(schema, "properties", JObj([])).members,
                     GetOr(schema, "required", JArr([])), root, fuel) == Ok(m.fields)
      && FieldNames(m.fields) == Keys(GetOr(schema, "properties", JObj([])).members)
  {
    CreateModelSteps(cb, base, schema, root, fuel);
  }

  /** The `i`-th field: its type from `_get_field_type` on the field's
      schema, its metadata from `_build_field_info` on the same, unresolved,
      schema, required exactly when its name is in `required`. */
  lemma {:induction false} BuildFieldsAt(cb: ConstraintBuilder, base: Base, members: seq<Entry<string, Json>>, required: Json,
                                         root: Json, fuel: nat, i: int)
    requires BuildFields(cb, base, members, required, root, fuel).Ok? && 0 <= i < |members|
    ensures var f := BuildFields(cb, base, members, required, root, fuel).value[i];
      && f.name == members[i].key
      && GetFieldType(cb, base, members[i].val, root, fuel) == Ok(f.ty)
      && Contains(required, JStr(members[i].key)).Ok?
      && BuildFieldInfo(cb, members[i].val, Contains(required, JStr(members[i].key)).value) == Ok(f.info)
  {
    FieldAt(cb, base, members, required, root, fuel, i);
    var f := BuildFields(cb, base, members, required, root, fuel).value[i];
    assert BuildField(cb, base, members[i], required, root, fuel) == Ok(f);
  }

  lemma {:induction false} FieldAt(cb: ConstraintBuilder, base: Base, members: seq<Entry<string, Json>>, required: Json,
                                   root: Json, fuel: nat, i: int)
    requires BuildFields(cb, base, members, required, root, fuel).Ok? && 0 <= i < |members|
    ensures BuildField(cb, base, members[i], required, root, fuel) == Ok(BuildFields(cb, base, members, required, root, fuel).value[i])
    decreases i
  {
    if i > 0 {
      FieldAt(cb, base, members[1..], required, root, fuel, i - 1);
    }
  }

  /** `_get_field_type` on a dict without `$ref` or combiners: an object
      with `properties` is compiled as a nested model, anything else is a
      leaf type. */
  lemma FieldTypeOfPlainSchema(cb: ConstraintBuilder, base: Base, fs: Json, root: Json, fuel: nat)
    requires fs.JObj? && !Has(fs, "$ref")
    requires !Has(fs, "allOf") && !Has(fs, "anyOf") && !Has(fs, "oneOf")
    ensures GetOr(fs, "type", JNull) == JStr("object") && Has(fs, "properties") ==>
      GetFieldType(cb, base, fs, root, fuel) ==
        if fuel == 0 then Err(PyErr(RecursionError)) else CreateModel(cb, base, fs, root, Below(fuel))
    ensures !(GetOr(fs, "type", JNull) == JStr("object") && Has(fs, "properties")) ==>
      GetFieldType(cb, base, fs, root, fuel) == ResolveType(fs)
  {
    assert Dereference(fs, root) == Ok(fs);
    assert DispatchOf(fs) == Ok(Plain);
    assert GetFieldType(cb, base, fs, root, fuel) == PlainFieldType(cb, base, fs, root, fuel);
    PlainFieldTypeSteps(cb, base, fs, root, fuel);
  }

  /** So an object without `properties` (and without `const` or `enum`) is
      a plain `dict`. */
  lemma ObjectWithoutPropertiesIsDict(cb: ConstraintBuilder, base: Base, fs: Json, root: Json, fuel: nat)
    requires fs.JObj? && !Has(fs, "$ref")
    requires !Has(fs, "allOf") && !Has(fs, "anyOf") && !Has(fs, "oneOf")
    requires GetOr(fs, "type", JNull) == JStr("object") && !Has(fs, "properties")
    requires !Has(fs, "const") && !Has(fs, "enum")
    ensures GetFieldType(cb, base, fs, root, fuel) == Ok(TDict)
  {
    FieldTypeOfPlainSchema(cb, base, fs, root, fuel);
    TypeNameOutcome(fs);
  }

  /** Field metadata never wraps the type: whether a field without a
      `default` is required decides only between no default and `None`. */
  lemma FieldInfoDefaults(cb: ConstraintBuilder, fs: Json)
    requires fs.JObj? && !Has(fs, "default") && cb.build(fs).Constraints? && "default" !in Keys(cb.build(fs).kwargs)
    ensures BuildFieldInfo(cb, fs, true).Ok? && BuildFieldInfo(cb, fs, true).value.default == Required
    ensures BuildFieldInfo(cb, fs, false).Ok? && BuildFieldInfo(cb, fs, false).value.default == DefaultValue(JNull)
    ensures BuildFieldInfo(cb, fs, true).value.description == BuildFieldInfo(cb, fs, false).value.description
  {
  }

  // ---------------------------------------------------------------------
  // The recursion limit only matters by running out.

  /** A compilation that succeeds with some recursion limit gives the same
      model with any higher one. */
  lemma {:induction false} CreateModelFuel(cb: ConstraintBuilder, base: Base, schema: Json, root: Json, fuel: nat, more: nat)
    requires fuel <= more && CreateModel(cb, base, schema, root, fuel).Ok?
    ensures CreateModel(cb, base, schema, root, more) == CreateModel(cb, base, schema, root, fuel)
    decreases fuel, 3, 0
  {
    CreateModelSteps(cb, base, schema, root, fuel);
    CreateModelSteps(cb, base, schema, root, more);
    CreateModelFromFuel(cb, base, Dereference(schema, root).value, root, fuel, more);
  }

  lemma {:induction false} CreateModelFromFuel(cb: ConstraintBuilder, base: Base, s: Json, root: Json, fuel: nat, more: nat)
    requires fuel <= more && CreateModelFrom(cb, base, s, root, fuel).Ok?
    ensures CreateModelFrom(cb, base, s, root, more) == CreateModelFrom(cb, base, s, root, fuel)
    decreases fuel, 2, 1
  {
    if DispatchOf(s).value == Plain {
      PlainModelFuel(cb, base, s, root, fuel, more);
    }
  }

  lemma {:induction false} PlainModelFuel(cb: ConstraintBuilder, base: Base, s: Json, root: Json, fuel: nat, more: nat)
    requires fuel <= more && PlainModelOf(cb, base, s, root, fuel).Ok?
    ensures PlainModelOf(cb, base, s, root, more) == PlainModelOf(cb, base, s, root, fuel)
    decreases fuel, 2, 0
  {
    var members := Items(GetOr(s, "properties", JObj([]))).value;
    BuildFieldsFuel(cb, base, members, GetOr(s, "required", JArr([])), root, fuel, more);
  }

  lemma {:induction false} BuildFieldsFuel(cb: ConstraintBuilder, base: Base, members: seq<Entry<string, Json>>, required: Json,
                                           root: Json, fuel: nat, more: nat)
    requires fuel <= more && BuildFields(cb, base, members, required, root, fuel).Ok?
    ensures BuildFields(cb, base, members, required, root, more) == BuildFields(cb, base, members, required, root, fuel)
    decreases fuel, 1, |members|
  {
    if members != [] {
      BuildFieldFuel(cb, base, members[0], required, root, fuel, more);
      BuildFieldsFuel(cb, base, members[1..], required, root, fuel, more);
    }
  }

  lemma {:induction false} BuildFieldFuel(cb: ConstraintBuilder, base: Base, e: Entry<string, Json>, required: Json,
                                          root: Json, fuel: nat, more: nat)
    requires fuel <= more && BuildField(cb, base, e, required, root, fuel).Ok?
    ensures BuildField(cb, base, e, required, root, more) == BuildField(cb, base, e, required, root, fuel)
    decreases fuel, 0, 3
  {
    GetFieldTypeFuel(cb, base, e.val, root, fuel, more);
  }

  lemma {:induction false} GetFieldTypeFuel(cb: ConstraintBuilder, base: Base, fs: Json, root: Json, fuel: nat, more: nat)
    requires fuel <= more && GetFieldType(cb, base, fs, root, fuel).Ok?
    ensures GetFieldType(cb, base, fs, root, more) == GetFieldType(cb, base, fs, root, fuel)
    decreases fuel, 0, 2
  {
    var s := Dereference(fs, root).value;
    assert GetFieldType(cb, base, fs, root, fuel) == FieldTypeFrom(cb, base, s, root, fuel);
    if DispatchOf(s).value == Plain {
      PlainFieldTypeFuel(cb, base, s, root, fuel, more);
    }
  }

  lemma {:induction false} PlainFieldTypeFuel(cb: ConstraintBuilder, base: Base, s: Json, root: Json, fuel: nat, more: nat)
    requires fuel <= more && PlainFieldType(cb, base, s, root, fuel).Ok?
    ensures PlainFieldType(cb, base, s, root, more) == PlainFieldType(cb, base, s, root, fuel)
    decreases fuel, 0, 1
  {
    PlainFieldTypeSteps(cb, base, s, root, fuel);
    PlainFieldTypeSteps(cb, base, s, root, more);
    if GetOr(s, "type", JNull) == JStr("object") && Has(s, "properties") {
      CreateModelFuel(cb, base, s, root, Below(fuel), Below(more));
    }
  }

  /** The two ends of `_get_field_type` on a dict. */
  lemma PlainFieldTypeSteps(cb: ConstraintBuilder, base: Base, s: Json, root: Json, fuel: nat)
    ensures !s.JObj? ==> PlainFieldType(cb, base, s, root, fuel).Err?
    ensures s.JObj? && GetOr(s, "type", JNull) == JStr("object") && Has(s, "properties") ==>
      PlainFieldType(cb, base, s, root, fuel) ==
        if fuel == 0 then Err(PyErr(RecursionError)) else CreateModel(cb, base, s, root, Below(fuel))
    ensures s.JObj? && !(GetOr(s, "type", JNull) == JStr("object") && Has(s, "properties")) ==>
      PlainFieldType(cb, base, s, root, fuel) == ResolveType(s)
  {
  }
}
