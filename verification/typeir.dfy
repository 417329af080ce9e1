/** The compiler's output, as a small type language standing in for the
    Python types and Pydantic model classes the library builds at run time.

    Each constructor is applied literally: `Optional[Optional[X]]` stays
    nested and a `Union` of one member stays a union, because flattening and
    deduplication belong to Python's `typing` module, not to the compiler.
 */
module TypeIR {
  import opened Outcomes
  import opened Dicts
  import opened JsonValues

  /** How a field is initialised when the caller omits it. */
  datatype DefaultSpec = Required | DefaultValue(value: Json)

  /** Pydantic `Field(...)` metadata: the default, the description (`null`
      when none) and any other keyword arguments, e.g. validation bounds. */
  datatype FieldInfo = FieldInfo(default: DefaultSpec, description: Json, extra: seq<Entry<string, Json>>)

  datatype FieldDef = FieldDef(name: string, ty: Ty, info: FieldInfo)

  function FieldNames(fs: seq<FieldDef>): (names: seq<string>)
    ensures |names| == |fs|
    ensures forall i :: 0 <= i < |fs| ==> names[i] == fs[i].name
  {
    if fs == [] then [] else [fs[0].name] + FieldNames(fs[1..])
  }

  /** Names passed to `create_model`: a schema `title`, one of the fixed
      combiner names, or `Variant_<tag>` for a `oneOf` variant. */
  datatype ModelName = Titled(title: Json) | AllOfModel | AnyOfModel | VariantOf(tag: Json)

  /** The class a generated model extends: Pydantic's `BaseModel` or the
      caller's `base_model_type`. */
  datatype Base = BaseModel | CustomBase(name: string)

  datatype Ty =
    | TAny | TStr | TInt | TFloat | TBool | TDict | TDateTime | TUrl | TUuid
    | TLiteral(values: seq<Json>)
    | TOptional(inner: Ty)
    | TList(item: Ty)
    | TSet(item: Ty)
    | TUnion(alts: seq<Ty>)
    | TModel(name: ModelName, base: Base, fields: seq<FieldDef>, extraForbid: bool, doc: Option<Json>)
    | TRoot(root: Ty)
    | TDiscUnion(variants: seq<Ty>, discriminator: string)

  /** `t` is a model class with the given name, base, `extra` setting and
      docstring. */
  predicate ModelShape(t: Ty, name: ModelName, base: Base, extraForbid: bool, doc: Option<Json>) {
    t.TModel? && t.name == name && t.base == base && t.extraForbid == extraForbid && t.doc == doc
  }

  /** A type built from the scalar tags, literals and the Optional/List/Set
      constructors only, with no model classes or unions inside. */
  predicate LeafType(t: Ty) {
    match t
    case TOptional(i) => LeafType(i)
    case TList(i) => LeafType(i)
    case TSet(i) => LeafType(i)
    case TUnion(_) => false
    case TModel(_, _, _, _, _) => false
    case TRoot(_) => false
    case TDiscUnion(_, _) => false
    case _ => true
  }

  /** `Field(**kwargs)`: `default` and `description` become the field's
      default and documentation, every other keyword is kept as given. */
  function FieldOf(kwargs: seq<Entry<string, Json>>): (f: FieldInfo)
    ensures f.default.DefaultValue? <==> "default" in Keys(kwargs)
    ensures "default" in Keys(kwargs) ==> f.default.value == Lookup(kwargs, "default").value
    ensures "description" in Keys(kwargs) ==> f.description == Lookup(kwargs, "description").value
    ensures "description" !in Keys(kwargs) ==> f.description == JNull
    ensures forall k :: k != "default" && k != "description" ==> Lookup(f.extra, k) == Lookup(kwargs, k)
  {
    FieldInfo(
      match Lookup(kwargs, "default") case Some(d) => DefaultValue(d) case None => Required,
      Lookup(kwargs, "description").GetOr(JNull),
      Without(kwargs, {"default", "description"}))
  }

  /** What the constraint builder makes of a field schema: either a type
      that replaces the field's type, or keyword arguments for `Field`. */
  datatype Built = TypeOverride(ty: Ty) | Constraints(kwargs: seq<Entry<string, Json>>)

  /** `ConstraintBuilder.build_constraints` and `merge_constraints`, whose
      code is not part of this model: every operation that consults them
      takes them as a parameter and holds for any choice of both. */
  datatype ConstraintBuilder = ConstraintBuilder(build: Json -> Built, merge: (Json, Json) -> Json)
}
