# json_schema_to_pydantic, modelled in Dafny

This project models the compiler at the heart of the `json_schema_to_pydantic`
package. The compiler turns a JSON Schema document into a Pydantic model class.
It has four parts, and each has a Dafny module of its own:

- `TypeResolver` (`type_resolver.dfy`): `TypeResolver.resolve_type` maps a leaf
  schema fragment to a Python type. The checks run in a fixed order: `const`,
  `type: "null"`, a list of type names, `enum`, a missing type, `array`, a
  string `format`, and finally the table of type names.
- `RefResolver` (`ref_resolver.dfy`, with `pointer.dfy`): `ReferenceResolver.resolve_ref`
  resolves local `#/a/b` references by JSON Pointer navigation. It detects
  cycles through a set of references in progress, and resolves one level of
  `$ref` inside a target's `properties`.
- `Combiners` (`combiners.dfy`): `CombinerHandler` covers `allOf`, `anyOf`
  and `oneOf`, and `_convert_property` turns a property schema into a type and
  its `Field` metadata.
  - `allOf` merges the branches' properties into one extra-forbidding `AllOfModel`.
  - `anyOf` gives a union with one alternative per branch.
  - `oneOf` gives a root model over `Variant_<tag>` models, keyed by each
    variant's `type` constant.
- `ModelBuilder` (`model_builder.dfy`): `PydanticModelBuilder.create_pydantic_model`
  runs in three stages. It first resolves a top-level `$ref`. It then tries the
  combiners in the order `allOf`, `anyOf`, `oneOf`. Otherwise it builds a model
  named by `title`, with one field per property. `_get_field_type` compiles
  nested objects recursively. `_build_field_info` builds the field metadata.

Supporting modules:

- `Outcomes`: `Result`, `Option`, and the error kinds. These are the package's
  `TypeError`, `ReferenceError` and `CombinerError`, plus the interpreter's own
  exceptions.
- `Dicts`: insertion-ordered dictionaries with Python `dict` semantics.
- `JsonValues`: schema values.
- `PyOps`: the Python operators the code applies to schema values, such as
  `in`, `.get`, `[]`, iteration, `.items()` and `set.update`. Each raises the
  interpreter's exception when the value has the wrong shape.
- `TypeIR`: the types and models that come out.

Python types and model classes are represented by the datatype `TypeIR.Ty`.
A model is `TModel(name, base, fields, extraForbid, doc)`. Its fields are
`FieldDef(name, type, FieldInfo(default, description, extra keywords))`.

The constraint builder (`ConstraintBuilder.build_constraints` and
`merge_constraints`) is a parameter `cb`. Every contract holds for every choice
of those two functions.

Behaviour the model makes explicit:

- `_convert_property` decides optionality by looking up the property schema's
  own `name` entry in `required`, never the property's key. `allOf` passes no
  `required`, so every merged field without a `default` is `Optional`
  (`AllOfFieldsOptional`).
- A `oneOf` variant property listed in `required` by its key, with no
  `default` and no `name` entry that `required` lists, gets required metadata
  but keeps the `Optional` type (`RequiredVariantFieldStaysOptional`). A
  `default`, or a `name` listed in `required`, leaves the type unwrapped.
- `_build_field_info` reads the field's schema before its `$ref` is resolved,
  while `_get_field_type` resolves it. A referenced field therefore gets its
  type from the target but its metadata from the schema the field loop reads
  at that point (`BuildFieldsAt`). In the model that is always the referring
  schema; in the source a write-back by `resolve_ref` can have replaced it
  first (see "Left out").
- A property whose `$ref` names the object holding it does not recurse, at
  any depth: resolving the reference substitutes that object's own `$ref`
  properties while the reference is still in progress, so it fails as
  circular (`BackReferenceToHolderFails`, and `BackReferenceToRootFails` for
  `{"$ref": "#"}` directly under the root). A reference whose target has no
  usable `type` (for instance a root without `"type": "object"`) goes to the
  type resolver and fails with its `TypeError` (`UntypedTargetFails`).
  Recursion happens only when the target is an enclosing `"type": "object"`
  schema with `properties` that does not itself hold the referring property:
  each field starts a fresh resolution, so the builder compiles that schema
  again and recurses until Python's recursion limit. The model counts that
  limit in nested models, as the parameter `fuel`, and running out is
  `PyErr(RecursionError)`. Every success is independent of the limit once it
  is high enough (`CreateModelFuel`).

## Model

| member | source | states |
|---|---|---|
| TypeResolver.TableGet | venv/Lib/site-packages/json_schema_to_pydantic/resolvers.py:66-82 | `map.get(key, str)` succeeds exactly for hashable keys and gives a table entry or `str`; an unhashable key is the built-in `TypeError` |
| TypeResolver.NonNull | venv/Lib/site-packages/json_schema_to_pydantic/resolvers.py:31 | keeps exactly the entries that are not `"null"`, each as often as the list holds it, so `len(other_types)` counts repeated names |
| TypeResolver.ResolveType | venv/Lib/site-packages/json_schema_to_pydantic/resolvers.py:12-82 | succeeds only on a dict and then always yields a leaf type, never a model or union; the only failures are the library `TypeError` and the built-in `TypeError` |
| TypeResolver.ResolveTypeName | venv/Lib/site-packages/json_schema_to_pydantic/resolvers.py:45-82 | the checks after `enum` yield a leaf type or one of the same two errors |
| TypeResolver.TypeOnlySmaller | venv/Lib/site-packages/json_schema_to_pydantic/resolvers.py:29-35 | the schema `{"type": t}` built for the one non-null entry of a type list is smaller than the schema it came from, so the recursion ends |
| TypeResolver.ResolveReadsOnlyItsKeys | venv/Lib/site-packages/json_schema_to_pydantic/resolvers.py:12-82 | two dicts that agree on `const`, `type`, `enum`, `items`, `uniqueItems` and `format` resolve to the same outcome, whatever else they hold |
| TypeResolver.ConstDecides | venv/Lib/site-packages/json_schema_to_pydantic/resolvers.py:17-22 | a `const` decides the result: `null` gives `Optional[Any]`, any other value the one-value literal |
| TypeResolver.NullTypeIsOptionalAny | venv/Lib/site-packages/json_schema_to_pydantic/resolvers.py:24-25 | `type: "null"` gives `Optional[Any]` |
| TypeResolver.TypeListOutcome | venv/Lib/site-packages/json_schema_to_pydantic/resolvers.py:28-36 | a type list succeeds iff it holds `"null"` and exactly one other entry whose type resolves, giving `Optional` of that type; otherwise a library `TypeError` |
| TypeResolver.EnumOutcome | venv/Lib/site-packages/json_schema_to_pydantic/resolvers.py:38-43 | a falsy `enum` fails; a non-empty list gives the literal of its values in order |
| TypeResolver.MissingTypeFails | venv/Lib/site-packages/json_schema_to_pydantic/resolvers.py:45-47 | without `const` or `enum`, a missing or falsy `type` fails with the library `TypeError` |
| TypeResolver.ArrayOutcome | venv/Lib/site-packages/json_schema_to_pydantic/resolvers.py:49-61 | an array with falsy `items` fails; an item error propagates unchanged; otherwise `Set` or `List` of the item type, chosen by the truthiness of `uniqueItems` |
| TypeResolver.StringFormatOutcome | venv/Lib/site-packages/json_schema_to_pydantic/resolvers.py:63-72 | the formats `date-time`, `email`, `uri`, `uuid` map to `datetime`, `str`, `AnyUrl`, `UUID`; any other hashable format gives `str` |
| TypeResolver.TypeNameOutcome | venv/Lib/site-packages/json_schema_to_pydantic/resolvers.py:74-82 | the five known type names map to their types; any other truthy hashable name falls back to `str` instead of failing |
| Pointer.Split | venv/Lib/site-packages/json_schema_to_pydantic/resolvers.py:102 | `str.split` gives one more piece than the string has separators, and no piece contains the separator |
| Pointer.PathOf | venv/Lib/site-packages/json_schema_to_pydantic/resolvers.py:102-108 | a reference has exactly one path segment per `/` it contains |
| Pointer.SplitJoin | venv/Lib/site-packages/json_schema_to_pydantic/resolvers.py:102 | splitting a join of separator-free pieces gives the pieces back |
| Pointer.DecodeEscape | venv/Lib/site-packages/json_schema_to_pydantic/resolvers.py:108 | replacing `~1` and then `~0` inverts the escaping of section 3 of RFC 6901 for every segment |
| Pointer.PathOfPointer | venv/Lib/site-packages/json_schema_to_pydantic/resolvers.py:102-108 | the fragment built from any path of keys, including keys holding `/` or `~`, reads back as that path |
| Pointer.FragmentWithoutSlashIsRoot | venv/Lib/site-packages/json_schema_to_pydantic/resolvers.py:102-106 | a reference without `/` (such as `#`) has an empty path and so names the root |
| RefResolver.Navigate | venv/Lib/site-packages/json_schema_to_pydantic/resolvers.py:103-112 | a missing key is a `ReferenceError`, any other failure the built-in `TypeError`; the strings of what it reaches are among the document's |
| RefResolver.WithProperties | venv/Lib/site-packages/json_schema_to_pydantic/resolvers.py:124 | writing `properties` keeps the dict's keys in order and changes no other key |
| RefResolver.ResolveRef | venv/Lib/site-packages/json_schema_to_pydantic/resolvers.py:91-130 | the in-progress set is the same afterwards, on success and on failure; a non-string reference raises `AttributeError`; a reference not starting with `#` or already in progress is a `ReferenceError`; a resolved value never holds `$ref` (what comes back for a target with `properties` is `ResolvesProperties`) |
| RefResolver.Follow | venv/Lib/site-packages/json_schema_to_pydantic/resolvers.py:100-128 | the body of the `try` leaves the set it was given and never returns a schema holding `$ref` |
| RefResolver.SubstOne | venv/Lib/site-packages/json_schema_to_pydantic/resolvers.py:122-126 | a property schema without `$ref` is kept as it is; a replacement never holds `$ref` |
| RefResolver.SubstProps | venv/Lib/site-packages/json_schema_to_pydantic/resolvers.py:121-126 | the `properties` loop keeps every key in order and replaces each value by its own resolution |
| RefResolver.NavigateAppend | venv/Lib/site-packages/json_schema_to_pydantic/resolvers.py:106-112 | walking `p + q` is walking `p` and then `q` |
| RefResolver.MissingKeyIsRefErr | venv/Lib/site-packages/json_schema_to_pydantic/resolvers.py:109-112 | a segment naming a key the dict reached does not hold gives a `ReferenceError` |
| RefResolver.SelfReferenceIsCircular | venv/Lib/site-packages/json_schema_to_pydantic/resolvers.py:96-117 | a target whose `$ref` names the same reference fails as circular |
| RefResolver.FollowsChain | venv/Lib/site-packages/json_schema_to_pydantic/resolvers.py:114-117 | a target that is a `$ref` resolves as that reference, with the first still in progress |
| RefResolver.MutualReferenceIsCircular | venv/Lib/site-packages/json_schema_to_pydantic/resolvers.py:96-117 | two targets whose `$ref`s name each other fail as circular |
| RefResolver.PointerResolvesToTarget | venv/Lib/site-packages/json_schema_to_pydantic/resolvers.py:91-128 | the pointer of any existing path whose target holds neither `$ref` nor `properties` resolves to exactly that target |
| RefResolver.SubstPropsOk | venv/Lib/site-packages/json_schema_to_pydantic/resolvers.py:121-126 | the `properties` loop succeeds exactly when every property's own resolution does |
| RefResolver.ResolvesProperties | venv/Lib/site-packages/json_schema_to_pydantic/resolvers.py:114-128 | a target with `properties` and no `$ref` comes back with the same keys and other entries, each `$ref` property replaced by the resolution of its reference with the outer reference still in progress and every other property kept; it fails exactly when one of those inner resolutions does |
| Combiners.ConvertProperty | venv/Lib/site-packages/json_schema_to_pydantic/handlers.py:16-46 | succeeds iff the type resolves and, without a `default`, `required` (`None` counting as empty) can answer `in` for the schema's `name`; the type is wrapped in `Optional` with default `None` exactly when there is no `default` and that name is not required; the default, description and extra keywords are given key by key |
| Combiners.WithKeywords | venv/Lib/site-packages/json_schema_to_pydantic/handlers.py:37-46 | merging the constraint keywords and settling the default: an explicit `default` wins, then `Optional`/`None`, else the constraints' own `default` or none |
| Combiners.WithKeywordsInfo | venv/Lib/site-packages/json_schema_to_pydantic/handlers.py:26-37 | a constraint keyword overrides the schema's description; the other keywords are the constraints' own, and none when a type override or `const` took over |
| Combiners.WithDefault | venv/Lib/site-packages/json_schema_to_pydantic/handlers.py:39-46 | the `default` branches, in terms of the keyword dict so far; the only failure is an unanswerable `in` |
| Combiners.KeywordsLookup | venv/Lib/site-packages/json_schema_to_pydantic/handlers.py:24-37 | after `update`, each keyword holds the last value the constraints give it, else the description, else nothing |
| Combiners.ConvertAll | venv/Lib/site-packages/json_schema_to_pydantic/handlers.py:102-105 | succeeds iff every property converts; one field per property, in order, each its own conversion |
| Combiners.MergeBranches | venv/Lib/site-packages/json_schema_to_pydantic/handlers.py:58-76 | succeeds iff every branch is a dict with dict `properties` and hashable `required` entries; the result is the ordered merge of all branches' properties |
| Combiners.HandleAllOf | venv/Lib/site-packages/json_schema_to_pydantic/handlers.py:48-86 | a falsy list is a `CombinerError`; success means every branch was accepted, and gives an extra-forbidding `AllOfModel` with one field per merged property, in first-seen order, each the conversion of the merged schema |
| Combiners.AnyOfBranch | venv/Lib/site-packages/json_schema_to_pydantic/handlers.py:96-113 | a non-dict is a `CombinerError`; an object schema succeeds iff its `properties` is a dict whose entries all convert, and gives an extra-forbidding `AnyOfModel` whose i-th field is the i-th property converted without `required`; anything else is the resolved type |
| Combiners.HandleAnyOf | venv/Lib/site-packages/json_schema_to_pydantic/handlers.py:88-115 | a falsy list is a `CombinerError`; success iff every branch succeeds, giving a union with exactly one alternative per branch, in order |
| Combiners.HandleOneOf | venv/Lib/site-packages/json_schema_to_pydantic/handlers.py:117-123 | a non-dict raises `AttributeError`; a falsy `oneOf` is a `CombinerError`; success is always a root model |
| Combiners.OneOfFromBranches | venv/Lib/site-packages/json_schema_to_pydantic/handlers.py:126-179 | succeeds iff every variant builds; one distinct tag gives `RootModel` of that variant, otherwise of the union discriminated on `type` |
| Combiners.OneOfVariants | venv/Lib/site-packages/json_schema_to_pydantic/handlers.py:128-169 | succeeds iff every branch is a dict whose variant builds; the i-th pair is the i-th branch's variant |
| Combiners.TypeConst | venv/Lib/site-packages/json_schema_to_pydantic/handlers.py:132-133 | `properties.get("type", {}).get("const")`: an `AttributeError` when `properties` or its `type` entry is not a dict, otherwise the `const` value, or `null` when any of the three is absent |
| Combiners.Variant | venv/Lib/site-packages/json_schema_to_pydantic/handlers.py:132-169 | a falsy `type` constant is a `CombinerError`; success is keyed by that truthy, hashable constant and is an extra-forbidding `Variant_<tag>` model with one field per property (each field's rule is `VariantFieldsAre`) |
| Combiners.VariantFieldsAre | venv/Lib/site-packages/json_schema_to_pydantic/handlers.py:138-168 | field i of a variant model is what the variant property rule makes of property i, under the variant's tag and its `required` |
| Combiners.VariantFields | venv/Lib/site-packages/json_schema_to_pydantic/handlers.py:138-162 | one field per property, in order, each built by the variant property rule |
| Combiners.VariantField | venv/Lib/site-packages/json_schema_to_pydantic/handlers.py:141-162 | `type` becomes the tag literal defaulting to the tag; a nested `oneOf` becomes a required nested root model; any other property keeps its converted type, with required metadata when its key is in `required` and the converted metadata otherwise |
| Combiners.ConvertDefaultIgnoresRequired | venv/Lib/site-packages/json_schema_to_pydantic/handlers.py:39-44 | with an explicit `default`, `required` is never consulted |
| Combiners.RequiredVariantFieldStaysOptional | venv/Lib/site-packages/json_schema_to_pydantic/handlers.py:155-160 | a variant property required by key, with no `default` and no `name`, has required metadata but an `Optional` type |
| Combiners.AllOfFieldNames | venv/Lib/site-packages/json_schema_to_pydantic/handlers.py:55-82 | the `allOf` fields are the distinct property names of all branches, in first-seen order |
| Combiners.AllOfMergedSchema | venv/Lib/site-packages/json_schema_to_pydantic/handlers.py:65-74 | a property declared once keeps its schema; one declared again is `merge_constraints` folded over its declarations, oldest first |
| Combiners.AllOfFieldsOptional | venv/Lib/site-packages/json_schema_to_pydantic/handlers.py:79-82 | every `allOf` field whose merged schema has no `default` is `Optional` with default `None`, whatever the branches mark required |
| Combiners.MergeRejectsNonDict | venv/Lib/site-packages/json_schema_to_pydantic/handlers.py:58-60 | the merge stops with a `CombinerError` at the first branch that is not a dict |
| Combiners.AllOfRejects | venv/Lib/site-packages/json_schema_to_pydantic/handlers.py:52-60 | `allOf` with a non-dict branch after accepted ones is a `CombinerError` |
| Combiners.AnyOfRejects | venv/Lib/site-packages/json_schema_to_pydantic/handlers.py:92-98 | `anyOf` with a non-dict branch after successful ones is a `CombinerError` |
| Combiners.OneOfUnfold | venv/Lib/site-packages/json_schema_to_pydantic/handlers.py:121-128 | a usable `oneOf` list is handled branch by branch, and its dict branches lie inside the schema |
| Combiners.OneOfRejectsNonDict | venv/Lib/site-packages/json_schema_to_pydantic/handlers.py:128-130 | `oneOf` with a non-dict branch after variants that built is a `CombinerError` |
| Combiners.OneOfKeyedByTag | venv/Lib/site-packages/json_schema_to_pydantic/handlers.py:126-169 | the variants are keyed by distinct tags in first-seen order, and a later variant with a repeated tag replaces the earlier one |
| Dicts.Upsert | venv/Lib/site-packages/json_schema_to_pydantic/handlers.py:66-74 | assigning to a present key keeps the key order and combines the values; a new key is appended; other keys are unchanged |
| Dicts.UpsertAllKeys | venv/Lib/site-packages/json_schema_to_pydantic/handlers.py:65-74 | a loop of assignments orders keys by first assignment |
| Dicts.UpsertAllLookup | venv/Lib/site-packages/json_schema_to_pydantic/handlers.py:65-74 | after a loop of assignments, a key holds the fold of everything assigned to it |
| Dicts.UpdateLookup | venv/Lib/site-packages/json_schema_to_pydantic/handlers.py:37 | after `d.update(other)`, a key of `other` holds its last value there, any other key its old value |
| TypeIR.FieldOf | venv/Lib/site-packages/json_schema_to_pydantic/handlers.py:46 | `Field(**kwargs)` has a default iff `default` is a keyword, takes the `description` keyword or `None`, and keeps every other keyword |
| ModelBuilder.Dereference | venv/Lib/site-packages/json_schema_to_pydantic/model_builder.py:40-43 | a dict without `$ref` is kept; one with `$ref` is replaced by its resolution from an empty in-progress set; the result never holds `$ref` |
| ModelBuilder.DispatchOf | venv/Lib/site-packages/json_schema_to_pydantic/model_builder.py:46-51 | on a dict, `allOf` is chosen iff present, `anyOf` iff present without `allOf`, `oneOf` iff present without both |
| ModelBuilder.RunCombiner | venv/Lib/site-packages/json_schema_to_pydantic/model_builder.py:46-51 | a combiner succeeds only on a dict, and always with a model, a union or a root model, never a leaf type |
| ModelBuilder.CreateModel | venv/Lib/site-packages/json_schema_to_pydantic/model_builder.py:23-71 | a success is a model, a union or a root model |
| ModelBuilder.CreateModelFrom | venv/Lib/site-packages/json_schema_to_pydantic/model_builder.py:45-71 | after the reference, a success is a model, a union or a root model |
| ModelBuilder.PlainModelOf | venv/Lib/site-packages/json_schema_to_pydantic/model_builder.py:53-71 | a schema without combiners gives a model |
| ModelBuilder.BuildFields | venv/Lib/site-packages/json_schema_to_pydantic/model_builder.py:59-64 | one field per property, named by its key, in order |
| ModelBuilder.BuildField | venv/Lib/site-packages/json_schema_to_pydantic/model_builder.py:61-64 | the field is named by its key |
| ModelBuilder.BuildFieldInfo | venv/Lib/site-packages/json_schema_to_pydantic/model_builder.py:100-121 | never fails on a dict; an explicit `default` wins, an optional field defaults to `None`, a required one takes the constraints' `default` or none; the schema's description beats the constraints'; other keywords come from dict constraints only, and a type override is dropped |
| ModelBuilder.GetFieldType | venv/Lib/site-packages/json_schema_to_pydantic/model_builder.py:73-98 | a field type exists only when the field's reference, if any, leads to a dict, and a leaf field type is exactly the type resolver's answer for that dict |
| ModelBuilder.FieldTypeFrom | venv/Lib/site-packages/json_schema_to_pydantic/model_builder.py:82-98 | after the reference, a field type exists only for a dict, and a leaf result is the type resolver's |
| ModelBuilder.PlainFieldType | venv/Lib/site-packages/json_schema_to_pydantic/model_builder.py:94-98 | succeeds only on a dict; the result is a leaf type exactly when the schema is not an object with `properties`, and then it is the type resolver's |
| ModelBuilder.WithDescription | venv/Lib/site-packages/json_schema_to_pydantic/model_builder.py:111-113 | sets `description` from the schema when present and changes no other keyword |
| ModelBuilder.WithFieldDefault | venv/Lib/site-packages/json_schema_to_pydantic/model_builder.py:115-119 | sets `default` to the schema's, or to `None` for an optional field, and changes no other keyword |
| ModelBuilder.ConstraintKeywords | venv/Lib/site-packages/json_schema_to_pydantic/model_builder.py:104-109 | the keyword dict starts with each constraint's last value, and empty for a type override |
| ModelBuilder.Compile | venv/Lib/site-packages/json_schema_to_pydantic/model_builder.py:36-43 | a success is a model, a union or a root model; without a root the schema is its own root, so a failing top-level reference, resolved inside the schema itself, is the result |
| ModelBuilder.CompileSelfReference | venv/Lib/site-packages/json_schema_to_pydantic/model_builder.py:36-43 | a standalone schema whose top-level `$ref` is `#` names itself and fails as circular |
| ModelBuilder.RefIsTransparent | venv/Lib/site-packages/json_schema_to_pydantic/model_builder.py:39-43 | a top-level `$ref` to a dict compiles exactly as its target, against the same root |
| ModelBuilder.CreateModelSteps | venv/Lib/site-packages/json_schema_to_pydantic/model_builder.py:36-51 | a reference is resolved before anything else and its failure is the compilation's failure |
| ModelBuilder.CombinerPrecedence | venv/Lib/site-packages/json_schema_to_pydantic/model_builder.py:45-51 | the first of `allOf`, `anyOf`, `oneOf` present decides the result, and no property is built |
| ModelBuilder.FieldTypeSteps | venv/Lib/site-packages/json_schema_to_pydantic/model_builder.py:77-92 | `_get_field_type` resolves a `$ref` first (its failure is the result, its target is carried on with), then tries `allOf`, `anyOf`, `oneOf` in that order before anything else |
| ModelBuilder.BackReferenceToHolderFails | venv/Lib/site-packages/json_schema_to_pydantic/model_builder.py:77-80 | a property whose `$ref` names the object holding it, at any depth, makes that resolution circular, so the field's type is an error at every recursion limit |
| ModelBuilder.BackReferenceToRootFails | venv/Lib/site-packages/json_schema_to_pydantic/model_builder.py:77-80 | in particular a root property `{"$ref": "#"}` makes resolving `#` circular, so that field's type is an error at every recursion limit |
| ModelBuilder.UntypedTargetFails | venv/Lib/site-packages/json_schema_to_pydantic/model_builder.py:77-98 | a field whose reference resolves to a dict with no combiners, `const`, `enum` or truthy `type` fails with the library `TypeError` at every recursion limit |
| ModelBuilder.PlainModel | venv/Lib/site-packages/json_schema_to_pydantic/model_builder.py:53-71 | a plain schema gives a model named by `title` (default `DynamicModel`) on the builder's base, documented only by a truthy `description`, with exactly one field per property, in order |
| ModelBuilder.BuildFieldsAt | venv/Lib/site-packages/json_schema_to_pydantic/model_builder.py:59-64 | the i-th field's type is `_get_field_type` of its schema; its metadata is `_build_field_info` of the same unresolved schema, required exactly when its key is in `required` |
| ModelBuilder.FieldTypeOfPlainSchema | venv/Lib/site-packages/json_schema_to_pydantic/model_builder.py:73-98 | a field schema without `$ref` or combiners is a nested model iff it is an object with `properties`, and a resolved leaf type otherwise |
| ModelBuilder.ObjectWithoutPropertiesIsDict | venv/Lib/site-packages/json_schema_to_pydantic/model_builder.py:94-98 | an object field without `properties` is a plain `dict` |
| ModelBuilder.FieldInfoDefaults | venv/Lib/site-packages/json_schema_to_pydantic/model_builder.py:115-119 | without a `default`, being required decides only between no default and `None`; the description is the same either way |
| ModelBuilder.CreateModelFuel | venv/Lib/site-packages/json_schema_to_pydantic/model_builder.py:94-96 | a compilation that succeeds within a recursion limit gives the same model under any higher one |
| ModelBuilder.GetFieldTypeFuel | venv/Lib/site-packages/json_schema_to_pydantic/model_builder.py:73-98 | the same for `_get_field_type` |
| ModelBuilder.PlainFieldTypeSteps | venv/Lib/site-packages/json_schema_to_pydantic/model_builder.py:94-98 | an object with `properties` recurses one level down, failing with `RecursionError` when the limit is spent; anything else is resolved |

## Left out

- `app.py` and `app2.py` are callers of the package and are not part of this model.
- `ConstraintBuilder` (`builders.py`) is not part of this model. Its two
  operations are the parameter `cb`, and every contract holds for any choice of them.
- `interfaces.py` and `exceptions.py` are not part of this model. The
  exceptions are the error kinds `TypeErr`, `RefErr` and `CombinerErr`;
  messages are not modelled.
- The Pydantic and `typing` runtime is left out. `create_model`, `Field`,
  `Literal`, `Optional`, `Union`, `RootModel` and `Discriminator` become
  constructors of `TypeIR.Ty` and `TypeIR.FieldInfo`, so the models are never
  instantiated or validated.
- `PydanticModelBuilder.__init__` and `CombinerHandler.__init__`: only the
  fresh collaborators they create are modelled. The reference resolver starts
  with an empty in-progress set.
- Floats are kept as opaque mantissa and exponent.
- Equality of JSON values is structural. Python's `True == 1 == 1.0` is not
  modelled, so `in` on a list and dict keys can differ from the interpreter on
  mixed booleans and numbers.
- JSON objects are assumed to have distinct keys, as parsed Python dicts do.
- RefResolver.ResolveRef: the in-place write of resolved property schemas into
  the caller's document (`resolvers.py:124`) is not modelled. Only the
  returned value is, so later resolutions see the document unchanged. In the
  source the write can land in the `properties` dict that the field loop of
  `create_pydantic_model` (`model_builder.py:61`) is walking. Example: compiling
  a field nested under `x` resolves `#`, which writes the target of a later
  sibling `y: {"$ref": "#/D", ...}` into the root's `properties`. When the loop
  reaches `y` it hands that target to `_build_field_info`, so `y` takes the
  target's description. The model keeps the referring schema's description.
- The `schema` and `root_schema` parameters the source accepts but never reads
  are left out: the `schema` of `resolve_ref`, and the `root_schema` of
  `resolve_type` and the combiner handlers.
- ModelBuilder.CreateModel: Python's recursion limit is the parameter `fuel`,
  counted in nested models rather than interpreter frames. Running out is
  `PyErr(RecursionError)`.
- ModelBuilder.CreateModel: a `title` is passed on as a JSON value. The
  restrictions `create_model` places on model names are not modelled.
- ModelBuilder.CreateModel: `model.__doc__` is kept as the model's `doc`
  field.
