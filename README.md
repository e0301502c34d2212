# leva: the value types derived from a control schema

leva is a React control panel. A schema maps control names to schema items:
a number, a string, a boolean, a color object, a 2D or 3D point, an interval,
a spring, an image, a select, a special input or a folder of further items.
From a schema, the type `SchemaToValues<S>` in `src/types/public-api-types.ts`
derives the flat mapping of plain values the panel hands back to the program.
That takes two steps:

- `PrimitiveToValue<S>` (lines 70-100) classifies one schema item. It runs an
  ordered chain of fifteen structural tests, and the first test that matches
  gives the item's value type.
- `Leaves<T, P>` (lines 106-120) walks the schema. A folder contributes its own
  items. A special input contributes nothing. A classified item contributes
  one entry under the key it was reached by. A record the classifier does not
  know is walked property by property. Anything else becomes the placeholder
  `''`. The resulting union of fragments is merged into one object type
  (line 102).

The project models these type-level functions as ordinary functions over a
datatype of type shapes:

- `shapes.dfy`, module `Shapes`: the `Shape` universe. It covers primitive
  and literal types, tuples, arrays, dictionaries, records with optional
  properties, unions (the empty union is `never`), folders and special inputs,
  plus the `extends` tests used by the chain.
- `primitive.dfy`, module `Primitive`: the descriptor shapes (lines 11-49 and
  65-68), `PrimitiveToValue`, a `Test` enumeration of the chain in source
  order, and the lemmas about the chain.
- `walker.dfy`, module `Walker`: `Leaves`, the flattening, `SchemaToValues`,
  a reference definition that collects entries directly, and lemmas relating
  them.

`Join<T, K, P>` comes from `./utils`, and its definition is not part of this
model. `Leaves` therefore takes Join as a function parameter. The dispatch
lemmas hold for every Join. The lemmas about whole schemas assume
`PassesThrough(join)`: Join returns every fragment that is not a `''`
placeholder unchanged, and never returns a placeholder. This matches how the
walker uses Join to replace placeholders. `KeyedJoin`, which replaces `''` by
`{ [K]: T[K] }`, is one Join that meets the assumption.

`MergedInputWithSettings<V, S>` comes from `./index` and is not part of this
model either. It is read as "V itself, or an object whose required `value` is
a V, plus further properties".

Nested keys do not become dotted paths (`f.n`, `a.b.c`): `Leaves` does not
build such paths. It passes only the property key `K` to `Leaves<T[K], K>`,
and the folder case maps its own items through Join without walking them. Join, which is not shown, also receives
`K`; with a pass-through Join, which the schema lemmas assume, no dotted key
arises: a key is the item's own key, and a folder nested in a folder is kept
whole. The model follows the code.

## Model

| member | source | states |
|---|---|---|
| Shapes.NumberLike | src/types/public-api-types.ts:94 | no contract of its own; `S extends number`: number, a numeric literal, or a non-empty union of them; used by BareNumber and the numeric descriptor tests |
| Shapes.StringLike | src/types/public-api-types.ts:96 | no contract of its own; `S extends string`: string, a string literal, or a non-empty union of them; used by BareString |
| Shapes.BooleanLike | src/types/public-api-types.ts:98 | no contract of its own; `S extends boolean`: boolean, a boolean literal, or a non-empty union of them; used by BareBoolean |
| Shapes.IsObject | src/types/public-api-types.ts:117 | no contract of its own; `T extends object`: records, tuples, arrays, dictionaries, folders and special inputs; separates walker case 3 from case 4, used by PlaceholderForNonObjects and PlaceholderExactlyInCase4 |
| Primitive.PrimitiveToValue | src/types/public-api-types.ts:70-100 | no contract of its own; the chain in source order, stated by FirstMatchWins, NoTestGivesNotAPrimitive and the per-test lemmas below |
| Primitive.IsColorObjectRGBA | src/types/public-api-types.ts:67 | no contract of its own; required numeric r, g, b and a; used by RgbaColorFirst |
| Primitive.IsColorObjectRGB | src/types/public-api-types.ts:68 | no contract of its own; required numeric r, g and b; used by RgbColorWithoutAlpha |
| Primitive.IsImageInput | src/types/public-api-types.ts:28 | no contract of its own; a required image of type string or undefined; used by ImageProjection |
| Primitive.IsSpring | src/types/public-api-types.ts:37 | no contract of its own; required numeric tension and friction, and a mass, if present, of type number or undefined; used by SpringAlwaysHasMass and SpringUndefinedMassExample |
| Primitive.IsSpringInput | src/types/public-api-types.ts:39 | no contract of its own; a spring, or a record whose required value is a spring; used by SpringAlwaysHasMass |
| Primitive.HasValue | src/types/public-api-types.ts:92 | no contract of its own; a record with a required value; used by ValueWrapperUnwraps |
| Primitive.OptionsElement | src/types/public-api-types.ts:32-33 | no contract of its own; the element type of options given as an array, tuple, dictionary or record; used by the select lemmas |
| Primitive.IsSelectWithValueInput | src/types/public-api-types.ts:32 | no contract of its own; options of one of the two forms and a required value; used by SelectWithValueProjection |
| Primitive.IsSelectWithoutValueInput | src/types/public-api-types.ts:33 | no contract of its own; a required options of one of the two forms; used by SelectWithoutValueProjection |
| Primitive.SelectElement | src/types/public-api-types.ts:80-81 | no contract of its own; the inferred element type of a select; used by the select lemmas |
| Primitive.IsIntervalInput | src/types/public-api-types.ts:26 | no contract of its own; a required value that is a number pair and required numeric min and max; used by IntervalBeforeValue |
| Primitive.IsPoint3dObject | src/types/public-api-types.ts:21 | no contract of its own; required numeric x, y and z; used by Point3dObjectBefore2d |
| Primitive.IsPoint3dArray | src/types/public-api-types.ts:20 | no contract of its own; a tuple of three numbers; used by Point3dArrayProjection |
| Primitive.IsPoint2dObject | src/types/public-api-types.ts:15 | no contract of its own; required numeric x and y; used by Point2dObjectProjection |
| Primitive.IsPoint2dArray | src/types/public-api-types.ts:14 | no contract of its own; a tuple of two numbers; used by Point2dArrayProjection |
| Primitive.RgbaColorFirst | src/types/public-api-types.ts:67-71 | a record with numeric r, g, b and a projects to the four-number color; it would also have passed the RGB test, so the order of the chain decides |
| Primitive.RgbColorWithoutAlpha | src/types/public-api-types.ts:68-73 | when the RGB test is the first match, `a` is not a required number and the projection has exactly the keys r, g, b |
| Primitive.ImageProjection | src/types/public-api-types.ts:74-75 | when no earlier test matches, a record with a required image of type string or undefined projects to string or undefined |
| Primitive.SpringAlwaysHasMass | src/types/public-api-types.ts:76-77 | when no earlier test matches, a spring, bare or as a value, projects to tension, friction and mass, with mass required even when the input omits it |
| Primitive.SelectWithValueProjection | src/types/public-api-types.ts:78-79 | when no earlier test matches, a select with options and a value projects to the option element type united with the value type; it also meets the select-without-value test |
| Primitive.SelectWithoutValueProjection | src/types/public-api-types.ts:80-81 | when no earlier test matches, a select without a required value projects to the element type of its options |
| Primitive.IntervalBeforeValue | src/types/public-api-types.ts:82-83 | when no earlier test matches, an interval projects to a pair of numbers, as its unwrapped value would |
| Primitive.Point3dObjectBefore2d | src/types/public-api-types.ts:84-85 | when no earlier test matches, a record with numeric x, y and z projects to the 3D object although it meets the 2D test too; the projection has keys x, y, z |
| Primitive.Point3dArrayProjection | src/types/public-api-types.ts:86-87 | every tuple of three numbers projects to a triple of numbers, and no earlier test accepts it |
| Primitive.Point2dObjectProjection | src/types/public-api-types.ts:88-89 | when the 2D object test is the first match, z is not a required number and the projection has keys x, y |
| Primitive.Point2dArrayProjection | src/types/public-api-types.ts:90-91 | every tuple of two numbers projects to a pair of numbers, and no earlier test accepts it |
| Primitive.ValueWrapperUnwraps | src/types/public-api-types.ts:92-93 | a record with a required value that meets no earlier test projects to whatever its value projects to |
| Primitive.BareNumber | src/types/public-api-types.ts:94-95 | every number type (number, a numeric literal, a union of them) projects to number, and no earlier test accepts it |
| Primitive.BareString | src/types/public-api-types.ts:96-97 | every string type projects to string, and no earlier test accepts it |
| Primitive.BareBoolean | src/types/public-api-types.ts:98-99 | every boolean type projects to boolean, and no earlier test accepts it |
| Primitive.FirstMatchWins | src/types/public-api-types.ts:70-100 | for every test and shape: when the test matches and no test earlier in the chain does, the classifier returns that test's outcome |
| Primitive.NoTestGivesNotAPrimitive | src/types/public-api-types.ts:100 | a shape that matches no test is classified as not a primitive |
| Primitive.SettingsStripped | src/types/public-api-types.ts:92-93 | wrapping a value in a settings record of optional min/max/step or per-component settings does not change its projection, except for a value that is both a spring and a color or an image, which is excluded (wrapped it is taken as a spring, bare as the color or image) |
| Primitive.SpringColorDivergence | src/types/public-api-types.ts:70-77 | that exception occurs: `{ tension, friction, r, g, b }` of numbers projects to the RGB color bare and to the spring when wrapped in `{ value: ... }` |
| Primitive.NumberRecordKeys | src/types/public-api-types.ts:71-89 | a record of numbers has exactly its own keys (used for the fixed projections) |
| Primitive.RecordValueKeys | src/types/public-api-types.ts:71-89 | the fixed record projections use only the keys r, g, b, a, tension, friction, mass, x, y, z |
| Primitive.OtherValueKeys | src/types/public-api-types.ts:75-91 | the tuple and image projections have no keys at all |
| Primitive.ProjectionKeys | src/types/public-api-types.ts:70-100 | for a shape that contains no `options` property anywhere, every key in its projection is one of the fixed projection keys |
| Primitive.NumberDescriptorExample | src/types/public-api-types.ts:92-95 | `{ value: 5, min: 0, max: 10, step: 1 }` and `5` both project to number |
| Primitive.IntervalExample | src/types/public-api-types.ts:82-83 | `{ value: [0, 1], min: 0, max: 1 }` projects to `[number, number]` |
| Primitive.SelectExample | src/types/public-api-types.ts:80-81 | `{ options: ['a', 'b'] }` projects to the union of 'a' and 'b' |
| Primitive.SpringUndefinedMassExample | src/types/public-api-types.ts:37 | a spring whose mass is undefined, or the union of number and undefined, still fits the optional `mass?: number` and projects to the spring |
| Primitive.SpringExample | src/types/public-api-types.ts:76-77 | `{ tension: 200, friction: 20 }` projects to a spring with a required mass |
| Primitive.PointObjectExample | src/types/public-api-types.ts:88-89 | `{ x: number, y: number }` projects to the 2D object |
| Primitive.PlainRecordExample | src/types/public-api-types.ts:70-100 | `{ w: number, label: string }` is not a primitive |
| Primitive.BareTypesExample | src/types/public-api-types.ts:94-99 | number, string and boolean project to themselves |
| Walker.Case | src/types/public-api-types.ts:112-120 | no contract of its own; the five-way dispatch; stated by FolderContributesItsItems, SpecialContributesNothing, LeafContributesOneEntry and PlaceholderForNonObjects |
| Walker.Leaves | src/types/public-api-types.ts:106-111 | no contract of its own; the walker; stated by the dispatch lemmas, OnlyLeavesUseTheirKey, PlaceholderExactlyInCase4 and LeavesAccumulate |
| Walker.GroupLeaves | src/types/public-api-types.ts:110 | no contract of its own; the union over an unclassified record's properties; stated by GroupAccumulates and GroupOfLeaves |
| Walker.Pairs | src/types/public-api-types.ts:102 | no contract of its own; the key/type pairs of the intersection of record fragments; stated by LeavesAccumulate and MergeKeepsEveryEntry |
| Walker.Merge | src/types/public-api-types.ts:102 | no contract of its own; the one flat mapping of those pairs; stated by MergeKeepsEveryEntry and MergeOneTypePerKey |
| Walker.SchemaToValues | src/types/public-api-types.ts:102 | no contract of its own; the derivation as written; stated by RootSchemaTakenForAPoint and RootWalkAgrees |
| Walker.SchemaValues | src/types/public-api-types.ts:102 | no contract of its own; the derivation with the root walked key by key; stated by FlatSchemaValues, FolderSchemaValues, GroupSchemaValues and RootSchemaWalked |
| Walker.KeyedJoin | src/types/public-api-types.ts:9 | no contract of its own; a Join that replaces the placeholder by its keyed raw property; stated by KeyedJoinPassesThrough |
| Walker.MergeKeepsEveryEntry | src/types/public-api-types.ts:102 | merging fragments keeps a key/type pair exactly when some fragment gave it, and every derived key holds at least one type |
| Walker.FolderContributesItsItems | src/types/public-api-types.ts:107-113 | a folder is dispatched first and contributes one entry per item of its own schema, each the joined raw item |
| Walker.SpecialContributesNothing | src/types/public-api-types.ts:108-115 | a special input contributes `never`, which holds no entry |
| Walker.LeafContributesOneEntry | src/types/public-api-types.ts:109-120 | a classified node contributes exactly one entry: its projection under the key it was reached by |
| Walker.PlaceholderForNonObjects | src/types/public-api-types.ts:111-119 | an unclassified node that is not an object yields the placeholder `''` |
| Walker.OnlyLeavesUseTheirKey | src/types/public-api-types.ts:106-120 | for every node except a classified one, the fragment does not depend on the key it was reached by |
| Walker.PlaceholderExactlyInCase4 | src/types/public-api-types.ts:106-120 | under a pass-through Join, the walker yields a fragment accepting `''` exactly when it takes the fifth case |
| Walker.LeavesAccumulate | src/types/public-api-types.ts:106-120 | the walker's union of fragments, flattened, holds exactly the entries the direct reference definition collects |
| Walker.GroupAccumulates | src/types/public-api-types.ts:110 | the same for the union across the properties of an unclassified record |
| Walker.PropertyAccumulates | src/types/public-api-types.ts:110 | the same for one property: the joined fragment holds the reference entries of that property |
| Walker.MergeOneTypePerKey | src/types/public-api-types.ts:102 | merging one pair per key gives back the mapping, each key holding one type |
| Walker.SchemaValuesAccumulate | src/types/public-api-types.ts:110 | the derived mapping of a schema is the merge of its directly collected entries |
| Walker.GroupOfLeaves | src/types/public-api-types.ts:109-110 | a record of classified properties contributes one entry per property, under the property's own key, holding its projection |
| Walker.FlatSchemaValues | src/types/public-api-types.ts:109-110 | with the root walked key by key, a schema of leaves derives exactly its own keys, each holding that leaf's projection alone |
| Walker.LeavesOfSchema | src/types/public-api-types.ts:109-110 | the entries of an all-leaf schema are its keys paired with their projections |
| Walker.FolderSchemaValues | src/types/public-api-types.ts:107 | with the root walked key by key, a folder under key f derives the keys of its own schema, each holding the joined raw item; f itself is derived only when an item reuses it |
| Walker.FolderEntries | src/types/public-api-types.ts:107-110 | the entries of a schema holding one folder are the folder's joined items |
| Walker.ColorIsALeafNotAGroup | src/types/public-api-types.ts:70-71 | a record with numeric r, g, b and a is one color entry, never walked property by property |
| Walker.GroupSchemaValues | src/types/public-api-types.ts:110-118 | with the root walked key by key, an unclassified record under key p whose properties are leaves derives one key per property, with that property's projection |
| Walker.NestedGroupEntries | src/types/public-api-types.ts:110-118 | the entries of a schema holding one unclassified record are that record's entries |
| Walker.GroupLeafEntries | src/types/public-api-types.ts:109-110 | the entries of an all-leaf record are its keys paired with their projections |
| Walker.FolderOfOne | src/types/public-api-types.ts:107 | with the root walked key by key, a folder holding one item n that is not a `''`-accepting type derives n alone, holding that item (a string item is replaced by Join instead) |
| Walker.NestedFoldersNotWalked | src/types/public-api-types.ts:107 | with the root walked key by key, a folder b inside a folder a is kept whole under b, and nothing inside it is derived |
| Walker.KeyedJoinPassesThrough | src/types/public-api-types.ts:110 | the Join that replaces a placeholder by its keyed raw property meets the pass-through assumption |
| Walker.FolderExample | src/types/public-api-types.ts:107 | with the root walked key by key, a folder f holding a number n derives n, and no f or f.n |
| Walker.GroupExample | src/types/public-api-types.ts:110 | with the root walked key by key, a plain record p of a number w and a string label derives w and label, and no p, p.w or p.label |
| Walker.PointRecordExample | src/types/public-api-types.ts:88-89 | with the root walked key by key, a record of numbers x and y under key p is taken for a 2D point and derives p alone |
| Walker.OneLeafSchema | src/types/public-api-types.ts:109 | with the root walked key by key, a schema of one leaf derives its key alone, holding the leaf's projection |
| Walker.OneLeafEntries | src/types/public-api-types.ts:109-110 | the entries of a schema of one leaf are that leaf's one entry |
| Walker.RootSchemaTakenForAPoint | src/types/public-api-types.ts:102-120 | as written, the schema `{ x: number, y: number }` derives the single key `''` holding a 2D point |
| Walker.RootSchemaWalked | src/types/public-api-types.ts:110 | with the root walked key by key, the same schema derives x and y, each holding number |
| Walker.BareProjections | src/types/public-api-types.ts:94-95 | every item of the schema `{ x: number, y: number }` is a leaf projecting to itself |
| Walker.RootWalkAgrees | src/types/public-api-types.ts:102-118 | the two readings of the root agree on every schema the classifier does not take for a single control |

## Left out

- `Join` from `./utils` is not part of this model. It is a parameter, and the schema-level lemmas assume `PassesThrough`.
- Primitive.IsSpringInput: the properties beside `value` in a merged input are not checked against the settings type `S`; any extra property of any type is accepted.
- The lemmas on whole schemas (FlatSchemaValues, FolderSchemaValues, GroupSchemaValues and the examples built on them) are proved for `Walker.SchemaValues`, which walks the root key by key; for `Walker.SchemaToValues` as written they hold only where `Walker.RootWalkAgrees` applies, that is when the root schema itself is not classified (a schema `{ value: number }`, for one, derives the single key `''`).
- Walker.AcceptsEmptyString: `'' extends x` is decided only for strings, string literals and unions holding one; an object type that `''` also extends in TypeScript, such as the empty record `{}` or `{ length: number }`, is treated as not accepting `''`. So under `Walker.KeyedJoin` an empty folder derives nothing, where TypeScript would keep the raw folder under its own key.
- Walker.Case: a node whose projection is `never` (a select over `never[]`) is taken as a classified leaf, although `never extends NotAPrimitiveType` holds in TypeScript and the source would take case 3 or 4.
- `MergedInputWithSettings`, `SpecialInput`, `SpecialInputTypes` and `FolderSettings` from `./index` are not part of this model. A special input is a tagged `Special` shape, a folder a `Folder` shape with its settings abstracted.
- Distribution of conditional types over union members is left out. A union passes a primitive test only when it is non-empty and every member passes; it is not split and classified member by member.
- `any`, `unknown`, generics and inference that TypeScript leaves unresolved are left out, apart from an `Opaque` shape that passes no test.
- The `infer T` step of a select over a tuple or record of options is simplified to the union of the element or property types.
- The flattening `BeautifyUnionType<UnionToIntersection<…>>` keeps, for a key given by several fragments, the set of their types; it does not compute their intersection. Fragments that are not records add nothing.
- `Walker.Leaves` case 3 on an object that is not a record (an unclassified tuple, array or dictionary) gives `never`; indexing element types by their keys is left out.
- An optional property `K` reached as `T[K]` does not get `undefined` added when walked; only `Walker.Member` adds it.
- The sentinel `NotAPrimitiveType` (line 65) is a separate `NotAPrimitive` constructor of the classifier's result, not a record shape that a schema item could also match.
- The runtime store, rendering, hooks and the plugin system are left out; only the type-level derivation is modelled.

## Findings

| source | as written | input that shows it | evidently intended | confidence | as-written member | corrected member |
|---|---|---|---|---|---|---|
| src/types/public-api-types.ts:102-120 | `SchemaToValues<S>` is `Leaves<S>` with `P = ''`, so the root schema goes through the same classifier chain as any item | the schema `{ x: number, y: number }` (two number controls named x and y) is taken for one 2D point and derives `{ '': { x: number; y: number } }` | the root schema is always walked key by key and derives `{ x: number; y: number }` with keys x and y | medium, not executed | Walker.RootSchemaTakenForAPoint (on Walker.SchemaToValues) | Walker.RootSchemaWalked (on Walker.SchemaValues) |
