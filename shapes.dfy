/** The universe of type shapes that stands in for the TypeScript types the
    schema vocabulary is written in. One datatype covers the descriptor shapes
    a schema author writes, the value shapes the classifier projects them to,
    and the path-keyed fragments the tree walker produces. */
module Shapes {

  datatype Shape =
    | Num                                   // number
    | NumLit(n: int)                        // a numeric literal type such as 5
    | Str                                   // string
    | StrLit(s: string)                     // a string literal type such as 'a' or ''
    | Bool                                  // boolean
    | BoolLit(b: bool)                      // true or false
    | Undef                                 // undefined
    | Tuple(elems: seq<Shape>)              // [A, B, ...]
    | ArrayOf(elem: Shape)                  // T[]
    | Dict(elem: Shape)                     // Record<string, T>
    | Record(fields: map<string, Field>)    // { k: A; j?: B; ... }
    | Union(alts: set<Shape>)               // A | B | ...; the empty union is never
    | Folder(schema: Schema)                // FolderInput<Schema>, its settings abstracted
    | Special(tag: string)                  // an externally defined special input
    | Opaque(name: string)                  // an inferred or generic type known by name only

  /** A property of an object type: its type and whether it is declared with `?`. */
  datatype Field = Field(shape: Shape, optional: bool)

  /** A schema maps control names to schema items; every key is required. */
  type Schema = map<string, Shape>

  const Never := Union({})

  datatype Option<T> = None | Some(value: T)

  function Req(s: Shape): Field {
    Field(s, false)
  }

  /** The object type `{ [k in keyof schema]: schema[k] }` of a schema. */
  function SchemaRecord(schema: Schema): (r: Shape)
    ensures r.Record? && r.fields.Keys == schema.Keys
    ensures forall k :: k in schema ==> r.fields[k] == Req(schema[k])
  {
    Record(map k | k in schema :: Req(schema[k]))
  }

  /** `a | b`, where a union of a type with itself is that type. */
  function Or(a: Shape, b: Shape): Shape {
    if a == b then a else Union({a, b})
  }

  /** `s extends number`. A union extends number when every member does; the
      empty union (never) is left out of every primitive kind. */
  predicate NumberLike(s: Shape) {
    match s
    case Num => true
    case NumLit(_) => true
    case Union(alts) => alts != {} && forall a | a in alts :: NumberLike(a)
    case _ => false
  }

  /** `s extends string`. */
  predicate StringLike(s: Shape) {
    match s
    case Str => true
    case StrLit(_) => true
    case Union(alts) => alts != {} && forall a | a in alts :: StringLike(a)
    case _ => false
  }

  /** `s extends boolean`. */
  predicate BooleanLike(s: Shape) {
    match s
    case Bool => true
    case BoolLit(_) => true
    case Union(alts) => alts != {} && forall a | a in alts :: BooleanLike(a)
    case _ => false
  }

  /** `s extends undefined | string`. */
  predicate StringOrUndefined(s: Shape) {
    match s
    case Str => true
    case StrLit(_) => true
    case Undef => true
    case Union(alts) => alts != {} && forall a | a in alts :: StringOrUndefined(a)
    case _ => false
  }

  /** `s extends number | undefined`, the type an optional numeric property
      accepts when optional properties may hold `undefined`. */
  predicate NumberOrUndefined(s: Shape) {
    match s
    case Num => true
    case NumLit(_) => true
    case Undef => true
    case Union(alts) => alts != {} && forall a | a in alts :: NumberOrUndefined(a)
    case _ => false
  }

  /** `s extends object`: records, tuples, arrays, dictionaries and the
      tagged folder and special inputs are objects. */
  predicate IsObject(s: Shape) {
    s.Record? || s.Tuple? || s.ArrayOf? || s.Dict? || s.Folder? || s.Special?
  }

  /** The object type has a required property `k`. */
  predicate HasRequired(fs: map<string, Field>, k: string) {
    k in fs && !fs[k].optional
  }

  /** The object type has a required numeric property `k`, as `{ k: number }` demands. */
  predicate HasNumber(fs: map<string, Field>, k: string) {
    HasRequired(fs, k) && NumberLike(fs[k].shape)
  }

  /** A tuple of exactly `n` numbers, as `[number, ...]` of length `n` demands. */
  predicate NumberTuple(s: Shape, n: nat) {
    s.Tuple? && |s.elems| == n && forall i | 0 <= i < n :: NumberLike(s.elems[i])
  }

  /** Every property name that occurs anywhere inside a shape. */
  function AllKeys(s: Shape): set<string> {
    match s
    case Tuple(elems) => set i, k | 0 <= i < |elems| && k in AllKeys(elems[i]) :: k
    case ArrayOf(e) => AllKeys(e)
    case Dict(e) => AllKeys(e)
    case Record(fs) => fs.Keys + set j, k | j in fs && k in AllKeys(fs[j].shape) :: k
    case Union(alts) => set a, k | a in alts && k in AllKeys(a) :: k
    case Folder(schema) => schema.Keys + set j, k | j in schema && k in AllKeys(schema[j]) :: k
    case _ => {}
  }
}
