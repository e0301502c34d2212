/** The tree walker `Leaves`, the flattening step of `SchemaToValues`, and what
    they derive from a schema: the path-keyed mapping of projected value shapes. */
module Walker {
  import opened Shapes
  import opened Primitive

  /** `Join<T, K, P>`: given the container `T`, one of its keys `K` and the
      result `P` computed for that key, the fragment the walker keeps. Its
      definition is not part of this model, so the walker takes it as a
      parameter and every lemma about the walker alone holds for all of them. */
  type JoinFn = (Shape, string, Shape) -> Shape

  /** `'' extends x`. */
  predicate AcceptsEmptyString(x: Shape) {
    match x
    case Str => true
    case StrLit(v) => v == ""
    case Union(alts) => exists a | a in alts :: AcceptsEmptyString(a)
    case _ => false
  }

  /** The five-way dispatch of `Leaves`: 0 folder, 1 special input, 2 classified
      leaf, 3 unclassified object, 4 anything else. */
  function Case(t: Shape): nat {
    if t.Folder? then 0
    else if t.Special? then 1
    else if PrimitiveToValue(t).NotAPrimitive? then (if IsObject(t) then 3 else 4)
    else 2
  }

  /** `Leaves<T, P>`: the fragment contributed by node `t` reached under key `p`. */
  function Leaves(join: JoinFn, t: Shape, p: string): Shape
    decreases t, 1
  {
    match Case(t)
    // `{ [K in keyof F]: Join<F, K, F[K]> }`: the folder's own items, not walked
    case 0 => Record(map k | k in t.schema :: Req(join(SchemaRecord(t.schema), k, t.schema[k])))
    // `never`
    case 1 => Never
    // `{ [i in P]: PrimitiveToValue<T> }`
    case 2 => Record(map[p := Req(PrimitiveToValue(t).shape)])
    // `{ [K in keyof T]: Join<T, K, Leaves<T[K], K>> }[keyof T]`
    case 3 => if t.Record? then GroupLeaves(join, t) else Never
    // `''`
    case _ => StrLit("")
  }

  /** Case 3 on a record: the union, over its keys `K`, of the joined fragment
      of `Leaves<T[K], K>`. */
  function GroupLeaves(join: JoinFn, t: Shape): Shape
    requires t.Record?
    decreases t, 0
  {
    Union(set k | k in t.fields :: join(t, k, Leaves(join, t.fields[k].shape, k)))
  }

  // ---------------------------------------------------------------------------
  // Flattening: `BeautifyUnionType<UnionToIntersection<...>>`.
  // ---------------------------------------------------------------------------

  /** The key/type pairs of the intersection of all record fragments of a union,
      nested unions included; a fragment that is not a record adds nothing. */
  function Pairs(x: Shape): set<(string, Shape)> {
    match x
    case Record(fs) => set k | k in fs :: (k, fs[k].shape)
    case Union(alts) => set a, e | a in alts && e in Pairs(a) :: e
    case _ => {}
  }

  /** One flat mapping: each key to the set of types its fragments give it (the
      members of their intersection; a single type unless a key is reused). */
  function Merge(es: set<(string, Shape)>): map<string, set<Shape>> {
    map k | k in KeysOf(es) :: TypesOf(es, k)
  }

  /** Merging loses and invents nothing: a key holds a type exactly when some
      fragment gave it that type, and every derived key holds at least one. */
  lemma MergeKeepsEveryEntry(es: set<(string, Shape)>)
    ensures forall k, v :: (k, v) in es <==> k in Merge(es) && v in Merge(es)[k]
    ensures forall k :: k in Merge(es) ==> Merge(es)[k] != {}
  {
  }

  function KeysOf(es: set<(string, Shape)>): set<string> {
    set e | e in es :: e.0
  }

  function TypesOf(es: set<(string, Shape)>, k: string): set<Shape> {
    set e | e in es && e.0 == k :: e.1
  }

  /** `SchemaToValues<S>` as written: the root schema goes through the same
      dispatch as any other node, with the empty key. */
  function SchemaToValues(join: JoinFn, schema: Schema): map<string, set<Shape>> {
    Merge(Pairs(Leaves(join, SchemaRecord(schema), "")))
  }

  /** `SchemaToValues<S>` with the root always walked key by key, as a schema is
      a record of controls and never a control itself. */
  function SchemaValues(join: JoinFn, schema: Schema): map<string, set<Shape>> {
    Merge(Pairs(GroupLeaves(join, SchemaRecord(schema))))
  }

  // ---------------------------------------------------------------------------
  // The dispatch, for every Join.
  // ---------------------------------------------------------------------------

  /** A folder is dispatched before anything else and contributes one entry per
      item of its own schema, each the joined raw item; its own key is not used. */
  lemma FolderContributesItsItems(join: JoinFn, schema: Schema, p: string)
    ensures Case(Folder(schema)) == 0
    ensures Pairs(Leaves(join, Folder(schema), p))
         == set k | k in schema :: (k, join(SchemaRecord(schema), k, schema[k]))
  {
  }

  /** A special input contributes nothing: `never`, with no record fragment. */
  lemma SpecialContributesNothing(join: JoinFn, tag: string, p: string)
    ensures Case(Special(tag)) == 1
    ensures Leaves(join, Special(tag), p) == Never && Pairs(Never) == {}
  {
  }

  /** A node the classifier accepts contributes exactly one entry, under the key
      it was reached by, holding its projection. */
  lemma LeafContributesOneEntry(join: JoinFn, t: Shape, p: string)
    requires !t.Folder? && !t.Special? && PrimitiveToValue(t).Value?
    ensures Case(t) == 2
    ensures Pairs(Leaves(join, t, p)) == {(p, PrimitiveToValue(t).shape)}
  {
    SingleEntry(p, PrimitiveToValue(t).shape);
  }

  lemma SingleEntry(p: string, v: Shape)
    ensures Pairs(Record(map[p := Req(v)])) == {(p, v)}
  {
    var fs := map[p := Req(v)];
    assert fs.Keys == {p};
  }

  /** An unclassified node that is not an object yields the placeholder `''`. */
  lemma PlaceholderForNonObjects(join: JoinFn, t: Shape, p: string)
    requires PrimitiveToValue(t).NotAPrimitive? && !IsObject(t)
    ensures Case(t) == 4
    ensures Leaves(join, t, p) == StrLit("") && AcceptsEmptyString(Leaves(join, t, p))
  {
  }

  /** The key a node is reached by matters only to a classified leaf: every other
      case gives the same fragment under any key, so the key of an enclosing
      folder or group never reaches the entries below it. */
  lemma OnlyLeavesUseTheirKey(join: JoinFn, t: Shape, p: string, q: string)
    requires Case(t) != 2
    ensures Leaves(join, t, p) == Leaves(join, t, q)
  {
  }

  // ---------------------------------------------------------------------------
  // Distribute-then-merge equals direct accumulation.
  // ---------------------------------------------------------------------------

  /** What the walker's use of Join relies on: Join returns every fragment that
      is not a `''` placeholder unchanged, and never returns a placeholder. */
  ghost predicate PassesThrough(join: JoinFn) {
    && (forall c, k, x :: !AcceptsEmptyString(x) ==> join(c, k, x) == x)
    && (forall c, k, x :: !AcceptsEmptyString(join(c, k, x)))
  }

  /** The entries a node contributes, collected directly: a folder its joined
      raw items, a special input none, a classified leaf its one projection, an
      unclassified record those of its properties, anything else none. */
  function Entries(join: JoinFn, t: Shape, p: string): set<(string, Shape)>
    decreases t, 2
  {
    if t.Folder? then set k | k in t.schema :: (k, join(SchemaRecord(t.schema), k, t.schema[k]))
    else if t.Special? then {}
    else if PrimitiveToValue(t).Value? then {(p, PrimitiveToValue(t).shape)}
    else if t.Record? then GroupEntries(join, t)
    else {}
  }

  /** The entries of the properties of an unclassified record; a property that
      yields the placeholder contributes what Join makes of it. */
  function GroupEntries(join: JoinFn, t: Shape): set<(string, Shape)>
    requires t.Record?
    decreases t, 1
  {
    set k, e | k in t.fields && e in PropertyEntries(join, t, k) :: e
  }

  function PropertyEntries(join: JoinFn, t: Shape, k: string): set<(string, Shape)>
    requires t.Record? && k in t.fields
    decreases t, 0
  {
    var c := t.fields[k].shape;
    if Case(c) == 4 then Pairs(join(t, k, StrLit(""))) else Entries(join, c, k)
  }

  /** Under a pass-through Join, the walker's result is a placeholder exactly in
      the fifth case. */
  lemma PlaceholderExactlyInCase4(join: JoinFn, t: Shape, p: string)
    requires PassesThrough(join)
    ensures AcceptsEmptyString(Leaves(join, t, p)) <==> Case(t) == 4
  {
    if Case(t) == 3 && t.Record? {
      var u := GroupLeaves(join, t);
      forall a | a in u.alts ensures !AcceptsEmptyString(a) {
        var k :| k in t.fields && a == join(t, k, Leaves(join, t.fields[k].shape, k));
      }
    }
  }

  /** The walker's union of fragments, flattened, holds exactly the entries
      collected directly. */
  lemma {:induction false} LeavesAccumulate(join: JoinFn, t: Shape, p: string)
    requires PassesThrough(join)
    ensures Pairs(Leaves(join, t, p)) == Entries(join, t, p)
    decreases t, 2
  {
    match Case(t)
    case 0 =>
    case 1 =>
    case 2 => SingleEntry(p, PrimitiveToValue(t).shape);
    case 3 =>
      if t.Record? {
        GroupAccumulates(join, t);
      }
    case 4 =>
  }

  lemma {:induction false} GroupAccumulates(join: JoinFn, t: Shape)
    requires PassesThrough(join) && t.Record?
    ensures Pairs(GroupLeaves(join, t)) == GroupEntries(join, t)
    decreases t, 1
  {
    var alts := GroupLeaves(join, t).alts;
    forall e | e in Pairs(GroupLeaves(join, t)) ensures e in GroupEntries(join, t) {
      var a :| a in alts && e in Pairs(a);
      var k :| k in t.fields && a == join(t, k, Leaves(join, t.fields[k].shape, k));
      PropertyAccumulates(join, t, k);
    }
    forall e | e in GroupEntries(join, t) ensures e in Pairs(GroupLeaves(join, t)) {
      var k :| k in t.fields && e in PropertyEntries(join, t, k);
      PropertyAccumulates(join, t, k);
      assert join(t, k, Leaves(join, t.fields[k].shape, k)) in alts;
    }
  }

  lemma {:induction false} PropertyAccumulates(join: JoinFn, t: Shape, k: string)
    requires PassesThrough(join) && t.Record? && k in t.fields
    ensures Pairs(join(t, k, Leaves(join, t.fields[k].shape, k))) == PropertyEntries(join, t, k)
    decreases t, 0
  {
    var c := t.fields[k].shape;
    PlaceholderExactlyInCase4(join, c, k);
    if Case(c) != 4 {
      LeavesAccumulate(join, c, k);
    }
  }

  // ---------------------------------------------------------------------------
  // What a schema derives to.
  // ---------------------------------------------------------------------------

  /** A schema item the classifier turns into one entry. */
  predicate IsLeaf(t: Shape) {
    !t.Folder? && !t.Special? && PrimitiveToValue(t).Value?
  }

  /** The projection of a leaf. */
  function ProjectionOf(t: Shape): Shape
    requires IsLeaf(t)
  {
    PrimitiveToValue(t).shape
  }

  /** Merging one type per key gives back that mapping, each type alone. */
  lemma MergeOneTypePerKey(m: map<string, Shape>)
    ensures Merge(set k | k in m :: (k, m[k])) == Singletons(m)
  {
    var es := set k | k in m :: (k, m[k]);
    var r := Merge(es);
    MergeKeepsEveryEntry(es);
    assert r.Keys == m.Keys by {
      forall k | k in m ensures k in r { assert (k, m[k]) in es; }
    }
    forall k | k in m ensures r[k] == {m[k]} {
      assert (k, m[k]) in es;
    }
  }

  /** The derived mapping of a schema is the merge of its entries collected directly. */
  lemma SchemaValuesAccumulate(join: JoinFn, schema: Schema)
    requires PassesThrough(join)
    ensures SchemaValues(join, schema) == Merge(GroupEntries(join, SchemaRecord(schema)))
  {
    GroupAccumulates(join, SchemaRecord(schema));
  }

  /** A record whose properties are all leaves contributes one entry per
      property, under the property's own key. */
  lemma GroupOfLeaves(join: JoinFn, t: Shape)
    requires t.Record? && forall k :: k in t.fields ==> IsLeaf(t.fields[k].shape)
    ensures GroupEntries(join, t)
         == set k | k in t.fields :: (k, ProjectionOf(t.fields[k].shape))
  {
    forall k | k in t.fields
      ensures PropertyEntries(join, t, k) == {(k, ProjectionOf(t.fields[k].shape))}
    {
      assert Case(t.fields[k].shape) == 2;
    }
  }

  /** The projection of every item of an all-leaf schema. */
  function Projections(schema: Schema): map<string, Shape>
    requires forall k :: k in schema ==> IsLeaf(schema[k])
  {
    map k | k in schema :: ProjectionOf(schema[k])
  }

  /** Each key holding just one type. */
  function Singletons(m: map<string, Shape>): map<string, set<Shape>> {
    map k | k in m :: {m[k]}
  }

  /** Flattening: a schema of N leaves and no folders derives exactly N keys,
      each leaf's own key, each holding that leaf's projection and nothing else. */
  lemma FlatSchemaValues(join: JoinFn, schema: Schema)
    requires PassesThrough(join)
    requires forall k :: k in schema ==> IsLeaf(schema[k])
    ensures SchemaValues(join, schema) == Singletons(Projections(schema))
  {
    var m := Projections(schema);
    SchemaValuesAccumulate(join, schema);
    LeavesOfSchema(join, schema, m);
    MergeOneTypePerKey(m);
  }

  lemma LeavesOfSchema(join: JoinFn, schema: Schema, m: map<string, Shape>)
    requires forall k :: k in schema ==> IsLeaf(schema[k])
    requires m == Projections(schema)
    ensures GroupEntries(join, SchemaRecord(schema)) == set k | k in m :: (k, m[k])
  {
    var root := SchemaRecord(schema);
    GroupOfLeaves(join, root);
    assert (set k | k in root.fields :: (k, ProjectionOf(root.fields[k].shape)))
        == set k | k in m :: (k, m[k]);
  }

  /** A folder under key `f` derives the keys of its own schema, each holding the
      joined raw item; `f` itself is not a derived key unless an item reuses it. */
  lemma FolderSchemaValues(join: JoinFn, f: string, inner: Schema)
    requires PassesThrough(join)
    ensures SchemaValues(join, map[f := Folder(inner)])
         == Singletons(map n | n in inner :: join(SchemaRecord(inner), n, inner[n]))
  {
    var m := map n | n in inner :: join(SchemaRecord(inner), n, inner[n]);
    calc {
      SchemaValues(join, map[f := Folder(inner)]);
    == { SchemaValuesAccumulate(join, map[f := Folder(inner)]); }
      Merge(GroupEntries(join, SchemaRecord(map[f := Folder(inner)])));
    == { FolderEntries(join, f, inner, m); }
      Merge(set n | n in m :: (n, m[n]));
    == { MergeOneTypePerKey(m); }
      Singletons(m);
    }
  }

  lemma FolderEntries(join: JoinFn, f: string, inner: Schema, m: map<string, Shape>)
    requires m == map n | n in inner :: join(SchemaRecord(inner), n, inner[n])
    ensures GroupEntries(join, SchemaRecord(map[f := Folder(inner)])) == set n | n in m :: (n, m[n])
  {
    var root := SchemaRecord(map[f := Folder(inner)]);
    assert root.fields.Keys == {f};
    assert Case(Folder(inner)) == 0;
    assert GroupEntries(join, root) == PropertyEntries(join, root, f);
  }

  /** Kind precedence in the walker: a record with numeric r, g, b and a is one
      color leaf, never a group walked property by property. */
  lemma ColorIsALeafNotAGroup(join: JoinFn, t: Shape, p: string)
    requires IsColorObjectRGBA(t)
    ensures Case(t) == 2
    ensures Pairs(Leaves(join, t, p)) == {(p, RgbaValue)}
  {
    RgbaColorFirst(t);
    LeafContributesOneEntry(join, t, p);
  }

  /** The projection of every property of an all-leaf record. */
  function FieldProjections(g: Shape): map<string, Shape>
    requires g.Record? && forall k :: k in g.fields ==> IsLeaf(g.fields[k].shape)
  {
    map k | k in g.fields :: ProjectionOf(g.fields[k].shape)
  }

  /** An unclassified record under key `p` whose properties are leaves derives
      one key per property, the property's own key; `p` itself is not derived. */
  lemma GroupSchemaValues(join: JoinFn, p: string, g: Shape)
    requires PassesThrough(join)
    requires g.Record? && PrimitiveToValue(g).NotAPrimitive?
    requires forall k :: k in g.fields ==> IsLeaf(g.fields[k].shape)
    ensures SchemaValues(join, map[p := g]) == Singletons(FieldProjections(g))
  {
    var m := FieldProjections(g);
    SchemaValuesAccumulate(join, map[p := g]);
    NestedGroupEntries(join, p, g);
    GroupLeafEntries(join, g, m);
    MergeOneTypePerKey(m);
  }

  lemma NestedGroupEntries(join: JoinFn, p: string, g: Shape)
    requires g.Record? && PrimitiveToValue(g).NotAPrimitive?
    ensures GroupEntries(join, SchemaRecord(map[p := g])) == GroupEntries(join, g)
  {
    var root := SchemaRecord(map[p := g]);
    assert root.fields.Keys == {p};
    assert Case(g) == 3;
    assert GroupEntries(join, root) == PropertyEntries(join, root, p);
  }

  lemma GroupLeafEntries(join: JoinFn, g: Shape, m: map<string, Shape>)
    requires g.Record? && forall k :: k in g.fields ==> IsLeaf(g.fields[k].shape)
    requires m == FieldProjections(g)
    ensures GroupEntries(join, g) == set k | k in m :: (k, m[k])
  {
    GroupOfLeaves(join, g);
    assert m.Keys == g.fields.Keys;
    assert forall k :: k in m ==> m[k] == ProjectionOf(g.fields[k].shape);
  }

  /** A folder under key `f` holding one item `n` that is no placeholder derives
      `n` alone, holding that item. */
  lemma FolderOfOne(join: JoinFn, f: string, n: string, item: Shape)
    requires PassesThrough(join) && !AcceptsEmptyString(item)
    ensures SchemaValues(join, map[f := Folder(map[n := item])]) == map[n := {item}]
  {
    FolderSchemaValues(join, f, map[n := item]);
    OneItemJoined(join, n, item);
  }

  lemma OneItemJoined(join: JoinFn, n: string, item: Shape)
    requires PassesThrough(join) && !AcceptsEmptyString(item)
    ensures (map k | k in map[n := item] :: join(SchemaRecord(map[n := item]), k, map[n := item][k]))
         == map[n := item]
  {
  }

  /** Folders are flattened one level only: a folder `b` inside a folder `a` is
      kept whole under `b`, and nothing inside it is derived. */
  lemma NestedFoldersNotWalked(join: JoinFn, a: string, b: string, inner: Schema)
    requires PassesThrough(join)
    ensures SchemaValues(join, map[a := Folder(map[b := Folder(inner)])]) == map[b := {Folder(inner)}]
  {
    FolderOfOne(join, a, b, Folder(inner));
  }

  // ---------------------------------------------------------------------------
  // A Join that passes fragments through.
  // ---------------------------------------------------------------------------

  /** `T[K]`: the type of property `k` of container `c`, with `undefined` added
      when the property is optional. */
  function Member(c: Shape, k: string): Shape {
    if c.Record? && k in c.fields then
      (if c.fields[k].optional then Or(c.fields[k].shape, Undef) else c.fields[k].shape)
    else Never
  }

  /** `'' extends P ? { [i in K]: T[K] } : P`: the placeholder is replaced by the
      raw property under its key, every other fragment is kept. */
  function KeyedJoin(c: Shape, k: string, x: Shape): Shape {
    if AcceptsEmptyString(x) then Record(map[k := Req(Member(c, k))]) else x
  }

  /** That Join passes fragments through. */
  lemma KeyedJoinPassesThrough()
    ensures PassesThrough(KeyedJoin)
  {
  }

  // ---------------------------------------------------------------------------
  // Worked schemas.
  // ---------------------------------------------------------------------------

  /** A folder "f" holding a number "n" derives "n", and neither "f" nor "f.n". */
  lemma FolderExample(join: JoinFn)
    requires PassesThrough(join)
    ensures SchemaValues(join, map["f" := Folder(map["n" := Num])]) == map["n" := {Num}]
  {
    FolderOfOne(join, "f", "n", Num);
  }

  /** A plain record "p" with a number "w" and a string "label" is walked
      property by property: it derives "w" and "label", not "p", "p.w" or "p.label". */
  lemma GroupExample(join: JoinFn, p: string, g: Shape)
    requires PassesThrough(join)
    requires g == Record(map["w" := Req(Num), "label" := Req(Str)])
    ensures SchemaValues(join, map[p := g]) == map["w" := {Num}, "label" := {Str}]
  {
    PlainRecordExample(g);
    PlainRecordProjections(g);
    GroupSchemaValues(join, p, g);
    TwoSingletons("w", "label", Num, Str);
  }

  lemma PlainRecordProjections(g: Shape)
    requires g == Record(map["w" := Req(Num), "label" := Req(Str)])
    ensures forall k :: k in g.fields ==> IsLeaf(g.fields[k].shape)
    ensures FieldProjections(g) == map["w" := Num, "label" := Str]
  {
    BareTypesExample();
    assert g.fields.Keys == {"w", "label"};
  }

  lemma TwoSingletons(a: string, b: string, u: Shape, v: Shape)
    ensures Singletons(map[a := u, b := v]) == if a == b then map[a := {v}] else map[a := {u}, b := {v}]
  {
  }

  /** A plain record of two numbers named x and y is no group: the classifier
      takes it for a 2D point, so it derives its own key and no "x" or "y". */
  lemma PointRecordExample(join: JoinFn, p: string, pt: Shape)
    requires PassesThrough(join)
    requires pt == Record(map["x" := Req(Num), "y" := Req(Num)])
    ensures SchemaValues(join, map[p := pt]) == map[p := {Point2dValue}]
  {
    PointObjectExample(pt);
    OneLeafSchema(join, p, pt);
  }

  /** A schema of one leaf derives that leaf's key alone, holding its projection. */
  lemma OneLeafSchema(join: JoinFn, p: string, t: Shape)
    requires PassesThrough(join) && IsLeaf(t)
    ensures SchemaValues(join, map[p := t]) == map[p := {ProjectionOf(t)}]
  {
    SchemaValuesAccumulate(join, map[p := t]);
    OneLeafEntries(join, p, t);
    MergeOne(p, ProjectionOf(t));
  }

  // ---------------------------------------------------------------------------
  // The root schema.
  // ---------------------------------------------------------------------------

  /** As written, a root schema is classified like any node: a schema whose
      controls are a number "x" and a number "y" is taken for one 2D point and
      derives the single key "" instead of "x" and "y". */
  lemma RootSchemaTakenForAPoint(join: JoinFn, schema: Schema)
    requires schema == map["x" := Num, "y" := Num]
    ensures SchemaToValues(join, schema) == map["" := {Point2dValue}]
  {
    var root := SchemaRecord(schema);
    assert root == Record(map["x" := Req(Num), "y" := Req(Num)]);
    PointObjectExample(root);
    LeafContributesOneEntry(join, root, "");
    MergeOne("", Point2dValue);
  }

  lemma MergeOne(k: string, v: Shape)
    ensures Merge({(k, v)}) == map[k := {v}]
  {
    var m := map[k := v];
    assert m.Keys == {k};
    assert (set j | j in m :: (j, m[j])) == {(k, v)};
    MergeOneTypePerKey(m);
  }

  /** Walking the root key by key derives the two controls. */
  lemma RootSchemaWalked(join: JoinFn, schema: Schema)
    requires PassesThrough(join)
    requires schema == map["x" := Num, "y" := Num]
    ensures SchemaValues(join, schema) == map["x" := {Num}, "y" := {Num}]
  {
    BareProjections(schema);
    FlatSchemaValues(join, schema);
    TwoSingletons("x", "y", Num, Num);
  }

  /** The two agree on every schema that the classifier does not take for a
      control, which is every schema the walker was meant for. */
  lemma RootWalkAgrees(join: JoinFn, schema: Schema)
    requires PrimitiveToValue(SchemaRecord(schema)).NotAPrimitive?
    ensures SchemaToValues(join, schema) == SchemaValues(join, schema)
  {
  }

  lemma OneLeafEntries(join: JoinFn, p: string, t: Shape)
    requires IsLeaf(t)
    ensures GroupEntries(join, SchemaRecord(map[p := t])) == {(p, ProjectionOf(t))}
  {
    var root := SchemaRecord(map[p := t]);
    assert root.fields.Keys == {p};
    assert Case(t) == 2;
    assert GroupEntries(join, root) == PropertyEntries(join, root, p);
  }

  lemma BareProjections(schema: Schema)
    requires schema == map["x" := Num, "y" := Num]
    ensures forall k :: k in schema ==> IsLeaf(schema[k])
    ensures Projections(schema) == schema
  {
    BareTypesExample();
    assert schema.Keys == {"x", "y"};
  }
}
