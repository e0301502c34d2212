/** The leaf classifier `PrimitiveToValue`: an ordered chain of structural tests
    over a descriptor shape, the first match deciding the plain value shape a
    consumer of the control panel sees. */
module Primitive {
  import opened Shapes

  // ---------------------------------------------------------------------------
  // The descriptor shapes the chain tests against. Each predicate is the
  // structural meaning of `S extends X` for that one target type X.
  // ---------------------------------------------------------------------------

  /** `S extends ColorObjectRGBA`: required numeric r, g, b and a. */
  predicate IsColorObjectRGBA(s: Shape) {
    s.Record? && HasNumber(s.fields, "r") && HasNumber(s.fields, "g")
    && HasNumber(s.fields, "b") && HasNumber(s.fields, "a")
  }

  /** `S extends ColorObjectRGB`: required numeric r, g and b. */
  predicate IsColorObjectRGB(s: Shape) {
    s.Record? && HasNumber(s.fields, "r") && HasNumber(s.fields, "g") && HasNumber(s.fields, "b")
  }

  /** `S extends ImageInput`: a required `image` of type `undefined | string`. */
  predicate IsImageInput(s: Shape) {
    s.Record? && HasRequired(s.fields, "image") && StringOrUndefined(s.fields["image"].shape)
  }

  /** `S extends Spring`: required numeric tension and friction; `mass` may be
      missing, and when present (optional or not) it must fit the optional
      `mass?: number`, that is `number | undefined`. */
  predicate IsSpring(s: Shape) {
    s.Record? && HasNumber(s.fields, "tension") && HasNumber(s.fields, "friction")
    && ("mass" in s.fields ==> NumberOrUndefined(s.fields["mass"].shape))
  }

  /** The object has a required `value` property: `S extends { value: infer G }`. */
  predicate HasValue(s: Shape) {
    s.Record? && HasRequired(s.fields, "value")
  }

  /** `S extends SpringInput`, that is `MergedInputWithSettings<Spring, SpringSettings>`:
      either a bare spring or an object carrying a spring as its required `value`
      (the settings it may add are all optional). */
  predicate IsSpringInput(s: Shape) {
    IsSpring(s) || (HasValue(s) && IsSpring(s.fields["value"].shape))
  }

  /** The element type `T` inferred from `options: T[] | Record<string, T>`,
      or None when the options do not have that form. */
  function OptionsElement(o: Shape): Option<Shape> {
    match o
    case ArrayOf(e) => Some(e)
    case Tuple(es) => Some(Union(set i | 0 <= i < |es| :: es[i]))
    case Dict(e) => Some(e)
    case Record(fs) => Some(Union(set k | k in fs :: fs[k].shape))
    case _ => None
  }

  /** `S extends SelectWithoutValueInput<infer T>`: a required `options` of one of
      the two forms. */
  predicate IsSelectWithoutValueInput(s: Shape) {
    s.Record? && HasRequired(s.fields, "options") && OptionsElement(s.fields["options"].shape).Some?
  }

  /** `S extends SelectWithValueInput<infer T, infer K>`: options as above and a
      required `value`. */
  predicate IsSelectWithValueInput(s: Shape) {
    IsSelectWithoutValueInput(s) && HasRequired(s.fields, "value")
  }

  /** The element type `T` of a select descriptor. */
  function SelectElement(s: Shape): Shape
    requires IsSelectWithoutValueInput(s)
  {
    OptionsElement(s.fields["options"].shape).value
  }

  /** `S extends Point2dArray`: exactly two numbers. */
  predicate IsPoint2dArray(s: Shape) {
    NumberTuple(s, 2)
  }

  /** `S extends Point3dArray`: exactly three numbers. */
  predicate IsPoint3dArray(s: Shape) {
    NumberTuple(s, 3)
  }

  /** `S extends Point2dObject`: required numeric x and y. */
  predicate IsPoint2dObject(s: Shape) {
    s.Record? && HasNumber(s.fields, "x") && HasNumber(s.fields, "y")
  }

  /** `S extends Point3dObject`: required numeric x, y and z. */
  predicate IsPoint3dObject(s: Shape) {
    IsPoint2dObject(s) && HasNumber(s.fields, "z")
  }

  /** `S extends IntervalInput`: a required `value` of two numbers and required
      numeric min and max. */
  predicate IsIntervalInput(s: Shape) {
    HasValue(s) && IsPoint2dArray(s.fields["value"].shape)
    && HasNumber(s.fields, "min") && HasNumber(s.fields, "max")
  }

  // ---------------------------------------------------------------------------
  // The value shapes the chain projects to.
  // ---------------------------------------------------------------------------

  const RgbaValue := Record(map["r" := Req(Num), "g" := Req(Num), "b" := Req(Num), "a" := Req(Num)])
  const RgbValue := Record(map["r" := Req(Num), "g" := Req(Num), "b" := Req(Num)])
  const ImageValue := Or(Str, Undef)
  const SpringValue := Record(map["tension" := Req(Num), "friction" := Req(Num), "mass" := Req(Num)])
  const PairValue := Tuple([Num, Num])
  const TripleValue := Tuple([Num, Num, Num])
  const Point3dValue := Record(map["x" := Req(Num), "y" := Req(Num), "z" := Req(Num)])
  const Point2dValue := Record(map["x" := Req(Num), "y" := Req(Num)])

  /** The classifier's answer: a projected value shape, or the sentinel
      `NotAPrimitiveType` that tells the tree walker the node is no leaf. */
  datatype Projection = NotAPrimitive | Value(shape: Shape)

  /** `PrimitiveToValue<S>`: the tests in the source's order, first match wins. */
  function PrimitiveToValue(s: Shape): Projection {
    if IsColorObjectRGBA(s) then Value(RgbaValue)
    else if IsColorObjectRGB(s) then Value(RgbValue)
    else if IsImageInput(s) then Value(ImageValue)
    else if IsSpringInput(s) then Value(SpringValue)
    else if IsSelectWithValueInput(s) then Value(Or(SelectElement(s), s.fields["value"].shape))
    else if IsSelectWithoutValueInput(s) then Value(SelectElement(s))
    else if IsIntervalInput(s) then Value(PairValue)
    else if IsPoint3dObject(s) then Value(Point3dValue)
    else if IsPoint3dArray(s) then Value(TripleValue)
    else if IsPoint2dObject(s) then Value(Point2dValue)
    else if IsPoint2dArray(s) then Value(PairValue)
    else if HasValue(s) then PrimitiveToValue(s.fields["value"].shape)
    else if NumberLike(s) then Value(Num)
    else if StringLike(s) then Value(Str)
    else if BooleanLike(s) then Value(Bool)
    else NotAPrimitive
  }

  // ---------------------------------------------------------------------------
  // The same chain read as a table: the tests as an enumeration in source order,
  // what each test accepts, and what the chain answers when it is the first to match.
  // ---------------------------------------------------------------------------

  datatype Test =
    | Rgba | Rgb | Image | SpringTest | SelectWithValue | SelectWithoutValue | Interval
    | Point3dObj | Point3dArr | Point2dObj | Point2dArr | Wrapped | NumberTest | StringTest | BooleanTest

  /** The position of a test in the chain. */
  function Rank(t: Test): nat {
    match t
    case Rgba => 0
    case Rgb => 1
    case Image => 2
    case SpringTest => 3
    case SelectWithValue => 4
    case SelectWithoutValue => 5
    case Interval => 6
    case Point3dObj => 7
    case Point3dArr => 8
    case Point2dObj => 9
    case Point2dArr => 10
    case Wrapped => 11
    case NumberTest => 12
    case StringTest => 13
    case BooleanTest => 14
  }

  predicate Matches(t: Test, s: Shape) {
    match t
    case Rgba => IsColorObjectRGBA(s)
    case Rgb => IsColorObjectRGB(s)
    case Image => IsImageInput(s)
    case SpringTest => IsSpringInput(s)
    case SelectWithValue => IsSelectWithValueInput(s)
    case SelectWithoutValue => IsSelectWithoutValueInput(s)
    case Interval => IsIntervalInput(s)
    case Point3dObj => IsPoint3dObject(s)
    case Point3dArr => IsPoint3dArray(s)
    case Point2dObj => IsPoint2dObject(s)
    case Point2dArr => IsPoint2dArray(s)
    case Wrapped => HasValue(s)
    case NumberTest => NumberLike(s)
    case StringTest => StringLike(s)
    case BooleanTest => BooleanLike(s)
  }

  /** No test before `t` in the chain accepts `s`. */
  predicate NoEarlierMatch(t: Test, s: Shape) {
    forall u: Test :: Rank(u) < Rank(t) ==> !Matches(u, s)
  }

  /** The branch of the chain taken for test `t`. */
  function Outcome(t: Test, s: Shape): Projection
    requires Matches(t, s)
  {
    match t
    case Rgba => Value(RgbaValue)
    case Rgb => Value(RgbValue)
    case Image => Value(ImageValue)
    case SpringTest => Value(SpringValue)
    case SelectWithValue => Value(Or(SelectElement(s), s.fields["value"].shape))
    case SelectWithoutValue => Value(SelectElement(s))
    case Interval => Value(PairValue)
    case Point3dObj => Value(Point3dValue)
    case Point3dArr => Value(TripleValue)
    case Point2dObj => Value(Point2dValue)
    case Point2dArr => Value(PairValue)
    case Wrapped => PrimitiveToValue(s.fields["value"].shape)
    case NumberTest => Value(Num)
    case StringTest => Value(Str)
    case BooleanTest => Value(Bool)
  }

  /** Color precedence: required numeric r, g, b and a make an RGBA color, tested
      first, although such a shape is also an RGB color and may carry any other
      property (a `value`, an `x` and `y`, ...). */
  lemma RgbaColorFirst(s: Shape)
    requires Matches(Rgba, s) && NoEarlierMatch(Rgba, s)
    ensures Matches(Rgb, s)
    ensures PrimitiveToValue(s) == Value(RgbaValue)
  {
  }

  /** An RGB color whose alpha is absent, optional or not a number projects to
      exactly the three channels. */
  lemma RgbColorWithoutAlpha(s: Shape)
    requires Matches(Rgb, s) && NoEarlierMatch(Rgb, s)
    ensures !HasNumber(s.fields, "a")
    ensures PrimitiveToValue(s) == Value(RgbValue) && RgbValue.fields.Keys == {"r", "g", "b"}
  {
    assert !Matches(Rgba, s);
  }

  /** An image descriptor that is not a color projects to `string | undefined`. */
  lemma ImageProjection(s: Shape)
    requires Matches(Image, s) && NoEarlierMatch(Image, s)
    ensures PrimitiveToValue(s) == Value(Union({Str, Undef}))
  {
    assert !Matches(Rgba, s) && !Matches(Rgb, s);
  }

  /** A spring, bare or as the `value` of a descriptor, projects to tension,
      friction and mass, all required numbers, whether or not its own `mass` is
      given or optional. */
  lemma SpringAlwaysHasMass(s: Shape)
    requires Matches(SpringTest, s) && NoEarlierMatch(SpringTest, s)
    ensures PrimitiveToValue(s) == Value(SpringValue)
    ensures SpringValue.fields.Keys == {"tension", "friction", "mass"}
    ensures SpringValue.fields["mass"] == Field(Num, false)
  {
    assert !Matches(Rgba, s) && !Matches(Rgb, s) && !Matches(Image, s);
  }

  /** A select with a required `value: K` and options of element type `T`
      projects to `T | K`; this test comes before the one without a value. */
  lemma SelectWithValueProjection(s: Shape)
    requires Matches(SelectWithValue, s) && NoEarlierMatch(SelectWithValue, s)
    ensures Matches(SelectWithoutValue, s)
    ensures PrimitiveToValue(s) == Value(Or(SelectElement(s), s.fields["value"].shape))
  {
    assert !Matches(Rgba, s) && !Matches(Rgb, s) && !Matches(Image, s) && !Matches(SpringTest, s);
  }

  /** A select whose `value` is missing or optional projects to the element type
      `T` of its options. */
  lemma SelectWithoutValueProjection(s: Shape)
    requires Matches(SelectWithoutValue, s) && NoEarlierMatch(SelectWithoutValue, s)
    ensures !HasRequired(s.fields, "value")
    ensures PrimitiveToValue(s) == Value(SelectElement(s))
  {
    assert !Matches(Rgba, s) && !Matches(Rgb, s) && !Matches(Image, s) && !Matches(SpringTest, s) && !Matches(SelectWithValue, s);
  }

  /** An interval projects to a number pair. It is tested before the generic
      `{ value: G }` wrapper, which it also matches; the wrapper would have given
      the same pair. */
  lemma IntervalBeforeValue(s: Shape)
    requires Matches(Interval, s) && NoEarlierMatch(Interval, s)
    ensures Matches(Wrapped, s)
    ensures PrimitiveToValue(s) == Value(PairValue)
    ensures PrimitiveToValue(s.fields["value"].shape) == Value(PairValue)
  {
    assert !Matches(Rgba, s) && !Matches(Rgb, s) && !Matches(Image, s) && !Matches(SpringTest, s) && !Matches(SelectWithValue, s) && !Matches(SelectWithoutValue, s);
  }

  /** An `{x, y, z}` object keeps its three components: it also has the 2D shape,
      but the 3D test comes first. */
  lemma Point3dObjectBefore2d(s: Shape)
    requires Matches(Point3dObj, s) && NoEarlierMatch(Point3dObj, s)
    ensures Matches(Point2dObj, s)
    ensures PrimitiveToValue(s) == Value(Point3dValue) && Point3dValue.fields.Keys == {"x", "y", "z"}
  {
    assert !Matches(Rgba, s) && !Matches(Rgb, s) && !Matches(Image, s) && !Matches(SpringTest, s) && !Matches(SelectWithValue, s) && !Matches(SelectWithoutValue, s) && !Matches(Interval, s);
  }

  /** Every three-number tuple projects to a three-number tuple, never to a
      pair: no earlier test accepts a tuple. */
  lemma Point3dArrayProjection(s: Shape)
    requires IsPoint3dArray(s)
    ensures NoEarlierMatch(Point3dArr, s)
    ensures PrimitiveToValue(s) == Value(TripleValue) && |TripleValue.elems| == 3
  {
  }

  /** An `{x, y}` object without a numeric required `z` projects to `{x, y}`. */
  lemma Point2dObjectProjection(s: Shape)
    requires Matches(Point2dObj, s) && NoEarlierMatch(Point2dObj, s)
    ensures !HasNumber(s.fields, "z")
    ensures PrimitiveToValue(s) == Value(Point2dValue) && Point2dValue.fields.Keys == {"x", "y"}
  {
    assert !Matches(Rgba, s) && !Matches(Rgb, s) && !Matches(Image, s) && !Matches(SpringTest, s) && !Matches(SelectWithValue, s) && !Matches(SelectWithoutValue, s) && !Matches(Interval, s) && !Matches(Point3dObj, s) && !Matches(Point3dArr, s);
  }

  /** Every two-number tuple projects to a number pair: no earlier test accepts it. */
  lemma Point2dArrayProjection(s: Shape)
    requires IsPoint2dArray(s)
    ensures NoEarlierMatch(Point2dArr, s)
    ensures PrimitiveToValue(s) == Value(PairValue)
  {
  }

  /** The generic wrapper: an object with a required `value: G` that no earlier
      test accepts projects exactly as `G` does, whatever else it carries. */
  lemma ValueWrapperUnwraps(s: Shape)
    requires Matches(Wrapped, s) && NoEarlierMatch(Wrapped, s)
    ensures PrimitiveToValue(s) == PrimitiveToValue(s.fields["value"].shape)
  {
    assert !Matches(Rgba, s) && !Matches(Rgb, s) && !Matches(Image, s) && !Matches(SpringTest, s) && !Matches(SelectWithValue, s) && !Matches(SelectWithoutValue, s) && !Matches(Interval, s) && !Matches(Point3dObj, s) && !Matches(Point3dArr, s) && !Matches(Point2dObj, s) && !Matches(Point2dArr, s);
  }

  /** Every number type (number, a numeric literal or a union of them) projects
      to `number`: no earlier test accepts it. */
  lemma BareNumber(s: Shape)
    requires NumberLike(s)
    ensures NoEarlierMatch(NumberTest, s)
    ensures PrimitiveToValue(s) == Value(Num)
  {
  }

  /** Every string type projects to `string`: no earlier test accepts it. */
  lemma BareString(s: Shape)
    requires StringLike(s)
    ensures NoEarlierMatch(StringTest, s)
    ensures PrimitiveToValue(s) == Value(Str)
  {
    if s.Union? {
      var a :| a in s.alts;
    }
  }

  /** Every boolean type projects to `boolean`: no earlier test accepts it. */
  lemma BareBoolean(s: Shape)
    requires BooleanLike(s)
    ensures NoEarlierMatch(BooleanTest, s)
    ensures PrimitiveToValue(s) == Value(Bool)
  {
    if s.Union? {
      var a :| a in s.alts;
    }
  }

  /** First match wins: whichever test is the first in source order to accept
      `s` decides the projection, whatever later tests would also accept. */
  lemma FirstMatchWins(t: Test, s: Shape)
    requires Matches(t, s) && NoEarlierMatch(t, s)
    ensures PrimitiveToValue(s) == Outcome(t, s)
  {
    match t
    case Rgba => RgbaColorFirst(s);
    case Rgb => RgbColorWithoutAlpha(s);
    case Image => ImageProjection(s);
    case SpringTest => SpringAlwaysHasMass(s);
    case SelectWithValue => SelectWithValueProjection(s);
    case SelectWithoutValue => SelectWithoutValueProjection(s);
    case Interval => IntervalBeforeValue(s);
    case Point3dObj => Point3dObjectBefore2d(s);
    case Point3dArr => Point3dArrayProjection(s);
    case Point2dObj => Point2dObjectProjection(s);
    case Point2dArr => Point2dArrayProjection(s);
    case Wrapped => ValueWrapperUnwraps(s);
    case NumberTest => BareNumber(s);
    case StringTest => BareString(s);
    case BooleanTest => BareBoolean(s);
  }

  /** The fallback: a shape that no test accepts projects to the sentinel. */
  lemma NoTestGivesNotAPrimitive(s: Shape)
    requires forall u: Test :: !Matches(u, s)
    ensures PrimitiveToValue(s) == NotAPrimitive
  {
    assert !IsColorObjectRGBA(s) && !IsColorObjectRGB(s) && !IsImageInput(s) && !IsSpringInput(s) by {
      assert !Matches(Rgba, s) && !Matches(Rgb, s) && !Matches(Image, s) && !Matches(SpringTest, s);
    }
    assert !IsSelectWithValueInput(s) && !IsSelectWithoutValueInput(s) && !IsIntervalInput(s) by {
      assert !Matches(SelectWithValue, s) && !Matches(SelectWithoutValue, s) && !Matches(Interval, s);
    }
    assert !IsPoint3dObject(s) && !IsPoint3dArray(s) && !IsPoint2dObject(s) && !IsPoint2dArray(s) by {
      assert !Matches(Point3dObj, s) && !Matches(Point3dArr, s) && !Matches(Point2dObj, s) && !Matches(Point2dArr, s);
    }
    assert !HasValue(s) && !NumberLike(s) && !StringLike(s) && !BooleanLike(s) by {
      assert !Matches(Wrapped, s) && !Matches(NumberTest, s) && !Matches(StringTest, s) && !Matches(BooleanTest, s);
    }
  }

  // ---------------------------------------------------------------------------
  // Settings stripping.
  // ---------------------------------------------------------------------------

  /** The property names of `NumberSettings`. */
  const NumberSettingsKeys: set<string> := {"min", "max", "step"}

  /** The property names under which the point and spring settings hold a
      per-component `NumberSettings` object. */
  const ComponentSettingsKeys: set<string> := {"x", "y", "z", "tension", "friction", "mass"}

  /** Optional settings that may sit beside `value` in a merged descriptor. */
  predicate IsSettings(settings: map<string, Field>) {
    forall k :: k in settings ==>
      k in NumberSettingsKeys || (k in ComponentSettingsKeys && settings[k].shape.Record?)
  }

  /** A `{ value: G, ...settings }` descriptor projects as `G` does: the settings
      never change the answer. The one exception the chain allows is a value that
      is both a spring and a color or an image, which is excluded here: wrapped,
      it is taken as a spring; bare, as the color or image. */
  lemma SettingsStripped(g: Shape, settings: map<string, Field>)
    requires IsSettings(settings)
    requires IsSpring(g) ==> !IsColorObjectRGB(g) && !IsImageInput(g)
    ensures PrimitiveToValue(Record(settings["value" := Req(g)])) == PrimitiveToValue(g)
  {
    var w := Record(settings["value" := Req(g)]);
    assert !IsColorObjectRGB(w) && !IsImageInput(w) && !IsSpring(w) && !IsPoint2dObject(w);
    assert !IsSelectWithoutValueInput(w) && !IsSelectWithValueInput(w);
    if IsSpringInput(w) {
      assert IsSpring(g);
    } else if IsIntervalInput(w) {
      assert IsPoint2dArray(g);
    }
  }

  /** The exception is real: a spring that also carries numeric r, g and b is a
      color when bare and a spring when wrapped in `{ value: ... }`. */
  lemma SpringColorDivergence(g: Shape, w: Shape)
    requires g == Record(map["tension" := Req(Num), "friction" := Req(Num),
                             "r" := Req(Num), "g" := Req(Num), "b" := Req(Num)])
    requires w == Record(map["value" := Req(g)])
    ensures IsSpring(g) && IsColorObjectRGB(g)
    ensures PrimitiveToValue(g) == Value(RgbValue)
    ensures PrimitiveToValue(w) == Value(SpringValue)
  {
    assert IsColorObjectRGB(g) && !IsColorObjectRGBA(g);
    assert IsSpring(g) && IsSpringInput(w);
    assert !IsColorObjectRGBA(w) && !IsColorObjectRGB(w) && !IsImageInput(w);
  }

  /** The property names a projection may contain. */
  const ValueKeys: set<string> := {"r", "g", "b", "a", "tension", "friction", "mass", "x", "y", "z"}

  /** A record of plain numbers has exactly its own property names. */
  lemma NumberRecordKeys(fs: map<string, Field>)
    requires forall j :: j in fs ==> fs[j].shape == Num
    ensures AllKeys(Record(fs)) == fs.Keys
  {
    assert forall j | j in fs :: AllKeys(fs[j].shape) == {};
  }

  /** The fixed record projections name only color channels, spring parameters
      and coordinates. */
  lemma RecordValueKeys()
    ensures AllKeys(RgbaValue) <= ValueKeys && AllKeys(RgbValue) <= ValueKeys
    ensures AllKeys(SpringValue) <= ValueKeys
    ensures AllKeys(Point3dValue) <= ValueKeys && AllKeys(Point2dValue) <= ValueKeys
  {
    NumberRecordKeys(RgbaValue.fields);
    NumberRecordKeys(RgbValue.fields);
    NumberRecordKeys(SpringValue.fields);
    NumberRecordKeys(Point3dValue.fields);
    NumberRecordKeys(Point2dValue.fields);
  }

  /** The tuple and union projections name no property at all. */
  lemma OtherValueKeys()
    ensures AllKeys(PairValue) == {} && AllKeys(TripleValue) == {} && AllKeys(ImageValue) == {}
  {
    assert AllKeys(PairValue) == {} by {
      assert forall i | 0 <= i < 2 :: AllKeys(PairValue.elems[i]) == {};
    }
    assert AllKeys(TripleValue) == {} by {
      assert forall i | 0 <= i < 3 :: AllKeys(TripleValue.elems[i]) == {};
    }
    assert AllKeys(ImageValue) == {} by {
      assert ImageValue == Union({Str, Undef});
      assert forall a | a in {Str, Undef} :: AllKeys(a) == {};
    }
  }

  /** Only select descriptors pass user-chosen types through to the projection;
      without an `options` property anywhere, the projected value names no
      property but color channels, spring parameters and coordinates, so in
      particular no `value`, `min`, `max` or `step`. */
  lemma {:induction false} ProjectionKeys(s: Shape)
    requires "options" !in AllKeys(s)
    ensures PrimitiveToValue(s).Value? ==> AllKeys(PrimitiveToValue(s).shape) <= ValueKeys
  {
    RecordValueKeys();
    OtherValueKeys();
    if s.Record? {
      assert !IsSelectWithoutValueInput(s) && !IsSelectWithValueInput(s);
    }
    if HasValue(s) {
      var g := s.fields["value"].shape;
      assert AllKeys(g) <= AllKeys(s);
      ProjectionKeys(g);
    }
  }

  // ---------------------------------------------------------------------------
  // Worked descriptors.
  // ---------------------------------------------------------------------------

  /** `{ value: 5, min: 0, max: 10, step: 1 }` and a bare `5` both project to `number`. */
  lemma NumberDescriptorExample()
    ensures PrimitiveToValue(Record(map["value" := Req(NumLit(5)), "min" := Req(NumLit(0)),
                                        "max" := Req(NumLit(10)), "step" := Req(NumLit(1))]))
            == Value(Num)
    ensures PrimitiveToValue(NumLit(5)) == Value(Num)
  {
    var settings := map["min" := Req(NumLit(0)), "max" := Req(NumLit(10)), "step" := Req(NumLit(1))];
    SettingsStripped(NumLit(5), settings);
    assert settings["value" := Req(NumLit(5))]
        == map["value" := Req(NumLit(5)), "min" := Req(NumLit(0)), "max" := Req(NumLit(10)), "step" := Req(NumLit(1))];
  }

  /** `{ value: [0, 1], min: 0, max: 1 }` projects to `[number, number]`. */
  lemma IntervalExample()
    ensures PrimitiveToValue(Record(map["value" := Req(Tuple([NumLit(0), NumLit(1)])),
                                        "min" := Req(NumLit(0)), "max" := Req(NumLit(1))]))
            == Value(Tuple([Num, Num]))
  {
  }

  /** `{ options: ['a', 'b'] }` projects to `'a' | 'b'`. */
  lemma SelectExample()
    ensures PrimitiveToValue(Record(map["options" := Req(Tuple([StrLit("a"), StrLit("b")]))]))
            == Value(Union({StrLit("a"), StrLit("b")}))
  {
    var es := [StrLit("a"), StrLit("b")];
    assert (set i | 0 <= i < |es| :: es[i]) == {StrLit("a"), StrLit("b")} by {
      assert es[0] == StrLit("a") && es[1] == StrLit("b");
    }
  }

  /** `{ tension: 200, friction: 20 }`, mass omitted, projects to
      `{ tension: number, friction: number, mass: number }`. */
  lemma SpringExample()
    ensures PrimitiveToValue(Record(map["tension" := Req(NumLit(200)), "friction" := Req(NumLit(20))]))
            == Value(Record(map["tension" := Req(Num), "friction" := Req(Num), "mass" := Req(Num)]))
  {
  }

  /** A spring whose `mass` is `undefined` or `number | undefined` still fits
      the optional `mass?: number` and projects to the spring. */
  lemma SpringUndefinedMassExample(s: Shape, t: Shape)
    requires s == Record(map["tension" := Req(Num), "friction" := Req(Num), "mass" := Req(Undef)])
    requires t == Record(map["tension" := Req(Num), "friction" := Req(Num), "mass" := Req(Union({Num, Undef}))])
    ensures PrimitiveToValue(s) == Value(SpringValue)
    ensures PrimitiveToValue(t) == Value(SpringValue)
  {
    assert IsSpring(s) && !IsColorObjectRGB(s) && !IsImageInput(s);
    assert IsSpring(t) && !IsColorObjectRGB(t) && !IsImageInput(t);
  }

  /** `{ x: number, y: number }` is a 2D point, whatever it is meant for. */
  lemma PointObjectExample(pt: Shape)
    requires pt == Record(map["x" := Req(Num), "y" := Req(Num)])
    ensures PrimitiveToValue(pt) == Value(Point2dValue)
  {
    assert IsPoint2dObject(pt);
    assert !IsPoint3dObject(pt);
  }

  /** `{ w: number, label: string }` matches no kind. */
  lemma PlainRecordExample(g: Shape)
    requires g == Record(map["w" := Req(Num), "label" := Req(Str)])
    ensures PrimitiveToValue(g) == NotAPrimitive
  {
    assert g.fields.Keys == {"w", "label"};
    NoTestGivesNotAPrimitive(g);
  }

  /** `number` and `string` project to themselves. */
  lemma BareTypesExample()
    ensures PrimitiveToValue(Num) == Value(Num) && PrimitiveToValue(Str) == Value(Str)
    ensures PrimitiveToValue(Bool) == Value(Bool)
  {
  }
}
