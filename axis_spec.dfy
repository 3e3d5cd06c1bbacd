/** What one call on a `Plotrb::Axis` does (lib/plotrb/axes.rb), as a
    function from the instance variables before the call to the instance
    variables after it and the call's reply. The class in axis.dfy is
    proved to behave exactly like this; the lemmas here state what the
    builder promises its callers. */
module AxisSpec {
  import opened RubyValues
  import opened Shorthand

  /** The instance variables of an Axis. `None` is a variable that was never
      assigned; reading it gives `nil`, as reading `Some(Nil)` does. */
  datatype AxisState = AxisState(
    axisType: Option<Value>,
    scale: Option<Value>,
    orient: Option<Value>,
    format: Option<Value>,
    ticks: Option<Value>,
    values: Option<Value>,
    subdivide: Option<Value>,
    tickPadding: Option<Value>,
    tickSize: Option<Value>,
    tickSizeMajor: Option<Value>,
    tickSizeMinor: Option<Value>,
    tickSizeEnd: Option<Value>,
    offset: Option<Value>,
    properties: Option<Value>,
    title: Option<Value>,
    titleOffset: Option<Value>,
    layer: Option<Value>,
    grid: Option<Value>)

  /** The instance variables, by name. */
  datatype Field =
    | TypeVar | ScaleVar | OrientVar | FormatVar | TicksVar | ValuesVar | SubdivideVar
    | TickPaddingVar | TickSizeVar | TickSizeMajorVar | TickSizeMinorVar | TickSizeEndVar
    | OffsetVar | PropertiesVar | TitleVar | TitleOffsetVar | LayerVar | GridVar

  /** The Ruby name of each instance variable (without the `@`). */
  function VarName(f: Field): string {
    match f
    case TypeVar => "type"
    case ScaleVar => "scale"
    case OrientVar => "orient"
    case FormatVar => "format"
    case TicksVar => "ticks"
    case ValuesVar => "values"
    case SubdivideVar => "subdivide"
    case TickPaddingVar => "tick_padding"
    case TickSizeVar => "tick_size"
    case TickSizeMajorVar => "tick_size_major"
    case TickSizeMinorVar => "tick_size_minor"
    case TickSizeEndVar => "tick_size_end"
    case OffsetVar => "offset"
    case PropertiesVar => "properties"
    case TitleVar => "title"
    case TitleOffsetVar => "title_offset"
    case LayerVar => "layer"
    case GridVar => "grid"
  }

  function Ivar(s: AxisState, f: Field): Option<Value> {
    match f
    case TypeVar => s.axisType
    case ScaleVar => s.scale
    case OrientVar => s.orient
    case FormatVar => s.format
    case TicksVar => s.ticks
    case ValuesVar => s.values
    case SubdivideVar => s.subdivide
    case TickPaddingVar => s.tickPadding
    case TickSizeVar => s.tickSize
    case TickSizeMajorVar => s.tickSizeMajor
    case TickSizeMinorVar => s.tickSizeMinor
    case TickSizeEndVar => s.tickSizeEnd
    case OffsetVar => s.offset
    case PropertiesVar => s.properties
    case TitleVar => s.title
    case TitleOffsetVar => s.titleOffset
    case LayerVar => s.layer
    case GridVar => s.grid
  }

  /** `@f = v`: assigns one instance variable and no other. */
  function Assign(s: AxisState, f: Field, v: Value): (t: AxisState)
    ensures Ivar(t, f) == Some(v)
    ensures forall g :: g != f ==> Ivar(t, g) == Ivar(s, g)
  {
    match f
    case TypeVar => s.(axisType := Some(v))
    case ScaleVar => s.(scale := Some(v))
    case OrientVar => s.(orient := Some(v))
    case FormatVar => s.(format := Some(v))
    case TicksVar => s.(ticks := Some(v))
    case ValuesVar => s.(values := Some(v))
    case SubdivideVar => s.(subdivide := Some(v))
    case TickPaddingVar => s.(tickPadding := Some(v))
    case TickSizeVar => s.(tickSize := Some(v))
    case TickSizeMajorVar => s.(tickSizeMajor := Some(v))
    case TickSizeMinorVar => s.(tickSizeMinor := Some(v))
    case TickSizeEndVar => s.(tickSizeEnd := Some(v))
    case OffsetVar => s.(offset := Some(v))
    case PropertiesVar => s.(properties := Some(v))
    case TitleVar => s.(title := Some(v))
    case TitleOffsetVar => s.(titleOffset := Some(v))
    case LayerVar => s.(layer := Some(v))
    case GridVar => s.(grid := Some(v))
  }

  /** Reading `@f`: `nil` when it was never assigned. */
  function OrNil(o: Option<Value>): Value {
    match o
    case Some(v) => v
    case None => Nil
  }

  function Get(s: AxisState, f: Field): Value {
    OrNil(Ivar(s, f))
  }

  // ----- construction -----

  /** `initialize(args)`: every key of `seed` that `attributes` lists is
      assigned to the instance variable of that name, without coercion;
      the other keys are ignored. */
  function Seeded(seed: map<string, Value>, attributes: set<string>): (s: AxisState)
    ensures forall f :: Ivar(s, f) == SeedVar(seed, attributes, f)
  {
    AxisState(
      SeedVar(seed, attributes, TypeVar), SeedVar(seed, attributes, ScaleVar),
      SeedVar(seed, attributes, OrientVar), SeedVar(seed, attributes, FormatVar),
      SeedVar(seed, attributes, TicksVar), SeedVar(seed, attributes, ValuesVar),
      SeedVar(seed, attributes, SubdivideVar), SeedVar(seed, attributes, TickPaddingVar),
      SeedVar(seed, attributes, TickSizeVar), SeedVar(seed, attributes, TickSizeMajorVar),
      SeedVar(seed, attributes, TickSizeMinorVar), SeedVar(seed, attributes, TickSizeEndVar),
      SeedVar(seed, attributes, OffsetVar), SeedVar(seed, attributes, PropertiesVar),
      SeedVar(seed, attributes, TitleVar), SeedVar(seed, attributes, TitleOffsetVar),
      SeedVar(seed, attributes, LayerVar), SeedVar(seed, attributes, GridVar))
  }

  /** `@f` after `initialize(seed)`: the seed's entry when `attributes` lists it. */
  function SeedVar(seed: map<string, Value>, attributes: set<string>, f: Field): Option<Value> {
    var k := VarName(f);
    if k in seed && k in attributes then Some(seed[k]) else None
  }

  // ----- replies and methods -----

  /** What a call gives back: the axis itself, some other object, or an exception. */
  datatype Reply = Self | Returned(value: Value) | Raised(error: Error)

  /** The public methods the class defines, after alias resolution. */
  datatype Method =
    | Type | Scale | Orient | Title | TitleOffset | Format | Ticks | Values | Subdivide
    | TickPadding | TickSize | TickSizeMajor | TickSizeMinor | TickSizeEnd | Offset | Layer
    | Grid          // `grid`, `show_grid`, `with_grid`
    | GridQuery     // `grid?`, `show_grid?`, `with_grid?`
    | Properties    // the reader `attr_accessor` defines for `properties`
    | Writer(f: Field)  // `type=`, `scale=`, ...: the writers `attr_accessor` defines

  /** The instance variables of the `attr_accessor` list, by attribute name. */
  function AccessorVar(attr: string): (r: Option<Field>)
    ensures r.Some? ==> VarName(r.value) == attr && r.value != LayerVar
  {
    if attr == "type" then Some(TypeVar)
    else if attr == "scale" then Some(ScaleVar)
    else if attr == "orient" then Some(OrientVar)
    else if attr == "format" then Some(FormatVar)
    else if attr == "ticks" then Some(TicksVar)
    else if attr == "values" then Some(ValuesVar)
    else if attr == "subdivide" then Some(SubdivideVar)
    else if attr == "tick_padding" then Some(TickPaddingVar)
    else if attr == "tick_size" then Some(TickSizeVar)
    else if attr == "tick_size_major" then Some(TickSizeMajorVar)
    else if attr == "tick_size_minor" then Some(TickSizeMinorVar)
    else if attr == "tick_size_end" then Some(TickSizeEndVar)
    else if attr == "offset" then Some(OffsetVar)
    else if attr == "properties" then Some(PropertiesVar)
    else if attr == "title" then Some(TitleVar)
    else if attr == "title_offset" then Some(TitleOffsetVar)
    else if attr == "grid" then Some(GridVar)
    else None
  }

  /** Method lookup by name, aliases included; `None` sends the call to
      `method_missing`. */
  function Resolve(name: string): (r: Option<Method>)
    ensures r.Some? && r.value.Writer? ==> name == VarName(r.value.f) + "=" && r.value.f != LayerVar
  {
    if name == "type" then Some(Type)
    else if name == "scale" || name == "from" then Some(Scale)
    else if name == "orient" || name == "at_orient" then Some(Orient)
    else if name == "title" then Some(Title)
    else if name == "title_offset" || name == "offset_title_by" then Some(TitleOffset)
    else if name == "format" then Some(Format)
    else if name == "ticks" then Some(Ticks)
    else if name == "values" then Some(Values)
    else if name == "subdivide" || name == "subdivide_by" then Some(Subdivide)
    else if name == "tick_padding" then Some(TickPadding)
    else if name == "tick_size" then Some(TickSize)
    else if name == "tick_size_major" || name == "major_tick_size" then Some(TickSizeMajor)
    else if name == "tick_size_minor" || name == "minor_tick_size" then Some(TickSizeMinor)
    else if name == "tick_size_end" || name == "end_tick_size" then Some(TickSizeEnd)
    else if name == "offset" || name == "offset_by" then Some(Offset)
    else if name == "layer" || name == "at_layer" then Some(Layer)
    else if name == "grid" || name == "show_grid" || name == "with_grid" then Some(Grid)
    else if name == "grid?" || name == "show_grid?" || name == "with_grid?" then Some(GridQuery)
    else if name == "properties" then Some(Properties)
    else WriterOf(name)
  }

  /** The `attr_accessor` writer named `name`, if there is one. */
  function WriterOf(name: string): (r: Option<Method>)
    ensures r.Some? ==> r.value.Writer? && name == VarName(r.value.f) + "=" && r.value.f != LayerVar
  {
    if |name| > 0 && name[|name| - 1] == '=' then
      var attr := name[..|name| - 1];
      assert name == attr + "=";
      match AccessorVar(attr)
      case Some(f) => Some(Writer(f))
      case None => None
    else None
  }

  // ----- argument coercions -----

  function Verbatim(v: Value): Coerced<Value> { Ok(v) }

  /** `args[0].to_i`, as the integer object it makes. */
  function IntegerOf(v: Value): Coerced<Value> {
    match ToI(v)
    case Ok(i) => Ok(Int(i))
    case Fails(e) => Fails(e)
  }

  /** The `case scale when ::Plotrb::Scale ... when String ...` of `scale`. */
  function ScaleNameOf(v: Value): Coerced<Value> {
    match v
    case ScaleObj(n) => Ok(Str(n))
    case Str(t) => Ok(Str(t))
    case _ => Fails(ArgumentError)
  }

  /** The shape shared by most accessors: no argument reads `@f`; one
      argument is coerced and assigned (nothing is assigned when the
      coercion raises), and the call replies with the axis itself or, for
      the methods whose assignment is their last expression, with the
      assigned value; any other count raises ArgumentError. */
  function SingleValue(s: AxisState, f: Field, args: seq<Value>,
                       coerce: Value -> Coerced<Value>, returnsSelf: bool): (AxisState, Reply)
  {
    if |args| == 0 then (s, Returned(Get(s, f)))
    else if |args| == 1 then
      match coerce(args[0])
      case Ok(v) => (Assign(s, f, v), if returnsSelf then Self else Returned(v))
      case Fails(e) => (s, Raised(e))
    else (s, Raised(ArgumentError))
  }

  /** The instance variables a method may assign. */
  function Writes(m: Method): set<Field> {
    match m
    case Type => {TypeVar}
    case Scale => {ScaleVar}
    case Orient => {OrientVar}
    case Title => {TitleVar, TitleOffsetVar}
    case TitleOffset => {TitleOffsetVar}
    case Format => {FormatVar}
    case Ticks => {TicksVar}
    case Values => {ValuesVar}
    case Subdivide => {SubdivideVar}
    case TickPadding => {TickPaddingVar}
    case TickSize => {TickSizeVar}
    case TickSizeMajor => {TickSizeMajorVar}
    case TickSizeMinor => {TickSizeMinorVar}
    case TickSizeEnd => {TickSizeEndVar}
    case Offset => {OffsetVar}
    case Layer => {LayerVar}
    case Grid => {GridVar}
    case GridQuery => {}
    case Properties => {}
    case Writer(f) => {f}
  }

  /** One call of method `m` with `args` on an axis in state `s`. An
      exception is raised before anything is assigned, and a method assigns
      only its own instance variables. */
  function Call(s: AxisState, m: Method, args: seq<Value>): (r: (AxisState, Reply))
    ensures r.1.Raised? ==> r.0 == s
    ensures forall f :: f !in Writes(m) ==> Ivar(r.0, f) == Ivar(s, f)
  {
    match m
    case Type => SingleValue(s, TypeVar, args, Verbatim, true)
    case Scale => SingleValue(s, ScaleVar, args, ScaleNameOf, true)
    case Orient => SingleValue(s, OrientVar, args, ToSym, true)
    case Title =>
      if |args| == 2 then (Assign(Assign(s, TitleVar, args[0]), TitleOffsetVar, args[1]), Self)
      else SingleValue(s, TitleVar, args, Verbatim, true)
    case TitleOffset => SingleValue(s, TitleOffsetVar, args, Verbatim, true)
    case Format =>
      // line 130 assigns `format`, a call of this same method with no
      // argument, so the argument is dropped and `@format` keeps its value
      SingleValue(s, FormatVar, args, _ => Ok(Get(s, FormatVar)), true)
    case Ticks => SingleValue(s, TicksVar, args, IntegerOf, true)
    case Values =>
      if |args| < 2 then SingleValue(s, ValuesVar, args, Verbatim, true)
      else (Assign(s, ValuesVar, List(args)), Returned(List(args)))
    case Subdivide => SingleValue(s, SubdivideVar, args, IntegerOf, true)
    case TickPadding => SingleValue(s, TickPaddingVar, args, IntegerOf, false)
    case TickSize => SingleValue(s, TickSizeVar, args, IntegerOf, false)
    case TickSizeMajor => SingleValue(s, TickSizeMajorVar, args, IntegerOf, false)
    case TickSizeMinor => SingleValue(s, TickSizeMinorVar, args, IntegerOf, false)
    case TickSizeEnd => SingleValue(s, TickSizeEndVar, args, IntegerOf, false)
    case Offset => SingleValue(s, OffsetVar, args, IntegerOf, false)
    case Layer => SingleValue(s, LayerVar, args, ToSym, true)
    case Grid =>
      if |args| == 0 then (Assign(s, GridVar, Bool(true)), Self) else (s, Raised(ArgumentError))
    case GridQuery =>
      if |args| == 0 then (s, Returned(Get(s, GridVar))) else (s, Raised(ArgumentError))
    case Properties =>
      if |args| == 0 then (s, Returned(Get(s, PropertiesVar))) else (s, Raised(ArgumentError))
    case Writer(f) =>
      if |args| == 1 then (Assign(s, f, args[0]), Returned(args[0])) else (s, Raised(ArgumentError))
  }

  /** The setter call a shorthand stands for: `ticks($1.to_i)`,
      `subdivide($1.to_i)`, `orient($1.to_sym)` or `layer($1.to_sym)`. */
  function ShorthandCall(c: Cmd): (Method, Value) {
    match c
    case InTicks(d) => (Ticks, Int(StringToInt(d)))
    case SubdivideBy(d) => (Subdivide, Int(StringToInt(d)))
    case AtOrient(w) => (Orient, Sym(w))
    case AtLayer(w) => (Layer, Sym(w))
  }

  /** The setter a shorthand stands for always accepts its argument and
      replies with the axis. */
  lemma ShorthandCallReturnsSelf(s: AxisState, c: Cmd)
    ensures Call(s, ShorthandCall(c).0, [ShorthandCall(c).1]).1 == Self
  {
  }

  /** `method_missing`: a shorthand name calls its setter with the captured
      text and the explicit arguments are ignored; any other name raises
      NoMethodError. Either way the reply is the axis itself or the error,
      never a stored value. */
  function MethodMissing(s: AxisState, name: string): (r: (AxisState, Reply))
    ensures r.1 == Self || r == (s, Raised(NoMethodError))
    ensures r.1 == Self <==> ParseShorthand(name).Some?
  {
    match ParseShorthand(name)
    case Some(c) =>
      ShorthandCallReturnsSelf(s, c);
      Call(s, ShorthandCall(c).0, [ShorthandCall(c).1])
    case None => (s, Raised(NoMethodError))
  }

  /** Sending `name` with `args` to the axis. */
  function Send(s: AxisState, name: string, args: seq<Value>): (r: (AxisState, Reply))
    ensures r.1.Raised? ==> r.0 == s
  {
    match Resolve(name)
    case Some(m) => Call(s, m, args)
    case None => MethodMissing(s, name)
  }
}
