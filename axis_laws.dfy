/** What callers of `Plotrb::Axis` can rely on, stated over `AxisSpec.Call`
    and `AxisSpec.Send`: setters and getters round-trip, coercions and
    argument counts are checked before anything is assigned, aliases and
    shorthand names behave like the methods they stand for. */
module AxisLaws {
  import opened RubyValues
  import opened Shorthand
  import opened AxisSpec

  // ----- setters and getters -----

  /** Called with no argument, each of the sixteen single-value accessors
      replies with its instance variable (nil when unset) and changes nothing. */
  lemma Getters(s: AxisState, m: Method, f: Field)
    requires (m, f) in {(Type, TypeVar), (Scale, ScaleVar), (Orient, OrientVar), (Title, TitleVar),
                        (TitleOffset, TitleOffsetVar), (Format, FormatVar), (Ticks, TicksVar),
                        (Values, ValuesVar), (Subdivide, SubdivideVar), (TickPadding, TickPaddingVar),
                        (TickSize, TickSizeVar), (TickSizeMajor, TickSizeMajorVar),
                        (TickSizeMinor, TickSizeMinorVar), (TickSizeEnd, TickSizeEndVar),
                        (Offset, OffsetVar), (Layer, LayerVar), (Properties, PropertiesVar)}
    ensures Call(s, m, []) == (s, Returned(Get(s, f)))
  {
  }

  /** `type`, `title` and `title_offset` store their argument as given,
      reply with the axis, and the getter then returns that argument. */
  lemma VerbatimSetters(s: AxisState, m: Method, f: Field, v: Value)
    requires (m, f) in {(Type, TypeVar), (Title, TitleVar), (TitleOffset, TitleOffsetVar)}
    ensures Call(s, m, [v]) == (Assign(s, f, v), Self)
    ensures Call(Assign(s, f, v), m, []) == (Assign(s, f, v), Returned(v))
  {
  }

  /** `orient` and `layer` store the Symbol of a String or Symbol argument
      and reply with the axis; anything else has no `to_sym` and raises
      before the assignment. */
  lemma SymbolSetters(s: AxisState, m: Method, f: Field, x: Value)
    requires (m, f) in {(Orient, OrientVar), (Layer, LayerVar)}
    ensures x.Str? || x.Sym? ==>
      var sym := Sym(if x.Str? then x.s else x.name);
      Call(s, m, [x]) == (Assign(s, f, sym), Self)
      && Call(Assign(s, f, sym), m, []) == (Assign(s, f, sym), Returned(sym))
    ensures !(x.Str? || x.Sym?) ==> Call(s, m, [x]) == (s, Raised(NoMethodError))
  {
  }

  /** The numeric setters store `args[0].to_i`. `ticks` and `subdivide`
      reply with the axis; the other six reply with the stored integer. An
      argument without `to_i` raises and nothing is stored. */
  lemma NumericSetters(s: AxisState, m: Method, f: Field, v: Value)
    requires (m, f) in {(Ticks, TicksVar), (Subdivide, SubdivideVar),
                        (TickPadding, TickPaddingVar), (TickSize, TickSizeVar),
                        (TickSizeMajor, TickSizeMajorVar), (TickSizeMinor, TickSizeMinorVar),
                        (TickSizeEnd, TickSizeEndVar), (Offset, OffsetVar)}
    ensures ToI(v).Ok? ==>
      var n := Int(ToI(v).value);
      Call(s, m, [v]) == (Assign(s, f, n), if m in {Ticks, Subdivide} then Self else Returned(n))
      && Call(Assign(s, f, n), m, []) == (Assign(s, f, n), Returned(n))
    ensures ToI(v).Fails? ==> Call(s, m, [v]) == (s, Raised(NoMethodError))
  {
  }

  /** `title(a, b)` leaves the same state as `title(a)` followed by
      `title_offset(b)`, and replies with the axis. */
  lemma TitleWithOffset(s: AxisState, a: Value, b: Value)
    ensures Call(s, Title, [a, b]) == (Call(Call(s, Title, [a]).0, TitleOffset, [b]).0, Self)
  {
  }

  // ----- argument counts -----

  /** The single-value accessors raise ArgumentError for two or more
      arguments, `title` for three or more, the argument-less methods for
      any argument and the writers for any count but one; the state is left
      as it was. */
  lemma ArityErrors(s: AxisState, m: Method, args: seq<Value>)
    requires || (|args| >= 2 && m in {Type, Scale, Orient, TitleOffset, Format, Ticks, Subdivide,
                                      TickPadding, TickSize, TickSizeMajor, TickSizeMinor,
                                      TickSizeEnd, Offset, Layer})
             || (|args| >= 3 && m == Title)
             || (|args| >= 1 && m in {Grid, GridQuery, Properties})
             || (|args| != 1 && m.Writer?)
    ensures Call(s, m, args) == (s, Raised(ArgumentError))
  {
  }

  // ----- scale -----

  /** A Scale object and its name give the same state and reply; anything
      that is neither raises ArgumentError. */
  lemma ScaleByObjectOrName(s: AxisState, n: string, v: Value)
    ensures Call(s, Scale, [ScaleObj(n)]) == Call(s, Scale, [Str(n)])
                                          == (Assign(s, ScaleVar, Str(n)), Self)
    ensures Call(Assign(s, ScaleVar, Str(n)), Scale, []).1 == Returned(Str(n))
    ensures !v.ScaleObj? && !v.Str? ==> Call(s, Scale, [v]) == (s, Raised(ArgumentError))
  {
  }

  // ----- values -----

  /** `values` never raises. No argument reads `@values`. One argument is stored as it is (a scalar is
      not wrapped in a list) and the reply is the axis; two or more are
      stored as the list of arguments in order, which is also the reply, so
      `values(a, b, ...)` and `values([a, b, ...])` leave the same state
      but reply differently. */
  lemma ValuesForms(s: AxisState, x: Value, args: seq<Value>)
    ensures Call(s, Values, []) == (s, Returned(Get(s, ValuesVar)))
    ensures !Call(s, Values, args).1.Raised?
    ensures Call(s, Values, [x]) == (Assign(s, ValuesVar, x), Self)
    ensures |args| >= 2 ==>
      Call(s, Values, args) == (Assign(s, ValuesVar, List(args)), Returned(List(args)))
      && Call(s, Values, args).0 == Call(s, Values, [List(args)]).0
  {
  }

  // ----- format -----

  /** `format()` reads `@format`. As written, `format(x)` ignores `x`: `@format` reads the same
      afterwards (an unset one becomes an explicit `nil`) and the reply is
      the axis. */
  lemma FormatIgnoresArgument(s: AxisState, x: Value, y: Value)
    ensures Call(s, Format, []) == (s, Returned(Get(s, FormatVar)))
    ensures Call(s, Format, [x]) == Call(s, Format, [y])
    ensures Call(s, Format, [x]) == (Assign(s, FormatVar, Get(s, FormatVar)), Self)
    ensures Get(Call(s, Format, [x]).0, FormatVar) == Get(s, FormatVar)
  {
  }

  // ----- grid -----

  /** `grid` switches the grid on and replies with the axis; doing it
      twice is the same as once, and `grid?` then answers true. */
  lemma GridSwitchesOn(s: AxisState)
    ensures Call(s, Grid, []) == (Assign(s, GridVar, Bool(true)), Self)
    ensures var t := Call(s, Grid, []).0;
            Call(t, Grid, []) == (t, Self) && Call(t, GridQuery, []) == (t, Returned(Bool(true)))
  {
  }

  /** `grid?` reads `@grid` and changes nothing; on a fresh axis it is
      unset, so the answer is nil. */
  lemma GridQueryReads(s: AxisState, attributes: set<string>)
    ensures Call(s, GridQuery, []) == (s, Returned(Get(s, GridVar)))
    ensures Call(Seeded(map[], attributes), GridQuery, []).1 == Returned(Nil)
  {
    assert Seeded(map[], attributes).grid == SeedVar(map[], attributes, GridVar) == None;
  }

  // ----- method names -----

  /** The names of the accessors with an alias resolve, alias and original alike. */
  lemma AliasedNames()
    ensures Resolve("scale") == Resolve("from") == Some(Scale)
    ensures Resolve("orient") == Resolve("at_orient") == Some(Orient)
  {
  }

  lemma AliasedTitleOffsetNames()
    ensures Resolve("title_offset") == Resolve("offset_title_by") == Some(TitleOffset)
    ensures Resolve("subdivide") == Resolve("subdivide_by") == Some(Subdivide)
  {
  }

  /** The tick-size aliases resolve like their originals. */
  lemma AliasedSizeNames()
    ensures Resolve("tick_size_major") == Resolve("major_tick_size") == Some(TickSizeMajor)
  {
  }

  lemma AliasedMinorSizeNames()
    ensures Resolve("tick_size_minor") == Resolve("minor_tick_size") == Some(TickSizeMinor)
  {
  }

  lemma AliasedEndSizeNames()
    ensures Resolve("tick_size_end") == Resolve("end_tick_size") == Some(TickSizeEnd)
  {
  }

  /** The offset and layer aliases resolve like their originals. */
  lemma AliasedOffsetNames()
    ensures Resolve("offset") == Resolve("offset_by") == Some(Offset)
  {
  }

  lemma AliasedLayerNames()
    ensures Resolve("layer") == Resolve("at_layer") == Some(Layer)
  {
  }

  /** `grid` has two aliases. */
  lemma GridNames()
    ensures Resolve("grid") == Resolve("show_grid") == Resolve("with_grid") == Some(Grid)
  {
    GridName();
    ShowGridName();
    WithGridName();
  }

  lemma GridName() ensures Resolve("grid") == Some(Grid) { }
  lemma ShowGridName() ensures Resolve("show_grid") == Some(Grid) { }
  lemma WithGridName() ensures Resolve("with_grid") == Some(Grid) { }

  /** `grid?` has two aliases. */
  lemma GridQueryNames()
    ensures Resolve("grid?") == Resolve("show_grid?") == Resolve("with_grid?") == Some(GridQuery)
  {
    GridQueryName();
    ShowGridQueryName();
    WithGridQueryName();
  }

  lemma GridQueryName() ensures Resolve("grid?") == Some(GridQuery) { }
  lemma ShowGridQueryName() ensures Resolve("show_grid?") == Some(GridQuery) { }
  lemma WithGridQueryName() ensures Resolve("with_grid?") == Some(GridQuery) { }

  /** The remaining names, which have no alias. */
  lemma PlainNames()
    ensures Resolve("type") == Some(Type) && Resolve("title") == Some(Title)
    ensures Resolve("format") == Some(Format) && Resolve("ticks") == Some(Ticks)
  {
  }

  lemma MorePlainNames()
    ensures Resolve("values") == Some(Values) && Resolve("tick_padding") == Some(TickPadding)
  {
  }

  lemma LastPlainNames()
    ensures Resolve("tick_size") == Some(TickSize) && Resolve("properties") == Some(Properties)
  {
  }

  /** Every attribute of the `attr_accessor` list has its writer `<name>=`,
      and `layer`, which is not on that list, has none. */
  lemma WriterNames(f: Field)
    ensures f != LayerVar ==> Resolve(VarName(f) + "=") == Some(Writer(f))
    ensures Resolve("layer=") == None
  {
    var name := VarName(f) + "=";
    assert name[..|name| - 1] == VarName(f);
    EqualsSuffixIsWriter(name);
    AccessorOfVarName(f);
    assert "layer="[..5] == "layer";
    EqualsSuffixIsWriter("layer=");
  }

  /** No method the class defines by `def` or `alias_method` ends in `=`, so
      such a name can only be a writer. */
  lemma EqualsSuffixIsWriter(name: string)
    requires |name| > 0 && name[|name| - 1] == '='
    ensures Resolve(name) == WriterOf(name)
  {
    assert name != "type" && name != "scale" && name != "from" && name != "orient" && name != "at_orient" && name != "title";
    assert name != "title_offset" && name != "offset_title_by" && name != "format" && name != "ticks" && name != "values" && name != "subdivide";
    assert name != "subdivide_by" && name != "tick_padding" && name != "tick_size" && name != "tick_size_major" && name != "major_tick_size" && name != "tick_size_minor";
    assert name != "minor_tick_size" && name != "tick_size_end" && name != "end_tick_size" && name != "offset" && name != "offset_by" && name != "layer";
    assert name != "at_layer" && name != "grid" && name != "show_grid" && name != "with_grid" && name != "grid?" && name != "show_grid?";
    assert name != "with_grid?" && name != "properties";
  }

  /** The attribute list names each instance variable but `@layer`. */
  lemma AccessorOfVarName(f: Field)
    ensures f != LayerVar ==> AccessorVar(VarName(f)) == Some(f)
  {
  }

  // ----- shorthand names -----

  /** No method is named like `in_<d>_ticks`. */
  lemma TicksShorthandIsNoMethod(d: string)
    requires IsDigitRun(d)
    ensures Resolve("in_" + d + "_ticks") == None
  {
    var name := "in_" + d + "_ticks";
    assert name[0] == 'i' && name[|name| - 1] == 's';
  }

  /** `in_<d>_ticks` is `ticks(n)` for the number `n` that `d` spells,
      whatever explicit arguments come with it. */
  lemma InTicksIsTicks(s: AxisState, d: string, args: seq<Value>)
    requires IsDigitRun(d)
    ensures Send(s, "in_" + d + "_ticks", args) == Call(s, Ticks, [Int(DigitsValue(d))])
  {
    TicksShorthandIsNoMethod(d);
    ParseShorthandName(InTicks(d));
  }

  /** For every natural number `n`, `in_<n>_ticks` spelled in decimal is `ticks(n)`. */
  lemma InNTicksIsTicksN(s: AxisState, n: nat, args: seq<Value>)
    ensures Send(s, "in_" + Decimal(n) + "_ticks", args) == Call(s, Ticks, [Int(n)])
  {
    InTicksIsTicks(s, Decimal(n), args);
  }

  /** No method is named like `subdivide_by_<d>`. */
  lemma SubdivideShorthandIsNoMethod(d: string)
    requires IsDigitRun(d)
    ensures Resolve("subdivide_by_" + d) == None
  {
    var name := "subdivide_by_" + d;
    assert name[..13] == "subdivide_by_";
    assert name[0] == 's' && name[1] == 'u' && name[9] == '_' && name[12] == '_';
    assert IsDigit(name[|name| - 1]);
  }

  /** `subdivide_by_<d>` is `subdivide(n)` for the number `n` that `d` spells. */
  lemma SubdivideByIsSubdivide(s: AxisState, d: string, args: seq<Value>)
    requires IsDigitRun(d)
    ensures Send(s, "subdivide_by_" + d, args) == Call(s, Subdivide, [Int(DigitsValue(d))])
  {
    SubdivideShorthandIsNoMethod(d);
    ParseShorthandName(SubdivideBy(d));
  }

  /** No method is named `at_top`, `at_bottom`, `at_left` or `at_right`. */
  lemma SideShorthandIsNoMethod(w: string)
    requires w in Sides
    ensures Resolve("at_" + w) == None
  {
    if w == "top" { assert "at_" + w == "at_top"; AtTopIsUndefined(); }
    else if w == "bottom" { assert "at_" + w == "at_bottom"; AtBottomIsUndefined(); }
    else if w == "left" { assert "at_" + w == "at_left"; AtLeftIsUndefined(); }
    else { assert "at_" + w == "at_right"; AtRightIsUndefined(); }
  }

  // One literal name per lemma keeps each check of `Resolve`'s chain small.
  lemma AtTopIsUndefined() ensures Resolve("at_top") == None { }
  lemma AtBottomIsUndefined() ensures Resolve("at_bottom") == None { }
  lemma AtLeftIsUndefined() ensures Resolve("at_left") == None { }
  lemma AtRightIsUndefined() ensures Resolve("at_right") == None { }
  lemma AtFrontIsUndefined() ensures Resolve("at_front") == None { }
  lemma AtBackIsUndefined() ensures Resolve("at_back") == None { }

  /** No method is named `at_front` or `at_back`. */
  lemma DepthShorthandIsNoMethod(w: string)
    requires w in Depths
    ensures Resolve("at_" + w) == None
  {
    if w == "front" { assert "at_" + w == "at_front"; AtFrontIsUndefined(); }
    else { assert "at_" + w == "at_back"; AtBackIsUndefined(); }
  }

  /** `at_top`, `at_bottom`, `at_left` and `at_right` are `orient` with that
      word, given as a Symbol or as a String. */
  lemma AtSideIsOrient(s: AxisState, w: string, args: seq<Value>)
    requires w in Sides
    ensures Send(s, "at_" + w, args) == Call(s, Orient, [Sym(w)]) == Call(s, Orient, [Str(w)])
  {
    SideShorthandIsNoMethod(w);
    ParseShorthandName(AtOrient(w));
    assert ShorthandName(AtOrient(w)) == "at_" + w;
    assert Send(s, "at_" + w, args) == MethodMissing(s, "at_" + w);
    SymbolSetters(s, Orient, OrientVar, Sym(w));
    SymbolSetters(s, Orient, OrientVar, Str(w));
  }

  /** `at_front` and `at_back` are `layer` with that word. */
  lemma AtDepthIsLayer(s: AxisState, w: string, args: seq<Value>)
    requires w in Depths
    ensures Send(s, "at_" + w, args) == Call(s, Layer, [Sym(w)]) == Call(s, Layer, [Str(w)])
  {
    DepthShorthandIsNoMethod(w);
    ParseShorthandName(AtLayer(w));
    assert ShorthandName(AtLayer(w)) == "at_" + w;
    assert Send(s, "at_" + w, args) == MethodMissing(s, "at_" + w);
    SymbolSetters(s, Layer, LayerVar, Sym(w));
    SymbolSetters(s, Layer, LayerVar, Str(w));
  }

  /** A name that is neither a method nor a shorthand raises NoMethodError
      and leaves the state as it was. */
  lemma UnknownNameRaises(s: AxisState, name: string, args: seq<Value>)
    requires Resolve(name).None? && ParseShorthand(name).None?
    ensures Send(s, name, args) == (s, Raised(NoMethodError))
  {
  }

  lemma BananaIsNoMethod()
    ensures Resolve("banana") == None
  {
  }

  lemma BananaIsNoShorthand()
    ensures ParseShorthand("banana") == None
  {
    SingleLine("banana");
    assert Unmatched("banana");
  }

  /** `banana` is such a name. */
  lemma BananaRaises(s: AxisState, args: seq<Value>)
    ensures Send(s, "banana", args) == (s, Raised(NoMethodError))
  {
    BananaIsNoMethod();
    BananaIsNoShorthand();
  }

  /** Construction ignores every key that the attribute list does not
      name, and an empty seed leaves every instance variable unset. */
  lemma SeedIgnoresUnlisted(seed: map<string, Value>, attributes: set<string>, k: string, v: Value)
    requires k !in attributes
    ensures Seeded(seed[k := v], attributes) == Seeded(seed, attributes)
    ensures forall f :: Ivar(Seeded(map[], attributes), f) == None
  {
  }
}
