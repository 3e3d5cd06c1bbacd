# Plotrb axis builder in Dafny

This project models `Plotrb::Axis` from lib/plotrb/axes.rb. It is the chainable
builder that records the settings of one chart axis for the Vega axis grammar:
- type and scale;
- orientation and label format;
- tick count, explicit tick values and subdivisions;
- tick padding and tick sizes;
- offset, title and title offset;
- layer and grid.

Each accessor dispatches on the number of arguments it receives:
- no argument reads the instance variable;
- one argument assigns it, coerced by `to_i` or `to_sym` for some fields;
- any other count raises `ArgumentError`.

`title` and `values` accept more arguments. `method_missing` understands four
method-name shorthands: `in_20_ticks`, `subdivide_by_4`, `at_bottom` and
`at_back`.

The project is made of five modules, one per file:

- `RubyValues` (values.dfy) holds the Ruby objects a caller passes in:
  - `nil`, booleans, integers, strings and symbols;
  - arrays;
  - a `Plotrb::Scale`, seen only through its name.

  It also holds the two coercions the setters apply: `to_i` (with
  `String#to_i` in base 10) and `to_sym`.
- `Shorthand` (shorthand.dfy) is the pure matcher of `method_missing`:
  - It tries the four regular expressions in order.
  - Ruby's `^` and `$` anchor at line boundaries, so each pattern is matched
    against every line of the name.
  - The capture `$1` comes from the first line that matches.
- `AxisSpec` (axis_spec.dfy) is the specification:
  - the instance variables as a value `AxisState`;
  - `Call`, one call of a resolved method, as a function from the state
    before to the state after and the reply;
  - `Resolve`, method lookup with its aliases and the `attr_accessor`
    writers;
  - `Send`, which is lookup followed by either `Call` or `MethodMissing`.
- `Axes` (axis.dfy) is the class `Axis`:
  - It has one field per instance variable.
  - Each Ruby method becomes a method that updates those fields in place.
  - Each method is proved to leave exactly the state and reply that
    `AxisSpec` gives.
- `AxisLaws` (axis_laws.dfy) states what callers can rely on:
  - round trips of setters and getters;
  - the coercions and the argument-count errors;
  - `scale`, `values`, `format` and `grid`;
  - the alias table;
  - the shorthand names.

A reply is one of three things:
- `Self`, which is the axis, ready for chaining;
- `Returned(v)`, some other object;
- `Raised(e)`, an exception.

An instance variable that was never assigned is `None`, and reading it gives
`nil`.

Where the code and its documented intent differ, the model follows the code:
- `values(x)` stores `x` as it is. A scalar is not wrapped in a list.
- `title_offset` stores its argument uncoerced.
- `tick_padding`, `tick_size`, `tick_size_major`, `tick_size_minor`,
  `tick_size_end` and `offset` reply with the stored integer, not the axis.
- `format(x)` assigns the result of calling `format` itself with no argument.
  It therefore ignores `x`, and it turns an unset `@format` into an explicit
  `nil`.

## Model

| member | source | states |
|---|---|---|
| RubyValues.ToI | lib/plotrb/axes.rb:142 | `to_i` succeeds exactly on integers, `nil` and strings, and leaves an integer as it is; every other object raises NoMethodError |
| RubyValues.ToSym | lib/plotrb/axes.rb:89 | `to_sym` succeeds exactly on strings and symbols and gives the symbol of the same name; every other object raises NoMethodError |
| RubyValues.StringToInt | lib/plotrb/axes.rb:142 | base-10 `String#to_i`: text that starts with neither whitespace, a sign nor a digit reads as 0; a digit run reads as its value, and `-` before it negates that value; a `0d` or `0D` prefix before the digits is skipped |
| RubyValues.SignedNumeralCases | lib/plotrb/axes.rb:142 | after the leading whitespace: text that starts with neither a digit nor a sign reads as 0; a digit run is read whole; a `-` before a digit run negates its value; a `+` before a digit run leaves its value; a `0d`/`0D` prefix before a digit run is skipped |
| RubyValues.UnsignedRun | lib/plotrb/axes.rb:142 | an unsigned digit run, even one starting with `0`, reads as its base-10 value |
| RubyValues.NumeralDigits | lib/plotrb/axes.rb:273 | the numeral `String#to_i` reads is made of digits only and is no longer than the text |
| RubyValues.NumeralOfDigitRun | lib/plotrb/axes.rb:272-273 | on a run of digits, the numeral `to_i` reads is the whole run |
| RubyValues.Decimal | lib/plotrb/axes.rb:272 | the number in a name such as `in_20_ticks`: every natural number has a digit-run spelling with no leading zero whose base-10 value is that number |
| RubyValues.DecimalToInt | lib/plotrb/axes.rb:272-273 | reading back the decimal spelling of `n` with `to_i` gives `n` |
| Shorthand.Lines | lib/plotrb/axes.rb:271-279 | the lines the anchors `^`/`$` see: at least one, none holds a newline, and joined with newlines they give back the name |
| Shorthand.FirstCapture | lib/plotrb/axes.rb:272-279 | a pattern captures nothing exactly when it matches no line of the name |
| Shorthand.FirstCaptureIsLeftmost | lib/plotrb/axes.rb:272-279 | the capture is the one from the first line the pattern matches, and no earlier line matches |
| Shorthand.ParseShorthand | lib/plotrb/axes.rb:271-281 | the `case` falls through to `super` exactly when no line of the name matches any of the four patterns |
| Shorthand.MatchedLine | lib/plotrb/axes.rb:271-281 | a pattern that captures leaves some line matched, so the `case` does not fall through |
| Shorthand.OneLineParse | lib/plotrb/axes.rb:271-281 | on a name without a newline, the patterns are tried in order on the whole name |
| Shorthand.SingleLine | lib/plotrb/axes.rb:271 | a name without a newline is one line |
| Shorthand.TicksNameCaptures | lib/plotrb/axes.rb:272 | `in_<d>_ticks` matches the first pattern with capture `d` and no other |
| Shorthand.SubdivideNameCaptures | lib/plotrb/axes.rb:274 | `subdivide_by_<d>` matches the second pattern with capture `d` and no other |
| Shorthand.SideNameCaptures | lib/plotrb/axes.rb:276 | `at_<side>` matches the third pattern with capture `side` and neither earlier one |
| Shorthand.DepthNameCaptures | lib/plotrb/axes.rb:278 | `at_<depth>` matches only the fourth pattern, capturing `depth` |
| Shorthand.ParseShorthandName | lib/plotrb/axes.rb:271-279 | parsing the name that spells a valid command gives that command back |
| Shorthand.TicksCaptureSpells | lib/plotrb/axes.rb:272 | a line the first pattern accepts is `in_` + a digit run + `_ticks` |
| Shorthand.SubdivideCaptureSpells | lib/plotrb/axes.rb:274 | a line the second pattern accepts is `subdivide_by_` + a digit run |
| Shorthand.AtCaptureSpells | lib/plotrb/axes.rb:276-278 | a line the third or fourth pattern accepts captures a side or a depth, and the line is `at_` followed by that capture |
| Shorthand.ParsedNameIsPrinted | lib/plotrb/axes.rb:271-279 | on a one-line name, every recognised shorthand is a valid command and the name is exactly its spelling: the converse of `ParseShorthandName` |
| Shorthand.LinesAfterFirst | lib/plotrb/axes.rb:271 | a first line without a newline splits off the front of the name |
| Shorthand.TwoLines | lib/plotrb/axes.rb:271 | two newline-free lines joined by a newline split back into those two |
| Shorthand.LaterLineMatches | lib/plotrb/axes.rb:276-277 | because the anchors are per line, `at_<side>` on a second line is `orient` when the first line matches nothing |
| Shorthand.EarlierPatternWins | lib/plotrb/axes.rb:271-273 | the patterns are tried in order over the whole name, so `in_<d>_ticks` on a second line wins over a first line that only a later pattern matches |
| AxisSpec.Assign | lib/plotrb/axes.rb:55 | an assignment `@f = v` sets `@f` to `v` and no other instance variable |
| AxisSpec.Seeded | lib/plotrb/axes.rb:44-48 | construction assigns each listed key of the seed to the instance variable of that name and leaves the others unset |
| AxisSpec.AccessorVar | lib/plotrb/axes.rb:39-42 | each name on the `attr_accessor` list is the name of the instance variable it gives, and `layer` is not on the list |
| AxisSpec.WriterOf | lib/plotrb/axes.rb:39-42 | a name resolves as a writer only when it is `<attr>=` for an attribute of the `attr_accessor` list, never for `layer` |
| AxisSpec.Resolve | lib/plotrb/axes.rb:39-268 | method lookup by name: a writer found is the writer of the variable the name spells, without its `=` |
| AxisSpec.Call | lib/plotrb/axes.rb:50-268 | a call that raises assigns nothing, and a method assigns only its own instance variables |
| AxisSpec.ShorthandCallReturnsSelf | lib/plotrb/axes.rb:273-279 | the setter a shorthand stands for accepts the captured argument and replies with the axis |
| AxisSpec.MethodMissing | lib/plotrb/axes.rb:270-283 | a shorthand name replies with the axis, and any other name raises NoMethodError with the state unchanged; the reply is the axis exactly when the name parses |
| AxisSpec.Send | lib/plotrb/axes.rb:39-283 | a call that raises, whether through a method or through `method_missing`, leaves the state unchanged |
| Axes.Axis.constructor | lib/plotrb/axes.rb:44-48 | a new axis holds exactly the seeded state |
| Axes.Axis.Type | lib/plotrb/axes.rb:50-60 | `type` updates the fields and replies exactly as `Call(_, Type, args)` says |
| Axes.Axis.Scale | lib/plotrb/axes.rb:62-82 | `scale` stores the name of a Scale or a String, and raises on anything else, exactly as `Call(_, Scale, args)` says |
| Axes.Axis.Orient | lib/plotrb/axes.rb:84-95 | `orient` stores `args[0].to_sym`, as `Call(_, Orient, args)` says |
| Axes.Axis.Title | lib/plotrb/axes.rb:97-110 | `title` with one or two arguments updates the fields and replies exactly as `Call(_, Title, args)` says |
| Axes.Axis.TitleOffset | lib/plotrb/axes.rb:112-123 | `title_offset` updates the fields and replies exactly as `Call(_, TitleOffset, args)` says |
| Axes.Axis.Format | lib/plotrb/axes.rb:125-135 | `format` updates the fields and replies exactly as `Call(_, Format, args)` says, which includes the self-call of line 130 |
| Axes.Axis.Ticks | lib/plotrb/axes.rb:137-147 | `ticks` stores `args[0].to_i` and replies with the axis, as `Call(_, Ticks, args)` says |
| Axes.Axis.Values | lib/plotrb/axes.rb:149-159 | `values` updates the fields and replies exactly as `Call(_, Values, args)` says |
| Axes.Axis.Subdivide | lib/plotrb/axes.rb:161-172 | `subdivide` stores `args[0].to_i` and replies with the axis, as `Call(_, Subdivide, args)` says |
| Axes.Axis.TickPadding | lib/plotrb/axes.rb:174-183 | `tick_padding` stores `args[0].to_i` and replies with it, as `Call(_, TickPadding, args)` says |
| Axes.Axis.TickSize | lib/plotrb/axes.rb:185-194 | `tick_size` stores `args[0].to_i` and replies with it, as `Call(_, TickSize, args)` says |
| Axes.Axis.TickSizeMajor | lib/plotrb/axes.rb:196-206 | `tick_size_major` stores `args[0].to_i` and replies with it, as `Call(_, TickSizeMajor, args)` says |
| Axes.Axis.TickSizeMinor | lib/plotrb/axes.rb:208-218 | `tick_size_minor` stores `args[0].to_i` and replies with it, as `Call(_, TickSizeMinor, args)` says |
| Axes.Axis.TickSizeEnd | lib/plotrb/axes.rb:220-230 | `tick_size_end` stores `args[0].to_i` and replies with it, as `Call(_, TickSizeEnd, args)` says |
| Axes.Axis.Offset | lib/plotrb/axes.rb:232-242 | `offset` stores `args[0].to_i` and replies with it, as `Call(_, Offset, args)` says |
| Axes.Axis.Layer | lib/plotrb/axes.rb:244-255 | `layer` stores `args[0].to_sym` and replies with the axis, as `Call(_, Layer, args)` says |
| Axes.Axis.Grid | lib/plotrb/axes.rb:257-262 | `grid` sets `@grid` to true and replies with the axis, as `Call(_, Grid, [])` says |
| Axes.Axis.GridQuery | lib/plotrb/axes.rb:264-268 | `grid?` replies with `@grid` and changes nothing |
| Axes.Axis.Properties | lib/plotrb/axes.rb:37-42 | the `properties` reader replies with `@properties` and changes nothing |
| Axes.Axis.Write | lib/plotrb/axes.rb:39-42 | an `attr_accessor` writer, of any listed attribute but never of `layer`, assigns its argument to its own instance variable only, and replies with the argument |
| Axes.Axis.MethodMissing | lib/plotrb/axes.rb:270-283 | `method_missing` runs the setter the shorthand names, or raises NoMethodError, exactly as `AxisSpec.MethodMissing` says |
| Axes.Axis.Invoke | lib/plotrb/axes.rb:39-268 | calling a resolved method (never a `layer=` writer, which does not exist), with Ruby's argument-count check for the fixed-arity ones, is exactly `Call` |
| Axes.Axis.Send | lib/plotrb/axes.rb:39-283 | sending a message by name is exactly `AxisSpec.Send` |
| AxisLaws.Getters | lib/plotrb/axes.rb:39-255 | every single-value accessor and the `properties` reader, called with no argument on any state, replies with its instance variable (nil when unset) and changes nothing |
| AxisLaws.VerbatimSetters | lib/plotrb/axes.rb:50-123 | `type(v)`, `title(v)` and `title_offset(v)` store `v` and reply with the axis, and the getter then returns `v` |
| AxisLaws.SymbolSetters | lib/plotrb/axes.rb:84-255 | `orient(x)` and `layer(x)` store the symbol of a String or Symbol, reply with the axis, and the getter returns that symbol; anything else raises before assigning |
| AxisLaws.NumericSetters | lib/plotrb/axes.rb:137-241 | the eight numeric setters store `args[0].to_i`: `ticks` and `subdivide` reply with the axis and the other six with the integer; the getter returns the integer; an argument without `to_i` raises and nothing changes |
| AxisLaws.TitleWithOffset | lib/plotrb/axes.rb:104-106 | `title(a, b)` leaves the same state as `title(a)` followed by `title_offset(b)`, and replies with the axis |
| AxisLaws.ArityErrors | lib/plotrb/axes.rb:50-268 | a wrong argument count raises ArgumentError and leaves the state unchanged, for every single-value accessor, `title` with three or more, `grid`, `grid?`, `properties` and the writers |
| AxisLaws.ScaleByObjectOrName | lib/plotrb/axes.rb:62-82 | a Scale and its name give identical state and reply, the getter returns the name, and any other argument raises ArgumentError |
| AxisLaws.ValuesForms | lib/plotrb/axes.rb:149-159 | `values` never raises; no argument reads `@values` and changes nothing; one argument is stored verbatim and replies with the axis; several are stored as their list, in order, which is also the reply, and leave the same state as passing that list |
| AxisLaws.FormatIgnoresArgument | lib/plotrb/axes.rb:125-135 | `format()` reads `@format` and changes nothing; `format(x)` is the same call whatever `x` is: `@format` reads as before and the reply is the axis |
| AxisLaws.GridSwitchesOn | lib/plotrb/axes.rb:257-268 | `grid` switches the grid on and replies with the axis; a second `grid` changes nothing, and `grid?` then answers true |
| AxisLaws.GridQueryReads | lib/plotrb/axes.rb:264-266 | `grid?` replies with `@grid` and changes nothing; on a fresh axis the answer is nil |
| AxisLaws.AliasedNames | lib/plotrb/axes.rb:62-95 | `from` and `at_orient` resolve to the same methods as `scale` and `orient` |
| AxisLaws.AliasedTitleOffsetNames | lib/plotrb/axes.rb:112-172 | `offset_title_by` and `subdivide_by` resolve to the same methods as `title_offset` and `subdivide` |
| AxisLaws.AliasedSizeNames | lib/plotrb/axes.rb:196-206 | `major_tick_size` resolves like `tick_size_major` |
| AxisLaws.AliasedMinorSizeNames | lib/plotrb/axes.rb:208-218 | `minor_tick_size` resolves like `tick_size_minor` |
| AxisLaws.AliasedEndSizeNames | lib/plotrb/axes.rb:230 | `end_tick_size` resolves like `tick_size_end` |
| AxisLaws.AliasedOffsetNames | lib/plotrb/axes.rb:232-242 | `offset_by` resolves like `offset` |
| AxisLaws.AliasedLayerNames | lib/plotrb/axes.rb:244-255 | `at_layer` resolves like `layer` |
| AxisLaws.GridNames | lib/plotrb/axes.rb:257-262 | `grid`, `show_grid` and `with_grid` resolve to the same method |
| AxisLaws.GridName | lib/plotrb/axes.rb:257 | `grid` resolves to the grid switch |
| AxisLaws.ShowGridName | lib/plotrb/axes.rb:261 | `show_grid` resolves to the grid switch |
| AxisLaws.WithGridName | lib/plotrb/axes.rb:262 | `with_grid` resolves to the grid switch |
| AxisLaws.GridQueryNames | lib/plotrb/axes.rb:264-268 | `grid?`, `show_grid?` and `with_grid?` resolve to the same method |
| AxisLaws.GridQueryName | lib/plotrb/axes.rb:264 | `grid?` resolves to the grid query |
| AxisLaws.ShowGridQueryName | lib/plotrb/axes.rb:267 | `show_grid?` resolves to the grid query |
| AxisLaws.WithGridQueryName | lib/plotrb/axes.rb:268 | `with_grid?` resolves to the grid query |
| AxisLaws.PlainNames | lib/plotrb/axes.rb:50-147 | `type`, `title`, `format` and `ticks` resolve to their methods |
| AxisLaws.MorePlainNames | lib/plotrb/axes.rb:149-183 | `values` and `tick_padding` resolve to their methods |
| AxisLaws.LastPlainNames | lib/plotrb/axes.rb:39-194 | `tick_size` and the `properties` reader resolve to their methods |
| AxisLaws.EqualsSuffixIsWriter | lib/plotrb/axes.rb:39-268 | no method defined by `def` or `alias_method` ends in `=`, so such a name resolves only as an `attr_accessor` writer |
| AxisLaws.AccessorOfVarName | lib/plotrb/axes.rb:39-42 | every instance variable except `@layer` has an accessor of its own name |
| AxisLaws.WriterNames | lib/plotrb/axes.rb:39-42 | `<name>=` resolves to the writer of `@<name>` for every instance variable on the `attr_accessor` list, and `layer=` resolves to nothing |
| AxisLaws.TicksShorthandIsNoMethod | lib/plotrb/axes.rb:270-273 | no method is named `in_<d>_ticks`, so such a name reaches `method_missing` |
| AxisLaws.InTicksIsTicks | lib/plotrb/axes.rb:272-273 | `in_<d>_ticks`, with any explicit arguments, is `ticks` of the number `d` spells |
| AxisLaws.InNTicksIsTicksN | lib/plotrb/axes.rb:272-273 | for every natural `n`, `in_<n>_ticks` is `ticks(n)` |
| AxisLaws.SubdivideShorthandIsNoMethod | lib/plotrb/axes.rb:274-275 | no method is named `subdivide_by_<d>` |
| AxisLaws.SubdivideByIsSubdivide | lib/plotrb/axes.rb:274-275 | `subdivide_by_<d>` is `subdivide` of the number `d` spells |
| AxisLaws.SideShorthandIsNoMethod | lib/plotrb/axes.rb:276-277 | no method is named `at_top`, `at_bottom`, `at_left` or `at_right` |
| AxisLaws.DepthShorthandIsNoMethod | lib/plotrb/axes.rb:278-279 | no method is named `at_front` or `at_back` |
| AxisLaws.AtTopIsUndefined | lib/plotrb/axes.rb:276 | no method is named `at_top` |
| AxisLaws.AtBottomIsUndefined | lib/plotrb/axes.rb:276 | no method is named `at_bottom` |
| AxisLaws.AtLeftIsUndefined | lib/plotrb/axes.rb:276 | no method is named `at_left` |
| AxisLaws.AtRightIsUndefined | lib/plotrb/axes.rb:276 | no method is named `at_right` |
| AxisLaws.AtFrontIsUndefined | lib/plotrb/axes.rb:278 | no method is named `at_front` |
| AxisLaws.AtBackIsUndefined | lib/plotrb/axes.rb:278 | no method is named `at_back` |
| AxisLaws.AtSideIsOrient | lib/plotrb/axes.rb:276-277 | `at_<side>` is `orient` of that word, given as a Symbol or as a String |
| AxisLaws.AtDepthIsLayer | lib/plotrb/axes.rb:278-279 | `at_<depth>` is `layer` of that word, given as a Symbol or as a String |
| AxisLaws.UnknownNameRaises | lib/plotrb/axes.rb:280-281 | a name that is neither a method nor a shorthand raises NoMethodError with the state unchanged |
| AxisLaws.BananaIsNoMethod | lib/plotrb/axes.rb:39-268 | `banana` names no method |
| AxisLaws.BananaIsNoShorthand | lib/plotrb/axes.rb:271-281 | `banana` matches no shorthand pattern |
| AxisLaws.BananaRaises | lib/plotrb/axes.rb:280-281 | sending `banana` raises NoMethodError with the state unchanged |
| AxisLaws.SeedIgnoresUnlisted | lib/plotrb/axes.rb:44-48 | construction ignores every key the attribute list does not name, and an empty seed leaves every instance variable unset |

## Left out

- `Plotrb::Base` is not part of this model. The attribute list that
  `initialize` consults is a parameter (`attributes`), and the keys of the
  seed are names as strings. Whether a Ruby hash key is a Symbol or a String
  is not distinguished.
- The Vega serialisation inherited from `Plotrb::Base` is not modelled, and
  neither is any method that `Object` or `Kernel` defines. A name that only
  those define counts here as unknown.
- `Plotrb::Scale` appears only as a value carrying its name.
- Floats are left out. `to_i` is modelled on integers, `nil` and strings, with
  base-10 `String#to_i`: leading whitespace, a sign, an optional `0d`/`0D`
  prefix, and digits with single underscores. Other radix prefixes are not
  recognised in base 10, so they read as 0, as in Ruby. Every other object is taken to lack `to_i` and `to_sym`, which
  also covers a Scale object passed to a numeric or symbol setter.
- Integers are unbounded, as Ruby's are.
- The contents of the `properties` hash are opaque; it is one `Value`.
- Stored objects are values. Ruby keeps a reference to the array passed to
  `values`, so a later change to that array would be seen through `@values`.
  The model does not capture this aliasing.
- The explicit arguments and the block given to `method_missing` are ignored,
  as the code ignores them.
- `super` in `method_missing` is modelled as raising NoMethodError.
- Calling `method_missing` itself by name, as in
  `axis.method_missing(:in_5_ticks)`, is not modelled. `Resolve` treats
  `method_missing` as an unknown name, so the model raises NoMethodError where
  Ruby would run the shorthand. Method lookup covers only the methods the class
  defines, and the shorthands are reached through `AxisSpec.MethodMissing`.
- `AxisSpec.Seeded`: `instance_variable_set` raising NameError for a listed key
  that is not a valid instance-variable name is not modelled. The seed only
  reaches the eighteen instance variables the class declares.
