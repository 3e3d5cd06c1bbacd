/** `Plotrb::Axis` (lib/plotrb/axes.rb): a mutable record of optional
    axis settings, with one method per setting that reads the instance
    variable when called without arguments and assigns it when called with
    one. Every method is proved to do exactly what `AxisSpec.Call` says. */
module Axes {
  import opened RubyValues
  import opened Shorthand
  import S = AxisSpec

  class Axis {
    var axisType: Option<Value>
    var scale: Option<Value>
    var orient: Option<Value>
    var format: Option<Value>
    var ticks: Option<Value>
    var values: Option<Value>
    var subdivide: Option<Value>
    var tickPadding: Option<Value>
    var tickSize: Option<Value>
    var tickSizeMajor: Option<Value>
    var tickSizeMinor: Option<Value>
    var tickSizeEnd: Option<Value>
    var offset: Option<Value>
    var properties: Option<Value>
    var title: Option<Value>
    var titleOffset: Option<Value>
    var layer: Option<Value>
    var grid: Option<Value>

    /** The instance variables, as a value. */
    function State(): S.AxisState
      reads this
    {
      S.AxisState(axisType, scale, orient, format, ticks, values, subdivide,
                  tickPadding, tickSize, tickSizeMajor, tickSizeMinor, tickSizeEnd,
                  offset, properties, title, titleOffset, layer, grid)
    }

    /** `initialize(args)`, with `attributes` standing for the attribute
        list that `Plotrb::Base` supplies. */
    constructor (seed: map<string, Value>, attributes: set<string>)
      ensures State() == S.Seeded(seed, attributes)
    {
      axisType := S.SeedVar(seed, attributes, S.TypeVar);
      scale := S.SeedVar(seed, attributes, S.ScaleVar);
      orient := S.SeedVar(seed, attributes, S.OrientVar);
      format := S.SeedVar(seed, attributes, S.FormatVar);
      ticks := S.SeedVar(seed, attributes, S.TicksVar);
      values := S.SeedVar(seed, attributes, S.ValuesVar);
      subdivide := S.SeedVar(seed, attributes, S.SubdivideVar);
      tickPadding := S.SeedVar(seed, attributes, S.TickPaddingVar);
      tickSize := S.SeedVar(seed, attributes, S.TickSizeVar);
      tickSizeMajor := S.SeedVar(seed, attributes, S.TickSizeMajorVar);
      tickSizeMinor := S.SeedVar(seed, attributes, S.TickSizeMinorVar);
      tickSizeEnd := S.SeedVar(seed, attributes, S.TickSizeEndVar);
      offset := S.SeedVar(seed, attributes, S.OffsetVar);
      properties := S.SeedVar(seed, attributes, S.PropertiesVar);
      title := S.SeedVar(seed, attributes, S.TitleVar);
      titleOffset := S.SeedVar(seed, attributes, S.TitleOffsetVar);
      layer := S.SeedVar(seed, attributes, S.LayerVar);
      grid := S.SeedVar(seed, attributes, S.GridVar);
    }

    method Type(args: seq<Value>) returns (r: S.Reply)
      modifies this`axisType
      ensures (State(), r) == S.Call(old(State()), S.Type, args)
    {
      if |args| == 0 {
        r := S.Returned(S.OrNil(axisType));
      } else if |args| == 1 {
        axisType := Some(args[0]);
        r := S.Self;
      } else {
        r := S.Raised(ArgumentError);
      }
    }

    method Scale(args: seq<Value>) returns (r: S.Reply)
      modifies this`scale
      ensures (State(), r) == S.Call(old(State()), S.Scale, args)
    {
      if |args| == 0 {
        r := S.Returned(S.OrNil(scale));
      } else if |args| == 1 {
        match args[0]
        case ScaleObj(name) =>
          scale := Some(Str(name));
          r := S.Self;
        case Str(t) =>
          scale := Some(Str(t));
          r := S.Self;
        case _ =>
          r := S.Raised(ArgumentError);
      } else {
        r := S.Raised(ArgumentError);
      }
    }

    method Orient(args: seq<Value>) returns (r: S.Reply)
      modifies this`orient
      ensures (State(), r) == S.Call(old(State()), S.Orient, args)
    {
      if |args| == 0 {
        r := S.Returned(S.OrNil(orient));
      } else if |args| == 1 {
        var sym := ToSym(args[0]);
        if sym.Ok? {
          orient := Some(sym.value);
          r := S.Self;
        } else {
          r := S.Raised(sym.error);
        }
      } else {
        r := S.Raised(ArgumentError);
      }
    }

    method Title(args: seq<Value>) returns (r: S.Reply)
      modifies this`title, this`titleOffset
      ensures (State(), r) == S.Call(old(State()), S.Title, args)
    {
      if |args| == 0 {
        r := S.Returned(S.OrNil(title));
      } else if |args| == 1 {
        title := Some(args[0]);
        r := S.Self;
      } else if |args| == 2 {
        title, titleOffset := Some(args[0]), Some(args[1]);
        r := S.Self;
      } else {
        r := S.Raised(ArgumentError);
      }
    }

    method TitleOffset(args: seq<Value>) returns (r: S.Reply)
      modifies this`titleOffset
      ensures (State(), r) == S.Call(old(State()), S.TitleOffset, args)
    {
      if |args| == 0 {
        r := S.Returned(S.OrNil(titleOffset));
      } else if |args| == 1 {
        titleOffset := Some(args[0]);
        r := S.Self;
      } else {
        r := S.Raised(ArgumentError);
      }
    }

    /** As written: the one-argument branch assigns what `format` with no
        argument returns, which is the current `@format`. */
    method Format(args: seq<Value>) returns (r: S.Reply)
      modifies this`format
      ensures (State(), r) == S.Call(old(State()), S.Format, args)
      decreases |args|
    {
      if |args| == 0 {
        r := S.Returned(S.OrNil(format));
      } else if |args| == 1 {
        var current := Format([]);
        format := Some(current.value);
        r := S.Self;
      } else {
        r := S.Raised(ArgumentError);
      }
    }

    method Ticks(args: seq<Value>) returns (r: S.Reply)
      modifies this`ticks
      ensures (State(), r) == S.Call(old(State()), S.Ticks, args)
    {
      if |args| == 0 {
        r := S.Returned(S.OrNil(ticks));
      } else if |args| == 1 {
        var n := ToI(args[0]);
        if n.Ok? {
          ticks := Some(Int(n.value));
          r := S.Self;
        } else {
          r := S.Raised(n.error);
        }
      } else {
        r := S.Raised(ArgumentError);
      }
    }

    /** One argument is stored as it is; two or more are stored as the
        list of arguments, which is also the reply. */
    method Values(args: seq<Value>) returns (r: S.Reply)
      modifies this`values
      ensures (State(), r) == S.Call(old(State()), S.Values, args)
    {
      if |args| == 0 {
        r := S.Returned(S.OrNil(values));
      } else if |args| == 1 {
        values := Some(args[0]);
        r := S.Self;
      } else {
        values := Some(List(args));
        r := S.Returned(List(args));
      }
    }

    method Subdivide(args: seq<Value>) returns (r: S.Reply)
      modifies this`subdivide
      ensures (State(), r) == S.Call(old(State()), S.Subdivide, args)
    {
      if |args| == 0 {
        r := S.Returned(S.OrNil(subdivide));
      } else if |args| == 1 {
        var n := ToI(args[0]);
        if n.Ok? {
          subdivide := Some(Int(n.value));
          r := S.Self;
        } else {
          r := S.Raised(n.error);
        }
      } else {
        r := S.Raised(ArgumentError);
      }
    }

    // The next six setters end with the assignment, so they reply with the
    // stored integer rather than with the axis.

    method TickPadding(args: seq<Value>) returns (r: S.Reply)
      modifies this`tickPadding
      ensures (State(), r) == S.Call(old(State()), S.TickPadding, args)
    {
      if |args| == 0 {
        r := S.Returned(S.OrNil(tickPadding));
      } else if |args| == 1 {
        var n := ToI(args[0]);
        if n.Ok? {
          tickPadding := Some(Int(n.value));
          r := S.Returned(Int(n.value));
        } else {
          r := S.Raised(n.error);
        }
      } else {
        r := S.Raised(ArgumentError);
      }
    }

    method TickSize(args: seq<Value>) returns (r: S.Reply)
      modifies this`tickSize
      ensures (State(), r) == S.Call(old(State()), S.TickSize, args)
    {
      if |args| == 0 {
        r := S.Returned(S.OrNil(tickSize));
      } else if |args| == 1 {
        var n := ToI(args[0]);
        if n.Ok? {
          tickSize := Some(Int(n.value));
          r := S.Returned(Int(n.value));
        } else {
          r := S.Raised(n.error);
        }
      } else {
        r := S.Raised(ArgumentError);
      }
    }

    method TickSizeMajor(args: seq<Value>) returns (r: S.Reply)
      modifies this`tickSizeMajor
      ensures (State(), r) == S.Call(old(State()), S.TickSizeMajor, args)
    {
      if |args| == 0 {
        r := S.Returned(S.OrNil(tickSizeMajor));
      } else if |args| == 1 {
        var n := ToI(args[0]);
        if n.Ok? {
          tickSizeMajor := Some(Int(n.value));
          r := S.Returned(Int(n.value));
        } else {
          r := S.Raised(n.error);
        }
      } else {
        r := S.Raised(ArgumentError);
      }
    }

    method TickSizeMinor(args: seq<Value>) returns (r: S.Reply)
      modifies this`tickSizeMinor
      ensures (State(), r) == S.Call(old(State()), S.TickSizeMinor, args)
    {
      if |args| == 0 {
        r := S.Returned(S.OrNil(tickSizeMinor));
      } else if |args| == 1 {
        var n := ToI(args[0]);
        if n.Ok? {
          tickSizeMinor := Some(Int(n.value));
          r := S.Returned(Int(n.value));
        } else {
          r := S.Raised(n.error);
        }
      } else {
        r := S.Raised(ArgumentError);
      }
    }

    method TickSizeEnd(args: seq<Value>) returns (r: S.Reply)
      modifies this`tickSizeEnd
      ensures (State(), r) == S.Call(old(State()), S.TickSizeEnd, args)
    {
      if |args| == 0 {
        r := S.Returned(S.OrNil(tickSizeEnd));
      } else if |args| == 1 {
        var n := ToI(args[0]);
        if n.Ok? {
          tickSizeEnd := Some(Int(n.value));
          r := S.Returned(Int(n.value));
        } else {
          r := S.Raised(n.error);
        }
      } else {
        r := S.Raised(ArgumentError);
      }
    }

    method Offset(args: seq<Value>) returns (r: S.Reply)
      modifies this`offset
      ensures (State(), r) == S.Call(old(State()), S.Offset, args)
    {
      if |args| == 0 {
        r := S.Returned(S.OrNil(offset));
      } else if |args| == 1 {
        var n := ToI(args[0]);
        if n.Ok? {
          offset := Some(Int(n.value));
          r := S.Returned(Int(n.value));
        } else {
          r := S.Raised(n.error);
        }
      } else {
        r := S.Raised(ArgumentError);
      }
    }

    method Layer(args: seq<Value>) returns (r: S.Reply)
      modifies this`layer
      ensures (State(), r) == S.Call(old(State()), S.Layer, args)
    {
      if |args| == 0 {
        r := S.Returned(S.OrNil(layer));
      } else if |args| == 1 {
        var sym := ToSym(args[0]);
        if sym.Ok? {
          layer := Some(sym.value);
          r := S.Self;
        } else {
          r := S.Raised(sym.error);
        }
      } else {
        r := S.Raised(ArgumentError);
      }
    }

    /** `grid` takes no argument: it switches the grid on. */
    method Grid() returns (r: S.Reply)
      modifies this`grid
      ensures (State(), r) == S.Call(old(State()), S.Grid, [])
    {
      grid := Some(Bool(true));
      r := S.Self;
    }

    /** `grid?` takes no argument and changes nothing. */
    method GridQuery() returns (r: S.Reply)
      ensures (State(), r) == S.Call(State(), S.GridQuery, [])
    {
      r := S.Returned(S.OrNil(grid));
    }

    /** The plain `properties` reader. */
    method Properties() returns (r: S.Reply)
      ensures (State(), r) == S.Call(State(), S.Properties, [])
    {
      r := S.Returned(S.OrNil(properties));
    }

    /** A plain `attr_accessor` writer such as `type=`: assigns its argument
        as it is and replies with it. `layer` is not on the `attr_accessor`
        list, so there is no `layer=`. */
    method Write(f: S.Field, v: Value) returns (r: S.Reply)
      requires f != S.LayerVar
      modifies this
      ensures State() == S.Assign(old(State()), f, v)
      ensures r == S.Returned(v)
    {
      r := S.Returned(v);
      match f
      case TypeVar => axisType := Some(v);
      case ScaleVar => scale := Some(v);
      case OrientVar => orient := Some(v);
      case FormatVar => format := Some(v);
      case TicksVar => ticks := Some(v);
      case ValuesVar => values := Some(v);
      case SubdivideVar => subdivide := Some(v);
      case TickPaddingVar => tickPadding := Some(v);
      case TickSizeVar => tickSize := Some(v);
      case TickSizeMajorVar => tickSizeMajor := Some(v);
      case TickSizeMinorVar => tickSizeMinor := Some(v);
      case TickSizeEndVar => tickSizeEnd := Some(v);
      case OffsetVar => offset := Some(v);
      case PropertiesVar => properties := Some(v);
      case TitleVar => title := Some(v);
      case TitleOffsetVar => titleOffset := Some(v);
      case GridVar => grid := Some(v);
    }

    /** `method_missing`: the shorthand names, tried in order; the explicit
        arguments are ignored. */
    method MethodMissing(name: string) returns (r: S.Reply)
      modifies this
      ensures (State(), r) == S.MethodMissing(old(State()), name)
    {
      match ParseShorthand(name)
      case Some(InTicks(d)) =>
        r := Ticks([Int(StringToInt(d))]);
      case Some(SubdivideBy(d)) =>
        r := Subdivide([Int(StringToInt(d))]);
      case Some(AtOrient(w)) =>
        r := Orient([Sym(w)]);
      case Some(AtLayer(w)) =>
        r := Layer([Sym(w)]);
      case None =>
        r := S.Raised(NoMethodError);
    }

    /** Calls method `m` with `args`; the argument-count check that Ruby
        makes for the fixed-arity methods happens here. */
    method Invoke(m: S.Method, args: seq<Value>) returns (r: S.Reply)
      requires m.Writer? ==> m.f != S.LayerVar
      modifies this
      ensures (State(), r) == S.Call(old(State()), m, args)
    {
      match m
      case Type => r := Type(args);
      case Scale => r := Scale(args);
      case Orient => r := Orient(args);
      case Title => r := Title(args);
      case TitleOffset => r := TitleOffset(args);
      case Format => r := Format(args);
      case Ticks => r := Ticks(args);
      case Values => r := Values(args);
      case Subdivide => r := Subdivide(args);
      case TickPadding => r := TickPadding(args);
      case TickSize => r := TickSize(args);
      case TickSizeMajor => r := TickSizeMajor(args);
      case TickSizeMinor => r := TickSizeMinor(args);
      case TickSizeEnd => r := TickSizeEnd(args);
      case Offset => r := Offset(args);
      case Layer => r := Layer(args);
      case Grid =>
        if |args| == 0 { r := Grid(); } else { r := S.Raised(ArgumentError); }
      case GridQuery =>
        if |args| == 0 { r := GridQuery(); } else { r := S.Raised(ArgumentError); }
      case Properties =>
        if |args| == 0 { r := Properties(); } else { r := S.Raised(ArgumentError); }
      case Writer(f) =>
        if |args| == 1 { r := Write(f, args[0]); } else { r := S.Raised(ArgumentError); }
    }

    /** Sends the message `name` with `args`: a defined method or alias
        runs, any other name goes to `method_missing`. */
    method Send(name: string, args: seq<Value>) returns (r: S.Reply)
      modifies this
      ensures (State(), r) == S.Send(old(State()), name, args)
    {
      match S.Resolve(name)
      case Some(m) =>
        r := Invoke(m, args);
      case None =>
        r := MethodMissing(name);
    }
  }
}
