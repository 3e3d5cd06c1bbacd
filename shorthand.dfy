/** The method-name shorthand that `Axis#method_missing` understands
    (lib/plotrb/axes.rb:270-283): a name is matched, in order, against four
    regular expressions, and the first one that matches decides which setter
    runs with the captured text `$1`.

    Ruby's `^` and `$` anchor at line boundaries, not at the ends of the
    string, so a pattern matches a name when it matches one whole line of
    it; the capture comes from the first such line. */
module Shorthand {
  import opened RubyValues

  /** A recognised shorthand: which pattern matched, with its capture `$1`. */
  datatype Cmd =
    | InTicks(digits: string)       // /^in_(\d+)_ticks$/
    | SubdivideBy(digits: string)   // /^subdivide_by_(\d+)$/
    | AtOrient(side: string)        // /^at_(top|bottom|left|right)$/
    | AtLayer(depth: string)        // /^at_(front|back)$/

  const Sides: set<string> := {"top", "bottom", "left", "right"}
  const Depths: set<string> := {"front", "back"}

  // ----- lines -----

  /** The lines of `s`, split at each newline. */
  function Lines(s: string): (ls: seq<string>)
    ensures |ls| >= 1
    ensures forall i :: 0 <= i < |ls| ==> '\n' !in ls[i]
    ensures Joined(ls) == s
  {
    if |s| == 0 then [""]
    else
      var rest := Lines(s[1..]);
      if s[0] == '\n' then
        assert Joined([""] + rest) == "\n" + Joined(rest) by {
          assert ([""] + rest)[1..] == rest;
        }
        [""] + rest
      else
        var ls := [[s[0]] + rest[0]] + rest[1..];
        assert Joined(ls) == [s[0]] + Joined(rest) by {
          if |rest| > 1 {
            assert ls[1..] == rest[1..];
          }
        }
        ls
  }

  /** The inverse of `Lines`: the lines put back together with newlines. */
  function Joined(ls: seq<string>): string
    requires |ls| >= 1
  {
    if |ls| == 1 then ls[0] else ls[0] + "\n" + Joined(ls[1..])
  }

  // ----- the four patterns, on one line -----

  /** `$1` when `line` is `in_<digits>_ticks`. */
  function TicksCapture(line: string): Option<string> {
    if |line| >= 10 && line[..3] == "in_" && line[|line| - 6..] == "_ticks"
       && IsDigitRun(line[3..|line| - 6])
    then Some(line[3..|line| - 6])
    else None
  }

  /** `$1` when `line` is `subdivide_by_<digits>`. */
  function SubdivideCapture(line: string): Option<string> {
    if |line| >= 14 && line[..13] == "subdivide_by_" && IsDigitRun(line[13..])
    then Some(line[13..])
    else None
  }

  /** `$1` when `line` is `at_` followed by one of the four sides. */
  function SideCapture(line: string): Option<string> {
    if |line| >= 3 && line[..3] == "at_" && line[3..] in Sides then Some(line[3..]) else None
  }

  /** `$1` when `line` is `at_front` or `at_back`. */
  function DepthCapture(line: string): Option<string> {
    if |line| >= 3 && line[..3] == "at_" && line[3..] in Depths then Some(line[3..]) else None
  }

  /** The four patterns of `method_missing`, in the order they are tried. */
  datatype Pattern = TicksPattern | SubdividePattern | SidePattern | DepthPattern

  /** `$1` when pattern `p` matches the whole of `line`. */
  function Capture(p: Pattern, line: string): Option<string> {
    match p
    case TicksPattern => TicksCapture(line)
    case SubdividePattern => SubdivideCapture(line)
    case SidePattern => SideCapture(line)
    case DepthPattern => DepthCapture(line)
  }

  /** The capture from the first line that `p` matches: the leftmost match
      of a line-anchored pattern. */
  function FirstCapture(ls: seq<string>, p: Pattern): (r: Option<string>)
    ensures r.None? <==> forall i :: 0 <= i < |ls| ==> Capture(p, ls[i]).None?
  {
    if |ls| == 0 then None
    else if Capture(p, ls[0]).Some? then Capture(p, ls[0])
    else
      assert forall i :: 1 <= i < |ls| ==> ls[i] == ls[1..][i - 1];
      FirstCapture(ls[1..], p)
  }

  /** No pattern matches `line`. */
  predicate Unmatched(line: string) {
    Capture(TicksPattern, line).None? && Capture(SubdividePattern, line).None?
    && Capture(SidePattern, line).None? && Capture(DepthPattern, line).None?
  }

  /** No line of a name matches any pattern. */
  predicate NoLineMatches(ls: seq<string>) {
    forall i :: 0 <= i < |ls| ==> Unmatched(ls[i])
  }

  /** The `case method.to_s when ...` of `method_missing`: the patterns are
      tried in order over the whole name; `None` is the fall-through to `super`. */
  function ParseShorthand(name: string): (r: Option<Cmd>)
    ensures r.None? <==> NoLineMatches(Lines(name))
  {
    var ls := Lines(name);
    match FirstCapture(ls, TicksPattern)
    case Some(d) => MatchedLine(ls, TicksPattern); Some(InTicks(d))
    case None =>
      match FirstCapture(ls, SubdividePattern)
      case Some(d) => MatchedLine(ls, SubdividePattern); Some(SubdivideBy(d))
      case None =>
        match FirstCapture(ls, SidePattern)
        case Some(w) => MatchedLine(ls, SidePattern); Some(AtOrient(w))
        case None =>
          match FirstCapture(ls, DepthPattern)
          case Some(w) => MatchedLine(ls, DepthPattern); Some(AtLayer(w))
          case None => None
  }

  /** A pattern that captures on some line leaves that line matched. */
  lemma MatchedLine(ls: seq<string>, p: Pattern)
    requires FirstCapture(ls, p).Some?
    ensures !NoLineMatches(ls)
  {
    var i :| 0 <= i < |ls| && Capture(p, ls[i]).Some?;
    assert !Unmatched(ls[i]);
  }

  /** `FirstCapture` reports the capture of the first line that `p` matches. */
  lemma {:induction false} FirstCaptureIsLeftmost(ls: seq<string>, p: Pattern)
    requires FirstCapture(ls, p).Some?
    ensures exists i :: 0 <= i < |ls| && Capture(p, ls[i]) == FirstCapture(ls, p)
                        && forall j :: 0 <= j < i ==> Capture(p, ls[j]).None?
  {
    if Capture(p, ls[0]).None? {
      FirstCaptureIsLeftmost(ls[1..], p);
      var k :| 0 <= k < |ls[1..]| && Capture(p, ls[1..][k]) == FirstCapture(ls[1..], p)
               && forall j :: 0 <= j < k ==> Capture(p, ls[1..][j]).None?;
      assert Capture(p, ls[k + 1]) == FirstCapture(ls, p);
      assert forall j :: 1 <= j < k + 1 ==> ls[j] == ls[1..][j - 1];
    }
  }

  // ----- the printer that ParseShorthand inverts -----

  /** A command whose capture is one the pattern can produce. */
  predicate ValidCmd(c: Cmd) {
    match c
    case InTicks(d) => IsDigitRun(d)
    case SubdivideBy(d) => IsDigitRun(d)
    case AtOrient(w) => w in Sides
    case AtLayer(w) => w in Depths
  }

  /** The one-line method name that spells `c`. */
  function ShorthandName(c: Cmd): string {
    match c
    case InTicks(d) => "in_" + d + "_ticks"
    case SubdivideBy(d) => "subdivide_by_" + d
    case AtOrient(w) => "at_" + w
    case AtLayer(w) => "at_" + w
  }

  // ----- lemmas -----

  /** A name without a newline is a single line. */
  lemma SingleLine(name: string)
    requires '\n' !in name
    ensures Lines(name) == [name]
  {
  }

  /** `in_<d>_ticks` is one line that only the first pattern matches. */
  lemma TicksNameCaptures(d: string)
    requires IsDigitRun(d)
    ensures var line := "in_" + d + "_ticks";
            '\n' !in line && TicksCapture(line) == Some(d) && SubdivideCapture(line).None?
            && SideCapture(line).None? && DepthCapture(line).None?
  {
    var line := "in_" + d + "_ticks";
    assert line[..3] == "in_" && line[|line| - 6..] == "_ticks" && line[3..|line| - 6] == d;
    forall i | 0 <= i < |line| ensures line[i] != '\n' {
      if 3 <= i < |line| - 6 { assert line[i] == d[i - 3] && IsDigit(d[i - 3]); }
    }
    assert line[0] == 'i';
  }

  /** `subdivide_by_<d>` is one line that only the second pattern matches. */
  lemma SubdivideNameCaptures(d: string)
    requires IsDigitRun(d)
    ensures var line := "subdivide_by_" + d;
            '\n' !in line && TicksCapture(line).None? && SubdivideCapture(line) == Some(d)
            && SideCapture(line).None? && DepthCapture(line).None?
  {
    var line := "subdivide_by_" + d;
    assert line[..13] == "subdivide_by_" && line[13..] == d;
    forall i | 0 <= i < |line| ensures line[i] != '\n' {
      if 13 <= i { assert line[i] == d[i - 13] && IsDigit(d[i - 13]); }
    }
    assert line[0] == 's';
  }

  /** `at_<side>` matches the third pattern and neither earlier one. */
  lemma SideNameCaptures(w: string)
    requires w in Sides
    ensures var line := "at_" + w;
            '\n' !in line && TicksCapture(line).None? && SubdivideCapture(line).None?
            && SideCapture(line) == Some(w)
  {
    var line := "at_" + w;
    assert line[..3] == "at_" && line[3..] == w;
    assert line[0] == 'a';
  }

  /** `at_<depth>` matches the fourth pattern and none before it. */
  lemma DepthNameCaptures(w: string)
    requires w in Depths
    ensures var line := "at_" + w;
            '\n' !in line && TicksCapture(line).None? && SubdivideCapture(line).None?
            && SideCapture(line).None? && DepthCapture(line) == Some(w)
  {
    var line := "at_" + w;
    assert line[..3] == "at_" && line[3..] == w;
    assert line[0] == 'a';
  }

  /** Parsing the name a command prints gives the command back. */
  lemma ParseShorthandName(c: Cmd)
    requires ValidCmd(c)
    ensures ParseShorthand(ShorthandName(c)) == Some(c)
  {
    match c
    case InTicks(d) => TicksNameCaptures(d);
    case SubdivideBy(d) => SubdivideNameCaptures(d);
    case AtOrient(w) => SideNameCaptures(w);
    case AtLayer(w) => DepthNameCaptures(w);
    SingleLine(ShorthandName(c));
  }

  /** On a one-line name, the four patterns are tried on the name itself. */
  lemma OneLineParse(name: string)
    requires '\n' !in name
    ensures ParseShorthand(name) ==
      if TicksCapture(name).Some? then Some(InTicks(TicksCapture(name).value))
      else if SubdivideCapture(name).Some? then Some(SubdivideBy(SubdivideCapture(name).value))
      else if SideCapture(name).Some? then Some(AtOrient(SideCapture(name).value))
      else if DepthCapture(name).Some? then Some(AtLayer(DepthCapture(name).value))
      else None
  {
    SingleLine(name);
  }

  /** A line the first pattern accepts is `in_<$1>_ticks`. */
  lemma TicksCaptureSpells(line: string)
    requires TicksCapture(line).Some?
    ensures var d := TicksCapture(line).value;
            IsDigitRun(d) && line == "in_" + d + "_ticks"
  {
    assert line == line[..3] + line[3..|line| - 6] + line[|line| - 6..];
  }

  /** A line the second pattern accepts is `subdivide_by_<$1>`. */
  lemma SubdivideCaptureSpells(line: string)
    requires SubdivideCapture(line).Some?
    ensures var d := SubdivideCapture(line).value;
            IsDigitRun(d) && line == "subdivide_by_" + d
  {
    assert line == line[..13] + line[13..];
  }

  /** A line the third or fourth pattern accepts is `at_<$1>`. */
  lemma AtCaptureSpells(line: string)
    requires SideCapture(line).Some? || DepthCapture(line).Some?
    ensures SideCapture(line).Some? ==> SideCapture(line).value in Sides && line == "at_" + SideCapture(line).value
    ensures DepthCapture(line).Some? ==> DepthCapture(line).value in Depths && line == "at_" + DepthCapture(line).value
  {
    assert line == line[..3] + line[3..];
  }

  /** On a one-line name, a recognised shorthand is exactly the printed
      form of a valid command: the converse of `ParseShorthandName`. */
  lemma ParsedNameIsPrinted(name: string)
    requires '\n' !in name && ParseShorthand(name).Some?
    ensures var c := ParseShorthand(name).value;
            ValidCmd(c) && name == ShorthandName(c)
  {
    OneLineParse(name);
    if TicksCapture(name).Some? {
      TicksCaptureSpells(name);
    } else if SubdivideCapture(name).Some? {
      SubdivideCaptureSpells(name);
    } else {
      AtCaptureSpells(name);
    }
  }

  /** Splitting after a first line that holds no newline. */
  lemma {:induction false} LinesAfterFirst(a: string, b: string)
    requires '\n' !in a
    ensures Lines(a + "\n" + b) == [a] + Lines(b)
  {
    var s := a + "\n" + b;
    if |a| == 0 {
      assert s[1..] == b;
    } else {
      LinesAfterFirst(a[1..], b);
      assert s[1..] == a[1..] + "\n" + b;
      assert s[0] == a[0] != '\n';
      assert [a[0]] + a[1..] == a;
    }
  }

  /** A name made of two lines. */
  lemma TwoLines(first: string, second: string)
    requires '\n' !in first && '\n' !in second
    ensures Lines(first + "\n" + second) == [first, second]
  {
    LinesAfterFirst(first, second);
    SingleLine(second);
  }

  /** The anchors are per line: a pattern also matches a later line of the
      name when no pattern matches the first. */
  lemma LaterLineMatches(first: string, w: string)
    requires '\n' !in first && Unmatched(first) && w in Sides
    ensures ParseShorthand(first + "\n" + "at_" + w) == Some(AtOrient(w))
  {
    var line := "at_" + w;
    assert first + "\n" + "at_" + w == first + "\n" + line;
    SideNameCaptures(w);
    TwoLines(first, line);
    var ls := Lines(first + "\n" + line);
    assert ls[0] == first && ls[1..] == [line];
    assert FirstCapture(ls, TicksPattern).None?;
    assert FirstCapture(ls, SubdividePattern).None?;
    assert FirstCapture(ls[1..], SidePattern) == Some(w);
    assert FirstCapture(ls, SidePattern) == Some(w);
  }

  /** The patterns are tried in order over the whole name: `in_<d>_ticks` on
      a second line wins over a first line that a later pattern matches
      (for instance `at_back`). */
  lemma EarlierPatternWins(first: string, d: string)
    requires '\n' !in first && TicksCapture(first).None? && IsDigitRun(d)
    ensures ParseShorthand(first + "\n" + "in_" + d + "_ticks") == Some(InTicks(d))
  {
    var line := "in_" + d + "_ticks";
    assert first + "\n" + "in_" + d + "_ticks" == first + "\n" + line;
    TicksNameCaptures(d);
    TwoLines(first, line);
    var ls := Lines(first + "\n" + line);
    assert ls[0] == first && ls[1..] == [line];
    assert FirstCapture(ls[1..], TicksPattern) == Some(d);
    assert FirstCapture(ls, TicksPattern) == Some(d);
  }
}
