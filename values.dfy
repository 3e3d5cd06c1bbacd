/** Ruby values as the Axis builder sees them, and the two coercions its
    setters apply to an argument: `to_i` and `to_sym`. */
module RubyValues {

  datatype Option<+T> = None | Some(value: T)

  /** The exceptions an Axis call can raise. */
  datatype Error =
    | ArgumentError   // wrong number of arguments, or a scale that is neither a Scale nor a String
    | NoMethodError   // an unknown method name, or `to_i`/`to_sym` sent to an object without it

  datatype Coerced<+T> = Ok(value: T) | Fails(error: Error)

  /** The objects a caller passes to the builder. A `Plotrb::Scale` is seen
      only through its name; a Ruby Symbol is kept apart from a String. */
  datatype Value =
    | Nil
    | Bool(b: bool)
    | Int(i: int)
    | Str(s: string)
    | Sym(name: string)
    | List(items: seq<Value>)
    | ScaleObj(scaleName: string)

  // ----- decimal digits -----

  predicate IsDigit(c: char) { '0' <= c <= '9' }

  /** A non-empty run of ASCII digits: what the regular expression `\d+` matches. */
  predicate IsDigitRun(d: string) {
    |d| >= 1 && forall i :: 0 <= i < |d| ==> IsDigit(d[i])
  }

  /** The value of a string of digits read in base 10 (0 for the empty string). */
  function DigitsValue(d: string): (n: nat)
    requires forall i :: 0 <= i < |d| ==> IsDigit(d[i])
  {
    if |d| == 0 then 0
    else
      assert IsDigit(d[|d| - 1]);
      10 * DigitsValue(d[..|d| - 1]) + (d[|d| - 1] as int - '0' as int)
  }

  /** The shortest decimal spelling of `n`, the way Ruby's `Integer#to_s` writes it. */
  function Decimal(n: nat): (d: string)
    ensures IsDigitRun(d) && DigitsValue(d) == n
    ensures d[0] != '0' || n == 0
  {
    var last := [(('0' as int) + n % 10) as char];
    if n < 10 then last
    else
      var prefix := Decimal(n / 10);
      assert (prefix + last)[..|prefix|] == prefix;
      prefix + last
  }

  // ----- String#to_i -----

  /** The whitespace `String#to_i` skips before the number. */
  predicate IsSpace(c: char) {
    c == ' ' || c == '\t' || c == '\n' || c == '\U{B}' || c == '\U{C}' || c == '\r'
  }

  function SkipSpace(t: string): (u: string)
    ensures |u| <= |t| && u == t[|t| - |u|..]
    ensures |u| == 0 || !IsSpace(u[0])
  {
    if |t| > 0 && IsSpace(t[0]) then SkipSpace(t[1..]) else t
  }

  /** The digits of the numeral at the start of `t`, with the single
      underscores Ruby allows between two digits dropped; the numeral ends
      at the first other character. */
  function NumeralDigits(t: string): (d: string)
    ensures forall i :: 0 <= i < |d| ==> IsDigit(d[i])
    ensures |d| <= |t|
  {
    if |t| == 0 || !IsDigit(t[0]) then []
    else if |t| >= 3 && t[1] == '_' && IsDigit(t[2]) then [t[0]] + NumeralDigits(t[2..])
    else [t[0]] + NumeralDigits(t[1..])
  }

  /** `String#to_i` in base 10: leading whitespace, an optional sign, an
      optional `0d`/`0D` radix prefix, then the numeral; a string with no
      numeral there gives 0. */
  function StringToInt(t: string): (r: int)
    ensures |t| > 0 && !IsSpace(t[0]) && !IsDigit(t[0]) && t[0] != '-' && t[0] != '+' ==> r == 0
    ensures IsDigitRun(t) ==> r == DigitsValue(t)
    ensures |t| >= 2 && t[0] == '-' && IsDigitRun(t[1..]) ==> r == -(DigitsValue(t[1..]) as int)
    ensures |t| >= 3 && t[0] == '0' && (t[1] == 'd' || t[1] == 'D') && IsDigitRun(t[2..]) ==> r == DigitsValue(t[2..])
  {
    if |t| > 0 && IsSpace(t[0]) then SignedNumeral(SkipSpace(t))
    else
      assert SkipSpace(t) == t;
      SignedNumeralCases(t);
      SignedNumeral(t)
  }

  /** The number at the start of `u`: an optional sign, then the numeral. */
  function SignedNumeral(u: string): int {
    if |u| > 0 && u[0] == '-' then -(Unsigned(u[1..]) as int)
    else if |u| > 0 && u[0] == '+' then Unsigned(u[1..])
    else Unsigned(u)
  }

  /** The value of the numeral after the sign, past an optional `0d` prefix. */
  function Unsigned(u: string): nat {
    if |u| >= 2 && u[0] == '0' && (u[1] == 'd' || u[1] == 'D') then DigitsValue(NumeralDigits(u[2..]))
    else DigitsValue(NumeralDigits(u))
  }

  /** `to_i` sent to an argument: integers stay, `nil` is 0, strings are
      parsed, and every other kind of object has no `to_i`. */
  function ToI(v: Value): (r: Coerced<int>)
    ensures r.Ok? <==> (v.Int? || v.Nil? || v.Str?)
    ensures v.Int? ==> r == Ok(v.i)
    ensures v.Nil? ==> r == Ok(0)
    ensures !r.Ok? ==> r == Fails(NoMethodError)
  {
    match v
    case Int(i) => Ok(i)
    case Nil => Ok(0)
    case Str(t) => Ok(StringToInt(t))
    case _ => Fails(NoMethodError)
  }

  /** `to_sym` sent to an argument: a String becomes the Symbol of the same
      name, a Symbol is itself, and nothing else has `to_sym`. */
  function ToSym(v: Value): (r: Coerced<Value>)
    ensures r.Ok? <==> (v.Str? || v.Sym?)
    ensures r.Ok? ==> r.value.Sym? && r.value.name == (if v.Str? then v.s else v.name)
    ensures !r.Ok? ==> r == Fails(NoMethodError)
  {
    match v
    case Str(t) => Ok(Sym(t))
    case Sym(t) => Ok(Sym(t))
    case _ => Fails(NoMethodError)
  }

  // ----- lemmas -----

  /** What `SignedNumeral` reads from a string that starts with something
      other than a digit or sign, from a digit run, from one behind a `-` or
      a `+`, and from one behind a `0d` prefix. */
  lemma SignedNumeralCases(t: string)
    ensures |t| > 0 && !IsDigit(t[0]) && t[0] != '-' && t[0] != '+' ==> SignedNumeral(t) == 0
    ensures IsDigitRun(t) ==> SignedNumeral(t) == DigitsValue(t)
    ensures |t| >= 2 && t[0] == '-' && IsDigitRun(t[1..]) ==> SignedNumeral(t) == -(DigitsValue(t[1..]) as int)
    ensures |t| >= 2 && t[0] == '+' && IsDigitRun(t[1..]) ==> SignedNumeral(t) == DigitsValue(t[1..])
    ensures |t| >= 3 && t[0] == '0' && (t[1] == 'd' || t[1] == 'D') && IsDigitRun(t[2..])
            ==> SignedNumeral(t) == DigitsValue(t[2..])
  {
    if IsDigitRun(t) { UnsignedRun(t); }
    if |t| >= 2 && (t[0] == '-' || t[0] == '+') && IsDigitRun(t[1..]) { UnsignedRun(t[1..]); }
    if |t| >= 3 && t[0] == '0' && (t[1] == 'd' || t[1] == 'D') && IsDigitRun(t[2..]) {
      NumeralOfDigitRun(t[2..]);
    }
  }

  lemma UnsignedRun(d: string)
    requires IsDigitRun(d)
    ensures Unsigned(d) == DigitsValue(d)
  {
    NumeralOfDigitRun(d);
    if |d| >= 2 { assert IsDigit(d[1]); }
  }

  lemma {:induction false} NumeralOfDigitRun(d: string)
    requires forall i :: 0 <= i < |d| ==> IsDigit(d[i])
    ensures NumeralDigits(d) == d
  {
    if |d| > 0 {
      NumeralOfDigitRun(d[1..]);
    }
  }

  /** `n.to_s.to_i == n` for every natural number. */
  lemma DecimalToInt(n: nat)
    ensures StringToInt(Decimal(n)) == n
  {
  }
}
