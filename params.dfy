// Schema-driven parameter validation of `BasePreprocessor.validate_parameters`:
// values are converted to the schema's type, numbers are range-checked (an
// out-of-range number is an error, never clamped), and keys the schema does
// not know are dropped.

module Params {
  import opened Wrappers
  import opened Text
  import Numeric

  /**
   * A parameter value as it arrives from a JSON request.  A float carries
   * the text Python's `str()` gives it, because the model's reals are exact
   * and have no rendering of their own.
   */
  datatype Value = VFloat(x: real, repr: string) | VInt(i: int) | VBool(b: bool) | VStr(s: string) | VNone

  /** The schema's `'type'` entry; any other name converts nothing. */
  datatype ParamType = FloatParam | IntParam | BoolParam | StrParam | OtherParam(name: string)

  /** One schema entry: `'type'` (absent means `'float'`), `'min'`, `'max'`. */
  datatype ParamSpec = ParamSpec(kind: Option<ParamType>, min: Option<real>, max: Option<real>)

  type Schema = map<string, ParamSpec>
  type Settings = map<string, Value>

  function KindOf(spec: ParamSpec): ParamType
  {
    spec.kind.UnwrapOr(FloatParam)
  }

  predicate AllDigits(s: string)
  {
    forall i :: 0 <= i < |s| ==> IsDigit(s[i])
  }

  /** `str(i)` for an integer. */
  function IntText(i: int): (s: string)
    ensures |s| > 0
  {
    if i < 0 then "-" + NatToString(-i) else NatToString(i)
  }

  // ---- Python's number grammar for `int(s)` and `float(s)` ---------------

  /** The ASCII white space `int()` and `float()` strip around a number. */
  predicate IsSpace(c: char)
  {
    c == ' ' || c == '\t' || c == '\n' || c == '\r' || c as int == 11 || c as int == 12
  }

  /** The text without its surrounding white space. */
  function Strip(s: string): (r: string)
    ensures |r| <= |s|
    ensures r != [] ==> !IsSpace(r[0]) && !IsSpace(r[|r| - 1])
    ensures s == [] || (!IsSpace(s[0]) && !IsSpace(s[|s| - 1])) ==> r == s
    decreases |s|
  {
    if s != [] && IsSpace(s[0]) then Strip(s[1..])
    else if s != [] && IsSpace(s[|s| - 1]) then Strip(s[..|s| - 1])
    else s
  }

  lemma {:induction false} StripAppendSpace(s: string, c: char)
    requires IsSpace(c)
    ensures Strip(s + [c]) == Strip(s)
    decreases |s|
  {
    if s != [] && IsSpace(s[0]) {
      assert (s + [c])[1..] == s[1..] + [c];
      StripAppendSpace(s[1..], c);
    } else if s != [] {
      assert (s + [c])[..|s|] == s;
    }
  }

  /**
   * Decimal digits in which single underscores may separate two digits
   * (PEP 515): no leading, trailing or doubled underscore.
   */
  predicate DigitPart(s: string)
  {
    |s| > 0 && IsDigit(s[0]) && forall i :: 0 <= i < |s| ==> DigitOrJoin(s, i)
  }

  /** Position `i` holds a digit, or an underscore followed by a digit. */
  predicate DigitOrJoin(s: string, i: nat)
    requires i < |s|
  {
    IsDigit(s[i]) || (s[i] == '_' && i + 1 < |s| && IsDigit(s[i + 1]))
  }

  /** A run of digits is a digit part and reads the same either way. */
  lemma DigitsAreDigitPart(s: string)
    ensures |s| > 0 && AllDigits(s) ==>
      DigitPart(s) && GroupValue(s) == DigitsValue(s) && Strip(s) == s && SplitSign(s) == (false, s)
  {
    if |s| > 0 && AllDigits(s) {
      assert forall i :: 0 <= i < |s| ==> DigitOrJoin(s, i);
      GroupValueOfDigits(s);
    }
  }

  /** The value of the digits of a digit part, its underscores ignored. */
  function GroupValue(s: string): nat
  {
    if s == [] then 0
    else if IsDigit(s[|s| - 1]) then GroupValue(s[..|s| - 1]) * 10 + (s[|s| - 1] as int - '0' as int)
    else GroupValue(s[..|s| - 1])
  }

  /** How many digits a digit part holds. */
  function DigitCount(s: string): nat
  {
    if s == [] then 0 else DigitCount(s[..|s| - 1]) + (if IsDigit(s[|s| - 1]) then 1 else 0)
  }

  lemma {:induction false} GroupValueOfDigits(s: string)
    requires AllDigits(s)
    ensures GroupValue(s) == DigitsValue(s)
    decreases |s|
  {
    if s != [] {
      GroupValueOfDigits(s[..|s| - 1]);
    }
  }

  function Pow10(n: nat): (r: nat)
    ensures r > 0
  {
    if n == 0 then 1 else 10 * Pow10(n - 1)
  }

  /** The first index holding `a` or `b`, or `|s|` when there is none. */
  function FirstOf(s: string, a: char, b: char): (k: nat)
    ensures k <= |s|
    ensures forall i :: 0 <= i < k ==> s[i] != a && s[i] != b
    ensures k < |s| ==> s[k] == a || s[k] == b
  {
    if s == [] then 0
    else if s[0] == a || s[0] == b then 0
    else 1 + FirstOf(s[1..], a, b)
  }

  /** The sign of a stripped number, and the text after it. */
  function SplitSign(t: string): (bool, string)
  {
    if |t| > 0 && (t[0] == '-' || t[0] == '+') then (t[0] == '-', t[1..]) else (false, t)
  }

  /** `int(s)` on a string: white space, an optional sign and a digit part. */
  function ParseInt(s: string): (r: Option<int>)
    ensures |s| > 0 && AllDigits(s) ==> r == Some(DigitsValue(s))
    ensures |Strip(s)| == 0 ==> r.None?
  {
    DigitsAreDigitPart(s);
    var sign := SplitSign(Strip(s));
    var neg, body := sign.0, sign.1;
    if DigitPart(body) then Some(if neg then -(GroupValue(body) as int) else GroupValue(body))
    else None
  }

  /** Parsing undoes printing: `int(str(i)) == i`. */
  lemma ParseIntOfIntText(i: int)
    ensures ParseInt(IntText(i)) == Some(i)
  {
    var n: nat := if i < 0 then -i else i;
    var d := NatToString(n);
    DigitsAreDigitPart(d);
    DigitsValueOfNatToString(n);
    if i < 0 {
      var t := IntText(i);
      assert t == "-" + d && t[1..] == d && t[|t| - 1] == d[|d| - 1];
      assert Strip(t) == t;
    }
  }

  /** White space before or after a number does not change what it parses to. */
  lemma ParseIntIgnoresSpace(s: string, c: char)
    requires IsSpace(c)
    ensures ParseInt([c] + s) == ParseInt(s) && ParseInt(s + [c]) == ParseInt(s)
  {
    assert ([c] + s)[1..] == s;
    assert !AllDigits([c] + s) && !AllDigits(s + [c]) by {
      assert ([c] + s)[0] == c && (s + [c])[|s|] == c;
    }
    StripAppendSpace(s, c);
    if |s| > 0 && AllDigits(s) {
      DigitsAreDigitPart(s);
    }
  }

  /** Underscores group digits: `int("1_000") == 1000`. */
  lemma ParseIntUnderscore()
    ensures ParseInt("1_000") == Some(1000)
  {
    var s := "1_000";
    assert Strip(s) == s && SplitSign(s) == (false, s);
    assert forall i :: 0 <= i < |s| ==> DigitOrJoin(s, i);
    assert s[..4] == "1_00" && "1_00"[..3] == "1_0" && "1_0"[..2] == "1_" && "1_"[..1] == "1" && "1"[..0] == "";
    assert GroupValue("1") == 1;
    assert GroupValue("1_") == 1;
    assert GroupValue("1_0") == 10;
    assert GroupValue("1_00") == 100;
    assert GroupValue(s) == 1000;
    assert !AllDigits(s) by { assert !IsDigit(s[1]); }
  }

  /** White space and a sign: `int(" -5 ") == -5`. */
  lemma ParseIntSpacedNegative()
    ensures ParseInt(" -5 ") == Some(-5)
  {
    ParseIntIgnoresSpace("-5 ", ' ');
    assert [' '] + "-5 " == " -5 ";
    ParseIntIgnoresSpace("-5", ' ');
    assert "-5" + [' '] == "-5 ";
    assert Strip("-5") == "-5" && SplitSign("-5").1 == "5";
    DigitsAreDigitPart("5");
  }

  /** `int()` refuses a point, a doubled underscore and a leading one. */
  lemma ParseIntRefuses()
    ensures ParseInt("0.5").None? && ParseInt("1__0").None? && ParseInt("_1").None?
  {
    assert Strip("0.5") == "0.5" && !DigitOrJoin("0.5", 1);
    assert Strip("1__0") == "1__0" && !DigitOrJoin("1__0", 1);
    assert Strip("_1") == "_1";
  }

  /** The value of an exponent: `e`, `e+` or `e-` followed by a digit part. */
  function ParseExponent(s: string): (r: Option<int>)
  {
    var sign := SplitSign(s);
    var neg, body := sign.0, sign.1;
    if DigitPart(body) then Some(if neg then -(GroupValue(body) as int) else GroupValue(body)) else None
  }

  /** `10 ** e` as an exact real. */
  function Scale(e: int): (r: real)
    ensures r > 0.0
  {
    if e >= 0 then Pow10(e) as real else 1.0 / (Pow10(-e) as real)
  }

  /**
   * The value of the digits of a mantissa: a digit part, or two with a
   * point between them of which one may be empty.
   */
  function ParseMantissa(m: string): (r: Option<real>)
  {
    var d := FirstOf(m, '.', '.');
    if d == |m| then (if DigitPart(m) then Some(GroupValue(m) as real) else None)
    else
      var ip := m[..d];
      var fp := m[d + 1..];
      if (ip == [] && fp == []) || (ip != [] && !DigitPart(ip)) || (fp != [] && !DigitPart(fp)) then None
      else Some(GroupValue(ip) as real + GroupValue(fp) as real / Pow10(DigitCount(fp)) as real)
  }

  /**
   * `float(s)` on a string that spells a finite number: white space, an
   * optional sign, a mantissa and an optional exponent.
   */
  function ParseFloat(s: string): (r: Option<real>)
    ensures |Strip(s)| == 0 ==> r.None?
  {
    ParseStrippedFloat(Strip(s))
  }

  /** A stripped float: an optional sign, a mantissa and an optional exponent. */
  function ParseStrippedFloat(t: string): (r: Option<real>)
    ensures t == [] ==> r.None?
  {
    var sign := SplitSign(t);
    var neg, body := sign.0, sign.1;
    var k := FirstOf(body, 'e', 'E');
    var mant := ParseMantissa(body[..k]);
    var exp := if k == |body| then Some(0) else ParseExponent(body[k + 1..]);
    if mant.None? || exp.None? then None
    else
      var x := mant.value * Scale(exp.value);
      Some(if neg then -x else x)
  }

  /** Every text `int()` accepts, `float()` accepts with the same value. */
  lemma ParseIntIsParseFloat(s: string)
    requires ParseInt(s).Some?
    ensures ParseFloat(s) == Some(ParseInt(s).value as real)
  {
    var sign := SplitSign(Strip(s));
    var neg, body := sign.0, sign.1;
    assert ParseInt(s) == (if DigitPart(body) then Some(if neg then -(GroupValue(body) as int) else GroupValue(body)) else None);
    assert DigitPart(body);
    forall i | 0 <= i < |body|
      ensures body[i] != 'e' && body[i] != 'E' && body[i] != '.'
    {
      assert DigitOrJoin(body, i);
    }
    var k := FirstOf(body, 'e', 'E');
    assert k == |body| && body[..k] == body;
    assert FirstOf(body, '.', '.') == |body|;
    assert ParseMantissa(body) == Some(GroupValue(body) as real);
    assert Scale(0) == 1.0;
  }

  /** White space before or after a float does not change what it parses to. */
  lemma ParseFloatIgnoresSpace(s: string, c: char)
    requires IsSpace(c)
    ensures ParseFloat([c] + s) == ParseFloat(s) && ParseFloat(s + [c]) == ParseFloat(s)
  {
    assert ([c] + s)[1..] == s;
    assert Strip([c] + s) == Strip(s);
    StripAppendSpace(s, c);
  }

  /** `float("0.5") == 0.5`. */
  lemma ParseFloatPoint()
    ensures ParseFloat("0.5") == Some(0.5)
  {
    var s := "0.5";
    assert Strip(s) == s && SplitSign(s) == (false, s);
    assert FirstOf(s, 'e', 'E') == 3 && s[..3] == s && FirstOf(s, '.', '.') == 1;
    assert s[..1] == "0" && s[2..] == "5";
    DigitsAreDigitPart("0");
    DigitsAreDigitPart("5");
    assert DigitCount("5") == 1;
  }

  /** `float(" 2.5 ") == 2.5`: white space around a float is stripped too. */
  lemma ParseFloatSpaced()
    ensures ParseFloat(" 2.5 ") == Some(2.5)
  {
    ParseFloatIgnoresSpace("2.5 ", ' ');
    assert [' '] + "2.5 " == " 2.5 ";
    ParseFloatIgnoresSpace("2.5", ' ');
    assert "2.5" + [' '] == "2.5 ";
    ParseStrippedPoint();
  }

  lemma ParseStrippedPoint()
    ensures ParseFloat("2.5") == Some(2.5)
  {
    var s := "2.5";
    assert Strip(s) == s && SplitSign(s) == (false, s);
    assert FirstOf(s, 'e', 'E') == 3 && s[..3] == s && FirstOf(s, '.', '.') == 1;
    assert s[..1] == "2" && s[2..] == "5";
    DigitsAreDigitPart("2");
    DigitsAreDigitPart("5");
    assert DigitCount("5") == 1;
  }

  /** `float("1e3") == 1000.0`. */
  lemma ParseFloatExponent()
    ensures ParseFloat("1e3") == Some(1000.0)
  {
    var s := "1e3";
    assert Strip(s) == s && SplitSign(s) == (false, s);
    assert FirstOf(s, 'e', 'E') == 1 && s[..1] == "1" && s[2..] == "3";
    assert FirstOf("1", '.', '.') == 1;
    DigitsAreDigitPart("1");
    DigitsAreDigitPart("3");
    assert Pow10(3) == 1000;
  }

  /** `float(".5e-1") == 0.05`: an empty integer part and a negative exponent. */
  lemma ParseFloatFraction()
    ensures ParseFloat(".5e-1") == Some(0.05)
  {
    var s := ".5e-1";
    assert Strip(s) == s && SplitSign(s) == (false, s);
    assert FirstOf(s, 'e', 'E') == 2 && s[..2] == ".5" && s[3..] == "-1";
    assert FirstOf(".5", '.', '.') == 0 && ".5"[..0] == "" && ".5"[1..] == "5";
    DigitsAreDigitPart("5");
    DigitsAreDigitPart("1");
    assert SplitSign("-1") == (true, "1");
    assert DigitCount("5") == 1;
  }

  /** `float("1.")` is accepted, `float(".")` and `float("e3")` are refused. */
  lemma ParseFloatEdges()
    ensures ParseFloat("1.").Some? && ParseFloat(".").None? && ParseFloat("e3").None?
  {
    assert Strip("1.") == "1." && SplitSign("1.") == (false, "1.");
    assert FirstOf("1.", 'e', 'E') == 2 && "1."[..2] == "1." && FirstOf("1.", '.', '.') == 1;
    assert "1."[..1] == "1" && "1."[2..] == "";
    DigitsAreDigitPart("1");
    assert Strip(".") == "." && SplitSign(".") == (false, ".");
    assert FirstOf(".", 'e', 'E') == 1 && "."[..1] == "." && FirstOf(".", '.', '.') == 0;
    assert "."[..0] == "" && "."[1..] == "";
    assert Strip("e3") == "e3" && SplitSign("e3") == (false, "e3");
    assert FirstOf("e3", 'e', 'E') == 0 && "e3"[..0] == "";
  }

  /** `float(n)` for a whole number `n`, printed as Python prints it. */
  function WholeFloat(n: int): (v: Value)
    ensures v.VFloat? && v.x == n as real
  {
    VFloat(n as real, IntText(n) + ".0")
  }

  /**
   * `float(value)`; `None` stands for the `ValueError`/`TypeError` it
   * raises.  A float read from a string keeps that text as its printed form.
   */
  function ToFloat(v: Value): (r: Option<Value>)
    ensures r.Some? ==> r.value.VFloat?
    ensures v.VFloat? ==> r == Some(v)
    ensures v.VInt? ==> r.Some? && r.value.x == v.i as real
    ensures v.VBool? ==> r.Some? && r.value.x == if v.b then 1.0 else 0.0
    ensures v.VStr? ==> (r.Some? <==> ParseFloat(v.s).Some?) && (r.Some? ==> r.value.x == ParseFloat(v.s).value)
    ensures v.VNone? ==> r.None?
  {
    match v
    case VFloat(_, _) => Some(v)
    case VInt(i) => Some(WholeFloat(i))
    case VBool(b) => Some(WholeFloat(if b then 1 else 0))
    case VStr(s) => (match ParseFloat(s) case Some(x) => Some(VFloat(x, Strip(s))) case None => None)
    case VNone => None
  }

  /** `int(value)`: floats truncate toward zero. */
  function ToInt(v: Value): (r: Option<Value>)
    ensures r.Some? ==> r.value.VInt?
    ensures v.VFloat? ==> r == Some(VInt(Numeric.Trunc(v.x)))
    ensures v.VInt? ==> r == Some(v)
    ensures v.VBool? ==> r == Some(VInt(if v.b then 1 else 0))
    ensures v.VStr? ==> (r.Some? <==> ParseInt(v.s).Some?) && (r.Some? ==> r.value.i == ParseInt(v.s).value)
    ensures v.VNone? ==> r.None?
  {
    match v
    case VFloat(x, _) => Some(VInt(Numeric.Trunc(x)))
    case VInt(_) => Some(v)
    case VBool(b) => Some(VInt(if b then 1 else 0))
    case VStr(s) => (match ParseInt(s) case Some(n) => Some(VInt(n)) case None => None)
    case VNone => None
  }

  /** The strings a `'bool'` parameter reads as true, compared lower-cased. */
  const TrueWords: set<string> := {"true", "1", "yes", "on"}

  /** `value.lower() in (...)` for a string, `bool(value)` otherwise. */
  function ToBool(v: Value): (r: Value)
    ensures r.VBool?
  {
    match v
    case VStr(s) => VBool(Lower(s) in TrueWords)
    case VBool(_) => v
    case VInt(i) => VBool(i != 0)
    case VFloat(x, _) => VBool(x != 0.0)
    case VNone => VBool(false)
  }

  /** `str(value)`. */
  function ToStr(v: Value): (r: Value)
    ensures r.VStr?
  {
    match v
    case VStr(_) => v
    case VInt(i) => VStr(IntText(i))
    case VBool(b) => VStr(if b then "True" else "False")
    case VFloat(_, repr) => VStr(repr)
    case VNone => VStr("None")
  }

  /** The number a converted `'float'` or `'int'` value compares as. */
  function Magnitude(v: Value): real
  {
    match v
    case VFloat(x, _) => x
    case VInt(i) => i as real
    case _ => 0.0
  }

  predicate InRange(spec: ParamSpec, x: real)
  {
    (spec.min.None? || x >= spec.min.value) && (spec.max.None? || x <= spec.max.value)
  }

  /** The type conversion the schema asks for, before any range check. */
  function Coerce(spec: ParamSpec, v: Value): Option<Value>
  {
    match KindOf(spec)
    case FloatParam => ToFloat(v)
    case IntParam => ToInt(v)
    case BoolParam => Some(ToBool(v))
    case StrParam => Some(ToStr(v))
    case OtherParam(_) => Some(v)
  }

  /**
   * Conversion plus range check of one provided value; `None` is the
   * `ParameterValidationError`.  A number outside `[min, max]` is rejected,
   * never moved into range, and only numeric types are range-checked.
   */
  function Convert(spec: ParamSpec, v: Value): (r: Option<Value>)
    ensures KindOf(spec) in {FloatParam, IntParam} ==>
      (r.Some? <==> Coerce(spec, v).Some? && InRange(spec, Magnitude(Coerce(spec, v).value)))
    ensures KindOf(spec) !in {FloatParam, IntParam} ==> r == Coerce(spec, v)
    ensures r.Some? ==> r == Coerce(spec, v)
  {
    var c := Coerce(spec, v);
    if c.Some? && KindOf(spec) in {FloatParam, IntParam} && !InRange(spec, Magnitude(c.value)) then None else c
  }

  /** A `'bool'` parameter given as a string is true exactly for the four words. */
  lemma BoolWords(spec: ParamSpec, s: string)
    requires KindOf(spec) == BoolParam
    ensures Convert(spec, VStr(s)) == Some(VBool(Lower(s) in TrueWords))
    ensures Convert(spec, VStr("YES")) == Some(VBool(true))
  {
    assert Lower("YES") == "yes";
  }

  /** A numeric schema entry with both bounds. */
  function Ranged(kind: ParamType, lo: real, hi: real): ParamSpec
  {
    ParamSpec(Some(kind), Some(lo), Some(hi))
  }

  /** Every default has a schema entry and passes it unchanged. */
  predicate ValidDefaults(schema: Schema, defaults: Settings)
  {
    forall k :: k in defaults ==> k in schema && Convert(schema[k], defaults[k]) == Some(defaults[k])
  }

  /** `dict.update` of a schema and its defaults keeps them valid when no old default is re-specified. */
  lemma ValidUnion(s1: Schema, d1: Settings, s2: Schema, d2: Settings)
    requires ValidDefaults(s1, d1) && ValidDefaults(s2, d2)
    requires d1.Keys !! s2.Keys
    ensures ValidDefaults(s1 + s2, d1 + d2)
  {
  }

  /**
   * `params.get(key, default)` read as a string, an integer, a number or a
   * flag.  Validated settings hold each schema key in its schema's kind, so
   * the default is taken only for keys the settings lack.
   */
  function StrOr(settings: Settings, key: string, dflt: string): string
  {
    if key in settings && settings[key].VStr? then settings[key].s else dflt
  }

  function IntOr(settings: Settings, key: string, dflt: int): int
  {
    if key in settings && settings[key].VInt? then settings[key].i else dflt
  }

  function RealOr(settings: Settings, key: string, dflt: real): real
  {
    if key in settings && settings[key].VFloat? then settings[key].x
    else if key in settings && settings[key].VInt? then settings[key].i as real
    else dflt
  }

  function BoolOr(settings: Settings, key: string, dflt: bool): bool
  {
    if key in settings && settings[key].VBool? then settings[key].b else dflt
  }

  /** The validation loop over the provided parameters, from `acc` onwards. */
  function ValidateFrom(schema: Schema, acc: Settings, params: seq<(string, Value)>): (r: Result<Settings, string>)
    ensures r.Success? ==> acc.Keys <= r.value.Keys
    decreases |params|
  {
    if params == [] then Success(acc)
    else
      var (k, v) := params[0];
      if k !in schema then ValidateFrom(schema, acc, params[1..])
      else match Convert(schema[k], v)
        case None => Failure(k)
        case Some(c) => ValidateFrom(schema, acc[k := c], params[1..])
  }

  /**
   * `validate_parameters`: the defaults, overridden by every provided key
   * the schema knows; a failed conversion names the offending key.
   */
  function Validate(schema: Schema, defaults: Settings, params: seq<(string, Value)>): Result<Settings, string>
  {
    ValidateFrom(schema, defaults, params)
  }

  function ProvidedKeys(params: seq<(string, Value)>): set<string>
  {
    set j | 0 <= j < |params| :: params[j].0
  }

  /** The provided key `k` is rejected by the schema's conversion. */
  predicate Rejected(schema: Schema, p: (string, Value))
  {
    p.0 in schema && Convert(schema[p.0], p.1).None?
  }

  lemma {:induction false} ValidateFromKeys(schema: Schema, acc: Settings, params: seq<(string, Value)>)
    requires ValidateFrom(schema, acc, params).Success?
    ensures ValidateFrom(schema, acc, params).value.Keys == acc.Keys + (ProvidedKeys(params) * schema.Keys)
    decreases |params|
  {
    if params != [] {
      var (k, v) := params[0];
      assert ProvidedKeys(params) == {k} + ProvidedKeys(params[1..]) by {
        forall x | x in ProvidedKeys(params) ensures x in {k} + ProvidedKeys(params[1..]) {
          var j :| 0 <= j < |params| && params[j].0 == x;
          if j > 0 { assert params[1..][j - 1] == params[j]; }
        }
        forall x | x in ProvidedKeys(params[1..]) ensures x in ProvidedKeys(params) {
          var j :| 0 <= j < |params[1..]| && params[1..][j].0 == x;
          assert params[j + 1] == params[1..][j];
        }
      }
      if k !in schema {
        ValidateFromKeys(schema, acc, params[1..]);
      } else {
        var c := Convert(schema[k], v).value;
        ValidateFromKeys(schema, acc[k := c], params[1..]);
      }
    }
  }

  /**
   * On success the result's keys are exactly the defaults plus the provided
   * keys the schema knows; unknown keys are dropped.
   */
  lemma ValidatedKeys(schema: Schema, defaults: Settings, params: seq<(string, Value)>)
    requires Validate(schema, defaults, params).Success?
    ensures Validate(schema, defaults, params).value.Keys == defaults.Keys + (ProvidedKeys(params) * schema.Keys)
  {
    ValidateFromKeys(schema, defaults, params);
  }

  /** Provided keys are distinct, as in a dictionary. */
  predicate DistinctKeys(params: seq<(string, Value)>)
  {
    forall i, j :: 0 <= i < j < |params| ==> params[i].0 != params[j].0
  }

  lemma {:induction false} ValidateFromValues(schema: Schema, acc: Settings, params: seq<(string, Value)>)
    requires DistinctKeys(params)
    requires ValidateFrom(schema, acc, params).Success?
    ensures forall j :: 0 <= j < |params| && params[j].0 in schema ==>
      params[j].0 in ValidateFrom(schema, acc, params).value &&
      Convert(schema[params[j].0], params[j].1) == Some(ValidateFrom(schema, acc, params).value[params[j].0])
    ensures forall k :: k in acc && k !in ProvidedKeys(params) * schema.Keys ==>
      k in ValidateFrom(schema, acc, params).value && ValidateFrom(schema, acc, params).value[k] == acc[k]
    decreases |params|
  {
    if params != [] {
      var (k, v) := params[0];
      var tail := params[1..];
      assert DistinctKeys(tail) by {
        forall i, j | 0 <= i < j < |tail| ensures tail[i].0 != tail[j].0 {
          assert tail[i] == params[i + 1] && tail[j] == params[j + 1];
        }
      }
      var r := ValidateFrom(schema, acc, params).value;
      var acc' := if k in schema then acc[k := Convert(schema[k], v).value] else acc;
      assert ValidateFrom(schema, acc, params) == ValidateFrom(schema, acc', tail);
      ValidateFromValues(schema, acc', tail);
      ValidateFromKeys(schema, acc', tail);
      assert k !in ProvidedKeys(tail) by {
        forall j | 0 <= j < |tail| ensures tail[j].0 != k {
          assert tail[j] == params[j + 1];
        }
      }
      forall j | 0 <= j < |params| && params[j].0 in schema
        ensures params[j].0 in r && Convert(schema[params[j].0], params[j].1) == Some(r[params[j].0])
      {
        if j > 0 {
          assert params[j] == tail[j - 1];
        }
      }
      forall x | x in acc && x !in ProvidedKeys(params) * schema.Keys
        ensures x in r && r[x] == acc[x]
      {
        assert params[0].0 in ProvidedKeys(params);
      }
    }
  }

  /**
   * On success every provided key the schema knows holds its converted
   * value, and every other default is kept as it was.
   */
  lemma ValidatedValues(schema: Schema, defaults: Settings, params: seq<(string, Value)>)
    requires DistinctKeys(params)
    requires Validate(schema, defaults, params).Success?
    ensures forall j :: 0 <= j < |params| && params[j].0 in schema ==>
      params[j].0 in Validate(schema, defaults, params).value &&
      Convert(schema[params[j].0], params[j].1) == Some(Validate(schema, defaults, params).value[params[j].0])
    ensures forall k :: k in defaults && k !in ProvidedKeys(params) * schema.Keys ==>
      k in Validate(schema, defaults, params).value && Validate(schema, defaults, params).value[k] == defaults[k]
  {
    ValidateFromValues(schema, defaults, params);
  }

  /**
   * Validation fails exactly when some provided key is rejected, and the
   * error names the first such key.
   */
  lemma {:induction false} ValidateFromFails(schema: Schema, acc: Settings, params: seq<(string, Value)>)
    ensures ValidateFrom(schema, acc, params).Failure? <==> exists j :: 0 <= j < |params| && Rejected(schema, params[j])
    ensures ValidateFrom(schema, acc, params).Failure? ==>
      exists j :: 0 <= j < |params| && Rejected(schema, params[j]) &&
        ValidateFrom(schema, acc, params).error == params[j].0 &&
        forall i :: 0 <= i < j ==> !Rejected(schema, params[i])
    decreases |params|
  {
    if params != [] {
      var (k, v) := params[0];
      var tail := params[1..];
      if Rejected(schema, params[0]) {
        assert ValidateFrom(schema, acc, params) == Failure(k);
      } else {
        var acc' := if k in schema then acc[k := Convert(schema[k], v).value] else acc;
        assert ValidateFrom(schema, acc, params) == ValidateFrom(schema, acc', tail);
        ValidateFromFails(schema, acc', tail);
        if exists j :: 0 <= j < |params| && Rejected(schema, params[j]) {
          var j :| 0 <= j < |params| && Rejected(schema, params[j]);
          assert j > 0 && tail[j - 1] == params[j];
        }
        if ValidateFrom(schema, acc', tail).Failure? {
          var j :| 0 <= j < |tail| && Rejected(schema, tail[j]) &&
            ValidateFrom(schema, acc', tail).error == tail[j].0 &&
            forall i :: 0 <= i < j ==> !Rejected(schema, tail[i]);
          assert tail[j] == params[j + 1];
          forall i | 0 <= i < j + 1 ensures !Rejected(schema, params[i]) {
            if i > 0 { assert params[i] == tail[i - 1]; }
          }
        }
      }
    }
  }

  lemma ValidateFails(schema: Schema, defaults: Settings, params: seq<(string, Value)>)
    ensures Validate(schema, defaults, params).Failure? <==> exists j :: 0 <= j < |params| && Rejected(schema, params[j])
    ensures Validate(schema, defaults, params).Failure? ==>
      exists j :: 0 <= j < |params| && Rejected(schema, params[j]) &&
        Validate(schema, defaults, params).error == params[j].0 &&
        forall i :: 0 <= i < j ==> !Rejected(schema, params[i])
  {
    ValidateFromFails(schema, defaults, params);
  }

  /** No parameters at all gives back exactly the defaults. */
  /**
   * Parameters the schema does not know are dropped without a trace: when
   * no provided key is in the schema, the result is exactly the defaults.
   */
  lemma {:induction false} UnknownKeysGiveDefaults(schema: Schema, defaults: Settings, params: seq<(string, Value)>)
    requires forall j | 0 <= j < |params| :: params[j].0 !in schema
    ensures Validate(schema, defaults, params) == Success(defaults)
    decreases |params|
  {
    if params != [] {
      assert forall j | 0 <= j < |params[1..]| :: params[1..][j] == params[j + 1];
      UnknownKeysGiveDefaults(schema, defaults, params[1..]);
    }
  }

  /**
   * The loop of `validate_parameters`: start from the defaults, then walk
   * the provided parameters in order, stopping at the first rejected one.
   */
  method ValidateParameters(schema: Schema, defaults: Settings, params: seq<(string, Value)>)
    returns (r: Result<Settings, string>)
    ensures r == Validate(schema, defaults, params)
  {
    var validated := defaults;
    var i := 0;
    while i < |params|
      invariant 0 <= i <= |params|
      invariant ValidateFrom(schema, defaults, params) == ValidateFrom(schema, validated, params[i..])
    {
      assert params[i..][1..] == params[i + 1..];
      var (name, value) := params[i];
      if name in schema {
        var converted := Convert(schema[name], value);
        if converted.None? {
          return Failure(name);
        }
        validated := validated[name := converted.value];
      }
      i := i + 1;
    }
    return Success(validated);
  }
}
