/** Numbers as the handlers compute them: conversion of a JSON value to a
    string (ECMA-262 section 7.1.17, ToString), `Number.parseInt` called without
    a radix (ECMA-262 section 19.2.5) and `Math.max(0, x)`. */
module JsNumber {
  import opened Wrappers
  import opened Radix
  import opened Js

  /** A JavaScript number as the handlers can produce it: an integer or NaN. */
  datatype Number = Int(i: int) | NaN

  /** Number::toString for an integral value (of magnitude below 10^21). */
  function NumberToString(n: int): string
  {
    if n < 0 then "-" + DecimalString(-n) else DecimalString(n)
  }

  /** The JSON values whose conversion to a primitive raises a TypeError: an
      object with an own `toString` property (a JSON value, hence not callable,
      while the inherited `valueOf` returns the object itself), or an array
      holding such a value at any depth. */
  ghost predicate Unconvertible(v: Json)
  {
    match v
    case JObj(m) => "toString" in m
    case JArr(a) => exists i | 0 <= i < |a| :: Unconvertible(a[i])
    case _ => false
  }

  /** `Array.prototype.join` with the separator ",", over the conversions of
      the elements; the first TypeError raised propagates. */
  function Join(parts: seq<Eval<string>>): (r: Eval<string>)
    ensures r.TypeError? <==> exists i | 0 <= i < |parts| :: parts[i].TypeError?
  {
    if parts == [] then Ok("")
    else if parts[0].TypeError? then TypeError
    else if |parts| == 1 then parts[0]
    else
      match Join(parts[1..])
      case TypeError => TypeError
      case Ok(rest) => Ok(parts[0].value + "," + rest)
  }

  /** ToString of a JSON value. Inside an array, null elements become "". */
  function ToString(v: Json): (r: Eval<string>)
    ensures r.TypeError? <==> Unconvertible(v)
    ensures v.JStr? ==> r == Ok(v.s)
    ensures v.JNum? ==> r == Ok(NumberToString(v.n))
  {
    match v
    case JNull => Ok("null")
    case JBool(b) => Ok(if b then "true" else "false")
    case JNum(n) => Ok(NumberToString(n))
    case JStr(s) => Ok(s)
    case JArr(a) =>
      var parts := seq(|a|, i requires 0 <= i < |a| => if a[i].JNull? then Ok("") else ToString(a[i]));
      assert forall i | 0 <= i < |a| :: parts[i].TypeError? <==> Unconvertible(a[i]);
      Join(parts)
    case JObj(m) => if "toString" in m then TypeError else Ok("[object Object]")
  }

  /** StrWhiteSpaceChar: the WhiteSpace and LineTerminator code points
      (ECMA-262 sections 7.1.4.1, 12.2 and 12.3; Zs is the Unicode space
      separator category). */
  predicate IsStrWhiteSpace(c: char)
  {
    || c == '\t' || c == '\U{B}' || c == '\U{C}' || c == '\U{FEFF}'
    || c == ' ' || c == '\U{A0}' || c == '\U{1680}' || ('\U{2000}' <= c <= '\U{200A}')
    || c == '\U{202F}' || c == '\U{205F}' || c == '\U{3000}'
    || c == '\n' || c == '\r' || c == '\U{2028}' || c == '\U{2029}'
  }

  /** Step 2 of parseInt: drop the leading white space. */
  function TrimStart(s: string): (t: string)
    ensures |t| <= |s| && t == s[|s| - |t|..]
    ensures t == [] || !IsStrWhiteSpace(t[0])
    ensures forall i | 0 <= i < |s| - |t| :: IsStrWhiteSpace(s[i])
  {
    if s != [] && IsStrWhiteSpace(s[0]) then TrimStart(s[1..]) else s
  }

  /** Step 10 of parseInt: the longest prefix made of digits of `radix`. */
  function DigitPrefix(s: string, radix: nat): (z: string)
    requires radix == 10 || radix == 16
    ensures z <= s && AllDigits(z, radix)
    ensures |z| < |s| ==> !IsDigit(s[|z|], radix)
  {
    if s != [] && IsDigit(s[0], radix) then [s[0]] + DigitPrefix(s[1..], radix) else []
  }

  /** Steps 9 to 12 of parseInt, after the sign: a "0x" or "0X" prefix
      switches to radix 16; the longest run of digits is read; no digit at
      all is NaN (`None`). */
  function ReadMagnitude(u: string): (m: Option<nat>)
    ensures (u == [] || !IsDigit(u[0], 10)) ==> m == None
  {
    if |u| >= 2 && u[0] == '0' && (u[1] == 'x' || u[1] == 'X') then
      var z := DigitPrefix(u[2..], 16);
      if z == [] then None else Some(ValueOf(z, 16))
    else
      var z := DigitPrefix(u, 10);
      if z == [] then None else Some(ValueOf(z, 10))
  }

  /** Steps 3 to 14 of parseInt on a string whose leading white space is
      gone: an optional sign, then the magnitude. */
  function ParseSigned(t: string): Number
  {
    var negative := t != [] && t[0] == '-';
    var u := if t != [] && (t[0] == '+' || t[0] == '-') then t[1..] else t;
    match ReadMagnitude(u)
    case None => NaN
    case Some(m) => Int(if negative then -(m as int) else m)
  }

  /** `Number.parseInt(s)` with an undefined radix. "-0" gives -0, which is
      the integer 0 here. An integer result needs a decimal digit somewhere
      in the input: a "0x" prefix needs its 0, and every other number needs
      its digits. */
  function ParseInt(s: string): (r: Number)
    ensures r.Int? ==> exists i | 0 <= i < |s| :: IsDigit(s[i], 10)
  {
    var t := TrimStart(s);
    var u := if t != [] && (t[0] == '+' || t[0] == '-') then t[1..] else t;
    assert u != [] ==> u[0] == s[|s| - |u|];
    ParseSigned(t)
  }

  /** `Math.max(0, x)`: NaN stays NaN, a negative value becomes 0. */
  function MaxZero(x: Number): (r: Number)
    ensures r.NaN? <==> x.NaN?
    ensures r.Int? ==> r.i >= 0 && r.i >= x.i && (r.i == x.i || r.i == 0)
  {
    match x
    case NaN => NaN
    case Int(n) => Int(if n < 0 then 0 else n)
  }

  /** A string made only of decimal digits is its own digit prefix. */
  lemma {:induction false} DigitPrefixOfDigits(ds: string, rest: string)
    requires AllDigits(ds, 10)
    requires rest == [] || !IsDigit(rest[0], 10)
    ensures DigitPrefix(ds + rest, 10) == ds
  {
    if ds != [] {
      assert (ds + rest)[1..] == ds[1..] + rest;
      DigitPrefixOfDigits(ds[1..], rest);
    } else {
      assert ds + rest == rest;
    }
  }

  /** parseInt reads the decimal rendering of `n` at the head of a string and
      stops at the first character that is not a digit (a leading "0x" would
      instead switch to radix 16, hence the second requirement). */
  lemma ParseIntReadsLeadingDigits(negative: bool, n: nat, rest: string)
    requires rest == [] || !IsDigit(rest[0], 10)
    requires n == 0 ==> rest == [] || (rest[0] != 'x' && rest[0] != 'X')
    ensures ParseInt((if negative then "-" else "") + DecimalString(n) + rest)
            == Int(if negative then -(n as int) else n)
  {
    var d := DecimalString(n);
    var u := d + rest;
    ReadMagnitudeOfDecimal(n, rest);
    assert IsDigit(u[0], 10) by { assert u[0] == d[0]; }
    if negative {
      assert "-" + d + rest == ['-'] + u;
      ParseIntNegative(u, n);
    } else {
      assert "" + d + rest == u;
      ParseIntUnsigned(u, n);
    }
  }

  lemma ParseIntNegative(u: string, n: nat)
    requires ReadMagnitude(u) == Some(n)
    ensures ParseInt(['-'] + u) == Int(-(n as int))
  {
    var s := ['-'] + u;
    assert s[1..] == u;
    assert s[0] == '-' && !IsStrWhiteSpace(s[0]);
    assert TrimStart(s) == s;
    assert ParseSigned(s) == Int(-(n as int));
  }

  lemma ParseIntUnsigned(u: string, n: nat)
    requires ReadMagnitude(u) == Some(n)
    requires IsDigit(u[0], 10)
    ensures ParseInt(u) == Int(n)
  {
    assert !IsStrWhiteSpace(u[0]) && u[0] != '-' && u[0] != '+' by {
      assert '0' <= u[0] <= '9';
    }
    assert TrimStart(u) == u;
    assert ParseSigned(u) == Int(n);
  }

  /** The magnitude read from a decimal rendering followed by a non-digit. */
  lemma ReadMagnitudeOfDecimal(n: nat, rest: string)
    requires rest == [] || !IsDigit(rest[0], 10)
    requires n == 0 ==> rest == [] || (rest[0] != 'x' && rest[0] != 'X')
    ensures ReadMagnitude(DecimalString(n) + rest) == Some(n)
  {
    var d := DecimalString(n);
    var u := d + rest;
    if |u| >= 2 && u[0] == '0' {
      assert d == "0" && u[1] == rest[0];
    }
    DigitPrefixOfDigits(d, rest);
    ValueOfDecimalString(n);
  }

  /** Reading back Number::toString of an integer gives the integer. */
  lemma ParseIntOfNumberString(n: int)
    ensures ParseInt(NumberToString(n)) == Int(n)
  {
    var m: nat := if n < 0 then -n else n;
    ParseIntReadsLeadingDigits(n < 0, m, "");
    assert NumberToString(n) == (if n < 0 then "-" else "") + DecimalString(m) + "";
  }

  /** Leading white space does not change what parseInt reads. */
  lemma {:induction false} ParseIntSkipsWhiteSpace(w: string, s: string)
    requires forall i | 0 <= i < |w| :: IsStrWhiteSpace(w[i])
    ensures ParseInt(w + s) == ParseInt(s)
  {
    TrimStartSkipsWhiteSpace(w, s);
  }

  lemma {:induction false} TrimStartSkipsWhiteSpace(w: string, s: string)
    requires forall i | 0 <= i < |w| :: IsStrWhiteSpace(w[i])
    ensures TrimStart(w + s) == TrimStart(s)
  {
    if w != [] {
      assert (w + s)[1..] == w[1..] + s;
      TrimStartSkipsWhiteSpace(w[1..], s);
    } else {
      assert w + s == s;
    }
  }

  /** What parseInt makes of the conversion of an integer, a boolean, an
      object, or a string without digits. */
  lemma ParseIntOfConversion(v: Json, s: string)
    requires ToString(v) == Ok(s)
    ensures v.JNum? ==> ParseInt(s) == Int(v.n)
    ensures v.JStr? && (forall i | 0 <= i < |v.s| :: !IsDigit(v.s[i], 10)) ==> ParseInt(s) == NaN
    ensures v.JBool? || v.JObj? ==> ParseInt(s) == NaN
  {
    match v
    case JNum(n) => ParseIntOfNumberString(n);
    case JStr(_) =>
    case JBool(b) => ParseIntOfWord(s);
    case JObj(_) => ParseIntOfWord(s);
    case _ =>
  }

  /** The conversions of booleans and plain objects hold no digit. */
  lemma ParseIntOfWord(s: string)
    requires s == "true" || s == "false" || s == "[object Object]"
    ensures ParseInt(s) == NaN
  {
    assert forall i | 0 <= i < |s| :: !IsDigit(s[i], 10);
  }

  /** A count field: `Math.max(0, Number.parseInt(v))`. Converting `v` may raise
      a TypeError; a value with no leading digits gives NaN (not 0); an
      integer gives itself clamped at 0. */
  function CountOf(v: Json): (r: Eval<Number>)
    ensures r.TypeError? <==> Unconvertible(v)
    ensures r.Ok? && r.value.Int? ==> r.value.i >= 0
    ensures v.JNum? ==> r == Ok(Int(if v.n < 0 then 0 else v.n))
    ensures v.JStr? && (forall i | 0 <= i < |v.s| :: !IsDigit(v.s[i], 10)) ==> r == Ok(NaN)
    ensures v.JBool? || (v.JObj? && "toString" !in v.fields) ==> r == Ok(NaN)
  {
    match ToString(v)
    case TypeError => TypeError
    case Ok(s) =>
      ParseIntOfConversion(v, s);
      Ok(MaxZero(ParseInt(s)))
  }

  /** A count chain `Math.max(0, Number.parseInt(a || b || "0"))`: 0 when
      neither source is truthy, and a non-zero integer in the first source
      gives itself clamped at 0. */
  lemma CountChainDefaults(a: Option<Json>, b: Option<Json>, n: int)
    ensures !Truthy(a) && !Truthy(b) ==> CountOf(FirstTruthy([a, b], JStr("0"))) == Ok(Int(0))
    ensures a == Some(JNum(n)) && n != 0 ==>
              CountOf(FirstTruthy([a, b], JStr("0"))) == Ok(Int(if n < 0 then 0 else n))
  {
    if !Truthy(a) && !Truthy(b) {
      assert FirstTruthy([a, b], JStr("0")) == JStr("0") by {
        assert [a, b][1..] == [b] && [b][1..] == [];
        assert FirstTruthy([b], JStr("0")) == FirstTruthy([], JStr("0"));
      }
      assert CountOf(JStr("0")) == Ok(Int(0)) by {
        CountOfDecimalString(0);
        assert DecimalString(0) == "0";
      }
    }
    if a == Some(JNum(n)) && n != 0 {
      assert FirstTruthy([a, b], JStr("0")) == JNum(n);
    }
  }

  /** The decimal rendering of a count, as a string, counts as itself. */
  lemma CountOfDecimalString(n: nat)
    ensures CountOf(JStr(DecimalString(n))) == Ok(Int(n))
  {
    var d := DecimalString(n);
    assert ParseInt(d) == Int(n) by {
      ParseIntReadsLeadingDigits(false, n, "");
      assert "" + d + "" == d;
    }
    CountOfString(d);
  }

  /** A string source is parsed as it is. */
  lemma CountOfString(s: string)
    ensures CountOf(JStr(s)) == Ok(MaxZero(ParseInt(s)))
  {
    assert ToString(JStr(s)) == Ok(s);
  }
}
