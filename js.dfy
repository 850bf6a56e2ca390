/** The JavaScript values the application inspects at run time, and the two number
    conversions it relies on: `Number(s)` and `parseInt(s, 10)`. */
module Js {
  import opened Strings
  import opened Opt

  /** A JavaScript number: a finite value, NaN, or an infinity. */
  datatype Number = Finite(v: real) | NaN | Infinity(negative: bool)

  /** A value of unknown type, as it reaches a function typed `unknown` or read from a request. */
  datatype Value = Undefined | Null | Bool(b: bool) | Num(n: Number) | Str(s: string) | Object

  /** Number.isInteger(n). */
  predicate IsInteger(n: Number) {
    n.Finite? && n.v.Floor as real == n.v
  }

  /** 2^1024 - 2^970: a literal of this magnitude or more rounds to an infinity in double
      precision. */
  const OverflowThreshold: nat :=
    179769313486231580793728971405303415079934132710037826936173778980444968292764750946649017977587207096330286416692887910946555547851940402630657488671505820681908902000708383676273854845817711531764475730270069855571366959622842914819860834936475292719074168444365510704342711559699508093042880177904174497792

  /** The number a literal of exact value v denotes: an infinity past the overflow threshold,
      otherwise v itself (rounding to 53 bits is not modelled). */
  function FromReal(v: real): (n: Number)
    ensures n.Finite? <==> -(OverflowThreshold as real) < v < OverflowThreshold as real
    ensures n.Finite? ==> n.v == v
    ensures n.Infinity? ==> (n.negative <==> v < 0.0)
  {
    if v >= OverflowThreshold as real then Infinity(false)
    else if v <= -(OverflowThreshold as real) then Infinity(true)
    else Finite(v)
  }

  /** The value is a positive integer number (`Number.isInteger(n) && n > 0`). */
  predicate IsPositiveInteger(n: Number) {
    IsInteger(n) && n.v > 0.0
  }

  /** JavaScript truthiness: false for undefined, null, false, 0, NaN and "". */
  predicate Truthy(x: Value) {
    match x
    case Undefined => false
    case Null => false
    case Bool(b) => b
    case Num(n) => !n.NaN? && !(n.Finite? && n.v == 0.0)
    case Str(s) => s != []
    case Object => true
  }

  predicate IsDigit(c: char) {
    '0' <= c <= '9'
  }

  predicate AllDigits(s: string) {
    forall i :: 0 <= i < |s| ==> IsDigit(s[i])
  }

  /** The value of a string of decimal digits (0 for the empty string). */
  function DigitsValue(s: string): nat
    requires AllDigits(s)
  {
    if s == [] then 0 else DigitsValue(s[..|s| - 1]) * 10 + (s[|s| - 1] as int - '0' as int)
  }

  function Pow10(n: nat): (r: nat)
    ensures r >= 1
  {
    if n == 0 then 1 else 10 * Pow10(n - 1)
  }

  /** The index of the first occurrence of c in s. */
  function IndexOf(s: string, c: char): (r: Option<nat>)
    ensures r.Some? ==> r.value < |s| && s[r.value] == c
    ensures r.Some? ==> forall i :: 0 <= i < r.value ==> s[i] != c
    ensures r.None? ==> forall i :: 0 <= i < |s| ==> s[i] != c
  {
    if s == [] then None
    else if s[0] == c then Some(0)
    else match IndexOf(s[1..], c)
      case None => None
      case Some(k) => Some(k + 1)
  }

  /** An unsigned decimal literal `digits [. digits]` or `. digits`, with at least one digit. */
  function UnsignedDecimal(u: string): Option<real> {
    match IndexOf(u, '.')
    case None =>
      if u != [] && AllDigits(u) then Some(DigitsValue(u) as real) else None
    case Some(k) =>
      var whole, frac := u[..k], u[k + 1..];
      if |whole| + |frac| > 0 && AllDigits(whole) && AllDigits(frac)
      then Some(DigitsValue(whole) as real + DigitsValue(frac) as real / Pow10(|frac|) as real)
      else None
  }

  /** The index of the first exponent marker, `e` or `E`. */
  function ExponentMarker(s: string): (r: Option<nat>)
    ensures r.Some? ==> r.value < |s| && (s[r.value] == 'e' || s[r.value] == 'E')
    ensures r.Some? ==> forall i :: 0 <= i < r.value ==> s[i] != 'e' && s[i] != 'E'
    ensures r.None? ==> forall i :: 0 <= i < |s| ==> s[i] != 'e' && s[i] != 'E'
  {
    if s == [] then None
    else if s[0] == 'e' || s[0] == 'E' then Some(0)
    else match ExponentMarker(s[1..])
      case None => None
      case Some(k) => Some(k + 1)
  }

  /** A decimal exponent: an optional sign and at least one digit. */
  function Exponent(x: string): Option<int> {
    var negative := x != [] && x[0] == '-';
    var d := if x != [] && (x[0] == '-' || x[0] == '+') then x[1..] else x;
    if d != [] && AllDigits(d) then
      var m: int := DigitsValue(d);
      Some(if negative then -m else m)
    else None
  }

  /** An unsigned decimal literal with an optional exponent part: `m`, or `m e x` scaled by
      ten to the x. */
  function DecimalLiteral(u: string): Option<real> {
    match ExponentMarker(u)
    case None => UnsignedDecimal(u)
    case Some(k) =>
      var m, x := UnsignedDecimal(u[..k]), Exponent(u[k + 1..]);
      if m.Some? && x.Some? then Some(Scale(m.value, x.value)) else None
  }

  /** m times ten to the x. */
  function Scale(m: real, x: int): real {
    if x >= 0 then m * Pow10(x) as real else m / Pow10(-x) as real
  }

  /** The base a radix prefix letter selects: `x` 16, `o` 8, `b` 2, either case. */
  function RadixOf(c: char): Option<nat> {
    if c == 'x' || c == 'X' then Some(16)
    else if c == 'o' || c == 'O' then Some(8)
    else if c == 'b' || c == 'B' then Some(2)
    else None
  }

  /** The value of a digit or letter as a digit of bases up to 16. */
  function DigitOf(c: char): nat {
    if '0' <= c <= '9' then c as nat - '0' as nat
    else if 'a' <= c <= 'f' then c as nat - 'a' as nat + 10
    else if 'A' <= c <= 'F' then c as nat - 'A' as nat + 10
    else 16
  }

  predicate AllRadixDigits(s: string, radix: nat) {
    forall i :: 0 <= i < |s| ==> DigitOf(s[i]) < radix
  }

  /** The value of a string of digits in the given base. */
  function RadixValue(s: string, radix: nat): nat
    requires AllRadixDigits(s, radix)
  {
    if s == [] then 0 else RadixValue(s[..|s| - 1], radix) * radix + DigitOf(s[|s| - 1])
  }

  /** `0x`, `0o` or `0b` followed by at least one digit of that base; no sign is allowed. */
  function PrefixedInteger(t: string): Option<nat> {
    if |t| > 2 && t[0] == '0' && RadixOf(t[1]).Some? && AllRadixDigits(t[2..], RadixOf(t[1]).value)
    then Some(RadixValue(t[2..], RadixOf(t[1]).value))
    else None
  }

  /** `Number(s)`: white space is trimmed and the empty string is 0; a `0x`, `0o` or `0b`
      integer is read in its base; otherwise an optional sign is followed by `Infinity` or a
      decimal literal with an optional exponent; anything else is NaN. A value past the
      overflow threshold is an infinity. */
  function StringToNumber(s: string): Number {
    var t := Trim(s);
    if t == [] then Finite(0.0)
    else if PrefixedInteger(t).Some? then FromReal(PrefixedInteger(t).value as real)
    else
      var negative := t[0] == '-';
      var u := if t[0] == '-' || t[0] == '+' then t[1..] else t;
      if u == "Infinity" then Infinity(negative)
      else match DecimalLiteral(u)
        case None => NaN
        case Some(v) => FromReal(if negative then -v else v)
  }

  /** The longest prefix of s made of decimal digits. */
  function DigitPrefix(s: string): (r: string)
    ensures AllDigits(r) && |r| <= |s| && r == s[..|r|]
    ensures |r| < |s| ==> !IsDigit(s[|r|])
  {
    if s != [] && IsDigit(s[0]) then [s[0]] + DigitPrefix(s[1..]) else []
  }

  /** `parseInt(s, 10)`: leading white space is skipped, an optional sign read, and the longest
      run of digits that follows is the value, an infinity past the overflow threshold; without
      digits the result is NaN. */
  function ParseInt(s: string): (r: Number)
    ensures r.NaN? || IsInteger(r) || r.Infinity?
  {
    var t := TrimStart(s);
    var negative := t != [] && t[0] == '-';
    var u := if t != [] && (t[0] == '-' || t[0] == '+') then t[1..] else t;
    var d := DigitPrefix(u);
    if d == [] then NaN
    else
      var m: int := DigitsValue(d);
      var n: int := if negative then -m else m;
      FromReal(n as real)
  }

  /** A string of decimal digits converts with Number() to the number its value denotes. */
  lemma DigitsToNumber(d: string)
    requires d != [] && AllDigits(d)
    ensures StringToNumber(d) == FromReal(DigitsValue(d) as real)
  {
    DigitsTrimmed(d);
    DigitsDecimal(d);
    assert d != "Infinity" by {
      assert IsDigit(d[0]) && "Infinity"[0] == 'I';
    }
    assert d[0] != '-' && d[0] != '+';
  }

  /** Digits carry no white space to trim. */
  lemma DigitsTrimmed(d: string)
    requires AllDigits(d)
    ensures Trim(d) == d
  {
    if d != [] {
      assert !IsSpace(d[0]) && !IsSpace(d[|d| - 1]);
    }
    TrimPadded([], d, []);
    assert [] + d + [] == d;
  }

  /** Digits without a point or exponent are a decimal literal of their value, and carry no
      radix prefix. */
  lemma DigitsDecimal(d: string)
    requires d != [] && AllDigits(d)
    ensures UnsignedDecimal(d) == Some(DigitsValue(d) as real)
    ensures DecimalLiteral(d) == Some(DigitsValue(d) as real)
    ensures PrefixedInteger(d).None?
  {
    assert IndexOf(d, '.').None?;
    assert ExponentMarker(d).None?;
    if |d| > 2 {
      assert IsDigit(d[1]);
    }
  }

  /** parseInt reads a leading run of digits and ignores whatever follows it. */
  lemma {:induction false} DigitPrefixOfDigits(d: string, rest: string)
    requires AllDigits(d)
    requires rest == [] || !IsDigit(rest[0])
    ensures DigitPrefix(d + rest) == d
    decreases |d|
  {
    if d != [] {
      assert (d + rest)[1..] == d[1..] + rest;
      DigitPrefixOfDigits(d[1..], rest);
      assert d == [d[0]] + d[1..];
    } else {
      assert d + rest == rest;
    }
  }

  /** parseInt of a run of digits followed by anything that does not start with a digit. */
  lemma ParseIntLeadingDigits(d: string, rest: string)
    requires d != [] && AllDigits(d)
    requires rest == [] || !IsDigit(rest[0])
    ensures ParseInt(d + rest) == FromReal(DigitsValue(d) as real)
  {
    var s := d + rest;
    assert s[0] == d[0];
    DigitPrefixOfDigits(d, rest);
    ParseIntUnsigned(s);
  }

  /** A string that starts with a digit parses to the value of its leading digits. */
  lemma ParseIntUnsigned(s: string)
    requires s != [] && IsDigit(s[0])
    ensures ParseInt(s) == FromReal(DigitsValue(DigitPrefix(s)) as real)
  {
    assert !IsSpace(s[0]) && s[0] != '-' && s[0] != '+';
    assert TrimStart(s) == s;
  }

  /** A string whose ends are not white space is its own trim. */
  lemma UnpaddedTrimmed(t: string)
    requires t != [] && !IsSpace(t[0]) && !IsSpace(t[|t| - 1])
    ensures Trim(t) == t
  {
    TrimPadded([], t, []);
    assert [] + t + [] == t;
  }

  /** A radix-prefixed integer without surrounding white space converts to its value. */
  lemma PrefixedToNumber(t: string)
    requires PrefixedInteger(t).Some?
    ensures StringToNumber(t) == FromReal(PrefixedInteger(t).value as real)
  {
    UnpaddedTrimmed(t);
  }

  /** An unsigned decimal literal without surrounding white space or radix prefix converts
      to its value. */
  lemma DecimalToNumber(t: string, v: real)
    requires t != [] && IsDigit(t[0]) && !IsSpace(t[|t| - 1])
    requires PrefixedInteger(t).None? && DecimalLiteral(t) == Some(v)
    ensures StringToNumber(t) == FromReal(v)
  {
    UnpaddedTrimmed(t);
    assert t != "Infinity" by {
      assert "Infinity"[0] == 'I';
    }
  }

  lemma BinaryLiteral()
    ensures PrefixedInteger("0b101") == Some(5)
  {
    assert "0b101"[2..] == "101" && "101"[..2] == "10" && "10"[..1] == "1" && "1"[..0] == [];
  }

  lemma OctalLiteral()
    ensures PrefixedInteger("0o17") == Some(15)
  {
    assert "0o17"[2..] == "17" && "17"[..1] == "1" && "1"[..0] == [];
  }

  lemma HexLiteral()
    ensures PrefixedInteger("0x1F") == Some(31)
  {
    assert "0x1F"[2..] == "1F" && "1F"[..1] == "1" && "1"[..0] == [];
  }

  /** Number() reads the `0b`, `0o` and `0x` forms in base 2, 8 and 16. */
  lemma RadixLiterals()
    ensures StringToNumber("0b101") == Finite(5.0)
    ensures StringToNumber("0o17") == Finite(15.0)
    ensures StringToNumber("0x1F") == Finite(31.0)
  {
    BinaryLiteral();
    PrefixedToNumber("0b101");
    OctalLiteral();
    PrefixedToNumber("0o17");
    HexLiteral();
    PrefixedToNumber("0x1F");
  }

  /** A string with a non-digit second character and no point is not a decimal literal. */
  lemma NotDecimal(u: string)
    requires |u| >= 2 && !IsDigit(u[1])
    requires forall i :: 0 <= i < |u| ==> u[i] != '.'
    ensures UnsignedDecimal(u).None?
  {
  }

  /** A radix-prefixed integer is not a decimal literal, with or without exponent. */
  lemma PrefixedNotDecimal(t: string)
    requires PrefixedInteger(t).Some?
    ensures DecimalLiteral(t).None?
  {
    forall i | 0 <= i < |t| ensures t[i] != '.' {
      if i >= 2 {
        assert t[2..][i - 2] == t[i];
      }
    }
    match ExponentMarker(t)
    case None =>
      NotDecimal(t);
    case Some(k) =>
      var m := t[..k];
      assert k >= 2;
      assert m[1] == t[1];
      NotDecimal(m);
  }

  /** A sign before a radix prefix makes the string NaN: the prefixed forms take no sign. */
  lemma SignedPrefixedIsNaN(sign: char, t: string)
    requires sign == '-' || sign == '+'
    requires PrefixedInteger(t).Some? && !IsSpace(t[|t| - 1])
    ensures StringToNumber([sign] + t) == NaN
  {
    var s := [sign] + t;
    UnpaddedTrimmed(s);
    assert s[1..] == t;
    assert t != "Infinity" by {
      assert "Infinity"[0] == 'I';
    }
    PrefixedNotDecimal(t);
  }

  /** The first exponent marker after a run of digits is the one that follows them. */
  lemma {:induction false} ExponentMarkerAfterDigits(m: string, rest: string)
    requires AllDigits(m) && rest != [] && (rest[0] == 'e' || rest[0] == 'E')
    ensures ExponentMarker(m + rest) == Some(|m|)
  {
    var t := m + rest;
    assert t[|m|] == rest[0];
    assert forall i :: 0 <= i < |m| ==> t[i] == m[i];
    match ExponentMarker(t)
    case None =>
    case Some(k) =>
  }

  /** A run of digits, an exponent marker and an exponent form a decimal literal scaled by
      the exponent. */
  lemma DigitsWithExponent(m: string, x: string, e: int)
    requires m != [] && AllDigits(m) && Exponent(x) == Some(e)
    ensures DecimalLiteral(m + "e" + x) == Some(Scale(DigitsValue(m) as real, e))
  {
    var t := m + "e" + x;
    ExponentMarkerAfterDigits(m, "e" + x);
    assert t == m + ("e" + x);
    assert t[..|m|] == m && t[|m| + 1..] == x;
    DigitsDecimal(m);
  }

  /** Digits followed by an exponent carry no radix prefix. */
  lemma DigitsWithExponentUnprefixed(m: string, x: string)
    requires m != [] && AllDigits(m)
    ensures PrefixedInteger(m + "e" + x).None?
  {
    var t := m + "e" + x;
    if |t| > 2 {
      assert t[1] == 'e' || t[1] == m[1];
    }
  }

  /** `Number(m + "e" + x)`, for a run of digits m and an exponent x of value e (an optional
      sign and digits), is m scaled by ten to the e. */
  lemma DigitsWithExponentToNumber(m: string, x: string, e: int)
    requires m != [] && AllDigits(m) && Exponent(x) == Some(e)
    ensures StringToNumber(m + "e" + x) == FromReal(Scale(DigitsValue(m) as real, e))
  {
    DigitsWithExponent(m, x, e);
    DigitsWithExponentUnprefixed(m, x);
    var t := m + "e" + x;
    assert x != [];
    assert t[0] == m[0] && t[|t| - 1] == x[|x| - 1];
    assert !IsSpace(x[|x| - 1]);
    DecimalToNumber(t, Scale(DigitsValue(m) as real, e));
  }
}
