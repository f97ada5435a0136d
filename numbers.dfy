/**
 * JavaScript's `Number(text)` (the StringToNumber operation of ECMAScript, section 7.1.4.1.1
 * of ECMA-262) and the text a number turns into inside a template literal or a property key.
 *
 * Values are exact reals. A literal with more significant digits than a double holds keeps
 * its exact value here, and one beyond the double range stays finite instead of becoming
 * Infinity.
 */
module Numbers {
  import opened Wrappers
  import opened Text

  /** A number as JavaScript holds it: finite, one of the two infinities, or NaN. */
  datatype Number = Finite(x: real) | PosInfinity | NegInfinity | NaN

  /** `-n`. */
  function Negate(n: Number): Number {
    match n
    case Finite(x) => Finite(-x)
    case PosInfinity => NegInfinity
    case NegInfinity => PosInfinity
    case NaN => NaN
  }

  /** `a < b` on numbers that are not NaN. */
  predicate NumLess(a: Number, b: Number)
    requires !a.NaN? && !b.NaN?
  {
    match (a, b)
    case (Finite(x), Finite(y)) => x < y
    case (NegInfinity, _) => !b.NegInfinity?
    case (_, PosInfinity) => !a.PosInfinity?
    case _ => false
  }

  // ---------------------------------------------------------------------------
  // Digits
  // ---------------------------------------------------------------------------

  predicate IsDigit(c: char) {
    '0' <= c <= '9'
  }

  /** Every character is a decimal digit (the empty text included). */
  predicate Digits(s: string) {
    forall i :: 0 <= i < |s| ==> IsDigit(s[i])
  }

  /** The value of a decimal digit string; the empty string is 0. */
  function DecimalValue(s: string): nat
    requires Digits(s)
    decreases |s|
  {
    if s == [] then 0 else DecimalValue(s[..|s| - 1]) * 10 + (s[|s| - 1] as int - '0' as int)
  }

  /** The value of a hexadecimal digit in either case; 16 for any other character. */
  function HexDigitValue(c: char): nat {
    if '0' <= c <= '9' then c as int - '0' as int
    else if 'a' <= c <= 'f' then c as int - 'a' as int + 10
    else if 'A' <= c <= 'F' then c as int - 'A' as int + 10
    else 16
  }

  predicate InBase(c: char, base: nat) {
    HexDigitValue(c) < base
  }

  /** The value of a digit string in base 2, 8 or 16. */
  function RadixValue(s: string, base: nat): nat
    decreases |s|
  {
    if s == [] then 0 else RadixValue(s[..|s| - 1], base) * base + HexDigitValue(s[|s| - 1])
  }

  /** `m * 10^e`, one power of ten at a time. */
  function Scale(m: real, e: int): real
    decreases if e >= 0 then e else -e
  {
    if e == 0 then m
    else if e > 0 then Scale(m, e - 1) * 10.0
    else Scale(m, e + 1) / 10.0
  }

  // ---------------------------------------------------------------------------
  // StringToNumber
  // ---------------------------------------------------------------------------

  /** The index of the first `c` or `d` in `s`, or `|s|` when there is none. */
  function Find(s: string, c: char, d: char): (k: nat)
    ensures k <= |s|
    decreases |s|
  {
    if s == [] || s[0] == c || s[0] == d then 0 else 1 + Find(s[1..], c, d)
  }

  /** The text after an exponent marker: an optional sign and at least one digit. */
  function Exponent(s: string): Option<int> {
    if s != [] && (s[0] == '+' || s[0] == '-') then
      if |s| > 1 && Digits(s[1..]) then
        var e: int := DecimalValue(s[1..]);
        Some(if s[0] == '-' then -e else e)
      else None
    else if s != [] && Digits(s) then Some(DecimalValue(s))
    else None
  }

  /**
   * Digits with at most one decimal point and at least one digit: the value of all the
   * digits, and how many of them follow the point.
   */
  function Mantissa(m: string): Option<(nat, nat)> {
    var p := Find(m, '.', '.');
    var whole := m[..p];
    var fraction := if p == |m| then [] else m[p + 1..];
    if Digits(whole) && Digits(fraction) && |whole| + |fraction| > 0 then Some((DecimalValue(whole + fraction), |fraction|))
    else None
  }

  /** `t == "Infinity"`, compared character by character. */
  predicate IsInfinityText(t: string) {
    |t| == 8 && t[0] == 'I' && t[1] == 'n' && t[2] == 'f' && t[3] == 'i'
    && t[4] == 'n' && t[5] == 'i' && t[6] == 't' && t[7] == 'y'
  }

  /** StrUnsignedDecimalLiteral: `Infinity`, or a mantissa with an optional exponent. */
  function UnsignedDecimal(t: string): Option<Number> {
    if IsInfinityText(t) then Some(PosInfinity)
    else
      var k := Find(t, 'e', 'E');
      var exponent := if k == |t| then Some(0) else Exponent(t[k + 1..]);
      match (Mantissa(t[..k]), exponent)
      case (Some(m), Some(e)) => Some(Finite(Scale(m.0 as real, e - m.1)))
      case _ => None
  }

  /** The base a `0x`, `0o` or `0b` prefix names (either case), or 0 for none. */
  function PrefixBase(c: char): nat {
    if c == 'x' || c == 'X' then 16
    else if c == 'o' || c == 'O' then 8
    else if c == 'b' || c == 'B' then 2
    else 0
  }

  /** NonDecimalIntegerLiteral: a prefix and at least one digit of its base, with no sign. */
  function NonDecimal(t: string): Option<nat> {
    if |t| > 2 && t[0] == '0' && PrefixBase(t[1]) > 0
       && forall i :: 2 <= i < |t| ==> InBase(t[i], PrefixBase(t[1]))
    then Some(RadixValue(t[2..], PrefixBase(t[1])))
    else None
  }

  /**
   * `Number(s)`: white space around the literal is ignored and blank text is 0; a
   * prefixed binary, octal or hexadecimal literal takes no sign; a decimal literal (or
   * `Infinity`) may be signed; anything else is NaN.
   */
  function StringToNumber(s: string): Number {
    var t := Trim(s);
    if t == [] then Finite(0.0)
    else if NonDecimal(t).Some? then Finite(NonDecimal(t).value as real)
    else
      var signed := t[0] == '+' || t[0] == '-';
      match UnsignedDecimal(if signed then t[1..] else t)
      case None => NaN
      case Some(n) => if t[0] == '-' then Negate(n) else n
  }

  // ---------------------------------------------------------------------------
  // Number to text
  // ---------------------------------------------------------------------------

  /** Up to `places` decimal digits of a fraction in [0, 1), stopping when nothing is left. */
  function FractionDigits(f: real, places: nat): string
    requires 0.0 <= f < 1.0
    decreases places
  {
    if f == 0.0 || places == 0 then []
    else
      var d := (f * 10.0).Floor;
      [DigitChar(d)] + FractionDigits(f * 10.0 - d as real, places - 1)
  }

  const MaxFractionDigits: nat := 20

  /**
   * `${x}` for a finite number: an integer prints as its decimal digits; any other number
   * as its sign, its integer part, a point and its fraction digits.
   */
  function NumberText(x: real): string {
    if x == x.Floor as real then IntToString(x.Floor)
    else if x < 0.0 then "-" + FractionalText(-x)
    else FractionalText(x)
  }

  function FractionalText(x: real): string
    requires x >= 0.0
  {
    NatToString(x.Floor) + "." + FractionDigits(x - x.Floor as real, MaxFractionDigits)
  }

  // ---------------------------------------------------------------------------
  // Properties
  // ---------------------------------------------------------------------------

  /** `Find` passes over a prefix that holds neither character. */
  lemma {:induction false} FindSkips(a: string, b: string, c: char, d: char)
    requires forall j :: 0 <= j < |a| ==> a[j] != c && a[j] != d
    ensures Find(a + b, c, d) == |a| + Find(b, c, d)
    decreases |a|
  {
    if a != [] {
      assert (a + b)[1..] == a[1..] + b;
      FindSkips(a[1..], b, c, d);
    } else {
      assert a + b == b;
    }
  }

  /** `Find` stops at the first `c` or `d`. */
  lemma FindAt(s: string, k: nat, c: char, d: char)
    requires k < |s| && (s[k] == c || s[k] == d)
    requires forall j :: 0 <= j < k ==> s[j] != c && s[j] != d
    ensures Find(s, c, d) == k
  {
    var a, b := s[..k], s[k..];
    assert s == a + b;
    FindSkips(a, b, c, d);
  }

  lemma FindNone(s: string, c: char, d: char)
    requires forall j :: 0 <= j < |s| ==> s[j] != c && s[j] != d
    ensures Find(s, c, d) == |s|
  {
    FindSkips(s, [], c, d);
    assert s + [] == s;
  }

  lemma TrimKeeps(s: string)
    requires s != [] && !IsSpace(s[0]) && !IsSpace(s[|s| - 1])
    ensures Trim(s) == s
  {
  }

  /** Digits without a point: all of them are whole digits. */
  lemma MantissaOfDigits(s: string)
    requires s != [] && Digits(s)
    ensures Mantissa(s) == Some((DecimalValue(s), 0))
  {
    FindNone(s, '.', '.');
    assert s[..|s|] == s && s + [] == s;
  }

  /** Digits around one point: the point only says how many digits are fractional. */
  lemma MantissaWithPoint(whole: string, fraction: string)
    requires Digits(whole) && Digits(fraction) && whole + fraction != []
    ensures Mantissa(whole + "." + fraction) == Some((DecimalValue(whole + fraction), |fraction|))
  {
    var m := whole + "." + fraction;
    var rest := "." + fraction;
    assert m == whole + rest;
    FindSkips(whole, rest, '.', '.');
    assert Find(rest, '.', '.') == 0;
    var p := Find(m, '.', '.');
    assert p == |whole|;
    assert m[..p] == whole;
    assert m[p + 1..] == fraction;
  }

  /** A literal without an exponent marker is its mantissa. */
  lemma WithoutExponent(m: string)
    requires !IsInfinityText(m)
    requires forall j :: 0 <= j < |m| ==> m[j] != 'e' && m[j] != 'E'
    ensures UnsignedDecimal(m) == match Mantissa(m) case Some(x) => Some(Finite(Scale(x.0 as real, -(x.1 as int)))) case None => None
  {
    FindNone(m, 'e', 'E');
    assert m[..|m|] == m;
  }

  /** A literal whose first exponent marker is at `k` is its mantissa scaled by the exponent. */
  lemma WithExponent(t: string, k: nat, v: nat, places: nat, e: int)
    requires !IsInfinityText(t) && k < |t| && t[k] == 'e'
    requires forall j :: 0 <= j < k ==> t[j] != 'e' && t[j] != 'E'
    requires Mantissa(t[..k]) == Some((v, places)) && Exponent(t[k + 1..]) == Some(e)
    ensures UnsignedDecimal(t) == Some(Finite(Scale(v as real, e - places)))
  {
    FindAt(t, k, 'e', 'E');
  }

  lemma DigitCharValue(d: nat)
    requires d < 10
    ensures IsDigit(DigitChar(d)) && DigitChar(d) as int - '0' as int == d
  {
  }

  lemma {:induction false} DecimalValueOfNatText(n: nat)
    ensures Digits(NatToString(n)) && DecimalValue(NatToString(n)) == n
    decreases n
  {
    if n >= 10 {
      DecimalValueOfNatText(n / 10);
      var s, prefix := NatToString(n), NatToString(n / 10);
      DigitCharValue(n % 10);
      assert s[..|s| - 1] == prefix;
    }
  }

  /** A digit string with no point and no exponent reads as its value. */
  lemma DigitsRead(digits: string)
    requires digits != [] && Digits(digits)
    ensures UnsignedDecimal(digits) == Some(Finite(DecimalValue(digits) as real))
  {
    assert !IsInfinityText(digits) by {
      assert IsDigit(digits[0]);
    }
    WithoutExponent(digits);
    MantissaOfDigits(digits);
  }

  /** A digit string has no `0x`, `0o` or `0b` prefix. */
  lemma DecimalIsNotPrefixed(t: string)
    requires Digits(t)
    ensures NonDecimal(t).None?
  {
    if |t| > 2 {
      assert IsDigit(t[1]);
    }
  }

  lemma NatTextReads(m: nat)
    ensures StringToNumber(NatToString(m)) == Finite(m as real)
  {
    var digits := NatToString(m);
    DecimalValueOfNatText(m);
    DigitsRead(digits);
    TrimKeeps(digits);
    DecimalIsNotPrefixed(digits);
  }

  lemma NegativeTextReads(m: nat)
    ensures StringToNumber("-" + NatToString(m)) == Finite(-(m as real))
  {
    var digits := NatToString(m);
    var t := "-" + digits;
    DecimalValueOfNatText(m);
    DigitsRead(digits);
    TrimKeeps(t);
    assert t[1..] == digits;
  }

  /** The text of an integer reads back as that integer: `Number(`${n}`) === n`. */
  lemma IntegerTextRoundTrip(n: int)
    ensures StringToNumber(NumberText(n as real)) == Finite(n as real)
  {
    if n < 0 {
      NegativeRoundTrip(n);
    } else {
      NatRoundTrip(n);
    }
  }

  lemma NatRoundTrip(n: nat)
    ensures StringToNumber(NumberText(n as real)) == Finite(n as real)
  {
    assert NumberText(n as real) == NatToString(n) by {
      assert (n as real).Floor == n;
    }
    NatTextReads(n);
  }

  lemma NegativeRoundTrip(n: int)
    requires n < 0
    ensures StringToNumber(NumberText(n as real)) == Finite(n as real)
  {
    var m: nat := -n;
    var t := "-" + NatToString(m);
    assert NumberText(n as real) == t by {
      assert (n as real).Floor == n;
    }
    NegativeTextReads(m);
    assert StringToNumber(t) == Finite(-(m as real));
    assert -(m as real) == n as real;
  }

  /** Digits and points only. */
  predicate DecimalChars(s: string) {
    forall i :: 0 <= i < |s| ==> IsDigit(s[i]) || s[i] == '.'
  }

  lemma PointTextChars(whole: string, fraction: string)
    requires Digits(whole) && Digits(fraction)
    ensures DecimalChars(whole + "." + fraction)
  {
    var t := whole + "." + fraction;
    forall i | 0 <= i < |t| ensures IsDigit(t[i]) || t[i] == '.' {
      if i < |whole| {
        assert t[i] == whole[i];
      } else if i > |whole| {
        assert t[i] == fraction[i - |whole| - 1];
      }
    }
  }

  /**
   * A literal that starts with a digit or a point and has no base prefix is neither
   * prefixed, signed nor `Infinity`: it reads through the unsigned decimal grammar.
   */
  lemma DecimalStart(t: string)
    requires t != [] && (IsDigit(t[0]) || t[0] == '.') && !IsSpace(t[|t| - 1])
    requires |t| > 1 ==> PrefixBase(t[1]) == 0
    ensures StringToNumber(t) == match UnsignedDecimal(t) case Some(n) => n case None => NaN
  {
    assert Trim(t) == t by {
      TrimKeeps(t);
    }
    assert NonDecimal(t).None?;
  }

  /**
   * `Number("<whole>.<fraction>")` is the digits' value scaled down by the number of
   * fraction digits: `Number("2.5") === 25 / 10`.
   */
  lemma PointTextReads(whole: string, fraction: string)
    requires Digits(whole) && Digits(fraction) && whole + fraction != []
    ensures StringToNumber(whole + "." + fraction) == Finite(Scale(DecimalValue(whole + fraction) as real, -|fraction|))
  {
    PointTextUnsigned(whole, fraction);
    PointTextStart(whole, fraction);
  }

  lemma PointTextUnsigned(whole: string, fraction: string)
    requires Digits(whole) && Digits(fraction) && whole + fraction != []
    ensures UnsignedDecimal(whole + "." + fraction) == Some(Finite(Scale(DecimalValue(whole + fraction) as real, -|fraction|)))
  {
    var t := whole + "." + fraction;
    PointTextChars(whole, fraction);
    assert t[0] != 'I';
    MantissaWithPoint(whole, fraction);
    WithoutExponent(t);
  }

  lemma PointTextStart(whole: string, fraction: string)
    requires Digits(whole) && Digits(fraction)
    ensures var t := whole + "." + fraction;
      StringToNumber(t) == match UnsignedDecimal(t) case Some(n) => n case None => NaN
  {
    var t := whole + "." + fraction;
    PointTextChars(whole, fraction);
    assert |t| > 1 ==> IsDigit(t[1]) || t[1] == '.';
    DecimalStart(t);
  }

  /** `Number("<digits>e<exponent>")` is the digits' value times ten to the exponent: `Number("1e3") === 1000`. */
  lemma ExponentTextReads(digits: string, exponent: string)
    requires digits != [] && Digits(digits) && exponent != [] && Digits(exponent)
    ensures StringToNumber(digits + "e" + exponent) == Finite(Scale(DecimalValue(digits) as real, DecimalValue(exponent)))
  {
    var t := digits + "e" + exponent;
    var v := DecimalValue(digits);
    var e: int := DecimalValue(exponent);
    ExponentTextUnsigned(digits, exponent, t, v, e);
    ExponentTextStart(digits, exponent);
  }

  lemma ExponentTextUnsigned(digits: string, exponent: string, t: string, v: nat, e: int)
    requires digits != [] && Digits(digits) && exponent != [] && Digits(exponent)
    requires t == digits + "e" + exponent && v == DecimalValue(digits) && e == DecimalValue(exponent)
    ensures UnsignedDecimal(t) == Some(Finite(Scale(v as real, e)))
  {
    var k := |digits|;
    assert t[0] == digits[0] && t[k] == 'e';
    assert t[..k] == digits && t[k + 1..] == exponent;
    NotInfinity(t);
    ExponentTextParts(digits, exponent, v, e);
    WithExponent(t, k, v, 0, e);
    assert e - 0 == e;
  }

  lemma ExponentTextParts(digits: string, exponent: string, v: nat, e: int)
    requires digits != [] && Digits(digits) && exponent != [] && Digits(exponent)
    requires v == DecimalValue(digits) && e == DecimalValue(exponent)
    ensures forall j :: 0 <= j < |digits| ==> digits[j] != 'e' && digits[j] != 'E'
    ensures Mantissa(digits) == Some((v, 0)) && Exponent(exponent) == Some(e)
  {
    DigitsHaveNoMarker(digits);
    MantissaOfDigits(digits);
    ExponentOfDigits(exponent);
  }

  lemma ExponentTextStart(digits: string, exponent: string)
    requires digits != [] && Digits(digits) && exponent != [] && Digits(exponent)
    ensures var t := digits + "e" + exponent;
      StringToNumber(t) == match UnsignedDecimal(t) case Some(n) => n case None => NaN
  {
    var t := digits + "e" + exponent;
    assert t[0] == digits[0] && t[|t| - 1] == exponent[|exponent| - 1];
    assert |t| > 1 ==> IsDigit(t[1]) || t[1] == 'e';
    DecimalStart(t);
  }

  lemma DigitsHaveNoMarker(s: string)
    requires Digits(s)
    ensures forall j :: 0 <= j < |s| ==> s[j] != 'e' && s[j] != 'E'
  {
    forall j | 0 <= j < |s| ensures s[j] != 'e' && s[j] != 'E' {
      assert IsDigit(s[j]);
    }
  }

  lemma ExponentOfDigits(x: string)
    requires x != [] && Digits(x)
    ensures Exponent(x) == Some(DecimalValue(x) as int)
  {
    assert IsDigit(x[0]);
  }

  lemma NotInfinity(t: string)
    requires t != [] && t[0] != 'I'
    ensures !IsInfinityText(t)
  {
  }

  /** `Number("0x<digits>")` is the digits' hexadecimal value. */
  lemma HexTextReads(digits: string)
    requires digits != [] && forall i :: 0 <= i < |digits| ==> InBase(digits[i], 16)
    ensures StringToNumber("0x" + digits) == Finite(RadixValue(digits, 16) as real)
  {
    var t := "0x" + digits;
    TrimKeeps(t);
    assert t[2..] == digits;
  }
}
