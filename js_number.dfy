/**
 * The part of the JavaScript number runtime the application relies on:
 * `parseInt` of a stored string, `Number.prototype.toString` of an integer,
 * the `%` operator and the comparisons that involve `NaN`.
 * Numbers are integers or NaN; floating point is not modelled.
 */
module JsNumber {

  /** A JavaScript number restricted to integer values, plus NaN. */
  datatype Num = Finite(v: int) | NaN

  /** `a - b`; NaN is contagious. */
  function Sub(a: Num, b: Num): Num {
    if a.Finite? && b.Finite? then Finite(a.v - b.v) else NaN
  }

  /** `a > b` for an integer `b`; every comparison with NaN is false. */
  predicate Greater(a: Num, b: int) {
    a.Finite? && a.v > b
  }

  /** `Math.max(0, a)`; NaN wins over any number. */
  function MaxZero(a: Num): Num {
    match a
    case NaN => NaN
    case Finite(v) => Finite(if v < 0 then 0 else v)
  }

  /** The `%` operator: the remainder takes the sign of the dividend (truncating division). */
  function JsRem(a: int, b: int): (r: int)
    requires b > 0
    ensures a >= 0 ==> r == a % b
    ensures a < 0 ==> r <= 0 && (a - r) % b == 0
    ensures -b < r < b
  {
    if a >= 0 then a % b
    else
      NegatedMultipleMod((-a) / b, b);
      -((-a) % b)
  }

  /** A negated multiple of `b` leaves no remainder. */
  lemma NegatedMultipleMod(q: int, b: int)
    requires b > 0
    ensures (-(q * b)) % b == 0
  {
    var x := -(q * b);
    var k := -q - x / b;
    assert x % b == k * b;
  }

  // ---------------------------------------------------------------------------
  // Printing

  function DigitChar(d: nat): (c: char)
    requires d < 10
    ensures IsDecimalDigit(c) && DigitValue(c) == d
  {
    "0123456789"[d]
  }

  /** Decimal digits of `n`, most significant first, no leading zeros. */
  function NatToString(n: nat): (s: string)
    ensures |s| >= 1
    ensures forall i :: 0 <= i < |s| ==> IsDecimalDigit(s[i])
  {
    if n < 10 then [DigitChar(n)] else NatToString(n / 10) + [DigitChar(n % 10)]
  }

  /** `String(i)` / `i.toString()` for an integer value. */
  function IntToString(i: int): (s: string)
    ensures |s| >= 1
  {
    if i < 0 then "-" + NatToString(-i) else NatToString(i)
  }

  // ---------------------------------------------------------------------------
  // Parsing

  predicate IsDecimalDigit(c: char) {
    '0' <= c <= '9'
  }

  /** The value of `c` as a digit in radices up to 36, or 36 when it is no digit. */
  function DigitValue(c: char): (d: nat)
    ensures d <= 36
  {
    if '0' <= c <= '9' then c as int - '0' as int
    else if 'a' <= c <= 'z' then c as int - 'a' as int + 10
    else if 'A' <= c <= 'Z' then c as int - 'A' as int + 10
    else 36
  }

  /**
   * The white space `parseInt` skips before the number: tab, vertical tab, form
   * feed, the byte order mark, the space separators (Unicode category Zs) and the
   * line terminators LF, CR, U+2028 and U+2029.
   */
  predicate IsJsSpace(c: char) {
    || c == '\t' || c == '\U{B}' || c == '\U{C}' || c == '\U{FEFF}'
    || c == ' ' || c == '\U{A0}' || c == '\U{1680}' || '\U{2000}' <= c <= '\U{200A}'
    || c == '\U{202F}' || c == '\U{205F}' || c == '\U{3000}'
    || c == '\n' || c == '\r' || c == '\U{2028}' || c == '\U{2029}'
  }

  function TrimStart(s: string): (t: string)
    ensures |t| <= |s|
    ensures t == s[|s| - |t|..]
    ensures |t| > 0 ==> !IsJsSpace(t[0])
    ensures forall i :: 0 <= i < |s| - |t| ==> IsJsSpace(s[i])
  {
    if |s| > 0 && IsJsSpace(s[0]) then TrimStart(s[1..]) else s
  }

  /** The longest prefix of `s` made of digits of the given radix. */
  function DigitPrefix(s: string, radix: nat): (d: string)
    ensures |d| <= |s| && d == s[..|d|]
    ensures forall i :: 0 <= i < |d| ==> DigitValue(d[i]) < radix
    ensures |d| < |s| ==> DigitValue(s[|d|]) >= radix
  {
    if |s| > 0 && DigitValue(s[0]) < radix then [s[0]] + DigitPrefix(s[1..], radix) else []
  }

  /** The value of a digit string in the given radix. */
  function ValueOf(d: string, radix: nat): nat {
    if |d| == 0 then 0 else ValueOf(d[..|d| - 1], radix) * radix + DigitValue(d[|d| - 1])
  }

  /**
   * `parseInt(s)` without a radix argument: skip leading white space, read an
   * optional sign, then the unsigned part; no digits at all gives NaN.
   */
  function ParseInt(s: string): Num {
    var t := TrimStart(s);
    if |t| > 0 && t[0] == '-' then Negate(ParseUnsigned(t[1..]))
    else if |t| > 0 && t[0] == '+' then ParseUnsigned(t[1..])
    else ParseUnsigned(t)
  }

  function Negate(a: Num): Num {
    match a
    case NaN => NaN
    case Finite(v) => Finite(-v)
  }

  /** Radix 16 after a `0x`/`0X` prefix, else radix 10; the longest run of digits. */
  function ParseUnsigned(u: string): Num {
    var hex := |u| >= 2 && u[0] == '0' && (u[1] == 'x' || u[1] == 'X');
    var radix := if hex then 16 else 10;
    var digits := DigitPrefix(if hex then u[2..] else u, radix);
    if |digits| == 0 then NaN else Finite(ValueOf(digits, radix))
  }

  // ---------------------------------------------------------------------------
  // Round trip

  lemma {:induction false} ValueOfNatToString(n: nat)
    ensures ValueOf(NatToString(n), 10) == n
  {
    if n >= 10 {
      var s := NatToString(n);
      ValueOfNatToString(n / 10);
      assert s[..|s| - 1] == NatToString(n / 10);
    }
  }

  lemma {:induction false} DigitPrefixOfDigits(s: string)
    requires forall i :: 0 <= i < |s| ==> IsDecimalDigit(s[i])
    ensures DigitPrefix(s, 10) == s
  {
    if |s| > 0 {
      DigitPrefixOfDigits(s[1..]);
      assert s == [s[0]] + s[1..];
    }
  }

  /** A non-empty string of decimal digits is read in radix 10, all of it. */
  lemma ParseUnsignedDigits(s: string)
    requires |s| >= 1
    requires forall i :: 0 <= i < |s| ==> IsDecimalDigit(s[i])
    ensures ParseUnsigned(s) == Finite(ValueOf(s, 10))
  {
    var hex := |s| >= 2 && s[0] == '0' && (s[1] == 'x' || s[1] == 'X');
    assert |s| >= 2 ==> IsDecimalDigit(s[1]);
    assert !hex;
    DigitPrefixOfDigits(s);
  }

  /** A non-empty string of decimal digits parses to its decimal value. */
  lemma ParseDigits(s: string)
    requires |s| >= 1
    requires forall i :: 0 <= i < |s| ==> IsDecimalDigit(s[i])
    ensures ParseInt(s) == Finite(ValueOf(s, 10))
  {
    assert !IsJsSpace(s[0]) && s[0] != '-' && s[0] != '+';
    assert TrimStart(s) == s;
    ParseUnsignedDigits(s);
  }

  /** A leading minus sign negates what follows it. */
  lemma ParseMinus(d: string, v: int)
    requires ParseUnsigned(d) == Finite(v)
    ensures ParseInt("-" + d) == Finite(-v)
  {
    var s := "-" + d;
    assert s[0] == '-' && s[1..] == d;
    assert !IsJsSpace(s[0]);
    assert TrimStart(s) == s;
    assert ParseInt(s) == Negate(ParseUnsigned(d));
  }

  lemma ParseNonNegative(i: int)
    requires i >= 0
    ensures ParseInt(IntToString(i)) == Finite(i)
  {
    assert IntToString(i) == NatToString(i);
    ParseDigits(NatToString(i));
    ValueOfNatToString(i);
  }

  lemma ParseUnsignedNatToString(n: nat)
    ensures ParseUnsigned(NatToString(n)) == Finite(n)
  {
    ParseUnsignedDigits(NatToString(n));
    ValueOfNatToString(n);
  }

  lemma ParseNegatedNat(n: nat)
    ensures ParseInt("-" + NatToString(n)) == Finite(-(n as int))
  {
    ParseUnsignedNatToString(n);
    ParseMinus(NatToString(n), n);
  }

  lemma ParseNegative(i: int)
    requires i < 0
    ensures ParseInt(IntToString(i)) == Finite(i)
  {
    var n: nat := -i;
    assert IntToString(i) == "-" + NatToString(n);
    ParseNegatedNat(n);
  }

  /** `parseInt(String(i)) == i` for every integer `i`. */
  lemma ParseIntToString(i: int)
    ensures ParseInt(IntToString(i)) == Finite(i)
  {
    if i < 0 {
      ParseNegative(i);
    } else {
      ParseNonNegative(i);
    }
  }
}
