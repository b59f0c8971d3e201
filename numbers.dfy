/**
 * The JavaScript number parsing the parsers depend on: `Number.parseFloat`,
 * `Number.parseInt(value, 10)` and `Math.round`, over exact decimals.
 */
module Numbers {
  import opened Wrappers
  import opened Text

  /** The longest run of decimal digits at the start of `s`. */
  function DigitPrefix(s: string): (r: string)
    ensures |r| <= |s| && r == s[..|r|]
    ensures forall k :: 0 <= k < |r| ==> IsDigit(r[k])
    ensures |r| < |s| ==> !IsDigit(s[|r|])
  {
    if s == [] || !IsDigit(s[0]) then "" else [s[0]] + DigitPrefix(s[1..])
  }

  lemma {:induction false} DigitPrefixOfDigits(s: string, rest: string)
    requires forall k :: 0 <= k < |s| ==> IsDigit(s[k])
    requires rest == [] || !IsDigit(rest[0])
    ensures DigitPrefix(s + rest) == s
  {
    if s != [] {
      assert (s + rest)[1..] == s[1..] + rest;
      DigitPrefixOfDigits(s[1..], rest);
    }
  }

  function Pow10(k: nat): (r: nat)
    ensures r >= 1
  {
    if k == 0 then 1 else 10 * Pow10(k - 1)
  }

  /** The exact value `(negative ? -1 : 1) * mantissa * 10^exponent`. */
  datatype Decimal = Decimal(negative: bool, mantissa: nat, exponent: int)

  /** A numerator and a positive denominator whose quotient is the decimal's value. */
  function Fraction(d: Decimal): (r: (int, nat))
    ensures r.1 >= 1
  {
    var m: int := if d.negative then -(d.mantissa as int) else d.mantissa;
    if d.exponent >= 0 then (m * Pow10(d.exponent), 1) else (m, Pow10(-d.exponent))
  }

  /** `Math.round`: the nearest integer, halves rounded up. */
  function Round(d: Decimal): (r: int)
    ensures var (p, q) := Fraction(d); 2 * q * r - q <= 2 * p < 2 * q * r + q
  {
    var (p, q) := Fraction(d);
    (2 * p + q) / (2 * q)
  }

  /** After an optional sign: the digits, an optional fraction and an optional exponent. */
  function ParseUnsigned(negative: bool, t: string): Option<Decimal> {
    var intPart := DigitPrefix(t);
    ParseFraction(negative, intPart, t[|intPart|..])
  }

  /** What follows the integer digits: `.` and fraction digits, then the exponent. */
  function ParseFraction(negative: bool, intPart: string, rest: string): Option<Decimal>
    requires forall k :: 0 <= k < |intPart| ==> IsDigit(intPart[k])
  {
    if rest != [] && rest[0] == '.' then
      var frac := DigitPrefix(rest[1..]);
      if intPart == "" && frac == "" then None
      else Some(Decimal(negative, DigitsValue(intPart + frac), ParseExponent(rest[1 + |frac|..]) - |frac|))
    else if intPart == "" then None
    else Some(Decimal(negative, DigitsValue(intPart), ParseExponent(rest)))
  }

  /** An `e`/`E` exponent with an optional sign; 0 when there is none (it is then not consumed). */
  function ParseExponent(s: string): int {
    if s == [] || (s[0] != 'e' && s[0] != 'E') then 0
    else
      var t := s[1..];
      var neg := t != [] && t[0] == '-';
      var u := if t != [] && (t[0] == '-' || t[0] == '+') then t[1..] else t;
      var ds := DigitPrefix(u);
      if ds == "" then 0 else if neg then -(DigitsValue(ds) as int) else DigitsValue(ds)
  }

  /** What `Number.parseFloat` reads: a finite decimal, or the `Infinity` literal with its sign. */
  datatype Float = Finite(value: Decimal) | Infinite(negative: bool)

  const InfinityLiteral := "Infinity"

  /** Whether `u` starts with the `Infinity` literal. */
  predicate StartsWithInfinity(u: string) {
    |InfinityLiteral| <= |u| && u[..|InfinityLiteral|] == InfinityLiteral
  }

  /** Whether a `-` follows the leading white space. */
  predicate MinusSign(s: string) {
    var t := TrimStart(s);
    t != [] && t[0] == '-'
  }

  /** What follows the leading white space and an optional sign. */
  function Unsigned(s: string): string {
    var t := TrimStart(s);
    if t != [] && (t[0] == '-' || t[0] == '+') then t[1..] else t
  }

  /**
   * `Number.parseFloat(s)`: leading white space and an optional sign are
   * skipped, then either the `Infinity` literal or the longest finite decimal
   * literal prefix is read; None stands for NaN.
   */
  function ParseFloat(s: string): Option<Float> {
    var u := Unsigned(s);
    if StartsWithInfinity(u) then Some(Infinite(MinusSign(s)))
    else
      match ParseUnsigned(MinusSign(s), u)
      case None => None
      case Some(d) => Some(Finite(d))
  }

  /**
   * `Number.parseInt(s, 10)`: leading white space, an optional sign, then the
   * longest run of digits; None stands for NaN.
   */
  function ParseInt(s: string): (r: Option<int>)
    ensures r.Some? ==> exists k :: 0 <= k < |s| && IsDigit(s[k])
  {
    var t := TrimStart(s);
    var neg := t != [] && t[0] == '-';
    var u := if t != [] && (t[0] == '-' || t[0] == '+') then t[1..] else t;
    var ds := DigitPrefix(u);
    if ds == "" then None
    else
      TrimStartMeaning(s);
      assert IsDigit(u[0]) && u[0] == s[|s| - |u|];
      Some(if neg then -(DigitsValue(ds) as int) else DigitsValue(ds))
  }

  lemma DigitPrefixAll(s: string)
    requires forall k :: 0 <= k < |s| ==> IsDigit(s[k])
    ensures DigitPrefix(s) == s
  {
    DigitPrefixOfDigits(s, "");
    assert s + "" == s;
  }

  /** The decimal text of an integer: its optional '-' and the digits after it. */
  lemma IntToStringShape(n: int)
    ensures var s := IntToString(n);
      TrimStart(s) == s
      && (n >= 0 ==> s == NatToString(n) && s[0] != '-' && s[0] != '+')
      && (n < 0 ==> s[0] == '-' && s[1..] == NatToString(-n))
  {
    var s := IntToString(n);
    assert !IsJsSpace(s[0]);
  }

  /** `parseInt(String(n), 10) == n`. */
  lemma {:induction false} ParseIntOfIntToString(n: int)
    ensures ParseInt(IntToString(n)) == Some(n)
  {
    var m: nat := if n >= 0 then n else -n;
    var s := IntToString(n);
    var ds := NatToString(m);
    IntToStringShape(n);
    NatToStringRoundTrip(m);
    DigitPrefixAll(ds);
    assert TrimStart(s) == s;
    assert (if s[0] == '-' || s[0] == '+' then s[1..] else s) == ds;
  }

  lemma ParseUnsignedOfDigits(negative: bool, ds: string)
    requires ds != [] && forall k :: 0 <= k < |ds| ==> IsDigit(ds[k])
    ensures ParseUnsigned(negative, ds) == Some(Decimal(negative, DigitsValue(ds), 0))
  {
    DigitPrefixAll(ds);
    assert ds[|ds|..] == [];
  }

  lemma RoundOfInteger(negative: bool, m: nat)
    ensures Round(Decimal(negative, m, 0)) == if negative then -(m as int) else m
  {
    var p: int := if negative then -(m as int) else m;
    assert Fraction(Decimal(negative, m, 0)) == (p, 1);
    assert (2 * p + 1) / 2 == p;
  }

  /** `Math.round(parseFloat(String(n))) == n`: integers survive the text round trip. */
  lemma {:induction false} RoundParseFloatOfIntToString(n: int)
    ensures ParseFloat(IntToString(n)) == Some(Finite(Decimal(n < 0, if n >= 0 then n else -n, 0)))
    ensures Round(ParseFloat(IntToString(n)).value.value) == n
  {
    var m: nat := if n >= 0 then n else -n;
    var ds := NatToString(m);
    IntToStringShape(n);
    NatToStringRoundTrip(m);
    ParseUnsignedOfDigits(n < 0, ds);
    assert Unsigned(IntToString(n)) == ds && MinusSign(IntToString(n)) == (n < 0);
    assert ds[0] != InfinityLiteral[0];
    RoundOfInteger(n < 0, m);
  }
}
