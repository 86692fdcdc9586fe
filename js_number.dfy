/**
 * JavaScript's global `parseFloat` on decimal literals, with exact decimal
 * values instead of IEEE-754 doubles. `None` stands for `NaN`.
 */
module JsNumber {
  import opened Wrappers
  import opened JsText

  function DigitValue(c: char): nat
    requires IsAsciiDigit(c)
  {
    c as int - '0' as int
  }

  function DigitChar(d: nat): (c: char)
    requires d < 10
    ensures IsAsciiDigit(c) && DigitValue(c) == d
  {
    (d + '0' as int) as char
  }

  predicate AllDigits(s: string) {
    forall i :: 0 <= i < |s| ==> IsAsciiDigit(s[i])
  }

  /** The value of a string of decimal digits, most significant first. */
  function DigitsValue(s: string): nat
    requires AllDigits(s)
  {
    if s == [] then 0 else 10 * DigitsValue(s[..|s| - 1]) + DigitValue(s[|s| - 1])
  }

  /** The length of the longest prefix of `s` made of decimal digits. */
  function DigitSpan(s: string): (n: nat)
    ensures n <= |s| && AllDigits(s[..n])
    ensures n < |s| ==> !IsAsciiDigit(s[n])
  {
    if s != [] && IsAsciiDigit(s[0]) then
      var n := 1 + DigitSpan(s[1..]);
      assert forall i :: 1 <= i < n ==> s[..n][i] == s[1..][..n - 1][i - 1];
      n
    else 0
  }

  /** The value of the digits after a decimal point: "25" is 0.25. */
  function FractionValue(s: string): real
    requires AllDigits(s)
  {
    if s == [] then 0.0 else (DigitValue(s[0]) as real + FractionValue(s[1..])) / 10.0
  }

  /** `m` times ten to the power `e`. */
  function Scale(m: real, e: int): real
    decreases if e >= 0 then e else -e
  {
    if e == 0 then m
    else if e > 0 then 10.0 * Scale(m, e - 1)
    else Scale(m, e + 1) / 10.0
  }

  /** The exponent part `e[+-]digits` at the head of `s`, or 0 when `s` does not start with a complete one. */
  function ExponentOf(s: string): int {
    if |s| > 0 && (s[0] == 'e' || s[0] == 'E') then
      var signed := |s| > 1 && (s[1] == '+' || s[1] == '-');
      var digits := if signed then s[2..] else s[1..];
      var k := DigitSpan(digits);
      if k == 0 then 0
      else if signed && s[1] == '-' then -(DigitsValue(digits[..k]) as int)
      else DigitsValue(digits[..k])
    else 0
  }

  /**
   * The value of the longest prefix of `s` that is an unsigned decimal literal
   * (digits, an optional point and fraction digits, at least one digit in all,
   * then an optional exponent); `None` when `s` does not start with one.
   */
  function ParseUnsigned(s: string): Option<real> {
    var n := DigitSpan(s);
    var rest := s[n..];
    var hasPoint := |rest| > 0 && rest[0] == '.';
    var afterPoint := if hasPoint then rest[1..] else "";
    var m := DigitSpan(afterPoint);
    var tail := if hasPoint then afterPoint[m..] else rest;
    if n + m == 0 then None
    else
      var mantissa := DigitsValue(s[..n]) as real + FractionValue(afterPoint[..m]);
      Some(Scale(mantissa, ExponentOf(tail)))
  }

  /**
   * `parseFloat(s)`: leading white space is skipped, then an optional sign and
   * the longest decimal literal are read and anything after them is ignored.
   * A string that is empty or all white space is `NaN`.
   */
  function ParseFloat(s: string): Option<real> {
    if s != [] && IsWhiteSpace(s[0]) then ParseFloat(s[1..])
    else
      var signed := s != [] && (s[0] == '-' || s[0] == '+');
      match ParseUnsigned(if signed then s[1..] else s)
      case None => None
      case Some(v) => Some(if s != [] && s[0] == '-' then -v else v)
  }

  /** A string that is empty or all white space reads as `NaN`. */
  lemma {:induction false} ParseFloatBlank(s: string)
    requires AllWhiteSpace(s)
    ensures ParseFloat(s).None?
  {
    if s != [] {
      ParseFloatBlank(s[1..]);
    }
  }

  /** The decimal numeral of `n`, without leading zeros. */
  function NatLiteral(n: nat): (s: string)
    ensures |s| >= 1 && AllDigits(s) && DigitsValue(s) == n
  {
    if n < 10 then [DigitChar(n)]
    else
      var s := NatLiteral(n / 10) + [DigitChar(n % 10)];
      assert s[..|s| - 1] == NatLiteral(n / 10);
      s
  }

  /** An amount of cents written with two decimal places, such as "500.00" or "-12.05". */
  function CentsLiteral(cents: int): string {
    if cents < 0 then "-" + UnsignedCents(-cents) else UnsignedCents(cents)
  }

  function UnsignedCents(a: nat): string {
    NatLiteral(a / 100) + "." + [DigitChar(a % 100 / 10), DigitChar(a % 100 % 10)]
  }

  /** The digit span of a digit string followed by a non-digit (or nothing) is the digit string. */
  lemma {:induction false} DigitSpanOf(d: string, rest: string)
    requires AllDigits(d)
    requires rest == [] || !IsAsciiDigit(rest[0])
    ensures DigitSpan(d + rest) == |d|
  {
    if d != [] {
      assert (d + rest)[1..] == d[1..] + rest;
      DigitSpanOf(d[1..], rest);
    }
  }

  /** An amount in the form "w.fg" parses as w plus fg hundredths. */
  lemma ParseUnsignedCents(w: nat, f: nat, g: nat)
    requires f < 10 && g < 10
    ensures ParseUnsigned(NatLiteral(w) + "." + [DigitChar(f), DigitChar(g)])
      == Some(w as real + (10 * f + g) as real / 100.0)
  {
    var d := NatLiteral(w);
    var frac := [DigitChar(f), DigitChar(g)];
    var s := d + "." + frac;
    assert s == d + ("." + frac);
    DigitSpanOf(d, "." + frac);
    assert s[..|d|] == d;
    var rest := s[|d|..];
    assert rest == "." + frac;
    assert rest[1..] == frac;
    DigitSpanOf(frac, "");
    assert frac + "" == frac;
    assert frac[..2] == frac;
    assert frac[2..] == "";
    assert frac[1..] == [DigitChar(g)];
    assert [DigitChar(g)][1..] == [];
    assert FractionValue([DigitChar(g)]) == g as real / 10.0;
    assert FractionValue(frac) == (f as real + g as real / 10.0) / 10.0;
  }

  /** The digits of an amount of cents: whole dollars, tens of cents, cents. */
  lemma CentsDigits(a: nat)
    ensures (a / 100) as real + (10 * (a % 100 / 10) + a % 100 % 10) as real / 100.0 == a as real / 100.0
  {
    var w, r := a / 100, a % 100;
    assert a == 100 * w + r;
    assert r == 10 * (r / 10) + r % 10;
    assert (a as real) == 100.0 * (w as real) + (r as real);
  }

  /** A literal that starts with neither white space nor a sign is read as an unsigned literal. */
  lemma ParseFloatUnsigned(s: string)
    requires s == [] || (!IsWhiteSpace(s[0]) && s[0] != '-' && s[0] != '+')
    ensures ParseFloat(s) == ParseUnsigned(s)
  {
  }

  /** A leading minus sign negates the value of the literal after it. */
  lemma ParseFloatNegative(s: string, v: real)
    requires ParseUnsigned(s) == Some(v)
    ensures ParseFloat("-" + s) == Some(-v)
  {
    var t := "-" + s;
    assert t[1..] == s;
  }

  /** An unsigned cents literal starts with a digit and reads as the amount in dollars. */
  lemma ParseUnsignedCentsLiteral(a: nat)
    ensures UnsignedCents(a) != [] && IsAsciiDigit(UnsignedCents(a)[0])
    ensures ParseUnsigned(UnsignedCents(a)) == Some(a as real / 100.0)
  {
    var w, f, g := a / 100, a % 100 / 10, a % 100 % 10;
    ParseUnsignedCents(w, f, g);
    CentsDigits(a);
    assert UnsignedCents(a)[0] == NatLiteral(w)[0];
  }

  /** Reading back a cents literal gives the amount in dollars exactly. */
  lemma ParseCentsLiteral(cents: int)
    ensures ParseFloat(CentsLiteral(cents)) == Some(cents as real / 100.0)
  {
    if cents < 0 {
      ParseNegativeCents(cents);
    } else {
      ParseNonNegativeCents(cents);
    }
  }

  /** The non-negative half of `ParseCentsLiteral`. */
  lemma ParseNonNegativeCents(cents: int)
    requires cents >= 0
    ensures ParseFloat(CentsLiteral(cents)) == Some(cents as real / 100.0)
  {
    UnsignedCentsFloat(cents);
    assert CentsLiteral(cents) == UnsignedCents(cents);
  }

  /** The negative half of `ParseCentsLiteral`. */
  lemma ParseNegativeCents(cents: int)
    requires cents < 0
    ensures ParseFloat(CentsLiteral(cents)) == Some(cents as real / 100.0)
  {
    NegativeCentsLiteral(cents);
    NegatedCentsFloat(-cents);
    assert -((-cents) as real / 100.0) == cents as real / 100.0;
  }

  /** A negative amount is written as a minus sign before its magnitude. */
  lemma NegativeCentsLiteral(cents: int)
    requires cents < 0
    ensures CentsLiteral(cents) == "-" + UnsignedCents(-cents)
  {
  }

  /** `parseFloat` reads an unsigned cents literal as the amount in dollars. */
  lemma UnsignedCentsFloat(a: nat)
    ensures ParseFloat(UnsignedCents(a)) == Some(a as real / 100.0)
  {
    var u := UnsignedCents(a);
    ParseUnsignedCentsLiteral(a);
    assert !IsWhiteSpace(u[0]) && u[0] != '-' && u[0] != '+';
    ParseFloatUnsigned(u);
  }

  /** `parseFloat` reads a minus sign and an unsigned cents literal as minus the amount. */
  lemma NegatedCentsFloat(a: nat)
    ensures ParseFloat("-" + UnsignedCents(a)) == Some(-(a as real / 100.0))
  {
    ParseUnsignedCentsLiteral(a);
    ParseFloatNegative(UnsignedCents(a), a as real / 100.0);
  }

  /** Reading back a whole-number literal gives the number. */
  lemma ParseNatLiteral(n: nat)
    ensures ParseFloat(NatLiteral(n)) == Some(n as real)
  {
    var s := NatLiteral(n);
    DigitSpanOf(s, "");
    assert s + "" == s;
    assert s[..|s|] == s;
    assert s[|s|..] == "";
    ParseFloatUnsigned(s);
  }
}
