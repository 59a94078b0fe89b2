/**
 * Numbers as the source handles them, over exact reals and integers:
 * `toFixed(k)` rounding, the decimal texts the amount field and the
 * validators accept, `parseFloat`/`Number` on those texts, `parseInt`,
 * and `String(n)` for integers.
 */
module Numeric {
  import opened Wrappers
  import opened Text

  function Pow10(k: nat): (p: nat)
    ensures p >= 1
  {
    if k == 0 then 1 else 10 * Pow10(k - 1)
  }

  /**
   * The digits `x.toFixed(k)` prints, as one integer (the value times 10^k):
   * |x| is rounded to the nearest step, a tie going up, and the sign is kept.
   */
  function FixedUnits(x: real, k: nat): int {
    var p := Pow10(k) as real;
    if x >= 0.0 then (x * p + 0.5).Floor else -((-x) * p + 0.5).Floor
  }

  /** `x.toFixed(k)` read back as a number. */
  function ToFixed(x: real, k: nat): real {
    FixedUnits(x, k) as real / Pow10(k) as real
  }

  /** Rounding y = x * p to the nearest integer n (ties up) leaves n / p within half a step of x. */
  lemma HalfStep(x: real, p: real, n: int)
    requires p >= 1.0
    requires x * p - 0.5 < n as real <= x * p + 0.5
    ensures x - 0.5 / p < n as real / p <= x + 0.5 / p
  {
    var y := x * p;
    assert n as real / p - x == (n as real - y) / p;
    assert (n as real - y) / p <= 0.5 / p;
    assert -0.5 / p < (n as real - y) / p;
  }

  /** toFixed(k) never moves a value by more than half of the last kept digit, nor changes its sign. */
  lemma ToFixedError(x: real, k: nat)
    ensures x - 0.5 / Pow10(k) as real <= ToFixed(x, k) <= x + 0.5 / Pow10(k) as real
    ensures x >= 0.0 ==> ToFixed(x, k) >= 0.0
  {
    var p := Pow10(k) as real;
    if x >= 0.0 {
      HalfStep(x, p, FixedUnits(x, k));
    } else {
      var m := ((-x) * p + 0.5).Floor;
      HalfStep(-x, p, m);
      assert FixedUnits(x, k) == -m;
      var q := m as real / p;
      assert (-m) as real / p == -q by {
        assert q * p == m as real;
        assert (-q) * p == (-m) as real;
      }
    }
  }

  // ----- digit strings -----

  function DigitValue(c: char): (d: nat)
    requires IsDigit(c)
    ensures d < 10
  {
    c as int - '0' as int
  }

  function DigitChar(d: nat): (c: char)
    requires d < 10
    ensures IsDigit(c) && DigitValue(c) == d
  {
    ('0' as int + d) as char
  }

  /** The value of a string of decimal digits, most significant first. */
  function DigitsValue(s: string): nat
    requires AllDigits(s)
  {
    if s == [] then 0 else DigitsValue(s[..|s| - 1]) * 10 + DigitValue(s[|s| - 1])
  }

  /** A digit string is worth more than zero exactly when one of its digits is not '0'. */
  lemma {:induction false} DigitsValuePositive(s: string)
    requires AllDigits(s)
    ensures DigitsValue(s) > 0 <==> exists i :: 0 <= i < |s| && s[i] != '0'
  {
    if s != [] {
      var init := s[..|s| - 1];
      DigitsValuePositive(init);
      if DigitsValue(init) > 0 {
        var i :| 0 <= i < |init| && init[i] != '0';
        assert s[i] != '0';
      } else if DigitValue(s[|s| - 1]) == 0 {
        forall i | 0 <= i < |s| ensures s[i] == '0' {
          if i < |init| { assert init[i] == s[i]; }
        }
      }
    }
  }

  /** `String(n)` for a non-negative integer: its decimal digits, no leading zeros. */
  function NatToDigits(n: nat): (s: string)
    ensures s != [] && AllDigits(s)
    ensures |s| > 1 ==> s[0] != '0'
  {
    if n < 10 then [DigitChar(n)] else NatToDigits(n / 10) + [DigitChar(n % 10)]
  }

  /** Reading back the digits that NatToDigits writes gives the number itself. */
  lemma {:induction false} NatToDigitsRoundTrip(n: nat)
    ensures DigitsValue(NatToDigits(n)) == n
  {
    if n >= 10 {
      var s := NatToDigits(n);
      NatToDigitsRoundTrip(n / 10);
      assert s[..|s| - 1] == NatToDigits(n / 10);
    }
  }

  /** `String(n)` for an integer (magnitudes below 10^21, where JavaScript prints plain digits). */
  function IntToString(n: int): string {
    if n < 0 then "-" + NatToDigits(-n) else NatToDigits(n)
  }

  /**
   * validator.js `isInt` with leading zeros allowed (`^[-+]?[0-9]+$`),
   * giving the integer the text denotes, or None when it is not such a text.
   */
  function IntTextValue(s: string): (r: Option<int>)
    ensures r.Some? ==> s != []
  {
    var signed := s != [] && (s[0] == '-' || s[0] == '+');
    var body := if signed then s[1..] else s;
    if body != [] && AllDigits(body) then
      Some(if signed && s[0] == '-' then -(DigitsValue(body) as int) else DigitsValue(body))
    else None
  }

  /** Every integer printed by String(n) passes isInt and denotes n. */
  lemma IntTextRoundTrip(n: int)
    ensures IntTextValue(IntToString(n)) == Some(n)
  {
    if n < 0 {
      NatToDigitsRoundTrip(-n);
      assert IntToString(n)[1..] == NatToDigits(-n);
    } else {
      NatToDigitsRoundTrip(n);
    }
  }

  /** The longest prefix of s made of digits. */
  function DigitPrefix(s: string): (r: string)
    ensures |r| <= |s| && r == s[..|r|] && AllDigits(r)
    ensures |r| == |s| || !IsDigit(s[|r|])
  {
    if s != [] && IsDigit(s[0]) then [s[0]] + DigitPrefix(s[1..]) else []
  }

  /** A hexadecimal digit, in either case. */
  predicate IsHexDigit(c: char) {
    IsDigit(c) || 'a' <= c <= 'f' || 'A' <= c <= 'F'
  }

  predicate AllHexDigits(s: string) {
    forall i :: 0 <= i < |s| ==> IsHexDigit(s[i])
  }

  function HexDigitValue(c: char): (d: nat)
    requires IsHexDigit(c)
    ensures d < 16
  {
    if IsDigit(c) then DigitValue(c)
    else if 'a' <= c <= 'f' then c as int - 'a' as int + 10
    else c as int - 'A' as int + 10
  }

  /** The value of a string of hexadecimal digits, most significant first. */
  function HexValue(s: string): nat
    requires AllHexDigits(s)
  {
    if s == [] then 0 else HexValue(s[..|s| - 1]) * 16 + HexDigitValue(s[|s| - 1])
  }

  /** The longest prefix of s made of hexadecimal digits. */
  function HexPrefix(s: string): (r: string)
    ensures |r| <= |s| && r == s[..|r|] && AllHexDigits(r)
    ensures |r| == |s| || !IsHexDigit(s[|r|])
  {
    if s != [] && IsHexDigit(s[0]) then [s[0]] + HexPrefix(s[1..]) else []
  }

  /** "0x" or "0X": the prefix that makes parseInt without a radix read base 16. */
  predicate HasHexPrefix(s: string) {
    |s| >= 2 && s[0] == '0' && (s[1] == 'x' || s[1] == 'X')
  }

  /**
   * The magnitude parseInt reads after the sign: behind a hex prefix the
   * longest run of hexadecimal digits, otherwise the longest run of decimal
   * digits; None (NaN) when that run is empty.
   */
  function MagnitudePrefix(body: string): (r: Option<nat>)
    ensures !HasHexPrefix(body) && AllDigits(body) && body != [] ==> r == Some(DigitsValue(body))
  {
    if HasHexPrefix(body) then
      var hex := HexPrefix(body[2..]);
      if hex == [] then None else Some(HexValue(hex))
    else
      var digits := DigitPrefix(body);
      assert AllDigits(body) ==> digits == body by {
        if AllDigits(body) { DigitPrefixOfDigits(body); }
      }
      if digits == [] then None else Some(DigitsValue(digits))
  }

  /**
   * `parseInt(s)` with no radix: leading white space is skipped, one sign is
   * allowed, then a "0x"/"0X" prefix selects base 16 and otherwise base 10,
   * and the longest run of digits of that base is read; None stands for NaN.
   */
  function ParseIntPrefix(s: string): (r: Option<int>)
  {
    var t := TrimStart(s);
    var signed := t != [] && (t[0] == '-' || t[0] == '+');
    match MagnitudePrefix(if signed then t[1..] else t)
    case None => None
    case Some(m) => Some(if signed && t[0] == '-' then -(m as int) else m)
  }

  /** parseInt reads back what String(n) printed. */
  lemma ParseIntRoundTrip(n: int)
    ensures ParseIntPrefix(IntToString(n)) == Some(n)
  {
    var s := IntToString(n);
    var body := if n < 0 then NatToDigits(-n) else NatToDigits(n);
    assert forall i :: 0 <= i < |s| ==> !IsSpace(s[i]);
    assert TrimStart(s) == s;
    assert DigitPrefix(body) == body by {
      DigitPrefixOfDigits(body);
    }
    if n < 0 {
      NatToDigitsRoundTrip(-n);
      assert s[1..] == body;
    } else {
      NatToDigitsRoundTrip(n);
    }
  }

  /** On a text isInt accepts, parseInt reads the same integer. */
  lemma ParseIntAgreesWithIntText(s: string)
    requires IntTextValue(s).Some?
    ensures ParseIntPrefix(s) == IntTextValue(s)
  {
    assert !IsSpace(s[0]);
    assert TrimStart(s) == s;
    var signed := s[0] == '-' || s[0] == '+';
    DigitPrefixOfDigits(if signed then s[1..] else s);
  }

  lemma {:induction false} DigitPrefixOfDigits(s: string)
    requires AllDigits(s)
    ensures DigitPrefix(s) == s
  {
    if s != [] {
      DigitPrefixOfDigits(s[1..]);
    }
  }

  // ----- decimal texts -----

  /** The first index of c in s, or -1. */
  function IndexOf(s: string, c: char): (i: int)
    ensures -1 <= i < |s|
    ensures i >= 0 ==> s[i] == c && c !in s[..i]
    ensures i < 0 ==> c !in s
  {
    if s == [] then -1
    else if s[0] == c then 0
    else
      var j := IndexOf(s[1..], c);
      if j < 0 then -1 else j + 1
  }

  /** The amount field's pattern `^\d*\.?\d*$`: digits, at most one '.', digits (the empty text included). */
  predicate IsDecimalText(s: string) {
    var d := IndexOf(s, '.');
    if d < 0 then AllDigits(s) else AllDigits(s[..d]) && AllDigits(s[d + 1..])
  }

  /**
   * `parseFloat(s)` (equally `Number(s)`) on a decimal text; None stands for
   * NaN, which is what a text with no digit at all (or not of that form) gives.
   */
  function ParseDecimal(s: string): (r: Option<real>)
    ensures r.Some? ==> r.value >= 0.0
    ensures r.Some? ==> IsDecimalText(s)
    ensures IsDecimalText(s) && r.None? ==> s == "" || s == "."
  {
    var d := IndexOf(s, '.');
    if d < 0 then
      if s != [] && AllDigits(s) then Some(DigitsValue(s) as real) else None
    else
      var whole, fraction := s[..d], s[d + 1..];
      if AllDigits(whole) && AllDigits(fraction) && (whole != [] || fraction != []) then
        Some(DigitsValue(whole) as real + DigitsValue(fraction) as real / Pow10(|fraction|) as real)
      else None
  }

  /** A decimal text is worth more than zero exactly when it holds a digit other than '0'. */
  lemma DecimalPositive(s: string)
    requires ParseDecimal(s).Some?
    ensures ParseDecimal(s).value > 0.0 <==> exists i :: 0 <= i < |s| && IsDigit(s[i]) && s[i] != '0'
  {
    var d := IndexOf(s, '.');
    if d < 0 {
      DigitsValuePositive(s);
    } else {
      var whole, fraction := s[..d], s[d + 1..];
      DigitsValuePositive(whole);
      DigitsValuePositive(fraction);
      var p := Pow10(|fraction|) as real;
      assert DigitsValue(fraction) as real / p > 0.0 <==> DigitsValue(fraction) > 0;
      if exists i :: 0 <= i < |s| && IsDigit(s[i]) && s[i] != '0' {
        var i :| 0 <= i < |s| && IsDigit(s[i]) && s[i] != '0';
        if i < d { assert whole[i] == s[i]; } else { assert fraction[i - d - 1] == s[i]; }
      }
      if DigitsValue(whole) > 0 {
        var i :| 0 <= i < |whole| && whole[i] != '0';
        assert s[i] == whole[i];
      }
      if DigitsValue(fraction) > 0 {
        var i :| 0 <= i < |fraction| && fraction[i] != '0';
        assert s[d + 1 + i] == fraction[i];
      }
    }
  }

  /**
   * `Number(s)` and `parseFloat(s)` on a text that is an optional sign
   * followed by a decimal text; None stands for NaN.
   */
  function SignedDecimal(s: string): (r: Option<real>)
    ensures r.Some? && r.value < 0.0 ==> s != [] && s[0] == '-'
  {
    if s == [] then None
    else if s[0] == '-' then Negated(ParseDecimal(s[1..]))
    else if s[0] == '+' then ParseDecimal(s[1..])
    else ParseDecimal(s)
  }

  function Negated(v: Option<real>): Option<real> {
    if v.Some? then Some(-v.value) else None
  }
}
