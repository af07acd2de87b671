/**
  JavaScript's `Number(s)` on strings, restricted to plain decimal
  literals, and the digit-string helpers the validators use.
 */
module JsNumber {
  import opened JsText

  /** A JavaScript number as `Number(s)` produces it: a finite value or NaN. */
  datatype Num = Finite(value: real) | NaN

  predicate IsDigit(c: char) {
    '0' <= c <= '9'
  }

  predicate AllDigits(s: string) {
    forall k :: 0 <= k < |s| ==> IsDigit(s[k])
  }

  /** The regular expression `^[0-9]+$`. */
  predicate IsDigitString(s: string) {
    s != [] && AllDigits(s)
  }

  function DigitValue(c: char): (d: nat)
    requires IsDigit(c)
    ensures d < 10
  {
    c as int - '0' as int
  }

  /** The value of a string of decimal digits, most significant first. */
  function DigitsValue(s: string): nat
    requires AllDigits(s)
  {
    if s == [] then 0 else 10 * DigitsValue(s[..|s| - 1]) + DigitValue(s[|s| - 1])
  }

  function Pow10(n: nat): (p: nat)
    ensures p >= 1
  {
    if n == 0 then 1 else 10 * Pow10(n - 1)
  }

  /** An unsigned decimal literal: digits, optionally a point followed by more
      digits, with at least one digit in all ("5", "5.", ".5", "5.25"). */
  function ParseUnsigned(u: string): Num {
    var n := PrefixLength(u, IsDigit);
    assert AllDigits(u[..n]);
    if n == |u| then
      (if n == 0 then NaN else Finite(DigitsValue(u) as real))
    else if u[n] == '.' && AllDigits(u[n + 1..]) && (n > 0 || n + 1 < |u|) then
      Finite(DigitsValue(u[..n]) as real + DigitsValue(u[n + 1..]) as real / Pow10(|u| - n - 1) as real)
    else
      NaN
  }

  function Negate(x: Num): Num {
    match x
    case Finite(v) => Finite(-v)
    case NaN => NaN
  }

  /** `Number(s)`: surrounding white space is ignored, a blank string is 0, an
      optional sign precedes an unsigned decimal literal, anything else is NaN. */
  function ParseNumber(s: string): Num {
    var t := Trim(s);
    if t == [] then Finite(0.0)
    else if t[0] == '-' then Negate(ParseUnsigned(t[1..]))
    else if t[0] == '+' then ParseUnsigned(t[1..])
    else ParseUnsigned(t)
  }

  /** `Number("")`, `Number("  ")`: a blank string is the number 0, never NaN. */
  lemma BlankIsZero(s: string)
    requires IsBlank(s)
    ensures ParseNumber(s) == Finite(0.0)
  {
  }

  /** A string of digits parses to its decimal value; leading zeros are ignored ("007" is 7). */
  lemma DigitStringValue(s: string)
    requires IsDigitString(s)
    ensures ParseNumber(s) == Finite(DigitsValue(s) as real)
  {
    TrimNoSpace(s);
    assert PrefixLength(s, IsDigit) == |s|;
  }

  /** A digit string denotes a positive number iff it has a digit other than '0'. */
  lemma {:induction false} DigitsPositiveIff(s: string)
    requires AllDigits(s)
    ensures DigitsValue(s) > 0 <==> exists k :: 0 <= k < |s| && s[k] != '0'
  {
    if s != [] {
      var init := s[..|s| - 1];
      DigitsPositiveIff(init);
      if exists k :: 0 <= k < |init| && init[k] != '0' {
        var k :| 0 <= k < |init| && init[k] != '0';
        assert s[k] != '0';
      }
      if exists k :: 0 <= k < |s| && s[k] != '0' {
        var k :| 0 <= k < |s| && s[k] != '0';
        if k < |s| - 1 { assert init[k] != '0'; }
      }
    }
  }

  function DigitChar(d: nat): (c: char)
    requires d < 10
    ensures IsDigit(c) && DigitValue(c) == d
  {
    ('0' as int + d) as char
  }

  /** The decimal rendering of a natural number, as JavaScript prints an integer. */
  function Show(n: nat): (s: string)
    ensures IsDigitString(s)
  {
    if n < 10 then [DigitChar(n)] else Show(n / 10) + [DigitChar(n % 10)]
  }

  lemma {:induction false} ShowValue(n: nat)
    ensures DigitsValue(Show(n)) == n
  {
    if n >= 10 {
      var s := Show(n);
      assert s[..|s| - 1] == Show(n / 10);
      ShowValue(n / 10);
    }
  }

  /** The decimal rendering of an integer, with a leading '-' when negative. */
  function ShowInt(i: int): string {
    if i < 0 then "-" + Show(-i) else Show(i)
  }

  /** Round trip: `Number(String(i)) === i` for every integer `i`. */
  lemma ParseShowInt(i: int)
    ensures ParseNumber(ShowInt(i)) == Finite(i as real)
  {
    var s := ShowInt(i);
    var d := Show(if i < 0 then -i else i);
    ShowValue(if i < 0 then -i else i);
    TrimNoSpace(s);
    if i < 0 {
      assert s[1..] == d;
      DigitStringValue(d);
      TrimNoSpace(d);
      assert PrefixLength(d, IsDigit) == |d|;
    } else {
      DigitStringValue(d);
    }
  }
}
