/** The string operations of the .NET base library that the modelled code
    relies on: white-space tests, case-insensitive comparison, and the
    decimal and hexadecimal renderings used when numbers and identifiers
    are interpolated into strings. */
module Text {
  import opened Common

  /** `char.IsWhiteSpace`: the Unicode space, line and paragraph separators
      and the controls U+0009..U+000D and U+0085. */
  predicate IsWhiteSpace(c: char) {
    || ('\U{9}' <= c <= '\U{D}')
    || c == ' ' || c == '\U{85}' || c == '\U{A0}' || c == '\U{1680}'
    || ('\U{2000}' <= c <= '\U{200A}')
    || c == '\U{2028}' || c == '\U{2029}' || c == '\U{202F}' || c == '\U{205F}' || c == '\U{3000}'
  }

  /** `string.IsNullOrWhiteSpace`: null, empty, or white space only. */
  predicate IsNullOrWhiteSpace(s: Option<string>) {
    s.None? || forall i :: 0 <= i < |s.value| ==> IsWhiteSpace(s.value[i])
  }

  /** `string.IsNullOrEmpty`. */
  predicate IsNullOrEmpty(s: Option<string>) {
    s.None? || s.value == []
  }

  /** The exception filter of the single-asset controller tests both
      `IsNullOrEmpty` and `IsNullOrWhiteSpace`; the first test adds nothing. */
  lemma EmptyTestIsRedundant(s: Option<string>)
    ensures (!IsNullOrEmpty(s) && !IsNullOrWhiteSpace(s)) <==> !IsNullOrWhiteSpace(s)
  {
  }

  // ---------------------------------------------------------------------
  // Case-insensitive comparison
  // ---------------------------------------------------------------------

  /** Upper-cases an ASCII letter; every other character is left alone. */
  function FoldCase(c: char): (folded: char) {
    if 'a' <= c <= 'z' then (c as int - 32) as char else c
  }

  function Folded(s: string): (folded: string) {
    seq(|s|, i requires 0 <= i < |s| => FoldCase(s[i]))
  }

  /** `string.Equals(a, b, OrdinalIgnoreCase)` (and `InvariantCultureIgnoreCase`),
      restricted to ASCII case folding. */
  predicate EqualsIgnoreCase(a: string, b: string) {
    Folded(a) == Folded(b)
  }

  /** Strings of different lengths never compare equal. */
  lemma EqualsIgnoreCaseLength(a: string, b: string)
    ensures EqualsIgnoreCase(a, b) ==> |a| == |b|
  {
    assert |Folded(a)| == |a| && |Folded(b)| == |b|;
  }

  // ---------------------------------------------------------------------
  // Decimal rendering of integers (`int.ToString()`, invariant culture)
  // ---------------------------------------------------------------------

  predicate IsDigit(c: char) { '0' <= c <= '9' }

  predicate AllDigits(s: string) { forall i :: 0 <= i < |s| ==> IsDigit(s[i]) }

  function DigitChar(d: int): char
    requires 0 <= d < 10
  {
    ('0' as int + d) as char
  }

  function DigitValue(c: char): int
    requires IsDigit(c)
  {
    c as int - '0' as int
  }

  /** The decimal digits of `n`, most significant first, without leading zeros. */
  function NatToString(n: nat): (s: string)
    ensures |s| > 0 && AllDigits(s)
    ensures s[0] == '0' ==> n == 0
  {
    if n < 10 then [DigitChar(n)] else NatToString(n / 10) + [DigitChar(n % 10)]
  }

  /** Reads a string of decimal digits back as a number. */
  function ParseNat(s: string): nat
    requires AllDigits(s)
  {
    if s == [] then 0 else 10 * ParseNat(s[..|s| - 1]) + DigitValue(s[|s| - 1])
  }

  lemma {:induction false} ParseNatToString(n: nat)
    ensures ParseNat(NatToString(n)) == n
  {
    if n >= 10 {
      var s := NatToString(n);
      ParseNatToString(n / 10);
      assert s[..|s| - 1] == NatToString(n / 10);
    }
  }

  /** `int.ToString()`: a minus sign before the digits of a negative number. */
  function IntToString(n: int): (s: string)
    ensures |s| > 0
  {
    if n < 0 then "-" + NatToString(-n) else NatToString(n)
  }

  /** The rendering of an integer reads back as its value: the digits of a
      non-negative number, or a minus sign and the digits of its magnitude. */
  lemma IntToStringReadsBack(n: int)
    ensures n >= 0 ==> AllDigits(IntToString(n)) && ParseNat(IntToString(n)) == n
    ensures n < 0 ==> |IntToString(n)| > 1 && IntToString(n)[0] == '-' &&
                      AllDigits(IntToString(n)[1..]) && ParseNat(IntToString(n)[1..]) == -n
  {
    if n >= 0 {
      ParseNatToString(n);
    } else {
      ParseNatToString(-n);
      assert IntToString(n)[1..] == NatToString(-n);
    }
  }

  /** No two integers render the same: the rendering can be read back. */
  lemma IntToStringInjective(a: int, b: int)
    ensures IntToString(a) == IntToString(b) <==> a == b
  {
    if IntToString(a) == IntToString(b) {
      if a < 0 && b < 0 {
        assert NatToString(-a) == IntToString(a)[1..] == IntToString(b)[1..] == NatToString(-b);
        ParseNatToString(-a);
        ParseNatToString(-b);
      } else if a >= 0 && b >= 0 {
        ParseNatToString(a);
        ParseNatToString(b);
      }
    }
  }

  // ---------------------------------------------------------------------
  // Fixed-width lower-case hexadecimal rendering
  // ---------------------------------------------------------------------

  function Pow16(k: nat): nat {
    if k == 0 then 1 else 16 * Pow16(k - 1)
  }

  lemma {:induction false} Pow16Add(a: nat, b: nat)
    ensures Pow16(a + b) == Pow16(a) * Pow16(b)
  {
    if a > 0 {
      Pow16Add(a - 1, b);
      assert Pow16(a + b) == 16 * Pow16(a - 1 + b);
    }
  }

  predicate IsHexDigit(c: char) { '0' <= c <= '9' || 'a' <= c <= 'f' }

  predicate AllHexDigits(s: string) { forall i :: 0 <= i < |s| ==> IsHexDigit(s[i]) }

  function HexChar(d: int): char
    requires 0 <= d < 16
  {
    if d < 10 then ('0' as int + d) as char else ('a' as int + d - 10) as char
  }

  function HexValue(c: char): int
    requires IsHexDigit(c)
  {
    if c <= '9' then c as int - '0' as int else c as int - 'a' as int + 10
  }

  /** The low `width` hexadecimal digits of `n`, most significant first,
      padded with zeros. */
  function HexDigits(n: nat, width: nat): (s: string)
    ensures |s| == width && AllHexDigits(s)
  {
    if width == 0 then [] else HexDigits(n / 16, width - 1) + [HexChar(n % 16)]
  }

  function ParseHex(s: string): nat
    requires AllHexDigits(s)
  {
    if s == [] then 0 else 16 * ParseHex(s[..|s| - 1]) + HexValue(s[|s| - 1])
  }

  lemma {:induction false} ParseHexDigits(n: nat, width: nat)
    requires n < Pow16(width)
    ensures ParseHex(HexDigits(n, width)) == n
  {
    if width > 0 {
      var s := HexDigits(n, width);
      assert n / 16 < Pow16(width - 1);
      ParseHexDigits(n / 16, width - 1);
      assert s[..|s| - 1] == HexDigits(n / 16, width - 1);
    }
  }
}
