/**
 * Decimal text of integers, as Python writes them with `str(n)` and `%d`,
 * and the right-justified `%5d` / `%8d` forms used on `.bdf` cards.
 */
module Decimal {

  predicate IsDigit(c: char) {
    '0' <= c <= '9'
  }

  function DigitChar(d: int): (c: char)
    requires 0 <= d < 10
    ensures IsDigit(c) && DigitValue(c) == d
  {
    (('0' as int) + d) as char
  }

  function DigitValue(c: char): int
    requires IsDigit(c)
  {
    (c as int) - ('0' as int)
  }

  predicate AllDigits(s: string) {
    forall k :: 0 <= k < |s| ==> IsDigit(s[k])
  }

  /** A decimal numeral: an optional minus sign followed by at least one digit. */
  predicate IsNumeral(s: string) {
    if |s| > 0 && s[0] == '-' then |s| > 1 && AllDigits(s[1..]) else |s| > 0 && AllDigits(s)
  }

  /** Shortest decimal digits of a natural number. */
  function NatToString(n: nat): string
  {
    if n < 10 then [DigitChar(n)] else NatToString(n / 10) + [DigitChar(n % 10)]
  }

  /** `str(n)` / `'%d' % n`. */
  function IntToString(n: int): string
  {
    if n < 0 then "-" + NatToString(-n) else NatToString(n)
  }

  /** The decimal text of a natural number is all digits, without a leading zero. */
  lemma {:induction false} NatToStringDigits(n: nat)
    ensures var s := NatToString(n);
      |s| >= 1 && AllDigits(s) && (s[0] == '0' ==> n == 0)
  {
    if n >= 10 {
      NatToStringDigits(n / 10);
    }
  }

  /** `%d` text is an optional minus sign followed by digits. */
  lemma IntToStringNumeral(n: int)
    ensures IsNumeral(IntToString(n))
  {
    if n < 0 {
      NatToStringDigits(-n);
      assert IntToString(n)[1..] == NatToString(-n);
    } else {
      NatToStringDigits(n);
    }
  }

  function ParseDigits(s: string): nat
    requires |s| >= 1 && AllDigits(s)
  {
    if |s| == 1 then DigitValue(s[0])
    else ParseDigits(s[..|s| - 1]) * 10 + DigitValue(s[|s| - 1])
  }

  /** The value of a decimal numeral. */
  function ParseInt(s: string): int
    requires IsNumeral(s)
  {
    if s[0] == '-' then -(ParseDigits(s[1..]) as int) else ParseDigits(s) as int
  }

  lemma {:induction false} ParseNatToString(n: nat)
    ensures var s := NatToString(n); |s| >= 1 && AllDigits(s) && ParseDigits(s) == n
  {
    NatToStringDigits(n);
    if n >= 10 {
      var s := NatToString(n);
      assert s[..|s| - 1] == NatToString(n / 10);
      ParseNatToString(n / 10);
    }
  }

  /** Reading back the decimal text of an integer gives the integer. */
  lemma IntToStringRoundTrip(n: int)
    ensures IsNumeral(IntToString(n)) && ParseInt(IntToString(n)) == n
  {
    IntToStringNumeral(n);
    if n < 0 {
      ParseNatToString(-n);
      assert IntToString(n)[1..] == NatToString(-n);
    } else {
      ParseNatToString(n);
    }
  }

  /** Distinct integers are written differently. */
  lemma IntToStringInjective(m: int, n: int)
    requires IntToString(m) == IntToString(n)
    ensures m == n
  {
    IntToStringRoundTrip(m);
    IntToStringRoundTrip(n);
  }

  function Spaces(k: nat): string
  {
    if k == 0 then "" else Spaces(k - 1) + " "
  }

  lemma {:induction false} SpacesSpec(k: nat)
    ensures |Spaces(k)| == k && forall i :: 0 <= i < k ==> Spaces(k)[i] == ' '
  {
    if k > 0 {
      SpacesSpec(k - 1);
    }
  }

  /** Right-justify `s` in a field of `width` characters (the `%Nd` width). */
  function PadLeft(s: string, width: nat): string
  {
    if |s| < width then Spaces(width - |s|) + s else s
  }

  /**
   * Right-justified text is as wide as the field, or as the text when that
   * is wider; it ends with the text and starts with spaces.
   */
  lemma PadLeftSpec(s: string, width: nat)
    ensures var r := PadLeft(s, width);
      && |r| == (if |s| < width then width else |s|)
      && r[|r| - |s|..] == s
      && forall i :: 0 <= i < |r| - |s| ==> r[i] == ' '
  {
    if |s| < width {
      SpacesSpec(width - |s|);
    }
  }

  /** `'%Nd' % n`. */
  function FormatInt(n: int, width: nat): string
  {
    PadLeft(IntToString(n), width)
  }

  /**
   * A `%Nd` field holding n: at least `width` characters, spaces, then a
   * numeral whose value is n.
   */
  predicate IntField(f: string, n: int, width: nat) {
    && |f| >= width
    && exists k :: 0 <= k < |f| && (forall i :: 0 <= i < k ==> f[i] == ' ') && IsNumeral(f[k..]) && ParseInt(f[k..]) == n
  }

  /** `%Nd` text is such a field. */
  lemma FormatIntSpec(n: int, width: nat)
    ensures IntField(FormatInt(n, width), n, width)
  {
    var s := IntToString(n);
    var r := PadLeft(s, width);
    IntToStringRoundTrip(n);
    PadLeftSpec(s, width);
    NatToStringDigits(if n < 0 then -n else n);
    assert r[|r| - |s|..] == s;
    assert IsNumeral(r[|r| - |s|..]);
  }
}
