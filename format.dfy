/**
 * The two number-to-text conversions the CSV export relies on:
 * `String(n)` of an integer (an array element turned into text by `join`)
 * and `x.toFixed(2)`. Both are written out for exact numbers: toFixed picks
 * the integer n whose n/100 is nearest to |x|, the larger one on a tie, and
 * prefixes "-" when x is negative.
 */
module Format {

  predicate IsDigit(c: char) {
    '0' <= c <= '9'
  }

  predicate AllDigits(s: string) {
    forall k :: 0 <= k < |s| ==> IsDigit(s[k])
  }

  function DigitChar(d: nat): (c: char)
    requires d < 10
    ensures IsDigit(c)
  {
    (d + '0' as int) as char
  }

  function DigitValue(c: char): nat
    requires IsDigit(c)
  {
    c as int - '0' as int
  }

  /** Decimal digits of n, most significant first, with no leading zeros. */
  function NatToString(n: nat): (s: string)
    ensures |s| >= 1 && AllDigits(s)
    ensures |s| > 1 ==> s[0] != '0'
    decreases n
  {
    if n < 10 then [DigitChar(n)] else NatToString(n / 10) + [DigitChar(n % 10)]
  }

  /** Reads a string of decimal digits back as a number. */
  function ParseNat(s: string): nat
    requires AllDigits(s)
  {
    if |s| == 0 then 0 else ParseNat(s[..|s| - 1]) * 10 + DigitValue(s[|s| - 1])
  }

  lemma {:induction false} ParseNatToString(n: nat)
    ensures ParseNat(NatToString(n)) == n
    decreases n
  {
    var s := NatToString(n);
    if n >= 10 {
      ParseNatToString(n / 10);
      assert s[..|s| - 1] == NatToString(n / 10);
    }
  }

  /** `String(i)` for an integer: a minus sign for negatives, then the digits. */
  function IntToString(i: int): (s: string)
    ensures ',' !in s && '\n' !in s
  {
    if i < 0 then "-" + NatToString(-i) else NatToString(i)
  }

  /** The text of an integer reads back as that integer. */
  lemma IntToStringValue(i: int)
    ensures var s := IntToString(i);
            && (i >= 0 ==> AllDigits(s) && ParseNat(s) == i)
            && (i < 0 ==> |s| >= 2 && s[0] == '-' && AllDigits(s[1..]) && ParseNat(s[1..]) == -i)
  {
    var s := IntToString(i);
    if i < 0 {
      ParseNatToString(-i);
      assert s[1..] == NatToString(-i);
    } else {
      ParseNatToString(i);
    }
  }

  /** The number of hundredths toFixed(2) writes for x: nearest, ties upwards. */
  function RoundHundredths(x: real): (n: nat)
    requires x >= 0.0
    ensures n as real - 0.5 <= x * 100.0 < n as real + 0.5
  {
    (x * 100.0 + 0.5).Floor
  }

  /** n hundredths written with two decimals: the units, a point, two digits. */
  function FixedTwo(n: nat): (s: string)
    ensures |s| >= 4 && s[|s| - 3] == '.'
    ensures AllDigits(s[..|s| - 3]) && AllDigits(s[|s| - 2..])
  {
    var units := NatToString(n / 100);
    var s := units + "." + [DigitChar(n % 100 / 10), DigitChar(n % 10)];
    assert s[..|s| - 3] == units;
    s
  }

  lemma FixedTwoValue(n: nat)
    ensures var s := FixedTwo(n);
            ParseNat(s[..|s| - 3]) * 100 + ParseNat(s[|s| - 2..]) == n
  {
    var s := FixedTwo(n);
    var units := NatToString(n / 100);
    ParseNatToString(n / 100);
    assert s[..|s| - 3] == units;
    var cents := [DigitChar(n % 100 / 10), DigitChar(n % 10)];
    assert s[|s| - 2..] == cents;
    assert cents[..1][..0] == [];
    assert ParseNat(cents[..1]) == n % 100 / 10;
    assert ParseNat(cents) == n % 100;
  }

  /** `x.toFixed(2)`. */
  function Fmt2(x: real): (s: string)
    ensures ',' !in s && '\n' !in s
    ensures |s| >= 4 && s[|s| - 3] == '.'
  {
    if x < 0.0 then "-" + FixedTwo(RoundHundredths(-x)) else FixedTwo(RoundHundredths(x))
  }

  /**
   * What toFixed(2) writes: for x >= 0 the digits before and after the point
   * read back as the hundredths nearest to x (ties upwards); for x < 0 a
   * minus sign followed by the text for -x.
   */
  lemma Fmt2Value(x: real)
    ensures var s := Fmt2(x);
            && (x >= 0.0 ==> AllDigits(s[..|s| - 3]) && AllDigits(s[|s| - 2..])
                             && ParseNat(s[..|s| - 3]) * 100 + ParseNat(s[|s| - 2..]) == RoundHundredths(x))
            && (x < 0.0 ==> s == "-" + Fmt2(-x))
  {
    if x >= 0.0 {
      FixedTwoValue(RoundHundredths(x));
    }
  }
}
