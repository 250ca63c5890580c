/**
 Decimal rendering of integers, as Python's `str(int)` does it, and the
 canonical names of generation steps ("GenerationStep_<index>").
 */
module Text {

  /** The ASCII character of decimal digit `d`. */
  function DigitChar(d: nat): (c: char)
    requires d < 10
    ensures '0' <= c <= '9'
    ensures c as int - '0' as int == d
  {
    ('0' as int + d) as char
  }

  /** Decimal digits of `n`, most significant first, without leading zeros. */
  function NatToString(n: nat): (s: string)
    ensures |s| >= 1
    ensures (|s| == 1) == (n < 10)
    ensures '0' <= s[0] <= '9'
    decreases n
  {
    if n < 10 then [DigitChar(n)] else NatToString(n / 10) + [DigitChar(n % 10)]
  }

  /** Python's `str(i)` for an int: a leading '-' for negative values. */
  function IntToString(i: int): (s: string)
    ensures |s| >= 1
    ensures (s[0] == '-') == (i < 0)
  {
    if i < 0 then "-" + NatToString(-i) else NatToString(i)
  }

  /** Distinct naturals have distinct decimal renderings. */
  lemma {:induction false} NatToStringInjective(m: nat, n: nat)
    requires NatToString(m) == NatToString(n)
    ensures m == n
    decreases m
  {
    var s := NatToString(m);
    if m < 10 {
      assert |NatToString(n)| == 1;
      assert DigitChar(m) == s[0] == DigitChar(n);
    } else {
      assert n >= 10;
      assert s == NatToString(m / 10) + [DigitChar(m % 10)];
      assert s == NatToString(n / 10) + [DigitChar(n % 10)];
      assert DigitChar(m % 10) == s[|s| - 1] == DigitChar(n % 10);
      assert NatToString(m / 10) == s[..|s| - 1] == NatToString(n / 10);
      NatToStringInjective(m / 10, n / 10);
    }
  }

  /** Distinct ints have distinct renderings. */
  lemma IntToStringInjective(a: int, b: int)
    requires IntToString(a) == IntToString(b)
    ensures a == b
  {
    if a < 0 {
      assert b < 0;
      assert NatToString(-a) == IntToString(a)[1..] == NatToString(-b);
      NatToStringInjective(-a, -b);
    } else {
      assert b >= 0;
      NatToStringInjective(a, b);
    }
  }

  const StepNamePrefix := "GenerationStep_"

  /** The canonical identifier of the step at position `index` of a strategy. */
  function StepName(index: nat): (s: string)
    ensures |s| > |StepNamePrefix| && s[..|StepNamePrefix|] == StepNamePrefix
  {
    StepNamePrefix + NatToString(index)
  }

  /** A step identifier names exactly one position. */
  lemma StepNameInjective(i: nat, j: nat)
    requires StepName(i) == StepName(j)
    ensures i == j
  {
    var k := |StepNamePrefix|;
    assert NatToString(i) == StepName(i)[k..] == StepName(j)[k..] == NatToString(j);
    NatToStringInjective(i, j);
  }
}
