/** Python `str(n)` and JavaScript template interpolation of an integer: its decimal digits. */
module Decimal {

  function Digit(d: nat): (c: char)
    requires d < 10
  {
    "0123456789"[d]
  }

  /** Decimal digits of n, most significant first, without leading zeros ("0" for zero). */
  function NatToString(n: nat): (s: string)
    ensures |s| >= 1
    ensures forall k :: 0 <= k < |s| ==> '0' <= s[k] <= '9'
    decreases n
  {
    if n < 10 then [Digit(n)] else NatToString(n / 10) + [Digit(n % 10)]
  }

  /** `str(i)`: a leading '-' for negative numbers. */
  function IntToString(i: int): (s: string)
    ensures |s| >= 1
  {
    if i < 0 then "-" + NatToString(-i) else NatToString(i)
  }

  /** A natural number has six decimal digits exactly when it lies in [100000, 999999]. */
  lemma {:induction false} SixDigits(n: nat)
    ensures |NatToString(n)| == 6 <==> 100000 <= n <= 999999
  {
    DigitCount(n);
  }

  lemma {:induction false} DigitCount(n: nat)
    ensures n < 10 ==> |NatToString(n)| == 1
    ensures 10 <= n < 100 ==> |NatToString(n)| == 2
    ensures 100 <= n < 1000 ==> |NatToString(n)| == 3
    ensures 1000 <= n < 10000 ==> |NatToString(n)| == 4
    ensures 10000 <= n < 100000 ==> |NatToString(n)| == 5
    ensures 100000 <= n < 1000000 ==> |NatToString(n)| == 6
    ensures 1000000 <= n ==> |NatToString(n)| >= 7
    decreases n
  {
    if n >= 10 {
      DigitCount(n / 10);
    }
  }

  /**
   * For a six-digit code, the first four characters followed by "00" spell the
   * code rounded down to a multiple of 100 (`adcode_str[:4] + '00'`).
   */
  lemma {:induction false} PrefixFourDigits(n: nat)
    requires 100000 <= n <= 999999
    ensures |NatToString(n)| == 6
    ensures NatToString(n)[..4] + "00" == NatToString(n / 100 * 100)
  {
    var m := n / 100;
    DigitCount(n);
    DigitCount(m);
    assert 1000 <= m < 10000;
    assert NatToString(n) == NatToString(n / 10) + [Digit(n % 10)];
    assert n / 10 / 10 == m;
    assert NatToString(n / 10) == NatToString(m) + [Digit(n / 10 % 10)];
    assert NatToString(n)[..4] == NatToString(m);
    var p := m * 100;
    assert p / 10 / 10 == m && p % 10 == 0 && p / 10 % 10 == 0;
    assert NatToString(p) == NatToString(p / 10) + [Digit(0)];
    assert NatToString(p / 10) == NatToString(m) + [Digit(0)];
  }

  lemma DigitInjective(a: nat, b: nat)
    requires a < 10 && b < 10 && Digit(a) == Digit(b)
    ensures a == b
  {
  }

  /** Different numbers have different decimal spellings. */
  lemma {:induction false} NatToStringInjective(a: nat, b: nat)
    requires NatToString(a) == NatToString(b)
    ensures a == b
    decreases a
  {
    var s := NatToString(a);
    if a < 10 && b < 10 {
      DigitInjective(a, b);
    } else if a >= 10 && b >= 10 {
      assert s[..|s| - 1] == NatToString(a / 10) && s[|s| - 1] == Digit(a % 10);
      assert s[..|s| - 1] == NatToString(b / 10) && s[|s| - 1] == Digit(b % 10);
      DigitInjective(a % 10, b % 10);
      NatToStringInjective(a / 10, b / 10);
    }
  }

  /** `str(i)` is injective on integers. */
  lemma IntToStringInjective(a: int, b: int)
    requires IntToString(a) == IntToString(b)
    ensures a == b
  {
    var s := IntToString(a);
    assert a < 0 <==> s[0] == '-';
    assert b < 0 <==> s[0] == '-';
    if a < 0 && b < 0 {
      assert s[1..] == NatToString(-a) == NatToString(-b);
      NatToStringInjective(-a, -b);
    } else if a >= 0 && b >= 0 {
      NatToStringInjective(a, b);
    }
  }
}
