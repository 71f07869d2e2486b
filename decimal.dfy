/** Kotlin's `Long` and its decimal rendering `Long.toString()`, which names the
    backup-set directory of a token. */
module Decimal {

  /** A Kotlin/JVM `Long`: a signed 64-bit integer. */
  type Long = x: int | -0x8000_0000_0000_0000 <= x < 0x8000_0000_0000_0000

  predicate IsDigit(c: char) {
    '0' <= c <= '9'
  }

  function Digit(d: nat): (c: char)
    requires d < 10
    ensures IsDigit(c)
    ensures c as int - '0' as int == d
  {
    (48 + d) as char
  }

  /** The decimal digits of `n`, most significant first, without leading zeros. */
  function NatToString(n: nat): (s: string)
    ensures |s| >= 1
    ensures forall i :: 0 <= i < |s| ==> IsDigit(s[i])
    ensures |s| == 1 <==> n < 10
    ensures s[|s| - 1] == Digit(n % 10)
    decreases n
  {
    if n < 10 then [Digit(n)] else NatToString(n / 10) + [Digit(n % 10)]
  }

  /** `Long.toString()`: a minus sign before the digits of a negative value. */
  function LongToString(t: Long): (s: string)
    ensures |s| >= 1
    ensures IsDigit(s[0]) <==> t >= 0
    ensures t < 0 ==> s[0] == '-'
  {
    if t < 0 then "-" + NatToString(-(t as int)) else NatToString(t)
  }

  lemma {:induction false} NatToStringInjective(a: nat, b: nat)
    requires NatToString(a) == NatToString(b)
    ensures a == b
  {
    var sa, sb := NatToString(a), NatToString(b);
    if a >= 10 && b >= 10 {
      assert sa[..|sa| - 1] == NatToString(a / 10);
      assert sb[..|sb| - 1] == NatToString(b / 10);
      NatToStringInjective(a / 10, b / 10);
      assert a % 10 == b % 10 by {
        assert Digit(a % 10) == sa[|sa| - 1] == sb[|sb| - 1] == Digit(b % 10);
      }
    } else {
      assert a < 10 && b < 10;
      assert Digit(a) == sa[0] == sb[0] == Digit(b);
    }
  }

  /** Two different tokens never name the same backup-set directory. */
  lemma LongToStringInjective(s: Long, t: Long)
    requires LongToString(s) == LongToString(t)
    ensures s == t
  {
    var a, b := LongToString(s), LongToString(t);
    if s < 0 && t < 0 {
      assert NatToString(-(s as int)) == a[1..];
      assert NatToString(-(t as int)) == b[1..];
      NatToStringInjective(-(s as int), -(t as int));
    } else if s >= 0 && t >= 0 {
      NatToStringInjective(s, t);
    }
  }
}
