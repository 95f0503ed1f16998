/**
 * Python's str() of an integer, used to build the dictionary keys
 * "buyer" + str(n) and "seller" + str(n) and the trader names "B_3_ZID".
 */
module Decimal {

  function DigitChar(d: nat): (c: char)
    requires d < 10
    ensures '0' <= c <= '9'
  {
    (('0' as int) + d) as char
  }

  /** The decimal digits of n, without leading zeros. */
  function NatToString(n: nat): (s: string)
    ensures 1 <= |s|
    ensures forall i :: 0 <= i < |s| ==> '0' <= s[i] <= '9'
  {
    if n < 10 then [DigitChar(n)] else NatToString(n / 10) + [DigitChar(n % 10)]
  }

  /** str(i): a minus sign followed by the digits of -i for a negative i. */
  function IntToString(i: int): (s: string)
    ensures 1 <= |s|
  {
    if i < 0 then "-" + NatToString(-i) else NatToString(i)
  }

  /** Different numbers have different decimal spellings. */
  lemma {:induction false} NatToStringInjective(n: nat, m: nat)
    requires NatToString(n) == NatToString(m)
    ensures n == m
  {
    var s := NatToString(n);
    if n < 10 && m < 10 {
      assert s[0] == DigitChar(n) && s[0] == DigitChar(m);
    } else if 10 <= n && 10 <= m {
      var pn := NatToString(n / 10);
      var pm := NatToString(m / 10);
      assert s == pn + [DigitChar(n % 10)];
      assert s == pm + [DigitChar(m % 10)];
      assert |pn| == |pm|;
      assert pn == s[..|s| - 1] == pm;
      assert DigitChar(n % 10) == s[|s| - 1] == DigitChar(m % 10);
      NatToStringInjective(n / 10, m / 10);
    }
  }

  /** str is injective on all integers, so the keys it builds never collide. */
  lemma IntToStringInjective(i: int, j: int)
    requires IntToString(i) == IntToString(j)
    ensures i == j
  {
    assert IntToString(i)[0] == '-' <==> i < 0;
    assert IntToString(j)[0] == '-' <==> j < 0;
    if i < 0 && j < 0 {
      var si := NatToString(-i);
      var sj := NatToString(-j);
      assert "-" + si == "-" + sj;
      assert si == ("-" + si)[1..] == ("-" + sj)[1..] == sj;
      NatToStringInjective(-i, -j);
    } else if 0 <= i && 0 <= j {
      NatToStringInjective(i, j);
    }
  }

  /** A fixed prefix followed by str(n) determines n. */
  lemma PrefixedIntInjective(prefix: string, i: int, j: int)
    requires prefix + IntToString(i) == prefix + IntToString(j)
    ensures i == j
  {
    var a := prefix + IntToString(i);
    assert IntToString(i) == a[|prefix|..];
    assert IntToString(j) == (prefix + IntToString(j))[|prefix|..];
    IntToStringInjective(i, j);
  }
}
