/** Decimal numerals, as `std::to_string` prints them: every generated identifier ends in one. */
module Decimal {

  predicate IsDigit(c: char) {
    '0' <= c <= '9'
  }

  function ToString(n: nat): (s: string)
    ensures |s| > 0
    ensures forall i :: 0 <= i < |s| ==> IsDigit(s[i])
  {
    var last := '0' + (n % 10) as char;
    if n < 10 then [last] else ToString(n / 10) + [last]
  }

  lemma {:induction false} Injective(m: nat, n: nat)
    requires ToString(m) == ToString(n)
    ensures m == n
  {
    var s, t := ToString(m), ToString(n);
    assert s[|s| - 1] == t[|t| - 1];
    assert m % 10 == n % 10;
    if m < 10 || n < 10 {
      assert |s| == 1;
    } else {
      assert s[..|s| - 1] == ToString(m / 10);
      assert t[..|t| - 1] == ToString(n / 10);
      Injective(m / 10, n / 10);
    }
  }

  /** The number that digits denote. */
  function Value(s: string): nat
    requires forall i :: 0 <= i < |s| ==> IsDigit(s[i])
  {
    if s == [] then 0
    else
      assert IsDigit(s[|s| - 1]);
      10 * Value(s[..|s| - 1]) + (s[|s| - 1] as int - '0' as int)
  }

  /** A numeral denotes its number, without leading zeros. */
  lemma {:induction false} Denotes(n: nat)
    ensures Value(ToString(n)) == n && (ToString(n)[0] == '0' ==> n == 0)
  {
    if n >= 10 {
      Denotes(n / 10);
      assert ToString(n)[..|ToString(n)| - 1] == ToString(n / 10);
    } else {
      assert Value([]) == 0;
      assert ToString(n)[..0] == [];
    }
  }

  /** An identifier `prefix-n` determines both its prefix and its number, whatever the prefix holds. */
  lemma SuffixInjective(p: string, m: nat, q: string, n: nat)
    requires p + "-" + ToString(m) == q + "-" + ToString(n)
    ensures p == q && m == n
  {
    var s, t := ToString(m), ToString(n);
    var x, y := p + "-" + s, q + "-" + t;
    assert x[|p|] == '-' && y[|q|] == '-';
    assert |p| == |q|;  // the longer prefix's dash would otherwise sit among the digits of the other numeral
    assert p == x[..|p|] == y[..|q|] == q;
    assert s == x[|p| + 1..] == y[|q| + 1..] == t;
    Injective(m, n);
  }
}
