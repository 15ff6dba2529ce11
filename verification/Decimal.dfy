/** Numbers as the `%lu`, `%llu` and `%d` conversions print them, and the keys built from them. */
module Decimal {
  function Digit(d: nat): char
    requires d < 10
  {
    '0' + d as char
  }

  predicate IsDigits(s: string) {
    forall i :: 0 <= i < |s| ==> '0' <= s[i] <= '9'
  }

  function Dec(n: nat): (s: string)
    ensures s != [] && IsDigits(s)
  {
    if n < 10 then [Digit(n)] else Dec(n / 10) + [Digit(n % 10)]
  }

  function DecInt(n: int): string {
    if n < 0 then "-" + Dec(-n) else Dec(n)
  }

  function Parse(s: string): nat
    requires IsDigits(s)
  {
    if s == [] then 0 else 10 * Parse(s[..|s| - 1]) + (s[|s| - 1] - '0') as nat
  }

  lemma {:induction false} ParseDec(n: nat)
    ensures Parse(Dec(n)) == n
  {
    if n >= 10 {
      ParseDec(n / 10);
      assert Dec(n)[..|Dec(n)| - 1] == Dec(n / 10);
    }
  }

  lemma DecInjective(m: nat, n: nat)
    requires Dec(m) == Dec(n)
    ensures m == n
  {
    ParseDec(m);
    ParseDec(n);
  }

  lemma DecIntInjective(m: int, n: int)
    requires DecInt(m) == DecInt(n)
    ensures m == n
  {
    assert m < 0 <==> DecInt(m)[0] == '-';
    assert n < 0 <==> DecInt(n)[0] == '-';
    if m < 0 {
      assert DecInt(m)[1..] == Dec(-m) && DecInt(n)[1..] == Dec(-n);
      DecInjective(-m, -n);
    } else {
      DecInjective(m, n);
    }
  }

  /** The key `%d.%lu` of an account and a phone number. */
  function PairKey(k: (int, nat)): string {
    DecInt(k.0) + ['.'] + Dec(k.1)
  }

  lemma SplitAtDot(a: string, b: string, c: string, d: string)
    requires '.' !in a && '.' !in c
    requires a + ['.'] + b == c + ['.'] + d
    ensures a == c && b == d
  {
    var s := a + ['.'] + b;
    assert s[|a|] == '.' && s[|c|] == '.';
    assert forall i :: 0 <= i < |c| ==> s[i] == c[i] && s[i] in c;
    assert forall i :: 0 <= i < |a| ==> s[i] == a[i] && s[i] in a;
    assert |a| == |c|;
    assert a == s[..|a|] && c == s[..|c|];
    assert b == s[|a| + 1..] && d == s[|c| + 1..];
  }

  /** No two (account, phone) pairs share a key. */
  lemma PairKeyInjective(j: (int, nat), k: (int, nat))
    requires PairKey(j) == PairKey(k)
    ensures j == k
  {
    SplitAtDot(DecInt(j.0), Dec(j.1), DecInt(k.0), Dec(k.1));
    DecIntInjective(j.0, k.0);
    DecInjective(j.1, k.1);
  }
}
