/** Numbers as printed by `%d`. */
module Decimal {

  function Digit(d: nat): char
    requires d < 10
  {
    "0123456789"[d]
  }

  predicate IsDigit(c: char) { '0' <= c <= '9' }

  function Dec(n: nat): string {
    if n < 10 then [Digit(n)] else Dec(n / 10) + [Digit(n % 10)]
  }

  function Power10(k: nat): nat {
    if k == 0 then 1 else 10 * Power10(k - 1)
  }

  function DigitValue(c: char): nat
    requires IsDigit(c)
  {
    (c - '0') as nat
  }

  function Value(s: string): nat
    requires forall i :: 0 <= i < |s| ==> IsDigit(s[i])
  {
    if s == [] then 0 else 10 * Value(s[..|s| - 1]) + DigitValue(s[|s| - 1])
  }

  lemma {:induction false} DecReads(n: nat)
    ensures Dec(n) != [] && (forall i :: 0 <= i < |Dec(n)| ==> IsDigit(Dec(n)[i])) && Value(Dec(n)) == n
  {
    DigitReads(n % 10);
    if n < 10 {
      assert [Digit(n)][..0] == [];
    } else {
      DecReads(n / 10);
      var front, last := Dec(n / 10), Digit(n % 10);
      assert Dec(n) == front + [last] && (front + [last])[..|front|] == front;
    }
  }

  lemma DigitReads(d: nat)
    requires d < 10
    ensures IsDigit(Digit(d)) && DigitValue(Digit(d)) == d
  {
  }

  lemma DecInjective(m: nat, n: nat)
    requires Dec(m) == Dec(n)
    ensures m == n
  {
    DecReads(m);
    DecReads(n);
  }

  lemma {:induction false} DecLength(n: nat, k: nat)
    requires k > 0
    ensures |Dec(n)| <= k <==> n < Power10(k)
  {
    if k == 1 {
      assert Power10(1) == 10;
      if n >= 10 { DecReads(n / 10); }
    } else if n >= 10 {
      DecLength(n / 10, k - 1);
    } else {
      PowerGrows(k);
    }
  }

  lemma {:induction false} PowerGrows(k: nat)
    requires k > 0
    ensures Power10(k) >= 10
  {
    if k > 1 { PowerGrows(k - 1); }
  }
}
