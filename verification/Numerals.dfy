// Numbers as digits, most significant first.

module Numerals {
  lemma ScalesUp(a: nat, x: nat, y: nat)
    requires x <= y
    ensures a * x <= a * y
  {
  }

  lemma QuotientAndRemainder(n: nat, base: nat)
    requires base > 0
    ensures n / base * base + n % base == n
  {
  }

  lemma QuotientIsSmaller(n: nat, base: nat)
    requires n >= base >= 2
    ensures n / base < n
  {
    ScalesUp(n / base, 2, base);
  }

  function Digits(n: nat, base: nat): (ds: seq<nat>)
    requires base >= 2
    ensures |ds| > 0 && forall d <- ds :: d < base
    decreases n
  {
    if n < base then [n]
    else
      QuotientIsSmaller(n, base);
      Digits(n / base, base) + [n % base]
  }

  function Value(ds: seq<nat>, base: nat): nat {
    if ds == [] then 0 else Value(ds[..|ds| - 1], base) * base + ds[|ds| - 1]
  }

  lemma {:induction false} DigitsHaveValue(n: nat, base: nat)
    requires base >= 2
    ensures Value(Digits(n, base), base) == n
    decreases n
  {
    var ds := Digits(n, base);
    if n < base {
      assert ds[..0] == [];
    } else {
      QuotientIsSmaller(n, base);
      DigitsHaveValue(n / base, base);
      ValueAppends(Digits(n / base, base), n % base, base);
      QuotientAndRemainder(n, base);
    }
  }

  lemma ValueAppends(ds: seq<nat>, d: nat, base: nat)
    ensures Value(ds + [d], base) == Value(ds, base) * base + d
  {
    assert (ds + [d])[..|ds|] == ds;
  }

  function Decimal(n: nat): string {
    var ds := Digits(n, 10);
    seq(|ds|, i requires 0 <= i < |ds| => assert ds[i] in ds; "0123456789"[ds[i]])
  }
}
