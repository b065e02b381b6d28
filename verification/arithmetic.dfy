/** Small facts about products, quotients and remainders. */
module Arithmetic {

  function Min(a: nat, b: nat): nat {
    if a < b then a else b
  }

  lemma MulMono(a: int, b: int, c: nat)
    ensures a <= b ==> a * c <= b * c
  {
  }

  lemma MulStep(i: int, n: int, p: nat)
    requires i < n
    ensures i * p + p <= n * p
  {
    MulMono(i + 1, n, p);
    assert (i + 1) * p == i * p + p;
  }

  lemma DivBound(f: nat, n: nat, p: nat)
    requires p > 0 && f < n * p
    ensures 0 <= f / p < n && 0 <= f % p < p && f == f / p * p + f % p
  {
    MulMono(n, f / p, p);
  }

  lemma DivUnique(f: nat, q: nat, p: nat, r: nat)
    requires f == q * p + r && r < p
    ensures f / p == q && f % p == r
  {
    if f / p < q { MulStep(f / p, q, p); }
    if f / p > q { MulStep(q, f / p, p); }
  }

  lemma Distribute(x: int, y: int, z: int, p: int)
    ensures x * (y * p) + z * p == (x * y + z) * p
  {
  }

  lemma ZeroMul(a: nat, b: nat)
    ensures b == 0 ==> a * b == 0
  {
  }

  lemma AddMul(x: nat, y: nat, p: nat)
    ensures (x + y) * p == x * p + y * p
  {
  }

  /** The quotient of natural numbers. */
  function Quotient(a: nat, m: nat): (q: nat)
    requires m > 0
    ensures q * m <= a < q * m + m
  {
    a / m
  }

  lemma QuotientUnique(a: nat, q: nat, m: nat)
    requires m > 0 && q * m <= a < q * m + m
    ensures Quotient(a, m) == q
  {
    DivUnique(a, q, m, a - q * m);
  }

  lemma SumQuotient(a: nat, b: nat, m: nat)
    requires m > 0
    ensures Quotient(a, m) + Quotient(b, m) <= Quotient(a + b, m) <= Quotient(a, m) + Quotient(b, m) + 1
  {
    hide Quotient;
    var q := Quotient(a, m) + Quotient(b, m);
    AddMul(Quotient(a, m), Quotient(b, m), m);
    AddMul(q, 1, m);
    if a + b < q * m + m {
      QuotientUnique(a + b, q, m);
    } else {
      QuotientUnique(a + b, q + 1, m);
    }
  }
}
