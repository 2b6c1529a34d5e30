/** Division facts the solver does not find by itself. */
module Arithmetic {

  /** Quotient and remainder are unique. */
  lemma DivModUnique(x: nat, d: nat, q: int, r: nat)
    requires 0 <= r < d && x == d * q + r
    ensures x / d == q && x % d == r
  {
    var gap := x / d - q;
    assert x == d * (x / d) + x % d;
    assert d * gap == d * (x / d) - d * q;
    Scale(gap, d);
  }

  lemma Scale(x: int, d: nat)
    ensures x >= 1 ==> d * x >= d
    ensures x <= -1 ==> d * x + d <= 0
  {}

  /** Two numbers with the same remainder are at least the divisor apart. */
  lemma SameRemainderApart(i: nat, j: nat, d: nat)
    requires d > 0 && i % d == j % d && i < j
    ensures i + d <= j
  {
    var gap := j / d - i / d;
    assert i == d * (i / d) + i % d && j == d * (j / d) + j % d;
    assert d * gap == d * (j / d) - d * (i / d);
    Scale(gap, d);
  }

  lemma NextStride(i: nat, d: nat)
    requires d > 0
    ensures (i + d) % d == i % d
  {
    assert i == d * (i / d) + i % d;
    DivModUnique(i + d, d, i / d + 1, i % d);
  }

  lemma MulSucc(a: int, b: int)
    ensures (a + 1) * b == a * b + b
  {}

  lemma SmallMod(t: nat, d: nat)
    requires t < d
    ensures t % d == t
  {}

  lemma ModBelow(i: nat, d: nat)
    requires d > 0
    ensures i % d <= i
  {}
}
