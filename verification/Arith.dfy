// Facts about products and quotients that the solver does not find by itself.
module Arith {
  lemma {:induction false} MulMonotone(k: nat, x: nat, y: nat)
    requires x <= y
    ensures k * x <= k * y
    decreases y
  {
    if x < y { MulMonotone(k, x, y - 1); }
  }

  lemma Grow(b: nat, p: nat, q: nat)
    requires p < q
    ensures b * p + b <= b * q
  {
    MulMonotone(b, p + 1, q);
    assert b * (p + 1) == b * p + b;
  }

  // Quotient and remainder are what they are.
  lemma DivMod(n: nat, b: nat, q: nat, r: nat)
    requires r < b && n == b * q + r
    ensures n / b == q && n % b == r
  {
    var p := n / b;
    assert n == b * p + n % b;
    if p < q { Grow(b, p, q); } else if q < p { Grow(b, q, p); }
  }
}
