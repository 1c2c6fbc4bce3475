/** Facts about integer division and remainders that the solver does not find alone. */
module Arith {
  /** Quotient and remainder are the only pair that rebuilds `a`. */
  lemma DivUnique(a: nat, d: nat, q: nat, r: nat)
    requires d >= 1 && r < d && a == q * d + r
    ensures a / d == q && a % d == r
  {
    var q', r' := a / d, a % d;
    assert (q - q') * d == r' - r;
    MulSmall(q - q', d);
  }

  lemma MulAtLeast(x: nat, d: int)
    requires x >= 1 && d >= 0
    ensures x * d >= d
  {
  }

  lemma MulSmall(x: int, d: int)
    requires d >= 1 && -d < x * d < d
    ensures x == 0
  {
    if x >= 1 {
      MulAtLeast(x, d);
    }
  }

  lemma MulDiv(q: nat, d: nat)
    requires d >= 1
    ensures (q * d) / d == q && (q * d) % d == 0
  {
    DivUnique(q * d, d, q, 0);
  }

  lemma MulMono(x: nat, y: nat, d: nat)
    requires x <= y
    ensures x * d <= y * d
  {
    assert y * d == x * d + (y - x) * d;
  }

  /** Fewer than `a / d` whole blocks of `d` fit into `a`. */
  lemma DivMulBound(a: nat, d: nat, k: nat)
    requires d >= 1 && k < a / d
    ensures (k + 1) * d <= a
  {
    MulMono(k + 1, a / d, d);
    assert (a / d) * d <= a;
  }

  /** The remainder advances by one, wrapping to 0 at `d`. */
  lemma ModNext(k: nat, d: nat)
    requires d >= 1
    ensures (k + 1) % d == (k % d + 1) % d
  {
    var q, r := k / d, k % d;
    assert k == q * d + r;
    if r + 1 < d {
      DivUnique(k + 1, d, q, r + 1);
      DivUnique(r + 1, d, 0, r + 1);
    } else {
      assert (q + 1) * d == q * d + d;
      DivUnique(k + 1, d, q + 1, 0);
      DivUnique(r + 1, d, 1, 0);
    }
  }

  /** The quotient grows by one exactly when `m + 1` is a multiple of `d`. */
  lemma DivStep(m: nat, d: nat)
    requires d >= 1
    ensures (m + 1) / d == m / d + (if (m + 1) % d == 0 then 1 else 0)
  {
    var q, r := m / d, m % d;
    if r + 1 < d {
      DivUnique(m + 1, d, q, r + 1);
    } else {
      assert m + 1 == (q + 1) * d;
      DivUnique(m + 1, d, q + 1, 0);
    }
  }
}
