/** Division facts the solver needs to be told. */
module Arithmetic {
  const U64: nat := 0x1_0000_0000_0000_0000

  lemma {:induction false} TimesApart(d: nat, a: nat, b: nat)
    requires a < b
    ensures d * a + d <= d * b
    decreases b
  {
    assert d * b == d * (b - 1) + d;
    if a < b - 1 { TimesApart(d, a, b - 1); }
  }

  /** Quotient and remainder are unique. */
  lemma DivMod(n: nat, d: nat, q: nat, r: nat)
    requires r < d && n == d * q + r
    ensures n / d == q && n % d == r
  {
    var p := n / d;
    assert n == d * p + n % d;
    if p < q { TimesApart(d, p, q); } else if p > q { TimesApart(d, q, p); }
  }

  /** The quotient moves on exactly when the divisor divides. */
  lemma DivStep(n: nat, d: nat)
    requires n >= 1 && d >= 1
    ensures n / d == (n - 1) / d + if n % d == 0 then 1 else 0
  {
    var q, r := (n - 1) / d, (n - 1) % d;
    assert n - 1 == d * q + r;
    if r + 1 < d {
      DivMod(n, d, q, r + 1);
    } else {
      assert d * (q + 1) == d * q + d;
      DivMod(n, d, q + 1, 0);
    }
  }

  lemma ModShift(n: nat, d: nat, k: nat)
    requires d >= 1
    ensures (n + d * k) % d == n % d && (n + d * k) / d == n / d + k
  {
    var q, r := n / d, n % d;
    assert n == d * q + r;
    assert d * (q + k) == d * q + d * k;
    DivMod(n + d * k, d, q + k, r);
  }
}
