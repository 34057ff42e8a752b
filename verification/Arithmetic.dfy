/** Products and remainders by a variable. */
module Arithmetic {

  lemma MulSucc(n: nat, unit: nat)
    ensures (n + 1) * unit == n * unit + unit
  {
  }

  /** Multiples keep the order of their factors, and distinct ones are a unit apart. */
  lemma MulOrder(q: nat, p: nat, n: nat)
    ensures p > q ==> p * n >= q * n + n
    ensures p <= q ==> p * n <= q * n
  {
    var d := p - q;
    assert p * n == q * n + d * n;
    assert d >= 1 ==> d * n >= n;
    assert d <= 0 ==> d * n <= 0;
  }

  lemma DivIs(a: nat, b: nat, n: nat, r: nat)
    requires b > 0 && a == n * b + r && r < b
    ensures a / b == n && a % b == r
  {
    assert a == (a / b) * b + a % b;
    MulOrder(a / b, n, b);
    MulOrder(n, a / b, b);
  }

  lemma ModIs(q: nat, n: nat, r: nat)
    requires r < n
    ensures (q * n + r) % n == r
  {
    DivIs(q * n + r, n, q, r);
  }

  /** Reducing first changes nothing. */
  lemma ModAdd(a: nat, i: nat, n: nat)
    requires n > 0
    ensures (a % n + i) % n == (a + i) % n
  {
    var q := a / n;
    var s := a % n + i;
    var p := s / n;
    assert a == q * n + a % n && s == p * n + s % n;
    assert a + i == (q + p) * n + s % n;
    ModIs(q + p, n, s % n);
  }

  /** Numbers less than n apart have different remainders. */
  lemma ModApart(a: nat, b: nat, n: nat)
    requires a < b < a + n
    ensures a % n != b % n
  {
    var q, p, r, t := a / n, b / n, a % n, b % n;
    assert a == q * n + r && b == p * n + t;
    MulOrder(q, p, n);
    assert p > q ==> b - a >= n + t - r;
    assert p <= q ==> b - a <= t - r;
  }
}
