/** Quotients by a variable divisor. */
module Division {
  /** The quotient and remainder of a division are unique. */
  lemma QuotientIs(t: nat, n: nat, q: int, r: nat)
    requires n > 0 && t == n * q + r && r < n
    ensures t / n == q
  {
    var d := t / n - q;
    assert n * (t / n) + t % n == t;
    assert n * d == r - t % n;
    MulLarge(n, d);
  }

  lemma MulLarge(n: nat, d: int)
    ensures d >= 1 ==> n * d >= n
    ensures d <= -1 ==> n * d + n <= 0
  {
    if d >= 1 {
      assert n * d == n + n * (d - 1);
    } else if d <= -1 {
      assert n * d + n == n * (d + 1);
    }
  }
}
