/** Facts about products and remainders that the solver does not find by itself. */
module Arithmetic {

  lemma {:induction false} MultipleIsLarge(n: nat, d: nat)
    requires d >= 1
    ensures n * d >= n
    decreases d
  {
    if d > 1 {
      MultipleIsLarge(n, d - 1);
    }
  }

  /** Division with remainder is unique. */
  lemma Quotient(n: nat, a: int, r: nat, b: int, t: nat)
    requires r < n && t < n && n * a + r == n * b + t
    ensures a == b && r == t
  {
    if a > b {
      MultipleIsLarge(n, a - b);
    } else if a < b {
      MultipleIsLarge(n, b - a);
    }
  }

  /** Stepping at most once round a circle of n places. */
  lemma Wrap(a: nat, n: nat)
    requires n > 0 && a < 2 * n
    ensures a % n == if a < n then a else a - n
  {
    if a < n {
      Quotient(n, a / n, a % n, 0, a);
    } else {
      Quotient(n, a / n, a % n, 1, a - n);
    }
  }
}
