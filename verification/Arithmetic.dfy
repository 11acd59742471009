/** Facts about products, quotients and remainders. */
module Arithmetic {

  lemma NoMultipleIsSmaller(p: int, x: int)
    requires -p < p * x < p
    ensures x == 0
  {
  }

  /** Quotient and remainder are determined by what they multiply back to. */
  lemma QuotientIs(n: int, p: nat, d: int, r: nat)
    requires p > 0 && n == p * d + r && r < p
    ensures n / p == d && n % p == r
  {
    assert p * (n / p - d) == p * (n / p) - p * d;
    NoMultipleIsSmaller(p, n / p - d);
  }

  /** A number already below the modulus, and the same number one modulus away. */
  lemma Reduced(x: nat, p: nat)
    requires x < p
    ensures x % p == x && (x + p) % p == x && (x - p) % p == x
  {
    QuotientIs(x, p, 0, x);
    QuotientIs(x + p, p, 1, x);
    QuotientIs(x - p, p, -1, x);
  }

  lemma ProductOrder(a: nat, b: nat, x: nat, y: nat)
    requires a <= x && b <= y
    ensures a * b <= x * y
  {
    assert x * y - a * b == (x - a) * y + a * (y - b);
  }

  lemma SquareOrder(a: nat, b: nat)
    ensures a * a < b * b <==> a < b
  {
    assert b * b - a * a == (b - a) * (b + a);
  }
}
