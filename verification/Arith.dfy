/** Small facts of integer arithmetic used by the fee and pricing proofs. */
module Arith {
  /** Unsigned 64-bit values are below this. */
  const U64: nat := 0x1_0000_0000_0000_0000

  /** Signed 64-bit values are below this. */
  const I64: nat := 0x8000_0000_0000_0000

  /** An unsigned 64-bit value. */
  type Word = n: nat | n < U64

  /** A value that is not negative and fits a signed 64-bit integer. */
  type Small = n: nat | n < I64

  lemma MulMono(a: nat, b: nat, d: nat)
    requires a <= b
    ensures a * d <= b * d
  {
  }

  lemma Distribute(a: int, b: int, d: int)
    ensures (a + b) * d == a * d + b * d
  {
  }

  /** Euclidean division has a unique quotient and remainder. */
  lemma QuotientUnique(n: nat, d: nat, q: nat, r: nat)
    requires d > 0 && r < d && n == q * d + r
    ensures n / d == q && n % d == r
  {
    var q' := n / d;
    assert n == q' * d + n % d;
    if q < q' {
      MulMono(q + 1, q', d);
      Distribute(q, 1, d);
    } else if q' < q {
      MulMono(q' + 1, q, d);
      Distribute(q', 1, d);
    }
  }

  lemma DivideAgain(n: nat, d: nat)
    requires d > 0
    ensures n == n / d * d + n % d
  {
  }

  lemma AddMultiple(k: nat, t: nat, a: nat)
    requires a > 0
    ensures (k * a + t) / a == k + t / a && (k * a + t) % a == t % a
  {
    Distribute(k, t / a, a);
    QuotientUnique(k * a + t, a, k + t / a, t % a);
  }

  lemma DivideSucc(n: nat, a: nat)
    requires a > 0
    ensures n % a + 1 < a ==> (n + 1) / a == n / a && (n + 1) % a == n % a + 1
    ensures n % a + 1 == a ==> (n + 1) / a == n / a + 1 && (n + 1) % a == 0
  {
    if n % a + 1 < a {
      QuotientUnique(n + 1, a, n / a, n % a + 1);
    } else {
      Distribute(n / a, 1, a);
      QuotientUnique(n + 1, a, n / a + 1, 0);
    }
  }

  lemma Associate(a: int, b: int, c: int)
    ensures a * (b * c) == (a * b) * c
  {
  }

  lemma ExactQuotient(a: nat, b: nat)
    requires b > 0 && a > 0 && a % b == 0
    ensures a == (a / b) * b && a / b >= 1
  {
  }

  /** Dividing m * a + r by a divisor b of a. */
  lemma DivideMultiple(m: nat, a: nat, b: nat, r: nat)
    requires b > 0 && a > 0 && a % b == 0
    ensures m * (a / b) >= m
    ensures (m * a + r) / b == m * (a / b) + r / b
    ensures (m * a + r) % b == r % b
  {
    var c := a / b;
    ExactQuotient(a, b);
    MulMono(1, c, m);
    Associate(m, c, b);
    AddMultiple(m * c, r, b);
  }

  lemma DivMono(a: nat, b: nat, d: nat)
    requires d > 0 && a <= b
    ensures a / d <= b / d
  {
    if b / d < a / d {
      MulMono(b / d + 1, a / d, d);
      Distribute(b / d, 1, d);
    }
  }

  function CeilDiv(n: nat, d: nat): nat
    requires d > 0
  {
    (n + d - 1) / d
  }

  /** Rounding up: the least multiple of d that covers n. */
  lemma CeilCovers(n: nat, d: nat)
    requires d > 0
    ensures n <= d * CeilDiv(n, d) < n + d
  {
    var m := n + d - 1;
    assert m == d * (m / d) + m % d;
  }
}
