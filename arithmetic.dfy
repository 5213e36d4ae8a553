/** Facts about products and quotients of natural numbers that the solver does not find unaided. */
module Arithmetic {

  /** For b >= a and c >= 1, b * c >= a. */
  lemma MultiplyAtLeast(b: int, a: nat, c: nat)
    requires c >= 1
    ensures b >= a ==> b * c >= a
  {
    if b >= a {
      assert b * c == b + b * (c - 1);
      assert b * (c - 1) >= 0;
    }
  }

  /** a <= b scales to a * c <= b * c. */
  lemma MultiplyMonotone(a: nat, b: nat, c: nat)
    requires a <= b
    ensures a * c <= b * c
  {
    assert b * c == a * c + (b - a) * c;
  }

  /** a == q * n + r with 0 <= r < n fixes a / n and a % n. */
  lemma DivModOf(a: nat, n: nat, q: nat, r: nat)
    requires 0 <= r < n && a == q * n + r
    ensures a / n == q && a % n == r
  {
    var q', r' := a / n, a % n;
    assert a == q' * n + r';
    if q' < q {
      MultiplyMonotone(q' + 1, q, n);
      assert false;
    } else if q' > q {
      MultiplyMonotone(q + 1, q', n);
      assert false;
    }
  }
}
