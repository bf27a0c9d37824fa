/** Rounding a rational to the nearest integer, halves upwards. */
module Rounding {

  /** The integer nearest to `n / d`; of two equally near, the larger. */
  function Round(n: int, d: int): int
    requires d > 0
  {
    (2 * n + d) / (2 * d)
  }

  lemma {:induction false} DivBounds(a: int, b: int)
    requires b > 0
    ensures b * (a / b) <= a < b * (a / b) + b
  {
  }

  /** The quotient is the only integer within these bounds. */
  lemma {:induction false} DivIs(a: int, b: int, q: int)
    requires b > 0 && b * q <= a < b * q + b
    ensures a / b == q
  {
    DivBounds(a, b);
    var r := a / b;
    if r > q {
      assert b * r >= b * (q + 1) by { MulMonotone(b, q + 1, r); }
    } else if r < q {
      assert b * (r + 1) <= b * q by { MulMonotone(b, r + 1, q); }
    }
  }

  lemma {:induction false} MulMonotone(b: int, x: int, y: int)
    requires b >= 0 && x <= y
    ensures b * x <= b * y
  {
  }

  /** The error is at most one half, attained only when rounding up. */
  lemma {:induction false} RoundBounds(n: int, d: int)
    requires d > 0
    ensures -d <= 2 * n - 2 * (d * Round(n, d)) < d
  {
    DivBounds(2 * n + d, 2 * d);
  }

  lemma {:induction false} RoundMonotone(n: int, m: int, d: int)
    requires d > 0 && n <= m
    ensures Round(n, d) <= Round(m, d)
  {
    DivBounds(2 * n + d, 2 * d);
    DivBounds(2 * m + d, 2 * d);
    if Round(n, d) > Round(m, d) {
      MulMonotone(2 * d, Round(m, d) + 1, Round(n, d));
      assert false;
    }
  }

  /** Adding whole units commutes with rounding. */
  lemma {:induction false} RoundShift(n: int, k: int, d: int)
    requires d > 0
    ensures Round(n + k * d, d) == Round(n, d) + k
  {
    DivBounds(2 * n + d, 2 * d);
    var q := Round(n, d);
    assert 2 * d * (q + k) == 2 * d * q + 2 * d * k;
    assert 2 * (n + k * d) + d == 2 * n + d + 2 * d * k;
    DivIs(2 * (n + k * d) + d, 2 * d, q + k);
  }

  lemma {:induction false} RoundWhole(k: int, d: int)
    requires d > 0
    ensures Round(k * d, d) == k
  {
    DivIs(2 * (k * d) + d, 2 * d, k);
  }
}
