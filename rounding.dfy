/** Exact decimal rounding. Python's `round(x, k)` rounds to the nearest multiple
    of 10^-k with ties to the even neighbour; the model applies that rule to the
    exact quotient, expressed in units of 10^-k. */
module Rounding {

  /** The integer nearest to n / d, ties going to the even neighbour. */
  function RoundDiv(n: int, d: int): (r: int)
    requires d > 0
    ensures 2 * (n - r * d) <= d && 2 * (r * d - n) <= d
    ensures 2 * (n - r * d) == d || 2 * (r * d - n) == d ==> r % 2 == 0
    ensures n >= 0 ==> r >= 0
  {
    var q, rem := n / d, n % d;
    assert n == q * d + rem;
    assert (q + 1) * d == q * d + d;
    if 2 * rem < d then q
    else if 2 * rem > d then q + 1
    else if q % 2 == 0 then q
    else q + 1
  }

  /** A quotient between 0 and k rounds to a value between 0 and k. */
  lemma RoundDivBounds(n: int, d: int, k: int)
    requires d > 0 && 0 <= n <= k * d
    ensures 0 <= RoundDiv(n, d) <= k
  {
    var r := RoundDiv(n, d);
    if r < 0 {
      MulMonotone(r, -1, d);
    }
    if r > k {
      MulMonotone(k + 1, r, d);
    }
  }

  /** Multiplying by a positive number keeps the order. */
  lemma {:induction false} MulMonotone(a: int, b: int, d: int)
    requires a <= b && d > 0
    ensures a * d <= b * d
    decreases b - a
  {
    if a < b {
      MulMonotone(a + 1, b, d);
      assert (a + 1) * d == a * d + d;
    }
  }
}
