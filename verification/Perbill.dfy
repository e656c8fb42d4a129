/**
  Fixed-point fractions in parts per billion, as the runtime library provides them to the
  pallets.  The proofs about rewards use only the three contracts below.
 */
module Perbill {

  const ACCURACY: nat := 1_000_000_000

  type Perbill = p: nat | p <= ACCURACY

  /** p / q as a fraction, rounded down and clamped to one; a zero denominator counts as one. */
  function FromRational(p: nat, q: nat): (r: Perbill)
    ensures q > 0 ==> r * q <= p * ACCURACY
    ensures 0 < q && p <= q ==> p * ACCURACY < (r + 1) * q
    ensures p == 0 ==> r == 0
  {
    var d := if q == 0 then 1 else q;
    var n := if p <= d then p else d;
    FloorBound(n, d);
    n * ACCURACY / d
  }

  lemma FloorBound(n: nat, d: nat)
    requires 0 < d && n <= d
    ensures 0 <= n * ACCURACY / d <= ACCURACY
    ensures n * ACCURACY / d * d <= n * ACCURACY < (n * ACCURACY / d + 1) * d
  {
    var r := n * ACCURACY / d;
    assert n * ACCURACY == r * d + n * ACCURACY % d;
    if r > ACCURACY {
      MulMono(ACCURACY + 1, r, d);
      MulMono(n, d, ACCURACY);
      assert false;
    }
    if r < 0 {
      MulMono(r, -1, d);
      assert false;
    }
  }

  lemma MulMono(x: int, y: int, z: nat)
    requires x <= y
    ensures x * z <= y * z
  {
  }

  /**
    The fraction r of x, rounded to the nearest unit, ties down: less than one half too much, at most
    one half too little.
   */
  function Of(r: Perbill, x: nat): (y: nat)
    ensures 2 * ACCURACY * y < 2 * (r * x) + ACCURACY
    ensures 2 * (r * x) <= 2 * ACCURACY * y + ACCURACY
    ensures y <= x
  {
    MulMono(r, ACCURACY, x);
    (r * x + 499_999_999) / ACCURACY
  }
}
