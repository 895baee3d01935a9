/** Rounded division, and the monotonicity facts every rounding argument rests on. */
module Division {

  function FloorDiv(a: nat, d: int): (q: nat)
    requires d > 0
    ensures q * d <= a < (q + 1) * d
    ensures q <= a
  {
    a / d
  }

  function CeilDiv(a: nat, d: int): (q: nat)
    requires d > 0
    ensures a <= q * d < a + d
  {
    (a + d - 1) / d
  }

  lemma MulMono(x: int, y: int, z: int)
    requires x <= y && 0 <= z
    ensures x * z <= y * z
  {
  }

  lemma MulStrict(x: int, y: int, z: int)
    requires x < y && 0 < z
    ensures x * z < y * z
  {
  }

  /** Cancelling a positive factor. */
  lemma CancelLe(x: int, y: int, z: int)
    requires x * z <= y * z && 0 < z
    ensures x <= y
  {
    if y < x {
      MulStrict(y, x, z);
    }
  }

  lemma CancelLt(x: int, y: int, z: int)
    requires x * z < y * z && 0 <= z
    ensures x < y
  {
    if y <= x {
      MulMono(y, x, z);
    }
  }

  /** The floor is the largest integer whose multiple does not exceed the dividend. */
  lemma FloorAtLeast(a: nat, d: int, k: nat)
    requires 0 < d && k * d <= a
    ensures k <= FloorDiv(a, d)
  {
    var q := FloorDiv(a, d);
    CancelLt(k, q + 1, d);
  }

  lemma FloorBelow(a: nat, d: int, k: nat)
    requires 0 < d && a < k * d
    ensures FloorDiv(a, d) < k
  {
    var q := FloorDiv(a, d);
    CancelLt(q, k, d);
  }

  /** The ceiling is the smallest integer whose multiple reaches the dividend. */
  lemma CeilAtMost(a: nat, d: int, k: nat)
    requires 0 < d && a <= k * d
    ensures CeilDiv(a, d) <= k
  {
    var q := CeilDiv(a, d);
    assert (q - 1) * d == q * d - d;
    CancelLt(q - 1, k, d);
  }

  lemma FloorMono(a: nat, b: nat, d: int)
    requires 0 < d && a <= b
    ensures FloorDiv(a, d) <= FloorDiv(b, d)
  {
    FloorAtLeast(b, d, FloorDiv(a, d));
  }
}
