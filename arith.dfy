/** Facts of real and integer arithmetic the timing proofs rely on. */
module Arith {

  lemma RealMulAtLeast(x: real, m: real)
    requires m > 0.0 && x >= 1.0
    ensures x * m >= m
  {
    assert x * m == m + (x - 1.0) * m;
  }

  lemma DivBelowOne(t: real, m: real)
    requires m > 0.0 && 0.0 <= t < m
    ensures 0.0 <= t / m < 1.0
  {
    var x := t / m;
    assert x * m == t;
    if x >= 1.0 {
      RealMulAtLeast(x, m);
      assert false;
    }
  }

  lemma DivShift(t: real, m: real, k: real)
    requires m > 0.0
    ensures (t + k * m) / m == t / m + k
  {
    assert (t / m + k) * m == t + k * m;
  }

  lemma MulAtLeast(k: int, m: int)
    requires m > 0 && k >= 1
    ensures k * m >= m
  {
    assert k * m == m + (k - 1) * m;
  }

  /** Euclidean division has one quotient and one remainder. */
  lemma ModUnique(a: int, m: int, q: int, r: int)
    requires m > 0 && 0 <= r < m && a == q * m + r
    ensures a % m == r
  {
    var q0, r0 := a / m, a % m;
    assert (q - q0) * m == r0 - r by {
      assert (q - q0) * m == q * m - q0 * m;
    }
    if q > q0 {
      MulAtLeast(q - q0, m);
    } else if q < q0 {
      MulAtLeast(q0 - q, m);
    }
  }

  lemma ModAddMultiple(a: int, n: nat, m: int, k: int)
    requires m > 0 && k == n * m
    ensures (a + k) % m == a % m
  {
    assert a + n * m == (a / m + n) * m + a % m by {
      assert (a / m + n) * m == (a / m) * m + n * m;
    }
    ModUnique(a + k, m, a / m + n, a % m);
  }

  lemma FloorShift(t: real, m: real, k: int)
    requires m > 0.0
    ensures ((t + k as real * m) / m).Floor == (t / m).Floor + k
  {
    DivShift(t, m, k as real);
  }
}
