/**
 * The supervisor's random durations.  `Math.random()` is not modelled; its
 * value is passed in as `u`, any real in [0, 1).
 */
module Chance {

  import opened Arith

  /** An integer drawn from [min, max]: floor(u * (max - min + 1)) + min. */
  function GetRandomNum(min: int, max: int, u: real): (r: int)
    requires min <= max && 0.0 <= u < 1.0
    ensures min <= r <= max
  {
    var n := max - min + 1;
    ProductBelow(u, n);
    (u * n as real).Floor + min
  }

  lemma ProductBelow(u: real, n: int)
    requires n >= 1 && 0.0 <= u < 1.0
    ensures 0.0 <= u * n as real < n as real
  {
    assert n as real - u * n as real == (1.0 - u) * n as real;
  }

  lemma ProductOfQuotient(a: int, n: int)
    requires n >= 1
    ensures (a as real / n as real) * n as real == a as real
  {
  }

  /**
   * Every integer of [min, max] is drawn for some value of the random source:
   * the draw misses no value of the range.
   */
  lemma GetRandomNumCovers(min: int, max: int, k: int)
    requires min <= k <= max
    ensures var u := (k - min) as real / (max - min + 1) as real;
            0.0 <= u < 1.0 && GetRandomNum(min, max, u) == k
  {
    var n := max - min + 1;
    var u := (k - min) as real / n as real;
    ProductOfQuotient(k - min, n);
    assert u * n as real == (k - min) as real;
    assert u < 1.0 by {
      if u >= 1.0 {
        RealMulAtLeast(u, n as real);
        assert false;
      }
    }
  }

  /** A larger value of the random source never yields a smaller duration. */
  lemma GetRandomNumMonotone(min: int, max: int, u: real, v: real)
    requires min <= max && 0.0 <= u <= v < 1.0
    ensures GetRandomNum(min, max, u) <= GetRandomNum(min, max, v)
  {
    var n := max - min + 1;
    assert u * n as real <= v * n as real by {
      assert v * n as real - u * n as real == (v - u) * n as real;
    }
  }
}
