/** Facts about integer division and remainder used by the index computations. */
module Arithmetic {

  /** Multiplying by a positive number keeps the order of non-negative numbers. */
  lemma MulMono(a: int, b: int, w: int)
    requires 0 <= a <= b && w >= 1
    ensures 0 <= a * w <= b * w
  {
    assert b * w - a * w == (b - a) * w;
  }

  /** Cell `x` of row `row` of a `w` by `h` grid stored row after row lies inside the grid. */
  lemma RowMajorInRange(x: int, row: int, w: int, h: int)
    requires 0 <= x < w && 0 <= row < h
    ensures 0 <= x + row * w < w * h
  {
    MulMono(row, h - 1, w);
    assert (h - 1) * w + w == h * w;
  }

  /** k times m is at least m, for k and m at least 1. */
  lemma {:induction false} MulAtLeast(k: int, m: int)
    requires k >= 1 && m >= 1
    ensures k * m >= m
    decreases k
  {
    if k > 1 {
      MulAtLeast(k - 1, m);
      assert k * m == (k - 1) * m + m;
    }
  }

  /** A quotient and a remainder in range are the ones Dafny's `/` and `%` give. */
  lemma ModUnique(v: int, m: int, q: int, r: int)
    requires m >= 1 && 0 <= r < m && v == q * m + r
    ensures v % m == r && v / m == q
  {
    var q0 := v / m;
    var r0 := v % m;
    assert v == q0 * m + r0;
    if q > q0 {
      MulAtLeast(q - q0, m);
    } else if q < q0 {
      MulAtLeast(q0 - q, m);
    }
  }

  /** Adding the modulus does not change the remainder. */
  lemma ModShift(v: int, m: int)
    requires m >= 1
    ensures (v + m) % m == v % m
  {
    var q := v / m;
    assert v == q * m + v % m;
    assert v + m == (q + 1) * m + v % m;
    ModUnique(v + m, m, q + 1, v % m);
  }

  /** The remainder of a successor: one more, or 0 where the previous one was the last. */
  lemma ModSucc(k: int, m: int)
    requires m >= 1
    ensures (k + 1) % m == if k % m + 1 < m then k % m + 1 else 0
  {
    var q := k / m;
    assert k == q * m + k % m;
    if k % m + 1 < m {
      assert k + 1 == q * m + (k % m + 1);
      ModUnique(k + 1, m, q, k % m + 1);
    } else {
      assert k + 1 == (q + 1) * m + 0;
      ModUnique(k + 1, m, q + 1, 0);
    }
  }
}
