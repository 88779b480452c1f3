/**
 * Python's integer helpers that the worker leans on: min and max, `int()`
 * of a float (truncation toward zero), and where a slice bound lands.
 */
module Numbers {

  function Min(a: int, b: int): int { if a <= b then a else b }
  function Max(a: int, b: int): int { if a >= b then a else b }

  /** Python's `int(x)` on a float: truncation toward zero. */
  function Trunc(x: real): (n: int)
    ensures x >= 0.0 ==> n >= 0 && n as real <= x < n as real + 1.0
    ensures x < 0.0 ==> n <= 0 && n as real - 1.0 < x <= n as real
  {
    if x >= 0.0 then x.Floor else -((-x).Floor)
  }

  /** Where a Python slice bound `k` falls in a list of length n (negative bounds count from the end). */
  function SliceBound(k: int, n: nat): (b: nat)
    ensures b <= n
    ensures 0 <= k <= n ==> b == k
    ensures k > n ==> b == n
    ensures k < 0 && n + k >= 0 ==> b == n + k
  {
    if k < 0 then (if n + k < 0 then 0 else n + k) else if k > n then n else k
  }

  lemma MulAtMostOne(r: real, x: real)
    requires 0.0 <= r <= 1.0 && x >= 0.0
    ensures r * x <= x
  {
    assert x - r * x == (1.0 - r) * x;
  }
}
