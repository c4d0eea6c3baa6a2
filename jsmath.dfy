/** JavaScript's `Math.round` on exact reals, and the facts about it the
    simulator's properties rest on. */
module JsMath {

  /** `Math.round(x)`: the nearest integer, halves rounded up (towards +infinity). */
  function Round(x: real): (r: int)
    ensures r as real - 0.5 <= x < r as real + 0.5
  {
    (x + 0.5).Floor
  }

  lemma RoundMonotone(x: real, y: real)
    requires x <= y
    ensures Round(x) <= Round(y)
  {
  }

  lemma RoundOfInt(n: int)
    ensures Round(n as real) == n
  {
  }

  /** Products of non-negative reals are monotone in both factors. */
  lemma MulMonotone(a0: real, a: real, b0: real, b: real)
    requires 0.0 <= a0 <= a && 0.0 <= b0 <= b
    ensures a0 * b0 <= a * b
  {
    assert a0 * b0 <= a * b0;
    assert a * b0 <= a * b;
  }
}
