/** Products and mixtures of reals, kept behind names so that proofs about them
    stay linear. */
module Reals {
  function Times(a: real, b: real): real { a * b }

  function Over(a: real, b: real): real
    requires b > 0.0
  {
    a / b
  }

  /** The mixture of `a` and `b` with weight `x` on `a`. */
  function Mix(x: real, a: real, b: real): real { x * a + (1.0 - x) * b }

  lemma {:induction false} TimesSign(a: real, b: real)
    requires 0.0 <= a && 0.0 <= b
    ensures 0.0 <= Times(a, b)
  {
  }

  lemma {:induction false} TimesMonotone(c: real, a: real, b: real)
    requires 0.0 <= c && a <= b
    ensures Times(c, a) <= Times(c, b)
  {
    TimesSign(c, b - a);
    assert Times(c, b) == Times(c, a) + Times(c, b - a);
  }

  lemma {:induction false} MixMonotone(x: real, a: real, b: real, c: real, d: real)
    requires 0.0 <= x <= 1.0 && a <= c && b <= d
    ensures Mix(x, a, b) <= Mix(x, c, d)
  {
    TimesSign(x, c - a);
    TimesSign(1.0 - x, d - b);
    assert Mix(x, c, d) == Mix(x, a, b) + Times(x, c - a) + Times(1.0 - x, d - b);
  }

  /** Moving weight to the larger component raises a mixture. */
  lemma {:induction false} MixTowardsLarger(x: real, y: real, a: real, b: real)
    requires x <= y && b <= a
    ensures Mix(x, a, b) <= Mix(y, a, b)
  {
    TimesSign(y - x, a - b);
    assert Mix(y, a, b) == Mix(x, a, b) + Times(y - x, a - b);
  }

  lemma {:induction false} MixConstant(x: real, a: real)
    ensures Mix(x, a, a) == a
  {
  }

  lemma {:induction false} MixSum(x: real, a: real, b: real, c: real, d: real)
    ensures Mix(x, a, b) + Mix(x, c, d) == Mix(x, a + c, b + d)
  {
  }
}
