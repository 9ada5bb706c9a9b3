/** The numeric primitives the animation formulas are built from.

    `Math.sin` is not computed: a `Sine` is any total function on the reals
    whose values stay in [-1, 1], which is the only fact about sine the
    bounds below depend on. `Math.random()` draws are values of `Unit`, the
    half-open interval [0, 1); a sequence of draws is supplied by the caller
    as an oracle function. */
module Trig {

  /** A stand-in for `Math.sin`: any total function bounded by [-1, 1]. */
  type Sine = f: real -> real | forall x :: -1.0 <= f(x) <= 1.0
    witness (x: real) => 0.0

  /** A single `Math.random()` result. */
  type Unit = r: real | 0.0 <= r < 1.0

  /** `Math.PI`, the double closest to pi, as an exact real. */
  const Pi: real := 3.141592653589793

  function Abs(x: real): real {
    if x < 0.0 then -x else x
  }

  function Max(a: real, b: real): real {
    if a < b then b else a
  }

  /** `THREE.MathUtils.lerp(a, b, w)`, which three.js defines as
      `(1 - w) * a + w * b`. */
  function Lerp(a: real, b: real, w: real): real {
    (1.0 - w) * a + w * b
  }

  lemma MulNonNegative(x: real, y: real)
    requires x >= 0.0 && y >= 0.0
    ensures x * y >= 0.0
  {
  }

  /** Scaling a sine value by a non-negative amplitude keeps it within that
      amplitude. */
  lemma ScaledSine(s: real, amp: real)
    requires -1.0 <= s <= 1.0
    requires amp >= 0.0
    ensures -amp <= s * amp <= amp
  {
    MulNonNegative(s + 1.0, amp);
    MulNonNegative(1.0 - s, amp);
  }

  /** For a weight in [0, 1], a lerp stays between its end points, and the
      weights 0 and 1 give exactly the end points. */
  lemma LerpBetween(a: real, b: real, w: real)
    requires a <= b
    requires 0.0 <= w <= 1.0
    ensures a <= Lerp(a, b, w) <= b
    ensures w == 0.0 ==> Lerp(a, b, w) == a
    ensures w == 1.0 ==> Lerp(a, b, w) == b
  {
    assert Lerp(a, b, w) == a + w * (b - a);
    MulNonNegative(w, b - a);
    MulNonNegative(1.0 - w, b - a);
  }

  /** The slow turn several scenes give their root group each frame:
      `rotation.y = elapsedTime * 0.1`. */
  function SlowSpin(t: real): real {
    t * 0.1
  }

  /** The angle depends on elapsed time alone: it starts at 0 and grows by
      0.1 radian per second, whatever happened in earlier frames. */
  lemma SlowSpinRate(t: real, d: real)
    ensures SlowSpin(t + d) - SlowSpin(t) == d * 0.1
    ensures SlowSpin(0.0) == 0.0
  {
  }
}
