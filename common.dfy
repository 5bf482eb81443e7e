/** Small vocabulary shared by every part of the rover console model:
    an optional value (JavaScript's `null`), absolute values, JavaScript's
    `Math.round` on exact reals and the `[0,1]` clamp used for the speed
    multiplier. */
module Common {

  /** A value that may be absent; `None` stands for the source's `null`. */
  datatype Option<+T> = None | Some(value: T)

  /** `Math.abs` on integers. */
  function Abs(x: int): (r: nat)
    ensures r == x || r == -x
  {
    if x < 0 then -x else x
  }

  /** `Math.abs` on reals. */
  function AbsReal(x: real): (r: real)
    ensures r >= 0.0 && (r == x || r == -x)
  {
    if x < 0.0 then -x else x
  }

  /** `Math.max` on reals. */
  function MaxReal(a: real, b: real): (r: real)
    ensures r >= a && r >= b && (r == a || r == b)
  {
    if a >= b then a else b
  }

  /** JavaScript's `Math.round`: the nearest integer, halves rounded towards
      plus infinity (`Math.round(-0.5) == 0`, `Math.round(0.5) == 1`). */
  function Round(x: real): (r: int)
    ensures r as real <= x + 0.5 < r as real + 1.0
  {
    (x + 0.5).Floor
  }

  /** `Math.max(0, Math.min(1, x))`. */
  function Clamp01(x: real): (r: real)
    ensures 0.0 <= r <= 1.0
    ensures 0.0 <= x <= 1.0 ==> r == x
    ensures x < 0.0 ==> r == 0.0
    ensures x > 1.0 ==> r == 1.0
  {
    if x > 1.0 then 1.0 else if x < 0.0 then 0.0 else x
  }

  /** `Math.round` is monotone. */
  lemma RoundMonotone(a: real, b: real)
    requires a <= b
    ensures Round(a) <= Round(b)
  {
  }

  /** Rounding a negated value never lands below the negated rounding:
      `Math.round(-a) >= -Math.round(a)` (they differ exactly at halves). */
  lemma RoundOfNegation(a: real)
    ensures Round(-a) >= -Round(a)
  {
    var k := Round(a);
    assert a < k as real + 0.5;
    assert -a + 0.5 > -(k as real);
  }

  /** For `x` between `-a` and `a`, `|Math.round(x)| <= Math.round(a)`. */
  lemma RoundWithin(x: real, a: real)
    requires -a <= x <= a
    ensures Abs(Round(x)) <= Round(a)
  {
    RoundMonotone(x, a);
    RoundMonotone(-a, x);
    RoundOfNegation(a);
  }
}
