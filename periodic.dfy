/** What both waveform catalogues share: the math library they call, Python's
    floor modulo `t % 1`, and the triangle and square shapes built on it. */
module Periodic {
  import opened Common

  /** The floating-point primitives the catalogues call (`math.pi`,
      `math.sin`, `math.cos`, `math.tan` and their numpy counterparts), kept
      abstract: nothing is assumed about them. */
  datatype Trig = Trig(pi: real, sin: real -> real, cos: real -> real, tan: real -> real)

  /** The argument 2*pi*t every trigonometric waveform is evaluated at. */
  function Angle(tr: Trig, t: real): real
  {
    2.0 * tr.pi * t
  }

  /** Python's `t % 1` on a float: floor modulo, so the result lies in [0, 1)
      even for negative t, and t differs from it by a whole number. */
  function Mod1(t: real): (r: real)
    ensures 0.0 <= r < 1.0
    ensures (t - r).Floor as real == t - r
  {
    t - t.Floor as real
  }

  /** `t % 1` does not change when t moves by a whole number of periods. */
  lemma {:induction false} Mod1Shift(t: real, k: int)
    ensures Mod1(t + k as real) == Mod1(t)
  {
    var f := t.Floor;
    assert f as real <= t + k as real - k as real < f as real + 1.0;
    assert (t + k as real).Floor == f + k;
  }

  /** `t % 1` of a whole number is 0, and only whole numbers give 0. */
  lemma Mod1ZeroIff(t: real)
    ensures Mod1(t) == 0.0 <==> t.Floor as real == t
  {
  }

  /** `2 * abs(2 * (t % 1) - 1) - 1`: the triangle wave of period 1, which
      never leaves [-1, 1]. */
  function TriangleWave(t: real): (r: real)
    ensures -1.0 <= r <= 1.0
  {
    2.0 * Abs(2.0 * Mod1(t) - 1.0) - 1.0
  }

  /** `1 if t % 1 < 0.5 else -1`: the square wave of period 1; it takes no
      value other than 1 and -1. */
  function SquareWave(t: real): (r: real)
    ensures r == 1.0 || r == -1.0
    ensures r == 1.0 <==> Mod1(t) < 0.5
  {
    if Mod1(t) < 0.5 then 1.0 else -1.0
  }

  /** An independent, piecewise-linear description of the triangle wave: it
      falls from 1 to -1 on the first half period and rises back on the second. */
  lemma TrianglePiecewise(t: real)
    ensures Mod1(t) < 0.5 ==> TriangleWave(t) == 1.0 - 4.0 * Mod1(t)
    ensures Mod1(t) >= 0.5 ==> TriangleWave(t) == 4.0 * Mod1(t) - 3.0
  {
  }

  /** The triangle reaches 1 exactly at whole t and -1 exactly at half-way
      points. */
  lemma TriangleExtremes(t: real)
    ensures TriangleWave(t) == 1.0 <==> Mod1(t) == 0.0
    ensures TriangleWave(t) == -1.0 <==> Mod1(t) == 0.5
  {
  }

  lemma {:induction false} TrianglePeriodic(t: real, k: int)
    ensures TriangleWave(t + k as real) == TriangleWave(t)
  {
    Mod1Shift(t, k);
  }

  lemma {:induction false} SquarePeriodic(t: real, k: int)
    ensures SquareWave(t + k as real) == SquareWave(t)
  {
    Mod1Shift(t, k);
  }

  /** The triangle wave is symmetric about t = 0, because `(-t) % 1` is
      `1 - t % 1` away from whole numbers. */
  lemma {:induction false} TriangleEven(t: real)
    ensures TriangleWave(-t) == TriangleWave(t)
  {
    var f := t.Floor;
    if f as real == t {
      assert (-t).Floor == -f;
      assert Mod1(-t) == 0.0 == Mod1(t);
    } else {
      assert (-t).Floor == -f - 1;
      assert Mod1(-t) == 1.0 - Mod1(t);
    }
  }
}
