/** The scalar waveform catalogue used by the sample worker: each function
    takes one time and returns one amplitude. The reciprocal waveforms divide
    without a guard, so where their denominator is exactly zero Python's
    `1 / x` raises ZeroDivisionError; the model returns `None` there. */
module ScalarPlotting {
  import opened Common
  import opened Periodic

  /** The eight scalar waveforms. */
  datatype Wave = Sine | Cosine | Tangent | Cosecant | Secant | Cotangent | Square | Triangle

  /** The amplitude of `w` at time `t`, or `None` when the call raises
      ZeroDivisionError: cosecant and secant raise exactly where sin(2*pi*t),
      resp. cos(2*pi*t), is zero, and cotangent (1 / tan) exactly where
      tan(2*pi*t) is zero; the others never raise. */
  function Eval(w: Wave, tr: Trig, t: real): (r: Option<real>)
    ensures r.None? <==>
      (w == Cosecant && tr.sin(Angle(tr, t)) == 0.0)
      || (w == Secant && tr.cos(Angle(tr, t)) == 0.0)
      || (w == Cotangent && tr.tan(Angle(tr, t)) == 0.0)
    ensures w == Triangle ==> r.Some? && -1.0 <= r.value <= 1.0
    ensures w == Square ==> r.Some? && (r.value == 1.0 <==> Mod1(t) < 0.5) && (r.value == 1.0 || r.value == -1.0)
  {
    var x := Angle(tr, t);
    match w
    case Sine => Some(tr.sin(x))
    case Cosine => Some(tr.cos(x))
    case Tangent => Some(tr.tan(x))
    case Cosecant => Reciprocal(tr.sin(x))
    case Secant => Reciprocal(tr.cos(x))
    case Cotangent => Reciprocal(tr.tan(x))
    case Square => Some(SquareWave(t))
    case Triangle => Some(TriangleWave(t))
  }

  /** A reciprocal waveform's value times its denominator is 1. */
  lemma EvalSolvesReciprocal(w: Wave, tr: Trig, t: real)
    requires Eval(w, tr, t).Some?
    ensures var y, x := Eval(w, tr, t).value, Angle(tr, t);
            (w == Cosecant ==> y * tr.sin(x) == 1.0)
            && (w == Secant ==> y * tr.cos(x) == 1.0)
            && (w == Cotangent ==> y * tr.tan(x) == 1.0)
  {
  }

  /** Python's `1 / x` on a float: ZeroDivisionError (None) exactly at zero. */
  function Reciprocal(x: real): (r: Option<real>)
    ensures r.None? <==> x == 0.0
    ensures r.Some? ==> r.value * x == 1.0
  {
    if x == 0.0 then None else Some(1.0 / x)
  }

  /** The triangle and square waveforms take their extreme values where the
      scalar catalogue promises: the triangle is 1 at whole t and -1 half-way
      between, the square is 1 on the first half of every period. */
  lemma {:induction false} ShapeLandmarks(tr: Trig, k: int)
    ensures Eval(Triangle, tr, k as real) == Some(1.0)
    ensures Eval(Triangle, tr, k as real + 0.5) == Some(-1.0)
    ensures Eval(Square, tr, k as real) == Some(1.0)
    ensures Eval(Square, tr, k as real + 0.5) == Some(-1.0)
  {
    Mod1Shift(0.0, k);
    Mod1Shift(0.5, k);
    TriangleExtremes(k as real);
    TriangleExtremes(k as real + 0.5);
  }
}
