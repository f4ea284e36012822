/** The array waveform catalogue used by the graph widgets: every function
    maps an array of times to an array of amplitudes, element by element, and
    the divisions are guarded so that a near-zero denominator gives NaN
    (here `None`) instead of an error. */
module GuardedPlotting {
  import opened Common
  import opened Periodic

  /** `safe_val`: a denominator at most this large in magnitude counts as zero. */
  const SafeVal: real := 0.00001

  /** `safe_div(num, denom)`: NaN exactly when |denom| <= 1e-5 (the division
      is performed only where |denom| > 1e-5); elsewhere the true quotient. */
  function SafeDiv(num: real, denom: real): (r: Option<real>)
    ensures r.None? <==> Abs(denom) <= SafeVal
    ensures r.Some? ==> r.value * denom == num
  {
    if Abs(denom) > SafeVal then Some(num / denom) else None
  }

  /** The keys of `Signal_list`, one constructor each. */
  datatype Waveform = RandomMixed | Sine | Cos | Tan | Cosec | Sec | Cot | Triangle | Square

  /** The amplitude of waveform `w` at one time `t`. For `RandomMixed`,
      `draw` is what the random source adds to the 1 Hz sine at this sample
      (Gaussian noise plus an occasional spike); the other waveforms ignore
      it. The result is NaN exactly where a guarded denominator is near
      zero. */
  function Point(w: Waveform, tr: Trig, draw: real, t: real): (r: Option<real>)
    ensures r.None? <==>
      ((w == Tan || w == Sec) && Abs(tr.cos(Angle(tr, t))) <= SafeVal)
      || ((w == Cosec || w == Cot) && Abs(tr.sin(Angle(tr, t))) <= SafeVal)
    ensures w == Triangle ==> r.Some? && -1.0 <= r.value <= 1.0
    ensures w == Square ==> r.Some? && (r.value == 1.0 <==> Mod1(t) < 0.5) && (r.value == 1.0 || r.value == -1.0)
  {
    var x := Angle(tr, t);
    match w
    case RandomMixed => Some(tr.sin(x) + draw)
    case Sine => Some(tr.sin(x))
    case Cos => Some(tr.cos(x))
    case Tan => SafeDiv(tr.sin(x), tr.cos(x))
    case Cosec => SafeDiv(1.0, tr.sin(x))
    case Sec => SafeDiv(1.0, tr.cos(x))
    case Cot => SafeDiv(tr.cos(x), tr.sin(x))
    case Triangle => Some(TriangleWave(t))
    case Square => Some(SquareWave(t))
  }

  /** A defined tan, cot, sec or cosec value solves the waveform's defining
      equation: times its denominator it gives the numerator. */
  lemma PointSolvesQuotient(w: Waveform, tr: Trig, draw: real, t: real)
    requires Point(w, tr, draw, t).Some?
    ensures var y, x := Point(w, tr, draw, t).value, Angle(tr, t);
            (w == Tan ==> y * tr.cos(x) == tr.sin(x))
            && (w == Cot ==> y * tr.sin(x) == tr.cos(x))
            && (w == Sec ==> y * tr.cos(x) == 1.0)
            && (w == Cosec ==> y * tr.sin(x) == 1.0)
  {
  }

  /** A waveform applied to an array of times: the output has the input's
      length and element i is the waveform at t[i] alone. `draw(i)` is the
      random perturbation of sample i (used by `RandomMixed` only). */
  function Graph(w: Waveform, tr: Trig, draw: nat -> real, ts: seq<real>): (ys: seq<Option<real>>)
    ensures |ys| == |ts|
    ensures forall i :: 0 <= i < |ts| ==> ys[i] == Point(w, tr, draw(i), ts[i])
  {
    seq(|ts|, i requires 0 <= i < |ts| => Point(w, tr, draw(i), ts[i]))
  }

  /** The triangle and square arrays have period 1: shifting every time by
      one gives the same array. */
  lemma {:induction false} ShapesPeriodic(w: Waveform, tr: Trig, draw: nat -> real, ts: seq<real>, shifted: seq<real>)
    requires w == Triangle || w == Square
    requires |shifted| == |ts|
    requires forall i :: 0 <= i < |ts| ==> shifted[i] == ts[i] + 1.0
    ensures Graph(w, tr, draw, shifted) == Graph(w, tr, draw, ts)
  {
    forall i | 0 <= i < |ts|
      ensures Graph(w, tr, draw, shifted)[i] == Graph(w, tr, draw, ts)[i]
    {
      TrianglePeriodic(ts[i], 1);
      SquarePeriodic(ts[i], 1);
    }
  }

  /** Only the four guarded waveforms ever produce NaN. */
  lemma OnlyDivisionsUndefined(w: Waveform, tr: Trig, draw: nat -> real, ts: seq<real>, i: nat)
    requires i < |ts|
    requires Graph(w, tr, draw, ts)[i].None?
    ensures w in {Tan, Cosec, Sec, Cot}
  {
  }

  /** The entries of `Signal_list`, in the dictionary's insertion order. */
  function SignalEntries(): (es: seq<(string, Waveform)>)
    ensures |es| == 9
  {
    [("random_mixed", RandomMixed), ("sine", Sine), ("cos", Cos), ("tan", Tan),
     ("cosec", Cosec), ("sec", Sec), ("cot", Cot), ("triangle", Triangle),
     ("square", Square)]
  }

  /** `list(Signal_list.keys())`: the nine names, in insertion order, none
      repeated. */
  function SignalKeys(): (ks: seq<string>)
    ensures |ks| == 9
    ensures forall i, j :: 0 <= i < j < |ks| ==> ks[i] != ks[j]
    ensures forall i :: 0 <= i < |ks| ==> ks[i] == SignalEntries()[i].0
  {
    seq(9, i requires 0 <= i < 9 => SignalEntries()[i].0)
  }

  /** `Signal_list`: exactly the nine keys random_mixed, sine, cos, tan,
      cosec, sec, cot, triangle, square, each bound to its own waveform. */
  function SignalList(): (m: map<string, Waveform>)
    ensures m.Keys == {"random_mixed", "sine", "cos", "tan", "cosec", "sec", "cot", "triangle", "square"}
    ensures forall i :: 0 <= i < 9 ==> m[SignalEntries()[i].0] == SignalEntries()[i].1
  {
    map["random_mixed" := RandomMixed, "sine" := Sine, "cos" := Cos, "tan" := Tan,
        "cosec" := Cosec, "sec" := Sec, "cot" := Cot, "triangle" := Triangle,
        "square" := Square]
  }

  /** Every listed key is in the dictionary. */
  lemma {:induction false} SignalKeysAreKeys()
    ensures forall i :: 0 <= i < 9 ==> SignalKeys()[i] in SignalList()
  {
    var ks := SignalKeys();
    assert ks[0] == "random_mixed" && ks[1] == "sine" && ks[2] == "cos";
    assert ks[3] == "tan" && ks[4] == "cosec" && ks[5] == "sec";
    assert ks[6] == "cot" && ks[7] == "triangle" && ks[8] == "square";
  }

  /** Every key of the dictionary is listed: with SignalKeysAreKeys, the
      ordered key list and the dictionary's keys are the same set. */
  lemma {:induction false} KeysAreListed()
    ensures forall k :: k in SignalList() ==> exists i :: 0 <= i < 9 && SignalKeys()[i] == k
  {
    var ks := SignalKeys();
    assert ks[0] == "random_mixed" && ks[1] == "sine" && ks[2] == "cos";
    assert ks[3] == "tan" && ks[4] == "cosec" && ks[5] == "sec";
    assert ks[6] == "cot" && ks[7] == "triangle" && ks[8] == "square";
  }
}
