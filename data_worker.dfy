/** The sample worker: a flag-controlled loop that, at every iteration,
    evaluates two named waveforms at the current time, emits the triple
    (t, y1, y2) and advances t by dt. The loop is modelled one iteration at a
    time (`Tick`); the thread, the Qt signal and the sleep between
    iterations are not part of the model. */
module Worker {
  import opened Common
  import opened Periodic
  import opened ScalarPlotting

  /** One emission of `data_ready`: (t, y1, y2). */
  datatype Sample = Sample(t: real, y1: real, y2: real)

  /** What one iteration of the loop does: emit a sample, find the flag
      cleared and emit nothing, or raise ZeroDivisionError out of a waveform
      (the exception leaves the loop; nothing is emitted and t stays put). */
  datatype TickOutcome = Emit(sample: Sample) | Idle | Raised

  /** The names `signal_map` knows: exactly Sine, Cosine, Tangent, Cosecant,
      Secant, Cotangent, Square, Triangle, each naming its namesake. */
  function SignalWaves(): (m: map<string, Wave>)
    ensures m.Keys == {"Sine", "Cosine", "Tangent", "Cosecant", "Secant", "Cotangent", "Square", "Triangle"}
    ensures m["Sine"] == Sine && m["Cosine"] == Cosine && m["Tangent"] == Tangent
    ensures m["Cosecant"] == Cosecant && m["Secant"] == Secant && m["Cotangent"] == Cotangent
    ensures m["Square"] == Square && m["Triangle"] == Triangle
  {
    map["Sine" := Sine, "Cosine" := Cosine, "Tangent" := Tangent, "Cosecant" := Cosecant,
        "Secant" := Secant, "Cotangent" := Cotangent, "Square" := Square, "Triangle" := Triangle]
  }

  /** `signal_map`: the dictionary from those names to the scalar waveform
      functions; calling an entry is evaluating its waveform (None where the
      call raises). */
  function SignalMap(tr: Trig): (m: map<string, real -> Option<real>>)
    ensures m.Keys == SignalWaves().Keys
    ensures forall name, t :: name in m ==> m[name](t) == Eval(SignalWaves()[name], tr, t)
  {
    map name | name in SignalWaves() :: (t => Eval(SignalWaves()[name], tr, t))
  }

  /** `signal_map.get(name, lambda t: 0)(t)`. */
  function Amplitude(m: map<string, real -> Option<real>>, name: string, t: real): (r: Option<real>)
    ensures r.None? ==> name in m
  {
    if name in m then m[name](t) else Some(0.0)
  }

  /** What one iteration at time t emits: the sample carries t itself, and
      there is one exactly when neither lookup-and-call raises; a name the
      map does not know contributes amplitude 0. */
  function Emission(m: map<string, real -> Option<real>>, signal1: string, signal2: string, t: real)
    : (r: Option<Sample>)
    ensures r.Some? <==> (signal1 !in m || m[signal1](t).Some?) && (signal2 !in m || m[signal2](t).Some?)
    ensures r.Some? ==> r.value.t == t
    ensures r.Some? ==> r.value.y1 == (if signal1 in m then m[signal1](t).value else 0.0)
    ensures r.Some? ==> r.value.y2 == (if signal2 in m then m[signal2](t).value else 0.0)
  {
    var y1 := Amplitude(m, signal1, t);
    var y2 := Amplitude(m, signal2, t);
    if y1.Some? && y2.Some? then Some(Sample(t, y1.value, y2.value)) else None
  }

  /** `self.t` after k iterations of `self.t += self.dt` from 0: the clock
      advances by repeated addition, one step per emitted sample. */
  function Clock(dt: real, k: nat): (c: real)
    ensures dt >= 0.0 ==> c >= 0.0
  {
    if k == 0 then 0.0 else Clock(dt, k - 1) + dt
  }

  /** Repeated addition of dt is multiplication: after k steps t is k*dt. */
  lemma {:induction false} ClockIsProduct(dt: real, k: nat)
    ensures Clock(dt, k) == k as real * dt
  {
    if k > 0 {
      ClockIsProduct(dt, k - 1);
    }
  }

  /** With dt > 0 the clock strictly increases. */
  lemma {:induction false} ClockIncreasing(dt: real, i: nat, j: nat)
    requires dt > 0.0 && i < j
    ensures Clock(dt, i) < Clock(dt, j)
    decreases j
  {
    if i < j - 1 {
      ClockIncreasing(dt, i, j - 1);
    }
  }

  /** The successes of `f(0), f(1), ..., f(n-1)` up to the first failure:
      a loop that stops at the first iteration that raises. */
  function Prefix<T>(f: nat -> Option<T>, n: nat): (r: seq<T>)
    ensures |r| <= n
    ensures |r| < n ==> f(|r|).None?
  {
    if n == 0 then []
    else
      var prev := Prefix(f, n - 1);
      if |prev| < n - 1 then prev
      else
        match f(n - 1)
        case Some(s) => prev + [s]
        case None => prev
  }

  /** Element k of the stream is the k-th success. */
  lemma {:induction false} PrefixSample<T>(f: nat -> Option<T>, n: nat, k: nat)
    requires k < |Prefix(f, n)|
    ensures f(k) == Some(Prefix(f, n)[k])
  {
    var prev := Prefix(f, n - 1);
    if k < |prev| {
      PrefixSample(f, n - 1, k);
    }
  }

  /** Once the stream has stopped short of m steps, taking more steps adds
      nothing. */
  lemma {:induction false} PrefixStuck<T>(f: nat -> Option<T>, m: nat, n: nat)
    requires m <= n && |Prefix(f, m)| < m
    ensures Prefix(f, n) == Prefix(f, m)
    decreases n - m
  {
    if m < n {
      PrefixStuck(f, m + 1, n);
    }
  }

  /** The samples emitted by the first n iterations of a run that is not
      stopped: iteration k runs at time Clock(dt, k), and the first iteration
      that raises ends the stream. */
  function Trace(m: map<string, real -> Option<real>>, dt: real, signal1: string, signal2: string, n: nat)
    : (r: seq<Sample>)
    ensures |r| <= n
    ensures |r| < n ==> Emission(m, signal1, signal2, Clock(dt, |r|)).None?
  {
    Prefix(k => Emission(m, signal1, signal2, Clock(dt, k)), n)
  }

  /** Sample k of an unstopped run is what iteration k emits at time
      Clock(dt, k). */
  lemma {:induction false} TraceSample(m: map<string, real -> Option<real>>, dt: real, signal1: string, signal2: string,
                                       n: nat, k: nat)
    requires k < |Trace(m, dt, signal1, signal2, n)|
    ensures Emission(m, signal1, signal2, Clock(dt, k)) == Some(Trace(m, dt, signal1, signal2, n)[k])
  {
    PrefixSample(k => Emission(m, signal1, signal2, Clock(dt, k)), n, k);
  }

  /** One more iteration of an unstopped run: if the run has not stopped
      yet, the next iteration's emission is appended, or the run stops there. */
  lemma {:induction false} TraceStep(m: map<string, real -> Option<real>>, dt: real, signal1: string, signal2: string, n: nat)
    ensures var prev := Trace(m, dt, signal1, signal2, n);
            var next := Emission(m, signal1, signal2, Clock(dt, n));
            Trace(m, dt, signal1, signal2, n + 1) ==
              if |prev| == n && next.Some? then prev + [next.value] else prev
  {
  }

  /** Once an unstopped run has fallen short of its iterations (some
      iteration raised), running it longer adds nothing. */
  lemma {:induction false} TraceStuck(m: map<string, real -> Option<real>>, dt: real, signal1: string, signal2: string, i: nat, n: nat)
    requires i <= n && |Trace(m, dt, signal1, signal2, i)| < i
    ensures Trace(m, dt, signal1, signal2, n) == Trace(m, dt, signal1, signal2, i)
  {
    PrefixStuck(k => Emission(m, signal1, signal2, Clock(dt, k)), i, n);
  }

  /** The samples of a run so far: sample k is what iteration k emits at
      time Clock(dt, k). */
  ghost predicate IsRun(m: map<string, real -> Option<real>>, dt: real, signal1: string, signal2: string, s: seq<Sample>)
  {
    forall k :: 0 <= k < |s| ==> Emission(m, signal1, signal2, Clock(dt, k)) == Some(s[k])
  }

  /** `Trace` is the one run of n iterations: a run that is either n samples
      long or stopped at an iteration that raises is exactly `Trace` of n. */
  lemma {:induction false} RunIsTrace(m: map<string, real -> Option<real>>, dt: real, signal1: string, signal2: string,
                                      s: seq<Sample>, n: nat)
    requires IsRun(m, dt, signal1, signal2, s)
    requires |s| <= n
    requires |s| < n ==> Emission(m, signal1, signal2, Clock(dt, |s|)).None?
    ensures s == Trace(m, dt, signal1, signal2, n)
  {
    var r := Trace(m, dt, signal1, signal2, n);
    if |s| < |r| {
      TraceSample(m, dt, signal1, signal2, n, |s|);
      assert false;
    }
    if |r| < |s| {
      assert false;
    }
    forall k | 0 <= k < |s|
      ensures s[k] == r[k]
    {
      TraceSample(m, dt, signal1, signal2, n, k);
    }
  }

  /** Conversely, `Trace` of n is a run. */
  lemma {:induction false} TraceIsRun(m: map<string, real -> Option<real>>, dt: real, signal1: string, signal2: string, n: nat)
    ensures IsRun(m, dt, signal1, signal2, Trace(m, dt, signal1, signal2, n))
  {
    var r := Trace(m, dt, signal1, signal2, n);
    forall k | 0 <= k < |r|
      ensures Emission(m, signal1, signal2, Clock(dt, k)) == Some(r[k])
    {
      TraceSample(m, dt, signal1, signal2, n, k);
    }
  }

  /** The k-th emission (from 0) is stamped k*dt. */
  lemma {:induction false} TraceTimes(m: map<string, real -> Option<real>>, dt: real, signal1: string, signal2: string, n: nat)
    ensures var r := Trace(m, dt, signal1, signal2, n);
            forall k :: 0 <= k < |r| ==> r[k].t == k as real * dt
  {
    var r := Trace(m, dt, signal1, signal2, n);
    forall k | 0 <= k < |r|
      ensures r[k].t == k as real * dt
    {
      TraceSample(m, dt, signal1, signal2, n, k);
      ClockIsProduct(dt, k);
    }
  }

  /** With dt > 0 the stamps of the emitted samples strictly increase. */
  lemma {:induction false} TraceTimesIncrease(m: map<string, real -> Option<real>>, dt: real, signal1: string, signal2: string, n: nat)
    requires dt > 0.0
    ensures var r := Trace(m, dt, signal1, signal2, n);
            forall i, j :: 0 <= i < j < |r| ==> r[i].t < r[j].t
  {
    var r := Trace(m, dt, signal1, signal2, n);
    forall i, j | 0 <= i < j < |r|
      ensures r[i].t < r[j].t
    {
      TraceSample(m, dt, signal1, signal2, n, i);
      TraceSample(m, dt, signal1, signal2, n, j);
      ClockIncreasing(dt, i, j);
    }
  }

  /** Two names the map does not know: every iteration emits, and emits
      (t, 0, 0) at the iteration's own time. */
  lemma {:induction false} UnknownNamesEmitZeros(m: map<string, real -> Option<real>>, dt: real, signal1: string, signal2: string, n: nat)
    requires signal1 !in m && signal2 !in m
    ensures var r := Trace(m, dt, signal1, signal2, n);
            |r| == n && forall k :: 0 <= k < n ==> r[k] == Sample(Clock(dt, k), 0.0, 0.0)
  {
    var r := Trace(m, dt, signal1, signal2, n);
    assert Emission(m, signal1, signal2, Clock(dt, |r|)).Some?;
    forall k | 0 <= k < n
      ensures r[k] == Sample(Clock(dt, k), 0.0, 0.0)
    {
      TraceSample(m, dt, signal1, signal2, n, k);
    }
  }

  /** With the real catalogue: an iteration emits exactly when neither named
      waveform raises at that time, and an emitted amplitude is the waveform's
      value. */
  lemma {:induction false} EmissionUsesCatalogue(tr: Trig, signal1: string, signal2: string, t: real)
    requires signal1 in SignalWaves() && signal2 in SignalWaves()
    ensures var e := Emission(SignalMap(tr), signal1, signal2, t);
            var y1 := Eval(SignalWaves()[signal1], tr, t);
            var y2 := Eval(SignalWaves()[signal2], tr, t);
            (e.Some? <==> y1.Some? && y2.Some?)
            && (e.Some? ==> e.value == Sample(t, y1.value, y2.value))
  {
    var m := SignalMap(tr);
    assert m[signal1](t) == Eval(SignalWaves()[signal1], tr, t);
    assert m[signal2](t) == Eval(SignalWaves()[signal2], tr, t);
  }

  /** With sin 0 = 0, a worker whose first signal is "Cosecant" raises on
      its first iteration (t = 0 and 1 / sin 0 divides by zero), so it never
      emits anything. */
  lemma {:induction false} CosecantNeverEmits(tr: Trig, dt: real, signal2: string, n: nat)
    requires tr.sin(0.0) == 0.0
    ensures Trace(SignalMap(tr), dt, "Cosecant", signal2, n) == []
  {
    var m := SignalMap(tr);
    assert Angle(tr, Clock(dt, 0)) == 0.0;
    assert m["Cosecant"](Clock(dt, 0)) == Eval(Cosecant, tr, Clock(dt, 0));
    TraceStep(m, dt, "Cosecant", signal2, 0);
    if n > 0 {
      TraceStuck(m, dt, "Cosecant", signal2, 1, n);
    }
  }

  /** A Triangle/Square run never raises: every iteration emits, the first
      amplitude stays within [-1, 1] and the second is always 1 or -1. */
  lemma {:induction false} ShapesRunForever(tr: Trig, dt: real, n: nat)
    ensures var r := Trace(SignalMap(tr), dt, "Triangle", "Square", n);
            |r| == n
            && forall k :: 0 <= k < n ==> -1.0 <= r[k].y1 <= 1.0 && (r[k].y2 == 1.0 || r[k].y2 == -1.0)
  {
    var m := SignalMap(tr);
    var r := Trace(m, dt, "Triangle", "Square", n);
    assert m["Triangle"](Clock(dt, |r|)) == Eval(Triangle, tr, Clock(dt, |r|));
    assert m["Square"](Clock(dt, |r|)) == Eval(Square, tr, Clock(dt, |r|));
    assert Emission(m, "Triangle", "Square", Clock(dt, |r|)).Some?;
    forall k | 0 <= k < n
      ensures -1.0 <= r[k].y1 <= 1.0 && (r[k].y2 == 1.0 || r[k].y2 == -1.0)
    {
      TraceSample(m, dt, "Triangle", "Square", n, k);
      assert m["Triangle"](Clock(dt, k)) == Eval(Triangle, tr, Clock(dt, k));
      assert m["Square"](Clock(dt, k)) == Eval(Square, tr, Clock(dt, k));
    }
  }

  class DataWorker {
    /** `self.signal_map`: the dictionary of waveforms the loop looks names up in. */
    const signalMap: map<string, real -> Option<real>>
    /** `self.dt`: the time step. */
    const dt: real
    /** `self.running`: the loop's flag, checked before every iteration. */
    var running: bool
    /** `self.t`: the time of the next iteration. */
    var t: real
    /** The two names `start_work` was last called with. */
    var signal1: string
    var signal2: string
    /** The samples emitted since the last `start_work`. */
    ghost var Emitted: seq<Sample>

    /** The emissions so far are those of an unstopped run, and t is the
        time of the next iteration. */
    ghost predicate Valid()
      reads this
    {
      IsRun(signalMap, dt, signal1, signal2, Emitted)
      && t == Clock(dt, |Emitted|)
    }

    /** `DataWorker(dt)`: not running, t = 0, the given step and the
        eight-entry waveform dictionary. */
    constructor (trig: Trig, dt: real)
      ensures Valid()
      ensures signalMap == SignalMap(trig) && this.dt == dt
      ensures !running && t == 0.0 && Emitted == []
    {
      signalMap := SignalMap(trig);
      this.dt := dt;
      running := false;
      t := 0.0;
      signal1, signal2 := "", "";
      Emitted := [];
    }

    /** `start_work(signal1, signal2)`, cut off after at most n iterations:
        the flag is set, t goes back to 0 whatever it was, and the loop runs.
        The samples emitted are exactly `Trace` of n iterations, and t is the
        time of the iteration after the last sample. */
    method StartWork(s1: string, s2: string, n: nat) returns (emitted: seq<Sample>)
      modifies this`running, this`t, this`signal1, this`signal2, this`Emitted
      ensures Valid()
      ensures running && signal1 == s1 && signal2 == s2
      ensures emitted == Trace(signalMap, dt, s1, s2, n) && Emitted == emitted
      ensures t == Clock(dt, |emitted|)
    {
      Restart(s1, s2);
      emitted := Loop(n);
      assert Emitted == emitted;
      RunIsTrace(signalMap, dt, s1, s2, emitted, n);
    }

    /** The part of `start_work` before its loop: the flag is set, the names
        are taken and t goes back to 0, starting a new, empty run. */
    method Restart(s1: string, s2: string)
      modifies this`running, this`t, this`signal1, this`signal2, this`Emitted
      ensures Valid()
      ensures running && signal1 == s1 && signal2 == s2 && t == 0.0 && Emitted == []
    {
      running := true;
      t := 0.0;
      signal1, signal2 := s1, s2;
      Emitted := [];
    }

    /** One iteration of the `while self.running` loop. With the flag
        cleared nothing happens. Otherwise both names are looked up and
        called at t; if neither call raises, (t, y1, y2) is emitted and t
        advances by dt, and if one raises nothing is emitted and t stays. */
    method Tick() returns (out: TickOutcome)
      requires Valid()
      modifies this`t, this`Emitted
      ensures Valid()
      ensures !running ==> out == Idle && t == old(t) && Emitted == old(Emitted)
      ensures running <==> out != Idle
      ensures out.Emit? ==> Emission(signalMap, signal1, signal2, old(t)) == Some(out.sample)
      ensures out.Emit? ==> Emitted == old(Emitted) + [out.sample] && t == old(t) + dt
      ensures !out.Emit? ==> Emitted == old(Emitted) && t == old(t)
      ensures out.Raised? ==> Emission(signalMap, signal1, signal2, t).None?
    {
      if !running {
        return Idle;
      }
      var y1 := Amplitude(signalMap, signal1, t);
      var y2 := Amplitude(signalMap, signal2, t);
      if y1.None? || y2.None? {
        return Raised;
      }
      var s := Sample(t, y1.value, y2.value);
      Emitted := Emitted + [s];
      t := t + dt;
      out := Emit(s);
    }

    /** The `while self.running` loop of `start_work`, cut off after at most
        n iterations: it leaves at the first iteration that finds the flag
        clear or raises. A cleared flag means nothing is emitted. Otherwise
        the history stays a run and grows by at most n samples, falling short
        only when the iteration at the current t raises; by RunIsTrace that
        is exactly `Trace` of n more iterations. */
    method Loop(n: nat) returns (emitted: seq<Sample>)
      requires Valid()
      modifies this`t, this`Emitted
      ensures Valid()
      ensures Emitted == old(Emitted) + emitted
      ensures !running ==> emitted == []
      ensures |emitted| <= n
      ensures running && |emitted| < n ==> Emission(signalMap, signal1, signal2, t).None?
    {
      emitted := [];
      if !running {
        return;
      }
      var i := 0;
      var left := false;
      while i < n && !left
        invariant 0 <= i <= n
        invariant Valid()
        invariant Emitted == old(Emitted) + emitted
        invariant |emitted| <= i
        invariant !left ==> |emitted| == i
        invariant left ==> Emission(signalMap, signal1, signal2, t).None?
      {
        var o := Tick();
        if o.Emit? {
          emitted := emitted + [o.sample];
        } else {
          left := true;
        }
        i := i + 1;
      }
    }

    /** `stop_work()`: clears the flag; calling it again changes nothing. */
    method StopWork()
      modifies this`running
      ensures !running
    {
      running := false;
    }
  }
}
