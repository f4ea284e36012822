/** The expression dispatcher: two signals are looked up by name, evaluated
    on the same time array, and combined by one of a fixed set of element-wise
    operations. Failures (an unknown name, an unknown operation, an exception
    while combining) all come back as `None`. */
module MathFunctions {
  import opened Common
  import opened Periodic
  import opened ScalarPlotting

  /** `get_signal_name(name)`: a waveform for exactly the eight names Sin,
      Cos, Tan, Cosec, Sec, Cot, Triangle, Square, and None for any other
      string. */
  function GetSignalName(name: string): (r: Option<Wave>)
    ensures r.Some? <==> name in {"Sin", "Cos", "Tan", "Cosec", "Sec", "Cot", "Triangle", "Square"}
    ensures name == "Sin" ==> r == Some(Sine)
    ensures name == "Cos" ==> r == Some(Cosine)
    ensures name == "Tan" ==> r == Some(Tangent)
    ensures name == "Cosec" ==> r == Some(Cosecant)
    ensures name == "Sec" ==> r == Some(Secant)
    ensures name == "Cot" ==> r == Some(Cotangent)
    ensures name == "Triangle" ==> r == Some(Triangle)
    ensures name == "Square" ==> r == Some(Square)
  {
    var m := map["Sin" := Sine, "Cos" := Cosine, "Tan" := Tangent, "Cosec" := Cosecant,
                 "Sec" := Secant, "Cot" := Cotangent, "Triangle" := Triangle, "Square" := Square];
    if name in m then Some(m[name]) else None
  }

  /** Distinct names select distinct waveforms. */
  lemma SignalNamesDistinct(a: string, b: string)
    requires GetSignalName(a).Some? && GetSignalName(b).Some? && a != b
    ensures GetSignalName(a) != GetSignalName(b)
  {
  }

  /** The keys of `operation_map`. */
  datatype Operation =
    | Add | Subtract | Multiply | Divide | SinA | CosB | SinAPlusTwoB
    | APlusK | BTimesK | ASquared | APlusBPlusK

  /** `operation_map`: its eleven keys and the operation each one names. */
  function OperationMap(): (m: map<string, Operation>)
    ensures m.Keys == {"A + B", "A - B", "A * B", "A / B", "sin(A)", "cos(B)", "sin(A) + 2*B",
                       "A + k", "B * k", "A ^ 2", "A + B + k"}
    ensures m["A + B"] == Add && m["A - B"] == Subtract && m["A * B"] == Multiply && m["A / B"] == Divide
    ensures m["sin(A)"] == SinA && m["cos(B)"] == CosB && m["sin(A) + 2*B"] == SinAPlusTwoB
    ensures m["A + k"] == APlusK && m["B * k"] == BTimesK && m["A ^ 2"] == ASquared && m["A + B + k"] == APlusBPlusK
  {
    map["A + B" := Add, "A - B" := Subtract, "A * B" := Multiply, "A / B" := Divide,
        "sin(A)" := SinA, "cos(B)" := CosB, "sin(A) + 2*B" := SinAPlusTwoB,
        "A + k" := APlusK, "B * k" := BTimesK, "A ^ 2" := ASquared, "A + B + k" := APlusBPlusK]
  }

  /** The `constant` argument: a number, or anything numpy cannot add to or
      multiply with a float array (a string such as the text of the
      constants field), which makes the `k` operations raise. */
  datatype Constant = Number(value: real) | NotANumber

  /** numpy broadcasting of two one-dimensional arrays: equal lengths, or
      one of them of length 1. */
  predicate Broadcastable(a: seq<real>, b: seq<real>)
  {
    |a| == |b| || |a| == 1 || |b| == 1
  }

  function BroadcastLength(a: seq<real>, b: seq<real>): nat
    requires Broadcastable(a, b)
  {
    if |a| == 1 then |b| else |a|
  }

  /** Element i of an array stretched by broadcasting. */
  function At(a: seq<real>, i: nat): real
    requires |a| == 1 || i < |a|
  {
    if |a| == 1 then a[0] else a[i]
  }

  /** A binary element-wise numpy operation: ValueError (None) when the
      shapes do not broadcast, otherwise the broadcast length with element i
      combining element i of each side. */
  function ZipWith(f: (real, real) -> real, a: seq<real>, b: seq<real>): (r: Option<seq<real>>)
    ensures r.Some? <==> Broadcastable(a, b)
    ensures r.Some? ==> |r.value| == BroadcastLength(a, b)
    ensures r.Some? ==> forall i :: 0 <= i < |r.value| ==> r.value[i] == f(At(a, i), At(b, i))
  {
    if Broadcastable(a, b) then
      Some(seq(BroadcastLength(a, b), i requires 0 <= i < BroadcastLength(a, b) => f(At(a, i), At(b, i))))
    else
      None
  }

  /** A unary element-wise numpy operation: same length, element by element. */
  function Map(f: real -> real, a: seq<real>): (r: seq<real>)
    ensures |r| == |a|
    ensures forall i :: 0 <= i < |a| ==> r[i] == f(a[i])
  {
    seq(|a|, i requires 0 <= i < |a| => f(a[i]))
  }

  /** `np.divide(A, B, out=np.zeros_like(A), where=B != 0)`, one element:
      the quotient where the divisor is non-zero, the 0 left in `out` where
      it is zero. */
  function DivideOrZero(x: real, y: real): (r: real)
    ensures y == 0.0 ==> r == 0.0
    ensures y != 0.0 ==> r * y == x
  {
    if y != 0.0 then x / y else 0.0
  }

  /** The lambda `operation_map[op]` applied to A, B and the constant, or
      None when it raises. Shapes that do not broadcast raise; "A / B" also
      raises when the broadcast shape is not A's own (it writes into an array
      shaped like A); the three `k` operations raise on a non-numeric
      constant; the unary operations never raise. */
  function ApplyOperation(op: Operation, tr: Trig, a: seq<real>, b: seq<real>, c: Constant): (r: Option<seq<real>>)
    ensures op in {SinA, ASquared} ==> r.Some? && |r.value| == |a|
    ensures op == CosB ==> r.Some? && |r.value| == |b|
    ensures op in {APlusK, BTimesK, APlusBPlusK} && c.NotANumber? ==> r.None?
    ensures op == APlusK && c.Number? ==> r.Some? && |r.value| == |a|
    ensures op == BTimesK && c.Number? ==> r.Some? && |r.value| == |b|
    ensures op == APlusBPlusK && c.Number? ==> (r.Some? <==> Broadcastable(a, b))
    ensures op in {Add, Subtract, Multiply, SinAPlusTwoB} ==> (r.Some? <==> Broadcastable(a, b))
    ensures op == Divide ==> (r.Some? <==> Broadcastable(a, b) && BroadcastLength(a, b) == |a|)
    ensures r.Some? && op != CosB && |a| == |b| ==> |r.value| == |a|
  {
    match op
    case Add => ZipWith((x, y) => x + y, a, b)
    case Subtract => ZipWith((x, y) => x - y, a, b)
    case Multiply => ZipWith((x, y) => x * y, a, b)
    case Divide =>
      if Broadcastable(a, b) && BroadcastLength(a, b) == |a| then ZipWith(DivideOrZero, a, b) else None
    case SinA => Some(Map(tr.sin, a))
    case CosB => Some(Map(tr.cos, b))
    case SinAPlusTwoB => ZipWith((x, y) => tr.sin(x) + 2.0 * y, a, b)
    case APlusK => if c.Number? then Some(Map(x => x + c.value, a)) else None
    case BTimesK => if c.Number? then Some(Map(x => x * c.value, b)) else None
    case ASquared => Some(Map(x => x * x, a))
    case APlusBPlusK => if c.Number? then ZipWith((x, y) => x + y + c.value, a, b) else None
  }

  /** `compute_expression(t, inputA, inputB, operation, constant)`. The
      waveforms of the plotting module it imports are not part of this
      model: `signal(w, t)` stands for calling waveform `w` on the array t.
      Unknown names are rejected before the operation is looked at, an
      unknown operation after. With both names known and the operation
      listed, the result is None exactly when the operation's lambda raises,
      and otherwise t itself beside the array that lambda computes from the
      two signals. */
  function ComputeExpression(tr: Trig, signal: (Wave, seq<real>) -> seq<real>, t: seq<real>,
                             inputA: string, inputB: string, operation: string, constant: Constant)
    : (r: Option<(seq<real>, seq<real>)>)
    ensures GetSignalName(inputA).None? || GetSignalName(inputB).None? ==> r.None?
    ensures operation !in OperationMap() ==> r.None?
    ensures r.Some? ==> r.value.0 == t
    ensures GetSignalName(inputA).Some? && GetSignalName(inputB).Some? && operation in OperationMap() ==>
      var y := ApplyOperation(OperationMap()[operation], tr, signal(GetSignalName(inputA).value, t),
                              signal(GetSignalName(inputB).value, t), constant);
      (r.Some? <==> y.Some?) && (r.Some? ==> r.value.1 == y.value)
  {
    var a := GetSignalName(inputA);
    var b := GetSignalName(inputB);
    if a.None? || b.None? then None
    else
      var valuesA := signal(a.value, t);
      var valuesB := signal(b.value, t);
      if operation !in OperationMap() then None
      else
        match ApplyOperation(OperationMap()[operation], tr, valuesA, valuesB, constant)
        case None => None
        case Some(y) => Some((t, y))
  }

  /** "A / B" on arrays of equal length always succeeds, and element i is
      A[i] / B[i] where B[i] is non-zero and 0 where B[i] is zero. */
  lemma {:induction false} DivisionByZeroGivesZero(tr: Trig, signal: (Wave, seq<real>) -> seq<real>, t: seq<real>,
                                    inputA: string, inputB: string, constant: Constant)
    requires GetSignalName(inputA).Some? && GetSignalName(inputB).Some?
    requires |signal(GetSignalName(inputA).value, t)| == |signal(GetSignalName(inputB).value, t)|
    ensures var r := ComputeExpression(tr, signal, t, inputA, inputB, "A / B", constant);
            var valuesA := signal(GetSignalName(inputA).value, t);
            var valuesB := signal(GetSignalName(inputB).value, t);
            r.Some? && QuotientOrZero(valuesA, valuesB, r.value.1)
  {
    var valuesA := signal(GetSignalName(inputA).value, t);
    var valuesB := signal(GetSignalName(inputB).value, t);
    assert OperationMap()["A / B"] == Divide;
    DivideElementwise(tr, valuesA, valuesB, constant);
  }

  /** y is the element-wise quotient of a by b, with 0 where b is 0. */
  predicate QuotientOrZero(a: seq<real>, b: seq<real>, y: seq<real>)
    requires |a| == |b|
  {
    |y| == |a|
    && forall i :: 0 <= i < |y| ==> (b[i] == 0.0 ==> y[i] == 0.0) && (b[i] != 0.0 ==> y[i] * b[i] == a[i])
  }

  /** The "A / B" lambda on arrays of equal length. */
  lemma {:induction false} DivideElementwise(tr: Trig, a: seq<real>, b: seq<real>, c: Constant)
    requires |a| == |b|
    ensures var r := ApplyOperation(Divide, tr, a, b, c); r.Some? && QuotientOrZero(a, b, r.value)
  {
    var r := ApplyOperation(Divide, tr, a, b, c);
    assert r == ZipWith(DivideOrZero, a, b);
    forall i | 0 <= i < |a|
      ensures At(a, i) == a[i] && At(b, i) == b[i]
    {
    }
  }

  /** "A + B", "A - B" and "A * B" on arrays of equal length always succeed,
      keep the length, and combine element i with element i. */
  lemma {:induction false} ArithmeticIsElementwise(tr: Trig, a: seq<real>, b: seq<real>, c: Constant, i: nat)
    requires |a| == |b| && i < |a|
    ensures var s := ApplyOperation(Add, tr, a, b, c); s.Some? && |s.value| == |a| && s.value[i] == a[i] + b[i]
    ensures var d := ApplyOperation(Subtract, tr, a, b, c); d.Some? && |d.value| == |a| && d.value[i] == a[i] - b[i]
    ensures var p := ApplyOperation(Multiply, tr, a, b, c); p.Some? && |p.value| == |a| && p.value[i] == a[i] * b[i]
  {
    assert At(a, i) == a[i] && At(b, i) == b[i];
  }

  /** The constant operations add or multiply by the numeric constant, and
      "A ^ 2" squares A, element by element. */
  lemma {:induction false} ConstantOperations(tr: Trig, a: seq<real>, b: seq<real>, k: real, i: nat)
    requires |a| == |b| && i < |a|
    ensures var s := ApplyOperation(APlusK, tr, a, b, Number(k)); s.Some? && s.value[i] == a[i] + k
    ensures var s := ApplyOperation(BTimesK, tr, a, b, Number(k)); s.Some? && s.value[i] == b[i] * k
    ensures var s := ApplyOperation(APlusBPlusK, tr, a, b, Number(k)); s.Some? && s.value[i] == a[i] + b[i] + k
    ensures var s := ApplyOperation(ASquared, tr, a, b, Number(k)); s.Some? && s.value[i] == a[i] * a[i]
  {
    assert At(a, i) == a[i] && At(b, i) == b[i];
  }

  /** "sin(A)" and "cos(B)" take the sine of A and the cosine of B element by
      element, and "sin(A) + 2*B" on arrays of equal length always succeeds
      with element i equal to sin(A[i]) + 2 B[i]. */
  lemma {:induction false} TrigOperations(tr: Trig, a: seq<real>, b: seq<real>, c: Constant, i: nat)
    requires |a| == |b| && i < |a|
    ensures var s := ApplyOperation(SinA, tr, a, b, c); s.Some? && s.value[i] == tr.sin(a[i])
    ensures var s := ApplyOperation(CosB, tr, a, b, c); s.Some? && s.value[i] == tr.cos(b[i])
    ensures var s := ApplyOperation(SinAPlusTwoB, tr, a, b, c);
            s.Some? && |s.value| == |a| && s.value[i] == tr.sin(a[i]) + 2.0 * b[i]
  {
    assert At(a, i) == a[i] && At(b, i) == b[i];
  }
}
