/** Small shared vocabulary: an optional value and a few real-number helpers. */
module Common {

  /** A value that may be missing: Python's `None`, or numpy's NaN where a
      waveform is undefined. */
  datatype Option<+T> = None | Some(value: T)

  function Abs(x: real): (r: real)
    ensures r >= 0.0
    ensures r == x || r == -x
  {
    if x < 0.0 then -x else x
  }

  function MinNat(a: nat, b: nat): (r: nat)
    ensures r <= a && r <= b
    ensures r == a || r == b
  {
    if a <= b then a else b
  }
}
