/** Numeric and structural helpers shared by every part of the synthesis engine model:
    the optional value, the clamping rule used by all setters, C++'s truncating
    integer conversion, positive sample rates, the abstract trigonometry, and the
    decimal rendering used to build "Osc <i>" parameter prefixes. */
module Common {

  datatype Option<T> = None | Some(value: T)

  /** A sample rate. Every node and filter divides by its rate, so it is positive here;
      a zero rate, which the C++ code would turn into infinities, is not modelled. */
  type Rate = r: real | r > 0.0 witness 44100.0

  /** The transcendental functions the code calls (sin, cos) and the constant M_PI.
      They stay uninterpreted; the only facts assumed are that pi is positive and that
      sin is positive strictly between 0 and pi, which is what keeps the biquad
      normalisation 1 + alpha away from zero for in-range frequencies. */
  datatype TrigFunctions = TrigFunctions(sin: real -> real, cos: real -> real, pi: real)

  type Trig = t: TrigFunctions | t.pi > 0.0 && forall x :: 0.0 < x < t.pi ==> t.sin(x) > 0.0
    witness TrigFunctions(x => 1.0, x => 1.0, 3.0)

  /** A sample scaled by a factor: an amplitude, a modulation depth, a mix ratio, an envelope
      gain or the master volume. */
  function Scale(sample: real, factor: real): real {
    sample * factor
  }

  function Min(a: real, b: real): real { if b < a then b else a }

  function Max(a: real, b: real): real { if a < b then b else a }

  lemma MulNonNeg(x: real, y: real)
    requires x >= 0.0 && y >= 0.0
    ensures x * y >= 0.0
  {
  }

  lemma MulPos(x: real, y: real)
    requires x > 0.0 && y > 0.0
    ensures x * y > 0.0
  {
  }

  /** A value in [-1, 1] times a non-negative factor r lies in [-r, r]. */
  lemma ProductBounded(x: real, r: real)
    requires -1.0 <= x <= 1.0 && 0.0 <= r
    ensures -r <= x * r <= r
  {
    MulNonNeg(1.0 - x, r);
    MulNonNeg(1.0 + x, r);
  }

  /** std::max(lo, std::min(hi, v)): the clamping expression every setter of the engine uses. */
  function Clamp(v: real, lo: real, hi: real): (r: real)
    ensures lo <= hi ==> lo <= r <= hi
    ensures v <= lo ==> r == lo
    ensures lo <= hi && hi <= v ==> r == hi
    ensures lo <= v <= hi ==> r == v
    ensures r == v || r == lo || r == hi
  {
    Max(lo, Min(hi, v))
  }

  /** static_cast<int> of a double: truncation toward zero (integer overflow is not modelled). */
  function Trunc(x: real): (r: int)
    ensures 0.0 <= x ==> r == x.Floor && 0 <= r
    ensures 0.0 <= x ==> r as real <= x < r as real + 1.0
    ensures x < 0.0 ==> r <= 0
  {
    if x >= 0.0 then x.Floor else -((-x).Floor)
  }

  function Digit(d: nat): char
    requires d < 10
  {
    "0123456789"[d]
  }

  /** std::to_string of a non-negative integer. */
  function NatToString(n: nat): (s: string)
    ensures |s| >= 1
    ensures forall i :: 0 <= i < |s| ==> '0' <= s[i] <= '9'
    ensures n < 10 ==> s == [Digit(n)]
  {
    if n < 10 then [Digit(n)] else NatToString(n / 10) + [Digit(n % 10)]
  }
}
