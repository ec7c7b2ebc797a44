/** The biquad filters. Both the band-pass and the low-pass filter run the same direct-form-I
    difference equation y = b0 x + b1 x1 + b2 x2 - a1 y1 - a2 y2 over a two-sample delay line, and
    differ only in how the five coefficients are derived from their two parameters. The two
    parameters live in cells because they are registered with the live registry; the
    coefficients and the delay line are plain fields. */
module Filters {
  import opened Common
  import opened Cells
  import opened Live

  /** a / b, reading a zero divisor as 0.0 (the IEEE infinity or NaN the C++ code would produce
      is not modelled; BandPassNormalised and LowPassUnitDcGain show when the divisor cannot be zero). */
  function Ratio(a: real, b: real): real {
    if b == 0.0 then 0.0 else a / b
  }

  datatype Coefficients = Coefficients(b0: real, b1: real, b2: real, a1: real, a2: real)

  /** The delay line: the last two inputs and the last two outputs. */
  datatype History = History(x1: real, x2: real, y1: real, y2: real)

  /** The value of a filter as far as processing is concerned. */
  datatype Biquad = Biquad(c: Coefficients, h: History)

  datatype Processed = Processed(out: real, next: Biquad)

  function ZeroHistory(): History {
    History(0.0, 0.0, 0.0, 0.0)
  }

  /** processSample: one output of the difference equation, then the delay-line shift. */
  function Process(q: Biquad, x: real): (r: Processed)
    ensures r.next.c == q.c
    ensures r.next.h == History(x, q.h.x1, r.out, q.h.y1)
    ensures q.h == ZeroHistory() && x == 0.0 ==> r.out == 0.0 && r.next.h == ZeroHistory()
  {
    var c := q.c;
    var y := c.b0 * x + c.b1 * q.h.x1 + c.b2 * q.h.x2 - c.a1 * q.h.y1 - c.a2 * q.h.y2;
    Processed(y, Biquad(c, History(x, q.h.x1, y, q.h.y1)))
  }

  datatype Run = Run(outs: seq<real>, final: Biquad)

  /** Processing a whole signal in order, threading the delay line through. */
  function RunAll(q: Biquad, xs: seq<real>): (r: Run)
    ensures |r.outs| == |xs|
    ensures r.final.c == q.c
  {
    if xs == [] then Run([], q)
    else
      var prev := RunAll(q, xs[..|xs| - 1]);
      var p := Process(prev.final, xs[|xs| - 1]);
      Run(prev.outs + [p.out], p.next)
  }

  function AddHistory(g: History, h: History): History {
    History(g.x1 + h.x1, g.x2 + h.x2, g.y1 + h.y1, g.y2 + h.y2)
  }

  function AddSignals(xs: seq<real>, ys: seq<real>): (zs: seq<real>)
    requires |xs| == |ys|
    ensures |zs| == |xs| && forall i :: 0 <= i < |xs| ==> zs[i] == xs[i] + ys[i]
  {
    seq(|xs|, i requires 0 <= i < |xs| => xs[i] + ys[i])
  }

  function ScaleSignal(a: real, xs: seq<real>): (zs: seq<real>)
    ensures |zs| == |xs| && forall i :: 0 <= i < |xs| ==> zs[i] == a * xs[i]
  {
    seq(|xs|, i requires 0 <= i < |xs| => a * xs[i])
  }

  function ScaleHistory(a: real, h: History): History {
    History(a * h.x1, a * h.x2, a * h.y1, a * h.y2)
  }

  /** One step is additive in (delay line, input). */
  lemma ProcessAdditive(c: Coefficients, g: History, h: History, x: real, y: real)
    ensures Process(Biquad(c, AddHistory(g, h)), x + y).out == Process(Biquad(c, g), x).out + Process(Biquad(c, h), y).out
    ensures Process(Biquad(c, AddHistory(g, h)), x + y).next.h
         == AddHistory(Process(Biquad(c, g), x).next.h, Process(Biquad(c, h), y).next.h)
  {
    var s := Process(Biquad(c, AddHistory(g, h)), x + y).out;
    assert s == (c.b0 * x + c.b1 * g.x1 + c.b2 * g.x2 - c.a1 * g.y1 - c.a2 * g.y2)
              + (c.b0 * y + c.b1 * h.x1 + c.b2 * h.x2 - c.a1 * h.y1 - c.a2 * h.y2);
  }

  /** Superposition: running the filter on the sum of two signals from the sum of two delay
      lines gives the sum of the two runs. */
  lemma {:induction false} Superposition(c: Coefficients, g: History, h: History, xs: seq<real>, ys: seq<real>)
    requires |xs| == |ys|
    ensures RunAll(Biquad(c, AddHistory(g, h)), AddSignals(xs, ys)).outs
         == AddSignals(RunAll(Biquad(c, g), xs).outs, RunAll(Biquad(c, h), ys).outs)
    ensures RunAll(Biquad(c, AddHistory(g, h)), AddSignals(xs, ys)).final
         == Biquad(c, AddHistory(RunAll(Biquad(c, g), xs).final.h, RunAll(Biquad(c, h), ys).final.h))
  {
    if xs != [] {
      var n := |xs| - 1;
      var zs := AddSignals(xs, ys);
      assert zs[..n] == AddSignals(xs[..n], ys[..n]);
      Superposition(c, g, h, xs[..n], ys[..n]);
      var pg := RunAll(Biquad(c, g), xs[..n]).final;
      var ph := RunAll(Biquad(c, h), ys[..n]).final;
      ProcessAdditive(c, pg.h, ph.h, xs[n], ys[n]);
    }
  }

  /** One step is homogeneous: scaling the delay line and the input scales the output. */
  lemma ProcessHomogeneous(c: Coefficients, h: History, a: real, x: real)
    ensures Process(Biquad(c, ScaleHistory(a, h)), a * x).out == a * Process(Biquad(c, h), x).out
    ensures Process(Biquad(c, ScaleHistory(a, h)), a * x).next.h == ScaleHistory(a, Process(Biquad(c, h), x).next.h)
  {
    var o := Process(Biquad(c, h), x).out;
    assert Process(Biquad(c, ScaleHistory(a, h)), a * x).out
        == a * (c.b0 * x + c.b1 * h.x1 + c.b2 * h.x2 - c.a1 * h.y1 - c.a2 * h.y2);
  }

  lemma ScaleSignalPrefix(a: real, xs: seq<real>, n: nat)
    requires n <= |xs|
    ensures ScaleSignal(a, xs)[..n] == ScaleSignal(a, xs[..n])
  {
    assert forall i :: 0 <= i < n ==> ScaleSignal(a, xs)[..n][i] == ScaleSignal(a, xs[..n])[i];
  }

  lemma ScaleSignalSnoc(a: real, xs: seq<real>, x: real)
    ensures ScaleSignal(a, xs + [x]) == ScaleSignal(a, xs) + [a * x]
  {
    var l, r := ScaleSignal(a, xs + [x]), ScaleSignal(a, xs) + [a * x];
    assert forall i :: 0 <= i < |l| ==> l[i] == r[i];
  }

  /** Homogeneity over a whole run; with a == 0 it says a silent filter stays silent. */
  lemma {:induction false} Homogeneity(c: Coefficients, h: History, a: real, xs: seq<real>)
    ensures RunAll(Biquad(c, ScaleHistory(a, h)), ScaleSignal(a, xs)).outs == ScaleSignal(a, RunAll(Biquad(c, h), xs).outs)
    ensures RunAll(Biquad(c, ScaleHistory(a, h)), ScaleSignal(a, xs)).final == Biquad(c, ScaleHistory(a, RunAll(Biquad(c, h), xs).final.h))
  {
    if xs != [] {
      var n := |xs| - 1;
      var sx := ScaleSignal(a, xs);
      ScaleSignalPrefix(a, xs, n);
      Homogeneity(c, h, a, xs[..n]);
      var prev := RunAll(Biquad(c, h), xs[..n]);
      var sr := RunAll(Biquad(c, ScaleHistory(a, h)), sx[..n]);
      assert sr.final == Biquad(c, ScaleHistory(a, prev.final.h));
      assert prev.final == Biquad(c, prev.final.h);
      ProcessHomogeneous(c, prev.final.h, a, xs[n]);
      var o := Process(prev.final, xs[n]).out;
      assert RunAll(Biquad(c, h), xs).outs == prev.outs + [o];
      assert sx[n] == a * xs[n];
      assert RunAll(Biquad(c, ScaleHistory(a, h)), sx).outs == sr.outs + [Process(sr.final, sx[n]).out];
      assert Process(sr.final, sx[n]).out == a * o;
      ScaleSignalSnoc(a, prev.outs, o);
    }
  }


  /** The normalised angular frequency 2 pi f / fs. */
  function Omega(f: real, sampleRate: Rate, trig: Trig): real {
    2.0 * trig.pi * f / sampleRate
  }

  /** The band-pass Q: target / bandwidth, limited to [0.1, 30]. */
  function BandPassQ(target: real, bandwidth: real): (q: real)
    ensures 0.1 <= q <= 30.0
  {
    Clamp(Ratio(target, bandwidth), 0.1, 30.0)
  }

  /** The RBJ band-pass coefficients (constant 0 dB peak gain), all divided by 1 + alpha. */
  function BandPassCoefficients(target: real, bandwidth: real, sampleRate: Rate, trig: Trig): (c: Coefficients)
    ensures c.b1 == 0.0 && c.b2 == -c.b0
    ensures c.b0 + c.b1 + c.b2 == 0.0
  {
    var omega := Omega(target, sampleRate, trig);
    var alpha := trig.sin(omega) / (2.0 * BandPassQ(target, bandwidth));
    var norm := 1.0 + alpha;
    Coefficients(Ratio(alpha, norm), Ratio(0.0, norm), Ratio(-alpha, norm),
                 Ratio(-2.0 * trig.cos(omega), norm), Ratio(1.0 - alpha, norm))
  }

  /** The RBJ low-pass coefficients with quality factor q, all divided by 1 + alpha. */
  function LowPassCoefficients(cutoff: real, q: real, sampleRate: Rate, trig: Trig): (c: Coefficients)
    requires q != 0.0
    ensures c.b0 == c.b2 && c.b1 == 2.0 * c.b0
  {
    var omega := Omega(cutoff, sampleRate, trig);
    var cosOmega := trig.cos(omega);
    var alpha := trig.sin(omega) / (2.0 * q);
    var norm := 1.0 + alpha;
    Coefficients(Ratio((1.0 - cosOmega) / 2.0, norm), Ratio(1.0 - cosOmega, norm), Ratio((1.0 - cosOmega) / 2.0, norm),
                 Ratio(-2.0 * cosOmega, norm), Ratio(1.0 - alpha, norm))
  }

  /** A frequency the setters can store (at least 1 Hz, at most 0.45 of the rate) lies strictly
      between 0 and pi once normalised, so sin is positive there. */
  lemma InRangeFrequency(f: real, sampleRate: Rate, trig: Trig)
    requires 1.0 <= f <= sampleRate * 0.45
    ensures 0.0 < Omega(f, sampleRate, trig) < trig.pi
    ensures trig.sin(Omega(f, sampleRate, trig)) > 0.0
  {
    var w := Omega(f, sampleRate, trig);
    assert w == 2.0 * trig.pi * (f / sampleRate);
    assert f / sampleRate <= 0.45;
    assert 2.0 * trig.pi * (f / sampleRate) <= 2.0 * trig.pi * 0.45;
  }

  /** For a target frequency in the setter's range the band-pass normaliser exceeds 1, so no
      division is degenerate; then the gain coefficient lies in (0, 1), the feedback term a2
      equals 1 - 2 b0, and the filter blocks DC (b0 + b1 + b2 == 0). */
  lemma BandPassNormalised(target: real, bandwidth: real, sampleRate: Rate, trig: Trig)
    requires 1.0 <= target <= sampleRate * 0.45
    ensures var alpha := trig.sin(Omega(target, sampleRate, trig)) / (2.0 * BandPassQ(target, bandwidth));
      alpha > 0.0 && 1.0 + alpha > 1.0
    ensures var c := BandPassCoefficients(target, bandwidth, sampleRate, trig);
      0.0 < c.b0 < 1.0 && c.a2 == 1.0 - 2.0 * c.b0
  {
    InRangeFrequency(target, sampleRate, trig);
    var q := BandPassQ(target, bandwidth);
    var alpha := trig.sin(Omega(target, sampleRate, trig)) / (2.0 * q);
    PositiveQuotient(trig.sin(Omega(target, sampleRate, trig)), 2.0 * q);
    NormalisedGain(alpha);
  }

  lemma PositiveQuotient(a: real, b: real)
    requires a > 0.0 && b > 0.0
    ensures a / b > 0.0
  {
  }

  lemma NormalisedGain(alpha: real)
    requires alpha > 0.0
    ensures 0.0 < Ratio(alpha, 1.0 + alpha) < 1.0
    ensures Ratio(1.0 - alpha, 1.0 + alpha) == 1.0 - 2.0 * Ratio(alpha, 1.0 + alpha)
  {
    var norm := 1.0 + alpha;
    assert (1.0 - alpha) / norm == (norm - 2.0 * alpha) / norm;
  }

  lemma RatiosOverOneDivisor(x: real, y: real, z: real, n: real)
    requires n != 0.0
    ensures Ratio(x, n) + Ratio(y, n) + Ratio(z, n) == (x + y + z) / n
  {
  }

  /** For a cutoff in the setter's range and a positive Q the low-pass normaliser exceeds 1,
      and the filter has unit gain at DC: b0 + b1 + b2 == 1 + a1 + a2. */
  lemma LowPassUnitDcGain(cutoff: real, q: real, sampleRate: Rate, trig: Trig)
    requires 1.0 <= cutoff <= sampleRate * 0.45 && q > 0.0
    ensures 1.0 + trig.sin(Omega(cutoff, sampleRate, trig)) / (2.0 * q) > 1.0
    ensures var c := LowPassCoefficients(cutoff, q, sampleRate, trig);
      c.b0 + c.b1 + c.b2 == 1.0 + c.a1 + c.a2
  {
    InRangeFrequency(cutoff, sampleRate, trig);
    var omega := Omega(cutoff, sampleRate, trig);
    var cosOmega := trig.cos(omega);
    var alpha := trig.sin(omega) / (2.0 * q);
    assert alpha > 0.0;
    var norm := 1.0 + alpha;
    RatiosOverOneDivisor((1.0 - cosOmega) / 2.0, 1.0 - cosOmega, (1.0 - cosOmega) / 2.0, norm);
    RatiosOverOneDivisor(norm, -2.0 * cosOmega, 1.0 - alpha, norm);
    assert Ratio(norm, norm) == 1.0;
  }

  /** The two subclasses, each with the cells of its two parameters. */
  datatype FilterKind =
    | BandPass(targetFrequency: CellId, bandwidth: CellId)
    | LowPass(cutoffFrequency: CellId, resonance: CellId)

  function KindName(kind: FilterKind): string {
    match kind
    case BandPass(_, _) => "BandPass"
    case LowPass(_, _) => "LowPass"
  }

  /** updateCoefficients for either kind, from the parameter values in the store. */
  function CoefficientsFor(kind: FilterKind, st: Store, sampleRate: Rate, trig: Trig): (c: Coefficients)
    requires kind.LowPass? ==> st.Read(kind.resonance) != 0.0
  {
    match kind
    case BandPass(t, b) => BandPassCoefficients(st.Read(t), st.Read(b), sampleRate, trig)
    case LowPass(f, q) => LowPassCoefficients(st.Read(f), st.Read(q), sampleRate, trig)
  }

  /** The registry entries a filter's registerParametersWithPrefix appends. Each carries the
      hook that re-runs the matching setter. */
  function FilterEntries(kind: FilterKind, prefix: string): (ps: seq<LiveParameter>)
    ensures |ps| == 2
    ensures kind.BandPass? ==> Names(ps) == [prefix + " Target Freq", prefix + " Bandwidth"]
    ensures kind.LowPass? ==> Names(ps) == [prefix + " Cutoff Freq", prefix + " Resonance"]
    ensures kind.BandPass? ==> ps[0].cell == kind.targetFrequency && ps[1].cell == kind.bandwidth
    ensures kind.LowPass? ==> ps[0].cell == kind.cutoffFrequency && ps[1].cell == kind.resonance
    ensures forall i :: 0 <= i < |ps| ==> ps[i].hook.Some?
  {
    match kind
    case BandPass(t, b) =>
      [LiveParameter(prefix + " Target Freq", t, 20.0, 8000.0, 50.0, Some(ReapplyTargetFrequency)),
       LiveParameter(prefix + " Bandwidth", b, 10.0, 2000.0, 200.0, Some(ReapplyBandwidth))]
    case LowPass(f, q) =>
      [LiveParameter(prefix + " Cutoff Freq", f, 20.0, 8000.0, 1000.0, Some(ReapplyCutoffFrequency)),
       LiveParameter(prefix + " Resonance", q, 0.1, 10.0, 0.7071, Some(ReapplyResonance))]
  }

  /** Filter::addParameterWithPrefix: append one entry named prefix + " " + name, then attach the
      callback, if there is one, to that new last entry. */
  method AddParameterWithPrefix(controller: LiveController, prefix: string, name: string, cell: CellId,
                                minValue: real, maxValue: real, step: real, callback: Option<Hook>)
    modifies controller
    ensures controller.parameters == old(controller.parameters) + [LiveParameter(prefix + " " + name, cell, minValue, maxValue, step, callback)]
  {
    controller.AddParameter(prefix + " " + name, cell, minValue, maxValue, step);
    var index := controller.ParameterCount() - 1;
    if callback.Some? && index >= 0 {
      controller.AttachHook(index, callback.value);
    }
  }

  class Filter {
    const kind: FilterKind
    var sampleRate: Rate
    var b0: real
    var b1: real
    var b2: real
    var a1: real
    var a2: real
    var x1: real
    var x2: real
    var y1: real
    var y2: real

    function Coefs(): Coefficients
      reads this
    {
      Coefficients(b0, b1, b2, a1, a2)
    }

    function Delay(): History
      reads this
    {
      History(x1, x2, y1, y2)
    }

    function View(): Biquad
      reads this
    {
      Biquad(Coefs(), Delay())
    }

    /** The two parameter cells are distinct. */
    predicate CellsDistinct() {
      match kind
      case BandPass(t, b) => t != b
      case LowPass(f, q) => f != q
    }

    /** What the setters and the constructor guarantee about the stored parameters. */
    ghost predicate ParametersInRange(st: Store)
      reads this
    {
      CellsDistinct() &&
      match kind
      case BandPass(t, b) => 1.0 <= st.Read(b)
      case LowPass(f, q) => 0.1 <= st.Read(q)
    }

    function TypeName(): (name: string)
      ensures kind.BandPass? ==> name == "BandPass"
      ensures kind.LowPass? ==> name == "LowPass"
    {
      KindName(kind)
    }

    /** A band-pass filter: target 1000 Hz, bandwidth 200 Hz, empty delay line, coefficients
        derived from those values. */
    constructor BandPassFilter(sampleRate: Rate, mem: Memory, trig: Trig)
      requires mem.store.Valid()
      modifies mem
      ensures kind.BandPass? && this.sampleRate == sampleRate
      ensures mem.store.Read(kind.targetFrequency) == 1000.0 && mem.store.Read(kind.bandwidth) == 200.0
      ensures Delay() == ZeroHistory()
      ensures Coefs() == BandPassCoefficients(1000.0, 200.0, sampleRate, trig)
      ensures ParametersInRange(mem.store) && mem.store.Valid()
      ensures forall c :: c in old(mem.store.cells) ==> c in mem.store.cells && mem.store.Read(c) == old(mem.store).Read(c)
      ensures forall c :: c in old(mem.store.cells) ==> c != kind.targetFrequency && c != kind.bandwidth
    {
      var t := mem.store.Alloc(1000.0);
      var b := t.store.Alloc(200.0);
      mem.store := b.store;
      kind := BandPass(t.cell, b.cell);
      this.sampleRate := sampleRate;
      x1, x2, y1, y2 := 0.0, 0.0, 0.0, 0.0;
      var c := BandPassCoefficients(1000.0, 200.0, sampleRate, trig);
      b0, b1, b2, a1, a2 := c.b0, c.b1, c.b2, c.a1, c.a2;
    }

    /** A low-pass filter: cutoff 1000 Hz, resonance 0.7071, empty delay line, coefficients
        derived from those values. */
    constructor LowPassFilter(sampleRate: Rate, mem: Memory, trig: Trig)
      requires mem.store.Valid()
      modifies mem
      ensures kind.LowPass? && this.sampleRate == sampleRate
      ensures mem.store.Read(kind.cutoffFrequency) == 1000.0 && mem.store.Read(kind.resonance) == 0.7071
      ensures Delay() == ZeroHistory()
      ensures Coefs() == LowPassCoefficients(1000.0, 0.7071, sampleRate, trig)
      ensures ParametersInRange(mem.store) && mem.store.Valid()
      ensures forall c :: c in old(mem.store.cells) ==> c in mem.store.cells && mem.store.Read(c) == old(mem.store).Read(c)
      ensures forall c :: c in old(mem.store.cells) ==> c != kind.cutoffFrequency && c != kind.resonance
    {
      var f := mem.store.Alloc(1000.0);
      var q := f.store.Alloc(0.7071);
      mem.store := q.store;
      kind := LowPass(f.cell, q.cell);
      this.sampleRate := sampleRate;
      x1, x2, y1, y2 := 0.0, 0.0, 0.0, 0.0;
      var c := LowPassCoefficients(1000.0, 0.7071, sampleRate, trig);
      b0, b1, b2, a1, a2 := c.b0, c.b1, c.b2, c.a1, c.a2;
    }

    /** processSample: the difference equation and the delay-line shift; the coefficients and
        parameters stay as they are. */
    method ProcessSample(input: real) returns (output: real)
      modifies this
      ensures output == Process(old(View()), input).out
      ensures View() == Process(old(View()), input).next
      ensures sampleRate == old(sampleRate)
    {
      output := b0 * input + b1 * x1 + b2 * x2 - a1 * y1 - a2 * y2;
      x2 := x1;
      x1 := input;
      y2 := y1;
      y1 := output;
    }

    /** processBuffer: buffer[i] := processSample(buffer[i]) for i = 0 .. numSamples - 1, in
        order; the rest of the buffer is untouched. */
    method ProcessBuffer(buffer: array<real>, numSamples: int)
      requires numSamples <= buffer.Length
      modifies this, buffer
      ensures var n := if numSamples < 0 then 0 else numSamples;
        && buffer[..n] == RunAll(old(View()), old(buffer[..n])).outs
        && buffer[n..] == old(buffer[n..])
        && View() == RunAll(old(View()), old(buffer[..n])).final
      ensures sampleRate == old(sampleRate)
    {
      var n := if numSamples < 0 then 0 else numSamples;
      ghost var input := buffer[..];
      ghost var start := View();
      var i := 0;
      while i < numSamples
        invariant 0 <= i <= n
        invariant buffer[..i] == RunAll(start, input[..i]).outs
        invariant buffer[i..] == input[i..]
        invariant View() == RunAll(start, input[..i]).final
        invariant sampleRate == old(sampleRate)
      {
        assert input[..i + 1][..i] == input[..i];
        assert buffer[i] == input[i];
        var y := ProcessSample(buffer[i]);
        buffer[i] := y;
        i := i + 1;
      }
    }

    /** setSampleRate stores the rate and does not re-derive the coefficients. */
    method SetSampleRate(rate: Rate)
      modifies this
      ensures sampleRate == rate && View() == old(View())
    {
      sampleRate := rate;
    }

    /** reset: zero the delay line only. */
    method Reset()
      modifies this
      ensures Delay() == ZeroHistory() && Coefs() == old(Coefs()) && sampleRate == old(sampleRate)
    {
      x1, x2, y1, y2 := 0.0, 0.0, 0.0, 0.0;
    }

    /** updateCoefficients from the current parameter values. */
    method UpdateCoefficients(mem: Memory, trig: Trig)
      requires ParametersInRange(mem.store)
      modifies this
      ensures Coefs() == CoefficientsFor(kind, mem.store, sampleRate, trig)
      ensures Delay() == old(Delay()) && sampleRate == old(sampleRate)
    {
      var c := CoefficientsFor(kind, mem.store, sampleRate, trig);
      b0, b1, b2, a1, a2 := c.b0, c.b1, c.b2, c.a1, c.a2;
    }

    /** setTargetFrequency: store max(1, min(f, 0.45 fs)) and re-derive. Never rejects input. */
    method SetTargetFrequency(f: real, mem: Memory, trig: Trig)
      requires kind.BandPass? && ParametersInRange(mem.store)
      modifies this, mem
      ensures mem.store == old(mem.store).Write(kind.targetFrequency, Clamp(f, 1.0, sampleRate * 0.45))
      ensures ParametersInRange(mem.store)
      ensures Coefs() == BandPassCoefficients(Clamp(f, 1.0, sampleRate * 0.45), mem.store.Read(kind.bandwidth), sampleRate, trig)
      ensures Delay() == old(Delay()) && sampleRate == old(sampleRate)
    {
      mem.store := mem.store.Write(kind.targetFrequency, Max(1.0, Min(f, sampleRate * 0.45)));
      UpdateCoefficients(mem, trig);
    }

    /** setBandwidth: store max(1, min(bw, 0.4 fs)) and re-derive. Never rejects input. */
    method SetBandwidth(bw: real, mem: Memory, trig: Trig)
      requires kind.BandPass? && ParametersInRange(mem.store)
      modifies this, mem
      ensures mem.store == old(mem.store).Write(kind.bandwidth, Clamp(bw, 1.0, sampleRate * 0.4))
      ensures ParametersInRange(mem.store)
      ensures Coefs() == BandPassCoefficients(mem.store.Read(kind.targetFrequency), Clamp(bw, 1.0, sampleRate * 0.4), sampleRate, trig)
      ensures Delay() == old(Delay()) && sampleRate == old(sampleRate)
    {
      mem.store := mem.store.Write(kind.bandwidth, Max(1.0, Min(bw, sampleRate * 0.4)));
      UpdateCoefficients(mem, trig);
    }

    /** setCutoffFrequency: store max(1, min(f, 0.45 fs)) and re-derive. */
    method SetCutoffFrequency(f: real, mem: Memory, trig: Trig)
      requires kind.LowPass? && ParametersInRange(mem.store)
      modifies this, mem
      ensures mem.store == old(mem.store).Write(kind.cutoffFrequency, Clamp(f, 1.0, sampleRate * 0.45))
      ensures ParametersInRange(mem.store)
      ensures Coefs() == LowPassCoefficients(Clamp(f, 1.0, sampleRate * 0.45), mem.store.Read(kind.resonance), sampleRate, trig)
      ensures Delay() == old(Delay()) && sampleRate == old(sampleRate)
    {
      mem.store := mem.store.Write(kind.cutoffFrequency, Max(1.0, Min(f, sampleRate * 0.45)));
      UpdateCoefficients(mem, trig);
    }

    /** setResonance: store max(0.1, min(q, 10)) and re-derive. */
    method SetResonance(q: real, mem: Memory, trig: Trig)
      requires kind.LowPass? && ParametersInRange(mem.store)
      modifies this, mem
      ensures mem.store == old(mem.store).Write(kind.resonance, Clamp(q, 0.1, 10.0))
      ensures 0.1 <= mem.store.Read(kind.resonance) <= 10.0
      ensures ParametersInRange(mem.store)
      ensures Coefs() == LowPassCoefficients(mem.store.Read(kind.cutoffFrequency), Clamp(q, 0.1, 10.0), sampleRate, trig)
      ensures Delay() == old(Delay()) && sampleRate == old(sampleRate)
    {
      mem.store := mem.store.Write(kind.resonance, Max(0.1, Min(q, 10.0)));
      UpdateCoefficients(mem, trig);
    }

    /** registerParametersWithPrefix: the filter's two entries, each with its setter hook. */
    method RegisterParametersWithPrefix(controller: LiveController, prefix: string)
      modifies controller
      ensures controller.parameters == old(controller.parameters) + FilterEntries(kind, prefix)
    {
      match kind {
        case BandPass(t, b) =>
          assert prefix + " " + "Target Freq" == prefix + " Target Freq";
          assert prefix + " " + "Bandwidth" == prefix + " Bandwidth";
          AddParameterWithPrefix(controller, prefix, "Target Freq", t, 20.0, 8000.0, 50.0, Some(ReapplyTargetFrequency));
          AddParameterWithPrefix(controller, prefix, "Bandwidth", b, 10.0, 2000.0, 200.0, Some(ReapplyBandwidth));
        case LowPass(f, q) =>
          assert prefix + " " + "Cutoff Freq" == prefix + " Cutoff Freq";
          assert prefix + " " + "Resonance" == prefix + " Resonance";
          AddParameterWithPrefix(controller, prefix, "Cutoff Freq", f, 20.0, 8000.0, 1000.0, Some(ReapplyCutoffFrequency));
          AddParameterWithPrefix(controller, prefix, "Resonance", q, 0.1, 10.0, 0.7071, Some(ReapplyResonance));
      }
      assert controller.parameters == old(controller.parameters) + FilterEntries(kind, prefix);
    }

    /** registerParameters: the same entries under the type name. */
    method RegisterParameters(controller: LiveController)
      modifies controller
      ensures controller.parameters == old(controller.parameters) + FilterEntries(kind, TypeName())
    {
      RegisterParametersWithPrefix(controller, TypeName());
    }

    /** Filter::addParameter: as AddParameterWithPrefix with the type name as prefix. */
    method AddParameter(controller: LiveController, name: string, cell: CellId,
                        minValue: real, maxValue: real, step: real, callback: Option<Hook>)
      modifies controller
      ensures controller.parameters == old(controller.parameters) + [LiveParameter(TypeName() + " " + name, cell, minValue, maxValue, step, callback)]
    {
      AddParameterWithPrefix(controller, TypeName(), name, cell, minValue, maxValue, step, callback);
    }
  }
}
