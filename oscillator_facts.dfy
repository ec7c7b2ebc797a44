/** Properties of the oscillator nodes over time: the phase accumulators, the FM node with the
    modulation switched off, the reach of setFrequency through nested FM carriers, and the
    output range of the additive mix. */
module OscillatorFacts {
  import opened Common
  import opened Cells
  import opened Oscillators

  /** k successive nextSample calls: the samples produced and the state afterwards. */
  datatype Trace = Trace(samples: seq<real>, node: Node, store: Store)

  function Run(n: Node, st: Store, trig: TrigFunctions, k: nat): (r: Trace)
    ensures |r.samples| == k
  {
    if k == 0 then Trace([], n, st)
    else
      var prev := Run(n, st, trig, k - 1);
      var t := Step(prev.node, prev.store, trig);
      Trace(prev.samples + [t.sample], t.node, t.store)
  }

  /** A saw or sine that starts inside [0, 1) and advances by less than a whole cycle per
      sample keeps its phase inside [0, 1) for ever; the store and every other field stay as
      they were. */
  lemma {:induction false} PhaseStaysInUnitInterval(n: Node, st: Store, trig: TrigFunctions, k: nat)
    requires n.Saw? || n.Sine?
    requires 0.0 <= n.core.phase < 1.0
    requires 0.0 <= Increment(n, st) < 1.0
    ensures var r := Run(n, st, trig, k);
      r.store == st && r.node == WithCore(n, n.core.(phase := r.node.core.phase))
      && 0.0 <= r.node.core.phase < 1.0
  {
    if k > 0 {
      PhaseStaysInUnitInterval(n, st, trig, k - 1);
      var prev := Run(n, st, trig, k - 1);
      assert Increment(prev.node, st) == Increment(n, st);
    }
  }

  /** The phase reached from p after k increments of d with no wrap. */
  function Drift(p: real, d: real, k: nat): real {
    if k == 0 then p else Drift(p, d, k - 1) + d
  }

  lemma {:induction false} DriftIsLinear(p: real, d: real, k: nat)
    ensures Drift(p, d, k) == p + k as real * d
  {
    if k > 0 {
      DriftIsLinear(p, d, k - 1);
      assert (k - 1) as real * d + d == k as real * d;
    }
  }

  lemma {:induction false} DriftBelow(p: real, d: real, k: nat)
    requires d < 0.0
    ensures Drift(p, d, k) <= p
  {
    if k > 0 {
      DriftBelow(p, d, k - 1);
    }
  }

  /** The phase is only ever wrapped downwards: with a negative increment (a negative
      frequency, or a negative override) the phase drifts below 0 without correction, by
      exactly one increment per sample (see DriftIsLinear for the closed form). */
  lemma {:induction false} NegativeIncrementDrifts(n: Node, st: Store, trig: TrigFunctions, k: nat)
    requires n.Saw? || n.Sine?
    requires n.core.phase < 1.0 && Increment(n, st) < 0.0
    ensures var r := Run(n, st, trig, k);
      r.store == st && r.node == WithCore(n, n.core.(phase := r.node.core.phase))
      && r.node.core.phase == Drift(n.core.phase, Increment(n, st), k)
  {
    if k > 0 {
      NegativeIncrementDrifts(n, st, trig, k - 1);
      var prev := Run(n, st, trig, k - 1);
      assert Increment(prev.node, st) == Increment(n, st);
      DriftBelow(n.core.phase, Increment(n, st), k - 1);
    }
  }

  /** A value in [-1, 1] scaled by a factor in [0, 1] stays in [-1, 1]. */
  lemma ScaledBounded(m: real, a: real)
    requires -1.0 <= m <= 1.0 && 0.0 <= a <= 1.0
    ensures -1.0 <= m * a <= 1.0
  {
    ProductBounded(m, a);
  }

  /** A saw sample at a phase in [0, 1) lies in [-amplitude, amplitude), and reaches
      +amplitude only when the amplitude is 0. */
  lemma SawSampleBounds(core: Core)
    requires 0.0 <= core.amplitude && 0.0 <= core.phase < 1.0
    ensures -core.amplitude <= SawSample(core) <= core.amplitude
    ensures 0.0 < core.amplitude ==> SawSample(core) < core.amplitude
  {
    var a := core.amplitude;
    var u := 2.0 * core.phase - 1.0;
    assert -1.0 <= u < 1.0;
    MulNonNeg(a, 1.0 - u);
    MulNonNeg(a, u + 1.0);
    assert SawSample(core) == a * u;
    assert a * (1.0 - u) == a - a * u;
    if 0.0 < a {
      MulPos(a, 1.0 - u);
    }
  }

  /** Every sample of a saw in the normal operating range lies in [-amplitude, amplitude], and
      strictly below +amplitude when the amplitude is positive. */
  lemma {:induction false} SawOutputBounded(n: Node, st: Store, trig: TrigFunctions, k: nat)
    requires n.Saw? && 0.0 <= n.core.amplitude
    requires 0.0 <= n.core.phase < 1.0 && 0.0 <= Increment(n, st) < 1.0
    ensures forall i :: 0 <= i < k ==> -n.core.amplitude <= Run(n, st, trig, k).samples[i] <= n.core.amplitude
    ensures 0.0 < n.core.amplitude ==> forall i :: 0 <= i < k ==> Run(n, st, trig, k).samples[i] < n.core.amplitude
  {
    if k > 0 {
      SawOutputBounded(n, st, trig, k - 1);
      PhaseStaysInUnitInterval(n, st, trig, k - 1);
      var prev := Run(n, st, trig, k - 1);
      SawSampleBounds(prev.node.core);
      var samples := Run(n, st, trig, k).samples;
      assert samples == prev.samples + [SawSample(prev.node.core)];
      assert forall i :: 0 <= i < k - 1 ==> samples[i] == prev.samples[i];
      assert prev.node.core.amplitude == n.core.amplitude;
    }
  }

  /** With the modulation depth at 0, an FM node whose carrier is a plain sine at the node's
      own sample rate plays exactly that sine, scaled by the node's amplitude: the carrier
      advances as it would on its own and is left without an override. The modulator may be
      any node (a nested FM node included) whose step leaves the depth and the carrier's
      frequency alone. */
  lemma FMWithoutModulationPlaysTheCarrier(n: Node, st: Store, trig: TrigFunctions)
    requires n.FM? && n.carrier.Some? && n.modulator.Some?
    requires n.carrier.value.Sine? && !n.carrier.value.useCustomIncrement
    requires n.carrier.value.core.sampleRate == n.core.sampleRate
    requires st.Read(n.depth) == 0.0
    requires var m := Step(n.modulator.value, st, trig);
      m.store.Read(n.depth) == st.Read(n.depth)
      && m.store.Read(n.carrier.value.core.frequency) == st.Read(n.carrier.value.core.frequency)
    ensures var m := Step(n.modulator.value, st, trig);
      var t := Step(n, st, trig);
      && t.sample == Scale(SineSample(n.carrier.value.core, trig), n.core.amplitude)
      && t.store == m.store
      && t.node.carrier.Some? && t.node.carrier.value.Sine? && !t.node.carrier.value.useCustomIncrement
      && t.node.carrier.value.core == Advance(n.carrier.value, st).core
      && t.node.modulator == Some(m.node)
  {
    var c := n.carrier.value;
    var m := Step(n.modulator.value, st, trig);
    var offset := Scale(m.sample, m.store.Read(n.depth));
    assert offset == 0.0;
    assert (m.store.Read(c.core.frequency) + offset) / n.core.sampleRate == Increment(c, st);
    assert Step(n, st, trig) == DriveSineCarrier(n, offset, m, trig);
  }

  /** After one FM step, a plain carrier's frequency is what it was before: the sine branch
      never writes it, and the other branch writes it back. This needs the modulator's step to
      leave that cell alone. */
  lemma CarrierFrequencyRestored(n: Node, st: Store, trig: TrigFunctions)
    requires n.FM? && n.carrier.Some? && n.modulator.Some? && !n.carrier.value.FM?
    requires var f := n.carrier.value.core.frequency;
      Step(n.modulator.value, st, trig).store.Read(f) == st.Read(f)
    ensures var f := n.carrier.value.core.frequency;
      var t := Step(n, st, trig);
      t.store.Read(f) == st.Read(f) && t.node.carrier.value.core.frequency == f
  {
    var m := Step(n.modulator.value, st, trig);
    var offset := Scale(m.sample, m.store.Read(n.depth));
    if n.carrier.value.Sine? {
      assert Step(n, st, trig).store == DriveSineCarrier(n, offset, m, trig).store == m.store;
    } else {
      assert Step(n, st, trig).store == DriveCarrier(n, offset, m, trig).store;
    }
  }

  /** When the carrier is itself an FM node, getFrequency() returns that node's own base
      frequency field, which its setFrequency never updates. Setting the frequency back after
      the sample therefore writes that base value into the nested node's carrier, whatever
      frequency the nested carrier had before. */
  lemma NestedCarrierRestoredFromBaseField(n: Node, st: Store, trig: TrigFunctions)
    requires n.FM? && n.carrier.Some? && n.modulator.Some? && n.carrier.value.FM?
    requires n.carrier.value.carrier.Some? && !n.carrier.value.carrier.value.FM?
    ensures var m := Step(n.modulator.value, st, trig);
      var inner := n.carrier.value.carrier.value;
      Step(n, st, trig).store.Read(inner.core.frequency) == m.store.Read(n.carrier.value.core.frequency)
  {
    var m := Step(n.modulator.value, st, trig);
    var offset := Scale(m.sample, m.store.Read(n.depth));
    assert Step(n, st, trig) == DriveCarrier(n, offset, m, trig);
  }

  /** The first non-FM node reached by following carriers, if every carrier on the way
      exists. */
  function CarrierLeaf(n: Node): (r: Option<Node>)
    decreases n
    ensures r.Some? ==> !r.value.FM?
  {
    if n.FM? then (if n.carrier.Some? then CarrierLeaf(n.carrier.value) else None) else Some(n)
  }

  /** setFrequency on an FM node reaches through any chain of nested FM carriers and writes
      the frequency of the innermost plain oscillator. */
  lemma {:induction false} SetFrequencyReachesCarrierLeaf(n: Node, f: real, st: Store)
    requires CarrierLeaf(n).Some?
    ensures SetFrequency(n, f, st).store.Read(CarrierLeaf(n).value.core.frequency) == f
    decreases n
  {
    if n.FM? {
      SetFrequencyReachesCarrierLeaf(n.carrier.value, f, st);
    }
  }

  lemma {:induction false} SumBounds(xs: seq<real>)
    requires forall i :: 0 <= i < |xs| ==> -1.0 <= xs[i] <= 1.0
    ensures -(|xs| as real) <= Sum(xs) <= |xs| as real
  {
    if xs != [] {
      SumBounds(xs[..|xs| - 1]);
    }
  }

  /** The additive mix of samples in [-1, 1] with an output amplitude in [0, 1] stays in
      [-1, 1]: dividing by the child count is what keeps the sum from clipping. */
  lemma MixBounded(xs: seq<real>, a: real)
    requires xs != [] && 0.0 <= a <= 1.0
    requires forall i :: 0 <= i < |xs| ==> -1.0 <= xs[i] <= 1.0
    ensures -1.0 <= Mix(xs, a) <= 1.0
  {
    SumBounds(xs);
    var len := |xs| as real;
    var mean := Sum(xs) / len;
    assert mean * len == Sum(xs);
    assert -1.0 <= mean <= 1.0;
    assert Mix(xs, a) == mean * a;
    ScaledBounded(mean, a);
  }

  /** Saws in the normal operating range, stepped in turn, leave the store alone and each
      produce a sample within its amplitude. */
  lemma {:induction false} StepAllSaws(cs: seq<Node>, st: Store, trig: TrigFunctions)
    requires forall i :: 0 <= i < |cs| ==> cs[i].Saw? && 0.0 <= cs[i].core.amplitude <= 1.0 && 0.0 <= cs[i].core.phase < 1.0
    ensures StepAll(cs, st, trig).store == st
    ensures forall i :: 0 <= i < |cs| ==> -1.0 <= StepAll(cs, st, trig).samples[i] <= 1.0
    decreases |cs|
  {
    if cs != [] {
      var k := |cs| - 1;
      StepAllSaws(cs[..k], st, trig);
      SawSampleBounds(cs[k].core);
      var prev := StepAll(cs[..k], st, trig);
      assert StepAll(cs, st, trig).samples == prev.samples + [SawSample(cs[k].core)];
    }
  }

  /** An additive node over saws in the normal operating range, with its output amplitude in
      [0, 1], produces samples in [-1, 1]. */
  lemma AdditiveOfSawsBounded(n: Node, st: Store, trig: TrigFunctions)
    requires n.Additive?
    requires forall i :: 0 <= i < |n.children| ==>
      n.children[i].Saw? && 0.0 <= n.children[i].core.amplitude <= 1.0 && 0.0 <= n.children[i].core.phase < 1.0
    requires 0.0 <= st.Read(n.outputAmplitude) <= 1.0
    ensures -1.0 <= Step(n, st, trig).sample <= 1.0
  {
    if n.children != [] {
      StepAllSaws(n.children, st, trig);
      MixBounded(StepAll(n.children, st, trig).samples, st.Read(n.outputAmplitude));
    }
  }
}
