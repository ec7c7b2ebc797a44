/** The value-level meaning of a Sound: the weighted sum of its oscillators, the filter chain
    run in order, the gain of the first envelope and the master volume; and the mix-ratio
    normalisation that keeps the ratios summing to one. */
module Mixing {
  import opened Common
  import opened Cells
  import opened Filters
  import opened Envelopes
  import opened Oscillators

  /** oscSum: the samples weighted by the ratios, accumulated front to back. */
  function WeightedSum(samples: seq<real>, ratios: seq<real>): real
    requires |samples| == |ratios|
  {
    if samples == [] then 0.0
    else WeightedSum(samples[..|samples| - 1], ratios[..|ratios| - 1]) + Scale(samples[|samples| - 1], ratios[|ratios| - 1])
  }

  /** The sample after each filter in turn, and each filter's state afterwards. */
  datatype Chained = Chained(out: real, views: seq<Biquad>)

  function Chain(views: seq<Biquad>, x: real): (r: Chained)
    ensures |r.views| == |views|
    ensures views == [] ==> r.out == x
  {
    if views == [] then Chained(x, [])
    else
      var prev := Chain(views[..|views| - 1], x);
      var p := Process(views[|views| - 1], prev.out);
      Chained(p.out, prev.views + [p.next])
  }

  /** normalizeMixRatios: divide by the sum when it is positive; otherwise give every
      oscillator an equal share. An empty list stays empty. */
  function Normalized(rs: seq<real>): (r: seq<real>)
    ensures |r| == |rs|
  {
    if rs == [] then []
    else if Sum(rs) > 0.0 then seq(|rs|, i requires 0 <= i < |rs| => rs[i] / Sum(rs))
    else seq(|rs|, i => 1.0 / |rs| as real)
  }

  /** The invariant the ratios keep: each in [0, 1], and summing to 1 when there are any. */
  predicate RatiosNormalised(rs: seq<real>) {
    (forall i :: 0 <= i < |rs| ==> 0.0 <= rs[i] <= 1.0) && (rs != [] ==> Sum(rs) == 1.0)
  }

  lemma {:induction false} SumScaled(xs: seq<real>, ys: seq<real>, s: real)
    requires s != 0.0 && |xs| == |ys|
    requires forall i :: 0 <= i < |xs| ==> ys[i] == xs[i] / s
    ensures Sum(ys) == Sum(xs) / s
  {
    if xs != [] {
      var k := |xs| - 1;
      SumScaled(xs[..k], ys[..k], s);
      assert Sum(ys) == Sum(xs[..k]) / s + xs[k] / s;
      assert Sum(xs[..k]) / s + xs[k] / s == (Sum(xs[..k]) + xs[k]) / s;
    }
  }

  lemma {:induction false} SumConstant(ys: seq<real>, c: real)
    requires forall i :: 0 <= i < |ys| ==> ys[i] == c
    ensures Sum(ys) == |ys| as real * c
  {
    if ys != [] {
      var k := |ys| - 1;
      SumConstant(ys[..k], c);
      assert (k as real) * c + c == (k + 1) as real * c;
    }
  }

  lemma {:induction false} SumNonNegative(xs: seq<real>)
    requires forall i :: 0 <= i < |xs| ==> 0.0 <= xs[i]
    ensures 0.0 <= Sum(xs)
  {
    if xs != [] {
      SumNonNegative(xs[..|xs| - 1]);
    }
  }

  /** With no negative entry, every entry is at most the sum. */
  lemma {:induction false} ElementBelowSum(xs: seq<real>, j: nat)
    requires j < |xs| && forall i :: 0 <= i < |xs| ==> 0.0 <= xs[i]
    ensures xs[j] <= Sum(xs)
  {
    var k := |xs| - 1;
    if j < k {
      ElementBelowSum(xs[..k], j);
    } else {
      SumNonNegative(xs[..k]);
    }
  }

  /** Normalising ratios that are all non-negative gives ratios in [0, 1] that sum to 1. */
  lemma NormalizedIsNormalised(rs: seq<real>)
    requires forall i :: 0 <= i < |rs| ==> 0.0 <= rs[i]
    ensures RatiosNormalised(Normalized(rs))
  {
    var r := Normalized(rs);
    if rs != [] {
      var s := Sum(rs);
      if s > 0.0 {
        SumScaled(rs, r, s);
        forall i | 0 <= i < |rs| ensures 0.0 <= r[i] <= 1.0 {
          ElementBelowSum(rs, i);
          assert r[i] == rs[i] / s;
        }
      } else {
        var n := |rs| as real;
        SumConstant(r, 1.0 / n);
        assert n * (1.0 / n) == 1.0;
      }
    }
  }

  /** Normalising already normalised ratios changes nothing. */
  lemma NormalizedIdempotent(rs: seq<real>)
    requires RatiosNormalised(rs)
    ensures Normalized(rs) == rs
  {
  }

  /** A single ratio always normalises to 1, whatever it was set to. */
  lemma LoneRatioIsOne(r: real)
    requires 0.0 <= r
    ensures Normalized([r]) == [1.0]
  {
    assert Sum([r]) == Sum([r][..0]) + r;
    assert [r][..0] == [];
    if r > 0.0 {
      assert Normalized([r])[0] == r / r == 1.0;
    } else {
      assert Normalized([r])[0] == 1.0 / 1.0;
    }
  }

  /** addOscillator appends 1.0 before normalising: when the existing ratios already sum to 1,
      the new oscillator takes half of the mix and every earlier one keeps half its share. */
  lemma AddedOscillatorTakesHalf(rs: seq<real>)
    requires rs != [] && RatiosNormalised(rs)
    ensures var r := Normalized(rs + [1.0]);
      r[|rs|] == 0.5 && forall i :: 0 <= i < |rs| ==> r[i] == rs[i] / 2.0
  {
    assert (rs + [1.0])[..|rs|] == rs;
    assert Sum(rs + [1.0]) == 2.0;
  }

  /** |oscSum| <= 1 when every oscillator sample is in [-1, 1] and the ratios are normalised. */
  lemma {:induction false} WeightedSumBounded(samples: seq<real>, ratios: seq<real>)
    requires |samples| == |ratios|
    requires forall i :: 0 <= i < |samples| ==> -1.0 <= samples[i] <= 1.0
    requires forall i :: 0 <= i < |ratios| ==> 0.0 <= ratios[i]
    ensures -Sum(ratios) <= WeightedSum(samples, ratios) <= Sum(ratios)
  {
    if samples != [] {
      var k := |samples| - 1;
      var x, r := samples[k], ratios[k];
      WeightedSumBounded(samples[..k], ratios[..k]);
      ScaleBounded(x, r);
      assert WeightedSum(samples, ratios) == WeightedSum(samples[..k], ratios[..k]) + Scale(x, r);
      assert Sum(ratios) == Sum(ratios[..k]) + r;
    }
  }

  lemma ScaleBounded(x: real, r: real)
    requires -1.0 <= x <= 1.0 && 0.0 <= r
    ensures -r <= Scale(x, r) <= r
  {
    ProductBounded(x, r);
  }

  /** What the first envelope looks like to the Sound: its state, its four parameter cells and
      its sample rate. */
  datatype EnvelopeView = EnvelopeView(state: EnvState, attack: CellId, decay: CellId, sustain: CellId,
                                       release: CellId, sampleRate: real)

  function TimesOf(e: EnvelopeView, st: Store): Times {
    Times(st.Read(e.attack), st.Read(e.decay), st.Read(e.sustain), st.Read(e.release))
  }

  /** Everything one Sound sample reads and changes. */
  datatype Snapshot = Snapshot(oscillators: seq<Node>, ratios: seq<real>, filters: seq<Biquad>,
                               envelope: Option<EnvelopeView>, store: Store)

  datatype Output = Output(sample: real, next: Snapshot)

  /** The last stage of a sample: the first envelope's gain, if there is an envelope, then the
      master volume. Returns the sample and the envelope after its step. */
  datatype Finished = Finished(sample: real, envelope: Option<EnvelopeView>)

  function Finish(x: real, envelope: Option<EnvelopeView>, st: Store, volume: CellId): (f: Finished)
    ensures f.envelope.Some? <==> envelope.Some?
    ensures envelope.None? ==> f.sample == Scale(x, st.Read(volume))
    ensures envelope.Some? ==> (
      && f.envelope.value == envelope.value.(state := Next(envelope.value.state, TimesOf(envelope.value, st), envelope.value.sampleRate))
      && f.sample == Scale(Scale(x, f.envelope.value.state.value), st.Read(volume)))
  {
    match envelope
    case None => Finished(Scale(x, st.Read(volume)), None)
    case Some(e) =>
      var env := Next(e.state, TimesOf(e, st), e.sampleRate);
      Finished(Scale(Scale(x, env.value), st.Read(volume)), Some(e.(state := env)))
  }

  /** Sound::nextSample: every oscillator once, in order; their weighted sum through every
      filter, in order; times the first envelope's gain, if there is an envelope; times the
      master volume as the store holds it after the oscillators ran. */
  function SoundStep(s: Snapshot, volume: CellId, trig: TrigFunctions): (o: Output)
    requires |s.ratios| == |s.oscillators|
    ensures o.next.ratios == s.ratios && |o.next.oscillators| == |s.oscillators|
    ensures |o.next.filters| == |s.filters| && (o.next.envelope.Some? <==> s.envelope.Some?)
    ensures s.store.Valid() ==> o.next.store.Valid()
  {
    var osc := StepAll(s.oscillators, s.store, trig);
    var chain := Chain(s.filters, WeightedSum(osc.samples, s.ratios));
    var f := Finish(chain.out, s.envelope, osc.store, volume);
    Output(f.sample, Snapshot(osc.nodes, s.ratios, chain.views, f.envelope, osc.store))
  }

  /** generateSamples: n successive samples. */
  datatype Rendered = Rendered(samples: seq<real>, final: Snapshot)

  function Render(s: Snapshot, volume: CellId, trig: TrigFunctions, n: nat): (r: Rendered)
    requires |s.ratios| == |s.oscillators|
    ensures |r.samples| == n && |r.final.ratios| == |r.final.oscillators|
  {
    if n == 0 then Rendered([], s)
    else
      var prev := Render(s, volume, trig, n - 1);
      var o := SoundStep(prev.final, volume, trig);
      Rendered(prev.samples + [o.sample], o.next)
  }

  /** Before noteOn the first envelope is Idle, and the Sound is silent. */
  lemma IdleEnvelopeSilences(s: Snapshot, volume: CellId, trig: TrigFunctions)
    requires |s.ratios| == |s.oscillators|
    requires s.envelope.Some? && s.envelope.value.state.stage == Idle
    ensures SoundStep(s, volume, trig).sample == 0.0
    ensures SoundStep(s, volume, trig).next.envelope
      == Some(s.envelope.value.(state := s.envelope.value.state.(value := 0.0)))
  {
  }

  /** A Sound with no oscillators and no filters is silent: the sum over no oscillators is 0,
      and 0 stays 0 through the envelope and the volume. Nothing runs, so the store is as it
      was; the envelope still takes its step. */
  lemma EmptySoundSilent(s: Snapshot, volume: CellId, trig: TrigFunctions)
    requires |s.ratios| == |s.oscillators|
    requires s.oscillators == [] && s.filters == []
    ensures SoundStep(s, volume, trig).sample == 0.0
    ensures SoundStep(s, volume, trig).next.store == s.store
    ensures SoundStep(s, volume, trig).next.envelope == Finish(0.0, s.envelope, s.store, volume).envelope
  {
    var osc := StepAll(s.oscillators, s.store, trig);
    assert osc.samples == [] && osc.store == s.store;
    assert WeightedSum(osc.samples, s.ratios) == 0.0;
  }

  /** A mix in [-1, 1] scaled by a gain and a volume, each in [0, 1], stays in [-1, 1]. */
  lemma ScaledTwiceBounded(x: real, g: real, v: real)
    requires -1.0 <= x <= 1.0 && 0.0 <= g <= 1.0 && 0.0 <= v <= 1.0
    ensures -1.0 <= Scale(Scale(x, g), v) <= 1.0
  {
    ScaleBounded(x, g);
    ScaleBounded(Scale(x, g), v);
  }

  /** The envelope and volume stage keeps a sample in [-1, 1] when the gain and the volume
      are both in [0, 1]. */
  lemma FinishBounded(x: real, envelope: Option<EnvelopeView>, st: Store, volume: CellId)
    requires -1.0 <= x <= 1.0 && 0.0 <= st.Read(volume) <= 1.0
    requires envelope.Some? ==> 0.0 <= Finish(x, envelope, st, volume).envelope.value.state.value <= 1.0
    ensures -1.0 <= Finish(x, envelope, st, volume).sample <= 1.0
  {
    var f := Finish(x, envelope, st, volume);
    if envelope.None? {
      ScaleBounded(x, st.Read(volume));
    } else {
      ScaledTwiceBounded(x, f.envelope.value.state.value, st.Read(volume));
    }
  }

  /** With normalised ratios, oscillator samples in [-1, 1], no filter, an envelope gain in
      [0, 1] and a master volume in [0, 1], the output stays in [-1, 1]. */
  lemma OutputBounded(s: Snapshot, volume: CellId, trig: TrigFunctions)
    requires |s.ratios| == |s.oscillators| && RatiosNormalised(s.ratios) && s.filters == []
    requires forall i :: 0 <= i < |s.oscillators| ==> -1.0 <= StepAll(s.oscillators, s.store, trig).samples[i] <= 1.0
    requires 0.0 <= StepAll(s.oscillators, s.store, trig).store.Read(volume) <= 1.0
    requires s.envelope.Some? ==>
      0.0 <= Next(s.envelope.value.state, TimesOf(s.envelope.value, StepAll(s.oscillators, s.store, trig).store), s.envelope.value.sampleRate).value <= 1.0
    ensures -1.0 <= SoundStep(s, volume, trig).sample <= 1.0
  {
    var osc := StepAll(s.oscillators, s.store, trig);
    var mixed := WeightedSum(osc.samples, s.ratios);
    MixedBounded(osc.samples, s.ratios);
    assert Chain(s.filters, mixed).out == mixed;
    FinishBounded(mixed, s.envelope, osc.store, volume);
  }

  /** The weighted sum of samples in [-1, 1] under normalised ratios lies in [-1, 1]. */
  lemma MixedBounded(samples: seq<real>, ratios: seq<real>)
    requires |samples| == |ratios| && RatiosNormalised(ratios)
    requires forall i :: 0 <= i < |samples| ==> -1.0 <= samples[i] <= 1.0
    ensures -1.0 <= WeightedSum(samples, ratios) <= 1.0
  {
    WeightedSumBounded(samples, ratios);
  }

  lemma StepAllSnoc(cs: seq<Node>, i: nat, st: Store, trig: TrigFunctions)
    requires i < |cs|
    ensures var prev := StepAll(cs[..i], st, trig);
      var t := Step(cs[i], prev.store, trig);
      StepAll(cs[..i + 1], st, trig) == Ticks(prev.samples + [t.sample], prev.nodes + [t.node], t.store)
  {
    assert cs[..i + 1][..i] == cs[..i];
  }

  /** One more oscillator stepped: the sum and the trace of the first loop of nextSample
      extend by one. */
  lemma MixOneMore(cs: seq<Node>, st0: Store, trig: TrigFunctions, i: nat, samples: seq<real>,
                   nodes: seq<Node>, st: Store, oscSum: real, ratios: seq<real>)
    requires i < |cs| == |ratios|
    requires StepAll(cs[..i], st0, trig) == Ticks(samples, nodes, st)
    requires oscSum == WeightedSum(samples, ratios[..i])
    ensures var tick := Step(cs[i], st, trig);
      && StepAll(cs[..i + 1], st0, trig) == Ticks(samples + [tick.sample], nodes + [tick.node], tick.store)
      && oscSum + Scale(tick.sample, ratios[i]) == WeightedSum(samples + [tick.sample], ratios[..i + 1])
  {
    StepAllSnoc(cs, i, st0, trig);
    WeightedSumSnoc(samples, Step(cs[i], st, trig).sample, ratios, i);
  }

  lemma ChainSnoc(vs: seq<Biquad>, j: nat, x: real)
    requires j < |vs|
    ensures var prev := Chain(vs[..j], x);
      var p := Process(vs[j], prev.out);
      Chain(vs[..j + 1], x) == Chained(p.out, prev.views + [p.next])
  {
    assert vs[..j + 1][..j] == vs[..j];
  }

  lemma RenderSnoc(s: Snapshot, volume: CellId, trig: TrigFunctions, i: nat)
    requires |s.ratios| == |s.oscillators|
    ensures var r := Render(s, volume, trig, i);
      var o := SoundStep(r.final, volume, trig);
      Render(s, volume, trig, i + 1) == Rendered(r.samples + [o.sample], o.next)
  {
  }

  /** One more step of Render appends the step's sample and moves to its next snapshot. */
  lemma RenderStep(s: Snapshot, volume: CellId, trig: TrigFunctions, i: nat, out: seq<real>, cur: Snapshot)
    requires |s.ratios| == |s.oscillators|
    requires Render(s, volume, trig, i) == Rendered(out, cur)
    ensures var o := SoundStep(cur, volume, trig);
      Render(s, volume, trig, i + 1) == Rendered(out + [o.sample], o.next)
  {
    RenderSnoc(s, volume, trig, i);
  }

  lemma WeightedSumSnoc(samples: seq<real>, x: real, ratios: seq<real>, i: nat)
    requires |samples| == i && i < |ratios|
    ensures WeightedSum(samples + [x], ratios[..i + 1]) == WeightedSum(samples, ratios[..i]) + Scale(x, ratios[i])
  {
    var xs, rs := samples + [x], ratios[..i + 1];
    assert xs[..|xs| - 1] == samples && xs[|xs| - 1] == x;
    assert rs[..|rs| - 1] == ratios[..i] && rs[|rs| - 1] == ratios[i];
  }
}
