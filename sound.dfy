/** The Sound: the oscillators it mixes (with one mix ratio each), the filters the mix runs
    through in order, the envelopes (the first of which shapes the output) and the master
    volume, which lives in a cell so that a live parameter can point at it. */
module Sounds {
  import opened Common
  import opened Cells
  import opened Filters
  import opened Envelopes
  import opened Oscillators
  import opened Mixing

  /** What the Sound sees of one filter: its coefficients and delay line. */
  function Views(fs: seq<Filter>): (r: seq<Biquad>)
    reads fs
    ensures |r| == |fs| && forall i :: 0 <= i < |fs| ==> r[i] == fs[i].View()
  {
    if fs == [] then [] else Views(fs[..|fs| - 1]) + [fs[|fs| - 1].View()]
  }

  /** What the Sound sees of its first envelope. */
  function EnvView(e: Envelope): (v: EnvelopeView)
    reads e
    ensures v.state == e.State() && v.sampleRate == e.sampleRate
    ensures forall st :: TimesOf(v, st) == e.TimesIn(st)
  {
    EnvelopeView(e.State(), e.attack, e.decay, e.sustain, e.release, e.sampleRate)
  }

  /** No object appears twice: each filter and envelope is owned by one slot of the Sound. */
  predicate Distinct<T(==)>(xs: seq<T>) {
    forall i, j :: 0 <= i < j < |xs| ==> xs[i] != xs[j]
  }

  /** Finish is the envelope step followed by the master volume. */
  lemma FinishSteps(x: real, before: Option<EnvelopeView>, after: Option<EnvelopeView>, st: Store,
                    volume: CellId, shaped: real)
    requires before.None? ==> after.None? && shaped == x
    requires before.Some? ==>
      && after == Some(before.value.(state := Next(before.value.state, TimesOf(before.value, st), before.value.sampleRate)))
      && shaped == Scale(x, after.value.state.value)
    ensures Finish(x, before, st, volume) == Finished(Scale(shaped, st.Read(volume)), after)
  {
  }

  /** The oscillator loop of nextSample on values: every node steps once, in order, each step
      seeing the store the previous one left, and the samples are summed with the ratios as
      weights. */
  method MixAll(oscillators: seq<Node>, ratios: seq<real>, st0: Store, trig: TrigFunctions)
    returns (oscSum: real, nodes: seq<Node>, st: Store)
    requires |ratios| == |oscillators|
    ensures var t := StepAll(oscillators, st0, trig);
      oscSum == WeightedSum(t.samples, ratios) && nodes == t.nodes && st == t.store
  {
    nodes := [];
    st := st0;
    ghost var samples: seq<real> := [];
    oscSum := 0.0;
    var i := 0;
    while i < |oscillators|
      invariant 0 <= i <= |oscillators|
      invariant StepAll(oscillators[..i], st0, trig) == Ticks(samples, nodes, st)
      invariant oscSum == WeightedSum(samples, ratios[..i])
    {
      var tick := Step(oscillators[i], st, trig);
      MixOneMore(oscillators, st0, trig, i, samples, nodes, st, oscSum, ratios);
      oscSum := oscSum + Scale(tick.sample, ratios[i]);
      samples := samples + [tick.sample];
      nodes := nodes + [tick.node];
      st := tick.store;
      i := i + 1;
    }
    assert oscillators[..i] == oscillators && ratios[..i] == ratios;
  }

  class Sound {
    const sampleRate: real
    const masterVolume: CellId
    var oscillators: seq<Node>
    var mixRatios: seq<real>
    var filters: seq<Filter>
    var envelopes: seq<Envelope>

    /** One ratio per oscillator, normalised; every filter and envelope held once; every
        envelope consistent. */
    ghost predicate Valid()
      reads this, envelopes
    {
      && |mixRatios| == |oscillators| && RatiosNormalised(mixRatios)
      && Distinct(filters) && Distinct(envelopes)
      && forall i :: 0 <= i < |envelopes| ==> envelopes[i].Valid()
    }

    /** The state one nextSample reads and changes, with the memory cells as st holds them. */
    function Snapshot(st: Store): Snapshot
      reads this, filters, envelopes
    {
      Mixing.Snapshot(oscillators, mixRatios, Views(filters),
                      if envelopes == [] then None else Some(EnvView(envelopes[0])), st)
    }

    /** A new Sound holds nothing; its master volume is a fresh cell holding 0.7. */
    constructor(sampleRate: real, mem: Memory)
      requires mem.store.Valid()
      modifies mem
      ensures Valid() && this.sampleRate == sampleRate
      ensures oscillators == [] && mixRatios == [] && filters == [] && envelopes == []
      ensures mem.store.Read(masterVolume) == 0.7 && mem.store.Valid()
      ensures masterVolume !in old(mem.store.cells)
      ensures forall c :: c in old(mem.store.cells) ==> mem.store.Read(c) == old(mem.store).Read(c)
    {
      this.sampleRate := sampleRate;
      var a := mem.store.Alloc(0.7);
      masterVolume := a.cell;
      mem.store := a.store;
      oscillators := [];
      mixRatios := [];
      filters := [];
      envelopes := [];
    }

    /** The ratios become the normalised ratios; nothing else changes. */
    method NormalizeMixRatios()
      modifies this
      ensures mixRatios == Normalized(old(mixRatios))
      ensures oscillators == old(oscillators) && filters == old(filters) && envelopes == old(envelopes)
    {
      if mixRatios == [] {
        return;
      }
      var sum := 0.0;
      var i := 0;
      while i < |mixRatios|
        invariant 0 <= i <= |mixRatios|
        invariant sum == Sum(mixRatios[..i])
        invariant mixRatios == old(mixRatios)
      {
        assert mixRatios[..i + 1][..i] == mixRatios[..i];
        sum := sum + mixRatios[i];
        i := i + 1;
      }
      assert mixRatios[..i] == mixRatios;
      ghost var rs := mixRatios;
      if sum > 0.0 {
        i := 0;
        while i < |mixRatios|
          invariant 0 <= i <= |mixRatios| == |rs|
          invariant oscillators == old(oscillators) && filters == old(filters) && envelopes == old(envelopes)
          invariant forall k :: 0 <= k < i ==> mixRatios[k] == rs[k] / sum
          invariant forall k :: i <= k < |rs| ==> mixRatios[k] == rs[k]
        {
          mixRatios := mixRatios[i := mixRatios[i] / sum];
          i := i + 1;
        }
      } else {
        var equalRatio := 1.0 / |mixRatios| as real;
        i := 0;
        while i < |mixRatios|
          invariant 0 <= i <= |mixRatios| == |rs|
          invariant oscillators == old(oscillators) && filters == old(filters) && envelopes == old(envelopes)
          invariant forall k :: 0 <= k < i ==> mixRatios[k] == equalRatio
        {
          mixRatios := mixRatios[i := equalRatio];
          i := i + 1;
        }
      }
    }

    /** The oscillator is appended with ratio 1.0 and the ratios renormalised; with ratios
        that summed to 1 the newcomer gets half the mix (see AddedOscillatorTakesHalf). */
    method AddOscillator(n: Node)
      requires Valid()
      modifies this
      ensures Valid()
      ensures oscillators == old(oscillators) + [n]
      ensures mixRatios == Normalized(old(mixRatios) + [1.0])
      ensures filters == old(filters) && envelopes == old(envelopes)
    {
      oscillators := oscillators + [n];
      mixRatios := mixRatios + [1.0];
      NormalizeMixRatios();
      NormalizedIsNormalised(old(mixRatios) + [1.0]);
    }

    /** The filter goes last in the chain; the Sound takes ownership, so it must not already
        hold it. */
    method AddFilter(f: Filter)
      requires Valid() && f !in filters
      modifies this
      ensures Valid()
      ensures filters == old(filters) + [f]
      ensures oscillators == old(oscillators) && mixRatios == old(mixRatios) && envelopes == old(envelopes)
    {
      filters := filters + [f];
    }

    method AddEnvelope(e: Envelope)
      requires Valid() && e.Valid() && e !in envelopes
      modifies this
      ensures Valid()
      ensures envelopes == old(envelopes) + [e]
      ensures oscillators == old(oscillators) && mixRatios == old(mixRatios) && filters == old(filters)
    {
      envelopes := envelopes + [e];
    }

    method ClearFilters()
      requires Valid()
      modifies this
      ensures Valid() && filters == []
      ensures oscillators == old(oscillators) && mixRatios == old(mixRatios) && envelopes == old(envelopes)
    {
      filters := [];
    }

    /** Clearing the oscillators also drops their ratios and every filter; the envelopes stay. */
    method ClearOscillators()
      requires Valid()
      modifies this
      ensures Valid() && oscillators == [] && mixRatios == [] && filters == []
      ensures envelopes == old(envelopes)
    {
      oscillators := [];
      mixRatios := [];
      ClearFilters();
    }

    method ClearEnvelopes()
      requires Valid()
      modifies this
      ensures Valid() && envelopes == []
      ensures oscillators == old(oscillators) && mixRatios == old(mixRatios) && filters == old(filters)
    {
      envelopes := [];
    }

    /** The master volume is stored clamped to [0, 1]; no other cell changes. */
    method SetMasterVolume(volume: real, mem: Memory)
      modifies mem
      ensures 0.0 <= mem.store.Read(masterVolume) <= 1.0
      ensures 0.0 <= volume <= 1.0 ==> mem.store.Read(masterVolume) == volume
      ensures volume < 0.0 ==> mem.store.Read(masterVolume) == 0.0
      ensures 1.0 < volume ==> mem.store.Read(masterVolume) == 1.0
      ensures forall c :: c != masterVolume ==> mem.store.Read(c) == old(mem.store).Read(c)
      ensures old(mem.store).Valid() ==> mem.store.Valid()
    {
      mem.store := mem.store.Write(masterVolume, Clamp(volume, 0.0, 1.0));
    }

    /** Re-applies the setter to whatever a live parameter wrote into the master volume cell:
        the value is pulled back into [0, 1], and a value already there is left alone. */
    method UpdateMasterVolume(mem: Memory)
      modifies mem
      ensures mem.store.Read(masterVolume) == Clamp(old(mem.store).Read(masterVolume), 0.0, 1.0)
      ensures 0.0 <= old(mem.store).Read(masterVolume) <= 1.0 ==> mem.store.Read(masterVolume) == old(mem.store).Read(masterVolume)
      ensures forall c :: c != masterVolume ==> mem.store.Read(c) == old(mem.store).Read(c)
    {
      SetMasterVolume(mem.store.Read(masterVolume), mem);
    }

    function GetMasterVolume(st: Store): (v: real) {
      st.Read(masterVolume)
    }

    /** An index out of range is ignored; otherwise the ratio is clamped to [0, 1] and all
        ratios renormalised. */
    method SetOscillatorMixRatio(index: int, ratio: real)
      requires Valid()
      modifies this
      ensures Valid()
      ensures 0 <= index < |old(mixRatios)| ==> mixRatios == Normalized(old(mixRatios)[index := Clamp(ratio, 0.0, 1.0)])
      ensures !(0 <= index < |old(mixRatios)|) ==> mixRatios == old(mixRatios)
      ensures oscillators == old(oscillators) && filters == old(filters) && envelopes == old(envelopes)
    {
      if 0 <= index < |mixRatios| {
        mixRatios := mixRatios[index := Clamp(ratio, 0.0, 1.0)];
        NormalizeMixRatios();
        NormalizedIsNormalised(old(mixRatios)[index := Clamp(ratio, 0.0, 1.0)]);
      }
    }

    /** The ratio of an oscillator, or 0.0 for an index out of range; in [0, 1] either way. */
    function GetOscillatorMixRatio(index: int): (r: real)
      reads this, envelopes
      requires Valid()
      ensures 0.0 <= r <= 1.0
      ensures 0 <= index < |mixRatios| ==> r == mixRatios[index]
      ensures !(0 <= index < |mixRatios|) ==> r == 0.0
    {
      if 0 <= index < |mixRatios| then mixRatios[index] else 0.0
    }

    function GetOscillatorCount(): (n: nat)
      reads this, envelopes
      requires Valid()
      ensures n == |oscillators| == |mixRatios|
    {
      |oscillators|
    }

    /** The envelope at an index, or null out of range. */
    function GetEnvelope(idx: int): (e: Envelope?)
      reads this
      ensures 0 <= idx < |envelopes| ==> e == envelopes[idx]
      ensures !(0 <= idx < |envelopes|) ==> e == null
    {
      if 0 <= idx < |envelopes| then envelopes[idx] else null
    }

    /** Every envelope enters its attack stage. */
    method NoteOn(mem: Memory)
      requires Valid()
      modifies envelopes
      ensures Valid()
      ensures forall i :: 0 <= i < |envelopes| ==>
        envelopes[i].State() == Enter(old(envelopes[i].State()), Attack, envelopes[i].TimesIn(mem.store), envelopes[i].sampleRate)
    {
      var i := 0;
      while i < |envelopes|
        invariant 0 <= i <= |envelopes|
        invariant Valid()
        invariant forall k :: 0 <= k < i ==>
          envelopes[k].State() == Enter(old(envelopes[k].State()), Attack, envelopes[k].TimesIn(mem.store), envelopes[k].sampleRate)
        invariant forall k :: i <= k < |envelopes| ==> envelopes[k].State() == old(envelopes[k].State())
      {
        envelopes[i].NoteOn(mem);
        i := i + 1;
      }
    }

    /** Every envelope enters its release stage. */
    method NoteOff(mem: Memory)
      requires Valid()
      modifies envelopes
      ensures Valid()
      ensures forall i :: 0 <= i < |envelopes| ==>
        envelopes[i].State() == Enter(old(envelopes[i].State()), Release, envelopes[i].TimesIn(mem.store), envelopes[i].sampleRate)
    {
      var i := 0;
      while i < |envelopes|
        invariant 0 <= i <= |envelopes|
        invariant Valid()
        invariant forall k :: 0 <= k < i ==>
          envelopes[k].State() == Enter(old(envelopes[k].State()), Release, envelopes[k].TimesIn(mem.store), envelopes[k].sampleRate)
        invariant forall k :: i <= k < |envelopes| ==> envelopes[k].State() == old(envelopes[k].State())
      {
        envelopes[i].NoteOff(mem);
        i := i + 1;
      }
    }

    /** The first loop of nextSample: every oscillator steps once, in order, and the samples
        are summed with the ratios as weights. */
    method MixOscillators(mem: Memory, trig: TrigFunctions) returns (oscSum: real)
      requires |mixRatios| == |oscillators|
      modifies this, mem
      ensures mixRatios == old(mixRatios) && filters == old(filters) && envelopes == old(envelopes)
      ensures unchanged(filters) && unchanged(envelopes)
      ensures var t := StepAll(old(oscillators), old(mem.store), trig);
        oscSum == WeightedSum(t.samples, mixRatios) && oscillators == t.nodes && mem.store == t.store
    {
      var sum, nodes, st := MixAll(oscillators, mixRatios, mem.store, trig);
      oscSum := sum;
      oscillators := nodes;
      mem.store := st;
    }

    /** The second loop of nextSample: the sample runs through every filter in order. */
    method RunFilters(x: real) returns (y: real)
      requires Distinct(filters)
      modifies filters
      ensures var c := Chain(old(Views(filters)), x);
        y == c.out && Views(filters) == c.views
    {
      ghost var vs := Views(filters);
      ghost var done: seq<Biquad> := [];
      y := x;
      var j := 0;
      while j < |filters|
        invariant 0 <= j <= |filters| == |vs| && |done| == j
        invariant Chain(vs[..j], x) == Chained(y, done)
        invariant forall k :: 0 <= k < j ==> filters[k].View() == done[k]
        invariant forall k :: j <= k < |filters| ==> filters[k].View() == vs[k]
      {
        ChainSnoc(vs, j, x);
        ghost var p := Process(vs[j], y);
        var f := filters[j];
        assert forall k :: 0 <= k < |filters| && k != j ==> filters[k] != f;
        y := f.ProcessSample(y);
        done := done + [p.next];
        j := j + 1;
      }
      assert vs[..j] == vs;
    }

    /** The envelope stage of nextSample: the first envelope, if any, steps once and scales
        the sample by its new gain; every other envelope is left alone. */
    method ApplyEnvelope(x: real, mem: Memory) returns (y: real)
      requires Distinct(envelopes) && forall i :: 0 <= i < |envelopes| ==> envelopes[i].Valid()
      modifies if envelopes == [] then {} else {envelopes[0]}
      ensures unchanged(filters)
      ensures forall i :: 0 <= i < |envelopes| ==> envelopes[i].Valid()
      ensures envelopes == [] ==> y == x
      ensures envelopes != [] ==> (
        && EnvView(envelopes[0]) == old(EnvView(envelopes[0])).(state := Next(old(envelopes[0].State()), envelopes[0].TimesIn(mem.store), envelopes[0].sampleRate))
        && y == Scale(x, envelopes[0].State().value))
      ensures forall i :: 1 <= i < |envelopes| ==> envelopes[i].State() == old(envelopes[i].State())
    {
      y := x;
      if envelopes != [] {
        var env := envelopes[0].NextSample(mem);
        y := Scale(y, env);
        assert forall i :: 1 <= i < |envelopes| ==> envelopes[i] != envelopes[0];
      }
    }

    /** Everything nextSample does after the oscillators: the filter chain, the envelope and
        the master volume, as Finish describes them. */
    method FilterAndShape(x: real, mem: Memory) returns (y: real)
      requires Distinct(filters) && Distinct(envelopes)
      requires forall i :: 0 <= i < |envelopes| ==> envelopes[i].Valid()
      modifies filters, envelopes
      ensures unchanged(this)
      ensures forall i :: 0 <= i < |envelopes| ==> envelopes[i].Valid()
      ensures var c := Chain(old(Views(filters)), x);
        var f := Finish(c.out, old(if envelopes == [] then None else Some(EnvView(envelopes[0]))), mem.store, masterVolume);
        && y == f.sample && Views(filters) == c.views
        && f.envelope == (if envelopes == [] then None else Some(EnvView(envelopes[0])))
    {
      var filtered := RunFilters(x);
      ghost var views := Views(filters);
      ghost var before := if envelopes == [] then None else Some(EnvView(envelopes[0]));
      var shaped := ApplyEnvelope(filtered, mem);
      assert Views(filters) == views;
      ghost var after := if envelopes == [] then None else Some(EnvView(envelopes[0]));
      if envelopes != [] {
        assert TimesOf(before.value, mem.store) == envelopes[0].TimesIn(mem.store);
      }
      y := Scale(shaped, mem.store.Read(masterVolume));
      FinishSteps(filtered, before, after, mem.store, masterVolume, shaped);
    }

    /** Sound::nextSample: one step of SoundStep on the Sound's snapshot; the Sound stays valid. */
    method NextSample(mem: Memory, trig: TrigFunctions) returns (sample: real)
      requires Valid()
      modifies this, mem, filters, envelopes
      ensures Valid()
      ensures var o := SoundStep(old(Snapshot(mem.store)), masterVolume, trig);
        sample == o.sample && Snapshot(mem.store) == o.next
      ensures filters == old(filters) && envelopes == old(envelopes)
    {
      ghost var s0 := Snapshot(mem.store);
      var oscSum := MixOscillators(mem, trig);
      ghost var osc := StepAll(s0.oscillators, s0.store, trig);
      assert Views(filters) == s0.filters;
      assert (if envelopes == [] then None else Some(EnvView(envelopes[0]))) == s0.envelope;
      sample := FilterAndShape(oscSum, mem);
      assert mem.store == osc.store && oscillators == osc.nodes;
    }

    /** One step of generateSamples: the next sample is stored at buffer[i] and no other slot changes. */
    method EmitSample(buffer: array<real>, i: nat, mem: Memory, trig: TrigFunctions)
      requires Valid() && i < buffer.Length
      modifies this, mem, filters, envelopes, buffer
      ensures Valid() && filters == old(filters) && envelopes == old(envelopes)
      ensures var o := SoundStep(old(Snapshot(mem.store)), masterVolume, trig);
        buffer[i] == o.sample && Snapshot(mem.store) == o.next
      ensures forall k :: 0 <= k < buffer.Length && k != i ==> buffer[k] == old(buffer[k])
    {
      var x := NextSample(mem, trig);
      buffer[i] := x;
    }

    /** Sound::generateSamples: numSamples successive nextSample calls written into the buffer
        in order (none for a negative count); the rest of the buffer is untouched. */
    method GenerateSamples(buffer: array<real>, numSamples: int, mem: Memory, trig: TrigFunctions)
      requires Valid() && numSamples <= buffer.Length
      modifies this, mem, filters, envelopes, buffer
      ensures Valid() && filters == old(filters) && envelopes == old(envelopes)
      ensures var n := if numSamples < 0 then 0 else numSamples;
        var r := Render(old(Snapshot(mem.store)), masterVolume, trig, n);
        && (forall k :: 0 <= k < n ==> buffer[k] == r.samples[k])
        && (forall k :: n <= k < buffer.Length ==> buffer[k] == old(buffer[k]))
        && Snapshot(mem.store) == r.final
    {
      ghost var s0 := Snapshot(mem.store);
      ghost var cur := s0;
      ghost var out: seq<real> := [];
      ghost var n := if numSamples < 0 then 0 else numSamples;
      var i := 0;
      while i < numSamples
        invariant 0 <= i <= n && |out| == i
        invariant Valid() && filters == old(filters) && envelopes == old(envelopes)
        invariant |cur.ratios| == |cur.oscillators|
        invariant Render(s0, masterVolume, trig, i) == Rendered(out, cur)
        invariant Snapshot(mem.store) == cur
        invariant forall k :: 0 <= k < i ==> buffer[k] == out[k]
        invariant forall k :: i <= k < buffer.Length ==> buffer[k] == old(buffer[k])
      {
        RenderStep(s0, masterVolume, trig, i, out, cur);
        ghost var o := SoundStep(cur, masterVolume, trig);
        EmitSample(buffer, i, mem, trig);
        out := out + [o.sample];
        cur := o.next;
        i := i + 1;
      }
      assert i == n && Render(s0, masterVolume, trig, n) == Rendered(out, cur);
    }
  }
}
