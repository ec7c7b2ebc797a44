/** PresetManager: the built-in presets, each a name, a description and a setup that builds an
    oscillator graph into a Sound and registers its live parameters. Loading a valid index
    clears the Sound's oscillators (and with them its ratios and filters) and the registry, then
    runs the setup; the Sound's envelopes are not cleared. An index out of range does nothing. */
module Manager {
  import opened Common
  import opened Cells
  import opened Live
  import opened Oscillators
  import opened OscillatorRegistration
  import opened Filters
  import opened Envelopes
  import opened Mixing
  import opened Sounds

  /** Every built-in preset builds its nodes, filters and envelopes at 44.1 kHz. */
  const SampleRate: Rate := 44100.0

  /** The setup functions the manager knows. */
  datatype Setup = SimpleSine | SimpleSaw | BasicFM | NestedFM | TripleBandpassAdditive

  datatype Preset = Preset(name: string, description: string, setup: Setup)

  /** The presets the constructor registers, in order. */
  function BuiltInPresets(): seq<Preset> {
    [Preset("Simple Sine Wave", "Single sine oscillator with frequency and amplitude control", SimpleSine),
     Preset("Simple Saw Wave", "Single sawtooth oscillator with frequency and amplitude control", SimpleSaw),
     Preset("FM Synthesizer", "Basic FM synthesis with sine carrier and modulator", BasicFM),
     Preset("Nested FM", "Advanced nested FM synthesis for complex timbres", NestedFM),
     Preset("Triple Bandpass Additive", "Saw wave split into three bandpass filters, summed additively", TripleBandpassAdditive)]
  }

  function PresetNames(ps: seq<Preset>): (names: seq<string>)
    ensures |names| == |ps|
    ensures forall i :: 0 <= i < |ps| ==> names[i] == ps[i].name
  {
    if ps == [] then [] else PresetNames(ps[..|ps| - 1]) + [ps[|ps| - 1].name]
  }

  /** The registry names each setup leaves behind, in order. */
  function SetupNames(s: Setup): seq<string> {
    match s
    case SimpleSine => ["Sine Frequency", "Attack", "Decay", "Sustain", "Release", "Master Volume"]
    case SimpleSaw => ["Saw Frequency", "BandPass Target Freq", "BandPass Bandwidth", "Master Volume"]
    case BasicFM => ["FM Mod Depth", "FM Carrier Frequency", "FM Modulator Frequency", "Master Volume"]
    case NestedFM =>
      ["FM Mod Depth", "FM Carrier Frequency", "FM Modulator Mod Depth", "FM Modulator Carrier Frequency",
       "FM Modulator Modulator Frequency", "Master Volume"]
    case TripleBandpassAdditive =>
      ["Saw 1 Frequency", "Bandpass 1 Target Freq", "Bandpass 1 Bandwidth",
       "Saw 2 Frequency", "Bandpass 2 Target Freq", "Bandpass 2 Bandwidth",
       "Saw 3 Frequency", "Bandpass 3 Target Freq", "Bandpass 3 Bandwidth",
       "Additive Amplitude", "Master Volume"]
  }

  /** The master-volume entry every setup appends last: the registry range is [0, 100] although
      the Sound's setter keeps the volume in [0, 1]; the attached hook re-applies that setter. */
  function MasterVolumeEntry(cell: CellId): LiveParameter {
    LiveParameter("Master Volume", cell, 0.0, 100.0, 50.0, Some(Hook.UpdateMasterVolume))
  }

  /** A saw or sine registers just its frequency, under the prefix. */
  lemma LeafNames(n: Node, prefix: string, st: Store)
    requires n.Saw? || n.Sine?
    ensures Register(n, prefix, st) == Registered([Entry(prefix, "Frequency", n.core.frequency, 1.0, 2000.0, 20.0)], n, st)
    ensures Names(Register(n, prefix, st).entries) == [prefix + " Frequency"]
  {
    assert prefix + " " + "Frequency" == prefix + " Frequency";
  }

  /** An FM node whose carrier and modulator both exist registers its depth and then its two
      children, and neither the node nor the store changes. */
  lemma FMNames(n: Node, prefix: string, st: Store)
    requires n.FM? && n.carrier.Some? && n.modulator.Some?
    ensures var c := Register(n.carrier.value, prefix + " Carrier", st);
      var m := Register(n.modulator.value, prefix + " Modulator", c.store);
      Register(n, prefix, st) ==
        Registered([Entry(prefix, "Mod Depth", n.depth, 0.0, 1000.0, 20.0)] + c.entries + m.entries,
                   n.(carrier := Some(c.node), modulator := Some(m.node)), m.store)
  {
    var e := EnsureChildren(n, st);
    assert e.node == n && e.store == st;
  }

  /** The node the basic FM preset builds: a saw carrier at 440 Hz and a saw modulator at 880 Hz
      injected into a fresh FM node (which keeps its default depth of 100). */
  method NewBasicFMGraph(mem: Memory) returns (node: Node)
    requires mem.store.Valid()
    modifies mem
    ensures mem.store.Valid() && Grows(old(mem.store), mem.store)
    ensures node.FM? && node.carrier.Some? && node.modulator.Some?
    ensures node.carrier.value.Saw? && node.modulator.value.Saw?
    ensures node.carrierFreq == 440.0 && node.modulatorFreq == 880.0
    ensures mem.store.Read(node.carrier.value.core.frequency) == 440.0
    ensures mem.store.Read(node.modulator.value.core.frequency) == 880.0
    ensures mem.store.Read(node.depth) == 100.0
    ensures node.carrier.value.core.component && node.modulator.value.core.component
  {
    var fm := NewFM(SampleRate, mem.store);
    var c0 := NewSaw(SampleRate, fm.store);
    var c := SetFrequency(c0.node, 440.0, c0.store);
    var m0 := NewSaw(SampleRate, c.store);
    var m := SetFrequency(m0.node, 880.0, m0.store);
    var withCarrier := SetCarrierOscillator(fm.node, Some(c.node), m.store);
    var both := SetModulatorOscillator(withCarrier.node, Some(m.node), withCarrier.store);
    node := both.node;
    mem.store := both.store;
  }

  /** The inner FM node of the nested preset: a 220 Hz sine carrier and a 55 Hz sine modulator,
      depth 50. Injection re-tunes the children to the node's cached 440 Hz and 880 Hz. */
  method NewInnerFMGraph(mem: Memory) returns (node: Node)
    requires mem.store.Valid()
    modifies mem
    ensures mem.store.Valid() && Grows(old(mem.store), mem.store)
    ensures node.FM? && node.carrier.Some? && node.modulator.Some?
    ensures node.carrier.value.Sine? && node.modulator.value.Sine?
    ensures node.carrierFreq == 440.0 && node.modulatorFreq == 880.0
    ensures mem.store.Read(node.carrier.value.core.frequency) == 440.0
    ensures mem.store.Read(node.modulator.value.core.frequency) == 880.0
    ensures mem.store.Read(node.depth) == 50.0
    ensures node.carrier.value.core.frequency != node.modulator.value.core.frequency
    ensures node.depth !in old(mem.store.cells) && node.carrier.value.core.frequency !in old(mem.store.cells)
      && node.modulator.value.core.frequency !in old(mem.store.cells)
    ensures node.depth in mem.store.cells && node.carrier.value.core.frequency in mem.store.cells
      && node.modulator.value.core.frequency in mem.store.cells
  {
    var fm := NewFM(SampleRate, mem.store);
    var c0 := NewSine(SampleRate, fm.store);
    var c := SetFrequency(c0.node, 220.0, c0.store);
    var m0 := NewSine(SampleRate, c.store);
    var m := SetFrequency(m0.node, 55.0, m0.store);
    var withCarrier := SetCarrierOscillator(fm.node, Some(c.node), m.store);
    var both := SetModulatorOscillator(withCarrier.node, Some(m.node), withCarrier.store);
    node := both.node;
    mem.store := SetModulationDepth(both.node, 50.0, both.store);
  }

  /** Injecting an FM node whose carrier is a leaf re-tunes just that carrier: the node keeps its
      children, depth cell and base frequency cell, and only the carrier's cell is written. */
  lemma AdoptRetunesCarrier(child: Node, f: real, st: Store)
    requires child.FM? && child.carrier.Some? && !child.carrier.value.FM?
    ensures var a := Adopt(child, f, st);
      && a.store == st.Write(child.carrier.value.core.frequency, f)
      && a.node.FM? && a.node.carrier == child.carrier && a.node.modulator == child.modulator
      && a.node.depth == child.depth
  {
    var s := SetFrequency(child, f, st);
    assert s == SetCarrierFrequency(child, f, st);
    assert SetFrequency(child.carrier.value, f, st).node == child.carrier.value;
  }

  /** The outer node of the nested preset before its modulator arrives: a fresh FM node with a
      440 Hz sine carrier. */
  method NewSineCarrierFMGraph(mem: Memory) returns (node: Node)
    requires mem.store.Valid()
    modifies mem
    ensures mem.store.Valid() && Grows(old(mem.store), mem.store)
    ensures node.FM? && node.carrier.Some? && node.carrier.value.Sine?
    ensures node.modulatorFreq == 880.0
    ensures mem.store.Read(node.carrier.value.core.frequency) == 440.0
    ensures mem.store.Read(node.depth) == 100.0
    ensures node.depth in mem.store.cells && node.carrier.value.core.frequency in mem.store.cells
    ensures node.depth !in old(mem.store.cells)
  {
    var fm := NewFM(SampleRate, mem.store);
    var c0 := NewSine(SampleRate, fm.store);
    var c := SetFrequency(c0.node, 440.0, c0.store);
    var withCarrier := SetCarrierOscillator(fm.node, Some(c.node), c.store);
    node := withCarrier.node;
    mem.store := withCarrier.store;
  }

  /** The node the nested FM preset builds: a 440 Hz sine carrier and the inner FM node as
      modulator, depth 30. Injecting the inner node re-tunes its carrier to the outer node's
      cached 880 Hz, so both inner sines end at 880 Hz. */
  method NewNestedFMGraph(mem: Memory) returns (node: Node)
    requires mem.store.Valid()
    modifies mem
    ensures mem.store.Valid() && Grows(old(mem.store), mem.store)
    ensures node.FM? && node.carrier.Some? && node.modulator.Some?
    ensures node.carrier.value.Sine? && mem.store.Read(node.carrier.value.core.frequency) == 440.0
    ensures mem.store.Read(node.depth) == 30.0
    ensures var inner := node.modulator.value;
      && inner.FM? && inner.carrier.Some? && inner.modulator.Some?
      && inner.carrier.value.Sine? && inner.modulator.value.Sine?
      && mem.store.Read(inner.carrier.value.core.frequency) == 880.0
      && mem.store.Read(inner.modulator.value.core.frequency) == 880.0
      && mem.store.Read(inner.depth) == 50.0
  {
    var outer := NewSineCarrierFMGraph(mem);
    var inner := NewInnerFMGraph(mem);
    AdoptRetunesCarrier(inner, 880.0, mem.store);
    var both := SetModulatorOscillator(outer, Some(inner), mem.store);
    node := both.node;
    mem.store := SetModulationDepth(both.node, 30.0, both.store);
  }

  /** An FM node whose two children are saws or sines registers its depth and the two
      frequencies, in that order, and comes back unchanged. */
  lemma FMOfLeavesRegistration(n: Node, prefix: string, st: Store)
    requires n.FM? && n.carrier.Some? && n.modulator.Some?
    requires (n.carrier.value.Saw? || n.carrier.value.Sine?) && (n.modulator.value.Saw? || n.modulator.value.Sine?)
    ensures var r := Register(n, prefix, st);
      r.node == n && r.store == st
      && Names(r.entries) == [prefix + " Mod Depth", prefix + " Carrier Frequency", prefix + " Modulator Frequency"]
  {
    FMNames(n, prefix, st);
    LeafNames(n.carrier.value, prefix + " Carrier", st);
    LeafNames(n.modulator.value, prefix + " Modulator", st);
    FMSuffixes();
    Joined(prefix, " ", "Mod Depth", " Mod Depth");
    Joined(prefix, " Carrier", " Frequency", " Carrier Frequency");
    Joined(prefix, " Modulator", " Frequency", " Modulator Frequency");
    var c := Register(n.carrier.value, prefix + " Carrier", st);
    var m := Register(n.modulator.value, prefix + " Modulator", c.store);
    var d := Entry(prefix, "Mod Depth", n.depth, 0.0, 1000.0, 20.0);
    assert Names([d]) == [d.name];
    NamesAppend([d], c.entries);
    NamesAppend([d] + c.entries, m.entries);
  }

  lemma FMSuffixes()
    ensures " " + "Mod Depth" == " Mod Depth"
    ensures " Carrier" + " Frequency" == " Carrier Frequency"
    ensures " Modulator" + " Frequency" == " Modulator Frequency"
  {
  }

  /** Concatenating a name onto a prefix in two steps or in one gives the same string. */
  lemma Joined(prefix: string, a: string, b: string, ab: string)
    requires ab == a + b
    ensures prefix + a + b == prefix + ab
  {
    assert forall i :: 0 <= i < |prefix + a + b| ==> (prefix + a + b)[i] == (prefix + (a + b))[i];
  }

  /** How the FM registration names are spelled. */
  lemma FMSpelling()
    ensures "FM" + " Mod Depth" == "FM Mod Depth"
    ensures "FM" + " Carrier Frequency" == "FM Carrier Frequency"
    ensures "FM" + " Modulator Frequency" == "FM Modulator Frequency"
  {
  }

  lemma FMPrefixSpelling()
    ensures "FM" + " Modulator" == "FM Modulator"
    ensures "FM" + " Carrier" == "FM Carrier"
    ensures "FM" + " " + "Mod Depth" == "FM Mod Depth"
    ensures "FM Carrier" + " Frequency" == "FM Carrier Frequency"
  {
  }

  lemma NestedSpelling()
    ensures "FM Modulator" + " Mod Depth" == "FM Modulator Mod Depth"
    ensures "FM Modulator" + " Carrier Frequency" == "FM Modulator Carrier Frequency"
    ensures "FM Modulator" + " Modulator Frequency" == "FM Modulator Modulator Frequency"
  {
  }

  /** The registration of the basic FM node: three entries under "FM", node and store unchanged. */
  lemma BasicFMRegistration(n: Node, st: Store)
    requires n.FM? && n.carrier.Some? && n.modulator.Some?
    requires n.carrier.value.Saw? && n.modulator.value.Saw?
    ensures var r := RegisterParameters(n, st);
      r.node == n && r.store == st
      && Names(r.entries) == ["FM Mod Depth", "FM Carrier Frequency", "FM Modulator Frequency"]
  {
    FMOfLeavesRegistration(n, "FM", st);
    FMSpelling();
  }

  /** The registration of the nested FM node: the outer depth and carrier, then the inner node's
      three entries under "FM Modulator"; node and store unchanged. */
  lemma NestedFMRegistration(n: Node, st: Store)
    requires n.FM? && n.carrier.Some? && n.modulator.Some? && n.carrier.value.Sine?
    requires var inner := n.modulator.value;
      inner.FM? && inner.carrier.Some? && inner.modulator.Some? && inner.carrier.value.Sine? && inner.modulator.value.Sine?
    ensures var r := RegisterParameters(n, st);
      r.node == n && r.store == st
      && Names(r.entries) == ["FM Mod Depth", "FM Carrier Frequency", "FM Modulator Mod Depth",
                              "FM Modulator Carrier Frequency", "FM Modulator Modulator Frequency"]
  {
    FMPrefixSpelling();
    NestedSpelling();
    var r := RegisterParameters(n, st);
    assert r == Register(n, "FM", st);
    FMNames(n, "FM", st);
    LeafNames(n.carrier.value, "FM Carrier", st);
    var c := Register(n.carrier.value, "FM Carrier", st);
    assert c.store == st && c.node == n.carrier.value;
    FMOfLeavesRegistration(n.modulator.value, "FM Modulator", st);
    var m := Register(n.modulator.value, "FM Modulator", st);
    var depth := Entry("FM", "Mod Depth", n.depth, 0.0, 1000.0, 20.0);
    assert r.entries == [depth] + c.entries + m.entries;
    assert Names([depth]) == ["FM Mod Depth"];
    assert Names(c.entries) == ["FM Carrier Frequency"];
    NamesAppend([depth], c.entries);
    NamesAppend([depth] + c.entries, m.entries);
  }

  /** FilteredOsc overrides both registration methods with empty bodies: a list of filtered
      saws registers nothing and comes back unchanged. */
  lemma {:induction false} FilteredChildrenRegisterNothing(cs: seq<Node>, prefix: string, st: Store)
    requires forall k :: 0 <= k < |cs| ==> cs[k].Filtered?
    ensures RegisterChildren(cs, prefix, st) == RegisteredAll([], cs, st)
  {
    if cs != [] {
      var k := |cs| - 1;
      FilteredChildrenRegisterNothing(cs[..k], prefix, st);
      assert cs[..k] + [cs[k]] == cs;
    }
  }

  /** Appends the master-volume entry and attaches the master-volume hook to it. */
  method AddMasterVolume(sound: Sound, controller: LiveController)
    modifies controller
    ensures controller.parameters == old(controller.parameters) + [MasterVolumeEntry(sound.masterVolume)]
  {
    controller.AddParameter("Master Volume", sound.masterVolume, 0.0, 100.0, 50.0);
    controller.AttachHook(controller.ParameterCount() - 1, Hook.UpdateMasterVolume);
  }

  /** The four envelope entries of the simple sine preset, each aliasing one of the envelope's
      time cells (sustain in percent, the times in milliseconds as the labels go). */
  function EnvelopeEntries(e: Envelope): seq<LiveParameter> {
    [LiveParameter("Attack", e.attack, 0.0, 2000.0, 10.0, None),
     LiveParameter("Decay", e.decay, 0.0, 2000.0, 100.0, None),
     LiveParameter("Sustain", e.sustain, 0.0, 100.0, 70.0, None),
     LiveParameter("Release", e.release, 0.0, 2000.0, 200.0, None)]
  }

  lemma SimpleSineNames(prior: seq<LiveParameter>, sine: LiveParameter, e: Envelope, mv: LiveParameter)
    requires sine.name == "Sine" + " " + "Frequency" && mv.name == "Master Volume"
    ensures Names(prior + [sine] + EnvelopeEntries(e) + [mv]) == Names(prior) + SetupNames(SimpleSine)
  {
    assert "Sine" + " " + "Frequency" == "Sine Frequency";
    var tail := [sine] + EnvelopeEntries(e) + [mv];
    assert prior + [sine] + EnvelopeEntries(e) + [mv] == prior + tail;
    NamesAppend(prior, tail);
    assert Names(tail) == SetupNames(SimpleSine);
  }

  /** The sine of the simple sine preset: a new sine set to 440 Hz and registered under "Sine". */
  method NewSineVoice(controller: LiveController, mem: Memory) returns (sine: Node)
    requires mem.store.Valid()
    modifies controller, mem
    ensures mem.store.Valid() && Grows(old(mem.store), mem.store)
    ensures sine.Sine? && sine.core.amplitude == 1.0
    ensures mem.store.Read(sine.core.frequency) == 440.0 && sine.core.frequency in mem.store.cells
    ensures controller.parameters == old(controller.parameters) + [Entry("Sine", "Frequency", sine.core.frequency, 1.0, 2000.0, 20.0)]
  {
    var s0 := NewSine(SampleRate, mem.store);
    var s := SetFrequency(s0.node, 440.0, s0.store);
    mem.store := s.store;
    LeafNames(s.node, "Sine", mem.store);
    sine := RegisterParametersWithController(s.node, controller, mem);
  }

  /** The envelope of the simple sine preset: setADSR(10, 100, 70, 200), whose sustain the [0, 1]
      clamp stores as 1.0, and its four registry entries. Cells already in use keep their
      values. */
  method NewSineEnvelope(controller: LiveController, mem: Memory) returns (e: Envelope)
    requires mem.store.Valid()
    modifies controller, mem
    ensures fresh(e) && e.Valid() && e.State() == EnvState(Idle, 0.0, 0, 0)
    ensures e.TimesIn(mem.store) == Times(10.0, 100.0, 1.0, 200.0)
    ensures mem.store.Valid()
    ensures forall c :: c in old(mem.store.cells) ==> mem.store.Read(c) == old(mem.store).Read(c)
    ensures controller.parameters == old(controller.parameters) + EnvelopeEntries(e)
  {
    e := new Envelope(SampleRate, mem);
    e.SetADSR(10.0, 100.0, 70.0, 200.0, mem);
    controller.AddParameter("Attack", e.attack, 0.0, 2000.0, 10.0);
    controller.AddParameter("Decay", e.decay, 0.0, 2000.0, 100.0);
    controller.AddParameter("Sustain", e.sustain, 0.0, 100.0, 70.0);
    controller.AddParameter("Release", e.release, 0.0, 2000.0, 200.0);
  }

  /** setupSimpleSine: a 440 Hz sine and an envelope set to (10, 100, 70, 200), whose sustain the
      [0, 1] clamp turns into 1.0; the four envelope entries alias that envelope's cells. */
  method SetupSimpleSine(sound: Sound, controller: LiveController, mem: Memory)
    requires sound.Valid() && mem.store.Valid()
    modifies sound, controller, mem
    ensures sound.Valid() && mem.store.Valid()
    ensures Names(controller.parameters) == Names(old(controller.parameters)) + SetupNames(SimpleSine)
    ensures controller.parameters[|controller.parameters| - 1] == MasterVolumeEntry(sound.masterVolume)
    ensures |sound.oscillators| == |old(sound.oscillators)| + 1
    ensures sound.oscillators[..|old(sound.oscillators)|] == old(sound.oscillators)
    ensures sound.mixRatios == Normalized(old(sound.mixRatios) + [1.0]) && sound.filters == old(sound.filters)
    ensures var n := sound.oscillators[|old(sound.oscillators)|];
      n.Sine? && mem.store.Read(n.core.frequency) == 440.0 && n.core.amplitude == 1.0
    ensures |sound.envelopes| == |old(sound.envelopes)| + 1
    ensures sound.envelopes[..|old(sound.envelopes)|] == old(sound.envelopes)
    ensures var e := sound.envelopes[|old(sound.envelopes)|];
      && fresh(e) && e.State() == EnvState(Idle, 0.0, 0, 0)
      && e.TimesIn(mem.store) == Times(10.0, 100.0, 1.0, 200.0)
      && controller.parameters[|old(controller.parameters)| + 1..|old(controller.parameters)| + 5] == EnvelopeEntries(e)
  {
    var sine := NewSineVoice(controller, mem);
    ghost var withSine := controller.parameters;
    var envelope := NewSineEnvelope(controller, mem);
    ghost var st := mem.store;
    ghost var withEnvelope := controller.parameters;
    assert st.Read(sine.core.frequency) == 440.0;
    sound.AddOscillator(sine);
    sound.AddEnvelope(envelope);
    AddMasterVolume(sound, controller);
    assert mem.store == st;
    assert controller.parameters == withEnvelope + [MasterVolumeEntry(sound.masterVolume)];
    assert controller.parameters[|old(controller.parameters)| + 1..|old(controller.parameters)| + 5] == EnvelopeEntries(envelope);
    SimpleSineNames(old(controller.parameters), withSine[|withSine| - 1], envelope, MasterVolumeEntry(sound.masterVolume));
  }

  /** A saw set to 440 Hz and registered under the prefix (registerParameters is the same under
      the type name "Saw"). */
  method NewSawVoice(prefix: string, controller: LiveController, mem: Memory) returns (saw: Node)
    requires mem.store.Valid()
    modifies controller, mem
    ensures mem.store.Valid() && Grows(old(mem.store), mem.store)
    ensures saw.Saw? && saw.core.amplitude == 1.0
    ensures mem.store.Read(saw.core.frequency) == 440.0 && saw.core.frequency in mem.store.cells
    ensures controller.parameters == old(controller.parameters) + [Entry(prefix, "Frequency", saw.core.frequency, 1.0, 2000.0, 20.0)]
  {
    var s0 := NewSaw(SampleRate, mem.store);
    var s := SetFrequency(s0.node, 440.0, s0.store);
    mem.store := s.store;
    LeafNames(s.node, prefix, mem.store);
    saw := RegisterParametersWithPrefix(s.node, prefix, controller, mem);
  }

  /** A band-pass filter given a target and a bandwidth and registered under the prefix. The
      setters clamp: the coefficients and cells hold the clamped values, the delay line is
      empty, and cells already in use keep their values. */
  method NewBandPass(target: real, bandwidth: real, prefix: string, controller: LiveController, mem: Memory, trig: Trig)
    returns (f: Filter)
    requires mem.store.Valid()
    modifies controller, mem
    ensures fresh(f) && f.kind.BandPass? && f.sampleRate == SampleRate
    ensures var t := Clamp(target, 1.0, SampleRate * 0.45);
      var b := Clamp(bandwidth, 1.0, SampleRate * 0.4);
      && mem.store.Read(f.kind.targetFrequency) == t && mem.store.Read(f.kind.bandwidth) == b
      && f.View() == Biquad(BandPassCoefficients(t, b, SampleRate, trig), ZeroHistory())
    ensures mem.store.Valid()
    ensures forall c :: c in old(mem.store.cells) ==> c in mem.store.cells && mem.store.Read(c) == old(mem.store).Read(c)
    ensures controller.parameters == old(controller.parameters) + FilterEntries(f.kind, prefix)
  {
    f := new Filter.BandPassFilter(SampleRate, mem, trig);
    f.SetTargetFrequency(target, mem, trig);
    f.SetBandwidth(bandwidth, mem, trig);
    f.RegisterParametersWithPrefix(controller, prefix);
  }

  lemma SimpleSawNames(prior: seq<LiveParameter>, saw: LiveParameter, kind: FilterKind, mv: LiveParameter)
    requires kind.BandPass? && saw.name == "Saw" + " " + "Frequency" && mv.name == "Master Volume"
    ensures Names(prior + [saw] + FilterEntries(kind, "BandPass") + [mv]) == Names(prior) + SetupNames(SimpleSaw)
  {
    assert "Saw" + " " + "Frequency" == "Saw Frequency";
    assert "BandPass" + " Target Freq" == "BandPass Target Freq";
    assert "BandPass" + " Bandwidth" == "BandPass Bandwidth";
    var tail := [saw] + FilterEntries(kind, "BandPass") + [mv];
    assert prior + [saw] + FilterEntries(kind, "BandPass") + [mv] == prior + tail;
    NamesAppend(prior, tail);
    NamesAppend([saw], FilterEntries(kind, "BandPass"));
    NamesAppend([saw] + FilterEntries(kind, "BandPass"), [mv]);
  }

  /** setupSimpleSaw: a 440 Hz saw followed by a band-pass filter at 1000 Hz, 300 Hz wide. */
  method SetupSimpleSaw(sound: Sound, controller: LiveController, mem: Memory, trig: Trig)
    requires sound.Valid() && mem.store.Valid()
    modifies sound, controller, mem
    ensures sound.Valid() && mem.store.Valid()
    ensures Names(controller.parameters) == Names(old(controller.parameters)) + SetupNames(SimpleSaw)
    ensures controller.parameters[|controller.parameters| - 1] == MasterVolumeEntry(sound.masterVolume)
    ensures |sound.oscillators| == |old(sound.oscillators)| + 1
    ensures sound.oscillators[..|old(sound.oscillators)|] == old(sound.oscillators)
    ensures sound.mixRatios == Normalized(old(sound.mixRatios) + [1.0]) && sound.envelopes == old(sound.envelopes)
    ensures var n := sound.oscillators[|old(sound.oscillators)|];
      n.Saw? && mem.store.Read(n.core.frequency) == 440.0 && n.core.amplitude == 1.0
    ensures |sound.filters| == |old(sound.filters)| + 1
    ensures sound.filters[..|old(sound.filters)|] == old(sound.filters)
    ensures var f := sound.filters[|old(sound.filters)|];
      && fresh(f) && f.kind.BandPass?
      && f.View() == Biquad(BandPassCoefficients(1000.0, 300.0, SampleRate, trig), ZeroHistory())
  {
    var saw := NewSawVoice("Saw", controller, mem);
    ghost var withSaw := controller.parameters;
    var bandpass := NewBandPass(1000.0, 300.0, "BandPass", controller, mem, trig);
    sound.AddOscillator(saw);
    sound.AddFilter(bandpass);
    AddMasterVolume(sound, controller);
    assert sound.oscillators[..|old(sound.oscillators)|] == old(sound.oscillators);
    assert sound.filters[..|old(sound.filters)|] == old(sound.filters);
    SimpleSawNames(old(controller.parameters), withSaw[|withSaw| - 1], bandpass.kind, MasterVolumeEntry(sound.masterVolume));
  }

  /** The basic FM node built and registered: its three entries are named under "FM". */
  method NewBasicFMVoice(controller: LiveController, mem: Memory) returns (fm: Node)
    requires mem.store.Valid()
    modifies controller, mem
    ensures mem.store.Valid()
    ensures Names(controller.parameters) == Names(old(controller.parameters)) + ["FM Mod Depth", "FM Carrier Frequency", "FM Modulator Frequency"]
    ensures fm.FM? && fm.carrier.Some? && fm.modulator.Some?
    ensures fm.carrier.value.Saw? && fm.modulator.value.Saw?
    ensures mem.store.Read(fm.carrier.value.core.frequency) == 440.0
    ensures mem.store.Read(fm.modulator.value.core.frequency) == 880.0
    ensures mem.store.Read(fm.depth) == 100.0
  {
    var node := NewBasicFMGraph(mem);
    ghost var st := mem.store;
    BasicFMRegistration(node, st);
    ghost var entries := RegisterParameters(node, st).entries;
    fm := RegisterParametersWithController(node, controller, mem);
    NamesAppend(old(controller.parameters), entries);
  }

  /** The five entries of the nested FM voice, in registration order. */
  const NestedFMVoiceNames: seq<string> :=
    ["FM Mod Depth", "FM Carrier Frequency", "FM Modulator Mod Depth", "FM Modulator Carrier Frequency",
     "FM Modulator Modulator Frequency"]

  /** The nested FM node built and registered: its five entries are named under "FM". */
  method NewNestedFMVoice(controller: LiveController, mem: Memory) returns (fm: Node)
    requires mem.store.Valid()
    modifies controller, mem
    ensures mem.store.Valid()
    ensures Names(controller.parameters) == Names(old(controller.parameters)) + NestedFMVoiceNames
    ensures fm.FM? && fm.carrier.Some? && fm.modulator.Some? && fm.carrier.value.Sine?
    ensures mem.store.Read(fm.carrier.value.core.frequency) == 440.0 && mem.store.Read(fm.depth) == 30.0
    ensures var inner := fm.modulator.value;
      && inner.FM? && inner.carrier.Some? && inner.modulator.Some?
      && mem.store.Read(inner.carrier.value.core.frequency) == 880.0
      && mem.store.Read(inner.modulator.value.core.frequency) == 880.0
      && mem.store.Read(inner.depth) == 50.0
  {
    var node := NewNestedFMGraph(mem);
    fm := RegisterNestedFM(node, controller, mem);
  }

  /** Registering the nested FM node adds its five names and leaves the node and the cells as
      they were. */
  method RegisterNestedFM(n: Node, controller: LiveController, mem: Memory) returns (fm: Node)
    requires n.FM? && n.carrier.Some? && n.modulator.Some? && n.carrier.value.Sine?
    requires var inner := n.modulator.value;
      inner.FM? && inner.carrier.Some? && inner.modulator.Some? && inner.carrier.value.Sine? && inner.modulator.value.Sine?
    modifies controller, mem
    ensures fm == n && mem.store == old(mem.store)
    ensures Names(controller.parameters) == Names(old(controller.parameters)) + NestedFMVoiceNames
  {
    NestedFMRegistration(n, mem.store);
    ghost var entries := RegisterParameters(n, mem.store).entries;
    fm := RegisterParametersWithController(n, controller, mem);
    NamesAppend(old(controller.parameters), entries);
  }

  /** The last step of every setup: the oscillator goes into the Sound and the master-volume
      entry closes the registry; the names are the voice's names followed by "Master Volume". */
  method AddVoiceAndVolume(n: Node, sound: Sound, controller: LiveController)
    requires sound.Valid()
    modifies sound, controller
    ensures sound.Valid()
    ensures Names(controller.parameters) == Names(old(controller.parameters)) + ["Master Volume"]
    ensures controller.parameters[|controller.parameters| - 1] == MasterVolumeEntry(sound.masterVolume)
    ensures sound.oscillators == old(sound.oscillators) + [n]
    ensures sound.mixRatios == Normalized(old(sound.mixRatios) + [1.0])
    ensures sound.filters == old(sound.filters) && sound.envelopes == old(sound.envelopes)
  {
    sound.AddOscillator(n);
    AddMasterVolume(sound, controller);
    NamesAppend(old(controller.parameters), [MasterVolumeEntry(sound.masterVolume)]);
  }

  /** setupBasicFM: the basic FM node (saw carrier at 440 Hz, saw modulator at 880 Hz, depth 100),
      registered under "FM". */
  method SetupBasicFM(sound: Sound, controller: LiveController, mem: Memory)
    requires sound.Valid() && mem.store.Valid()
    modifies sound, controller, mem
    ensures sound.Valid() && mem.store.Valid()
    ensures Names(controller.parameters) == Names(old(controller.parameters)) + SetupNames(BasicFM)
    ensures controller.parameters[|controller.parameters| - 1] == MasterVolumeEntry(sound.masterVolume)
    ensures |sound.oscillators| == |old(sound.oscillators)| + 1
    ensures sound.oscillators[..|old(sound.oscillators)|] == old(sound.oscillators)
    ensures sound.mixRatios == Normalized(old(sound.mixRatios) + [1.0])
    ensures sound.filters == old(sound.filters) && sound.envelopes == old(sound.envelopes)
    ensures var n := sound.oscillators[|old(sound.oscillators)|];
      && n.FM? && n.carrier.Some? && n.modulator.Some?
      && n.carrier.value.Saw? && n.modulator.value.Saw?
      && mem.store.Read(n.carrier.value.core.frequency) == 440.0
      && mem.store.Read(n.modulator.value.core.frequency) == 880.0
      && mem.store.Read(n.depth) == 100.0
  {
    var fm := NewBasicFMVoice(controller, mem);
    AddVoiceAndVolume(fm, sound, controller);
    assert sound.oscillators[..|old(sound.oscillators)|] == old(sound.oscillators);
  }

  /** setupNestedFM: a 440 Hz sine carrier modulated by an inner FM node (both of whose sines end
      at 880 Hz, depth 50), outer depth 30, registered under "FM". */
  method SetupNestedFM(sound: Sound, controller: LiveController, mem: Memory)
    requires sound.Valid() && mem.store.Valid()
    modifies sound, controller, mem
    ensures sound.Valid() && mem.store.Valid()
    ensures Names(controller.parameters) == Names(old(controller.parameters)) + SetupNames(NestedFM)
    ensures controller.parameters[|controller.parameters| - 1] == MasterVolumeEntry(sound.masterVolume)
    ensures |sound.oscillators| == |old(sound.oscillators)| + 1
    ensures sound.oscillators[..|old(sound.oscillators)|] == old(sound.oscillators)
    ensures sound.mixRatios == Normalized(old(sound.mixRatios) + [1.0])
    ensures sound.filters == old(sound.filters) && sound.envelopes == old(sound.envelopes)
    ensures var n := sound.oscillators[|old(sound.oscillators)|];
      && n.FM? && n.carrier.Some? && n.modulator.Some? && n.carrier.value.Sine?
      && mem.store.Read(n.carrier.value.core.frequency) == 440.0 && mem.store.Read(n.depth) == 30.0
      && var inner := n.modulator.value;
      && inner.FM? && inner.carrier.Some? && inner.modulator.Some?
      && mem.store.Read(inner.carrier.value.core.frequency) == 880.0
      && mem.store.Read(inner.modulator.value.core.frequency) == 880.0
      && mem.store.Read(inner.depth) == 50.0
  {
    var fm := NewNestedFMVoice(controller, mem);
    AddVoiceAndVolume(fm, sound, controller);
    assert sound.oscillators[..|old(sound.oscillators)|] == old(sound.oscillators);
  }

  /** The three bands of the triple band-pass preset: center frequencies and bandwidths. */
  const Centers: seq<real> := [600.0, 1200.0, 2400.0]
  const Bandwidths: seq<real> := [200.0, 300.0, 400.0]

  /** The registry names of band k (0-based): the saw and the filter, numbered from 1. */
  function BandNames(k: nat): seq<string> {
    var number := NatToString(k + 1);
    ["Saw " + number + " Frequency", "Bandpass " + number + " Target Freq", "Bandpass " + number + " Bandwidth"]
  }

  /** The names of the first i bands, in order. */
  function BandsNames(i: nat): seq<string> {
    if i == 0 then [] else BandsNames(i - 1) + BandNames(i - 1)
  }

  /** Band k as it sits in the additive node: a filtered saw whose band-pass filter has band k's
      center and bandwidth and an empty delay line, at amplitude 1 and marked as a component. */
  ghost predicate Band(c: Node, k: nat, trig: Trig)
    requires k < 3
  {
    && c.Filtered? && c.saw.Saw? && c.core.amplitude == 1.0 && c.core.component
    && c.filter == Biquad(BandPassCoefficients(Centers[k], Bandwidths[k], SampleRate, trig), ZeroHistory())
  }

  lemma BandLabelSpelling(prior: seq<LiveParameter>, saw: LiveParameter, kind: FilterKind, number: string)
    requires kind.BandPass? && saw.name == "Saw " + number + " " + "Frequency"
    ensures Names(prior + [saw] + FilterEntries(kind, "Bandpass " + number)) ==
      Names(prior) + ["Saw " + number + " Frequency", "Bandpass " + number + " Target Freq", "Bandpass " + number + " Bandwidth"]
  {
    assert "Saw " + number + " " + "Frequency" == "Saw " + number + " Frequency";
    var tail := [saw] + FilterEntries(kind, "Bandpass " + number);
    assert prior + [saw] + FilterEntries(kind, "Bandpass " + number) == prior + tail;
    NamesAppend(prior, tail);
    NamesAppend([saw], FilterEntries(kind, "Bandpass " + number));
  }

  /** One pass of the setupTripleBandpassAdditive loop: band i's saw and filter are created and
      registered, wrapped together, and appended to the additive node. */
  method AddBand(i: nat, additive: Node, controller: LiveController, mem: Memory, trig: Trig) returns (r: Node)
    requires i < 3 && additive.Additive? && mem.store.Valid()
    modifies controller, mem
    ensures mem.store.Valid()
    ensures forall c :: c in old(mem.store.cells) ==> c in mem.store.cells && mem.store.Read(c) == old(mem.store).Read(c)
    ensures Names(controller.parameters) == Names(old(controller.parameters)) + BandNames(i)
    ensures r.Additive? && |r.children| == |additive.children| + 1 && r == additive.(children := r.children)
    ensures r.children[..|additive.children|] == additive.children
    ensures Band(r.children[|additive.children|], i, trig)
  {
    var number := NatToString(i + 1);
    var saw := NewSawVoice("Saw " + number, controller, mem);
    ghost var withSaw := controller.parameters;
    var filter := NewBandPass(Centers[i], Bandwidths[i], "Bandpass " + number, controller, mem, trig);
    BandLabelSpelling(old(controller.parameters), withSaw[|withSaw| - 1], filter.kind, number);
    var f := NewFiltered(saw, filter.View(), SampleRate, mem.store);
    mem.store := f.store;
    r := AddOscillator(additive, Some(f.node));
    assert r.children[..|additive.children|] == additive.children;
  }

  /** Appending two name lists one after the other or at once gives the same registry. */
  lemma Regrouped(a: seq<string>, b: seq<string>, c: seq<string>)
    ensures a + b + c == a + (b + c)
  {
  }

  /** The loop of setupTripleBandpassAdditive: three bands appended to the additive node. */
  method AddBands(additive: Node, controller: LiveController, mem: Memory, trig: Trig) returns (r: Node)
    requires additive.Additive? && additive.children == [] && mem.store.Valid()
    modifies controller, mem
    ensures mem.store.Valid()
    ensures forall c :: c in old(mem.store.cells) ==> c in mem.store.cells && mem.store.Read(c) == old(mem.store).Read(c)
    ensures Names(controller.parameters) == Names(old(controller.parameters)) + BandsNames(3)
    ensures r.Additive? && r == additive.(children := r.children) && |r.children| == 3
    ensures forall k :: 0 <= k < 3 ==> Band(r.children[k], k, trig)
  {
    r := additive;
    var i := 0;
    while i < 3
      invariant 0 <= i <= 3 && mem.store.Valid()
      invariant forall c :: c in old(mem.store.cells) ==> c in mem.store.cells && mem.store.Read(c) == old(mem.store).Read(c)
      invariant Names(controller.parameters) == Names(old(controller.parameters)) + BandsNames(i)
      invariant r.Additive? && r == additive.(children := r.children) && |r.children| == i
      invariant forall k :: 0 <= k < i ==> Band(r.children[k], k, trig)
    {
      ghost var prev := r.children;
      ghost var before := Names(controller.parameters);
      ghost var store := mem.store;
      r := AddBand(i, r, controller, mem, trig);
      assert Names(controller.parameters) == before + BandNames(i);
      assert BandsNames(i + 1) == BandsNames(i) + BandNames(i);
      Regrouped(Names(old(controller.parameters)), BandsNames(i), BandNames(i));
      forall k | 0 <= k < i + 1
        ensures Band(r.children[k], k, trig)
      {
        if k < i {
          assert r.children[k] == prev[k];
        }
      }
      assert forall c :: c in store.cells ==> c in mem.store.cells && mem.store.Read(c) == store.Read(c);
      i := i + 1;
    }
  }

  lemma BandOneSpelling()
    ensures BandNames(0) == ["Saw 1 Frequency", "Bandpass 1 Target Freq", "Bandpass 1 Bandwidth"]
  {
    assert Digit(1) == '1';
    assert NatToString(1) == "1";
    assert "Saw " + "1" + " Frequency" == "Saw 1 Frequency";
    assert "Bandpass " + "1" + " Target Freq" == "Bandpass 1 Target Freq";
    assert "Bandpass " + "1" + " Bandwidth" == "Bandpass 1 Bandwidth";
  }

  lemma BandTwoSpelling()
    ensures BandNames(1) == ["Saw 2 Frequency", "Bandpass 2 Target Freq", "Bandpass 2 Bandwidth"]
  {
    assert Digit(2) == '2';
    assert NatToString(2) == "2";
    assert "Saw " + "2" + " Frequency" == "Saw 2 Frequency";
    assert "Bandpass " + "2" + " Target Freq" == "Bandpass 2 Target Freq";
    assert "Bandpass " + "2" + " Bandwidth" == "Bandpass 2 Bandwidth";
  }

  lemma BandThreeSpelling()
    ensures BandNames(2) == ["Saw 3 Frequency", "Bandpass 3 Target Freq", "Bandpass 3 Bandwidth"]
  {
    assert Digit(3) == '3';
    assert NatToString(3) == "3";
    assert "Saw " + "3" + " Frequency" == "Saw 3 Frequency";
    assert "Bandpass " + "3" + " Target Freq" == "Bandpass 3 Target Freq";
    assert "Bandpass " + "3" + " Bandwidth" == "Bandpass 3 Bandwidth";
  }

  lemma TripleNames()
    ensures BandsNames(3) + ["Additive" + " " + "Amplitude", "Master Volume"] == SetupNames(TripleBandpassAdditive)
  {
    BandOneSpelling();
    BandTwoSpelling();
    BandThreeSpelling();
    assert "Additive" + " " + "Amplitude" == "Additive Amplitude";
    assert BandsNames(3) == BandNames(0) + BandNames(1) + BandNames(2);
  }

  /** An additive node whose children are all filtered registers only its output amplitude,
      under "Additive", and comes back unchanged. */
  lemma AdditiveOfFilteredRegistration(n: Node, st: Store)
    requires n.Additive? && forall k :: 0 <= k < |n.children| ==> n.children[k].Filtered?
    ensures RegisterParameters(n, st) ==
      Registered([Entry("Additive", "Amplitude", n.outputAmplitude, 0.0, 1.0, 1.0)], n, st)
  {
    FilteredChildrenRegisterNothing(n.children, "Additive", st);
    assert TypeName(n) == "Additive";
    assert Register(n, "Additive", st) == RegisterAdditive(n, "Additive", st);
    assert n.(children := n.children) == n;
  }

  /** The additive node of the triple band-pass preset built and registered: its only entry is
      its output amplitude, since the filtered saws register nothing. */
  method NewTripleBandVoice(controller: LiveController, mem: Memory, trig: Trig) returns (n: Node)
    requires mem.store.Valid()
    modifies controller, mem
    ensures mem.store.Valid()
    ensures Names(controller.parameters) == Names(old(controller.parameters)) + BandsNames(3) + ["Additive" + " " + "Amplitude"]
    ensures n.Additive? && |n.children| == 3 && mem.store.Read(n.outputAmplitude) == 1.0
    ensures forall k :: 0 <= k < 3 ==> Band(n.children[k], k, trig)
  {
    var a := NewAdditive(SampleRate, mem.store);
    mem.store := a.store;
    var additive := AddBands(a.node, controller, mem, trig);
    ghost var withBands := controller.parameters;
    ghost var st := mem.store;
    assert st.Read(additive.outputAmplitude) == 1.0;
    assert forall k :: 0 <= k < 3 ==> additive.children[k].Filtered?;
    AdditiveOfFilteredRegistration(additive, st);
    n := RegisterParametersWithController(additive, controller, mem);
    assert n == additive && mem.store == st;
    NamesAppend(withBands, [Entry("Additive", "Amplitude", additive.outputAmplitude, 0.0, 1.0, 1.0)]);
  }

  /** setupTripleBandpassAdditive: three filtered saws (600, 1200 and 2400 Hz bands, 200, 300
      and 400 Hz wide) summed by an additive node. */
  method SetupTripleBandpassAdditive(sound: Sound, controller: LiveController, mem: Memory, trig: Trig)
    requires sound.Valid() && mem.store.Valid()
    modifies sound, controller, mem
    ensures sound.Valid() && mem.store.Valid()
    ensures Names(controller.parameters) == Names(old(controller.parameters)) + SetupNames(TripleBandpassAdditive)
    ensures controller.parameters[|controller.parameters| - 1] == MasterVolumeEntry(sound.masterVolume)
    ensures |sound.oscillators| == |old(sound.oscillators)| + 1
    ensures sound.oscillators[..|old(sound.oscillators)|] == old(sound.oscillators)
    ensures sound.mixRatios == Normalized(old(sound.mixRatios) + [1.0])
    ensures sound.filters == old(sound.filters) && sound.envelopes == old(sound.envelopes)
    ensures var n := sound.oscillators[|old(sound.oscillators)|];
      && n.Additive? && |n.children| == 3 && mem.store.Read(n.outputAmplitude) == 1.0
      && forall k :: 0 <= k < 3 ==> Band(n.children[k], k, trig)
  {
    var additive := NewTripleBandVoice(controller, mem, trig);
    AddVoiceAndVolume(additive, sound, controller);
    assert sound.oscillators[..|old(sound.oscillators)|] == old(sound.oscillators);
    TripleNames();
  }

  /** Calls the setup function a preset was registered with. Every setup adds one oscillator
      and ends the registry with the master volume; only the simple saw adds a filter and only
      the simple sine adds an envelope. */
  method RunSetup(setup: Setup, sound: Sound, controller: LiveController, mem: Memory, trig: Trig)
    requires sound.Valid() && mem.store.Valid()
    modifies sound, controller, mem
    ensures sound.Valid() && mem.store.Valid()
    ensures Names(controller.parameters) == Names(old(controller.parameters)) + SetupNames(setup)
    ensures controller.parameters[|controller.parameters| - 1] == MasterVolumeEntry(sound.masterVolume)
    ensures |sound.oscillators| == |old(sound.oscillators)| + 1
    ensures sound.oscillators[..|old(sound.oscillators)|] == old(sound.oscillators)
    ensures sound.mixRatios == Normalized(old(sound.mixRatios) + [1.0])
    ensures setup != SimpleSaw ==> sound.filters == old(sound.filters)
    ensures setup == SimpleSaw ==>
      |sound.filters| == |old(sound.filters)| + 1 && sound.filters[..|old(sound.filters)|] == old(sound.filters)
    ensures setup != SimpleSine ==> sound.envelopes == old(sound.envelopes)
    ensures setup == SimpleSine ==>
      |sound.envelopes| == |old(sound.envelopes)| + 1 && sound.envelopes[..|old(sound.envelopes)|] == old(sound.envelopes)
  {
    match setup
    case SimpleSine => SetupSimpleSine(sound, controller, mem);
    case SimpleSaw => SetupSimpleSaw(sound, controller, mem, trig);
    case _ => RunGraphSetup(setup, sound, controller, mem, trig);
  }

  /** The three setups that add only an oscillator graph: filters and envelopes stay as they are. */
  method RunGraphSetup(setup: Setup, sound: Sound, controller: LiveController, mem: Memory, trig: Trig)
    requires setup != SimpleSine && setup != SimpleSaw
    requires sound.Valid() && mem.store.Valid()
    modifies sound, controller, mem
    ensures sound.Valid() && mem.store.Valid()
    ensures Names(controller.parameters) == Names(old(controller.parameters)) + SetupNames(setup)
    ensures controller.parameters[|controller.parameters| - 1] == MasterVolumeEntry(sound.masterVolume)
    ensures |sound.oscillators| == |old(sound.oscillators)| + 1
    ensures sound.oscillators[..|old(sound.oscillators)|] == old(sound.oscillators)
    ensures sound.mixRatios == Normalized(old(sound.mixRatios) + [1.0])
    ensures sound.filters == old(sound.filters) && sound.envelopes == old(sound.envelopes)
  {
    match setup
    case BasicFM => SetupBasicFM(sound, controller, mem);
    case NestedFM => SetupNestedFM(sound, controller, mem);
    case TripleBandpassAdditive => SetupTripleBandpassAdditive(sound, controller, mem, trig);
  }

  /** Registering one more preset adds its name at the end. */
  lemma {:induction false} PresetNamesAppend(ps: seq<Preset>, p: Preset)
    ensures PresetNames(ps + [p]) == PresetNames(ps) + [p.name]
  {
    assert (ps + [p])[..|ps|] == ps;
  }

  /** The five built-in presets, by name, in registration order. */
  lemma BuiltInNames()
    ensures PresetNames(BuiltInPresets()) ==
      ["Simple Sine Wave", "Simple Saw Wave", "FM Synthesizer", "Nested FM", "Triple Bandpass Additive"]
  {
    var ps := BuiltInPresets();
    assert |PresetNames(ps)| == 5;
    assert forall i :: 0 <= i < 5 ==> PresetNames(ps)[i] == ps[i].name;
  }

  class PresetManager {
    var presets: seq<Preset>

    /** The five built-in presets, registered in order. */
    constructor()
      ensures presets == BuiltInPresets()
    {
      presets := [];
      new;
      RegisterPreset("Simple Sine Wave", "Single sine oscillator with frequency and amplitude control", SimpleSine);
      RegisterPreset("Simple Saw Wave", "Single sawtooth oscillator with frequency and amplitude control", SimpleSaw);
      RegisterPreset("FM Synthesizer", "Basic FM synthesis with sine carrier and modulator", BasicFM);
      RegisterPreset("Nested FM", "Advanced nested FM synthesis for complex timbres", NestedFM);
      RegisterPreset("Triple Bandpass Additive", "Saw wave split into three bandpass filters, summed additively", TripleBandpassAdditive);
    }

    /** A new preset goes at the end of the list; earlier ones keep their indices. */
    method RegisterPreset(name: string, description: string, setup: Setup)
      modifies this
      ensures presets == old(presets) + [Preset(name, description, setup)]
      ensures PresetNames(presets) == PresetNames(old(presets)) + [name]
    {
      PresetNamesAppend(presets, Preset(name, description, setup));
      presets := presets + [Preset(name, description, setup)];
    }

    /** For a valid index the Sound loses its oscillators, ratios and filters, the registry is
        emptied, and the preset's setup runs: the registry then holds exactly the setup's
        names and the Sound one oscillator at full share. The Sound's envelopes are kept, and
        the simple sine adds one more. Any other index changes nothing. */
    method LoadPreset(index: int, sound: Sound, controller: LiveController, mem: Memory, trig: Trig)
      requires sound.Valid() && mem.store.Valid()
      modifies sound, controller, mem
      ensures sound.Valid() && mem.store.Valid()
      ensures 0 <= index < |presets| ==>
        var setup := presets[index].setup;
        && Names(controller.parameters) == SetupNames(setup)
        && controller.ParameterCount() == |SetupNames(setup)|
        && controller.parameters[|controller.parameters| - 1] == MasterVolumeEntry(sound.masterVolume)
        && |sound.oscillators| == 1 && sound.mixRatios == [1.0]
        && |sound.filters| == (if setup == SimpleSaw then 1 else 0)
        && |sound.envelopes| == |old(sound.envelopes)| + (if setup == SimpleSine then 1 else 0)
        && sound.envelopes[..|old(sound.envelopes)|] == old(sound.envelopes)
      ensures !(0 <= index < |presets|) ==>
        && sound.oscillators == old(sound.oscillators) && sound.mixRatios == old(sound.mixRatios)
        && sound.filters == old(sound.filters) && sound.envelopes == old(sound.envelopes)
        && controller.parameters == old(controller.parameters) && mem.store == old(mem.store)
    {
      if 0 <= index < |presets| {
        sound.ClearOscillators();
        controller.ClearParameters();
        RunSetup(presets[index].setup, sound, controller, mem, trig);
        LoneRatioIsOne(1.0);
        assert [] + [1.0] == [1.0];
        assert sound.envelopes[..|old(sound.envelopes)|] == old(sound.envelopes);
      }
    }

    /** One name per preset, in registration order. */
    method GetPresetNames() returns (names: seq<string>)
      ensures names == PresetNames(presets)
    {
      names := [];
      var i := 0;
      while i < |presets|
        invariant 0 <= i <= |presets|
        invariant names == PresetNames(presets[..i])
      {
        assert presets[..i + 1][..i] == presets[..i];
        names := names + [presets[i].name];
        i := i + 1;
      }
      assert presets[..i] == presets;
    }

    function GetPresetCount(): (n: int)
      reads this
      ensures n == |presets| && n == |PresetNames(presets)|
    {
      |presets|
    }
  }

  /** Loading the simple sine twice: the registry holds the six simple-sine names once, but
      the Sound carries two more envelopes than before, since clearOscillators keeps them. */
  method LoadSimpleSineTwice(sound: Sound, controller: LiveController, mem: Memory, trig: Trig)
    requires sound.Valid() && mem.store.Valid()
    modifies sound, controller, mem
    ensures Names(controller.parameters) ==
      ["Sine Frequency", "Attack", "Decay", "Sustain", "Release", "Master Volume"]
    ensures |sound.oscillators| == 1 && |sound.envelopes| == |old(sound.envelopes)| + 2
  {
    var manager := new PresetManager();
    manager.LoadPreset(0, sound, controller, mem, trig);
    manager.LoadPreset(0, sound, controller, mem, trig);
  }
}
