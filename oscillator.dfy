/** The oscillator node family. Every node carries the fields of the Oscillator base class
    (frequency, amplitude, sample rate, phase and the component flag); the variants are the
    sawtooth and sine phase accumulators, the FM composite (carrier and modulator, created
    lazily), the additive composite (a list of children mixed by their mean), and the
    filtered saw that the triple band-pass preset wraps around a band-pass filter.

    A node is a value; a node owns its sub-nodes exactly as the unique_ptr tree does. Fields the
    live registry can point at (every frequency, the FM modulation depth and the additive output
    amplitude) are cells of the store, so the step and setter functions take a store and return
    the new one. */
module Oscillators {
  import opened Common
  import opened Cells
  import opened Filters

  /** The Oscillator base-class fields. */
  datatype Core = Core(frequency: CellId, amplitude: real, sampleRate: Rate, phase: real, component: bool)

  datatype Node =
    | Saw(core: Core, useCustomIncrement: bool, customIncrement: real)
    | Sine(core: Core, useCustomIncrement: bool, customIncrement: real)
    | FM(core: Core, carrier: Option<Node>, modulator: Option<Node>, depth: CellId, carrierFreq: real, modulatorFreq: real)
    | Additive(core: Core, children: seq<Node>, outputAmplitude: CellId)
    | Filtered(core: Core, saw: Node, filter: Biquad)

  /** The node with its base-class fields replaced and everything else kept. */
  function WithCore(n: Node, c: Core): (r: Node)
    ensures r.core == c && SameKind(n, r) && Size(r) == Size(n)
  {
    match n
    case Saw(_, u, i) => Saw(c, u, i)
    case Sine(_, u, i) => Sine(c, u, i)
    case FM(_, cr, m, d, cf, mf) => FM(c, cr, m, d, cf, mf)
    case Additive(_, cs, a) => Additive(c, cs, a)
    case Filtered(_, s, q) => Filtered(c, s, q)
  }

  /** A node together with the store after an operation that may allocate or write cells. */
  datatype Updated = Updated(node: Node, store: Store)

  /** One nextSample call: the sample, the node afterwards and the store afterwards. */
  datatype Tick = Tick(sample: real, node: Node, store: Store)

  /** nextSample on each node of a list, in order. */
  datatype Ticks = Ticks(samples: seq<real>, nodes: seq<Node>, store: Store)

  predicate SameKind(a: Node, b: Node) {
    (a.Saw? <==> b.Saw?) && (a.Sine? <==> b.Sine?) && (a.FM? <==> b.FM?)
    && (a.Additive? <==> b.Additive?) && (a.Filtered? <==> b.Filtered?)
  }

  /** The number of nodes in the tree, counting an FM child not yet created as the one node
      that ensureOscillatorsExist will put there. */
  function Size(n: Node): (s: nat)
    ensures s >= 1
    decreases n
  {
    match n
    case FM(_, c, m, _, _, _) => 1 + OptSize(c) + OptSize(m)
    case Additive(_, cs, _) => 1 + SeqSize(cs)
    case Filtered(_, s, _) => 1 + Size(s)
    case _ => 1
  }

  function OptSize(o: Option<Node>): (s: nat)
    ensures s >= 1
    decreases o
  {
    match o
    case None => 1
    case Some(v) => Size(v)
  }

  function SeqSize(cs: seq<Node>): nat
    decreases cs
  {
    if cs == [] then 0 else SeqSize(cs[..|cs| - 1]) + Size(cs[|cs| - 1])
  }

  lemma {:induction false} ElementSize(cs: seq<Node>, i: nat)
    requires i < |cs|
    ensures Size(cs[i]) <= SeqSize(cs)
    decreases |cs|
  {
    if i < |cs| - 1 {
      ElementSize(cs[..|cs| - 1], i);
    }
  }

  /** The store only grows: when it was consistent it stays so and every cell already in use
      keeps its value. */
  ghost predicate Grows(st: Store, st': Store) {
    st.Valid() ==> st'.Valid() && forall c :: c in st.cells ==> c in st'.cells && st'.Read(c) == st.Read(c)
  }

  /** A cell that did not exist before and now does. */
  ghost predicate FreshCell(st: Store, st': Store, c: CellId) {
    st.Valid() ==> c !in st.cells && c in st'.cells
  }

  function TypeName(n: Node): string {
    match n
    case Saw(_, _, _) => "Saw"
    case Sine(_, _, _) => "Sine"
    case FM(_, _, _, _, _, _) => "FM"
    case Additive(_, _, _) => "Additive"
    case Filtered(_, _, _) => "FilteredOsc"
  }

  /** The base-class constructor: a fresh frequency cell holding 440, amplitude 0.5, phase 0,
      not a component. */
  function NewCore(sampleRate: Rate, st: Store): (r: (Core, Store))
    ensures r.0 == Core(r.0.frequency, 0.5, sampleRate, 0.0, false)
    ensures r.1.Read(r.0.frequency) == 440.0 && FreshCell(st, r.1, r.0.frequency) && Grows(st, r.1)
  {
    var a := st.Alloc(440.0);
    (Core(a.cell, 0.5, sampleRate, 0.0, false), a.store)
  }

  /** SawOscillator(sampleRate): the base defaults with amplitude raised to 1.0. */
  function NewSaw(sampleRate: Rate, st: Store): (u: Updated)
    ensures u.node == Saw(Core(u.node.core.frequency, 1.0, sampleRate, 0.0, false), false, 0.0)
    ensures u.store.Read(u.node.core.frequency) == 440.0
    ensures FreshCell(st, u.store, u.node.core.frequency) && Grows(st, u.store)
  {
    var (core, st1) := NewCore(sampleRate, st);
    Updated(Saw(core.(amplitude := 1.0), false, 0.0), st1)
  }

  /** SineOscillator(sampleRate): the base defaults with amplitude raised to 1.0. */
  function NewSine(sampleRate: Rate, st: Store): (u: Updated)
    ensures u.node == Sine(Core(u.node.core.frequency, 1.0, sampleRate, 0.0, false), false, 0.0)
    ensures u.store.Read(u.node.core.frequency) == 440.0
    ensures FreshCell(st, u.store, u.node.core.frequency) && Grows(st, u.store)
  {
    var (core, st1) := NewCore(sampleRate, st);
    Updated(Sine(core.(amplitude := 1.0), false, 0.0), st1)
  }

  /** FMSynthesizer(sampleRate): depth 100, cached carrier 440 Hz and modulator 880 Hz,
      amplitude 1, no children yet. */
  function NewFM(sampleRate: Rate, st: Store): (u: Updated)
    ensures u.node.FM? && u.node.carrier.None? && u.node.modulator.None?
    ensures u.node.core == Core(u.node.core.frequency, 1.0, sampleRate, 0.0, false)
    ensures u.node.carrierFreq == 440.0 && u.node.modulatorFreq == 880.0
    ensures u.store.Read(u.node.depth) == 100.0 && u.store.Read(u.node.core.frequency) == 440.0
    ensures FreshCell(st, u.store, u.node.depth) && FreshCell(st, u.store, u.node.core.frequency)
    ensures st.Valid() ==> u.node.depth != u.node.core.frequency
    ensures Grows(st, u.store)
  {
    var (core, st1) := NewCore(sampleRate, st);
    var d := st1.Alloc(100.0);
    Updated(FM(core.(amplitude := 1.0), None, None, d.cell, 440.0, 880.0), d.store)
  }

  /** AdditiveSynthesizer(sampleRate): no children; its own output amplitude (which shadows the
      base one) is 1.0 while the base amplitude keeps the default 0.5. */
  function NewAdditive(sampleRate: Rate, st: Store): (u: Updated)
    ensures u.node.Additive? && u.node.children == []
    ensures u.node.core == Core(u.node.core.frequency, 0.5, sampleRate, 0.0, false)
    ensures u.store.Read(u.node.outputAmplitude) == 1.0 && FreshCell(st, u.store, u.node.outputAmplitude)
    ensures Grows(st, u.store)
  {
    var (core, st1) := NewCore(sampleRate, st);
    var a := st1.Alloc(1.0);
    Updated(Additive(core, [], a.cell), a.store)
  }

  /** The FilteredOsc wrapper: a base-class node that owns a saw and a band-pass filter. */
  function NewFiltered(saw: Node, filter: Biquad, sampleRate: Rate, st: Store): (u: Updated)
    ensures u.node == Filtered(Core(u.node.core.frequency, 0.5, sampleRate, 0.0, false), saw, filter)
    ensures Grows(st, u.store)
  {
    var (core, st1) := NewCore(sampleRate, st);
    Updated(Filtered(core, saw, filter), st1)
  }

  function Frequency(n: Node, st: Store): real {
    st.Read(n.core.frequency)
  }

  /** setAmplitude: the value is clamped into [0, 1]. */
  function SetAmplitude(n: Node, amp: real): (r: Node)
    ensures r == WithCore(n, n.core.(amplitude := r.core.amplitude))
    ensures 0.0 <= r.core.amplitude <= 1.0
    ensures 0.0 <= amp <= 1.0 ==> r.core.amplitude == amp
    ensures amp < 0.0 ==> r.core.amplitude == 0.0
    ensures amp > 1.0 ==> r.core.amplitude == 1.0
  {
    WithCore(n, n.core.(amplitude := if amp < 0.0 then 0.0 else if amp > 1.0 then 1.0 else amp))
  }

  /** setSampleRate stores the rate unchanged. */
  function SetSampleRate(n: Node, rate: Rate): (r: Node)
    ensures r.core.sampleRate == rate && r == WithCore(n, n.core.(sampleRate := rate))
  {
    WithCore(n, n.core.(sampleRate := rate))
  }

  /** setUsedAsComponent(b); the C++ default argument is true. */
  function SetUsedAsComponent(n: Node, isComponent: bool := true): (r: Node)
    ensures IsUsedAsComponent(r) == isComponent
    ensures r == WithCore(n, n.core.(component := isComponent))
  {
    WithCore(n, n.core.(component := isComponent))
  }

  function IsUsedAsComponent(n: Node): bool {
    n.core.component
  }

  /** The virtual setFrequency. The base version writes the node's own frequency cell; the FM
      override updates its cached carrier frequency and forwards to the carrier, if any. */
  function SetFrequency(n: Node, f: real, st: Store): (u: Updated)
    decreases n
    ensures SameKind(n, u.node) && Size(u.node) == Size(n)
    ensures !n.FM? ==> u.node == n && u.store == st.Write(n.core.frequency, f)
    ensures n.FM? ==> u.node.FM? && u.node == n.(carrierFreq := f, carrier := u.node.carrier)
    ensures n.FM? ==> (u.node.carrier.Some? <==> n.carrier.Some?)
    ensures n.FM? && n.carrier.Some? ==> u.node.carrier.value.core == n.carrier.value.core
    ensures n.FM? && n.carrier.None? ==> u.store == st
    ensures st.Valid() ==> u.store.Valid()
  {
    match n
    case FM(_, _, _, _, _, _) => SetCarrierFrequency(n, f, st)
    case _ => Updated(n, st.Write(n.core.frequency, f))
  }

  /** setCarrierFrequency: cache the value, and pass it to the carrier if there is one. */
  function SetCarrierFrequency(n: Node, f: real, st: Store): (u: Updated)
    requires n.FM?
    decreases n, 0
    ensures u.node.FM? && u.node == n.(carrierFreq := f, carrier := u.node.carrier)
    ensures u.node.carrier.Some? <==> n.carrier.Some?
    ensures n.carrier.Some? ==> u == Updated(n.(carrierFreq := f, carrier := Some(SetFrequency(n.carrier.value, f, st).node)), SetFrequency(n.carrier.value, f, st).store)
    ensures n.carrier.None? ==> u.store == st
  {
    if n.carrier.Some? then
      var c := SetFrequency(n.carrier.value, f, st);
      Updated(n.(carrierFreq := f, carrier := Some(c.node)), c.store)
    else
      Updated(n.(carrierFreq := f), st)
  }

  /** setModulatorFrequency: cache the value, and pass it to the modulator if there is one. */
  function SetModulatorFrequency(n: Node, f: real, st: Store): (u: Updated)
    requires n.FM?
    ensures u.node.FM? && u.node == n.(modulatorFreq := f, modulator := u.node.modulator)
    ensures u.node.modulator.Some? <==> n.modulator.Some?
    ensures n.modulator.Some? && !n.modulator.value.FM? ==>
      u.store.Read(n.modulator.value.core.frequency) == f && u.node.modulator == n.modulator
    ensures n.modulator.None? ==> u.store == st
  {
    if n.modulator.Some? then
      var m := SetFrequency(n.modulator.value, f, st);
      Updated(n.(modulatorFreq := f, modulator := Some(m.node)), m.store)
    else
      Updated(n.(modulatorFreq := f), st)
  }

  /** setModulationDepth: negative depths are stored as 0. */
  function SetModulationDepth(n: Node, depth: real, st: Store): (st': Store)
    requires n.FM?
    ensures st'.Read(n.depth) == Max(0.0, depth) && st'.Read(n.depth) >= 0.0
    ensures forall c :: c != n.depth ==> st'.Read(c) == st.Read(c)
  {
    st.Write(n.depth, if depth < 0.0 then 0.0 else depth)
  }

  /** setModulatorAmplitude: forwarded to the modulator's (clamping) setAmplitude, if any. */
  function SetModulatorAmplitude(n: Node, amp: real): (r: Node)
    requires n.FM?
    ensures n.modulator.None? ==> r == n
    ensures n.modulator.Some? ==> r == n.(modulator := Some(SetAmplitude(n.modulator.value, amp)))
  {
    if n.modulator.Some? then n.(modulator := Some(SetAmplitude(n.modulator.value, amp))) else n
  }

  /** What injecting a child into an FM node does to it: the cached frequency is applied
      through the child's own setFrequency, its amplitude is set to 1 and it is marked as a
      component. */
  function Adopt(child: Node, f: real, st: Store): (u: Updated)
    ensures SameKind(child, u.node) && Size(u.node) == Size(child)
    ensures u.node.core == child.core.(amplitude := 1.0, component := true)
    ensures !child.FM? ==> u.node == WithCore(child, u.node.core) && u.store == st.Write(child.core.frequency, f)
    ensures child.FM? ==> u.node.carrierFreq == f
    ensures st.Valid() ==> u.store.Valid()
  {
    var s := SetFrequency(child, f, st);
    Updated(SetUsedAsComponent(SetAmplitude(s.node, 1.0), true), s.store)
  }

  /** setCarrierOscillator: the carrier is replaced (possibly by none); a real child is adopted
      with the cached carrier frequency. */
  function SetCarrierOscillator(n: Node, child: Option<Node>, st: Store): (u: Updated)
    requires n.FM?
    ensures u.node.FM? && u.node == n.(carrier := u.node.carrier)
    ensures child.None? ==> u == Updated(n.(carrier := None), st)
    ensures child.Some? ==>
      (u.node.carrier == Some(Adopt(child.value, n.carrierFreq, st).node) && u.store == Adopt(child.value, n.carrierFreq, st).store)
  {
    if child.Some? then
      var a := Adopt(child.value, n.carrierFreq, st);
      Updated(n.(carrier := Some(a.node)), a.store)
    else
      Updated(n.(carrier := None), st)
  }

  /** setModulatorOscillator: as setCarrierOscillator with the cached modulator frequency. */
  function SetModulatorOscillator(n: Node, child: Option<Node>, st: Store): (u: Updated)
    requires n.FM?
    ensures u.node.FM? && u.node == n.(modulator := u.node.modulator)
    ensures child.None? ==> u == Updated(n.(modulator := None), st)
    ensures child.Some? ==>
      (u.node.modulator == Some(Adopt(child.value, n.modulatorFreq, st).node) && u.store == Adopt(child.value, n.modulatorFreq, st).store)
  {
    if child.Some? then
      var a := Adopt(child.value, n.modulatorFreq, st);
      Updated(n.(modulator := Some(a.node)), a.store)
    else
      Updated(n.(modulator := None), st)
  }

  /** The sine that ensureOscillatorsExist creates for a missing child: the FM node's sample
      rate, the cached frequency in a fresh cell, amplitude 1, marked as a component. */
  ghost predicate DefaultChild(c: Node, sampleRate: Rate, f: real, st: Store, st': Store) {
    c == Sine(Core(c.core.frequency, 1.0, sampleRate, 0.0, true), false, 0.0)
    && st'.Read(c.core.frequency) == f && FreshCell(st, st', c.core.frequency)
  }

  function NewDefaultChild(sampleRate: Rate, f: real, st: Store): (u: Updated)
    ensures DefaultChild(u.node, sampleRate, f, st, u.store) && Grows(st, u.store)
  {
    var s := NewSine(sampleRate, st);
    Adopt(s.node, f, s.store)
  }

  /** ensureOscillatorsExist: fill in only the missing children, with default sines. */
  function EnsureChildren(n: Node, st: Store): (u: Updated)
    requires n.FM?
    ensures u.node.FM? && u.node == n.(carrier := u.node.carrier, modulator := u.node.modulator)
    ensures u.node.carrier.Some? && u.node.modulator.Some?
    ensures Size(u.node) == Size(n)
    ensures n.carrier.Some? ==> u.node.carrier == n.carrier
    ensures n.modulator.Some? ==> u.node.modulator == n.modulator
    ensures n.carrier.Some? && n.modulator.Some? ==> u.store == st
    ensures n.carrier.None? ==> DefaultChild(u.node.carrier.value, n.core.sampleRate, n.carrierFreq, st, u.store)
    ensures n.modulator.None? ==> DefaultChild(u.node.modulator.value, n.core.sampleRate, n.modulatorFreq, st, u.store)
    ensures n.carrier.None? && n.modulator.None? && st.Valid() ==>
      u.node.carrier.value.core.frequency != u.node.modulator.value.core.frequency
    ensures Grows(st, u.store)
  {
    var withCarrier :=
      if n.carrier.Some? then Updated(n, st)
      else
        var c := NewDefaultChild(n.core.sampleRate, n.carrierFreq, st);
        Updated(n.(carrier := Some(c.node)), c.store);
    if withCarrier.node.modulator.Some? then withCarrier
    else
      var m := NewDefaultChild(n.core.sampleRate, n.modulatorFreq, withCarrier.store);
      Updated(withCarrier.node.(modulator := Some(m.node)), m.store)
  }

  /** addOscillator: a missing child is ignored; otherwise the child, with amplitude 1 and
      marked as a component, goes at the end. */
  function AddOscillator(n: Node, child: Option<Node>): (r: Node)
    requires n.Additive?
    ensures child.None? ==> r == n
    ensures child.Some? ==> r.Additive? && r == n.(children := r.children)
    ensures child.Some? ==> r.children == n.children + [WithCore(child.value, child.value.core.(amplitude := 1.0, component := true))]
  {
    if child.Some? then
      n.(children := n.children + [SetUsedAsComponent(SetAmplitude(child.value, 1.0), true)])
    else n
  }

  function ClearOscillators(n: Node): (r: Node)
    requires n.Additive?
    ensures r == n.(children := []) && OscillatorCount(r) == 0
  {
    n.(children := [])
  }

  function OscillatorCount(n: Node): (count: nat)
    requires n.Additive?
    ensures count == |n.children|
  {
    |n.children|
  }

  /** The single wrap of a phase accumulator: one subtraction of 1 at or above 1, no
      correction below 0. */
  function Wrap(p: real): (r: real)
    ensures p >= 1.0 ==> r == p - 1.0
    ensures p < 1.0 ==> r == p
    ensures 0.0 <= p < 2.0 ==> 0.0 <= r < 1.0
  {
    if p >= 1.0 then p - 1.0 else p
  }

  /** The phase increment of a saw or sine: the override when it is on, otherwise
      frequency / sampleRate. */
  function Increment(n: Node, st: Store): real
    requires n.Saw? || n.Sine?
  {
    if n.useCustomIncrement then n.customIncrement else st.Read(n.core.frequency) / n.core.sampleRate
  }

  /** The phase update of a saw or sine: the phase moves on by the increment and wraps once
      past 1; nothing else changes. */
  function Advance(n: Node, st: Store): (r: Node)
    requires n.Saw? || n.Sine?
    ensures r == WithCore(n, r.core) && r.core == n.core.(phase := r.core.phase)
    ensures r.core.phase == n.core.phase + Increment(n, st)
         || r.core.phase == n.core.phase + Increment(n, st) - 1.0
    ensures 0.0 <= n.core.phase < 1.0 && 0.0 <= Increment(n, st) < 1.0 ==> 0.0 <= r.core.phase < 1.0
  {
    WithCore(n, n.core.(phase := Wrap(n.core.phase + Increment(n, st))))
  }

  function Sum(xs: seq<real>): real {
    if xs == [] then 0.0 else Sum(xs[..|xs| - 1]) + xs[|xs| - 1]
  }

  /** The saw output at the current phase: a ramp from -amplitude up towards +amplitude. */
  function SawSample(core: Core): real {
    core.amplitude * (2.0 * core.phase - 1.0)
  }

  /** The sine output at the current phase. */
  function SineSample(core: Core, trig: TrigFunctions): real {
    core.amplitude * trig.sin(2.0 * trig.pi * core.phase)
  }

  /** The additive mix: the mean of the children's samples times the output amplitude. */
  function Mix(samples: seq<real>, amplitude: real): real
    requires samples != []
  {
    Sum(samples) / |samples| as real * amplitude
  }

  /** nextSample of a node. */
  function Step(n: Node, st: Store, trig: TrigFunctions): (t: Tick)
    decreases Size(n), 2
    ensures SameKind(n, t.node)
    ensures t.node.core == n.core.(phase := t.node.core.phase)
    ensures st.Valid() ==> t.store.Valid()
    ensures n.Saw? ==> t == Tick(SawSample(n.core), Advance(n, st), st)
    ensures n.Sine? ==> t == Tick(SineSample(n.core, trig), Advance(n, st), st)
    ensures !(n.Saw? || n.Sine?) ==> t.node.core == n.core
    ensures n.FM? && n.carrier.Some? ==>
      t.node.carrier.Some? && t.node.carrier.value.core.frequency == n.carrier.value.core.frequency
      && SameKind(t.node.carrier.value, n.carrier.value)
  {
    match n
    case Saw(core, _, _) => Tick(SawSample(core), Advance(n, st), st)
    case Sine(core, _, _) => Tick(SineSample(core, trig), Advance(n, st), st)
    case FM(_, _, _, _, _, _) => StepFM(n, st, trig)
    case Additive(_, _, _) => StepAdditive(n, st, trig)
    case Filtered(_, saw, filter) =>
      var s := Step(saw, st, trig);
      var p := Process(filter, s.sample);
      Tick(p.out, Filtered(n.core, s.node, p.next), s.store)
  }

  /** The FM nextSample: make sure both children exist, run the modulator, and run the carrier
      one sample at frequency + modulator sample * depth, scaled by the FM node's amplitude. */
  function StepFM(n: Node, st: Store, trig: TrigFunctions): (t: Tick)
    requires n.FM?
    decreases Size(n), 1
    ensures t.node.FM? && t.node == n.(carrier := t.node.carrier, modulator := t.node.modulator)
    ensures st.Valid() ==> t.store.Valid()
    ensures t.node.carrier.Some? && t.node.modulator.Some?
    ensures n.carrier.Some? ==>
      t.node.carrier.value.core.frequency == n.carrier.value.core.frequency && SameKind(t.node.carrier.value, n.carrier.value)
    // With both children present, the modulator runs first, and the carrier is then driven
    // with the offset modulator output * depth.
    ensures n.carrier.Some? && n.modulator.Some? ==>
      assert Size(n) == 1 + Size(n.carrier.value) + Size(n.modulator.value);
      var m := Step(n.modulator.value, st, trig);
      var offset := Scale(m.sample, m.store.Read(n.depth));
      t == if n.carrier.value.Sine? then DriveSineCarrier(n, offset, m, trig) else DriveCarrier(n, offset, m, trig)
  {
    var e := EnsureChildren(n, st);
    var fm := e.node;
    assert Size(fm) == 1 + Size(fm.carrier.value) + Size(fm.modulator.value);
    assert n.carrier.Some? && n.modulator.Some? ==> fm == n && e.store == st;
    var m := Step(fm.modulator.value, e.store, trig);
    var offset := Scale(m.sample, m.store.Read(n.depth));
    if fm.carrier.value.Sine? then DriveSineCarrier(fm, offset, m, trig)
    else DriveCarrier(fm, offset, m, trig)
  }

  /** A sine carrier runs one sample on the overriding increment (frequency + offset) / rate,
      where the rate is the FM node's own, and then drops the override. */
  function DriveSineCarrier(fm: Node, offset: real, m: Tick, trig: TrigFunctions): (t: Tick)
    requires fm.FM? && fm.carrier.Some? && fm.carrier.value.Sine?
    decreases Size(fm), 0
    ensures var c := fm.carrier.value;
      var increment := (m.store.Read(c.core.frequency) + offset) / fm.core.sampleRate;
      && t.store == m.store
      && t.sample == Scale(SineSample(c.core, trig), fm.core.amplitude)
      && t.node == fm.(carrier := Some(Sine(c.core.(phase := Wrap(c.core.phase + increment)), false, increment)),
                       modulator := Some(m.node))
  {
    var carrier := fm.carrier.value;
    var increment := (m.store.Read(carrier.core.frequency) + offset) / fm.core.sampleRate;
    var c := Step(Sine(carrier.core, true, increment), m.store, trig);
    Tick(Scale(c.sample, fm.core.amplitude),
         fm.(carrier := Some(Sine(c.node.core, false, c.node.customIncrement)), modulator := Some(m.node)), c.store)
  }

  /** Any other carrier has its frequency raised through setFrequency for one sample, and then
      set back to the value getFrequency gave before. */
  function DriveCarrier(fm: Node, offset: real, m: Tick, trig: TrigFunctions): (t: Tick)
    requires fm.FM? && fm.carrier.Some?
    decreases Size(fm), 0
    ensures t.node.FM? && t.node == fm.(carrier := t.node.carrier, modulator := Some(m.node))
    ensures m.store.Valid() ==> t.store.Valid()
    ensures t.node.carrier.Some? && t.node.carrier.value.core.frequency == fm.carrier.value.core.frequency
    ensures SameKind(t.node.carrier.value, fm.carrier.value)
    // A nested FM carrier's getFrequency() is its own base field, which its setFrequency never
    // changes; setting it back writes that value into the nested node's carrier.
    ensures var c := fm.carrier.value;
      c.FM? && c.carrier.Some? && !c.carrier.value.FM? ==>
        t.store.Read(c.carrier.value.core.frequency) == m.store.Read(c.core.frequency)
    // A plain carrier runs one sample with its frequency cell at getFrequency() + offset, the
    // output is that sample times the FM node's amplitude, and the cell then holds the value
    // read before.
    ensures !fm.carrier.value.FM? ==>
      var c := fm.carrier.value;
      var original := m.store.Read(c.core.frequency);
      t.store.Read(c.core.frequency) == original
    ensures !fm.carrier.value.FM? ==>
      assert Size(fm) == 1 + Size(fm.carrier.value) + OptSize(fm.modulator);
      var c := fm.carrier.value;
      var raised := m.store.Write(c.core.frequency, m.store.Read(c.core.frequency) + offset);
      var run := Step(c, raised, trig);
      && t.sample == Scale(run.sample, fm.core.amplitude) && t.node.carrier == Some(run.node)
      && t.store == run.store.Write(c.core.frequency, m.store.Read(c.core.frequency))
  {
    assert Size(fm) == 1 + Size(fm.carrier.value) + OptSize(fm.modulator);
    var carrier := fm.carrier.value;
    var original := m.store.Read(carrier.core.frequency);
    var raised := SetFrequency(carrier, original + offset, m.store);
    var c := Step(raised.node, raised.store, trig);
    var restored := SetFrequency(c.node, original, c.store);
    assert !carrier.FM? ==> raised == Updated(carrier, m.store.Write(carrier.core.frequency, original + offset));
    assert !carrier.FM? ==> !c.node.FM? && c.node.core.frequency == carrier.core.frequency;
    Tick(Scale(c.sample, fm.core.amplitude),
         fm.(carrier := Some(restored.node), modulator := Some(m.node)), restored.store)
  }

  /** The additive nextSample: 0 with no children (nothing runs), otherwise the mean of one
      sample from every child, in order, times the output amplitude. */
  function StepAdditive(n: Node, st: Store, trig: TrigFunctions): (t: Tick)
    requires n.Additive?
    decreases Size(n), 1
    ensures t.node.Additive? && t.node == n.(children := t.node.children)
    ensures |t.node.children| == |n.children|
    ensures n.children == [] ==> t == Tick(0.0, n, st)
    ensures n.children != [] ==> t.sample == Mix(StepAll(n.children, st, trig).samples, t.store.Read(n.outputAmplitude))
    ensures st.Valid() ==> t.store.Valid()
  {
    if n.children == [] then Tick(0.0, n, st)
    else
      var all := StepAll(n.children, st, trig);
      Tick(Mix(all.samples, all.store.Read(n.outputAmplitude)), n.(children := all.nodes), all.store)
  }

  /** nextSample on each node in order, threading the store. */
  function StepAll(cs: seq<Node>, st: Store, trig: TrigFunctions): (r: Ticks)
    decreases SeqSize(cs), 3
    ensures |r.samples| == |cs| && |r.nodes| == |cs|
    ensures st.Valid() ==> r.store.Valid()
  {
    if cs == [] then Ticks([], [], st)
    else
      var prev := StepAll(cs[..|cs| - 1], st, trig);
      var t := Step(cs[|cs| - 1], prev.store, trig);
      Ticks(prev.samples + [t.sample], prev.nodes + [t.node], t.store)
  }
}
