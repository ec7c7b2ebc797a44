/** Live-parameter registration of the oscillator tree. A saw or sine registers its frequency;
    an FM node first creates any missing child, registers its modulation depth and then its
    carrier and modulator under " Carrier" and " Modulator"; an additive node registers its
    output amplitude and then its children under " Osc 1", " Osc 2", ...; the filtered saw
    registers nothing. The oscillators' recomputation callbacks are dropped on the way, so every
    entry they add has no hook. */
module OscillatorRegistration {
  import opened Common
  import opened Cells
  import opened Live
  import opened Oscillators

  /** What registering a node contributes, and the node and store afterwards (an FM node may
      have created children). */
  datatype Registered = Registered(entries: seq<LiveParameter>, node: Node, store: Store)

  datatype RegisteredAll = RegisteredAll(entries: seq<LiveParameter>, nodes: seq<Node>, store: Store)

  /** The entry Oscillator::addParameterWithPrefix appends. */
  function Entry(prefix: string, name: string, cell: CellId, minValue: real, maxValue: real, step: real): LiveParameter {
    LiveParameter(prefix + " " + name, cell, minValue, maxValue, step, None)
  }

  /** The name prefix of the i-th (0-based) child of an additive node. */
  function ChildPrefix(prefix: string, i: nat): string {
    prefix + " Osc " + NatToString(i + 1)
  }

  /** An entry registered under `prefix`: its name starts with the prefix and a space. */
  predicate Namespaced(e: LiveParameter, prefix: string) {
    |prefix| < |e.name| && e.name[..|prefix| + 1] == prefix + " "
  }

  predicate WellFormed(e: LiveParameter) {
    e.hook.None? && e.minValue <= e.maxValue
  }

  /** A name under a nested prefix (prefix + a suffix starting with a space) is also under
      the outer prefix. */
  lemma NestedNamespace(e: LiveParameter, prefix: string, suffix: string)
    requires |suffix| >= 1 && suffix[0] == ' '
    requires Namespaced(e, prefix + suffix)
    ensures Namespaced(e, prefix)
  {
    var q := prefix + suffix;
    assert e.name[..|prefix| + 1] == e.name[..|q| + 1][..|prefix| + 1];
    assert (q + " ")[..|prefix| + 1] == prefix + " ";
  }

  lemma EntryNamespaced(prefix: string, name: string, cell: CellId, minValue: real, maxValue: real, step: real)
    ensures Namespaced(Entry(prefix, name, cell, minValue, maxValue, step), prefix)
  {
    assert (prefix + " " + name)[..|prefix| + 1] == prefix + " ";
  }

  lemma ChildPrefixNested(e: LiveParameter, prefix: string, i: nat)
    requires Namespaced(e, ChildPrefix(prefix, i))
    ensures Namespaced(e, prefix)
  {
    assert ChildPrefix(prefix, i) == prefix + (" Osc " + NatToString(i + 1));
    NestedNamespace(e, prefix, " Osc " + NatToString(i + 1));
  }

  /** registerParametersWithPrefix of a node. */
  function Register(n: Node, prefix: string, st: Store): (r: Registered)
    decreases Size(n), 1
    ensures SameKind(n, r.node) && r.node.core == n.core
    ensures st.Valid() ==> r.store.Valid()
    ensures (n.Saw? || n.Sine?) ==> r == Registered([Entry(prefix, "Frequency", n.core.frequency, 1.0, 2000.0, 20.0)], n, st)
    ensures n.Filtered? ==> r == Registered([], n, st)
    ensures n.Additive? ==> r.node.Additive? && r.node == n.(children := r.node.children)
  {
    match n
    case Saw(_, _, _) =>
      Registered([Entry(prefix, "Frequency", n.core.frequency, 1.0, 2000.0, 20.0)], n, st)
    case Sine(_, _, _) =>
      Registered([Entry(prefix, "Frequency", n.core.frequency, 1.0, 2000.0, 20.0)], n, st)
    case FM(_, _, _, _, _, _) => RegisterFM(n, prefix, st)
    case Additive(_, _, _) => RegisterAdditive(n, prefix, st)
    case Filtered(_, _, _) => Registered([], n, st)
  }

  /** The FM registration: missing children are created first. */
  function RegisterFM(n: Node, prefix: string, st: Store): (r: Registered)
    requires n.FM?
    decreases Size(n), 0
    ensures r.node.FM? && r.node.core == n.core
    ensures st.Valid() ==> r.store.Valid()
    ensures |r.entries| >= 1 && r.entries[0] == Entry(prefix, "Mod Depth", n.depth, 0.0, 1000.0, 20.0)
  {
    var e := EnsureChildren(n, st);
    assert Size(e.node) == 1 + Size(e.node.carrier.value) + Size(e.node.modulator.value);
    var c := Register(e.node.carrier.value, prefix + " Carrier", e.store);
    var m := Register(e.node.modulator.value, prefix + " Modulator", c.store);
    var depth := Entry(prefix, "Mod Depth", n.depth, 0.0, 1000.0, 20.0);
    Registered([depth] + c.entries + m.entries, e.node.(carrier := Some(c.node), modulator := Some(m.node)), m.store)
  }

  /** The additive registration: the output amplitude, then every child in order. */
  function RegisterAdditive(n: Node, prefix: string, st: Store): (r: Registered)
    requires n.Additive?
    decreases Size(n), 0
    ensures r.node.Additive? && r.node == n.(children := r.node.children)
    ensures st.Valid() ==> r.store.Valid()
    ensures |r.entries| >= 1 && r.entries[0] == Entry(prefix, "Amplitude", n.outputAmplitude, 0.0, 1.0, 1.0)
  {
    var cs := RegisterChildren(n.children, prefix, st);
    Registered([Entry(prefix, "Amplitude", n.outputAmplitude, 0.0, 1.0, 1.0)] + cs.entries, n.(children := cs.nodes), cs.store)
  }

  /** The children of an additive node, the i-th under ChildPrefix(prefix, i). */
  function RegisterChildren(cs: seq<Node>, prefix: string, st: Store): (r: RegisteredAll)
    decreases SeqSize(cs), 2
    ensures |r.nodes| == |cs|
    ensures st.Valid() ==> r.store.Valid()
  {
    if cs == [] then RegisteredAll([], [], st)
    else
      var k := |cs| - 1;
      var prev := RegisterChildren(cs[..k], prefix, st);
      var c := Register(cs[k], ChildPrefix(prefix, k), prev.store);
      RegisteredAll(prev.entries + c.entries, prev.nodes + [c.node], c.store)
  }

  /** Registering one more child extends the registration of the ones before it. */
  lemma RegisterChildrenSnoc(cs: seq<Node>, i: nat, prefix: string, st: Store)
    requires i < |cs|
    ensures var prev := RegisterChildren(cs[..i], prefix, st);
      var c := Register(cs[i], ChildPrefix(prefix, i), prev.store);
      RegisterChildren(cs[..i + 1], prefix, st) == RegisteredAll(prev.entries + c.entries, prev.nodes + [c.node], c.store)
  {
    assert cs[..i + 1][..i] == cs[..i];
  }

  /** registerParameters: the same, under the node's type name. */
  function RegisterParameters(n: Node, st: Store): (r: Registered)
    ensures r == Register(n, TypeName(n), st)
    ensures forall e :: e in r.entries ==> WellFormed(e) && Namespaced(e, TypeName(n))
  {
    RegisterWellFormed(n, TypeName(n), st);
    Register(n, TypeName(n), st)
  }

  /** Every entry a node registers lies under the prefix it was given (nested registrations
      extend the parent's prefix), has no hook and has non-empty bounds. */
  lemma {:induction false} RegisterWellFormed(n: Node, prefix: string, st: Store)
    decreases Size(n), 1
    ensures forall e :: e in Register(n, prefix, st).entries ==> WellFormed(e) && Namespaced(e, prefix)
  {
    match n
    case Saw(_, _, _) =>
      EntryNamespaced(prefix, "Frequency", n.core.frequency, 1.0, 2000.0, 20.0);
    case Sine(_, _, _) =>
      EntryNamespaced(prefix, "Frequency", n.core.frequency, 1.0, 2000.0, 20.0);
    case FM(_, _, _, _, _, _) =>
      var e := EnsureChildren(n, st);
      assert Size(e.node) == 1 + Size(e.node.carrier.value) + Size(e.node.modulator.value);
      var c := Register(e.node.carrier.value, prefix + " Carrier", e.store);
      var m := Register(e.node.modulator.value, prefix + " Modulator", c.store);
      RegisterWellFormed(e.node.carrier.value, prefix + " Carrier", e.store);
      RegisterWellFormed(e.node.modulator.value, prefix + " Modulator", c.store);
      EntryNamespaced(prefix, "Mod Depth", n.depth, 0.0, 1000.0, 20.0);
      forall x | x in c.entries ensures Namespaced(x, prefix) {
        NestedNamespace(x, prefix, " Carrier");
      }
      forall x | x in m.entries ensures Namespaced(x, prefix) {
        NestedNamespace(x, prefix, " Modulator");
      }
    case Additive(_, _, _) =>
      RegisterChildrenWellFormed(n.children, prefix, st);
      EntryNamespaced(prefix, "Amplitude", n.outputAmplitude, 0.0, 1.0, 1.0);
    case Filtered(_, _, _) =>
  }

  lemma {:induction false} RegisterChildrenWellFormed(cs: seq<Node>, prefix: string, st: Store)
    decreases SeqSize(cs), 2
    ensures forall e :: e in RegisterChildren(cs, prefix, st).entries ==> WellFormed(e) && Namespaced(e, prefix)
  {
    if cs != [] {
      var k := |cs| - 1;
      var prev := RegisterChildren(cs[..k], prefix, st);
      var c := Register(cs[k], ChildPrefix(prefix, k), prev.store);
      RegisterChildrenWellFormed(cs[..k], prefix, st);
      ElementSize(cs, k);
      RegisterWellFormed(cs[k], ChildPrefix(prefix, k), prev.store);
      forall x | x in c.entries ensures Namespaced(x, prefix) {
        ChildPrefixNested(x, prefix, k);
      }
    }
  }

  /** An independent count of the entries a node registers: one per saw or sine, one per FM
      node plus its children (a missing child counts as the default sine it will become), one
      per additive node plus its children, none for a filtered saw. */
  function EntryCount(n: Node): nat
    decreases n
  {
    match n
    case Saw(_, _, _) => 1
    case Sine(_, _, _) => 1
    case FM(_, c, m, _, _, _) => 1 + OptEntryCount(c) + OptEntryCount(m)
    case Additive(_, cs, _) => 1 + EntryCounts(cs)
    case Filtered(_, _, _) => 0
  }

  function OptEntryCount(o: Option<Node>): nat
    decreases o
  {
    match o
    case None => 1
    case Some(v) => EntryCount(v)
  }

  function EntryCounts(cs: seq<Node>): nat
    decreases cs
  {
    if cs == [] then 0 else EntryCounts(cs[..|cs| - 1]) + EntryCount(cs[|cs| - 1])
  }

  lemma {:induction false} RegisterCount(n: Node, prefix: string, st: Store)
    decreases Size(n), 1
    ensures |Register(n, prefix, st).entries| == EntryCount(n)
  {
    match n
    case Saw(_, _, _) =>
    case Sine(_, _, _) =>
    case FM(_, _, _, _, _, _) =>
      var e := EnsureChildren(n, st);
      assert Size(e.node) == 1 + Size(e.node.carrier.value) + Size(e.node.modulator.value);
      var c := Register(e.node.carrier.value, prefix + " Carrier", e.store);
      RegisterCount(e.node.carrier.value, prefix + " Carrier", e.store);
      RegisterCount(e.node.modulator.value, prefix + " Modulator", c.store);
      assert EntryCount(e.node.carrier.value) == OptEntryCount(n.carrier);
      assert EntryCount(e.node.modulator.value) == OptEntryCount(n.modulator);
    case Additive(_, cs, _) =>
      RegisterChildrenCount(cs, prefix, st);
    case Filtered(_, _, _) =>
  }

  lemma {:induction false} RegisterChildrenCount(cs: seq<Node>, prefix: string, st: Store)
    decreases SeqSize(cs), 2
    ensures |RegisterChildren(cs, prefix, st).entries| == EntryCounts(cs)
  {
    if cs != [] {
      var k := |cs| - 1;
      var prev := RegisterChildren(cs[..k], prefix, st);
      RegisterChildrenCount(cs[..k], prefix, st);
      RegisterCount(cs[k], ChildPrefix(prefix, k), prev.store);
    }
  }

  /** The component flag does not influence what a node registers: every concrete oscillator
      registers its own parameters whether or not it is used as a component. */
  lemma {:induction false} ComponentFlagIgnored(n: Node, b: bool, prefix: string, st: Store)
    ensures Register(SetUsedAsComponent(n, b), prefix, st).entries == Register(n, prefix, st).entries
  {
    var n' := SetUsedAsComponent(n, b);
    match n
    case Saw(_, _, _) =>
    case Sine(_, _, _) =>
    case FM(_, _, _, _, _, _) =>
      var e := EnsureChildren(n, st);
      var e' := EnsureChildren(n', st);
      assert e'.node == WithCore(e.node, n'.core) && e'.store == e.store;
    case Additive(_, _, _) =>
    case Filtered(_, _, _) =>
  }

  /** Oscillator::addParameterWithPrefix: the name is prefix + " " + name; the callback is
      dropped. */
  method AddParameterWithPrefix(controller: LiveController, prefix: string, name: string, cell: CellId,
                                minValue: real, maxValue: real, step: real)
    modifies controller
    ensures controller.parameters == old(controller.parameters) + [Entry(prefix, name, cell, minValue, maxValue, step)]
  {
    controller.AddParameter(prefix + " " + name, cell, minValue, maxValue, step);
  }

  /** Oscillator::addParameter: as addParameterWithPrefix under the node's type name. */
  method AddParameter(controller: LiveController, n: Node, name: string, cell: CellId,
                      minValue: real, maxValue: real, step: real)
    modifies controller
    ensures controller.parameters == old(controller.parameters) + [Entry(TypeName(n), name, cell, minValue, maxValue, step)]
    ensures Namespaced(controller.parameters[|controller.parameters| - 1], TypeName(n))
  {
    EntryNamespaced(TypeName(n), name, cell, minValue, maxValue, step);
    controller.AddParameter(TypeName(n) + " " + name, cell, minValue, maxValue, step);
  }

  /** registerParametersWithPrefix against a live controller: appends exactly the entries
      Register describes and leaves memory and the node as Register says. */
  method RegisterParametersWithPrefix(n: Node, prefix: string, controller: LiveController, mem: Memory)
    returns (n': Node)
    modifies controller, mem
    decreases Size(n), 1
    ensures controller.parameters == old(controller.parameters) + Register(n, prefix, old(mem.store)).entries
    ensures n' == Register(n, prefix, old(mem.store)).node
    ensures mem.store == Register(n, prefix, old(mem.store)).store
  {
    match n {
      case Saw(_, _, _) =>
        AddParameterWithPrefix(controller, prefix, "Frequency", n.core.frequency, 1.0, 2000.0, 20.0);
        n' := n;
      case Sine(_, _, _) =>
        AddParameterWithPrefix(controller, prefix, "Frequency", n.core.frequency, 1.0, 2000.0, 20.0);
        n' := n;
      case FM(_, _, _, _, _, _) =>
        n' := RegisterFMWithPrefix(n, prefix, controller, mem);
      case Additive(_, _, _) =>
        n' := RegisterAdditiveWithPrefix(n, prefix, controller, mem);
      case Filtered(_, _, _) =>
        n' := n;
    }
  }

  method RegisterFMWithPrefix(n: Node, prefix: string, controller: LiveController, mem: Memory)
    returns (n': Node)
    requires n.FM?
    modifies controller, mem
    decreases Size(n), 0
    ensures controller.parameters == old(controller.parameters) + RegisterFM(n, prefix, old(mem.store)).entries
    ensures n' == RegisterFM(n, prefix, old(mem.store)).node
    ensures mem.store == RegisterFM(n, prefix, old(mem.store)).store
  {
    var e := EnsureChildren(n, mem.store);
    mem.store := e.store;
    AddParameterWithPrefix(controller, prefix, "Mod Depth", n.depth, 0.0, 1000.0, 20.0);
    assert Size(e.node) == 1 + Size(e.node.carrier.value) + Size(e.node.modulator.value);
    var c := RegisterParametersWithPrefix(e.node.carrier.value, prefix + " Carrier", controller, mem);
    var m := RegisterParametersWithPrefix(e.node.modulator.value, prefix + " Modulator", controller, mem);
    n' := e.node.(carrier := Some(c), modulator := Some(m));
  }

  method RegisterAdditiveWithPrefix(n: Node, prefix: string, controller: LiveController, mem: Memory)
    returns (n': Node)
    requires n.Additive?
    modifies controller, mem
    decreases Size(n), 0
    ensures controller.parameters == old(controller.parameters) + RegisterAdditive(n, prefix, old(mem.store)).entries
    ensures n' == RegisterAdditive(n, prefix, old(mem.store)).node
    ensures mem.store == RegisterAdditive(n, prefix, old(mem.store)).store
  {
    AddParameterWithPrefix(controller, prefix, "Amplitude", n.outputAmplitude, 0.0, 1.0, 1.0);
    var nodes := RegisterChildrenWithPrefix(n.children, prefix, controller, mem);
    n' := n.(children := nodes);
  }

  /** The loop over an additive node's children: child i registers under ChildPrefix(prefix, i). */
  method RegisterChildrenWithPrefix(children: seq<Node>, prefix: string, controller: LiveController, mem: Memory)
    returns (nodes: seq<Node>)
    modifies controller, mem
    decreases SeqSize(children), 2
    ensures controller.parameters == old(controller.parameters) + RegisterChildren(children, prefix, old(mem.store)).entries
    ensures nodes == RegisterChildren(children, prefix, old(mem.store)).nodes
    ensures mem.store == RegisterChildren(children, prefix, old(mem.store)).store
  {
    ghost var st0 := mem.store;
    var head := controller.parameters;
    nodes := [];
    var i := 0;
    while i < |children|
      invariant 0 <= i <= |children|
      invariant controller.parameters == head + RegisterChildren(children[..i], prefix, st0).entries
      invariant nodes == RegisterChildren(children[..i], prefix, st0).nodes
      invariant mem.store == RegisterChildren(children[..i], prefix, st0).store
    {
      RegisterChildrenSnoc(children, i, prefix, st0);
      ghost var prev := RegisterChildren(children[..i], prefix, st0);
      ghost var before := controller.parameters;
      ghost var store := mem.store;
      ElementSize(children, i);
      var c := RegisterParametersWithPrefix(children[i], ChildPrefix(prefix, i), controller, mem);
      ghost var step := Register(children[i], ChildPrefix(prefix, i), store);
      assert controller.parameters == before + step.entries;
      assert (head + prev.entries) + step.entries == head + (prev.entries + step.entries);
      nodes := nodes + [c];
      i := i + 1;
    }
    assert children[..i] == children;
  }

  /** registerParameters against a live controller. */
  method RegisterParametersWithController(n: Node, controller: LiveController, mem: Memory) returns (n': Node)
    modifies controller, mem
    ensures controller.parameters == old(controller.parameters) + RegisterParameters(n, old(mem.store)).entries
    ensures n' == RegisterParameters(n, old(mem.store)).node
    ensures mem.store == RegisterParameters(n, old(mem.store)).store
  {
    n' := RegisterParametersWithPrefix(n, TypeName(n), controller, mem);
  }
}
