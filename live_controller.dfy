/** The live parameter registry (LiveController): an ordered list of entries, each a display
    name, an alias to a cell owned elsewhere, inclusive bounds and a step. Increase, decrease
    and set write through the alias and clamp into the entry's bounds; a bad index is a
    silent no-op. The registry never runs a callback. */
module Live {
  import opened Common
  import opened Cells

  /** The recomputation callbacks that reach the registry, by what they would do: the filters'
      setter re-application and the Sound's master-volume update. (The oscillators' callbacks
      are dropped before they get here.) The registry stores them (see
      LiveController.AttachHook) but none of its operations invokes one. */
  datatype Hook =
    | ReapplyTargetFrequency
    | ReapplyBandwidth
    | ReapplyCutoffFrequency
    | ReapplyResonance
    | UpdateMasterVolume

  datatype LiveParameter = LiveParameter(
    name: string,
    cell: CellId,
    minValue: real,
    maxValue: real,
    step: real,
    hook: Option<Hook>)

  /** The three adjustments the registry offers. */
  datatype Adjustment = Increase | Decrease | SetTo(value: real)

  function Names(ps: seq<LiveParameter>): (names: seq<string>)
    ensures |names| == |ps|
    ensures forall i :: 0 <= i < |ps| ==> names[i] == ps[i].name
  {
    if ps == [] then [] else Names(ps[..|ps| - 1]) + [ps[|ps| - 1].name]
  }

  lemma {:induction false} NamesAppend(a: seq<LiveParameter>, b: seq<LiveParameter>)
    ensures Names(a + b) == Names(a) + Names(b)
  {
    var n := Names(a + b);
    assert |n| == |Names(a) + Names(b)|;
    forall i | 0 <= i < |n| ensures n[i] == (Names(a) + Names(b))[i] {
      if i < |a| {
        assert (a + b)[i] == a[i];
      } else {
        assert (a + b)[i] == b[i - |a|];
      }
    }
  }

  /** The value an adjustment asks for, before clamping. */
  function Requested(adj: Adjustment, current: real, step: real): real {
    match adj
    case Increase => current + step
    case Decrease => current - step
    case SetTo(v) => v
  }

  /** What one registry operation does to memory. */
  function Adjust(ps: seq<LiveParameter>, index: int, adj: Adjustment, st: Store): (st': Store)
    ensures !(0 <= index < |ps|) ==> st' == st
    ensures 0 <= index < |ps| ==>
      var p := ps[index];
      && st'.Read(p.cell) == Clamp(Requested(adj, st.Read(p.cell), p.step), p.minValue, p.maxValue)
      && (forall d :: d != p.cell ==> st'.Read(d) == st.Read(d))
      && (p.minValue <= p.maxValue ==> p.minValue <= st'.Read(p.cell) <= p.maxValue)
    ensures st.Valid() ==> st'.Valid()
  {
    if 0 <= index < |ps| then
      var p := ps[index];
      st.Write(p.cell, Clamp(Requested(adj, st.Read(p.cell), p.step), p.minValue, p.maxValue))
    else
      st
  }

  /** Setting below the minimum stores exactly the minimum, above the maximum exactly the maximum. */
  lemma SetOutsideBounds(ps: seq<LiveParameter>, index: int, v: real, st: Store)
    requires 0 <= index < |ps| && ps[index].minValue <= ps[index].maxValue
    ensures v < ps[index].minValue ==> Adjust(ps, index, SetTo(v), st).Read(ps[index].cell) == ps[index].minValue
    ensures v > ps[index].maxValue ==> Adjust(ps, index, SetTo(v), st).Read(ps[index].cell) == ps[index].maxValue
  {
  }

  /** With a non-negative step, increasing at the upper bound and decreasing at the lower
      bound leave memory exactly as it was. */
  lemma SaturatedAdjustmentIsIdentity(ps: seq<LiveParameter>, index: int, st: Store)
    requires 0 <= index < |ps|
    requires ps[index].minValue <= ps[index].maxValue && 0.0 <= ps[index].step
    requires st.Valid() && ps[index].cell in st.cells
    ensures st.Read(ps[index].cell) == ps[index].maxValue ==> Adjust(ps, index, Increase, st) == st
    ensures st.Read(ps[index].cell) == ps[index].minValue ==> Adjust(ps, index, Decrease, st) == st
  {
    var c := ps[index].cell;
    assert c < st.next;
    assert st.cells[c := st.cells[c]] == st.cells;
  }

  class LiveController {
    var parameters: seq<LiveParameter>

    constructor()
      ensures parameters == []
    {
      parameters := [];
    }

    function ParameterCount(): (n: int)
      reads this
      ensures n == |parameters|
    {
      |parameters|
    }

    /** Appends one entry at the end; no callback is attached. */
    method AddParameter(name: string, cell: CellId, minValue: real, maxValue: real, step: real := 0.1)
      modifies this
      ensures parameters == old(parameters) + [LiveParameter(name, cell, minValue, maxValue, step, None)]
    {
      parameters := parameters + [LiveParameter(name, cell, minValue, maxValue, step, None)];
    }

    method ClearParameters()
      modifies this
      ensures parameters == []
    {
      parameters := [];
    }

    /** setParameterCallback: called by the filters and the presets although LiveController
        does not declare it. Modelled as recording the hook on an existing entry. */
    method AttachHook(index: int, hook: Hook)
      modifies this
      ensures |parameters| == |old(parameters)|
      ensures 0 <= index < |parameters| ==> parameters == old(parameters)[index := old(parameters)[index].(hook := Some(hook))]
      ensures !(0 <= index < |parameters|) ==> parameters == old(parameters)
    {
      if 0 <= index < |parameters| {
        parameters := parameters[index := parameters[index].(hook := Some(hook))];
      }
    }

    method IncreaseParameter(index: int, mem: Memory)
      modifies mem
      ensures mem.store == Adjust(parameters, index, Increase, old(mem.store))
    {
      if 0 <= index < |parameters| {
        var p := parameters[index];
        mem.store := mem.store.Write(p.cell, mem.store.Read(p.cell) + p.step);
        ClampValue(index, mem);
      }
    }

    method DecreaseParameter(index: int, mem: Memory)
      modifies mem
      ensures mem.store == Adjust(parameters, index, Decrease, old(mem.store))
    {
      if 0 <= index < |parameters| {
        var p := parameters[index];
        mem.store := mem.store.Write(p.cell, mem.store.Read(p.cell) - p.step);
        ClampValue(index, mem);
      }
    }

    method SetParameter(index: int, value: real, mem: Memory)
      modifies mem
      ensures mem.store == Adjust(parameters, index, SetTo(value), old(mem.store))
    {
      if 0 <= index < |parameters| {
        mem.store := mem.store.Write(parameters[index].cell, value);
        ClampValue(index, mem);
      }
    }

    /** Re-reads the aliased cell and writes it back clamped into the entry's bounds. */
    method ClampValue(index: int, mem: Memory)
      requires 0 <= index < |parameters|
      modifies mem
      ensures var p := parameters[index];
        mem.store == old(mem.store).Write(p.cell, Clamp(old(mem.store).Read(p.cell), p.minValue, p.maxValue))
    {
      var p := parameters[index];
      mem.store := mem.store.Write(p.cell, Clamp(mem.store.Read(p.cell), p.minValue, p.maxValue));
    }
  }
}
