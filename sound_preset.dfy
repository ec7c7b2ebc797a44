/** SoundPreset: a named preset that knows its controllable parameters. Each Parameter carries
    its current value, bounds, a unit and a setter. Setting by index clamps the value, stores it
    and calls the setter once; setting by name acts on the first parameter with that exact name.
    Unknown indices and names are silent no-ops. */
module Presets {
  import opened Common
  import Sounds

  datatype ParameterType = Frequency | Amplitude | FmModulationDepth | FmModulatorFreq | MasterVolume

  /** A std::function handed in by preset code. What it does lies outside the model; only its
      identity and the arguments it is called with are observable here. */
  type SetterId = nat
  type SetupId = nat

  /** One invocation of a parameter's setter. */
  datatype SetterCall = SetterCall(setter: SetterId, value: real)

  /** One invocation of a preset's setup function. */
  datatype SetupCall = SetupCall(setup: SetupId, sound: Sounds.Sound?)

  datatype Parameter = Parameter(
    name: string,
    kind: ParameterType,
    currentValue: real,
    minValue: real,
    maxValue: real,
    unit: string,
    setter: SetterId)

  /** std::find_if on the parameter names: the index of the first exact match. */
  function FindByName(ps: seq<Parameter>, name: string): (r: Option<nat>)
    ensures r.Some? ==> r.value < |ps| && ps[r.value].name == name
    ensures r.Some? ==> forall j :: 0 <= j < r.value ==> ps[j].name != name
    ensures r.None? <==> forall j :: 0 <= j < |ps| ==> ps[j].name != name
  {
    if ps == [] then None
    else if ps[0].name == name then Some(0)
    else match FindByName(ps[1..], name)
      case None => None
      case Some(k) => Some(k + 1)
  }

  /** The list after setParameter(index, value): the addressed parameter's currentValue becomes
      the value clamped to that parameter's [minValue, maxValue]; nothing else changes. */
  function Assigned(ps: seq<Parameter>, index: nat, value: real): (ps': seq<Parameter>)
    requires index < |ps|
    ensures |ps'| == |ps|
    ensures ps[index].minValue <= ps[index].maxValue ==>
      ps[index].minValue <= ps'[index].currentValue <= ps[index].maxValue
    ensures ps[index].minValue <= value <= ps[index].maxValue ==> ps'[index].currentValue == value
    ensures forall j :: 0 <= j < |ps| && j != index ==> ps'[j] == ps[j]
    ensures ps'[index] == ps[index].(currentValue := ps'[index].currentValue)
  {
    var p := ps[index];
    ps[index := p.(currentValue := Clamp(value, p.minValue, p.maxValue))]
  }

  /** Every parameter's current value lies within its bounds. */
  predicate InRange(ps: seq<Parameter>) {
    forall j :: 0 <= j < |ps| ==> ps[j].minValue <= ps[j].currentValue <= ps[j].maxValue
  }

  /** Setting a parameter keeps every current value within its bounds. */
  lemma AssignedInRange(ps: seq<Parameter>, index: nat, value: real)
    requires index < |ps| && InRange(ps)
    ensures InRange(Assigned(ps, index, value))
  {
  }

  /** Setting the same value twice is the same as setting it once. */
  lemma AssignedIdempotent(ps: seq<Parameter>, index: nat, value: real)
    requires index < |ps|
    ensures Assigned(Assigned(ps, index, value), index, value) == Assigned(ps, index, value)
  {
    var p := ps[index];
    var c := Clamp(value, p.minValue, p.maxValue);
    assert Clamp(c, p.minValue, p.maxValue) == c;
  }

  /** Two lists whose names agree position by position resolve every name alike. */
  lemma {:induction false} SameNamesSameLookup(ps: seq<Parameter>, qs: seq<Parameter>, name: string)
    requires |ps| == |qs| && forall j :: 0 <= j < |ps| ==> ps[j].name == qs[j].name
    ensures FindByName(ps, name) == FindByName(qs, name)
  {
    if ps != [] && ps[0].name != name {
      SameNamesSameLookup(ps[1..], qs[1..], name);
    }
  }

  /** Setting a value never changes which parameter a name refers to. */
  lemma AssignedKeepsLookup(ps: seq<Parameter>, index: nat, value: real, name: string)
    requires index < |ps|
    ensures FindByName(Assigned(ps, index, value), name) == FindByName(ps, name)
  {
    SameNamesSameLookup(Assigned(ps, index, value), ps, name);
  }

  class SoundPreset {
    const name: string
    const setup: SetupId
    var parameters: seq<Parameter>
    var currentSound: Sounds.Sound?

    constructor(name: string, setup: SetupId)
      ensures this.name == name && this.setup == setup
      ensures parameters == [] && currentSound == null
    {
      this.name := name;
      this.setup := setup;
      parameters := [];
      currentSound := null;
    }

    /** The implicit copy constructor used by SoundInterface::loadPreset. */
    constructor Copy(other: SoundPreset)
      ensures name == other.name && setup == other.setup
      ensures parameters == other.parameters && currentSound == other.currentSound
    {
      name := other.name;
      setup := other.setup;
      parameters := other.parameters;
      currentSound := other.currentSound;
    }

    /** Records the target sound and empties the parameter list, then invokes the setup
        function once with that sound (returned as `call`). */
    method SetupSound(sound: Sounds.Sound?) returns (call: SetupCall)
      modifies this
      ensures currentSound == sound && parameters == []
      ensures call == SetupCall(setup, sound)
    {
      currentSound := sound;
      parameters := [];
      call := SetupCall(setup, sound);
    }

    /** Appends one parameter with exactly the given fields. */
    method AddParameter(name: string, kind: ParameterType, current: real, minValue: real, maxValue: real,
                        unit: string, setter: SetterId)
      modifies this
      ensures parameters == old(parameters) + [Parameter(name, kind, current, minValue, maxValue, unit, setter)]
      ensures currentSound == old(currentSound)
    {
      var param := Parameter(name, kind, current, minValue, maxValue, unit, setter);
      parameters := parameters + [param];
    }

    /** On a valid index: clamp, store as currentValue, and call that parameter's setter exactly
        once with the stored value. Otherwise nothing changes and no setter is called. */
    method SetParameter(index: int, value: real) returns (call: Option<SetterCall>)
      modifies this
      ensures currentSound == old(currentSound)
      ensures !(0 <= index < |old(parameters)|) ==> parameters == old(parameters) && call == None
      ensures 0 <= index < |old(parameters)| ==>
        && parameters == Assigned(old(parameters), index, value)
        && call == Some(SetterCall(parameters[index].setter, parameters[index].currentValue))
    {
      call := None;
      if 0 <= index < |parameters| {
        var v := Clamp(value, parameters[index].minValue, parameters[index].maxValue);
        parameters := parameters[index := parameters[index].(currentValue := v)];
        call := Some(SetterCall(parameters[index].setter, v));
      }
    }

    /** Acts like SetParameter on the first parameter with exactly this name; an unknown name
        changes nothing and calls no setter. */
    method SetParameterByName(name: string, value: real) returns (call: Option<SetterCall>)
      modifies this
      ensures currentSound == old(currentSound)
      ensures FindByName(old(parameters), name).None? ==> parameters == old(parameters) && call == None
      ensures FindByName(old(parameters), name).Some? ==>
        var i := FindByName(old(parameters), name).value;
        && parameters == Assigned(old(parameters), i, value)
        && call == Some(SetterCall(parameters[i].setter, parameters[i].currentValue))
    {
      var found := FindByName(parameters, name);
      call := None;
      if found.Some? {
        call := SetParameter(found.value, value);
      }
    }
  }
}
