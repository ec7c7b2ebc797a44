/** SoundInterface: a list of SoundPresets addressed by index or by name, and one current preset
    that is a private copy of the preset last loaded. Loading an index out of range or an
    unknown name changes nothing; parameter changes are forwarded to the current preset and
    ignored while there is none. */
module Interface {
  import opened Common
  import opened Presets
  import Sounds

  /** The setup every preset registered here receives: registerPreset wraps the caller's setup
      function in a lambda that does nothing, so the caller's function is never called. */
  const EmptySetup: SetupId := 0

  /** The names of a preset list, in order. */
  function PresetNames(ps: seq<SoundPreset>): (names: seq<string>)
    ensures |names| == |ps|
    ensures forall i :: 0 <= i < |ps| ==> names[i] == ps[i].name
  {
    if ps == [] then [] else PresetNames(ps[..|ps| - 1]) + [ps[|ps| - 1].name]
  }

  /** The index of the first preset with exactly this name, if any. */
  function FirstNamed(ps: seq<SoundPreset>, name: string): (r: Option<nat>)
    ensures r.Some? ==> r.value < |ps| && ps[r.value].name == name
    ensures r.Some? ==> forall j :: 0 <= j < r.value ==> ps[j].name != name
    ensures r.None? <==> forall j :: 0 <= j < |ps| ==> ps[j].name != name
  {
    if ps == [] then None
    else if ps[0].name == name then Some(0)
    else match FirstNamed(ps[1..], name)
      case None => None
      case Some(k) => Some(k + 1)
  }

  /** Registering one more preset adds its name at the end and keeps every earlier lookup. */
  lemma {:induction false} RegisteredNameFound(ps: seq<SoundPreset>, p: SoundPreset, name: string)
    ensures PresetNames(ps + [p]) == PresetNames(ps) + [p.name]
    ensures FirstNamed(ps, name).Some? ==> FirstNamed(ps + [p], name) == FirstNamed(ps, name)
    ensures FirstNamed(ps, name).None? && p.name == name ==> FirstNamed(ps + [p], name) == Some(|ps|)
  {
    assert (ps + [p])[..|ps|] == ps;
    if FirstNamed(ps, name).Some? {
      var k := FirstNamed(ps, name).value;
      var r := FirstNamed(ps + [p], name);
      assert (ps + [p])[k] == ps[k];
      assert r.Some? && r.value <= k;
      assert r.value < |ps| ==> (ps + [p])[r.value] == ps[r.value];
    } else if p.name == name {
      var r := FirstNamed(ps + [p], name);
      assert (ps + [p])[|ps|].name == name;
      assert forall j :: 0 <= j < |ps| ==> (ps + [p])[j] == ps[j];
    }
  }

  class SoundInterface {
    const sound: Sounds.Sound?
    var presets: seq<SoundPreset>
    var currentPreset: SoundPreset?
    var currentPresetIndex: int

    /** currentPresetIndex is -1 exactly while no preset is loaded; otherwise it is a valid
        index and the current preset is a separate copy with that preset's name and setup. */
    ghost predicate Valid()
      reads this, currentPreset
    {
      && (currentPreset == null <==> currentPresetIndex == -1)
      && (currentPreset != null ==>
            && 0 <= currentPresetIndex < |presets|
            && currentPreset !in presets
            && currentPreset.name == presets[currentPresetIndex].name
            && currentPreset.setup == presets[currentPresetIndex].setup)
    }

    /** A new interface has no presets, no current preset and index -1. */
    constructor(sound: Sounds.Sound?)
      ensures Valid() && this.sound == sound
      ensures presets == [] && currentPreset == null && currentPresetIndex == -1
    {
      this.sound := sound;
      presets := [];
      currentPreset := null;
      currentPresetIndex := -1;
    }

    /** A new preset with the given name goes at the end; it gets EmptySetup whatever
        setupFunction is. */
    method RegisterPreset(name: string, setupFunction: SetupId)
      requires Valid()
      modifies this
      ensures Valid()
      ensures |presets| == |old(presets)| + 1 && presets[..|old(presets)|] == old(presets)
      ensures var p := presets[|presets| - 1];
        fresh(p) && p.name == name && p.setup == EmptySetup && p.parameters == [] && p.currentSound == null
      ensures currentPreset == old(currentPreset) && currentPresetIndex == old(currentPresetIndex)
    {
      var preset := new SoundPreset(name, EmptySetup);
      presets := presets + [preset];
      assert presets[..|old(presets)|] == old(presets);
    }

    /** For a valid index: remember the index, make the current preset a fresh copy of that
        preset and run its setup on the sound (the setup call is returned). Otherwise nothing
        changes and no setup runs. */
    method LoadPreset(index: int) returns (call: Option<SetupCall>)
      requires Valid()
      modifies this
      ensures Valid() && presets == old(presets)
      ensures 0 <= index < |presets| ==>
        && currentPresetIndex == index
        && currentPreset != null && fresh(currentPreset)
        && currentPreset.name == presets[index].name && currentPreset.setup == presets[index].setup
        && currentPreset.currentSound == sound && currentPreset.parameters == []
        && call == Some(SetupCall(presets[index].setup, sound))
      ensures !(0 <= index < |presets|) ==>
        currentPreset == old(currentPreset) && currentPresetIndex == old(currentPresetIndex) && call == None
    {
      call := None;
      if 0 <= index < |presets| {
        currentPresetIndex := index;
        var copy := new SoundPreset.Copy(presets[index]);
        var c := copy.SetupSound(sound);
        currentPreset := copy;
        call := Some(c);
      }
    }

    /** Loads the first preset with exactly this name; an unknown name changes nothing. */
    method LoadPresetByName(name: string) returns (call: Option<SetupCall>)
      requires Valid()
      modifies this
      ensures Valid() && presets == old(presets)
      ensures FirstNamed(presets, name).Some? ==>
        var i := FirstNamed(presets, name).value;
        && currentPresetIndex == i
        && currentPreset != null && fresh(currentPreset)
        && currentPreset.name == name && currentPreset.setup == presets[i].setup
        && currentPreset.currentSound == sound && currentPreset.parameters == []
        && call == Some(SetupCall(presets[i].setup, sound))
      ensures FirstNamed(presets, name).None? ==>
        currentPreset == old(currentPreset) && currentPresetIndex == old(currentPresetIndex) && call == None
    {
      var i := 0;
      while i < |presets|
        invariant 0 <= i <= |presets|
        invariant forall j :: 0 <= j < i ==> presets[j].name != name
      {
        if presets[i].name == name {
          assert FirstNamed(presets, name) == Some(i);
          call := LoadPreset(i);
          return;
        }
        i := i + 1;
      }
      call := None;
    }

    /** Forwarded to the current preset's setParameter by index; without a current preset
        nothing changes and no setter runs. The preset list is never touched. */
    method SetParameter(index: int, value: real) returns (call: Option<SetterCall>)
      requires Valid()
      modifies currentPreset
      ensures Valid()
      ensures currentPreset == null ==> call == None
      ensures currentPreset != null ==>
        && currentPreset.currentSound == old(currentPreset.currentSound)
        && (0 <= index < |old(currentPreset.parameters)| ==>
              && currentPreset.parameters == Assigned(old(currentPreset.parameters), index, value)
              && call == Some(SetterCall(currentPreset.parameters[index].setter, currentPreset.parameters[index].currentValue)))
        && (!(0 <= index < |old(currentPreset.parameters)|) ==>
              currentPreset.parameters == old(currentPreset.parameters) && call == None)
    {
      call := None;
      if currentPreset != null {
        call := currentPreset.SetParameter(index, value);
      }
    }

    /** Forwarded to the current preset's setParameter by name. */
    method SetParameterByName(name: string, value: real) returns (call: Option<SetterCall>)
      requires Valid()
      modifies currentPreset
      ensures Valid()
      ensures currentPreset == null ==> call == None
      ensures currentPreset != null ==>
        var found := FindByName(old(currentPreset.parameters), name);
        && currentPreset.currentSound == old(currentPreset.currentSound)
        && (found.Some? ==>
              && currentPreset.parameters == Assigned(old(currentPreset.parameters), found.value, value)
              && call == Some(SetterCall(currentPreset.parameters[found.value].setter,
                                         currentPreset.parameters[found.value].currentValue)))
        && (found.None? ==> currentPreset.parameters == old(currentPreset.parameters) && call == None)
    {
      call := None;
      if currentPreset != null {
        call := currentPreset.SetParameterByName(name, value);
      }
    }

    /** One name per preset, in registration order. */
    method GetPresetNames() returns (names: seq<string>)
      ensures names == PresetNames(presets)
    {
      names := [];
      var i := 0;
      while i < |presets|
        invariant 0 <= i <= |presets|
        invariant names == PresetNames(presets[..i])
      {
        assert presets[..i + 1][..i] == presets[..i];
        names := names + [presets[i].name];
        i := i + 1;
      }
      assert presets[..i] == presets;
    }

    /** -1 exactly while no preset is loaded, otherwise a valid preset index. */
    function GetCurrentPresetIndex(): (r: int)
      reads this, currentPreset
      requires Valid()
      ensures r == -1 <==> currentPreset == null
      ensures r != -1 ==> 0 <= r < |presets| && presets[r].name == currentPreset.name
    {
      currentPresetIndex
    }
  }
}
