/** The ADSR envelope: a five-stage state machine with an integer sample counter per stage.
    Stage lengths are time * sampleRate samples (the times are taken as they are stored, with no
    conversion from milliseconds), sustain is kept in [0, 1], and the release stage scales the
    running gain by (1 - k/N) on every call. The four times live in cells because the preset code
    hands pointers to them to the live registry. */
module Envelopes {
  import opened Common
  import opened Cells

  datatype Stage = Idle | Attack | Decay | Sustain | Release

  /** The mutable part of an envelope: stage, last returned gain, samplesInStage (k) and
      stageSampleCount (n). */
  datatype EnvState = EnvState(stage: Stage, value: real, k: int, n: int)

  /** The four values the cells hold when a sample is computed. */
  datatype Times = Times(attack: real, decay: real, sustain: real, release: real)

  /** The counter discipline the code keeps: the counter is 0 in a stage without length,
      and otherwise strictly below the length. */
  predicate CounterInv(s: EnvState) {
    (s.n <= 0 ==> s.k == 0) && (s.n > 0 ==> 0 <= s.k < s.n)
  }

  /** The length in samples of a stage lasting the given time: time * sampleRate, truncated. */
  function StageSamples(time: real, sampleRate: real): int {
    Trunc(time * sampleRate)
  }

  /** stageSampleCount chosen by enterStage. */
  function StageLength(stage: Stage, t: Times, sampleRate: real): int
  {
    match stage
    case Attack => StageSamples(t.attack, sampleRate)
    case Decay => StageSamples(t.decay, sampleRate)
    case Sustain => 0
    case Release => StageSamples(t.release, sampleRate)
    case Idle => 0
  }

  /** enterStage: switch stage, restart the counter, and size the new stage. The gain is kept. */
  function Enter(s: EnvState, stage: Stage, t: Times, sampleRate: real): (r: EnvState)
    ensures r.stage == stage && r.value == s.value && r.k == 0
    ensures r.n == StageLength(stage, t, sampleRate)
    ensures CounterInv(r)
  {
    var n := StageLength(stage, t, sampleRate);
    EnvState(stage, s.value, 0, n)
  }

  /** After a sample has been produced: count it, and move on when the stage is used up. */
  function Count(s: EnvState, v: real, next: Stage, t: Times, sampleRate: real): EnvState {
    if s.k + 1 >= s.n then Enter(s.(value := v), next, t, sampleRate)
    else s.(value := v, k := s.k + 1)
  }

  /** k/N for a stage of N > 0 samples. */
  function Progress(k: int, n: int): (f: real)
    requires n > 0
    ensures 0 <= k < n ==> 0.0 <= f < 1.0
  {
    k as real / n as real
  }

  /** The decay gain after a fraction f of the stage: from 1 toward sustain. */
  function DecayGain(sustain: real, f: real): real {
    1.0 + (sustain - 1.0) * f
  }

  /** The release gain: the running gain times (1 - f). */
  function ReleaseGain(value: real, f: real): real {
    value * (1.0 - f)
  }

  /** The attack rule: the ramp k/N, or 1 at once for an empty stage; then on to Decay. */
  function AttackNext(s: EnvState, t: Times, sampleRate: real): (r: EnvState)
    requires s.stage == Attack
    ensures r.value == (if s.n > 0 then Progress(s.k, s.n) else 1.0)
    ensures r.stage == (if s.k + 1 >= s.n then Decay else Attack)
    ensures r.k == (if s.k + 1 >= s.n then 0 else s.k + 1)
    ensures CounterInv(s) ==> CounterInv(r) && 0.0 <= r.value <= 1.0
  {
    var v := if s.n > 0 then Progress(s.k, s.n) else 1.0;
    Count(s, v, Decay, t, sampleRate)
  }

  /** The decay rule: from 1 toward sustain, or sustain at once for an empty stage; then on to
      Sustain. */
  function DecayNext(s: EnvState, t: Times, sampleRate: real): (r: EnvState)
    requires s.stage == Decay
    ensures r.value == (if s.n > 0 then DecayGain(t.sustain, Progress(s.k, s.n)) else t.sustain)
    ensures r.stage == (if s.k + 1 >= s.n then Sustain else Decay)
    ensures r.k == (if s.k + 1 >= s.n then 0 else s.k + 1)
    ensures CounterInv(s) ==> CounterInv(r)
    ensures CounterInv(s) && 0.0 <= t.sustain <= 1.0 ==> t.sustain <= r.value <= 1.0
  {
    var v := if s.n > 0 then DecayGain(t.sustain, Progress(s.k, s.n)) else t.sustain;
    assert CounterInv(s) && 0.0 <= t.sustain <= 1.0 ==> t.sustain <= v <= 1.0 by {
      if CounterInv(s) && s.n > 0 && 0.0 <= t.sustain <= 1.0 {
        ScaleBelow(1.0 - t.sustain, Progress(s.k, s.n));
      }
    }
    Count(s, v, Sustain, t, sampleRate)
  }

  /** The release rule: the running gain times (1 - k/N), or 0 at once for an empty stage; then
      Idle. */
  function ReleaseNext(s: EnvState, t: Times, sampleRate: real): (r: EnvState)
    requires s.stage == Release
    ensures r.value == (if s.n > 0 then ReleaseGain(s.value, Progress(s.k, s.n)) else 0.0)
    ensures r.stage == (if s.k + 1 >= s.n then Idle else Release)
    ensures r.k == (if s.k + 1 >= s.n then 0 else s.k + 1)
    ensures CounterInv(s) ==> CounterInv(r)
    ensures CounterInv(s) && 0.0 <= s.value <= 1.0 ==> 0.0 <= r.value <= s.value
  {
    var v := if s.n > 0 then ReleaseGain(s.value, Progress(s.k, s.n)) else 0.0;
    assert CounterInv(s) && 0.0 <= s.value <= 1.0 ==> 0.0 <= v <= s.value by {
      if CounterInv(s) && s.n > 0 && 0.0 <= s.value <= 1.0 {
        ScaleBelow(s.value, 1.0 - Progress(s.k, s.n));
      }
    }
    Count(s, v, Idle, t, sampleRate)
  }

  /** nextSample: the new state; the gain returned is its value. */
  function Next(s: EnvState, t: Times, sampleRate: real): (r: EnvState)
    ensures s.stage == Idle ==> r == s.(value := 0.0)
    ensures s.stage == Sustain ==> r == s.(value := t.sustain)
    ensures CounterInv(s) && s.stage == Attack && s.n <= 0 ==> r.value == 1.0 && r.stage == Decay && r.k == 0
    ensures CounterInv(s) && s.stage == Decay && s.n <= 0 ==> r.value == t.sustain && r.stage == Sustain
    ensures CounterInv(s) && s.stage == Release && s.n <= 0 ==> r.value == 0.0 && r.stage == Idle
    ensures s.stage == Release && s.n > 0 && s.k == 0 ==> r.value == s.value
    ensures CounterInv(s) ==> CounterInv(r)
    ensures CounterInv(s) && 0.0 <= t.sustain <= 1.0 && 0.0 <= s.value <= 1.0 ==> 0.0 <= r.value <= 1.0
  {
    match s.stage
    case Idle => s.(value := 0.0)
    case Attack => AttackNext(s, t, sampleRate)
    case Decay => DecayNext(s, t, sampleRate)
    case Sustain => s.(value := t.sustain)
    case Release => ReleaseNext(s, t, sampleRate)
  }

  lemma ScaleBelow(a: real, f: real)
    requires 0.0 <= a && 0.0 <= f <= 1.0
    ensures 0.0 <= a * f <= a
  {
  }

  /** n successive calls of nextSample. */
  function Iterate(s: EnvState, t: Times, sampleRate: real, calls: nat): EnvState
  {
    if calls == 0 then s else Next(Iterate(s, t, sampleRate, calls - 1), t, sampleRate)
  }

  /** The attack ramp: after noteOn with an attack of N > 0 samples, call j (counting from 0)
      returns j/N for j < N, and the N-th call moves to Decay. */
  lemma {:induction false} AttackRamp(s: EnvState, t: Times, sampleRate: real, j: nat)
    requires s.stage == Attack && s.k == 0 && s.n > 0
    requires j < s.n
    ensures Iterate(s, t, sampleRate, j) == EnvState(Attack, Iterate(s, t, sampleRate, j).value, j, s.n)
    ensures Next(Iterate(s, t, sampleRate, j), t, sampleRate).value == Progress(j, s.n)
    ensures j + 1 == s.n ==> Iterate(s, t, sampleRate, j + 1).stage == Decay
  {
    if j > 0 {
      AttackRamp(s, t, sampleRate, j - 1);
    }
  }

  /** Release runs for N calls and then the envelope is Idle, so the next call returns exactly 0. */
  lemma {:induction false} ReleaseEnds(s: EnvState, t: Times, sampleRate: real, j: nat)
    requires s.stage == Release && s.k == 0 && s.n > 0
    requires j <= s.n
    ensures j < s.n ==> Iterate(s, t, sampleRate, j) == EnvState(Release, Iterate(s, t, sampleRate, j).value, j, s.n)
    ensures j == s.n ==> Iterate(s, t, sampleRate, j).stage == Idle
    ensures j == s.n ==> Next(Iterate(s, t, sampleRate, j), t, sampleRate).value == 0.0
  {
    if j > 0 {
      ReleaseEnds(s, t, sampleRate, j - 1);
    }
  }

  /** Decay runs from 1 toward sustain: call j of N returns 1 + (sustain - 1) * j/N, and the
      N-th call enters Sustain, which then returns sustain for ever. */
  lemma {:induction false} DecayRamp(s: EnvState, t: Times, sampleRate: real, j: nat)
    requires s.stage == Decay && s.k == 0 && s.n > 0
    requires j < s.n
    ensures Iterate(s, t, sampleRate, j) == EnvState(Decay, Iterate(s, t, sampleRate, j).value, j, s.n)
    ensures Next(Iterate(s, t, sampleRate, j), t, sampleRate).value == DecayGain(t.sustain, Progress(j, s.n))
    ensures j + 1 == s.n ==> Iterate(s, t, sampleRate, j + 1).stage == Sustain
  {
    if j > 0 {
      DecayRamp(s, t, sampleRate, j - 1);
    }
  }

  /** Once in Sustain the envelope stays there on its own, returning sustain on every call. */
  lemma {:induction false} SustainHolds(s: EnvState, t: Times, sampleRate: real, j: nat)
    requires s.stage == Sustain
    ensures Iterate(s, t, sampleRate, j).stage == Sustain
    ensures j > 0 ==> Iterate(s, t, sampleRate, j).value == t.sustain
  {
    if j > 0 {
      SustainHolds(s, t, sampleRate, j - 1);
    }
  }

  class Envelope {
    const sampleRate: real
    const attack: CellId
    const decay: CellId
    const sustain: CellId
    const release: CellId
    var state: Stage
    var currentValue: real
    var samplesInStage: int
    var stageSampleCount: int

    /** The four parameter cells are distinct. */
    predicate Cells() {
      attack != decay && attack != sustain && attack != release
      && decay != sustain && decay != release && sustain != release
    }

    ghost predicate Valid()
      reads this
    {
      Cells() && CounterInv(State())
    }

    function State(): EnvState
      reads this
    {
      EnvState(state, currentValue, samplesInStage, stageSampleCount)
    }

    function TimesIn(st: Store): Times {
      Times(st.Read(attack), st.Read(decay), st.Read(sustain), st.Read(release))
    }

    /** A new envelope is Idle with gain 0; its cells hold 0.01, 0.1, 0.7 and 0.2. */
    constructor(sampleRate: real, mem: Memory)
      requires mem.store.Valid()
      modifies mem
      ensures Valid() && this.sampleRate == sampleRate
      ensures State() == EnvState(Idle, 0.0, 0, 0)
      ensures TimesIn(mem.store) == Times(0.01, 0.1, 0.7, 0.2)
      ensures mem.store.Valid()
      ensures forall c :: c in old(mem.store.cells) ==> mem.store.Read(c) == old(mem.store).Read(c)
      ensures forall c :: c in old(mem.store.cells) ==> c != attack && c != decay && c != sustain && c != release
    {
      this.sampleRate := sampleRate;
      var a := mem.store.Alloc(0.01);
      var d := a.store.Alloc(0.1);
      var s := d.store.Alloc(0.7);
      var r := s.store.Alloc(0.2);
      attack := a.cell;
      decay := d.cell;
      sustain := s.cell;
      release := r.cell;
      mem.store := r.store;
      state := Idle;
      currentValue := 0.0;
      samplesInStage := 0;
      stageSampleCount := 0;
    }

    /** Attack, decay and release are stored as at least 0.001; sustain is clamped to [0, 1].
        No other cell changes. */
    method SetADSR(a: real, d: real, s: real, r: real, mem: Memory)
      requires Valid()
      modifies mem
      ensures TimesIn(mem.store) == Times(Max(0.001, a), Max(0.001, d), Clamp(s, 0.0, 1.0), Max(0.001, r))
      ensures forall c :: c != attack && c != decay && c != sustain && c != release ==>
        mem.store.Read(c) == old(mem.store).Read(c)
      ensures old(mem.store).Valid() ==> mem.store.Valid()
    {
      mem.store := mem.store.Write(attack, Max(0.001, a));
      mem.store := mem.store.Write(decay, Max(0.001, d));
      mem.store := mem.store.Write(sustain, Clamp(s, 0.0, 1.0));
      mem.store := mem.store.Write(release, Max(0.001, r));
    }

    method EnterStage(stage: Stage, mem: Memory)
      modifies this
      ensures State() == Enter(old(State()), stage, TimesIn(mem.store), sampleRate)
    {
      state := stage;
      samplesInStage := 0;
      match stage {
        case Attack => stageSampleCount := StageSamples(mem.store.Read(attack), sampleRate);
        case Decay => stageSampleCount := StageSamples(mem.store.Read(decay), sampleRate);
        case Sustain => stageSampleCount := 0;
        case Release => stageSampleCount := StageSamples(mem.store.Read(release), sampleRate);
        case Idle => stageSampleCount := 0;
      }
    }

    method NoteOn(mem: Memory)
      requires Valid()
      modifies this
      ensures Valid()
      ensures State() == Enter(old(State()), Attack, TimesIn(mem.store), sampleRate)
    {
      EnterStage(Attack, mem);
    }

    method NoteOff(mem: Memory)
      requires Valid()
      modifies this
      ensures Valid()
      ensures State() == Enter(old(State()), Release, TimesIn(mem.store), sampleRate)
    {
      EnterStage(Release, mem);
    }

    method NextSample(mem: Memory) returns (gain: real)
      requires Valid()
      modifies this
      ensures Valid()
      ensures State() == Next(old(State()), TimesIn(mem.store), sampleRate)
      ensures gain == currentValue
    {
      match state {
      case Idle =>
        currentValue := 0.0;
      case Attack =>
        if stageSampleCount > 0 {
          currentValue := Progress(samplesInStage, stageSampleCount);
        } else {
          currentValue := 1.0;
        }
        samplesInStage := samplesInStage + 1;
        if samplesInStage >= stageSampleCount {
          EnterStage(Decay, mem);
        }
      case Decay =>
        if stageSampleCount > 0 {
          currentValue := DecayGain(mem.store.Read(sustain), Progress(samplesInStage, stageSampleCount));
        } else {
          currentValue := mem.store.Read(sustain);
        }
        samplesInStage := samplesInStage + 1;
        if samplesInStage >= stageSampleCount {
          EnterStage(Sustain, mem);
        }
      case Sustain =>
        currentValue := mem.store.Read(sustain);
      case Release =>
        if stageSampleCount > 0 {
          currentValue := ReleaseGain(currentValue, Progress(samplesInStage, stageSampleCount));
        } else {
          currentValue := 0.0;
        }
        samplesInStage := samplesInStage + 1;
        if samplesInStage >= stageSampleCount {
          EnterStage(Idle, mem);
        }
      }
      gain := currentValue;
    }

    function IsActive(): (active: bool)
      reads this
      ensures active <==> State().stage != Idle
    {
      state != Idle
    }
  }
}
