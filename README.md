# Verified model of the qt_project synthesis engine

This project is a Dafny model of the deterministic core of the qt_project software synthesizer. That core is:

- the live parameter registry (`LiveController`) and the per-preset parameter table (`SoundPreset`);
- the ADSR `Envelope`;
- the oscillator family: saw, sine, FM (carrier and modulator) and additive;
- the biquad band-pass and low-pass filters;
- the `Sound` graph, which mixes oscillators, runs filters, applies an envelope and scales by master volume;
- the preset registries `SoundInterface` and `PresetManager`, with the five built-in presets.

How the C++ maps to the model:

- **Aliased cells.** A registry entry holds a non-owning `double*` into a field of a node, filter, envelope or sound. The model gives each such field a `CellId` in a value `Store` (a map from ids to reals plus an allocation counter). A `Memory` object holds the store. So "setting an entry changes exactly the cell it aliases" is a statable fact (`cells.dfy`).
- **Objects updated in place.** `LiveController`, `Envelope`, `Filter` (band-pass and low-pass, one class tagged by kind), `Sound`, `SoundPreset`, `SoundInterface` and `PresetManager` are classes. Their fields are updated by methods with `modifies` clauses. Each method's contract ties the new state to specification functions, and lemmas prove properties of those functions.
- **Oscillators.** The oscillator hierarchy is a recursive datatype `Node` with the variants `Saw`, `Sine`, `FM`, `Additive` and `Filtered`. `Filtered` is the wrapper oscillator that the triple band-pass preset defines locally. Stepping is a pure function that threads the store, and registration is a pure function that yields the new registry entries. The FM step keeps the source's distinction between a sine carrier, whose phase increment is overridden, and any other carrier, whose frequency is temporarily rewritten and then restored.
- **Sample arithmetic.** Samples are `real`s. `sin`, `cos` and `M_PI` are a `Trig` parameter. Its only assumptions are `pi > 0` and that `sin` is positive on (0, pi).
- **Sample rates.** Node and filter sample rates have the type `Rate` (a positive real).
- **Integer casts.** `static_cast<int>` of a stage length is truncation toward zero (`Common.Trunc`). For the non-negative lengths that occur, this equals the floor.

The model follows the code where the code and its comments disagree:

- Envelope stage lengths are time × sample rate, with no millisecond conversion.
- `setADSR` clamps sustain to [0, 1]. The simple sine preset's sustain of 70 therefore becomes 1.0.
- The registry ranges for "Sustain" and "Master Volume" are [0, 100], although the setters clamp to [0, 1].
- `setupTripleBandpassAdditive` is modelled although `presets/PresetManager.h` does not declare it.

## Model

| member | source | states |
|---|---|---|
| Common.Clamp | interface/LiveController.cpp:45-48 | the clamp used by every setter returns a value within [lo, hi] when lo <= hi: exactly lo at or below lo, exactly hi at or above hi, and the input itself when it already lies in range |
| Common.Trunc | envelopes/Envelope.cpp:27-30 | static_cast<int> truncates toward zero: for a non-negative input it is the largest integer not above it |
| Common.NatToString | synthesizers/AdditiveSynthesizer.cpp:53 | std::to_string of a non-negative integer yields a non-empty string of decimal digits, a single digit below ten |
| Cells.Store.Write | interface/LiveController.cpp:38 | an assignment through a registry pointer changes exactly the addressed cell and keeps every allocated cell allocated |
| Cells.Store.Alloc | envelopes/Envelope.cpp:4-6 | a field of a newly built object is a fresh cell, distinct from every cell in use, holding its initial value; no other cell changes |
| Live.Names | interface/LiveController.h:41 | the names of the registry's entries, one per entry, in registration order |
| Live.NamesAppend | interface/LiveController.cpp:9-12 | appending entries appends their names (so registration order is display order) |
| Live.Adjust | interface/LiveController.cpp:18-48 | increase, decrease and set write the clamped requested value to the entry's cell and change no other cell; an index outside the list changes nothing; with ordered bounds the stored value lies within them |
| Live.SetOutsideBounds | interface/LiveController.cpp:36-48 | setting a value below the minimum stores exactly the minimum, and above the maximum exactly the maximum |
| Live.SaturatedAdjustmentIsIdentity | interface/LiveController.cpp:18-34 | increasing a parameter at its maximum, or decreasing one at its minimum, leaves memory exactly as it was |
| Live.LiveController.constructor | interface/LiveController.cpp:6-7 | a new registry holds no entries |
| Live.LiveController.ParameterCount | interface/LiveController.h:37 | getParameterCount is the number of registered entries |
| Live.LiveController.AddParameter | interface/LiveController.cpp:9-12 | one entry with the given name, alias, bounds and step (0.1 by default) is appended at the end |
| Live.LiveController.ClearParameters | interface/LiveController.cpp:14-16 | the registry becomes empty |
| Live.LiveController.AttachHook | presets/PresetManager.cpp:91-95 | recording a callback on an existing entry changes only that entry's callback; a bad index changes nothing |
| Live.LiveController.IncreaseParameter | interface/LiveController.cpp:18-25 | memory afterwards is Adjust with Increase: the cell grows by the step and is clamped; a bad index is a no-op |
| Live.LiveController.DecreaseParameter | interface/LiveController.cpp:27-34 | memory afterwards is Adjust with Decrease: the cell shrinks by the step and is clamped; a bad index is a no-op |
| Live.LiveController.SetParameter | interface/LiveController.cpp:36-43 | memory afterwards is Adjust with the new value: the cell holds the value clamped into the entry's bounds; a bad index is a no-op |
| Live.LiveController.ClampValue | interface/LiveController.cpp:45-48 | the entry's cell is rewritten clamped into its bounds and nothing else changes |
| Envelopes.Enter | envelopes/Envelope.cpp:23-33 | entering a stage restarts the counter and sizes attack, decay and release as time * sampleRate samples (truncated), sustain and idle as 0; the gain is kept and the counter discipline holds |
| Envelopes.Progress | envelopes/Envelope.cpp:42 | the fraction k/N of a stage lies in [0, 1) while the counter is inside the stage |
| Envelopes.AttackNext | envelopes/Envelope.cpp:40-47 | attack returns k/N (1 for an empty stage), moves to Decay once N samples are counted, and stays within [0, 1] |
| Envelopes.DecayNext | envelopes/Envelope.cpp:48-55 | decay moves from 1 toward sustain (sustain at once for an empty stage), enters Sustain when the stage is used up, and never leaves [sustain, 1] |
| Envelopes.ReleaseNext | envelopes/Envelope.cpp:59-66 | release scales the running gain by (1 - k/N) (0 at once for an empty stage), never increases it, and ends in Idle |
| Envelopes.Next | envelopes/Envelope.cpp:35-69 | idle returns 0, sustain returns the sustain level, empty stages jump to their successor, the counter discipline is preserved and the gain stays in [0, 1] |
| Envelopes.AttackRamp | envelopes/Envelope.cpp:40-47 | after noteOn with an N-sample attack, call j returns j/N and the N-th call enters Decay |
| Envelopes.DecayRamp | envelopes/Envelope.cpp:48-55 | call j of an N-sample decay returns 1 + (sustain - 1) * j/N and the N-th call enters Sustain |
| Envelopes.SustainHolds | envelopes/Envelope.cpp:56-58 | once in Sustain the envelope stays there and returns the sustain level on every call |
| Envelopes.ReleaseEnds | envelopes/Envelope.cpp:59-66 | an N-sample release ends in Idle after N calls, and the next call returns exactly 0 |
| Envelopes.Envelope.constructor | envelopes/Envelope.cpp:4-6 | a new envelope is Idle with gain 0 and counters 0, its four fresh cells holding 0.01, 0.1, 0.7 and 0.2 |
| Envelopes.Envelope.SetADSR | envelopes/Envelope.cpp:8-13 | attack, decay and release are stored as at least 0.001 and sustain clamped to [0, 1]; no other cell changes |
| Envelopes.Envelope.EnterStage | envelopes/Envelope.cpp:23-33 | the state becomes Enter of the old state with the times currently in the cells |
| Envelopes.Envelope.NoteOn | envelopes/Envelope.cpp:15-17 | the envelope enters Attack |
| Envelopes.Envelope.NoteOff | envelopes/Envelope.cpp:19-21 | the envelope enters Release |
| Envelopes.Envelope.NextSample | envelopes/Envelope.cpp:35-69 | the new state is Next of the old one and the returned gain is the stored current value |
| Envelopes.Envelope.IsActive | envelopes/Envelope.cpp:76-78 | the envelope is active exactly when it is not Idle |
| Filters.Process | filters/BandPassFilter.cpp:16-27 | one output of the direct-form-I difference equation; the delay line shifts in the input and the output, the coefficients stay; zero input into an empty delay line gives zero and leaves it empty |
| Filters.RunAll | core/Filter.cpp:7-11 | processing a signal in order yields one output per input and keeps the coefficients |
| Filters.ProcessAdditive | filters/BandPassFilter.cpp:16-27 | one filter step is additive in delay line and input |
| Filters.Superposition | core/Filter.cpp:7-11 | a whole run on the sum of two signals from the sum of two delay lines is the sum of the two runs (the filter is linear) |
| Filters.ProcessHomogeneous | filters/LowPassFilter.cpp:16-23 | one filter step scales with its delay line and input |
| Filters.Homogeneity | core/Filter.cpp:7-11 | scaling the input signal and the delay line scales every output and the final delay line; with factor 0 a silent filter stays silent |
| Filters.BandPassQ | filters/BandPassFilter.cpp:42-45 | the band-pass Q (target / bandwidth) is limited to [0.1, 30] |
| Filters.BandPassCoefficients | filters/BandPassFilter.cpp:39-63 | the band-pass feed-forward coefficients are b0, 0 and -b0, so they sum to 0 |
| Filters.LowPassCoefficients | filters/LowPassFilter.cpp:35-49 | the low-pass feed-forward coefficients are b0, 2 b0 and b0 |
| Filters.InRangeFrequency | filters/BandPassFilter.cpp:29-32 | a frequency the setters can store (1 Hz to 0.45 of the rate) has a normalised angular frequency strictly between 0 and pi, hence a positive sine |
| Filters.BandPassNormalised | filters/BandPassFilter.cpp:39-63 | for an in-range target, alpha is positive and the normaliser exceeds 1; b0 lies in (0, 1) and a2 == 1 - 2 b0 |
| Filters.LowPassUnitDcGain | filters/LowPassFilter.cpp:35-49 | for an in-range cutoff and positive Q the normaliser exceeds 1 and the filter has unit gain at DC: b0 + b1 + b2 == 1 + a1 + a2 |
| Filters.CoefficientsFor | filters/LowPassFilter.cpp:35-49 | updateCoefficients of either kind computed from the parameter values currently in the cells |
| Filters.FilterEntries | filters/BandPassFilter.cpp:73-89 | a filter registers exactly two entries, named prefix + " Target Freq" / " Bandwidth" (band-pass) or " Cutoff Freq" / " Resonance" (low-pass), aliasing its own parameter cells, each with a setter callback |
| Filters.AddParameterWithPrefix | core/Filter.cpp:21-33 | one entry named prefix + " " + name is appended, with the callback attached |
| Filters.Filter.TypeName | filters/BandPassFilter.h:22 | the type name is "BandPass" or "LowPass" by kind |
| Filters.Filter.BandPassFilter | filters/BandPassFilter.cpp:7-14 | a new band-pass filter has target 1000 Hz and bandwidth 200 Hz in fresh cells, an empty delay line, and the coefficients derived from them; no existing cell changes |
| Filters.Filter.LowPassFilter | filters/LowPassFilter.cpp:8-14 | a new low-pass filter has cutoff 1000 Hz and resonance 0.7071 in fresh cells, an empty delay line, and the coefficients derived from them; no existing cell changes |
| Filters.Filter.ProcessSample | filters/BandPassFilter.cpp:16-27 | the output and new delay line are those of Process on the old filter state |
| Filters.Filter.ProcessBuffer | core/Filter.cpp:7-11 | the first numSamples entries become the filter's outputs for the old entries, in order; the rest of the buffer is untouched; the filter ends in RunAll's final state |
| Filters.Filter.SetSampleRate | core/Filter.cpp:13-15 | the rate is stored; coefficients and delay line are not re-derived |
| Filters.Filter.Reset | filters/BandPassFilter.cpp:65-67 | the delay line is zeroed; the coefficients stay |
| Filters.Filter.UpdateCoefficients | filters/BandPassFilter.cpp:39-63 | the coefficients become those of the current parameter values; the delay line stays |
| Filters.Filter.SetTargetFrequency | filters/BandPassFilter.cpp:29-32 | the target cell holds the frequency clamped to [1, 0.45 fs], nothing else in memory changes, and the coefficients are re-derived |
| Filters.Filter.SetBandwidth | filters/BandPassFilter.cpp:34-37 | the bandwidth cell holds the value clamped to [1, 0.4 fs], nothing else in memory changes, and the coefficients are re-derived |
| Filters.Filter.SetCutoffFrequency | filters/LowPassFilter.cpp:25-28 | the cutoff cell holds the frequency clamped to [1, 0.45 fs], nothing else in memory changes, and the coefficients are re-derived |
| Filters.Filter.SetResonance | filters/LowPassFilter.cpp:30-33 | the resonance cell holds q clamped to [0.1, 10], nothing else in memory changes, and the coefficients are re-derived |
| Filters.Filter.RegisterParametersWithPrefix | filters/BandPassFilter.cpp:73-89 | the registry gains exactly the filter's two entries under the prefix |
| Filters.Filter.RegisterParameters | filters/LowPassFilter.cpp:55-57 | the registry gains the filter's two entries under its type name |
| Filters.Filter.AddParameter | core/Filter.cpp:35-47 | one entry named type name + " " + name is appended, with the callback attached |
| Oscillators.WithCore | core/Oscillator.h:56-60 | replacing the base-class fields keeps the node's kind and its sub-tree |
| Oscillators.Size | synthesizers/FMSynthesizer.cpp:38-52 | every node counts at least one, and a missing FM child counts as the sine that ensureOscillatorsExist would create |
| Oscillators.NewCore | core/Oscillator.cpp:4-5 | the base-class constructor: a fresh frequency cell holding 440, amplitude 0.5, phase 0, not a component; existing cells keep their values |
| Oscillators.NewSaw | oscillators/SawOscillator.cpp:6-9 | a new saw has the base defaults with amplitude 1.0 and no phase-increment override |
| Oscillators.NewSine | oscillators/SineOscillator.cpp:6-9 | a new sine has the base defaults with amplitude 1.0 and no phase-increment override |
| Oscillators.NewFM | synthesizers/FMSynthesizer.cpp:7-18 | a new FM node has depth 100 in a fresh cell distinct from its frequency cell, cached carrier 440 Hz and modulator 880 Hz, amplitude 1, and no children |
| Oscillators.NewAdditive | synthesizers/AdditiveSynthesizer.cpp:6-7 | a new additive node has no children and its own output amplitude 1.0 in a fresh cell, while the base amplitude keeps 0.5 |
| Oscillators.NewFiltered | presets/PresetManager.cpp:167-218 | the filtered-saw wrapper owns its saw and band-pass filter and carries base-class defaults |
| Oscillators.SetAmplitude | core/Oscillator.cpp:11-13 | the stored amplitude is the input clamped into [0, 1]: 0 below, 1 above, unchanged inside; nothing else about the node changes |
| Oscillators.SetSampleRate | core/Oscillator.cpp:15-17 | the rate is stored unchanged and nothing else changes |
| Oscillators.SetUsedAsComponent | core/Oscillator.h:50-51 | the component flag reads back as the value set (true by default); nothing else changes |
| Oscillators.SetFrequency | synthesizers/FMSynthesizer.cpp:91-94 | a plain node writes its own frequency cell; an FM node only caches the value and forwards it to its carrier, if any, keeping the node's shape |
| Oscillators.SetCarrierFrequency | synthesizers/FMSynthesizer.cpp:96-106 | the cached carrier frequency is updated and, when there is a carrier, passed to the carrier's own setFrequency; with no carrier memory is unchanged |
| Oscillators.SetModulatorFrequency | synthesizers/FMSynthesizer.cpp:108-113 | the cached modulator frequency is updated and a plain modulator's frequency cell receives it; with no modulator memory is unchanged |
| Oscillators.SetModulationDepth | synthesizers/FMSynthesizer.cpp:115-117 | the depth cell holds max(0, depth), so it is never negative, and no other cell changes |
| Oscillators.SetModulatorAmplitude | synthesizers/FMSynthesizer.cpp:119-123 | the modulator, if any, gets the clamping setAmplitude; with no modulator nothing changes |
| Oscillators.Adopt | synthesizers/FMSynthesizer.cpp:20-36 | an injected child receives the cached frequency through its own setFrequency, amplitude 1 and the component flag, and keeps its kind and sub-tree |
| Oscillators.SetCarrierOscillator | synthesizers/FMSynthesizer.cpp:20-27 | the carrier is replaced; a real child is adopted with the cached carrier frequency, a missing one leaves memory alone |
| Oscillators.SetModulatorOscillator | synthesizers/FMSynthesizer.cpp:29-36 | the modulator is replaced; a real child is adopted with the cached modulator frequency, a missing one leaves memory alone |
| Oscillators.NewDefaultChild | synthesizers/FMSynthesizer.cpp:39-44 | the default child is a component sine at the FM node's rate, amplitude 1, holding the cached frequency in a fresh cell |
| Oscillators.EnsureChildren | synthesizers/FMSynthesizer.cpp:38-52 | afterwards both children exist; existing children are kept as they are, and each missing one becomes a default sine with the cached frequency in its own fresh cell; existing cells keep their values |
| Oscillators.AddOscillator | synthesizers/AdditiveSynthesizer.cpp:9-15 | a missing child is ignored; otherwise the child goes at the end with amplitude 1 and marked as a component, and the other children are untouched |
| Oscillators.ClearOscillators | synthesizers/AdditiveSynthesizer.cpp:17-19 | the additive node has no children left |
| Oscillators.OscillatorCount | synthesizers/AdditiveSynthesizer.cpp:21-23 | the count is the number of children |
| Oscillators.Wrap | oscillators/SawOscillator.cpp:22-23 | the phase wraps by a single subtraction of 1 at or above 1; a phase in [0, 2) ends in [0, 1) |
| Oscillators.Advance | oscillators/SineOscillator.cpp:14-22 | only the phase moves: by the increment (the override when it is on, frequency / rate otherwise), less 1 when it wraps; a phase in [0, 1) moved by an increment in [0, 1) stays in [0, 1) |
| Oscillators.Step | oscillators/SawOscillator.cpp:11-26 | a saw returns the ramp at the old phase and advances, a sine returns the sine at the old phase and advances, composites keep their base fields; memory stays consistent |
| Oscillators.StepFM | synthesizers/FMSynthesizer.cpp:54-89 | the FM step creates any missing child and keeps every other FM field; with both children present it steps the modulator first and then drives the carrier with offset = modulator sample × depth, a sine carrier through DriveSineCarrier and any other through DriveCarrier; the carrier keeps its kind and frequency cell; memory stays consistent |
| Oscillators.DriveSineCarrier | synthesizers/FMSynthesizer.cpp:68-80 | a sine carrier runs one sample on the increment (carrier frequency + offset) / FM rate, returns its sample times the FM amplitude, and drops the override |
| Oscillators.DriveCarrier | synthesizers/FMSynthesizer.cpp:81-88 | a plain carrier runs one sample with its frequency cell at getFrequency() + offset; the output is that sample times the FM amplitude, the carrier is the node the run left, and the store is the run's with the cell set back to the value read before; for a nested FM carrier, its own carrier's cell ends at the nested node's base frequency; every other FM field is kept |
| Oscillators.StepAdditive | synthesizers/AdditiveSynthesizer.cpp:25-35 | no children yields 0 and changes nothing; otherwise every child runs once, in order, and the output is their mean times the output amplitude |
| Oscillators.StepAll | synthesizers/AdditiveSynthesizer.cpp:28-33 | each node runs once in order, one sample and one new node per input node, threading memory |
| OscillatorFacts.Run | core/Oscillator.h:36 | k successive nextSample calls produce exactly k samples |
| OscillatorFacts.PhaseStaysInUnitInterval | oscillators/SawOscillator.cpp:11-26 | a saw or sine starting in [0, 1) with an increment in [0, 1) keeps its phase in [0, 1) for ever; memory and every other field stay as they were |
| OscillatorFacts.DriftIsLinear | oscillators/SineOscillator.cpp:14-22 | k unwrapped increments of d move the phase by exactly k * d |
| OscillatorFacts.NegativeIncrementDrifts | oscillators/SawOscillator.cpp:16-23 | with a negative increment the phase is never corrected upwards: it drifts below its start by one increment per sample |
| OscillatorFacts.SawSampleBounds | oscillators/SawOscillator.cpp:13 | a saw sample at a phase in [0, 1) lies within [-amplitude, amplitude], strictly below +amplitude when the amplitude is positive |
| OscillatorFacts.SawOutputBounded | oscillators/SawOscillator.cpp:11-26 | every sample of a saw in its normal operating range lies within [-amplitude, amplitude], strictly below +amplitude when the amplitude is positive |
| OscillatorFacts.FMWithoutModulationPlaysTheCarrier | synthesizers/FMSynthesizer.cpp:54-80 | at modulation depth 0 an FM node with a plain sine carrier plays exactly that sine times its amplitude, for any modulator whose step leaves the depth and the carrier's frequency alone; the carrier advances as on its own and is left without an override |
| OscillatorFacts.CarrierFrequencyRestored | synthesizers/FMSynthesizer.cpp:65-88 | after one FM step a plain carrier's frequency cell holds the value it had before, on either branch, provided the modulator's step leaves that cell alone |
| OscillatorFacts.NestedCarrierRestoredFromBaseField | synthesizers/FMSynthesizer.cpp:83-86 | with a nested FM carrier, setting the frequency back writes the nested node's own base frequency, which its setFrequency never updates, into the nested carrier's frequency cell |
| OscillatorFacts.CarrierLeaf | synthesizers/FMSynthesizer.cpp:91-106 | the node reached by following carriers is never an FM node |
| OscillatorFacts.SetFrequencyReachesCarrierLeaf | synthesizers/FMSynthesizer.cpp:91-106 | setFrequency on an FM node reaches through nested FM carriers and writes the innermost plain oscillator's frequency |
| OscillatorFacts.SumBounds | synthesizers/AdditiveSynthesizer.cpp:28-33 | a sum of n samples in [-1, 1] lies in [-n, n] |
| OscillatorFacts.MixBounded | synthesizers/AdditiveSynthesizer.cpp:34-35 | the additive mean of samples in [-1, 1] times an amplitude in [0, 1] stays in [-1, 1], so dividing by the child count prevents clipping |
| OscillatorFacts.StepAllSaws | synthesizers/AdditiveSynthesizer.cpp:28-33 | stepping saws in range in turn leaves memory alone and yields samples in [-1, 1] |
| OscillatorFacts.AdditiveOfSawsBounded | synthesizers/AdditiveSynthesizer.cpp:25-35 | an additive node over saws in range with output amplitude in [0, 1] produces samples in [-1, 1] |
| OscillatorRegistration.NestedNamespace | synthesizers/FMSynthesizer.cpp:139-158 | an entry registered under a nested prefix (" Carrier", " Modulator", " Osc i") is also under the outer prefix |
| OscillatorRegistration.EntryNamespaced | core/Oscillator.cpp:31-37 | an entry added with a prefix is named prefix + " " + name, so it lies under that prefix |
| OscillatorRegistration.ChildPrefixNested | synthesizers/AdditiveSynthesizer.cpp:52-55 | an entry under an additive child's prefix lies under the additive node's prefix |
| OscillatorRegistration.Register | oscillators/SawOscillator.cpp:32-44 | a saw or sine registers exactly its frequency (range 1 to 2000, step 20) under the prefix, even as a component, leaving node and memory alone; a filtered saw registers nothing; composites keep their base fields |
| OscillatorRegistration.RegisterFM | synthesizers/FMSynthesizer.cpp:125-160 | the FM registration starts with " Mod Depth" (0 to 1000, step 20) and creates any missing children first |
| OscillatorRegistration.RegisterAdditive | synthesizers/AdditiveSynthesizer.cpp:41-56 | the additive registration starts with " Amplitude" (0 to 1, step 1) aliasing the output amplitude, then registers the children |
| OscillatorRegistration.RegisterChildren | synthesizers/AdditiveSynthesizer.cpp:51-55 | the children register in order, one node back per child |
| OscillatorRegistration.RegisterChildrenSnoc | synthesizers/AdditiveSynthesizer.cpp:52-55 | registering one more child extends the registration of the earlier ones by that child's entries under " Osc i+1" |
| OscillatorRegistration.RegisterParameters | synthesizers/FMSynthesizer.cpp:162-164 | registerParameters registers under the node's type name; every entry lies under that name, has no callback and has ordered bounds |
| OscillatorRegistration.RegisterWellFormed | synthesizers/FMSynthesizer.cpp:125-160 | every entry a node registers lies under the prefix it was given, has no callback and has ordered bounds |
| OscillatorRegistration.RegisterChildrenWellFormed | synthesizers/AdditiveSynthesizer.cpp:51-55 | every entry the children of an additive node register lies under the node's prefix, with no callback and ordered bounds |
| OscillatorRegistration.RegisterCount | synthesizers/FMSynthesizer.cpp:125-160 | a node registers exactly EntryCount entries: one per saw or sine, one per FM node (missing children counting as default sines) and per additive node plus their children, none for a filtered saw |
| OscillatorRegistration.RegisterChildrenCount | synthesizers/AdditiveSynthesizer.cpp:51-55 | the children of an additive node register the sum of their entry counts |
| OscillatorRegistration.ComponentFlagIgnored | oscillators/SineOscillator.cpp:31-43 | the component flag does not change what a node registers: the overrides register regardless of it |
| OscillatorRegistration.AddParameterWithPrefix | core/Oscillator.cpp:31-37 | one entry named prefix + " " + name is appended; the callback is dropped |
| OscillatorRegistration.AddParameter | core/Oscillator.cpp:39-45 | one entry named type name + " " + name is appended, under the type name; the callback is dropped |
| OscillatorRegistration.RegisterParametersWithPrefix | oscillators/SawOscillator.cpp:32-44 | dispatching on the kind as the overrides do (saw here, sine at oscillators/SineOscillator.cpp:31-43, FM at synthesizers/FMSynthesizer.cpp:125-160, additive at synthesizers/AdditiveSynthesizer.cpp:41-56), the registry gains exactly the entries Register describes, and node and memory end as Register says |
| OscillatorRegistration.RegisterFMWithPrefix | synthesizers/FMSynthesizer.cpp:125-160 | the registry gains exactly RegisterFM's entries, and node and memory end as RegisterFM says |
| OscillatorRegistration.RegisterAdditiveWithPrefix | synthesizers/AdditiveSynthesizer.cpp:41-56 | the registry gains exactly RegisterAdditive's entries, and node and memory end as RegisterAdditive says |
| OscillatorRegistration.RegisterChildrenWithPrefix | synthesizers/AdditiveSynthesizer.cpp:51-55 | the loop over the children appends exactly RegisterChildren's entries, in order |
| OscillatorRegistration.RegisterParametersWithController | synthesizers/AdditiveSynthesizer.cpp:37-39 | registerParameters appends exactly RegisterParameters' entries |
| Mixing.Chain | core/Sound.cpp:53-56 | the sample runs through every filter in order, one new filter state per filter; with no filter it passes unchanged |
| Mixing.Normalized | core/Sound.cpp:97-118 | normalisation keeps one ratio per oscillator: dividing by a positive sum, otherwise giving each an equal share |
| Mixing.NormalizedIsNormalised | core/Sound.cpp:97-118 | normalising non-negative ratios yields ratios in [0, 1] that sum to 1, in both branches |
| Mixing.SumScaled | core/Sound.cpp:107-110 | dividing every ratio by s divides their sum by s |
| Mixing.SumConstant | core/Sound.cpp:111-117 | n equal ratios c sum to n * c |
| Mixing.ElementBelowSum | core/Sound.cpp:101-104 | with no negative ratio, each ratio is at most the sum |
| Mixing.NormalizedIdempotent | core/Sound.cpp:97-118 | normalising ratios that already sum to 1 changes nothing |
| Mixing.LoneRatioIsOne | core/Sound.cpp:9-13 | a single oscillator always gets ratio 1, whatever it was set to |
| Mixing.AddedOscillatorTakesHalf | core/Sound.cpp:9-13 | adding an oscillator to normalised ratios gives it half of the mix and halves every earlier share |
| Mixing.WeightedSumBounded | core/Sound.cpp:45-50 | with oscillator samples in [-1, 1] and non-negative ratios, the weighted sum lies within plus or minus the ratio sum |
| Mixing.MixedBounded | core/Sound.cpp:45-50 | with normalised ratios, the oscillator mix of samples in [-1, 1] stays in [-1, 1] |
| Mixing.Finish | core/Sound.cpp:58-67 | the first envelope, when present, steps once and scales the sample by its new gain; the master volume scales the result; with no envelope only the volume applies |
| Mixing.SoundStep | core/Sound.cpp:43-73 | one Sound sample keeps the mix ratios and the number of oscillators and filters, keeps whether there is an envelope, and keeps memory consistent |
| Mixing.Render | core/Sound.cpp:37-41 | generating n samples yields exactly n samples |
| Mixing.EmptySoundSilent | core/Sound.cpp:43-73 | a Sound with no oscillators and no filters outputs exactly 0 and leaves memory unchanged; the envelope still takes its step |
| Mixing.IdleEnvelopeSilences | core/Sound.cpp:58-64 | before noteOn the first envelope is Idle and the Sound outputs exactly 0, leaving the envelope Idle at gain 0 |
| Mixing.FinishBounded | core/Sound.cpp:58-67 | the envelope and volume stage keeps a sample in [-1, 1] when the gain and the volume are both in [0, 1] |
| Mixing.OutputBounded | core/Sound.cpp:43-73 | with normalised ratios, oscillator samples in [-1, 1], no filter, and envelope gain and master volume in [0, 1], the output stays in [-1, 1] |
| Mixing.StepAllSnoc | core/Sound.cpp:47-50 | stepping one more oscillator extends the samples and nodes by that oscillator's sample and node |
| Mixing.MixOneMore | core/Sound.cpp:47-50 | one more turn of the mixing loop extends the trace and adds that oscillator's weighted sample to oscSum |
| Mixing.ChainSnoc | core/Sound.cpp:54-56 | one more filter in the chain processes the previous filter's output |
| Mixing.RenderStep | core/Sound.cpp:38-40 | one more generated sample appends that step's sample and moves to its state |
| Mixing.WeightedSumSnoc | core/Sound.cpp:49 | the weighted sum of one more sample adds that sample times its ratio |
| Sounds.Views | core/Sound.h:50 | the filters as the Sound sees them: one coefficient and delay-line state per filter, in order |
| Sounds.EnvView | core/Sound.cpp:60-61 | the first envelope as the Sound sees it: its state, sample rate and the times in its cells |
| Sounds.FinishSteps | core/Sound.cpp:58-67 | the envelope step followed by the master volume is exactly Finish |
| Sounds.MixAll | core/Sound.cpp:47-50 | the mixing loop steps every oscillator once, in order, each seeing the memory the previous one left, and oscSum is their weighted sum |
| Sounds.Sound.constructor | core/Sound.cpp:6-7 | a new Sound has no oscillators, ratios, filters or envelopes, and master volume 0.7 in a fresh cell |
| Sounds.Sound.NormalizeMixRatios | core/Sound.cpp:97-118 | the ratios become Normalized of the old ones; the oscillators, filters and envelopes are untouched |
| Sounds.Sound.AddOscillator | core/Sound.cpp:9-13 | the oscillator goes at the end and the ratios become Normalized(old ratios + [1.0]), one per oscillator |
| Sounds.Sound.AddFilter | core/Sound.cpp:15-17 | the filter goes at the end of the chain; nothing else changes |
| Sounds.Sound.AddEnvelope | core/Sound.cpp:19-21 | the envelope goes at the end of the list; nothing else changes |
| Sounds.Sound.ClearFilters | core/Sound.cpp:23-25 | the filter chain becomes empty; nothing else changes |
| Sounds.Sound.ClearOscillators | core/Sound.cpp:27-31 | oscillators, ratios and also the filters are cleared; the envelopes stay |
| Sounds.Sound.ClearEnvelopes | core/Sound.cpp:33-35 | the envelope list becomes empty; nothing else changes |
| Sounds.Sound.SetMasterVolume | core/Sound.cpp:79-81 | the volume cell holds the value clamped into [0, 1] and no other cell changes |
| Sounds.Sound.UpdateMasterVolume | core/Sound.h:27 | the volume cell is re-clamped into [0, 1]: a value already in range stays, no other cell changes |
| Sounds.Sound.SetOscillatorMixRatio | core/Sound.cpp:83-88 | a valid index gets the ratio clamped to [0, 1] and all ratios are renormalised; a bad index changes nothing |
| Sounds.Sound.GetOscillatorMixRatio | core/Sound.cpp:90-95 | the ratio at a valid index, 0 otherwise; always in [0, 1] |
| Sounds.Sound.GetOscillatorCount | core/Sound.h:35 | the number of oscillators, which equals the number of ratios |
| Sounds.Sound.GetEnvelope | core/Sound.cpp:124-128 | the envelope at a valid index, null otherwise |
| Sounds.Sound.NoteOn | core/Sound.cpp:130-134 | every envelope enters Attack |
| Sounds.Sound.NoteOff | core/Sound.cpp:136-140 | every envelope enters Release |
| Sounds.Sound.MixOscillators | core/Sound.cpp:44-51 | the oscillators and memory become those StepAll produces, oscSum is their weighted sum, and nothing else changes |
| Sounds.Sound.RunFilters | core/Sound.cpp:53-56 | the sample runs through every filter in order; the output and every filter's new state are Chain's |
| Sounds.Sound.ApplyEnvelope | core/Sound.cpp:58-64 | with no envelope the sample passes; otherwise the first envelope steps once and scales it, and later envelopes are untouched |
| Sounds.Sound.FilterAndShape | core/Sound.cpp:53-67 | the filter chain, then the first envelope and the master volume, exactly as Chain followed by Finish |
| Sounds.Sound.NextSample | core/Sound.cpp:43-73 | the returned sample and the new oscillators, filters, envelope and memory are exactly SoundStep of the old state |
| Sounds.Sound.EmitSample | core/Sound.cpp:39 | buffer slot i receives SoundStep's sample and no other slot changes |
| Sounds.Sound.GenerateSamples | core/Sound.cpp:37-41 | the first numSamples slots receive Render's samples in order, the rest are untouched, and the Sound ends in Render's final state |
| Presets.FindByName | core/SoundPreset.cpp:43-44 | the index of the first parameter with exactly that name, or none exactly when no parameter has it |
| Presets.Assigned | core/SoundPreset.cpp:31-40 | setting a parameter stores the value clamped into that parameter's bounds as its current value; every other parameter and field is unchanged |
| Presets.AssignedInRange | core/SoundPreset.cpp:33-37 | setting a parameter keeps every current value within its bounds |
| Presets.AssignedIdempotent | core/SoundPreset.cpp:31-40 | setting the same value twice is the same as setting it once |
| Presets.SameNamesSameLookup | core/SoundPreset.cpp:42-50 | two lists with the same names position by position resolve every name to the same index |
| Presets.AssignedKeepsLookup | core/SoundPreset.cpp:42-50 | setting a value never changes which parameter a name refers to |
| Presets.SoundPreset.constructor | core/SoundPreset.cpp:4-6 | a new preset has its name and setup function, no parameters and no current sound |
| Presets.SoundPreset.Copy | core/SoundInterface.cpp:33 | the copy has the same name, setup function, parameters and current sound |
| Presets.SoundPreset.SetupSound | core/SoundPreset.cpp:8-14 | the target sound is recorded, the parameter list emptied, and the setup function called once with that sound |
| Presets.SoundPreset.AddParameter | core/SoundPreset.cpp:16-29 | one parameter with exactly the given fields is appended |
| Presets.SoundPreset.SetParameter | core/SoundPreset.cpp:31-40 | a valid index updates the parameters as Assigned does and calls that parameter's setter once with the stored value; a bad index changes nothing and calls no setter |
| Presets.SoundPreset.SetParameterByName | core/SoundPreset.cpp:42-50 | the first parameter with that name is set as by index; an unknown name changes nothing and calls no setter |
| Interface.PresetNames | core/SoundInterface.cpp:55-61 | one name per registered preset, in registration order |
| Interface.FirstNamed | core/SoundInterface.cpp:20-28 | the index of the first preset with exactly that name, or none exactly when no preset has it |
| Interface.RegisteredNameFound | core/SoundInterface.cpp:9-28 | registering a preset appends its name, keeps every earlier lookup, and makes a new name findable at the new index |
| Interface.SoundInterface.constructor | core/SoundInterface.cpp:5-7 | a new interface has no presets, no current preset and current index -1 |
| Interface.SoundInterface.RegisterPreset | core/SoundInterface.cpp:9-18 | a new preset with the given name goes at the end; its setup is the empty lambda whatever function was passed; the current preset is untouched |
| Interface.SoundInterface.LoadPreset | core/SoundInterface.cpp:30-39 | a valid index becomes current, the current preset is a fresh copy of that preset whose setup runs once on the sound; a bad index changes nothing and runs no setup |
| Interface.SoundInterface.LoadPresetByName | core/SoundInterface.cpp:20-28 | the first preset with exactly that name is loaded as by index; an unknown name changes nothing |
| Interface.SoundInterface.SetParameter | core/SoundInterface.cpp:41-46 | forwarded to the current preset's setParameter by index; with no current preset nothing happens |
| Interface.SoundInterface.SetParameterByName | core/SoundInterface.cpp:48-53 | forwarded to the current preset's setParameter by name; with no current preset nothing happens |
| Interface.SoundInterface.GetPresetNames | core/SoundInterface.cpp:55-61 | the names of the registered presets, in order |
| Interface.SoundInterface.GetCurrentPresetIndex | core/SoundInterface.h:26 | -1 exactly while no preset is loaded, otherwise a valid index whose preset has the current preset's name |
| Manager.PresetNames | presets/PresetManager.cpp:37-43 | one name per preset, the i-th name being the i-th preset's |
| Manager.LeafNames | oscillators/SawOscillator.cpp:32-44 | a saw or a sine registers exactly one entry, its frequency under the prefix, and is otherwise left alone |
| Manager.FMNames | synthesizers/FMSynthesizer.cpp:125-160 | an FM node with both children registers its depth and then each child under the Carrier and Modulator prefixes |
| Manager.NewBasicFMGraph | presets/PresetManager.cpp:98-109 | the basic FM node: two saws adopted as components, their cells re-tuned to 440 Hz and 880 Hz, depth 100 |
| Manager.NewInnerFMGraph | presets/PresetManager.cpp:134-147 | the inner FM node: the 220 Hz and 55 Hz settings are overwritten by adoption, so its sines end at 440 Hz and 880 Hz; depth 50 in a fresh cell |
| Manager.AdoptRetunesCarrier | synthesizers/FMSynthesizer.cpp:20-27 | adopting a node whose carrier is a leaf writes the new frequency into that carrier's cell and nothing else |
| Manager.NewSineCarrierFMGraph | presets/PresetManager.cpp:125-131 | the outer FM node with its 440 Hz sine carrier adopted and default depth in a fresh cell |
| Manager.NewNestedFMGraph | presets/PresetManager.cpp:123-151 | the nested FM node: 440 Hz sine carrier, depth 30, and the inner FM node as modulator with its own cells untouched |
| Manager.FMOfLeavesRegistration | synthesizers/FMSynthesizer.cpp:125-160 | an FM node over two leaves registers exactly three entries: depth, carrier frequency, modulator frequency |
| Manager.BasicFMRegistration | presets/PresetManager.cpp:110 | the basic FM node registers "FM Mod Depth", "FM Carrier Frequency", "FM Modulator Frequency" and changes neither node nor cells |
| Manager.NestedFMRegistration | presets/PresetManager.cpp:153-154 | the nested FM node registers the outer depth, the carrier, then the inner node's three entries under "FM Modulator" |
| Manager.FilteredChildrenRegisterNothing | presets/PresetManager.cpp:197-198 | children that are all filtered oscillators register no entry at all |
| Manager.AddMasterVolume | presets/PresetManager.cpp:64-69 | exactly one entry is appended: "Master Volume" aliasing the Sound's master-volume cell, range [0, 100], with the volume hook |
| Manager.NewSineVoice | presets/PresetManager.cpp:47-49 | a new unit-amplitude sine whose frequency cell holds 440 and is the one entry appended to the registry |
| Manager.NewSineEnvelope | presets/PresetManager.cpp:52-59 | a fresh idle envelope with times (10, 100, 1, 200), sustain clamped, and its four entries aliasing its own cells |
| Manager.SetupSimpleSine | presets/PresetManager.cpp:46-70 | one sine at 440 Hz and one envelope appended, earlier oscillators and envelopes kept, ratios renormalised, the six names added with Master Volume last |
| Manager.NewSawVoice | presets/PresetManager.cpp:73-76 | a new unit-amplitude saw whose frequency cell holds 440 and is the one entry appended under the prefix |
| Manager.NewBandPass | presets/PresetManager.cpp:79-82 | a fresh band-pass filter at the clamped target and bandwidth, earlier cells untouched, its two entries appended under the prefix |
| Manager.SetupSimpleSaw | presets/PresetManager.cpp:72-95 | one saw at 440 Hz and one band-pass filter appended, envelopes untouched, the four names added with Master Volume last |
| Manager.NewBasicFMVoice | presets/PresetManager.cpp:98-110 | the basic FM node built and its three names registered |
| Manager.NewNestedFMVoice | presets/PresetManager.cpp:125-154 | the nested FM node built and its five names registered |
| Manager.RegisterNestedFM | presets/PresetManager.cpp:154 | registration adds the five nested names and leaves the node and the cells unchanged |
| Manager.AddVoiceAndVolume | presets/PresetManager.cpp:156-164 | the node goes at the end of the Sound's oscillators, ratios renormalised, filters and envelopes kept, Master Volume appended last |
| Manager.SetupBasicFM | presets/PresetManager.cpp:97-121 | one FM node over two saws (440 Hz, 880 Hz, depth 100) appended, filters and envelopes untouched, four names added |
| Manager.SetupNestedFM | presets/PresetManager.cpp:123-165 | one nested FM node appended, filters and envelopes untouched, six names added with Master Volume last |
| Manager.AddBand | presets/PresetManager.cpp:177-204 | one loop pass: band i's saw and filter are registered under "Saw i+1" and "Bandpass i+1" and one filtered child with band i's settings is appended |
| Manager.AddBands | presets/PresetManager.cpp:176-205 | after the loop the additive node has exactly three children, child k being band k, and the nine band names are registered in order |
| Manager.BandOneSpelling | presets/PresetManager.cpp:180-186 | band 1 registers "Saw 1 Frequency", "Bandpass 1 Target Freq", "Bandpass 1 Bandwidth" |
| Manager.TripleNames | presets/PresetManager.cpp:176-213 | the triple band-pass registry is the three bands' names, "Additive Amplitude", "Master Volume" |
| Manager.AdditiveOfFilteredRegistration | presets/PresetManager.cpp:208 | an additive node of filtered children registers only its output amplitude |
| Manager.NewTripleBandVoice | presets/PresetManager.cpp:169-208 | the additive node with three bands at unit output amplitude, its ten names registered |
| Manager.SetupTripleBandpassAdditive | presets/PresetManager.cpp:167-218 | one additive node of three filtered saws appended, filters and envelopes untouched, eleven names added with Master Volume last |
| Manager.RunSetup | presets/PresetManager.cpp:31 | whichever setup runs adds one oscillator and exactly its names; only the saw preset adds a filter and only the sine preset an envelope |
| Manager.PresetNamesAppend | presets/PresetManager.cpp:19-21 | registering one more preset appends its name and keeps the earlier names |
| Manager.BuiltInNames | presets/PresetManager.cpp:10-17 | the five built-in presets by name, in registration order |
| Manager.PresetManager.constructor | presets/PresetManager.cpp:10-17 | the manager starts with exactly the five built-in presets |
| Manager.PresetManager.RegisterPreset | presets/PresetManager.cpp:19-21 | the preset goes at the end, so earlier indices and names keep their meaning |
| Manager.PresetManager.LoadPreset | presets/PresetManager.cpp:23-35 | a valid index leaves the registry holding exactly that preset's names and the Sound one oscillator at ratio 1; any other index changes nothing |
| Manager.PresetManager.GetPresetNames | presets/PresetManager.cpp:37-43 | the loop returns the presets' names in order |
| Manager.PresetManager.GetPresetCount | presets/PresetManager.h:30 | the number of presets, equal to the number of names |
| Manager.LoadSimpleSineTwice | presets/PresetManager.cpp:23-35 | loading the sine preset twice leaves its six names once but two more envelopes, since clearing oscillators keeps envelopes |

## Left out

- Console output (`std::cout`), the Qt GUI (`gui/`), the audio engine (`audio/`), `main.cpp`, `interface/SimpleInterface` and `presets/PresetLibrary` are not part of this model.
- Floating point: `double` is a mathematical real, so IEEE rounding, infinities and NaN are not modelled. A zero or negative sample rate is excluded by the `Rate` type instead of producing inf/NaN.
- `sin`, `cos` and `M_PI` are uninterpreted apart from the two facts above. Properties that depend on their actual values, such as filter frequency responses, are not stated.
- Integer width: stage counters and indices are unbounded integers, so 32-bit overflow of `int` is not modelled.
- Callbacks: `setParameterCallback` does not exist in `LiveController`'s header. The model records an attached hook as a label (`Live.Hook`) and never runs it. The callbacks that oscillators pass to `addParameter` are dropped, as the source drops them.
- `SoundInterface.registerPreset` wraps its setup argument in an empty lambda. The model records every such preset with `EmptySetup`, and its setup is a no-op.
- Preset setup functions: `PresetManager` presets carry a `Setup` tag naming one of the five built-in setups. Registering an arbitrary `std::function` is limited to those five.
- Null pointers: the `Sound*` passed to setups and `loadPreset` is never null. A null oscillator is `None`: `AddOscillator` ignores it, and `SetCarrierOscillator` and `SetModulatorOscillator` store the missing child, which the next sample creates lazily. Envelopes are objects that are never null, so the `envelopes[0]` null test in `Sound::nextSample` (core/Sound.cpp:60) reduces to the emptiness test.
- The default `Oscillator::registerParametersWithPrefix` (core/Oscillator.h:42-47), which ignores the prefix and registers nothing for a component, is not modelled: every concrete oscillator, the filtered saw included, overrides it, so it is never reached.
- Filters.Filter.ProcessBuffer and Sounds.Sound.GenerateSamples require `numSamples <= buffer.Length`. The C++ would write out of bounds otherwise, which is undefined behaviour.
- Sounds.Sound.FilterAndShape does not restate that envelopes after the first are unchanged; Sounds.Sound.ApplyEnvelope states it.
- Getters that only read a field (`getFrequency`, `getAmplitude`, `getSampleRate`, `getMasterVolumePtr`, `getPresets`, the envelope pointer getters and similar) are not modelled as separate members; the model reads the field.
- Concurrency: the audio thread and the GUI thread share a `Sound` in the full program. Every operation here is sequential.
