# FM synthesiser core in Dafny

This project models the three sample-by-sample cores of a block-based FM
synthesiser written in C, and proves properties about them:

- **`Osc`** (`osc.dfy`) is the table-lookup oscillator of `vas_osc.c`.
  - A phase accumulator reads the wavetable at the floor of the phase and scales the sample by the amplitude.
  - The phase advances by the frequency, or by `(1 + input) * frequency`, according to one of five modes. SUM mode averages the table sample with the input.
  - The phase wraps with a single subtraction.
  - Two guarded setters change the frequency and the amplitude.
- **`Adsr`** (`adsr.dfy`) is the baked envelope of `vas_adsr.c`.
  - A table of `5 * size` entries is split into attack, decay, sustain and release segments by the stored times.
  - The table is filled once, with clamped shape values, while a stage counter moves through the four stages.
  - The table is then read cyclically to scale an input signal.
  - The setters accept each parameter on its own, and `setQ` re-bakes the table.
- **`Carry`** (`carry.dfy`) is the polyphonic voice pool of `backup.c` (`vas_osc_carry`).
  - Eight carrier voices share one modulator table and phase, one carrier table and one baked envelope.
  - A note claims the lowest free voice, and a full pool drops it.
  - Each voice's carrier step is frequency-modulated by the shared modulator.
  - Each sounding voice's sample is scaled by its own velocity and its own envelope entry, and the output sample is the sum of those scaled samples.
  - A voice is released when its envelope index runs off the table.
  - The envelope is baked by a linear ramp with per-parameter acceptance.
- **`Dsp`** (`dsp.dfy`) holds what the three share: the single-subtraction wrap, the floor of a phase, the clamp, the time share of a segment, and a few arithmetic facts.

Each C object becomes a Dafny `class` whose fields are the struct's fields. The object's routines become methods that update those fields, and its tables stay `array`s. Each method is proved against a pure specification function of the inputs and the old state:
- `PhaseAfter`/`OutputAt` for the oscillator;
- `Curve`/`Gained` for the envelope;
- `NoteOnVoices`, `Run`/`Samples` and `RampTable` for the pool.

The lemmas then state what those functions mean. The loop bodies are factored into small helper methods, such as `Step`, `Tick`, `FillIteration`, `PlayVoice` and `RampIteration`, so that each loop is proved from its helper's contract.

The C `float` arithmetic is modelled with `real`, and `floor` with `FloorOf`, whose meaning is proved in `FloorIsFloor`. `sinf` and `pow`/`powf` are parameters:
- `sineAt` for each constructor;
- `pow` for the envelope.

## Model

| member | source | states |
|---|---|---|
| Dsp.Wrap | vas_osc.c:77-78 | the single-subtraction wrap: a phase at or past the table size loses one table length, and any other phase is kept |
| Dsp.WrapStaysInTable | vas_osc.c:77-78 | a phase in `[0, size)` plus a step in `[0, size)`, wrapped by one subtraction, is again in `[0, size)` |
| Dsp.WrapSucc | vas_adsr.c:40-44 | stepping the integral position `m mod size` by one and wrapping once gives `(m + 1) mod size` |
| Dsp.FloorIsFloor | vas_osc.c:40 | `FloorOf(p)` is the floor of `p`: at most `p`, and `p` is less than it plus one |
| Dsp.FloorInTable | vas_osc.c:40-41 | the floor of a phase in `[0, size)` is a valid table index |
| Dsp.FloorOfWhole | vas_adsr.c:37 | the floor of a whole number is that number |
| Dsp.Share | vas_adsr.c:63 | a segment's share of the table by time is non-negative, and positive for a positive time and table |
| Dsp.Clamp | vas_adsr.c:73-74 | the clamped value lies in `[0, 1]` and a value already in `[0, 1]` is kept |
| Osc.Increment | vas_osc.c:43-72 | the phase step of one sample: a non-negative frequency and an input of at least -1 never step backwards, and MOD_NO_INPUT, CARRIER_NO_INPUT and SUM_WITH_IN step by the bare frequency |
| Osc.PhaseAfter | vas_osc.c:37-78 | the phase after `k` samples of a block, one step and one wrap per sample; in the default branch a phase inside the table never moves |
| Osc.OutputAt | vas_osc.c:40-75 | output `k` reads the table inside its bounds, at the floor of the phase after `k` samples, and is that entry times `amp`, averaged with the input first in SUM mode |
| Osc.PhaseInRange | vas_osc.c:37-79 | when every step lies in `[0, tableSize)`, every phase of a block stays in `[0, tableSize)`, so every table read is in bounds |
| Osc.UnitFrequencyReadsTableInOrder | vas_osc.c:40-78 | at frequency 1 from phase 0 in an input-free mode, output `k` is `table[k mod tableSize] * amp`, so the read after the last entry is entry 0 again |
| Osc.UnitPhase | vas_osc.c:45-78 | at frequency 1 from phase 0, the phase after `k` samples is `k mod tableSize` |
| Osc.PhaseTracksFrequency | vas_osc.c:45-78 | in the unmodulated modes, the phase after `k` samples plus the wraps taken times `tableSize` equals `p0 + k * frequency` |
| Osc.PhaseTracksRepeatedSteps | vas_osc.c:45-78 | the same relation with the products written as repeated sums |
| Osc.InputIgnoredWhenNotRead | vas_osc.c:43-72 | in the modes that read no input, the phase and the output do not depend on the input buffer |
| Osc.SamePhaseWithoutInput | vas_osc.c:45-58 | in the modes that read no input, two input buffers give the same phase |
| Osc.AmplitudeScalesOutput | vas_osc.c:75 | the output at amplitude `a` is `a` times the output at amplitude 1 |
| Osc.Oscillator.constructor | vas_osc.c:3-24 | phase 0, frequency 440, amplitude 1, and a fresh table of exactly `tableSize` entries holding the sine samples |
| Osc.Oscillator.Step | vas_osc.c:40-78 | one sample: the read index is in the table, the sample is the entry at the floor of the old phase shaped by the mode and scaled by `amp`, and the new phase is the wrapped step |
| Osc.Oscillator.Switch | vas_osc.c:43-72 | the mode switch adds the mode's increment to the phase (none for an unknown mode) and averages the sample with the input only in SUM mode |
| Osc.Oscillator.Process | vas_osc.c:32-80 | writes exactly `vectorSize` outputs, each equal to `OutputAt` of the starting state, leaves the rest of `out` alone, ends at `PhaseAfter`, and changes nothing but the phase |
| Osc.Oscillator.SetFrequency | vas_osc.c:82-86 | the frequency becomes `f` iff `f > 0`; otherwise nothing changes |
| Osc.Oscillator.SetAmp | vas_osc.c:88-92 | the amplitude becomes `a` iff `0 <= a <= 1`; otherwise nothing changes |
| Adsr.AttackNormalized | vas_adsr.c:119-126 | the attack shape is 0 below position 0, 1 above position 1, and `pow(x, q)` in between |
| Adsr.DecayNormalized | vas_adsr.c:128-135 | the decay shape is 1 below position 0 and the sustain level above position 1 |
| Adsr.SustainNormalized | vas_adsr.c:137-142 | the sustain shape is the sustain level, whatever the position |
| Adsr.ReleaseNormalized | vas_adsr.c:144-151 | the release shape is 1 below position 0 and 0 above position 1 |
| Adsr.AttackSaturates | vas_adsr.c:119-126 | the attack shape is 0 at or below position 0 and 1 at or above position 1 |
| Adsr.DecaySaturates | vas_adsr.c:128-135 | the decay shape is 1 at or below position 0 and the sustain level at or above position 1 |
| Adsr.SustainIsFlat | vas_adsr.c:137-142 | the sustain shape is the sustain level at every position |
| Adsr.ReleaseEnds | vas_adsr.c:144-151 | the release shape is 1 below 0, the sustain level at 0, and 0 at or above 1 |
| Adsr.SegmentCounts | vas_adsr.c:62-66 | attack, decay and sustain get the floor of their share of the table by time, and release gets the entries left over |
| Adsr.SegmentsTileTable | vas_adsr.c:62-66 | the four segment counts are non-negative and sum to `tableSize`; a positive release time leaves release at least one entry |
| Adsr.SharesFit | vas_adsr.c:62-65 | the attack, decay and sustain shares sum to the table size less the release share |
| Adsr.Advance | vas_adsr.c:72-113 | one fill iteration moves the stage forward by at most one and keeps the divisions defined |
| Adsr.DecayOvershoots | vas_adsr.c:90-99 | when the attack is at least as long as the decay, every decay iteration after the first reads the decay shape past position 1 and writes the sustain level |
| Adsr.ReleaseOvershoots | vas_adsr.c:109-113 | when release is under about half the table, every release iteration reads past position 1 and writes silence |
| Adsr.DefaultsCollapse | vas_adsr.c:8-18 | the constructor's parameters, for a table of 30 entries, give segments 5, 5, 5 and 15, so both overshoots occur |
| Adsr.IntendedPositionsInRange | vas_adsr.c:90-113 | counted from each stage's start, the decay and release positions stay in `[0, 1)` and `(0, 1)`, and the decay starts at 0 |
| Adsr.FillAt | vas_adsr.c:68-115 | the fill's state at every iteration satisfies the stage facts that keep its divisions defined |
| Adsr.Curve | vas_adsr.c:68-76 | the baked table has `tableSize` entries, every entry is in `[0, 1]`, and entry 0 is 0 |
| Adsr.StageNeverFallsBack | vas_adsr.c:79-113 | the stage is monotone over the whole fill |
| Adsr.AttackSpan | vas_adsr.c:79-88 | the fill is in the attack stage exactly up to iteration `attackSamples` |
| Adsr.AttackEntries | vas_adsr.c:79-84 | entries 1 to `attackSamples` are the clamped attack shape at `(i - 1) / attackSamples` |
| Adsr.Gained | vas_adsr.c:37-41 | one sample scales the input by the table entry at the read position taken modulo the table size; inside the table that is the entry itself, and a zero input gives 0 |
| Adsr.GainIsPeriodic | vas_adsr.c:37-44 | a read one table length later scales by the same entry |
| Adsr.Envelope.constructor | vas_adsr.c:4-21 | table size `5 * n`, index 0, every q 1, sustain share 0.5, stored times 0.5, 0.5, 0.5 and 1.5, and a baked table |
| Adsr.Envelope.Process | vas_adsr.c:29-46 | output `k` is `input[k]` times the entry `start + k` read cyclically; the position ends at `(start + vectorSize) mod tableSize`; the rest of `out` is untouched |
| Adsr.Envelope.Tick | vas_adsr.c:37-44 | one sample scales the input by the entry at the position, which then steps by one modulo the table size |
| Adsr.Envelope.UpdateADSR | vas_adsr.c:48-115 | each of a, d, s and r is accepted independently (r stored tripled), a rejected one keeps its value, and the table is re-baked from the new parameters |
| Adsr.Envelope.AcceptTimes | vas_adsr.c:50-60 | the acceptance rules for each parameter |
| Adsr.Envelope.Fill | vas_adsr.c:62-115 | the table holds `Curve` of the stored parameters |
| Adsr.Envelope.FillIteration | vas_adsr.c:72-113 | writes the clamped value and moves to the state `Advance` gives |
| Adsr.Envelope.SetQ | vas_adsr.c:153-158 | each q is accepted iff positive; the table is re-baked; the times are kept, except that a stored release time of at most 1 is tripled again |
| Carry.FirstFree | backup.c:53-57 | the index chosen is the lowest free voice: every voice before it sounds |
| Carry.NoteOnVoices | backup.c:53-66 | the pool keeps its size, the lowest free voice sounds the note from phase 0 and envelope index 0, and every other voice is unchanged |
| Carry.FullIffAllOccupied | backup.c:53-66 | the occupied count is at most the pool size, and reaches it iff every voice sounds |
| Carry.CountAfterUpdate | backup.c:58-62 | replacing one voice changes the count by the change in its flag |
| Carry.NoteOnClaimsLowestFree | backup.c:51-67 | noteOn sets only the lowest free voice (sounding, frequency, velocity, both indices 0), leaves every other voice alone, raises the count by one iff a voice was free, and changes nothing when the pool is full |
| Carry.ModulatedStepFits | backup.c:95 | with a modulator value in `[-1, 1]` and a depth in `[0, 1)`, the modulated carrier step stays in `[0, tableSize)` |
| Carry.Contribution | backup.c:90-108 | a sounding voice's sample is its carrier entry at the floor of its phase times its velocity times its envelope entry, so a zero velocity or a zero envelope entry contributes 0 |
| Carry.CarrierStep | backup.c:95 | the carrier step is the voice frequency scaled by `1 + modAmp * m`, with `m` the modulator entry under the shared phase; without modulation depth it is the bare frequency |
| Carry.CarrierStepFits | backup.c:91-95 | for a sounding voice the modulated carrier step lies in `[0, tableSize)`, so one subtraction wraps the phase |
| Carry.Advanced | backup.c:96-111 | after its turn a voice's phase has stepped and wrapped into the table, its envelope index has risen by one, and it still sounds iff envelope entries remain; frequency and velocity are kept |
| Carry.VoiceTurn | backup.c:88-114 | a sounding voice's turn: the sample is table·velocity·envelope at its old state, the carrier step is the modulated frequency, both phases wrap into the table, the envelope index rises by one, and the voice stays sounding iff entries remain |
| Carry.Visit | backup.c:88-114 | visiting a voice keeps every voice well-formed |
| Carry.Mix | backup.c:84-119 | the voice loop keeps every voice and the modulator phase well-formed |
| Carry.Run | backup.c:82-121 | a block of samples keeps the frame well-formed |
| Carry.ModAfter | backup.c:98-101 | the modulator phase stays in the table after any number of steps |
| Carry.MixLeavesRest | backup.c:85-114 | the voice loop has not touched the voices it has not reached |
| Carry.ModulatorStepsPerVoice | backup.c:98-101 | the shared modulator steps once per sounding voice, not once per sample |
| Carry.MixSumsOccupiedVoices | backup.c:84-113 | each output sample is the sum of the sounding voices' contributions |
| Carry.SilentWhenIdle | backup.c:84-88 | with no voice sounding, the sample is 0 and nothing changes |
| Carry.MixVoice | backup.c:88-114 | after the loop, a sounding voice has taken its turn at the modulator phase left by the sounding voices before it, and a silent voice is untouched |
| Carry.VoiceLifetime | backup.c:108-111 | a sounding voice at envelope index `e` sounds for exactly the remaining `tableSizeADSR - e` samples and then stays released; after noteOn it lives `tableSizeADSR` samples |
| Carry.RampOf | backup.c:165-171 | the ramp uses the envelope table's length and the sustain level; its attack step is positive, its decay and release steps are at most 0, and its release length is positive |
| Carry.StepSizeAtt | backup.c:135-138 | the attack step covers exactly 1 over the attack share, and is positive |
| Carry.StepSizeDec | backup.c:140-143 | the decay step covers `sus - 1` over the decay share, and is at most 0 for a level of at most 1 |
| Carry.StepSizeRel | backup.c:145-148 | the release step covers `-sus` over the release share, and is at most 0 for a non-negative level |
| Carry.RampAdvance | backup.c:179-215 | one fill iteration never moves the stage back and advances the sample counter by one |
| Carry.RampAt | backup.c:173-216 | at iteration `i` the counter is `i` and the stage is at most 3 |
| Carry.RampTable | backup.c:177-181 | the baked envelope has `tableSizeADSR` entries, each in `[0, 1]`, starting from 0 |
| Carry.RampStageNeverFallsBack | backup.c:183-214 | the ramp's stage is monotone over the whole fill |
| Carry.AttackStep | backup.c:183-191 | an attack iteration below full level adds the attack step and stays in the attack stage |
| Carry.AttackIsLinear | backup.c:173-191 | until the attack reaches full level, iteration `i` starts at `i * stepSizeAttack` in the attack stage |
| Carry.Pool.constructor | backup.c:3-49 | every voice is idle at 440 with velocity 0.7 and both indices 0; modAmp 0, modFreq 100, resultFreq 100, and `tableSizeADSR == tableSize`; both sine tables are filled and the envelope parameters are 0.5 |
| Carry.Pool.NoteOn | backup.c:51-67 | the voices become `NoteOnVoices` of the old voices |
| Carry.Pool.Process | backup.c:77-122 | the voices, modulator phase and last step become `Run` of the old frame, and `out[..vectorSize]` becomes `Samples`; the rest of `out` and the tables are untouched |
| Carry.Pool.MixSample | backup.c:84-119 | one sample: the frame advances by one `Mix` and `out[k]` becomes `SampleAt`, with no other entry of `out` changed |
| Carry.Pool.VisitVoice | backup.c:88-114 | one voice of the inner loop moves the frame and the running sum as `Visit` does |
| Carry.Pool.PlayVoice | backup.c:89-113 | a sounding voice's turn moves the voice, the modulator phase and `resultFreq` as `VoiceTurn` says, and returns its sample |
| Carry.Pool.SetModAmp | backup.c:124-128 | the depth becomes `a` iff `0 < a < 1` |
| Carry.Pool.SetModFreq | backup.c:130-133 | the modulator step always becomes `freq` |
| Carry.Pool.UpdateADSR | backup.c:150-217 | a, d and r are accepted in `(0, 1]` and s in `[0, 1]`, each on its own, and the envelope table becomes `RampTable` of the new parameters |
| Carry.Pool.AcceptAdsr | backup.c:152-162 | the acceptance rules for each parameter |
| Carry.Pool.Bake | backup.c:165-216 | the envelope table becomes `RampTable` of the ramp the step-size functions give |
| Carry.Pool.FillRamp | backup.c:173-216 | the fill loop writes `RampTable` of the given ramp |
| Carry.Pool.RampIteration | backup.c:179-215 | one iteration writes `RampEntry` and moves to the state `RampAt` gives for the next iteration |

## Findings

| source | as written | input that shows it | evidently intended | confidence | as-written member | corrected member |
|---|---|---|---|---|---|---|
| vas_adsr.c:94 | the decay shape is read at `i / decaySamples`, where `i` counts from the start of the table | the constructor's parameters with a table of 30 entries give segments 5, 5, 5 and 15; decay iteration 6 reads position 6/5 > 1, so the decay writes the sustain level at once | position `(i - attackSamples) / decaySamples`, which runs from 0 to 1 over the decay | high, not executed | Adsr.DecayOvershoots | Adsr.IntendedPositionsInRange |
| vas_adsr.c:111 | the release shape is read at `i / releaseSamples`, where `i` counts from the start of the table | same parameters: release iteration 17 reads position 17/15 > 1, so the release drops to silence at once | position `(i - (tableSize - releaseSamples)) / releaseSamples`, which runs from 0 to 1 over the release | high, not executed | Adsr.ReleaseOvershoots | Adsr.IntendedPositionsInRange |

The `Envelope` class keeps the table the code bakes. `Advance` reads the shapes at `DecayPosition` and `ReleasePosition`, the positions as written. The intended positions are `IntendedDecayPosition` and `IntendedReleasePosition`, and `IntendedPositionsInRange` proves that they stay inside the shapes' `[0, 1]` domain. `DefaultsCollapse` shows the discrepancy for the constructor's own parameters.

`setQ` (vas_adsr.c:153-158) passes the stored `rel_t`, which is already three times the release argument, back through `updateADSR`, which triples an accepted release again (vas_adsr.c:59-60). So a call that only means to change the q factors also changes the release time whenever the stored value is at most 1. `Adsr.Envelope.SetQ` models this as written, and its contract states it.

## Left out

- The sine table contents. `sinf` is a parameter `sineAt` of each constructor. The pool's modulator values are required to lie in `[-1, 1]`, as a sine does.
- `pow`/`powf` are a parameter `pow` of the envelope. Only the clamp branches, the segment counts and the `[0, 1]` bounds that the explicit clamps give are proved. `PowLaws` names the few exact power laws that the shape-saturation lemmas take as preconditions.
- Floating point. `float` is modelled as `real`, so rounding and the float/int conversions of the counts are not modelled.
- Memory management: `malloc`, `vas_mem_alloc`, the free routines and null checks. The model only creates arrays.
- The `printf` of the oscillator's default branch, which is I/O. Only its effect is kept: the phase does not move.
- `adsrIndex`. The oscillator increments it, but the oscillator struct has no such field, and nothing reads it.
- The routines that are declared without a body (the live envelope state machine, `set_frequency_factor` and `set_master_frequency`), the algorithm router, and host message dispatch. Their source is not part of this model.
- Where the headers and the `.c` bodies disagree (`lookupTable`, `sus_t`, the 5-argument `updateADSR`, and the mode constants missing from the header), the model follows the bodies.
- The unused `mode` argument of `vas_adsr_process`, which the model drops: `Envelope.Process` has no such parameter.
- The unused `in` argument of `vas_osc_carry_process`, which the model takes but does not read.
- The dead initial `stepSize = i / tableSize` of the envelope fill. Every stage that reads `stepSize` overwrites it first.
- Osc.Oscillator.Process, Osc.Oscillator.Step: each step's increment is required to lie in `[0, tableSize)`. The C code performs the out-of-range table read without a check.
- Carry.Pool.Process: requires each sounding voice's fastest modulated step to be shorter than the table, the modulator step to lie in `[0, tableSize)` and the modulator values to lie in `[-1, 1]`. It also requires that `out` is not one of the tables. The C code reads out of bounds otherwise.
- Carry.Pool.constructor: requires `tableSize > 0`. It allocates the envelope table but does not fill it, as the C code does, so the entries stay unconstrained until `UpdateADSR` runs.
- Adsr.Envelope.UpdateADSR: requires that every rejected time already stored is non-negative. Construction and every later call keep that true. `Process` requires an integral read position, which construction and `Process` keep; the model tracks it as the ghost field `position`.
- `MaxNumberOfVoices` is 8. The header that defines it is not part of this model.
- The loop bodies are factored into helper methods (`Step`, `Switch`, `Tick`, `FillIteration`, `MixSample`, `VisitVoice`, `PlayVoice`, `RampIteration`), and each acceptance half into its own method (`AcceptTimes`, `AcceptAdsr`). The statements and their order are those of the C bodies.
