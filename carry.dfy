/** The polyphonic FM voice pool of backup.c (`vas_osc_carry`): up to
    `MaxNumberOfVoices` carrier voices share one sine table, one modulator
    table and phase, and one baked envelope table. A note claims the lowest
    free voice; a voice sounds until its envelope index runs off the end of
    the envelope table and is then released. */
module Carry {
  import opened Dsp

  /** MAXNUMBEROFVOICES; its header is not part of this model, and any
      positive value behaves alike. */
  const MaxNumberOfVoices: nat := 8

  /** One carrier voice. `occupied` is the C int flag (non-zero = sounding). */
  datatype Voice = Voice(frequency: real, indexResult: real, envelopeIndex: nat, velocity: real, occupied: bool)

  /** The voice every slot holds after construction. */
  const IdleVoice := Voice(440.0, 0.0, 0, 0.7, false)

  // ---------------------------------------------------------------------
  // Voice allocation

  /** The lowest index of a free voice, or `|voices|` when every voice sounds. */
  function FirstFree(voices: seq<Voice>): (r: nat)
    ensures r <= |voices|
    ensures forall i :: 0 <= i < r ==> voices[i].occupied
    ensures r < |voices| ==> !voices[r].occupied
  {
    if |voices| == 0 then 0
    else if !voices[0].occupied then 0
    else 1 + FirstFree(voices[1..])
  }

  /** The pool after noteOn: the first free voice sounds the note from the
      start of its phase and envelope; with no free voice the note is dropped. */
  function NoteOnVoices(voices: seq<Voice>, frequency: real, velocity: real): (r: seq<Voice>)
    ensures |r| == |voices|
    ensures forall i :: 0 <= i < |voices| && i != FirstFree(voices) ==> r[i] == voices[i]
    ensures FirstFree(voices) < |voices| ==> r[FirstFree(voices)] == Voice(frequency, 0.0, 0, velocity, true)
  {
    var i := FirstFree(voices);
    if i < |voices| then voices[i := Voice(frequency, 0.0, 0, velocity, true)] else voices
  }

  /** How many voices sound. */
  function OccupiedCount(voices: seq<Voice>): nat
  {
    if |voices| == 0 then 0
    else OccupiedCount(voices[..|voices| - 1]) + (if voices[|voices| - 1].occupied then 1 else 0)
  }

  /** Counting one more voice adds that voice's flag. */
  lemma CountExtends(voices: seq<Voice>, j: nat)
    requires j < |voices|
    ensures OccupiedCount(voices[..j + 1]) == OccupiedCount(voices[..j]) + (if voices[j].occupied then 1 else 0)
  {
    assert voices[..j + 1][..j] == voices[..j];
  }

  /** Replacing one voice changes the count by the change in its flag. */
  lemma {:induction false} CountAfterUpdate(voices: seq<Voice>, i: nat, v: Voice)
    requires i < |voices|
    ensures OccupiedCount(voices[i := v]) + (if voices[i].occupied then 1 else 0)
            == OccupiedCount(voices) + (if v.occupied then 1 else 0)
    decreases |voices|
  {
    var n := |voices| - 1;
    if i < n {
      assert voices[i := v][..n] == voices[..n][i := v];
      CountAfterUpdate(voices[..n], i, v);
    } else {
      assert voices[i := v][..n] == voices[..n];
    }
  }

  /** The count reaches the pool size exactly when every voice sounds. */
  lemma {:induction false} FullIffAllOccupied(voices: seq<Voice>)
    ensures OccupiedCount(voices) <= |voices|
    ensures OccupiedCount(voices) == |voices| <==> forall i :: 0 <= i < |voices| ==> voices[i].occupied
    decreases |voices|
  {
    if |voices| > 0 {
      var n := |voices| - 1;
      FullIffAllOccupied(voices[..n]);
      if OccupiedCount(voices) == |voices| {
        forall i | 0 <= i < |voices|
          ensures voices[i].occupied
        {
          if i < n {
            assert voices[..n][i] == voices[i];
          }
        }
      }
      if forall i :: 0 <= i < |voices| ==> voices[i].occupied {
        assert forall i :: 0 <= i < n ==> voices[..n][i].occupied;
      }
    }
  }

  /** noteOn claims the lowest free voice and touches no other; it adds one
      sounding voice exactly when the pool was not full, and a full pool
      drops the note without any change. */
  lemma NoteOnClaimsLowestFree(voices: seq<Voice>, frequency: real, velocity: real)
    ensures var r := NoteOnVoices(voices, frequency, velocity);
            && |r| == |voices|
            && (forall i :: 0 <= i < |voices| && i != FirstFree(voices) ==> r[i] == voices[i])
            && (FirstFree(voices) < |voices| ==> r[FirstFree(voices)] == Voice(frequency, 0.0, 0, velocity, true))
            && OccupiedCount(r) == OccupiedCount(voices) + (if OccupiedCount(voices) < |voices| then 1 else 0)
            && (OccupiedCount(voices) == |voices| ==> r == voices)
  {
    var i := FirstFree(voices);
    FullIffAllOccupied(voices);
    if i < |voices| {
      CountAfterUpdate(voices, i, Voice(frequency, 0.0, 0, velocity, true));
    }
  }

  // ---------------------------------------------------------------------
  // One block of audio

  /** What the mix loop reads but never writes: the carrier table size, the
      modulator and carrier sine tables, the envelope table (its length is
      `tableSizeADSR`), the modulation depth and the modulator step. */
  datatype Rig = Rig(tableSize: nat, modTable: seq<real>, resultTable: seq<real>, envelope: seq<real>,
                     modAmp: real, modFreq: real)

  /** What the mix loop writes: the voices, the shared modulator phase and
      the last computed carrier step (`resultFreq`). */
  datatype Frame = Frame(voices: seq<Voice>, indexMod: real, resultFreq: real)

  /** The reads stay in bounds: tables of the stated size, modulator values
      in `[-1, 1]` as a sine gives, a depth in `[0, 1)` and a modulator step
      shorter than the table. */
  predicate RigOk(r: Rig)
  {
    && r.tableSize > 0 && |r.modTable| == r.tableSize && |r.resultTable| == r.tableSize
    && 0.0 <= r.modAmp < 1.0 && 0.0 <= r.modFreq < r.tableSize as real
    && (forall i :: 0 <= i < |r.modTable| ==> -1.0 <= r.modTable[i] <= 1.0)
  }

  /** A voice's carrier phase lies in the table; a sounding voice has an
      envelope entry left and a frequency whose fastest modulated step is
      shorter than the table. */
  predicate VoiceOk(r: Rig, v: Voice)
  {
    && 0.0 <= v.indexResult < r.tableSize as real
    && (v.occupied ==>
          && v.envelopeIndex < |r.envelope|
          && 0.0 <= v.frequency && (1.0 + r.modAmp) * v.frequency < r.tableSize as real)
  }

  predicate FrameOk(r: Rig, f: Frame)
  {
    && 0.0 <= f.indexMod < r.tableSize as real
    && forall i :: 0 <= i < |f.voices| ==> VoiceOk(r, f.voices[i])
  }

  /** The modulated carrier step `(1 + modAmp * m) * frequency` stays in
      `[0, tableSize)` when `m` is a sine value. */
  lemma ModulatedStepFits(r: Rig, m: real, frequency: real)
    requires 0.0 <= r.modAmp < 1.0 && -1.0 <= m <= 1.0
    requires 0.0 <= frequency && (1.0 + r.modAmp) * frequency < r.tableSize as real
    ensures 0.0 <= (1.0 + r.modAmp * m) * frequency < r.tableSize as real
  {
    var g := 1.0 + r.modAmp * m;
    assert r.modAmp * m <= r.modAmp && -r.modAmp <= r.modAmp * m by {
      if m >= 0.0 {
        assert r.modAmp * m <= r.modAmp * 1.0;
      } else {
        assert r.modAmp * (-m) <= r.modAmp * 1.0;
      }
    }
    assert 0.0 <= g <= 1.0 + r.modAmp;
    ProductNonNegative(g, frequency);
    ProductNonNegative(1.0 + r.modAmp - g, frequency);
    assert (1.0 + r.modAmp) * frequency - g * frequency == (1.0 + r.modAmp - g) * frequency;
  }

  lemma ProductNonNegative(a: real, b: real)
    requires a >= 0.0 && b >= 0.0
    ensures a * b >= 0.0
  {
  }

  /** A sounding voice's contribution to the sample: carrier table entry at
      its phase, times its velocity, times its envelope entry. */
  function Contribution(r: Rig, v: Voice): (c: real)
    requires RigOk(r) && VoiceOk(r, v) && v.occupied
    ensures v.velocity == 0.0 || r.envelope[v.envelopeIndex] == 0.0 ==> c == 0.0
  {
    FloorInTable(v.indexResult, r.tableSize);
    r.resultTable[FloorOf(v.indexResult)] * v.velocity * r.envelope[v.envelopeIndex]
  }

  /** The outcome of one sounding voice's turn in the mix. */
  datatype Turn = Turn(voice: Voice, indexMod: real, resultFreq: real, sample: real)

  /** One sounding voice's turn: its step is the carrier frequency modulated
      by the shared modulator at its current phase; the carrier and
      modulator phases advance and wrap once; the envelope index advances,
      and the voice is released when it runs off the envelope table. */
  function VoiceTurn(r: Rig, v: Voice, indexMod: real): (t: Turn)
    requires RigOk(r) && VoiceOk(r, v) && v.occupied && 0.0 <= indexMod < r.tableSize as real
    ensures VoiceOk(r, t.voice) && 0.0 <= t.indexMod < r.tableSize as real
    ensures t.voice.envelopeIndex == v.envelopeIndex + 1
    ensures t.voice.occupied <==> v.envelopeIndex + 1 < |r.envelope|
    ensures t.voice.frequency == v.frequency && t.voice.velocity == v.velocity
    ensures t.sample == Contribution(r, v)
    ensures t.resultFreq == CarrierStep(r, indexMod, v.frequency)
    ensures t.voice.indexResult == Wrap(v.indexResult + t.resultFreq, r.tableSize)
    ensures t.indexMod == Wrap(indexMod + r.modFreq, r.tableSize)
  {
    var resultFreq := CarrierStep(r, indexMod, v.frequency);
    CarrierStepFits(r, indexMod, v.frequency);
    WrapStaysInTable(indexMod, r.modFreq, r.tableSize);
    Turn(Advanced(r, v, resultFreq), Wrap(indexMod + r.modFreq, r.tableSize), resultFreq, Contribution(r, v))
  }

  /** The voice after its turn: the carrier phase stepped by `resultFreq`
      and wrapped once, the envelope index advanced, and the voice released
      when the index runs off the envelope table. */
  function Advanced(r: Rig, v: Voice, resultFreq: real): (w: Voice)
    requires VoiceOk(r, v) && v.occupied && 0.0 <= resultFreq < r.tableSize as real
    ensures VoiceOk(r, w)
    ensures w.envelopeIndex == v.envelopeIndex + 1
    ensures w.occupied <==> v.envelopeIndex + 1 < |r.envelope|
    ensures w.frequency == v.frequency && w.velocity == v.velocity
    ensures w.indexResult == Wrap(v.indexResult + resultFreq, r.tableSize)
  {
    WrapStaysInTable(v.indexResult, resultFreq, r.tableSize);
    var e := v.envelopeIndex + 1;
    v.(indexResult := Wrap(v.indexResult + resultFreq, r.tableSize), envelopeIndex := e, occupied := e < |r.envelope|)
  }

  /** A sounding voice's modulated step fits the single-subtraction wrap. */
  lemma CarrierStepFits(r: Rig, indexMod: real, frequency: real)
    requires RigOk(r) && 0.0 <= indexMod < r.tableSize as real
    requires 0.0 <= frequency && (1.0 + r.modAmp) * frequency < r.tableSize as real
    ensures 0.0 <= CarrierStep(r, indexMod, frequency) < r.tableSize as real
  {
    FloorInTable(indexMod, r.tableSize);
    ModulatedStepFits(r, r.modTable[FloorOf(indexMod)], frequency);
  }

  /** A carrier's phase step under the shared modulator at phase
      `indexMod`: its frequency scaled by `1 + modAmp * m`, where `m` is the
      modulator table entry under the phase. */
  function CarrierStep(r: Rig, indexMod: real, frequency: real): (c: real)
    requires RigOk(r) && 0.0 <= indexMod < r.tableSize as real
    ensures r.modAmp == 0.0 ==> c == frequency
  {
    FloorInTable(indexMod, r.tableSize);
    (1.0 + r.modAmp * r.modTable[FloorOf(indexMod)]) * frequency
  }

  /** The frame and the output sample after the voice loop has visited the
      first `j` voices. */
  datatype Mixed = Mixed(frame: Frame, out: real)

  function Mix(r: Rig, f: Frame, j: nat): (m: Mixed)
    requires RigOk(r) && FrameOk(r, f) && j <= |f.voices|
    ensures FrameOk(r, m.frame) && |m.frame.voices| == |f.voices|
    decreases j
  {
    if j == 0 then Mixed(f, 0.0) else Visit(r, Mix(r, f, j - 1), j - 1)
  }

  /** Voice `j`'s turn within one sample: an idle voice is skipped, a
      sounding one takes its turn and adds its sample to the running sum. */
  function Visit(r: Rig, m: Mixed, j: nat): (n: Mixed)
    requires RigOk(r) && FrameOk(r, m.frame) && j < |m.frame.voices|
    ensures FrameOk(r, n.frame) && |n.frame.voices| == |m.frame.voices|
  {
    var v := m.frame.voices[j];
    if !v.occupied then m
    else
      var t := VoiceTurn(r, v, m.frame.indexMod);
      Mixed(Frame(m.frame.voices[j := t.voice], t.indexMod, t.resultFreq), m.out + t.sample)
  }

  /** The frame after `n` whole samples. */
  function Run(r: Rig, f: Frame, n: nat): (g: Frame)
    requires RigOk(r) && FrameOk(r, f)
    ensures FrameOk(r, g) && |g.voices| == |f.voices|
    decreases n
  {
    if n == 0 then f else Mix(r, Run(r, f, n - 1), |f.voices|).frame
  }

  /** Output sample `k` of a block started from frame `f`. */
  function SampleAt(r: Rig, f: Frame, k: nat): real
    requires RigOk(r) && FrameOk(r, f)
  {
    Mix(r, Run(r, f, k), |f.voices|).out
  }

  /** The first `n` output samples of a block started from frame `f`. */
  function Samples(r: Rig, f: Frame, n: nat): (s: seq<real>)
    requires RigOk(r) && FrameOk(r, f)
    ensures |s| == n
  {
    if n == 0 then [] else Samples(r, f, n - 1) + [SampleAt(r, f, n - 1)]
  }

  /** The modulator phase after `n` steps of `modFreq`, each wrapped once. */
  function ModAfter(r: Rig, p: real, n: nat): (q: real)
    requires RigOk(r) && 0.0 <= p < r.tableSize as real
    ensures 0.0 <= q < r.tableSize as real
    decreases n
  {
    if n == 0 then p
    else
      WrapStaysInTable(ModAfter(r, p, n - 1), r.modFreq, r.tableSize);
      Wrap(ModAfter(r, p, n - 1) + r.modFreq, r.tableSize)
  }

  /** The sum, over the sounding voices among the first `j`, of their
      contributions. */
  function SumOccupied(r: Rig, voices: seq<Voice>, j: nat): real
    requires RigOk(r) && j <= |voices| && forall i :: 0 <= i < |voices| ==> VoiceOk(r, voices[i])
  {
    if j == 0 then 0.0
    else SumOccupied(r, voices, j - 1) + (if voices[j - 1].occupied then Contribution(r, voices[j - 1]) else 0.0)
  }

  /** The voice loop has not yet reached voices `j` and beyond. */
  lemma {:induction false} MixLeavesRest(r: Rig, f: Frame, j: nat, i: nat)
    requires RigOk(r) && FrameOk(r, f) && j <= i < |f.voices|
    ensures Mix(r, f, j).frame.voices[i] == f.voices[i]
    decreases j
  {
    if j > 0 {
      MixLeavesRest(r, f, j - 1, i);
    }
  }

  /** The shared modulator phase steps once per sounding voice, not once per
      sample. */
  lemma {:induction false} ModulatorStepsPerVoice(r: Rig, f: Frame, j: nat)
    requires RigOk(r) && FrameOk(r, f) && j <= |f.voices|
    ensures Mix(r, f, j).frame.indexMod == ModAfter(r, f.indexMod, OccupiedCount(f.voices[..j]))
    decreases j
  {
    if j > 0 {
      ModulatorStepsPerVoice(r, f, j - 1);
      MixLeavesRest(r, f, j - 1, j - 1);
      CountExtends(f.voices, j - 1);
    }
  }

  /** Each output sample is the sum of the sounding voices' contributions,
      each read at the state the voice had when the sample began. */
  lemma {:induction false} MixSumsOccupiedVoices(r: Rig, f: Frame, j: nat)
    requires RigOk(r) && FrameOk(r, f) && j <= |f.voices|
    ensures Mix(r, f, j).out == SumOccupied(r, f.voices, j)
    decreases j
  {
    if j > 0 {
      MixSumsOccupiedVoices(r, f, j - 1);
      MixLeavesRest(r, f, j - 1, j - 1);
    }
  }

  /** With no voice sounding the sample is silence and nothing changes. */
  lemma {:induction false} SilentWhenIdle(r: Rig, f: Frame, j: nat)
    requires RigOk(r) && FrameOk(r, f) && j <= |f.voices|
    requires forall i :: 0 <= i < |f.voices| ==> !f.voices[i].occupied
    ensures Mix(r, f, j) == Mixed(f, 0.0)
    ensures SumOccupied(r, f.voices, j) == 0.0
    decreases j
  {
    if j > 0 {
      SilentWhenIdle(r, f, j - 1);
    }
  }

  /** Voice `i` after the voice loop: a sounding voice has taken its turn
      with the modulator phase left by the sounding voices before it; a
      silent voice is untouched. */
  lemma {:induction false} MixVoice(r: Rig, f: Frame, j: nat, i: nat)
    requires RigOk(r) && FrameOk(r, f) && j <= |f.voices| && i < |f.voices|
    ensures Mix(r, f, j).frame.voices[i] ==
              if i < j && f.voices[i].occupied
              then VoiceTurn(r, f.voices[i], ModAfter(r, f.indexMod, OccupiedCount(f.voices[..i]))).voice
              else f.voices[i]
    decreases j
  {
    if j > 0 {
      MixVoice(r, f, j - 1, i);
      if i == j - 1 {
        MixLeavesRest(r, f, j - 1, i);
        ModulatorStepsPerVoice(r, f, j - 1);
      }
    }
  }

  /** A voice's envelope over a block: a sounding voice with envelope index
      `e` advances one entry per sample, sounds for exactly the
      `|envelope| - e` samples left, and then stays released; after noteOn
      (`e == 0`) it lives exactly `tableSizeADSR` samples. */
  lemma {:induction false} VoiceLifetime(r: Rig, f: Frame, i: nat, n: nat)
    requires RigOk(r) && FrameOk(r, f) && i < |f.voices| && f.voices[i].occupied
    ensures var v := Run(r, f, n).voices[i];
            var e := f.voices[i].envelopeIndex;
            && (v.occupied <==> e + n < |r.envelope|)
            && v.envelopeIndex == if e + n < |r.envelope| then e + n else |r.envelope|
    decreases n
  {
    if n > 0 {
      VoiceLifetime(r, f, i, n - 1);
      MixVoice(r, Run(r, f, n - 1), |f.voices|, i);
    }
  }

  // ---------------------------------------------------------------------
  // The carrier envelope

  /** The carrier envelope's parameters (`adsrCarry`). */
  datatype AdsrParams = AdsrParams(att: real, dec: real, sus: real, rel: real)

  /** calc_stepSize_Att: the per-sample rise of the attack ramp. Over the
      attack's share of the table it climbs exactly 1, and it climbs. */
  function StepSizeAtt(tableSize: nat, attVal: real, sumVal: real): (r: real)
    requires sumVal > 0.0 && attVal > 0.0 && tableSize > 0
    ensures r * Share(tableSize, sumVal, attVal) == 1.0
    ensures r > 0.0
  {
    1.0 / Share(tableSize, sumVal, attVal)
  }

  /** calc_stepSize_Dec: the per-sample change of the decay ramp. Over the
      decay's share it moves from 1 to the sustain level, so it never rises
      for a level in `[0, 1]`. */
  function StepSizeDec(tableSize: nat, decVal: real, sumVal: real, susVal: real): (r: real)
    requires sumVal > 0.0 && decVal > 0.0 && tableSize > 0
    ensures r * Share(tableSize, sumVal, decVal) == susVal - 1.0
    ensures susVal <= 1.0 ==> r <= 0.0
  {
    (susVal - 1.0) / Share(tableSize, sumVal, decVal)
  }

  /** calc_stepSize_Rel: the per-sample change of the release ramp. Over
      the release's share it falls from the sustain level to 0. */
  function StepSizeRel(tableSize: nat, relVal: real, sumVal: real, susVal: real): (r: real)
    requires sumVal > 0.0 && relVal > 0.0 && tableSize > 0
    ensures r * Share(tableSize, sumVal, relVal) == -susVal
    ensures susVal >= 0.0 ==> r <= 0.0
  {
    (-susVal) / Share(tableSize, sumVal, relVal)
  }

  /** The quantities the ramp fill uses: the table length, the three step
      sizes, the sustain level and the (fractional) release length. */
  datatype Ramp = Ramp(size: nat, attack: real, decay: real, release: real, sus: real, releaseSamples: real)

  /** The stored parameters are those the setter accepts. */
  predicate AdsrOk(p: AdsrParams)
  {
    0.0 < p.att <= 1.0 && 0.0 < p.dec <= 1.0 && 0.0 <= p.sus <= 1.0 && 0.0 < p.rel <= 1.0
  }

  /** The ramp quantities of vas_osc_carry_updateADSR; the time sum leaves
      the sustain out. */
  function RampOf(size: nat, p: AdsrParams): (g: Ramp)
    requires size > 0 && AdsrOk(p)
    ensures g.size == size && g.sus == p.sus
    ensures g.attack > 0.0 && g.decay <= 0.0 && g.release <= 0.0 && g.releaseSamples > 0.0
  {
    var sum := p.att + p.dec + p.rel;
    Ramp(size, StepSizeAtt(size, p.att, sum), StepSizeDec(size, p.dec, sum, p.sus),
         StepSizeRel(size, p.rel, sum, p.sus), p.sus, Share(size, sum, p.rel))
  }

  /** The fill loop's variables: the sample counter `currentX`, the value
      `currentY` and the stage counter (0 attack, 1 decay, 2 sustain,
      3 release). */
  datatype RampState = RampState(x: real, y: real, stage: nat)

  /** One iteration of the fill after the entry is written. The four stage
      tests run one after another, so a single iteration can pass through
      several stages. */
  function RampAdvance(k: Ramp, s: RampState): (t: RampState)
    requires s.stage <= 3
    ensures s.stage <= t.stage <= 3
    ensures t.x == s.x + 1.0
  {
    var y0 := Clamp(s.y);
    var y1 := if s.stage == 0 && y0 < 1.0 then y0 + k.attack else y0;
    var st1 := if s.stage == 0 && !(y0 < 1.0) then 1 else s.stage;
    var y2 := if st1 == 1 && y1 >= k.sus then y1 + k.decay else y1;
    var st2 := if st1 == 1 && !(y1 >= k.sus) then 2 else st1;
    var st3 := if st2 == 2 && s.x > k.size as real - k.releaseSamples then 3 else st2;
    var y3 := if st3 == 3 then y2 + k.release else y2;
    RampState(s.x + 1.0, y3, st3)
  }

  /** The fill loop's variables at the start of iteration `i`; `currentX`
      counts the iterations. */
  function RampAt(k: Ramp, i: nat): (s: RampState)
    ensures s.stage <= 3 && s.x == i as real
    decreases i
  {
    if i == 0 then RampState(0.0, 0.0, 0) else RampAdvance(k, RampAt(k, i - 1))
  }

  /** The baked carrier envelope: entry `i` is the clamped value at the
      start of iteration `i`. Every entry is a gain in `[0, 1]` and the
      envelope starts from silence. */
  function RampTable(k: Ramp): (t: seq<real>)
    ensures |t| == k.size
    ensures forall i :: 0 <= i < |t| ==> 0.0 <= t[i] <= 1.0
    ensures |t| > 0 ==> t[0] == 0.0
  {
    seq(k.size, i requires 0 <= i < k.size => RampEntry(k, i))
  }

  /** Entry `i` of the baked envelope: the clamped value at the start of
      iteration `i`. */
  function RampEntry(k: Ramp, i: nat): real
  {
    Clamp(RampAt(k, i).y)
  }

  /** The ramp's stage never falls back. */
  lemma {:induction false} RampStageNeverFallsBack(k: Ramp, i: nat, j: nat)
    requires i <= j
    ensures RampAt(k, i).stage <= RampAt(k, j).stage
    decreases j
  {
    if i < j {
      RampStageNeverFallsBack(k, i, j - 1);
    }
  }

  /** One iteration in the attack stage below full level adds the attack
      step and stays in the attack stage. */
  lemma AttackStep(k: Ramp, s: RampState)
    requires s.stage == 0 && 0.0 <= s.y < 1.0
    ensures RampAdvance(k, s) == RampState(s.x + 1.0, s.y + k.attack, 0)
  {
  }

  /** Until the attack reaches full level the baked envelope is a straight
      line from silence: iteration `i` starts at `i * attack` in stage 0. */
  lemma {:induction false} AttackIsLinear(k: Ramp, i: nat)
    requires k.attack > 0.0
    requires (i as real - 1.0) * k.attack < 1.0
    ensures RampAt(k, i) == RampState(i as real, i as real * k.attack, 0)
    decreases i
  {
    if i > 0 {
      var m := i - 1;
      var y := m as real * k.attack;
      assert (m as real - 1.0) * k.attack == y - k.attack;
      assert y + k.attack == i as real * k.attack;
      AttackIsLinear(k, m);
      assert 0.0 <= y < 1.0;
      AttackStep(k, RampAt(k, m));
    }
  }

  // ---------------------------------------------------------------------
  // The pool object

  /** vas_osc_carry: the pool, its tables, the shared modulator and the
      carrier envelope parameters. */
  class Pool {
    const tableSize: nat
    const tableSizeADSR: nat
    const lookupTableMod: array<real>
    const lookupTableResult: array<real>
    const lookupTableCarryADSR: array<real>
    const voice: array<Voice>
    var indexMod: real
    var modAmp: real
    var modFreq: real
    var resultFreq: real
    var adsrCarry: AdsrParams

    /** The shape every pool keeps: tables of the stated sizes, distinct
        from each other, a full voice array, a modulation depth in
        `[0, 1)` and accepted envelope parameters. */
    ghost predicate Valid()
      reads this`modAmp, this`adsrCarry
    {
      && tableSize > 0 && tableSizeADSR == tableSize
      && lookupTableMod.Length == tableSize && lookupTableResult.Length == tableSize
      && lookupTableCarryADSR.Length == tableSizeADSR
      && lookupTableCarryADSR != lookupTableMod && lookupTableCarryADSR != lookupTableResult
      && voice.Length == MaxNumberOfVoices
      && 0.0 <= modAmp < 1.0
      && AdsrOk(adsrCarry)
    }

    /** The read-only part of the mix loop's state. */
    function CurrentRig(): Rig
      reads this`modAmp, this`modFreq, lookupTableMod, lookupTableResult, lookupTableCarryADSR
    {
      Rig(tableSize, lookupTableMod[..], lookupTableResult[..], lookupTableCarryADSR[..], modAmp, modFreq)
    }

    /** The written part of the mix loop's state. */
    function CurrentFrame(): Frame
      reads this`indexMod, this`resultFreq, voice
    {
      Frame(voice[..], indexMod, resultFreq)
    }

    /** vas_osc_carry_new: both sine tables from `sineAt` (one period over
        the table), every voice idle at 440 Hz with velocity 0.7, no
        modulation depth, modulator step 100, envelope parameters 0.5. The
        envelope table is allocated but not filled. */
    constructor (tableSize: nat, sineAt: int -> real)
      requires tableSize > 0
      ensures Valid() && fresh(voice) && fresh(lookupTableMod) && fresh(lookupTableResult) && fresh(lookupTableCarryADSR)
      ensures this.tableSize == tableSize && tableSizeADSR == tableSize
      ensures forall i :: 0 <= i < tableSize ==> lookupTableMod[i] == sineAt(i) && lookupTableResult[i] == sineAt(i)
      ensures forall i :: 0 <= i < MaxNumberOfVoices ==> voice[i] == IdleVoice
      ensures indexMod == 0.0 && modAmp == 0.0 && modFreq == 100.0 && resultFreq == 100.0
      ensures adsrCarry == AdsrParams(0.5, 0.5, 0.5, 0.5)
    {
      var mod := new real[tableSize];
      var result := new real[tableSize];
      var voices := new Voice[MaxNumberOfVoices];
      for i := 0 to MaxNumberOfVoices
        invariant forall j :: 0 <= j < i ==> voices[j] == IdleVoice
      {
        voices[i] := IdleVoice;
      }
      for i := 0 to tableSize
        invariant forall j :: 0 <= j < i ==> mod[j] == sineAt(j) && result[j] == sineAt(j)
        invariant forall j :: 0 <= j < MaxNumberOfVoices ==> voices[j] == IdleVoice
      {
        mod[i] := sineAt(i);
        result[i] := sineAt(i);
      }
      this.tableSize := tableSize;
      tableSizeADSR := tableSize;
      indexMod := 0.0;
      lookupTableMod := mod;
      lookupTableResult := result;
      adsrCarry := AdsrParams(0.5, 0.5, 0.5, 0.5);
      lookupTableCarryADSR := new real[tableSize];
      voice := voices;
      modAmp := 0.0;
      modFreq := 100.0;
      resultFreq := 100.0;
    }

    /** vas_osc_carry_noteOn: scans the voices in order and gives the note to
        the first free one. */
    method NoteOn(frequency: real, velocity: real)
      requires Valid()
      modifies voice
      ensures voice[..] == NoteOnVoices(old(voice[..]), frequency, velocity)
    {
      for i := 0 to MaxNumberOfVoices
        invariant forall j :: 0 <= j < i ==> voice[j].occupied
        invariant voice[..] == old(voice[..])
      {
        if !voice[i].occupied {
          voice[i] := voice[i].(occupied := true);
          voice[i] := voice[i].(frequency := frequency);
          voice[i] := voice[i].(velocity := velocity);
          voice[i] := voice[i].(envelopeIndex := 0);
          voice[i] := voice[i].(indexResult := 0.0);
          break;
        }
      }
    }

    /** vas_osc_carry_process: each output sample is the mix of the sounding
        voices (the input is not read). */
    method Process(input: array<real>, out: array<real>, vectorSize: nat)
      requires Valid() && RigOk(CurrentRig()) && FrameOk(CurrentRig(), CurrentFrame())
      requires vectorSize <= out.Length
      requires out != lookupTableMod && out != lookupTableResult && out != lookupTableCarryADSR
      modifies voice, this`indexMod, this`resultFreq, out
      ensures Valid() && CurrentRig() == old(CurrentRig()) && FrameOk(CurrentRig(), CurrentFrame())
      ensures CurrentFrame() == Run(CurrentRig(), old(CurrentFrame()), vectorSize)
      ensures out[..vectorSize] == Samples(CurrentRig(), old(CurrentFrame()), vectorSize)
      ensures out[vectorSize..] == old(out[vectorSize..])
    {
      ghost var r := CurrentRig();
      ghost var f := CurrentFrame();
      var k := 0;
      while k < vectorSize
        invariant 0 <= k <= vectorSize
        invariant Valid() && CurrentRig() == r
        invariant CurrentFrame() == Run(r, f, k)
        invariant out[..k] == Samples(r, f, k)
        invariant out[vectorSize..] == old(out[vectorSize..])
      {
        MixSample(out, k, r, f);
        assert out[..k + 1] == out[..k] + [out[k]];
        k := k + 1;
      }
    }

    /** Output sample `k` of a block started from frame `f`: cleared, then
        every sounding voice adds its contribution in voice order. */
    method MixSample(out: array<real>, k: nat, ghost r: Rig, ghost f: Frame)
      requires Valid() && CurrentRig() == r && RigOk(r) && FrameOk(r, f)
      requires CurrentFrame() == Run(r, f, k) && k < out.Length
      requires out != lookupTableMod && out != lookupTableResult && out != lookupTableCarryADSR
      modifies voice, this`indexMod, this`resultFreq, out
      ensures Valid() && CurrentRig() == r
      ensures CurrentFrame() == Run(r, f, k + 1)
      ensures out[..] == old(out[..])[k := SampleAt(r, f, k)]
    {
      ghost var g := CurrentFrame();
      out[k] := 0.0;
      for j := 0 to MaxNumberOfVoices
        invariant Mixed(CurrentFrame(), out[k]) == Mix(r, g, j)
        invariant out[..] == old(out[..])[k := out[k]]
      {
        VisitVoice(out, k, j, r);
      }
    }

    /** One pass of the inner loop of vas_osc_carry_process: a sounding
        voice plays and adds its sample to `out[k]`; an idle one is skipped. */
    method VisitVoice(out: array<real>, k: nat, j: nat, ghost r: Rig)
      requires Valid() && CurrentRig() == r && RigOk(r) && FrameOk(r, CurrentFrame())
      requires j < voice.Length && k < out.Length
      requires out != lookupTableMod && out != lookupTableResult && out != lookupTableCarryADSR
      modifies voice, this`indexMod, this`resultFreq, out
      ensures Valid() && CurrentRig() == r
      ensures Mixed(CurrentFrame(), out[k]) == Visit(r, Mixed(old(CurrentFrame()), old(out[k])), j)
      ensures out[..] == old(out[..])[k := out[k]]
    {
      if voice[j].occupied {
        var voiceSample := PlayVoice(j, r);
        out[k] := out[k] + voiceSample;
      }
    }

    /** One sounding voice's turn in the mix loop: read the carrier entry,
        compute the modulated step, advance and wrap both phases, scale by
        velocity and the envelope entry, and release the voice at the end
        of the envelope table. */
    method PlayVoice(j: nat, ghost r: Rig) returns (voiceSample: real)
      requires CurrentRig() == r && RigOk(r) && tableSizeADSR == |r.envelope|
      requires 0.0 <= indexMod < tableSize as real
      requires j < voice.Length && voice[j].occupied && VoiceOk(r, voice[j])
      modifies voice, this`indexMod, this`resultFreq
      ensures var t := VoiceTurn(r, old(voice[j]), old(indexMod));
              && voice[..] == old(voice[..])[j := t.voice]
              && indexMod == t.indexMod && resultFreq == t.resultFreq && voiceSample == t.sample
    {
      ghost var t := VoiceTurn(r, voice[j], indexMod);
      var v := voice[j];
      FloorInTable(indexMod, tableSize);
      FloorInTable(v.indexResult, tableSize);
      var intIndexMod := FloorOf(indexMod);
      var intIndexResult := FloorOf(v.indexResult);
      assert r.modTable[intIndexMod] == lookupTableMod[intIndexMod] && r.modAmp == modAmp;
      voiceSample := 0.0;
      voiceSample := voiceSample + lookupTableResult[intIndexResult];
      resultFreq := (1.0 + modAmp * lookupTableMod[intIndexMod]) * v.frequency;
      assert resultFreq == CarrierStep(r, old(indexMod), v.frequency);
      v := v.(indexResult := v.indexResult + resultFreq);
      indexMod := indexMod + modFreq;
      if indexMod >= tableSize as real {
        indexMod := indexMod - tableSize as real;
      }
      assert indexMod == t.indexMod;
      if v.indexResult >= tableSize as real {
        v := v.(indexResult := v.indexResult - tableSize as real);
      }
      voiceSample := voiceSample * v.velocity;
      voiceSample := voiceSample * lookupTableCarryADSR[v.envelopeIndex];
      assert voiceSample == t.sample;
      v := v.(envelopeIndex := v.envelopeIndex + 1);
      if v.envelopeIndex >= tableSizeADSR {
        v := v.(occupied := false);
      }
      assert v == t.voice;
      voice[j] := v;
    }

    /** vas_osc_carry_setModAmp: accepts a depth strictly inside `(0, 1)`. */
    method SetModAmp(amplitude: real)
      requires Valid()
      modifies this`modAmp
      ensures Valid()
      ensures modAmp == (if 0.0 < amplitude < 1.0 then amplitude else old(modAmp))
    {
      if amplitude > 0.0 && amplitude < 1.0 {
        modAmp := amplitude;
      }
    }

    /** vas_osc_carry_setModFreq: always stores the modulator step. */
    method SetModFreq(freq: real)
      requires Valid()
      modifies this`modFreq
      ensures Valid() && modFreq == freq
    {
      modFreq := freq;
    }

    /** vas_osc_carry_updateADSR: accepts each parameter on its own (times
        in `(0, 1]`, level in `[0, 1]`), then bakes the ramp envelope. */
    method UpdateADSR(a: real, d: real, s: real, r: real)
      requires Valid()
      modifies this`adsrCarry, lookupTableCarryADSR
      ensures Valid()
      ensures adsrCarry.att == (if 0.0 < a <= 1.0 then a else old(adsrCarry.att))
      ensures adsrCarry.dec == (if 0.0 < d <= 1.0 then d else old(adsrCarry.dec))
      ensures adsrCarry.sus == (if 0.0 <= s <= 1.0 then s else old(adsrCarry.sus))
      ensures adsrCarry.rel == (if 0.0 < r <= 1.0 then r else old(adsrCarry.rel))
      ensures lookupTableCarryADSR[..] == RampTable(RampOf(tableSizeADSR, adsrCarry))
    {
      AcceptAdsr(a, d, s, r);
      Bake();
    }

    /** The acceptance half of vas_osc_carry_updateADSR. */
    method AcceptAdsr(a: real, d: real, s: real, r: real)
      requires Valid()
      modifies this`adsrCarry
      ensures Valid()
      ensures adsrCarry.att == (if 0.0 < a <= 1.0 then a else old(adsrCarry.att))
      ensures adsrCarry.dec == (if 0.0 < d <= 1.0 then d else old(adsrCarry.dec))
      ensures adsrCarry.sus == (if 0.0 <= s <= 1.0 then s else old(adsrCarry.sus))
      ensures adsrCarry.rel == (if 0.0 < r <= 1.0 then r else old(adsrCarry.rel))
    {
      if a <= 1.0 && a > 0.0 {
        adsrCarry := adsrCarry.(att := a);
      }
      if d <= 1.0 && d > 0.0 {
        adsrCarry := adsrCarry.(dec := d);
      }
      if s <= 1.0 && s >= 0.0 {
        adsrCarry := adsrCarry.(sus := s);
      }
      if r <= 1.0 && r > 0.0 {
        adsrCarry := adsrCarry.(rel := r);
      }
    }

    /** The step sizes and the fill loop of vas_osc_carry_updateADSR. */
    method Bake()
      requires Valid()
      modifies lookupTableCarryADSR
      ensures lookupTableCarryADSR[..] == RampTable(RampOf(tableSizeADSR, adsrCarry))
    {
      var sumVal := adsrCarry.att + adsrCarry.dec + adsrCarry.rel;
      var stepSizeAttack := StepSizeAtt(tableSizeADSR, adsrCarry.att, sumVal);
      var stepSizeDecay := StepSizeDec(tableSizeADSR, adsrCarry.dec, sumVal, adsrCarry.sus);
      var stepSizeRelease := StepSizeRel(tableSizeADSR, adsrCarry.rel, sumVal, adsrCarry.sus);
      var releaseSamples := Share(tableSizeADSR, sumVal, adsrCarry.rel);
      var k := Ramp(tableSizeADSR, stepSizeAttack, stepSizeDecay, stepSizeRelease, adsrCarry.sus, releaseSamples);
      assert k == RampOf(tableSizeADSR, adsrCarry);
      FillRamp(k);
    }

    /** The fill loop of vas_osc_carry_updateADSR, for given step sizes. */
    method FillRamp(k: Ramp)
      requires Valid() && k.size == tableSizeADSR
      modifies lookupTableCarryADSR
      ensures lookupTableCarryADSR[..] == RampTable(k)
    {
      var currentX := 0.0;
      var currentY := 0.0;
      var stage := 0;
      for i := 0 to tableSizeADSR
        invariant RampState(currentX, currentY, stage) == RampAt(k, i)
        invariant forall j :: 0 <= j < i ==> lookupTableCarryADSR[j] == RampEntry(k, j)
      {
        var entry;
        entry, currentX, currentY, stage := RampIteration(k, i, currentX, currentY, stage);
        lookupTableCarryADSR[i] := entry;
      }
      assert lookupTableCarryADSR[..] == RampTable(k);
    }

    /** One iteration of the ramp fill: the clamped value to write, then the
        four stage tests in order and the counter step. */
    method RampIteration(k: Ramp, ghost i: nat, x: real, y: real, stage: nat)
      returns (entry: real, nextX: real, nextY: real, nextStage: nat)
      requires RampState(x, y, stage) == RampAt(k, i)
      ensures entry == RampEntry(k, i)
      ensures RampState(nextX, nextY, nextStage) == RampAt(k, i + 1)
    {
      var currentY := y;
      if currentY > 1.0 {
        currentY := 1.0;
      }
      if currentY < 0.0 {
        currentY := 0.0;
      }
      entry := currentY;
      nextStage := stage;
      if nextStage == 0 {
        if currentY < 1.0 {
          currentY := currentY + k.attack;
        } else {
          nextStage := nextStage + 1;
        }
      }
      if nextStage == 1 {
        if currentY >= k.sus {
          currentY := currentY + k.decay;
        } else {
          nextStage := nextStage + 1;
        }
      }
      if nextStage == 2 {
        if x > k.size as real - k.releaseSamples {
          nextStage := nextStage + 1;
        }
      }
      if nextStage == 3 {
        currentY := currentY + k.release;
      }
      nextX := x + 1.0;
      nextY := currentY;
    }
  }
}
