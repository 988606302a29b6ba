/** The table-lookup oscillator of vas_osc.c: a phase accumulator over a
    wavetable, advanced once per sample in one of five modulation modes, with
    guarded setters for its frequency and amplitude. */
module Osc {
  import opened Dsp

  /** The `mode` argument of the block routine. The five named modes are the
      cases of its switch; `Unknown` is any other code, which takes the
      default branch. */
  datatype Mode =
    | ModNoInput
    | ModWithInput
    | CarrierNoInput
    | CarrierWithInput
    | SumWithIn
    | Unknown(code: int)

  /** The modes in which every sample consumes one input sample. */
  predicate ReadsInput(mode: Mode)
  {
    mode.ModWithInput? || mode.CarrierWithInput? || mode.SumWithIn?
  }

  /** The modes whose phase increment is the bare frequency. */
  predicate Unmodulated(mode: Mode)
  {
    mode.ModNoInput? || mode.CarrierNoInput? || mode.SumWithIn?
  }

  /** Phase increment of one sample; `x` is the input sample read in that
      sample (ignored by the modes that read none). */
  function Increment(mode: Mode, frequency: real, x: real): (r: real)
    ensures 0.0 <= frequency && -1.0 <= x ==> 0.0 <= r
    ensures Unmodulated(mode) ==> r == frequency
  {
    match mode
    case ModNoInput => frequency
    case ModWithInput => (1.0 + x) * frequency
    case CarrierNoInput => frequency
    case CarrierWithInput => (1.0 + x) * frequency
    case SumWithIn => frequency
    case Unknown(_) => 0.0
  }

  /** The table sample as it leaves the switch: SUM mode averages it with the input. */
  function Shaped(mode: Mode, v: real, x: real): real
  {
    if mode.SumWithIn? then (v + x) * 0.5 else v
  }

  /** The input sample seen at sample `k`. A mode that reads no input sees a
      placeholder, which Increment and Shaped ignore for that mode. */
  function InputAt(mode: Mode, xs: seq<real>, k: nat): real
    requires ReadsInput(mode) ==> k < |xs|
  {
    if ReadsInput(mode) then xs[k] else 0.0
  }

  /** One sample's phase update: step by the mode's increment, then wrap once. */
  function NextPhase(size: int, frequency: real, mode: Mode, p: real, x: real): real
  {
    Wrap(p + Increment(mode, frequency, x), size)
  }

  /** One sample's output: the table entry read at the sample's phase,
      shaped by the mode and scaled by the amplitude. */
  function SampleOut(mode: Mode, amp: real, entry: real, x: real): real
  {
    Shaped(mode, entry, x) * amp
  }

  /** The phase after `k` samples of one block started at phase `p0`. */
  function PhaseAfter(size: int, frequency: real, mode: Mode, p0: real, xs: seq<real>, k: nat): (r: real)
    requires ReadsInput(mode) ==> k <= |xs|
    ensures mode.Unknown? && p0 < size as real ==> r == p0
    decreases k
  {
    if k == 0 then p0
    else NextPhase(size, frequency, mode, PhaseAfter(size, frequency, mode, p0, xs, k - 1), InputAt(mode, xs, k - 1))
  }

  /** The caller's obligation for a block of `n` samples: enough input where
      input is read, and every increment within `[0, size)`, the range the
      single-subtraction wrap can handle. */
  ghost predicate StepsBounded(size: int, frequency: real, mode: Mode, xs: seq<real>, n: nat)
  {
    && (ReadsInput(mode) ==> n <= |xs|)
    && forall k :: 0 <= k < n ==> 0.0 <= Increment(mode, frequency, InputAt(mode, xs, k)) < size as real
  }

  /** Every phase of a block stays inside the table, so every table read is in bounds. */
  lemma {:induction false} PhaseInRange(size: int, frequency: real, mode: Mode, p0: real, xs: seq<real>, n: nat, k: nat)
    requires 0.0 <= p0 < size as real
    requires StepsBounded(size, frequency, mode, xs, n) && k <= n
    ensures 0.0 <= PhaseAfter(size, frequency, mode, p0, xs, k) < size as real
    decreases k
  {
    if k > 0 {
      PhaseInRange(size, frequency, mode, p0, xs, n, k - 1);
      assert 0.0 <= Increment(mode, frequency, InputAt(mode, xs, k - 1)) < size as real;
    }
  }

  /** Output sample `k` of a block: the table read at the phase before the
      step, shaped by the mode, scaled by the amplitude. */
  function OutputAt(table: seq<real>, amp: real, frequency: real, mode: Mode, p0: real, xs: seq<real>, k: nat): (r: real)
    requires 0.0 <= p0 < |table| as real
    requires StepsBounded(|table|, frequency, mode, xs, k + 1)
    ensures 0.0 <= PhaseAfter(|table|, frequency, mode, p0, xs, k) < |table| as real
    ensures FloorOf(PhaseAfter(|table|, frequency, mode, p0, xs, k)) < |table|
    ensures !mode.SumWithIn? ==> r == table[FloorOf(PhaseAfter(|table|, frequency, mode, p0, xs, k))] * amp
    ensures mode.SumWithIn? ==> r == (table[FloorOf(PhaseAfter(|table|, frequency, mode, p0, xs, k))] + xs[k]) * 0.5 * amp
  {
    var p := PhaseAfter(|table|, frequency, mode, p0, xs, k);
    PhaseInRange(|table|, frequency, mode, p0, xs, k + 1, k);
    FloorInTable(p, |table|);
    SampleOut(mode, amp, table[FloorOf(p)], InputAt(mode, xs, k))
  }

  /** With frequency 1 from phase 0, the unmodulated oscillator reads the
      table in order and starts over at entry 0 after the last entry. */
  lemma {:induction false} UnitFrequencyReadsTableInOrder(table: seq<real>, amp: real, mode: Mode, xs: seq<real>, k: nat)
    requires mode.ModNoInput? || mode.CarrierNoInput?
    requires |table| >= 2
    ensures StepsBounded(|table|, 1.0, mode, xs, k + 1)
    ensures PhaseAfter(|table|, 1.0, mode, 0.0, xs, k) == (k % |table|) as real
    ensures OutputAt(table, amp, 1.0, mode, 0.0, xs, k) == table[k % |table|] * amp
  {
    UnitPhase(|table|, mode, xs, k);
    FloorOfWhole(k % |table|);
  }

  lemma {:induction false} UnitPhase(size: int, mode: Mode, xs: seq<real>, k: nat)
    requires mode.ModNoInput? || mode.CarrierNoInput?
    requires size >= 1
    ensures PhaseAfter(size, 1.0, mode, 0.0, xs, k) == (k % size) as real
    decreases k
  {
    if k > 0 {
      UnitPhase(size, mode, xs, k - 1);
      WrapSucc(k - 1, size);
    }
  }

  /** The number of wraps taken in the first `k` samples of a block. */
  function Laps(size: int, frequency: real, mode: Mode, p0: real, xs: seq<real>, k: nat): nat
    requires ReadsInput(mode) ==> k <= |xs|
    decreases k
  {
    if k == 0 then 0
    else
      var p := PhaseAfter(size, frequency, mode, p0, xs, k - 1);
      var wrapped := p + Increment(mode, frequency, InputAt(mode, xs, k - 1)) >= size as real;
      Laps(size, frequency, mode, p0, xs, k - 1) + (if wrapped then 1 else 0)
  }

  /** In the unmodulated modes the phase after `k` samples is `p0 + k * frequency`
      less a whole number of table lengths: the phase is congruent to
      `p0 + k * frequency` modulo the table size. */
  lemma {:induction false} PhaseTracksFrequency(size: int, frequency: real, mode: Mode, p0: real, xs: seq<real>, k: nat)
    requires Unmodulated(mode)
    requires ReadsInput(mode) ==> k <= |xs|
    ensures PhaseAfter(size, frequency, mode, p0, xs, k) + Laps(size, frequency, mode, p0, xs, k) as real * size as real
            == p0 + k as real * frequency
  {
    PhaseTracksRepeatedSteps(size, frequency, mode, p0, xs, k);
    RepeatedSumsAreProducts(PhaseAfter(size, frequency, mode, p0, xs, k), p0,
                            Laps(size, frequency, mode, p0, xs, k), size as real, k, frequency);
  }

  lemma {:induction false} PhaseTracksRepeatedSteps(size: int, frequency: real, mode: Mode, p0: real, xs: seq<real>, k: nat)
    requires Unmodulated(mode)
    requires ReadsInput(mode) ==> k <= |xs|
    ensures PhaseAfter(size, frequency, mode, p0, xs, k) + Repeated(size as real, Laps(size, frequency, mode, p0, xs, k))
            == p0 + Repeated(frequency, k)
    decreases k
  {
    if k > 0 {
      PhaseTracksRepeatedSteps(size, frequency, mode, p0, xs, k - 1);
      var p := PhaseAfter(size, frequency, mode, p0, xs, k - 1);
      var laps := Laps(size, frequency, mode, p0, xs, k - 1);
      assert Increment(mode, frequency, InputAt(mode, xs, k - 1)) == frequency;
      assert PhaseAfter(size, frequency, mode, p0, xs, k) == Wrap(p + frequency, size);
      if p + frequency >= size as real {
        assert Laps(size, frequency, mode, p0, xs, k) == laps + 1;
      } else {
        assert Laps(size, frequency, mode, p0, xs, k) == laps;
      }
    }
  }

  /** In the modes that read no input, neither the phase nor the output
      depends on the input buffer. */
  lemma {:induction false} InputIgnoredWhenNotRead(table: seq<real>, amp: real, frequency: real, mode: Mode, p0: real,
                                                  xs: seq<real>, ys: seq<real>, k: nat)
    requires !ReadsInput(mode)
    requires 0.0 <= p0 < |table| as real
    requires StepsBounded(|table|, frequency, mode, xs, k + 1)
    ensures StepsBounded(|table|, frequency, mode, ys, k + 1)
    ensures PhaseAfter(|table|, frequency, mode, p0, xs, k) == PhaseAfter(|table|, frequency, mode, p0, ys, k)
    ensures OutputAt(table, amp, frequency, mode, p0, xs, k) == OutputAt(table, amp, frequency, mode, p0, ys, k)
  {
    SamePhaseWithoutInput(|table|, frequency, mode, p0, xs, ys, k);
    assert forall j :: 0 <= j < k + 1 ==> InputAt(mode, xs, j) == InputAt(mode, ys, j);
  }

  lemma {:induction false} SamePhaseWithoutInput(size: int, frequency: real, mode: Mode, p0: real,
                                                xs: seq<real>, ys: seq<real>, k: nat)
    requires !ReadsInput(mode)
    ensures PhaseAfter(size, frequency, mode, p0, xs, k) == PhaseAfter(size, frequency, mode, p0, ys, k)
    decreases k
  {
    if k > 0 {
      SamePhaseWithoutInput(size, frequency, mode, p0, xs, ys, k - 1);
    }
  }

  /** Amplitude scaling is linear: the output at amplitude `a` is `a` times the output at amplitude 1. */
  lemma {:induction false} AmplitudeScalesOutput(table: seq<real>, a: real, frequency: real, mode: Mode, p0: real, xs: seq<real>, k: nat)
    requires 0.0 <= p0 < |table| as real
    requires StepsBounded(|table|, frequency, mode, xs, k + 1)
    ensures OutputAt(table, a, frequency, mode, p0, xs, k) == a * OutputAt(table, 1.0, frequency, mode, p0, xs, k)
  {
  }

  /** One oscillator: its wavetable, phase, frequency (a per-sample phase
      increment) and amplitude. */
  class Oscillator {
    const tableSize: nat
    const lookupTable: array<real>
    var currentIndex: real
    var frequency: real
    var amp: real

    /** What construction establishes and the setters keep. */
    ghost predicate Valid()
      reads this`frequency, this`amp
    {
      lookupTable.Length == tableSize && frequency > 0.0 && 0.0 <= amp <= 1.0
    }

    /** The phase indexes the table (possible only for a non-empty table). */
    ghost predicate PhaseInTable()
      reads this`currentIndex
    {
      0.0 <= currentIndex < tableSize as real
    }

    /** `sineAt(i)` stands for the sine value the constructor's loop computes
        for entry `i` (one period over the table). */
    constructor (tableSize: nat, sineAt: int -> real)
      ensures Valid() && fresh(lookupTable)
      ensures this.tableSize == tableSize && lookupTable.Length == tableSize
      ensures currentIndex == 0.0 && frequency == 440.0 && amp == 1.0
      ensures forall i :: 0 <= i < tableSize ==> lookupTable[i] == sineAt(i)
      ensures tableSize > 0 ==> PhaseInTable()
    {
      var table := new real[tableSize];
      for i := 0 to tableSize
        invariant forall j :: 0 <= j < i ==> table[j] == sineAt(j)
      {
        table[i] := sineAt(i);
      }
      this.tableSize := tableSize;
      lookupTable := table;
      currentIndex := 0.0;
      frequency := 440.0;
      amp := 1.0;
    }

    /** One pass of the block loop's body: read the entry at the floor of the
        phase, advance the phase as the mode's switch case does, scale the
        sample by the amplitude, and wrap the phase once. `x` is the input
        sample the case consumes (ignored by the cases that consume none). */
    method Step(x: real, mode: Mode) returns (sample: real)
      requires lookupTable.Length == tableSize && PhaseInTable()
      requires 0.0 <= Increment(mode, frequency, x) < tableSize as real
      modifies this`currentIndex
      ensures PhaseInTable()
      ensures currentIndex == NextPhase(tableSize, frequency, mode, old(currentIndex), x)
      ensures FloorOf(old(currentIndex)) < tableSize
      ensures sample == SampleOut(mode, amp, lookupTable[FloorOf(old(currentIndex))], x)
    {
      FloorInTable(currentIndex, tableSize);
      var intIndex := FloorOf(currentIndex);
      var currentValue := lookupTable[intIndex];
      currentValue := Switch(x, mode, currentValue);
      WrapStaysInTable(old(currentIndex), Increment(mode, frequency, x), tableSize);
      sample := currentValue * amp;
      if currentIndex >= tableSize as real {
        currentIndex := currentIndex - tableSize as real;
      }
    }

    /** The block loop's switch on the mode: advance the phase by the mode's
        increment and, in SUM mode, average the table sample `v` with the
        input sample `x`. */
    method Switch(x: real, mode: Mode, v: real) returns (shaped: real)
      modifies this`currentIndex
      ensures currentIndex == old(currentIndex) + Increment(mode, frequency, x)
      ensures shaped == Shaped(mode, v, x)
    {
      shaped := v;
      match mode {
        case ModNoInput =>
          currentIndex := currentIndex + frequency;
        case ModWithInput =>
          currentIndex := currentIndex + (1.0 + x) * frequency;
        case CarrierNoInput =>
          currentIndex := currentIndex + frequency;
        case CarrierWithInput =>
          currentIndex := currentIndex + (1.0 + x) * frequency;
        case SumWithIn =>
          shaped := (shaped + x) * 0.5;
          currentIndex := currentIndex + frequency;
        case Unknown(_) =>
          // the source only prints a diagnostic here; the phase stays put
      }
    }

    /** Processes one block of `vectorSize` samples. `input` and `out` may be the
        same buffer: sample `k` reads `input[k]` before it writes `out[k]`. */
    method Process(input: array<real>, out: array<real>, vectorSize: nat, mode: Mode)
      requires Valid() && PhaseInTable()
      requires vectorSize <= out.Length && out != lookupTable
      requires ReadsInput(mode) ==> vectorSize <= input.Length
      requires StepsBounded(tableSize, frequency, mode, input[..], vectorSize)
      modifies this`currentIndex, out
      ensures Valid() && PhaseInTable()
      ensures currentIndex == PhaseAfter(tableSize, frequency, mode, old(currentIndex), old(input[..]), vectorSize)
      ensures forall k :: 0 <= k < vectorSize ==>
                out[k] == OutputAt(lookupTable[..], amp, frequency, mode, old(currentIndex), old(input[..]), k)
      ensures forall k :: vectorSize <= k < out.Length ==> out[k] == old(out[k])
    {
      ghost var xs := input[..];
      ghost var p0 := currentIndex;
      var k := 0;
      while k < vectorSize
        invariant 0 <= k <= vectorSize
        invariant Valid() && PhaseInTable()
        invariant currentIndex == PhaseAfter(tableSize, frequency, mode, p0, xs, k)
        invariant forall j :: 0 <= j < k ==> out[j] == OutputAt(lookupTable[..], amp, frequency, mode, p0, xs, j)
        invariant forall j :: vectorSize <= j < out.Length ==> out[j] == old(out[j])
        invariant forall j :: k <= j < input.Length ==> input[j] == xs[j]
      {
        // the input sample `*in++` of the cases that read one
        var x := if ReadsInput(mode) then input[k] else 0.0;
        assert x == InputAt(mode, xs, k);
        out[k] := Step(x, mode);
        k := k + 1;
      }
    }

    /** Accepts a frequency only if it is positive; otherwise nothing changes. */
    method SetFrequency(f: real)
      requires Valid()
      modifies this`frequency
      ensures Valid()
      ensures frequency == (if f > 0.0 then f else old(frequency))
    {
      if f > 0.0 {
        frequency := f;
      }
    }

    /** Accepts an amplitude only if it lies in `[0, 1]`; otherwise nothing changes. */
    method SetAmp(a: real)
      requires Valid()
      modifies this`amp
      ensures Valid()
      ensures amp == (if 0.0 <= a <= 1.0 then a else old(amp))
    {
      if a >= 0.0 && a <= 1.0 {
        amp := a;
      }
    }
  }
}
