/** The baked ADSR envelope of vas_adsr.c: a table of `5 * tableSize` entries
    filled once with an attack, decay, sustain and release curve, then read
    cyclically to scale an input signal. `pow` (the C library's `pow`/`powf`)
    is a parameter of the model; nothing is known about it except where a
    lemma says so. */
module Adsr {
  import opened Dsp

  /** `(base, exponent) -> base ^ exponent`. */
  type Pow = (real, real) -> real

  /** vas_adsr_func_attack_normalized: `x ^ q` on `[0, 1]`, clamped outside. */
  function AttackNormalized(pow: Pow, x: real, q: real): (r: real)
    ensures x < 0.0 ==> r == 0.0
    ensures x > 1.0 ==> r == 1.0
    ensures 0.0 <= x <= 1.0 ==> r == pow(x, q)
  {
    if x < 0.0 then 0.0
    else if x > 1.0 then 1.0
    else pow(x, q)
  }

  /** vas_adsr_func_decay_normalized: falls from 1 to `s` on `[0, 1]`, clamped outside. */
  function DecayNormalized(pow: Pow, x: real, q: real, s: real): (r: real)
    requires q != 0.0
    ensures x < 0.0 ==> r == 1.0
    ensures x > 1.0 ==> r == s
  {
    if x < 0.0 then 1.0
    else if x > 1.0 then s
    else 1.0 - pow(x * pow(1.0 - s, 1.0 / q), q)
  }

  /** vas_adsr_func_sustain_normalized: the sustain level, whatever `x` is. */
  function SustainNormalized(x: real, s: real): (r: real)
    ensures r == s
  {
    s
  }

  /** vas_adsr_func_release_normalized: falls from `s` to 0 on `[0, 1]`, clamped outside. */
  function ReleaseNormalized(pow: Pow, x: real, q: real, s: real): (r: real)
    requires q != 0.0
    ensures x < 0.0 ==> r == 1.0
    ensures x > 1.0 ==> r == 0.0
  {
    if x < 0.0 then 1.0
    else if x > 1.0 then 0.0
    else s - pow(x * pow(s, 1.0 / q), q)
  }

  /** The power laws a genuine `pow` obeys at the points the shapes use. */
  predicate PowLaws(pow: Pow, q: real, s: real)
  {
    && q != 0.0
    && pow(0.0, q) == 0.0
    && pow(1.0, q) == 1.0
    && pow(pow(1.0 - s, 1.0 / q), q) == 1.0 - s
    && pow(pow(s, 1.0 / q), q) == s
  }

  /** Attack saturates: 0 up to its start, 1 from its end on. */
  lemma AttackSaturates(pow: Pow, q: real, s: real, x: real)
    requires PowLaws(pow, q, s)
    ensures x <= 0.0 ==> AttackNormalized(pow, x, q) == 0.0
    ensures x >= 1.0 ==> AttackNormalized(pow, x, q) == 1.0
  {
  }

  /** Decay saturates: 1 up to its start, the sustain level from its end on,
      so it joins the attack's end to the sustain plateau. */
  lemma DecaySaturates(pow: Pow, q: real, s: real, x: real)
    requires q != 0.0 && PowLaws(pow, q, s)
    ensures x <= 0.0 ==> DecayNormalized(pow, x, q, s) == 1.0
    ensures x >= 1.0 ==> DecayNormalized(pow, x, q, s) == s
  {
    if x == 1.0 {
      assert x * pow(1.0 - s, 1.0 / q) == pow(1.0 - s, 1.0 / q);
    }
  }

  /** Release starts at the sustain level and ends at silence; below 0 the
      clamp gives 1, not `s`. */
  lemma ReleaseEnds(pow: Pow, q: real, s: real, x: real)
    requires q != 0.0 && PowLaws(pow, q, s)
    ensures x < 0.0 ==> ReleaseNormalized(pow, x, q, s) == 1.0
    ensures x == 0.0 ==> ReleaseNormalized(pow, x, q, s) == s
    ensures x >= 1.0 ==> ReleaseNormalized(pow, x, q, s) == 0.0
  {
    if x == 1.0 {
      assert x * pow(s, 1.0 / q) == pow(s, 1.0 / q);
    }
  }

  /** Sustain ignores its position argument. */
  lemma SustainIsFlat(x: real, x': real, s: real)
    ensures SustainNormalized(x, s) == SustainNormalized(x', s) == s
  {
  }

  // ---------------------------------------------------------------------
  // Segment lengths

  /** The number of table entries given to each segment. */
  datatype Segments = Segments(attack: int, decay: int, sustain: int, release: int)

  /** The segment lengths of vas_adsr_updateADSR: attack, decay and sustain
      get the floor of their share of the table by time, release gets the rest. */
  function SegmentCounts(tableSize: nat, attT: real, decT: real, susT: real, relT: real): (c: Segments)
    requires attT >= 0.0 && decT >= 0.0 && susT > 0.0 && relT >= 0.0
    ensures var sum := attT + decT + relT + susT;
            && c.attack as real <= Share(tableSize, sum, attT) < c.attack as real + 1.0
            && c.decay as real <= Share(tableSize, sum, decT) < c.decay as real + 1.0
            && c.sustain as real <= Share(tableSize, sum, susT) < c.sustain as real + 1.0
    ensures c.release == tableSize - c.attack - c.decay - c.sustain
  {
    var sum := attT + decT + relT + susT;
    FloorIsFloor(Share(tableSize, sum, attT));
    FloorIsFloor(Share(tableSize, sum, decT));
    FloorIsFloor(Share(tableSize, sum, susT));
    var a := FloorOf(Share(tableSize, sum, attT));
    var d := FloorOf(Share(tableSize, sum, decT));
    var s := FloorOf(Share(tableSize, sum, susT));
    Segments(a, d, s, tableSize - a - d - s)
  }

  /** The four segments tile the table: they are non-negative and add up to
      its size, and a positive release time leaves release at least one entry. */
  lemma {:induction false} SegmentsTileTable(tableSize: nat, attT: real, decT: real, susT: real, relT: real)
    requires attT >= 0.0 && decT >= 0.0 && susT > 0.0 && relT >= 0.0
    ensures var c := SegmentCounts(tableSize, attT, decT, susT, relT);
            && c.attack >= 0 && c.decay >= 0 && c.sustain >= 0 && c.release >= 0
            && c.attack + c.decay + c.sustain + c.release == tableSize
    ensures tableSize > 0 && relT > 0.0 ==> SegmentCounts(tableSize, attT, decT, susT, relT).release >= 1
  {
    var sum := attT + decT + relT + susT;
    var c := SegmentCounts(tableSize, attT, decT, susT, relT);
    var a, d, s := c.attack, c.decay, c.sustain;
    SharesFit(tableSize, sum, attT, decT, susT, relT);
    assert (a + d + s) as real <= tableSize as real - Share(tableSize, sum, relT);
    if tableSize > 0 && relT > 0.0 {
      assert (a + d + s) as real < tableSize as real;
    }
  }

  /** The shares of attack, decay and sustain add up to the table size less
      the release share, which is positive when the release time is. */
  lemma SharesFit(tableSize: nat, sum: real, attT: real, decT: real, susT: real, relT: real)
    requires sum == attT + decT + relT + susT && attT >= 0.0 && decT >= 0.0 && susT > 0.0 && relT >= 0.0
    ensures Share(tableSize, sum, attT) + Share(tableSize, sum, decT) + Share(tableSize, sum, susT)
            == tableSize as real - Share(tableSize, sum, relT)
    ensures tableSize > 0 && relT > 0.0 ==> Share(tableSize, sum, relT) > 0.0
  {
    var scale := tableSize as real / sum;
    assert scale * sum == tableSize as real;
    assert scale * sum == scale * attT + scale * decT + scale * susT + scale * relT;
  }

  // ---------------------------------------------------------------------
  // The baked curve

  /** The curve parameters the fill reads: the table size, the four stored
      times (`susT` is the fixed sustain share), the sustain level and the
      three q factors. */
  datatype Shape = Shape(tableSize: nat, attT: real, decT: real, susT: real, relT: real,
                         susV: real, attQ: real, decQ: real, relQ: real)

  /** What the fill needs: a positive time sum and non-zero decay and release q. */
  predicate ShapeOk(p: Shape)
  {
    p.attT >= 0.0 && p.decT >= 0.0 && p.susT > 0.0 && p.relT >= 0.0 && p.decQ != 0.0 && p.relQ != 0.0
  }

  function Segs(p: Shape): Segments
    requires ShapeOk(p)
  {
    SegmentCounts(p.tableSize, p.attT, p.decT, p.susT, p.relT)
  }

  /** The fill loop's `stage` counter (0 to 3 in the source). */
  datatype Stage = Attack | Decay | Sustain | Release
  {
    function Rank(): nat
    {
      match this
      case Attack => 0
      case Decay => 1
      case Sustain => 2
      case Release => 3
    }
  }

  /** The fill loop's two variables, `currentY` and `stage`. */
  datatype FillState = FillState(y: real, stage: Stage)

  /** The stage facts that keep the fill's divisions defined at iteration `i`. */
  predicate StageFacts(p: Shape, i: int, s: FillState)
    requires ShapeOk(p)
  {
    && (s.stage != Attack ==> i > Segs(p).attack)
    && (s.stage == Release ==> i >= p.tableSize - Segs(p).release + 2)
  }

  /** One iteration `i` of the fill loop after the entry is written: clamp,
      then compute the next value or move to the next stage. */
  function Advance(pow: Pow, p: Shape, i: nat, s: FillState): (r: FillState)
    requires ShapeOk(p) && i < p.tableSize && StageFacts(p, i, s)
    ensures r.stage.Rank() == s.stage.Rank() || r.stage.Rank() == s.stage.Rank() + 1
    ensures StageFacts(p, i + 1, r)
  {
    var c := Segs(p);
    var y := Clamp(s.y);
    match s.stage
    case Attack =>
      if i < c.attack then FillState(AttackNormalized(pow, i as real / c.attack as real, p.attQ), Attack)
      else FillState(y, Decay)
    case Decay =>
      if i < c.attack + c.decay then FillState(DecayNormalized(pow, DecayPosition(c, i), p.decQ, p.susV), Decay)
      else FillState(y, Sustain)
    case Sustain =>
      if i > p.tableSize - c.release then FillState(y, Release)
      else FillState(y, Sustain)
    case Release =>
      FillState(ReleaseNormalized(pow, ReleasePosition(c, i), p.relQ, p.susV), Release)
  }

  /** The position the decay shape is read at, as the fill computes it: the
      iteration over the decay length, not counted from the decay's start. */
  function DecayPosition(c: Segments, i: nat): real
    requires c.decay > 0
  {
    i as real / c.decay as real
  }

  /** The position the release shape is read at, as the fill computes it:
      the iteration over the release length, not counted from the release's start. */
  function ReleasePosition(c: Segments, i: nat): real
    requires c.release > 0
  {
    i as real / c.release as real
  }

  /** A whole number over a smaller positive one is more than 1. */
  lemma QuotientAboveOne(n: nat, d: nat)
    requires 0 < d < n
    ensures n as real / d as real > 1.0
  {
    assert (n as real / d as real) * d as real == n as real;
  }

  /** Once the attack is at least as long as the decay, every decay
      iteration after the first reads the decay shape past its end, so the
      decay writes the sustain level at once instead of falling to it. */
  lemma DecayOvershoots(pow: Pow, p: Shape, i: nat, y: real)
    requires ShapeOk(p) && i < p.tableSize
    requires Segs(p).attack >= Segs(p).decay && Segs(p).attack < i < Segs(p).attack + Segs(p).decay
    ensures DecayPosition(Segs(p), i) > 1.0
    ensures Advance(pow, p, i, FillState(y, Decay)) == FillState(p.susV, Decay)
  {
    var c := Segs(p);
    QuotientAboveOne(i, c.decay);
  }

  /** Once the release is shorter than about half the table, every release
      iteration reads the release shape past its end, so the release drops
      to silence at once instead of falling from the sustain level. */
  lemma ReleaseOvershoots(pow: Pow, p: Shape, i: nat, y: real)
    requires ShapeOk(p) && i < p.tableSize && i >= p.tableSize - Segs(p).release + 2
    requires 2 * Segs(p).release < p.tableSize + 2
    ensures ReleasePosition(Segs(p), i) > 1.0
    ensures Advance(pow, p, i, FillState(y, Release)) == FillState(0.0, Release)
  {
    var c := Segs(p);
    QuotientAboveOne(i, c.release);
  }

  /** The shape the constructor bakes for a requested size of 6 (a table of
      30 entries): attack, decay and sustain get 5 entries each and release
      15, so both lemmas above apply and the decay and release fall as steps. */
  lemma {:induction false} DefaultsCollapse(susV: real, q: real)
    requires q != 0.0
    ensures var p := Shape(30, 0.5, 0.5, 0.5, 1.5, susV, q, q, q);
            && ShapeOk(p) && Segs(p) == Segments(5, 5, 5, 15)
            && DecayPosition(Segs(p), 6) > 1.0 && ReleasePosition(Segs(p), 17) > 1.0
  {
    assert Share(30, 3.0, 0.5) == 5.0;
    FloorOfWhole(5);
  }

  /** The decay position counted from the decay's first entry, as the
      shape functions' `[0, 1]` domain evidently intends. */
  function IntendedDecayPosition(c: Segments, i: nat): real
    requires c.decay > 0
  {
    (i - c.attack) as real / c.decay as real
  }

  /** The release position counted from the release's first entry. */
  function IntendedReleasePosition(tableSize: nat, c: Segments, i: nat): real
    requires c.release > 0
  {
    (i - (tableSize - c.release)) as real / c.release as real
  }

  /** Counted from each stage's start, every decay iteration and every
      release iteration reads its shape inside `[0, 1]`; the decay starts at
      position 0, where the decay shape is at full level. */
  lemma IntendedPositionsInRange(p: Shape, i: nat)
    requires ShapeOk(p) && i < p.tableSize
    ensures var c := Segs(p);
            Segs(p).attack <= i < Segs(p).attack + Segs(p).decay ==>
              0.0 <= IntendedDecayPosition(c, i) < 1.0 && (i == c.attack ==> IntendedDecayPosition(c, i) == 0.0)
    ensures var c := Segs(p);
            i >= p.tableSize - c.release + 2 ==> 0.0 < IntendedReleasePosition(p.tableSize, c, i) < 1.0
  {
    var c := Segs(p);
    if c.attack <= i < c.attack + c.decay {
      assert IntendedDecayPosition(c, i) * c.decay as real == (i - c.attack) as real;
    }
    if i >= p.tableSize - c.release + 2 {
      assert IntendedReleasePosition(p.tableSize, c, i) * c.release as real == (i - (p.tableSize - c.release)) as real;
    }
  }

  /** The fill loop's variables at the start of iteration `i`. */
  function FillAt(pow: Pow, p: Shape, i: nat): (r: FillState)
    requires ShapeOk(p) && i <= p.tableSize
    ensures StageFacts(p, i, r)
    decreases i
  {
    if i == 0 then FillState(0.0, Attack)
    else Advance(pow, p, i - 1, FillAt(pow, p, i - 1))
  }

  /** Table entry `i`: the clamped value at the start of iteration `i`. */
  function Entry(pow: Pow, p: Shape, i: nat): real
    requires ShapeOk(p) && i < p.tableSize
  {
    Clamp(FillAt(pow, p, i).y)
  }

  /** The whole baked table. Every entry is a gain in `[0, 1]`, and the
      curve starts from silence. */
  function Curve(pow: Pow, p: Shape): (t: seq<real>)
    requires ShapeOk(p)
    ensures |t| == p.tableSize
    ensures forall i :: 0 <= i < |t| ==> 0.0 <= t[i] <= 1.0
    ensures |t| > 0 ==> t[0] == 0.0
  {
    seq(p.tableSize, i requires 0 <= i < p.tableSize => Entry(pow, p, i))
  }

  /** The stage never falls back: it is monotone over the whole fill. */
  lemma {:induction false} StageNeverFallsBack(pow: Pow, p: Shape, i: nat, j: nat)
    requires ShapeOk(p) && i <= j <= p.tableSize
    ensures FillAt(pow, p, i).stage.Rank() <= FillAt(pow, p, j).stage.Rank()
    decreases j
  {
    if i < j {
      StageNeverFallsBack(pow, p, i, j - 1);
    }
  }

  /** The fill is in its attack stage exactly up to iteration `attack`. */
  lemma {:induction false} AttackSpan(pow: Pow, p: Shape, i: nat)
    requires ShapeOk(p) && i <= p.tableSize
    ensures FillAt(pow, p, i).stage == Attack <==> i <= Segs(p).attack
    decreases i
  {
    if i > 0 {
      AttackSpan(pow, p, i - 1);
    }
  }

  /** The attack segment: entries 1 to `attack` follow the attack shape at
      `(i - 1) / attack`, the position of the iteration that computed them. */
  lemma AttackEntries(pow: Pow, p: Shape, i: nat)
    requires ShapeOk(p) && 0 < i <= Segs(p).attack && i < p.tableSize
    ensures Curve(pow, p)[i] == Clamp(AttackNormalized(pow, (i - 1) as real / Segs(p).attack as real, p.attQ))
  {
    AttackSpan(pow, p, i - 1);
  }

  // ---------------------------------------------------------------------
  // Reading the table

  /** An input sample scaled by the table entry `position` samples from the
      start, the table read cyclically. */
  function Gained(table: seq<real>, position: nat, x: real): (g: real)
    requires |table| > 0
    ensures position < |table| ==> g == table[position] * x
    ensures x == 0.0 ==> g == 0.0
  {
    if position < |table| then ModUnique(position, |table|, 0, position); table[position % |table|] * x
    else table[position % |table|] * x
  }

  /** A read a whole table length later scales by the same entry: the
      envelope repeats with the table's period. */
  lemma GainIsPeriodic(table: seq<real>, position: nat, x: real)
    requires |table| > 0
    ensures Gained(table, position + |table|, x) == Gained(table, position, x)
  {
    var n := |table|;
    ModUnique(position + n, n, position / n + 1, position % n);
  }

  // ---------------------------------------------------------------------
  // The envelope object

  /** One envelope: its table, read position, stored times, sustain level
      and q factors. */
  class Envelope {
    const tableSize: nat
    const lookupTable: array<real>
    const pow: Pow
    const susT: real
    var currentIndex: real
    /** The read position as a whole number; `currentIndex` is always its value. */
    ghost var position: nat
    var attT: real
    var decT: real
    var susV: real
    var relT: real
    var attQ: real
    var decQ: real
    var relQ: real

    /** The parameters the table is baked from. */
    function Params(): Shape
      reads this
    {
      Shape(tableSize, attT, decT, susT, relT, susV, attQ, decQ, relQ)
    }

    /** The state every envelope is in: table allocated, sustain share 0.5,
        q factors positive, and an integral read position inside the table. */
    ghost predicate Ready()
      reads this
    {
      && lookupTable.Length == tableSize
      && susT == 0.5
      && attQ > 0.0 && decQ > 0.0 && relQ > 0.0
      && currentIndex == position as real
      && (position < tableSize || position == 0)
    }

    /** What the setters keep: every stored time in its accepted range. */
    ghost predicate Valid()
      reads this
    {
      && Ready()
      && 0.0 < attT <= 1.0 && 0.0 < decT <= 1.0 && 0.0 <= susV <= 1.0 && 0.0 < relT <= 3.0
    }

    /** The table holds the curve of the current parameters. */
    ghost predicate Baked()
      reads this, lookupTable
    {
      && ShapeOk(Params())
      && lookupTable[..] == Curve(pow, Params())
    }

    /** vas_adsr_new: a table five times the requested size, all q at 1, the
        sustain share at 0.5, then a fill with every time at 0.5. */
    constructor (n: nat, pow: Pow)
      ensures Valid() && Baked() && fresh(lookupTable)
      ensures tableSize == 5 * n && currentIndex == 0.0 && this.pow == pow
      ensures attQ == 1.0 && decQ == 1.0 && relQ == 1.0 && susT == 0.5
      ensures attT == 0.5 && decT == 0.5 && susV == 0.5 && relT == 1.5
    {
      tableSize := 5 * n;
      lookupTable := new real[5 * n];
      currentIndex := 0.0;
      position := 0;
      susT := 0.5;
      attQ := 1.0;
      decQ := 1.0;
      relQ := 1.0;
      this.pow := pow;
      new;
      UpdateADSR(0.5, 0.5, 0.5, 0.5);
    }

    /** vas_adsr_process: each sample is the input scaled by the table entry
        at the read position, which then steps by one and wraps once; the
        reads run cyclically through the table from the starting position. */
    method Process(input: array<real>, out: array<real>, vectorSize: nat)
      requires Ready() && tableSize > 0
      requires vectorSize <= input.Length && vectorSize <= out.Length && out != lookupTable
      modifies this`currentIndex, this`position, out
      ensures Ready()
      ensures position == (old(position) + vectorSize) % tableSize
      ensures forall k :: 0 <= k < vectorSize ==>
                out[k] == Gained(lookupTable[..], old(position) + k, old(input[k]))
      ensures forall k :: vectorSize <= k < out.Length ==> out[k] == old(out[k])
    {
      ghost var xs := input[..];
      ghost var table := lookupTable[..];
      ghost var start := position;
      ModUnique(start, tableSize, 0, start);
      var k := 0;
      while k < vectorSize
        invariant 0 <= k <= vectorSize
        invariant Ready()
        invariant position == (start + k) % tableSize
        invariant forall j :: 0 <= j < k ==> out[j] == Gained(table, start + j, xs[j])
        invariant forall j :: vectorSize <= j < out.Length ==> out[j] == old(out[j])
        invariant forall j :: k <= j < input.Length ==> input[j] == xs[j]
      {
        out[k] := Tick(input[k], start + k);
        SuccMod(start + k, tableSize);
        k := k + 1;
      }
    }

    /** One sample of vas_adsr_process: the input scaled by the entry at the
        read position, which then steps by one with the single-subtraction
        wrap. `at` is any count of samples that lands on the read position. */
    method Tick(x: real, ghost at: nat) returns (y: real)
      requires Ready() && tableSize > 0 && at % tableSize == position
      modifies this`currentIndex, this`position
      ensures Ready()
      ensures position == (at + 1) % tableSize
      ensures y == Gained(lookupTable[..], at, x)
    {
      FloorOfWhole(position);
      var intIndex := FloorOf(currentIndex);
      var currentValue := lookupTable[intIndex];
      currentValue := currentValue * x;
      currentIndex := currentIndex + 1.0;
      y := currentValue;
      ModUnique(position, tableSize, 0, position);
      WrapSucc(position, tableSize);
      SuccMod(at, tableSize);
      if currentIndex >= tableSize as real {
        currentIndex := currentIndex - tableSize as real;
      }
      position := (position + 1) % tableSize;
    }

    /** vas_adsr_updateADSR: accepts each of the four parameters on its own
        (times in `(0, 1]`, level in `[0, 1]`, release stored tripled), then
        re-bakes the table. The stored times must be usable for every
        parameter that is rejected, as they are after construction. */
    method UpdateADSR(a: real, d: real, s: real, r: real)
      requires Ready()
      requires (0.0 < a <= 1.0 || attT >= 0.0) && (0.0 < d <= 1.0 || decT >= 0.0) && (0.0 < r <= 1.0 || relT >= 0.0)
      modifies this`attT, this`decT, this`susV, this`relT, lookupTable
      ensures Ready() && Baked()
      ensures attT == (if 0.0 < a <= 1.0 then a else old(attT))
      ensures decT == (if 0.0 < d <= 1.0 then d else old(decT))
      ensures susV == (if 0.0 <= s <= 1.0 then s else old(susV))
      ensures relT == (if 0.0 < r <= 1.0 then 3.0 * r else old(relT))
      ensures old(Valid()) ==> Valid()
    {
      AcceptTimes(a, d, s, r);
      Fill();
    }

    /** The acceptance half of vas_adsr_updateADSR: each parameter is stored
        when in range and ignored otherwise. */
    method AcceptTimes(a: real, d: real, s: real, r: real)
      modifies this`attT, this`decT, this`susV, this`relT
      ensures attT == (if 0.0 < a <= 1.0 then a else old(attT))
      ensures decT == (if 0.0 < d <= 1.0 then d else old(decT))
      ensures susV == (if 0.0 <= s <= 1.0 then s else old(susV))
      ensures relT == (if 0.0 < r <= 1.0 then 3.0 * r else old(relT))
    {
      if a <= 1.0 && a > 0.0 {
        attT := a;
      }
      if d <= 1.0 && d > 0.0 {
        decT := d;
      }
      if s <= 1.0 && s >= 0.0 {
        susV := s;
      }
      if r <= 1.0 && r > 0.0 {
        relT := 3.0 * r;
      }
    }

    /** The segment lengths and the fill loop of vas_adsr_updateADSR. */
    method Fill()
      requires Ready() && attT >= 0.0 && decT >= 0.0 && relT >= 0.0
      modifies lookupTable
      ensures Baked()
    {
      ghost var p := Params();
      var sum_t := attT + decT + relT + susT;
      var attackSamples := FloorOf(Share(tableSize, sum_t, attT));
      var decaySamples := FloorOf(Share(tableSize, sum_t, decT));
      var sustainSamples := FloorOf(Share(tableSize, sum_t, susT));
      var releaseSamples := tableSize - attackSamples - decaySamples - sustainSamples;
      assert Segments(attackSamples, decaySamples, sustainSamples, releaseSamples) == Segs(p);
      var currentY := 0.0;
      var stage := Attack;
      for i := 0 to tableSize
        invariant FillState(currentY, stage) == FillAt(pow, p, i)
        invariant forall j :: 0 <= j < i ==> lookupTable[j] == Entry(pow, p, j)
      {
        var entry;
        entry, currentY, stage := FillIteration(i, currentY, stage, attackSamples, decaySamples, releaseSamples);
        assert entry == Entry(pow, p, i);
        lookupTable[i] := entry;
      }
      assert lookupTable[..] == Curve(pow, p);
    }

    /** One iteration of the fill loop: the clamped value to write, then the
        next value or the next stage. */
    method FillIteration(i: nat, y: real, stage: Stage, attackSamples: int, decaySamples: int, releaseSamples: int)
      returns (entry: real, nextY: real, nextStage: Stage)
      requires ShapeOk(Params()) && i < tableSize
      requires Segs(Params()).attack == attackSamples && Segs(Params()).decay == decaySamples
      requires Segs(Params()).release == releaseSamples
      requires StageFacts(Params(), i, FillState(y, stage))
      ensures entry == Clamp(y)
      ensures FillState(nextY, nextStage) == Advance(pow, Params(), i, FillState(y, stage))
    {
      var currentY := y;
      if currentY > 1.0 {
        currentY := 1.0;
      }
      if currentY < 0.0 {
        currentY := 0.0;
      }
      entry := currentY;
      nextStage := stage;
      match stage {
        case Attack =>
          if i < attackSamples {
            var stepSize := i as real / attackSamples as real;
            currentY := AttackNormalized(pow, stepSize, attQ);
          } else {
            nextStage := Decay;
          }
        case Decay =>
          if i < attackSamples + decaySamples {
            var stepSize := i as real / decaySamples as real;
            assert stepSize == DecayPosition(Segs(Params()), i);
            currentY := DecayNormalized(pow, stepSize, decQ, susV);
          } else {
            nextStage := Sustain;
          }
        case Sustain =>
          if i > tableSize - releaseSamples {
            nextStage := Release;
          }
        case Release =>
          var stepSize := i as real / releaseSamples as real;
          assert stepSize == ReleasePosition(Segs(Params()), i);
          currentY := ReleaseNormalized(pow, stepSize, relQ, susV);
      }
      nextY := currentY;
    }

    /** vas_adsr_setQ: accepts each q on its own when positive, then passes
        the stored times back through updateADSR. The stored release time is
        already tripled, so it is tripled again when it is at most 1. */
    method SetQ(qa: real, qd: real, qr: real)
      requires Valid()
      modifies this`attQ, this`decQ, this`relQ, this`attT, this`decT, this`susV, this`relT, lookupTable
      ensures Valid() && Baked()
      ensures attQ == (if qa > 0.0 then qa else old(attQ))
      ensures decQ == (if qd > 0.0 then qd else old(decQ))
      ensures relQ == (if qr > 0.0 then qr else old(relQ))
      ensures attT == old(attT) && decT == old(decT) && susV == old(susV)
      ensures relT == (if old(relT) <= 1.0 then 3.0 * old(relT) else old(relT))
    {
      if qa > 0.0 {
        attQ := qa;
      }
      if qd > 0.0 {
        decQ := qd;
      }
      if qr > 0.0 {
        relQ := qr;
      }
      UpdateADSR(attT, decT, susV, relT);
    }
  }
}
