/** Arithmetic shared by the three table-driven components: the phase wrap
    that every accumulator performs after a step, and the clamp applied to
    every baked envelope sample. */
module Dsp {

  /** The single-subtraction wrap `if (p >= size) p -= size;`. */
  function Wrap(p: real, size: int): real
  {
    if p >= size as real then p - size as real else p
  }

  /** One subtraction is enough: a phase inside the table advanced by a step
      shorter than the table lands inside the table again. */
  lemma WrapStaysInTable(p: real, step: real, size: int)
    requires 0.0 <= p < size as real
    requires 0.0 <= step < size as real
    ensures 0.0 <= Wrap(p + step, size) < size as real
  {
  }

  /** A unit step followed by the wrap is the successor modulo the table size. */
  lemma WrapSucc(m: nat, size: int)
    requires size > 0
    ensures Wrap((m % size) as real + 1.0, size) == ((m + 1) % size) as real
  {
    var q, r := m / size, m % size;
    assert m == q * size + r;
    if r + 1 == size {
      assert m + 1 == (q + 1) * size + 0;
      ModUnique(m + 1, size, q + 1, 0);
    } else {
      assert m + 1 == q * size + (r + 1);
      ModUnique(m + 1, size, q, r + 1);
    }
  }

  /** Stepping a remainder by one and reducing again gives the remainder of
      the successor. */
  lemma SuccMod(m: nat, size: int)
    requires size > 0
    ensures (m % size + 1) % size == (m + 1) % size
  {
    var q, r := m / size, m % size;
    assert m == q * size + r;
    if r + 1 == size {
      ModUnique(m + 1, size, q + 1, 0);
      ModUnique(r + 1, size, 1, 0);
    } else {
      ModUnique(m + 1, size, q, r + 1);
      ModUnique(r + 1, size, 0, r + 1);
    }
  }

  /** Euclidean remainder is determined by any decomposition with a remainder in range. */
  lemma ModUnique(a: int, size: int, q: int, r: int)
    requires size > 0 && 0 <= r < size && a == q * size + r
    ensures a % size == r
  {
    var q', r' := a / size, a % size;
    assert a == q' * size + r';
    assert (q - q') * size == r' - r && (q' - q) * size == r - r' by {
      assert q * size - q' * size == (q - q') * size;
      assert q' * size - q * size == (q' - q) * size;
    }
    if q > q' {
      MulAtLeast(q - q', size);
    } else if q < q' {
      MulAtLeast(q' - q, size);
    }
  }

  lemma MulAtLeast(d: int, size: int)
    requires d >= 1 && size > 0
    ensures d * size >= size
  {
    assert d * size == (d - 1) * size + size;
    assert (d - 1) * size >= 0;
  }

  /** `floor(p)` for a non-negative phase, counted down one unit at a time
      (the only way the table-driven components use floor). Its meaning is
      stated by FloorIsFloor; keeping it out of the function's own contract
      keeps integer-real coupling out of the callers' proofs. */
  function FloorOf(p: real): nat
    requires p >= 0.0
    decreases p.Floor
  {
    if p < 1.0 then 0 else 1 + FloorOf(p - 1.0)
  }

  /** FloorOf is the floor: the greatest integer not above the phase. */
  lemma {:induction false} FloorIsFloor(p: real)
    requires p >= 0.0
    ensures FloorOf(p) as real <= p < FloorOf(p) as real + 1.0
    ensures FloorOf(p) == p.Floor
    decreases p.Floor
  {
    if p >= 1.0 {
      FloorIsFloor(p - 1.0);
    }
  }

  /** The floor of a whole number is that number. */
  lemma {:induction false} FloorOfWhole(n: nat)
    ensures FloorOf(n as real) == n
  {
    if n > 0 {
      FloorOfWhole(n - 1);
      assert (n - 1) as real == n as real - 1.0;
    }
  }

  /** A phase inside a table of `size` entries indexes an entry of it. */
  lemma FloorInTable(p: real, size: int)
    requires 0.0 <= p < size as real
    ensures FloorOf(p) < size
  {
    FloorIsFloor(p);
  }

  /** `n` steps of size `step` added up, `n * step` written as repeated
      addition so that inductive proofs stay linear. */
  function Repeated(step: real, n: nat): real
  {
    if n == 0 then 0.0 else Repeated(step, n - 1) + step
  }

  lemma {:induction false} RepeatedIsProduct(step: real, n: nat)
    ensures Repeated(step, n) == n as real * step
  {
    if n > 0 {
      RepeatedIsProduct(step, n - 1);
      assert n as real * step == (n - 1) as real * step + step;
    }
  }

  /** An identity between two repeated sums carries over to the products they equal. */
  lemma RepeatedSumsAreProducts(a: real, b: real, m: nat, x: real, n: nat, y: real)
    requires a + Repeated(x, m) == b + Repeated(y, n)
    ensures a + m as real * x == b + n as real * y
  {
    RepeatedIsProduct(x, m);
    RepeatedIsProduct(y, n);
  }

  /** A segment's share of a table of `size` entries split by time:
      `(size / sum) * t`, as both envelope bakers compute it. */
  function Share(size: nat, sum: real, t: real): (r: real)
    requires sum > 0.0 && t >= 0.0
    ensures r >= 0.0
    ensures size > 0 && t > 0.0 ==> r > 0.0
  {
    (size as real / sum) * t
  }

  /** The clamp applied to an envelope value just before it is written:
      values above one become one, values below zero become zero. */
  function Clamp(y: real): (r: real)
    ensures 0.0 <= r <= 1.0
    ensures 0.0 <= y <= 1.0 ==> r == y
  {
    if y > 1.0 then 1.0 else if y < 0.0 then 0.0 else y
  }
}
