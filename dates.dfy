/** Date values as JavaScript holds them: whole milliseconds since the Unix epoch. */
module Dates {

  /** The time value of a `Date` (what `date.valueOf()` returns). */
  type Millis = int

  /** Milliseconds in one calendar day when no daylight-saving change falls inside it. */
  const MsPerDay: int := 86_400_000

  /** `new Date(v)` for a finite number `v`: the time value is `v` truncated toward zero. */
  function FromNumber(v: real): (t: Millis)
    ensures v >= 0.0 ==> t as real <= v < t as real + 1.0
    ensures v < 0.0 ==> t as real - 1.0 < v <= t as real
  {
    if v >= 0.0 then v.Floor else -((-v).Floor)
  }

  /** Truncation moves a value by less than one millisecond, toward zero. */
  lemma FromNumberError(v: real)
    ensures -1.0 < FromNumber(v) as real - v < 1.0
    ensures FromNumber(v) >= 0 <==> v > -1.0
  {
  }

  /** A whole number of milliseconds is kept as it is. */
  lemma FromNumberWhole(n: int)
    ensures FromNumber(n as real) == n
  {
  }

  /** Truncation never reverses the order of two values. */
  lemma FromNumberMonotone(a: real, b: real)
    requires a <= b
    ensures FromNumber(a) <= FromNumber(b)
  {
  }

  /** Two values at least two milliseconds apart stay apart after truncation. */
  lemma FromNumberStrict(a: real, b: real)
    requires a + 2.0 <= b
    ensures FromNumber(a) < FromNumber(b)
  {
  }

  /** Truncating two values `gap` apart keeps them in order when the gap is non-negative
      (strictly when it is at least two) and reverses or merges them when it is not positive. */
  lemma FromNumberOrder(a: real, b: real, gap: real)
    requires b - a == gap
    ensures gap >= 0.0 ==> FromNumber(a) <= FromNumber(b)
    ensures gap >= 2.0 ==> FromNumber(a) < FromNumber(b)
    ensures gap <= 0.0 ==> FromNumber(b) <= FromNumber(a)
  {
    if gap >= 0.0 { FromNumberMonotone(a, b); } else { FromNumberMonotone(b, a); }
    if gap >= 2.0 { FromNumberStrict(a, b); }
  }
}
