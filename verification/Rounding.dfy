/** Rounding of exact prices: Python's `round`, half to even, on a grid. */
module Rounding {
  import opened Wrappers

  function RoundInt(x: real): int {
    var f := x.Floor;
    var rest := x - f as real;
    if rest < 0.5 || (rest == 0.5 && f % 2 == 0) then f else f + 1
  }

  /** Nearest multiple of a positive unit. */
  function RoundTo(x: real, unit: real): real
    requires unit > 0.0
  {
    RoundInt(x / unit) as real * unit
  }

  function Round2(x: real): real { RoundTo(x, 0.01) }

  function Round4(x: real): real { RoundTo(x, 0.0001) }

  function TickPrice(px: real, tick: real): real {
    if tick > 0.0 then Round4(RoundTo(px, tick)) else Round4(px)
  }

  lemma RoundIntMonotone(x: real, y: real)
    requires x <= y
    ensures RoundInt(x) <= RoundInt(y)
  {
  }

  lemma RoundIntNearest(x: real)
    ensures -0.5 <= RoundInt(x) as real - x <= 0.5
    ensures x == x.Floor as real ==> RoundInt(x) == x.Floor
  {
  }

  predicate MultipleOf(y: real, n: int, unit: real) { y == n as real * unit }

  /** Half goes to the even neighbour, everything else to the nearest. */
  lemma RoundIntHalfEven(x: real)
    ensures -0.5 <= RoundInt(x) as real - x <= 0.5
    ensures (RoundInt(x) as real - x == 0.5 || x - RoundInt(x) as real == 0.5) ==> RoundInt(x) % 2 == 0
  {
  }

  /** A price rounds to the nearest multiple of the unit, and to an even one when two are as near. */
  lemma RoundToNearest(x: real, unit: real)
    requires unit > 0.0
    ensures 2.0 * Abs(RoundTo(x, unit) - x) <= unit
    ensures exists n: int ::
      MultipleOf(RoundTo(x, unit), n, unit) && (2.0 * Abs(RoundTo(x, unit) - x) == unit ==> n % 2 == 0)
  {
    hide RoundInt;
    var q := x / unit;
    var n := RoundInt(q);
    RoundIntHalfEven(q);
    ScaledGap(q, n as real, unit, x);
    assert MultipleOf(RoundTo(x, unit), n, unit);
  }

  lemma ScaledGap(q: real, n: real, unit: real, x: real)
    requires unit > 0.0 && q * unit == x && -0.5 <= n - q <= 0.5
    ensures 2.0 * Abs(n * unit - x) <= unit
    ensures 2.0 * Abs(n * unit - x) == unit ==> n - q == 0.5 || q - n == 0.5
  {
    var gap := n - q;
    MulSplit(q, gap, unit);
    assert q + gap == n;
    GapScales(gap, unit, n * unit - x);
  }

  lemma GapScales(gap: real, unit: real, e: real)
    requires unit > 0.0 && -0.5 <= gap <= 0.5 && e == gap * unit
    ensures 2.0 * Abs(e) <= unit
    ensures 2.0 * Abs(e) == unit ==> gap == 0.5 || gap == -0.5
  {
    if gap < 0.5 {
      MulLess(gap, 0.5, unit);
    }
    if -0.5 < gap {
      MulLess(-0.5, gap, unit);
    }
  }

  lemma RoundToMonotone(x: real, y: real, unit: real)
    requires unit > 0.0 && x <= y
    ensures RoundTo(x, unit) <= RoundTo(y, unit)
  {
    hide RoundInt;
    DivMonotone(x, y, unit);
    RoundIntMonotone(x / unit, y / unit);
    MulLessEq(RoundInt(x / unit) as real, RoundInt(y / unit) as real, unit);
  }

  /** Rounding is idempotent: a multiple of the unit stays put. */
  lemma RoundToIdempotent(x: real, unit: real)
    requires unit > 0.0
    ensures RoundTo(RoundTo(x, unit), unit) == RoundTo(x, unit)
  {
    hide RoundInt;
    MultipleStays(RoundInt(x / unit), unit, RoundTo(x, unit));
  }

  lemma MultipleStays(n: int, unit: real, y: real)
    requires unit > 0.0 && y == n as real * unit
    ensures RoundTo(y, unit) == y
  {
    hide RoundInt;
    assert y / unit == n as real;
    assert (n as real).Floor == n;
    RoundIntNearest(y / unit);
  }

  lemma TickMonotone(x: real, y: real, tick: real)
    requires x <= y
    ensures TickPrice(x, tick) <= TickPrice(y, tick)
  {
    hide RoundTo;
    if tick > 0.0 {
      RoundToMonotone(x, y, tick);
      RoundToMonotone(RoundTo(x, tick), RoundTo(y, tick), 0.0001);
    } else {
      RoundToMonotone(x, y, 0.0001);
    }
  }
}
