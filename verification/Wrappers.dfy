/** The optional value used throughout for a Python `None`, and small numeric helpers. */
module Wrappers {

  datatype Option<+T> = None | Some(value: T)

  function Max(a: real, b: real): real { if a < b then b else a }

  function Min(a: real, b: real): real { if a < b then a else b }

  function Abs(a: real): real { if a < 0.0 then -a else a }

  function MinInt(a: int, b: int): int { if a < b then a else b }

  function MaxInt(a: int, b: int): int { if a < b then b else a }

  function Flatten<T>(batches: seq<seq<T>>): seq<T> {
    if batches == [] then [] else Flatten(batches[..|batches| - 1]) + batches[|batches| - 1]
  }

  lemma SomeOne<T>(keys: set<T>) returns (k: T)
    requires keys != {}
    ensures k in keys
  {
    k :| k in keys;
  }

  lemma SubsetSize<T>(a: set<T>, b: set<T>)
    requires a <= b
    ensures |a| <= |b|
  {
    assert b == a + (b - a);
  }

  lemma MulLess(a: real, b: real, v: real)
    requires v > 0.0 && a < b
    ensures a * v < b * v
  {
  }

  lemma MulLessEq(a: real, b: real, v: real)
    requires v >= 0.0 && a <= b
    ensures a * v <= b * v
  {
  }

  lemma MulSplit(a: real, b: real, v: real)
    ensures (a + b) * v == a * v + b * v
  {
  }

  lemma DivMonotone(x: real, y: real, u: real)
    requires u > 0.0 && x <= y
    ensures x / u <= y / u
  {
    var p, q := x / u, y / u;
    assert x == p * u && y == q * u;
    if q < p {
      MulLess(q, p, u);
    }
  }

  /** An average lies between bounds on its total. */
  lemma RatioBetween(lo: real, hi: real, total: real, weight: real)
    requires weight > 0.0 && lo * weight <= total <= hi * weight
    ensures lo <= total / weight <= hi
  {
    assert total == total / weight * weight;
    if total / weight < lo {
      MulLess(total / weight, lo, weight);
    }
    if hi < total / weight {
      MulLess(hi, total / weight, weight);
    }
  }
}
