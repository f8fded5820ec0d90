/** Merging pivot levels into zones: one pass over the sorted levels finds exactly the connected
    components of "within tolerance of each other", over all pairs. */
module Clusters {
  import opened Wrappers
  import opened Sorting

  datatype PivotPoint = PivotPoint(price: real, name: string, tf: string, weight: real)

  datatype Zone = Zone(price: real, strength: real, members: seq<string>)

  predicate Positive(p: PivotPoint) { p.price > 0.0 }

  predicate ByPrice(a: PivotPoint, b: PivotPoint) { a.price <= b.price }

  function Weight(p: PivotPoint): real { p.weight }

  function Moment(p: PivotPoint): real { p.price * p.weight }

  /** The positive levels in ascending price. */
  function Live(points: seq<PivotPoint>): seq<PivotPoint> { Sort(ByPrice, Filter(Positive, points)) }

  /** The gap the pass compares, in percent of the higher price. */
  function Gap(low: PivotPoint, high: PivotPoint): real {
    Abs(high.price - low.price) / Max(high.price, 0.000000001) * 100.0
  }

  predicate Near(a: PivotPoint, b: PivotPoint, tol: real) {
    if a.price <= b.price then Gap(a, b) <= tol else Gap(b, a) <= tol
  }

  /** Maximal runs without a gap beyond the tolerance. */
  function Runs(live: seq<PivotPoint>, tol: real): seq<seq<PivotPoint>> {
    if live == [] then []
    else
      var n := |live| - 1;
      var before := Runs(live[..n], tol);
      if before == [] || Gap(live[n - 1], live[n]) > tol then before + [[live[n]]]
      else before[..|before| - 1] + [before[|before| - 1] + [live[n]]]
  }

  function Labels(run: seq<PivotPoint>): seq<string> { seq(|run|, i requires 0 <= i < |run| => run[i].name) }

  function ZoneOf(run: seq<PivotPoint>): Zone
    requires run != []
  {
    var total := Sum(Weight, run);
    Zone(if total != 0.0 then Sum(Moment, run) / total else run[0].price, total, Labels(run))
  }

  predicate AllNonEmpty(runs: seq<seq<PivotPoint>>) { forall k :: 0 <= k < |runs| ==> runs[k] != [] }

  function ZonesOf(runs: seq<seq<PivotPoint>>): (zones: seq<Zone>)
    requires AllNonEmpty(runs)
    ensures |zones| == |runs| && forall k :: 0 <= k < |runs| ==> zones[k] == ZoneOf(runs[k])
  {
    seq(|runs|, k requires 0 <= k < |runs| => ZoneOf(runs[k]))
  }

  lemma {:induction false} RunsShape(live: seq<PivotPoint>, tol: real)
    ensures AllNonEmpty(Runs(live, tol)) && (Runs(live, tol) == [] <==> live == [])
    ensures live != [] ==>
      var runs := Runs(live, tol); var last := runs[|runs| - 1];
      last[|last| - 1] == live[|live| - 1]
  {
    if live != [] {
      RunsShape(live[..|live| - 1], tol);
    }
  }

  lemma RunsStep(live: seq<PivotPoint>, tol: real, i: nat)
    requires i < |live|
    ensures var before, after := Runs(live[..i], tol), Runs(live[..i + 1], tol);
      if before == [] || Gap(live[i - 1], live[i]) > tol then after == before + [[live[i]]]
      else after == before[..|before| - 1] + [before[|before| - 1] + [live[i]]]
  {
    hide Gap;
    RunsShape(live[..i], tol);
    assert live[..i + 1][..i] == live[..i];
  }

  method ClusterZones(points: seq<PivotPoint>, tol: real) returns (zones: seq<Zone>)
    ensures AllNonEmpty(Runs(Live(points), tol))
    ensures zones == ZonesOf(Runs(Live(points), tol))
  {
    hide Gap, ZoneOf, Live, Runs;
    var live := Live(points);
    zones := [];
    var bucket: seq<PivotPoint> := [];
    ghost var runs := Runs(live[..0], tol);
    RunsShape(live[..0], tol);
    for i := 0 to |live|
      invariant runs == Runs(live[..i], tol) && (runs == [] <==> i == 0)
      invariant AllNonEmpty(runs)
      invariant i == 0 ==> bucket == [] && zones == []
      invariant i > 0 ==> bucket != [] && bucket[|bucket| - 1] == live[i - 1]
      invariant i > 0 ==> runs[|runs| - 1] == bucket && |zones| == |runs| - 1
      invariant forall k :: 0 <= k < |zones| ==> zones[k] == ZoneOf(runs[k])
    {
      RunsStep(live, tol, i);
      runs := Runs(live[..i + 1], tol);
      if bucket != [] && Gap(bucket[|bucket| - 1], live[i]) > tol {
        zones := zones + [ZoneOf(bucket)];
        bucket := [];
      }
      bucket := bucket + [live[i]];
    }
    assert live[..|live|] == live;
    if bucket != [] {
      zones := zones + [ZoneOf(bucket)];
    }
  }

  /** The levels that are clustered: every one with a positive price, as often as it is given, in
      ascending price. */
  lemma LiveIs(points: seq<PivotPoint>, p: PivotPoint)
    ensures multiset(Live(points))[p] == if p.price > 0.0 then multiset(points)[p] else 0
    ensures forall i, j :: 0 <= i < j < |Live(points)| ==> Live(points)[i].price <= Live(points)[j].price
  {
    FilterCounts(Positive, points, p);
    SortPermutes(ByPrice, Filter(Positive, points));
    SortSorted(ByPrice, Filter(Positive, points));
    forall i, j | 0 <= i < j < |Live(points)| ensures Live(points)[i].price <= Live(points)[j].price {
      assert ByPrice(Live(points)[i], Live(points)[j]);
    }
  }

  // ---- gaps -----------------------------------------------------------------------------------

  lemma DivOrder(x: real, m: real, y: real, n: real)
    requires m > 0.0 && n > 0.0 && x * n <= y * m
    ensures x / m <= y / n
  {
    var p, q := x / m, y / n;
    assert x == p * m && y == q * n;
    assert x * n == p * (m * n) && y * m == q * (m * n);
  }

  lemma CrossOrder(a: real, c: real, d: real, e: real)
    requires 0.0 < a <= c <= d && e > 0.0
    ensures (c - a) * Max(d, e) <= (d - a) * Max(c, e)
  {
    CrossBy(a, c, d, Max(c, e), Max(d, e));
  }

  lemma CrossBy(a: real, c: real, d: real, mc: real, md: real)
    requires 0.0 < a <= c <= d && c <= mc <= md && (md == d || md == mc)
    ensures (c - a) * md <= (d - a) * mc
  {
    MulLessEq(mc, md, a);
    if md == d {
      MulLessEq(c, mc, d);
    } else {
      MulLessEq(c, d, mc);
    }
    assert (c - a) * md == c * md - a * md && (d - a) * mc == d * mc - a * mc;
    assert mc * a == a * mc && md * a == a * md && mc * d == d * mc;
  }

  /** A gap between inner levels is never wider than a gap around them. */
  lemma InnerGap(a: PivotPoint, b: PivotPoint, c: PivotPoint, d: PivotPoint)
    requires 0.0 < a.price <= b.price <= c.price <= d.price
    ensures Gap(b, c) <= Gap(a, d)
  {
    var e := 0.000000001;
    CrossOrder(a.price, c.price, d.price, e);
    assert (c.price - b.price) * Max(d.price, e) <= (c.price - a.price) * Max(d.price, e);
    DivOrder(c.price - b.price, Max(c.price, e), d.price - a.price, Max(d.price, e));
  }

  /** Near means within so many percent of the higher price, in either order. */
  lemma NearIff(a: PivotPoint, b: PivotPoint, tol: real)
    ensures Near(a, b, tol) <==>
      100.0 * Abs(a.price - b.price) <= tol * Max(Max(a.price, b.price), 0.000000001)
  {
    var low, high := if a.price <= b.price then a else b, if a.price <= b.price then b else a;
    var m := Max(high.price, 0.000000001);
    var q := Abs(high.price - low.price) / m;
    assert q * m == Abs(high.price - low.price);
    if q * 100.0 <= tol {
      MulLessEq(q * 100.0, tol, m);
    } else {
      MulLess(tol, q * 100.0, m);
    }
    assert q * 100.0 * m == 100.0 * (q * m);
  }

  /** A zone is the weighted mean of its levels: its strength is their total weight, its price times
      that strength is their prices each times its own weight, and its members are their names. */
  lemma ZoneIsMean(run: seq<PivotPoint>)
    requires run != []
    ensures var z := ZoneOf(run);
      && z.strength == Sum((p: PivotPoint) => p.weight, run)
      && (z.strength != 0.0 ==> z.price * z.strength == Sum((p: PivotPoint) => p.price * p.weight, run))
      && (z.strength == 0.0 ==> z.price == run[0].price)
      && |z.members| == |run| && forall i :: 0 <= i < |run| ==> z.members[i] == run[i].name
  {
    SumSame(Weight, (p: PivotPoint) => p.weight, run);
    SumSame(Moment, (p: PivotPoint) => p.price * p.weight, run);
    hide Sum;
  }

  // ---- zones are connected components ---------------------------------------------------------

  /** The zone number of the i-th level: how many gaps came before it. */
  function ZoneIndex(live: seq<PivotPoint>, tol: real, i: nat): nat
    requires i < |live|
  {
    if i == 0 then 0 else ZoneIndex(live, tol, i - 1) + if Gap(live[i - 1], live[i]) > tol then 1 else 0
  }

  ghost predicate Path(live: seq<PivotPoint>, tol: real, path: seq<nat>) {
    && path != []
    && (forall k :: 0 <= k < |path| ==> path[k] < |live|)
    && (forall k :: 0 <= k < |path| - 1 ==> Near(live[path[k]], live[path[k + 1]], tol))
  }

  /** A chain of pairwise gaps within tolerance, in any order over all levels, joins the two. */
  ghost predicate Connected(live: seq<PivotPoint>, tol: real, i: nat, j: nat) {
    exists path :: Path(live, tol, path) && path[0] == i && path[|path| - 1] == j
  }

  ghost predicate Rising(live: seq<PivotPoint>) {
    Sorted(ByPrice, live) && forall i :: 0 <= i < |live| ==> live[i].price > 0.0
  }

  lemma {:induction false} IndexRises(live: seq<PivotPoint>, tol: real, i: nat, j: nat)
    requires i <= j < |live|
    ensures ZoneIndex(live, tol, i) <= ZoneIndex(live, tol, j)
    ensures ZoneIndex(live, tol, i) == ZoneIndex(live, tol, j) <==>
      forall k :: i <= k < j ==> Gap(live[k], live[k + 1]) <= tol
  {
    hide Gap;
    if i < j {
      IndexRises(live, tol, i, j - 1);
    }
  }

  lemma NearSharesZone(live: seq<PivotPoint>, tol: real, i: nat, j: nat)
    requires Rising(live) && i < |live| && j < |live| && Near(live[i], live[j], tol)
    ensures ZoneIndex(live, tol, i) == ZoneIndex(live, tol, j)
  {
    hide Gap;
    if i > j {
      SamePriceGap(live, i, j);
      NearSharesZone(live, tol, j, i);
    } else {
      forall k | i <= k < j ensures Gap(live[k], live[k + 1]) <= tol {
        InOrder(live, i, k);
        InOrder(live, k, k + 1);
        InOrder(live, k + 1, j);
        InnerGap(live[i], live[k], live[k + 1], live[j]);
      }
      IndexRises(live, tol, i, j);
    }
  }

  lemma InOrder(live: seq<PivotPoint>, i: nat, j: nat)
    requires Rising(live) && i <= j < |live|
    ensures 0.0 < live[i].price <= live[j].price
  {
    if i < j {
      assert ByPrice(live[i], live[j]);
    }
  }

  lemma SamePriceGap(live: seq<PivotPoint>, i: nat, j: nat)
    requires Rising(live) && j < i < |live|
    ensures live[j].price <= live[i].price
    ensures live[i].price == live[j].price ==> Gap(live[i], live[j]) == Gap(live[j], live[i])
  {
    InOrder(live, j, i);
  }

  lemma {:induction false} PathSharesZone(live: seq<PivotPoint>, tol: real, path: seq<nat>)
    requires Rising(live) && Path(live, tol, path)
    ensures ZoneIndex(live, tol, path[0]) == ZoneIndex(live, tol, path[|path| - 1])
  {
    if |path| > 1 {
      NearSharesZone(live, tol, path[0], path[1]);
      PathSharesZone(live, tol, path[1..]);
    }
  }

  lemma {:induction false} ZoneHasPath(live: seq<PivotPoint>, tol: real, i: nat, j: nat) returns (path: seq<nat>)
    requires Rising(live) && i <= j < |live| && ZoneIndex(live, tol, i) == ZoneIndex(live, tol, j)
    ensures Path(live, tol, path) && path[0] == i && path[|path| - 1] == j
  {
    hide Gap;
    IndexRises(live, tol, i, j);
    path := [i];
    if i < j {
      IndexRises(live, tol, i, j - 1);
      var rest := ZoneHasPath(live, tol, i, j - 1);
      InOrder(live, j - 1, j);
      path := rest + [j];
    }
  }

  lemma ReversePath(live: seq<PivotPoint>, tol: real, path: seq<nat>) returns (back: seq<nat>)
    requires Rising(live) && Path(live, tol, path)
    ensures Path(live, tol, back) && back[0] == path[|path| - 1] && back[|back| - 1] == path[0]
  {
    hide Gap;
    var n := |path|;
    back := seq(n, k requires 0 <= k < n => path[n - 1 - k]);
    forall k | 0 <= k < n - 1 ensures Near(live[back[k]], live[back[k + 1]], tol) {
      assert Near(live[path[n - 2 - k]], live[path[n - 2 - k + 1]], tol);
      NearSymmetric(live[back[k + 1]], live[back[k]], tol);
    }
  }

  lemma NearSymmetric(a: PivotPoint, b: PivotPoint, tol: real)
    ensures Near(a, b, tol) <==> Near(b, a, tol)
  {
  }

  /** Single linkage is exact: two levels share a zone exactly when a chain of pairwise near levels
      joins them, over all pairs and not only adjacent ones. */
  lemma ZonesAreComponents(live: seq<PivotPoint>, tol: real, i: nat, j: nat)
    requires Rising(live) && i < |live| && j < |live|
    ensures ZoneIndex(live, tol, i) == ZoneIndex(live, tol, j) <==> Connected(live, tol, i, j)
  {
    if Connected(live, tol, i, j) {
      var path :| Path(live, tol, path) && path[0] == i && path[|path| - 1] == j;
      PathSharesZone(live, tol, path);
    }
    if ZoneIndex(live, tol, i) == ZoneIndex(live, tol, j) {
      if i <= j {
        var path := ZoneHasPath(live, tol, i, j);
      } else {
        var path := ZoneHasPath(live, tol, j, i);
        var back := ReversePath(live, tol, path);
      }
    }
  }

  /** A larger tolerance only merges zones. */
  lemma LargerToleranceCoarsens(live: seq<PivotPoint>, tol: real, larger: real, i: nat, j: nat)
    requires i < |live| && j < |live| && tol <= larger
    requires ZoneIndex(live, tol, i) == ZoneIndex(live, tol, j)
    ensures ZoneIndex(live, larger, i) == ZoneIndex(live, larger, j)
  {
    hide Gap;
    var lo, hi := if i <= j then i else j, if i <= j then j else i;
    IndexRises(live, tol, lo, hi);
    IndexRises(live, larger, lo, hi);
  }

  // ---- the runs are the zones -----------------------------------------------------------------

  function Start(runs: seq<seq<PivotPoint>>, k: nat): nat
    requires k <= |runs|
  {
    if k == 0 then 0 else Start(runs, k - 1) + |runs[k - 1]|
  }

  lemma {:induction false} FlattenStart(runs: seq<seq<PivotPoint>>, k: nat)
    requires k < |runs|
    ensures Start(runs, k) + |runs[k]| == Start(runs, k + 1) <= |Flatten(runs)| == Start(runs, |runs|)
    ensures forall i :: 0 <= i < |runs[k]| ==> Flatten(runs)[Start(runs, k) + i] == runs[k][i]
    decreases |runs|
  {
    var n := |runs| - 1;
    StartOfPrefix(runs, k);
    StartOfPrefix(runs, n);
    if k < n {
      FlattenStart(runs[..n], k);
      StartOfPrefix(runs, k + 1);
    } else if n > 0 {
      FlattenStart(runs[..n], n - 1);
    }
  }

  lemma {:induction false} StartOfPrefix(runs: seq<seq<PivotPoint>>, k: nat)
    requires runs != [] && k <= |runs| - 1
    ensures Start(runs[..|runs| - 1], k) == Start(runs, k)
  {
    if k > 0 {
      StartOfPrefix(runs, k - 1);
    }
  }

  lemma FlattenAppend(init: seq<seq<PivotPoint>>, last: seq<PivotPoint>)
    ensures Flatten(init + [last]) == Flatten(init) + last
  {
    assert (init + [last])[..|init|] == init;
  }

  lemma FlattenGrows(init: seq<seq<PivotPoint>>, last: seq<PivotPoint>, p: PivotPoint)
    ensures Flatten(init + [last + [p]]) == Flatten(init + [last]) + [p]
  {
    hide Flatten;
    FlattenAppend(init, last + [p]);
    FlattenAppend(init, last);
    assert Flatten(init) + (last + [p]) == (Flatten(init) + last) + [p];
  }

  /** The runs, put end to end, are the sorted levels. */
  lemma {:induction false} RunsAreZones(live: seq<PivotPoint>, tol: real)
    ensures Flatten(Runs(live, tol)) == live
    ensures live != [] ==> ZoneIndex(live, tol, |live| - 1) == |Runs(live, tol)| - 1
    decreases |live|
  {
    hide Gap, Flatten, Runs, ZoneIndex;
    if live == [] {
      RunsShape(live, tol);
      FlattenNone();
    } else {
      var n := |live| - 1;
      RunsAreZones(live[..n], tol);
      LastRun(live, tol);
      assert live == live[..n] + [live[n]];
    }
  }

  lemma LastRun(live: seq<PivotPoint>, tol: real)
    requires live != []
    requires |live| > 1 ==>
      ZoneIndex(live[..|live| - 1], tol, |live| - 2) == |Runs(live[..|live| - 1], tol)| - 1
    ensures Flatten(Runs(live, tol)) == Flatten(Runs(live[..|live| - 1], tol)) + [live[|live| - 1]]
    ensures ZoneIndex(live, tol, |live| - 1) == |Runs(live, tol)| - 1
  {
    hide Gap, Flatten;
    var n := |live| - 1;
    var before := Runs(live[..n], tol);
    RunsShape(live[..n], tol);
    if before == [] || Gap(live[n - 1], live[n]) > tol {
      FlattenAppend(before, [live[n]]);
    } else {
      var m := |before| - 1;
      assert before == before[..m] + [before[m]];
      FlattenGrows(before[..m], before[m], live[n]);
    }
    if n > 0 {
      IndexOfPrefix(live, tol, n, n - 1);
    }
  }

  lemma FlattenNone()
    ensures Flatten<PivotPoint>([]) == []
  {
  }

  lemma {:induction false} IndexOfPrefix(live: seq<PivotPoint>, tol: real, n: nat, i: nat)
    requires i < n <= |live|
    ensures ZoneIndex(live[..n], tol, i) == ZoneIndex(live, tol, i)
  {
    hide Gap;
    if i > 0 {
      IndexOfPrefix(live, tol, n, i - 1);
    }
  }

  lemma {:induction false} RunHolds(live: seq<PivotPoint>, tol: real, i: nat)
    requires i < |live|
    ensures var runs, k := Runs(live, tol), ZoneIndex(live, tol, i);
      k < |runs| && Start(runs, k) <= i < Start(runs, k + 1)
    decreases |live|
  {
    hide Gap, Runs, Flatten;
    var n := |live| - 1;
    RunsAreZones(live, tol);
    RunsShape(live, tol);
    var runs := Runs(live, tol);
    if i == n {
      FlattenStart(runs, |runs| - 1);
    } else {
      RunHolds(live[..n], tol, i);
      IndexOfPrefix(live, tol, n, i);
      RunsPrefixStart(live, tol, ZoneIndex(live, tol, i));
    }
  }

  lemma RunsPrefixStart(live: seq<PivotPoint>, tol: real, k: nat)
    requires live != [] && k < |Runs(live[..|live| - 1], tol)|
    ensures var before, after := Runs(live[..|live| - 1], tol), Runs(live, tol);
      k < |after| && Start(after, k) == Start(before, k) && Start(after, k + 1) >= Start(before, k + 1)
  {
    hide Gap;
    var before, after := Runs(live[..|live| - 1], tol), Runs(live, tol);
    SameStarts(before, after, k);
  }

  lemma {:induction false} SameStarts(before: seq<seq<PivotPoint>>, after: seq<seq<PivotPoint>>, k: nat)
    requires k <= |before| && k <= |after| && forall i :: 0 <= i < k ==> before[i] == after[i]
    ensures Start(before, k) == Start(after, k)
  {
    if k > 0 {
      SameStarts(before, after, k - 1);
    }
  }

  // ---- strength and price ---------------------------------------------------------------------

  function Strength(z: Zone): real { z.strength }

  predicate Weighted(s: seq<PivotPoint>) { forall i :: 0 <= i < |s| ==> s[i].weight >= 0.0 }

  lemma {:induction false} StrengthOfRuns(runs: seq<seq<PivotPoint>>)
    requires AllNonEmpty(runs)
    ensures Sum(Strength, ZonesOf(runs)) == Sum(Weight, Flatten(runs))
  {
    if runs != [] {
      var n := |runs| - 1;
      StrengthOfRuns(runs[..n]);
      SumConcat(Weight, Flatten(runs[..n]), runs[n]);
      var zones := ZonesOf(runs);
      assert zones == ZonesOf(runs[..n]) + [ZoneOf(runs[n])];
      SumConcat(Strength, ZonesOf(runs[..n]), [ZoneOf(runs[n])]);
    }
  }

  lemma AddBetween(lo: real, hi: real, m: real, t: real, price: real, w: real)
    requires lo * t <= m <= hi * t && lo <= price <= hi && w >= 0.0
    ensures lo * (w + t) <= price * w + m <= hi * (w + t)
  {
    MulLessEq(lo, price, w);
    MulLessEq(price, hi, w);
    assert lo * (w + t) == lo * w + lo * t && hi * (w + t) == hi * w + hi * t;
  }

  lemma {:induction false} MomentBetween(run: seq<PivotPoint>, lo: real, hi: real)
    requires Weighted(run) && forall i :: 0 <= i < |run| ==> lo <= run[i].price <= hi
    ensures Sum(Weight, run) >= 0.0
    ensures lo * Sum(Weight, run) <= Sum(Moment, run) <= hi * Sum(Weight, run)
  {
    if run != [] {
      MomentBetween(run[1..], lo, hi);
      AddBetween(lo, hi, Sum(Moment, run[1..]), Sum(Weight, run[1..]), run[0].price, run[0].weight);
    }
  }

  /** A zone is priced between its members. */
  lemma ZoneBetween(run: seq<PivotPoint>, lo: real, hi: real)
    requires run != [] && Weighted(run) && forall i :: 0 <= i < |run| ==> lo <= run[i].price <= hi
    ensures lo <= ZoneOf(run).price <= hi
  {
    MomentBetween(run, lo, hi);
    var total := Sum(Weight, run);
    if total != 0.0 {
      RatioBetween(lo, hi, Sum(Moment, run), total);
    }
  }

  lemma BreakRises(live: seq<PivotPoint>, tol: real, i: nat)
    requires Rising(live) && tol >= 0.0 && i + 1 < |live|
    requires ZoneIndex(live, tol, i) != ZoneIndex(live, tol, i + 1)
    ensures live[i].price < live[i + 1].price
  {
    InOrder(live, i, i + 1);
  }

  lemma RunBetween(live: seq<PivotPoint>, tol: real, k: nat)
    requires Rising(live) && Weighted(live) && k < |Runs(live, tol)|
    ensures AllNonEmpty(Runs(live, tol))
    ensures var runs := Runs(live, tol); var lo, hi := Start(runs, k), Start(runs, k + 1);
      && lo < hi <= |live|
      && live[lo].price <= ZoneOf(runs[k]).price <= live[hi - 1].price
      && ZoneIndex(live, tol, lo) == k == ZoneIndex(live, tol, hi - 1)
  {
    hide Gap, ZoneOf, Runs;
    var runs := Runs(live, tol);
    RunsShape(live, tol);
    RunsAreZones(live, tol);
    FlattenStart(runs, k);
    var lo, hi := Start(runs, k), Start(runs, k + 1);
    forall i | 0 <= i < |runs[k]|
      ensures live[lo].price <= runs[k][i].price <= live[hi - 1].price && runs[k][i].weight >= 0.0
    {
      assert runs[k][i] == live[lo + i];
      InOrder(live, lo, lo + i);
      InOrder(live, lo + i, hi - 1);
    }
    ZoneBetween(runs[k], live[lo].price, live[hi - 1].price);
    StartDecides(live, tol, k, lo);
    StartDecides(live, tol, k, hi - 1);
  }

  lemma StartDecides(live: seq<PivotPoint>, tol: real, k: nat, i: nat)
    requires i < |live| && k < |Runs(live, tol)|
    requires Start(Runs(live, tol), k) <= i < Start(Runs(live, tol), k + 1)
    ensures ZoneIndex(live, tol, i) == k
  {
    hide Gap, Runs;
    RunHolds(live, tol, i);
    var runs, j := Runs(live, tol), ZoneIndex(live, tol, i);
    if j < k {
      StartRises(runs, j + 1, k);
    } else if k < j {
      StartRises(runs, k + 1, j);
    }
  }

  lemma {:induction false} StartRises(runs: seq<seq<PivotPoint>>, j: nat, k: nat)
    requires j <= k <= |runs|
    ensures Start(runs, j) <= Start(runs, k)
  {
    if j < k {
      StartRises(runs, j, k - 1);
    }
  }

  /** Zones come out strictly ascending in price. */
  lemma ZonesAscend(live: seq<PivotPoint>, tol: real, k: nat, l: nat)
    requires Rising(live) && Weighted(live) && tol >= 0.0 && k < l < |Runs(live, tol)|
    ensures AllNonEmpty(Runs(live, tol))
    ensures ZonesOf(Runs(live, tol))[k].price < ZonesOf(Runs(live, tol))[l].price
  {
    hide Gap, ZoneOf, Runs, Rising, Weighted, ZoneIndex;
    RunBetween(live, tol, k);
    RunBetween(live, tol, l);
    RunBetween(live, tol, k + 1);
    var runs := Runs(live, tol);
    BreakRises(live, tol, Start(runs, k + 1) - 1);
    StartRises(runs, k + 1, l);
    InOrder(live, Start(runs, k + 1), Start(runs, l));
  }

  lemma FilterWeighted(points: seq<PivotPoint>)
    requires Weighted(points)
    ensures Weighted(Live(points))
  {
    SortElements(ByPrice, Filter(Positive, points));
    FilterElements(Positive, points);
    forall i | 0 <= i < |Live(points)| ensures Live(points)[i].weight >= 0.0 {
      assert Live(points)[i] in Filter(Positive, points);
    }
  }

  /** Nothing is lost: the zones' total strength is the total weight of the positive levels, and
      their members are those levels. */
  lemma StrengthConserved(points: seq<PivotPoint>, tol: real)
    ensures AllNonEmpty(Runs(Live(points), tol))
    ensures Sum(Strength, ZonesOf(Runs(Live(points), tol))) == Sum(Weight, Filter(Positive, points))
    ensures multiset(Flatten(Runs(Live(points), tol))) == multiset(Filter(Positive, points))
  {
    var live := Live(points);
    RunsShape(live, tol);
    RunsAreZones(live, tol);
    StrengthOfRuns(Runs(live, tol));
    SortSum(Weight, ByPrice, Filter(Positive, points));
    SortPermutes(ByPrice, Filter(Positive, points));
  }

  lemma LiveRises(points: seq<PivotPoint>)
    ensures Rising(Live(points))
  {
    SortSorted(ByPrice, Filter(Positive, points));
    SortElements(ByPrice, Filter(Positive, points));
    FilterElements(Positive, points);
    forall i | 0 <= i < |Live(points)| ensures Live(points)[i].price > 0.0 {
      assert Live(points)[i] in Filter(Positive, points);
    }
  }

  /** The clustering of any levels with non-negative weights: each level lies in the zone of its
      number, two levels share a zone exactly when a chain of near levels joins them, and the zones
      strictly ascend. */
  lemma ClusteringIsExact(points: seq<PivotPoint>, tol: real)
    requires Weighted(points) && tol >= 0.0
    ensures AllNonEmpty(Runs(Live(points), tol))
    ensures var live, runs := Live(points), Runs(Live(points), tol);
      && (forall i :: 0 <= i < |live| ==>
            ZoneIndex(live, tol, i) < |runs|
            && Start(runs, ZoneIndex(live, tol, i)) <= i < Start(runs, ZoneIndex(live, tol, i) + 1))
      && (forall i, j :: 0 <= i < |live| && 0 <= j < |live| ==>
            (ZoneIndex(live, tol, i) == ZoneIndex(live, tol, j) <==> Connected(live, tol, i, j)))
      && (forall k, l :: 0 <= k < l < |runs| ==> ZonesOf(runs)[k].price < ZonesOf(runs)[l].price)
  {
    hide Live, Runs, ZoneIndex, Connected, Rising, Weighted, ZoneOf, Start;
    var live := Live(points);
    LiveRises(points);
    FilterWeighted(points);
    RunsShape(live, tol);
    forall i | 0 <= i < |live|
      ensures var k := ZoneIndex(live, tol, i);
        k < |Runs(live, tol)| && Start(Runs(live, tol), k) <= i < Start(Runs(live, tol), k + 1)
    {
      RunHolds(live, tol, i);
    }
    forall i, j | 0 <= i < |live| && 0 <= j < |live|
      ensures ZoneIndex(live, tol, i) == ZoneIndex(live, tol, j) <==> Connected(live, tol, i, j)
    {
      ZonesAreComponents(live, tol, i, j);
    }
    forall k, l | 0 <= k < l < |Runs(live, tol)|
      ensures ZonesOf(Runs(live, tol))[k].price < ZonesOf(Runs(live, tol))[l].price
    {
      ZonesAscend(live, tol, k, l);
    }
  }
}
