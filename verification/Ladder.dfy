/** The stop and target ladder: the outward snap to round figures, and the geometry that must survive
    it and the rounding to two decimals and to ticks. */
module Ladder {
  import opened Wrappers
  import opened Sorting
  import opened Clusters
  import opened Rounding

  // ---- the snap -------------------------------------------------------------------------------

  const MAX_SNAP_FRACTION: real := 0.2

  function SnapStep(price: real): real {
    if price >= 2000.0 then 100.0 else if price >= 500.0 then 50.0 else if price >= 100.0 then 10.0 else 1.0
  }

  /** The round figure a positive price is nudged to, before any cap. */
  function RoundFigure(price: real, up: bool): real
    requires price > 0.0
  {
    var step := SnapStep(price);
    var q := price / step;
    var whole := q.Floor;
    var snapped := if up && q != whole as real then (whole + 1) as real * step else whole as real * step;
    var raised := if up && snapped < price then snapped + step else snapped;
    if !up && raised > price then raised - step else raised
  }

  /** Round figure or, where that moves it too far from the decision price, the level itself. */
  function SnapCapped(price: real, up: bool, anchor: real): real
    requires price > 0.0
  {
    var snapped := RoundFigure(price, up);
    var distance := Abs(price - anchor);
    if distance > 0.0 && Abs(snapped - price) > MAX_SNAP_FRACTION * distance then price else snapped
  }

  function RoundFigureSnap(price: real, up: bool, anchor: real): real {
    if price <= 0.0 then price else Round2(SnapCapped(price, up, anchor))
  }

  lemma StepCell(price: real, step: real)
    requires price > 0.0 && step > 0.0
    ensures var whole := (price / step).Floor;
      && 0 <= whole
      && whole as real * step <= price < whole as real * step + step
      && (price / step == whole as real <==> whole as real * step == price)
  {
    var q := price / step;
    assert q * step == price;
    QuotientCell(price, step, q, q.Floor);
  }

  lemma QuotientCell(price: real, step: real, q: real, whole: int)
    requires price > 0.0 && step > 0.0 && q * step == price && whole as real <= q < (whole + 1) as real
    ensures 0 <= whole
    ensures whole as real * step <= price < whole as real * step + step
    ensures q == whole as real <==> whole as real * step == price
  {
    if q <= 0.0 {
      MulLessEq(q, 0.0, step);
    }
    RestOfCell(price, step, q, whole as real, q - whole as real);
  }

  lemma RestOfCell(price: real, step: real, q: real, low: real, rest: real)
    requires step > 0.0 && q == low + rest && q * step == price && 0.0 <= rest < 1.0
    ensures low * step <= price < low * step + step
    ensures rest == 0.0 <==> low * step == price
  {
    MulLessEq(0.0, rest, step);
    if rest > 0.0 {
      MulLess(0.0, rest, step);
    }
    MulLess(rest, 1.0, step);
    MulSplit(low, rest, step);
    assert price == (low + rest) * step;
  }

  /** The figure is the nearest multiple of the step on the outward side. */
  lemma FigureOutward(price: real, up: bool)
    requires price > 0.0
    ensures var step, r, whole := SnapStep(price), RoundFigure(price, up), (price / SnapStep(price)).Floor;
      && (up ==> price <= r < price + step)
      && (!up ==> r <= price < r + step && 0.0 <= r)
      && (r == whole as real * step || r == (whole + 1) as real * step)
      && (up ==> r == (if whole as real * step == price then whole as real * step else (whole + 1) as real * step))
      && (!up ==> r == whole as real * step)
  {
    var step := SnapStep(price);
    StepCell(price, step);
    var whole := (price / step).Floor;
    assert (whole + 1) as real * step == whole as real * step + step;
    MulLessEq(0.0, whole as real, step);
  }

  /** Before rounding, the snap moves a target only away from the entry, and by at most a fifth of
      its distance from the close. */
  lemma SnapIsOutwardAndCapped(price: real, up: bool, anchor: real)
    requires price > 0.0
    ensures var s := SnapCapped(price, up, anchor);
      && (if up then price <= s else 0.0 <= s <= price)
      && (price != anchor ==> Abs(s - price) <= MAX_SNAP_FRACTION * Abs(price - anchor))
  {
    hide RoundFigure;
    FigureOutward(price, up);
  }

  /** Thresholds of the step are multiples of the steps below and above them. */
  lemma FigureKeepsBand(price: real, up: bool, threshold: real)
    requires price > 0.0 && threshold in {100.0, 500.0, 2000.0}
    ensures up && price <= threshold ==> RoundFigure(price, up) <= threshold
    ensures !up && threshold <= price ==> threshold <= RoundFigure(price, up)
  {
    hide RoundFigure, SnapStep;
    FigureFromFloor(price, up);
    var whole := (price / SnapStep(price)).Floor;
    if up && price <= threshold {
      BandBelow(price, whole, Floored(price), threshold);
    }
    if !up && threshold <= price {
      BandAbove(price, whole, Floored(price), threshold);
    }
  }

  lemma ThresholdMultiple(price: real, threshold: real) returns (n: int)
    requires threshold in {100.0, 500.0, 2000.0}
    ensures n as real * SnapStep(price) == threshold
  {
    n := (threshold / SnapStep(price)).Floor;
  }

  lemma BandBelow(price: real, whole: int, low: real, threshold: real)
    requires price > 0.0 && threshold in {100.0, 500.0, 2000.0} && price <= threshold
    requires low == whole as real * SnapStep(price) && low <= price < low + SnapStep(price)
    ensures low == price || low + SnapStep(price) <= threshold
  {
    hide SnapStep;
    var n := ThresholdMultiple(price, threshold);
    if whole < n {
      CellGap(whole, n, SnapStep(price), low, threshold);
    } else if n < whole {
      CellGap(n, whole, SnapStep(price), threshold, low);
    }
  }

  lemma BandAbove(price: real, whole: int, low: real, threshold: real)
    requires threshold in {100.0, 500.0, 2000.0} && threshold <= price
    requires low == whole as real * SnapStep(price) && low <= price < low + SnapStep(price)
    ensures threshold <= low
  {
    hide SnapStep;
    var n := ThresholdMultiple(price, threshold);
    if whole < n {
      CellGap(whole, n, SnapStep(price), low, threshold);
    } else if n < whole {
      CellGap(n, whole, SnapStep(price), threshold, low);
    }
  }

  lemma SameStep(p: real, q: real, up: bool)
    requires 0.0 < p <= q
    requires up ==> q < RoundFigure(p, true)
    requires !up ==> RoundFigure(q, false) < p
    ensures SnapStep(p) == SnapStep(q)
  {
    hide RoundFigure;
    FigureKeepsBand(if up then p else q, up, 100.0);
    FigureKeepsBand(if up then p else q, up, 500.0);
    FigureKeepsBand(if up then p else q, up, 2000.0);
  }

  lemma CellGap(n: int, m: int, step: real, low: real, high: real)
    requires step > 0.0 && n < m && low == n as real * step && high == m as real * step
    ensures low + step <= high
  {
    var gap := m as real - n as real;
    assert high == low + gap * step;
    MulLessEq(1.0, gap, step);
  }

  lemma SameCell(p: real, q: real, step: real)
    requires 0.0 < p && 0.0 < q && step > 0.0
    requires var whole := (p / step).Floor; whole as real * step <= q < whole as real * step + step
    ensures (q / step).Floor == (p / step).Floor
  {
    StepCell(q, step);
    var n, m := (q / step).Floor, (p / step).Floor;
    UniqueCell(n, m, step, q, n as real * step, m as real * step);
  }

  lemma UniqueCell(n: int, m: int, step: real, q: real, low: real, other: real)
    requires step > 0.0 && low == n as real * step && other == m as real * step
    requires low <= q < low + step && other <= q < other + step
    ensures n == m
  {
    if n < m {
      CellGap(n, m, step, low, other);
    } else if m < n {
      CellGap(m, n, step, other, low);
    }
  }

  /** The multiple of the step at or below a price. */
  function Floored(price: real): real { (price / SnapStep(price)).Floor as real * SnapStep(price) }

  lemma FigureFromFloor(price: real, up: bool)
    requires price > 0.0
    ensures Floored(price) <= price < Floored(price) + SnapStep(price)
    ensures RoundFigure(price, up) ==
      if up && Floored(price) != price then Floored(price) + SnapStep(price) else Floored(price)
  {
    hide RoundFigure;
    FigureOutward(price, up);
    StepCell(price, SnapStep(price));
    var whole := (price / SnapStep(price)).Floor;
    assert (whole + 1) as real * SnapStep(price) == whole as real * SnapStep(price) + SnapStep(price);
  }

  lemma SameFloor(p: real, q: real)
    requires 0.0 < p && 0.0 < q && SnapStep(p) == SnapStep(q) && Floored(p) <= q < Floored(p) + SnapStep(p)
    ensures Floored(q) == Floored(p)
  {
    hide SnapStep;
    assert SnapStep(p) > 0.0;
    SameCell(p, q, SnapStep(p));
  }

  /** Between a level and its figure, every level has the same figure. */
  lemma SameFigure(p: real, q: real, up: bool)
    requires 0.0 < p && 0.0 < q
    requires if up then p <= q < RoundFigure(p, true) else RoundFigure(p, false) < q <= p
    ensures RoundFigure(q, up) == RoundFigure(p, up)
  {
    hide RoundFigure, SnapStep, Floored;
    SameStep(if up then p else q, if up then q else p, up);
    FigureFromFloor(p, up);
    FigureFromFloor(q, up);
    SameFloor(p, q);
  }

  /** With one decision price, a farther target never snaps to a nearer price, across step changes
      and caps alike. */
  lemma SnapKeepsOrder(near: real, far: real, up: bool, anchor: real)
    requires near > 0.0 && far > 0.0
    requires if up then anchor < near <= far else far <= near < anchor
    ensures if up then SnapCapped(near, up, anchor) <= SnapCapped(far, up, anchor)
            else SnapCapped(far, up, anchor) <= SnapCapped(near, up, anchor)
  {
    hide RoundFigure, SnapStep;
    var figure := RoundFigure(near, up);
    FigureOutward(near, up);
    FigureOutward(far, up);
    if if up then far < figure else figure < far {
      SameFigure(near, far, up);
    }
  }

  lemma SnapRoundedKeepsOrder(near: real, far: real, up: bool, anchor: real)
    requires if up then anchor < near <= far else far <= near < anchor
    ensures if up then RoundFigureSnap(near, up, anchor) <= RoundFigureSnap(far, up, anchor)
            else RoundFigureSnap(far, up, anchor) <= RoundFigureSnap(near, up, anchor)
  {
    hide SnapCapped, Round2;
    if near > 0.0 && far > 0.0 {
      SnapKeepsOrder(near, far, up, anchor);
      Round2Monotone(SnapCapped(near, up, anchor), SnapCapped(far, up, anchor));
      Round2Monotone(SnapCapped(far, up, anchor), SnapCapped(near, up, anchor));
    } else if near > 0.0 {
      SnapIsOutwardAndCapped(near, up, anchor);
      Round2Zero();
      Round2Monotone(0.0, SnapCapped(near, up, anchor));
    } else if far > 0.0 {
      SnapIsOutwardAndCapped(far, up, anchor);
      Round2Zero();
      Round2Monotone(0.0, SnapCapped(far, up, anchor));
    }
  }

  lemma Round2Zero()
    ensures Round2(0.0) == 0.0
  {
  }

  lemma Round2Monotone(x: real, y: real)
    ensures x <= y ==> Round2(x) <= Round2(y)
  {
    hide RoundTo;
    if x <= y {
      RoundToMonotone(x, y, 0.01);
    }
  }

  // ---- the ladder -----------------------------------------------------------------------------

  const WALL_MIN_STRENGTH: real := 5.2

  predicate IsWall(z: Zone) { z.strength >= WALL_MIN_STRENGTH }

  datatype Grade = A | B | C | F

  datatype GradePolicy = GradePolicy(rrHardFloor: real, rrA: real, rrB: real, rrC: real, roomMinAtr: real,
                                     fortressBlock: real, maxTargets: nat, minStopAtr: real, stopRequiresWall: bool,
                                     minStopAtrFilter: real)

  const DEFAULT_POLICY := GradePolicy(1.0, 2.5, 1.8, 1.2, 0.5, 12.0, 4, 0.0, false, 0.0)

  datatype Confluence = Confluence(stop: real, targets: seq<real>, grade: Grade, rr: real, fortress: real,
                                   roomRatio: real)

  function Behind(close: real, bullish: bool): Zone -> bool { (z: Zone) => (z.price < close) == bullish }

  function Ahead(close: real, bullish: bool): Zone -> bool { (z: Zone) => (z.price > close) == bullish }

  function Closer(close: real): (Zone, Zone) -> bool {
    (y: Zone, z: Zone) => Abs(close - y.price) <= Abs(close - z.price)
  }

  /** The zones the stop is chosen from: those behind, only walls where the policy asks and any exist. */
  function StopZones(close: real, bullish: bool, zones: seq<Zone>, pol: GradePolicy): seq<Zone> {
    var behind := Filter(Behind(close, bullish), zones);
    var walls := Filter(IsWall, behind);
    if pol.stopRequiresWall && walls != [] then walls else behind
  }

  function Offset(close: real, bullish: bool, distance: real): real {
    if bullish then close - distance else close + distance
  }

  /** The least distance the policy allows the stop. */
  function StopFloor(pol: GradePolicy, atr: real): real { pol.minStopAtr * atr }

  function StopPrice(close: real, bullish: bool, zones: seq<Zone>, atr: real, tick: real, pol: GradePolicy): real {
    var from := Sort(Closer(close), StopZones(close, bullish, zones, pol));
    var stop := if from != [] then TickPrice(from[0].price, tick) else TickPrice(Offset(close, bullish, atr), tick);
    if pol.minStopAtr > 0.0 && Abs(close - stop) < StopFloor(pol, atr) then
      TickPrice(Offset(close, bullish, StopFloor(pol, atr)), tick)
    else stop
  }

  /** The nearest walls ahead, at most as many as the policy allows. */
  function TargetWalls(close: real, bullish: bool, zones: seq<Zone>, pol: GradePolicy): seq<Zone> {
    var walls := Filter(IsWall, Sort(Closer(close), Filter(Ahead(close, bullish), zones)));
    if |walls| > pol.maxTargets then walls[..pol.maxTargets] else walls
  }

  function TargetPrice(z: Zone, close: real, bullish: bool, tick: real): real {
    TickPrice(RoundFigureSnap(z.price, bullish, close), tick)
  }

  function Targets(close: real, bullish: bool, walls: seq<Zone>, tick: real): (r: seq<real>)
    ensures |r| == |walls| && forall i :: 0 <= i < |walls| ==> r[i] == TargetPrice(walls[i], close, bullish, tick)
  {
    seq(|walls|, i requires 0 <= i < |walls| => TargetPrice(walls[i], close, bullish, tick))
  }

  function GradeOf(rr: real, fortress: real, room: real, pol: GradePolicy): Grade {
    var g :=
      if rr < pol.rrHardFloor || (rr < 1.0 && fortress >= pol.fortressBlock) then F
      else if rr >= pol.rrA && room >= pol.roomMinAtr then A
      else if rr >= pol.rrB then B
      else if rr >= pol.rrC then C
      else F;
    if (g.A? || g.B?) && room < pol.roomMinAtr then C else g
  }

  /** On the losing side of the entry, weakly. */
  predicate StopSide(close: real, bullish: bool, stop: real) { if bullish then stop <= close else close <= stop }

  predicate TargetSide(close: real, bullish: bool, target: real) {
    if bullish then close <= target else target <= close
  }

  predicate Outward(bullish: bool, near: real, far: real) { if bullish then near <= far else far <= near }

  /** The two-decimal price that a level just past the close, on the winning side, is rounded to. */
  function FirstPaise(close: real, bullish: bool): real {
    (if bullish then (close * 100.0 + 0.5).Floor else -(0.5 - close * 100.0).Floor) as real * 0.01
  }

  /** The tick leaves that price on the winning side. */
  predicate SidesHold(close: real, bullish: bool, tick: real) {
    close <= 0.0 || TargetSide(close, bullish, TickPrice(FirstPaise(close, bullish), tick))
  }

  predicate TargetsOnSide(close: real, bullish: bool, zones: seq<Zone>, tick: real, pol: GradePolicy) {
    forall i :: 0 <= i < |TargetWalls(close, bullish, zones, pol)| ==>
      TargetSide(close, bullish, TargetPrice(TargetWalls(close, bullish, zones, pol)[i], close, bullish, tick))
  }

  // ---- laws -----------------------------------------------------------------------------------

  lemma SortedFirst(close: real, zs: seq<Zone>)
    requires zs != []
    ensures var s := Sort(Closer(close), zs);
      s != [] && s[0] in zs && forall z :: z in zs ==> Abs(close - s[0].price) <= Abs(close - z.price)
  {
    var s := Sort(Closer(close), zs);
    SortSorted(Closer(close), zs);
    SortElements(Closer(close), zs);
    assert s[0] in s;
    forall z | z in zs ensures Abs(close - s[0].price) <= Abs(close - z.price) {
      assert z in s;
      var i :| 0 <= i < |s| && s[i] == z;
      assert i > 0 ==> Closer(close)(s[0], s[i]);
    }
  }

  lemma StopZonesBehind(close: real, bullish: bool, zones: seq<Zone>, pol: GradePolicy)
    ensures forall z :: z in StopZones(close, bullish, zones, pol) ==> z in zones && (z.price < close) == bullish
  {
    FilterElements(Behind(close, bullish), zones);
    FilterElements(IsWall, Filter(Behind(close, bullish), zones));
  }

  lemma TickKeepsSide(price: real, close: real, tick: real)
    requires TickPrice(close, tick) == close
    ensures price <= close ==> TickPrice(price, tick) <= close
    ensures close <= price ==> close <= TickPrice(price, tick)
  {
    hide TickPrice;
    if price <= close {
      TickMonotone(price, close, tick);
    }
    if close <= price {
      TickMonotone(close, price, tick);
    }
  }

  lemma OffsetKeepsSide(close: real, bullish: bool, distance: real, tick: real)
    requires TickPrice(close, tick) == close && distance >= 0.0
    ensures StopSide(close, bullish, TickPrice(Offset(close, bullish, distance), tick))
  {
    hide TickPrice;
    TickKeepsSide(Offset(close, bullish, distance), close, tick);
  }

  lemma FloorNonNegative(pol: GradePolicy, atr: real)
    requires pol.minStopAtr > 0.0 && atr >= 0.0
    ensures StopFloor(pol, atr) >= 0.0
  {
  }

  /** The stop is never on the winning side, and unless the floor widened it, it is the nearest
      eligible zone behind, ticked. */
  lemma StopBehind(close: real, bullish: bool, zones: seq<Zone>, atr: real, tick: real, pol: GradePolicy)
    requires TickPrice(close, tick) == close && atr >= 0.0
    ensures StopSide(close, bullish, StopPrice(close, bullish, zones, atr, tick, pol))
    ensures var eligible := StopZones(close, bullish, zones, pol);
      pol.minStopAtr <= 0.0 && eligible != [] ==>
        exists z :: z in eligible && StopPrice(close, bullish, zones, atr, tick, pol) == TickPrice(z.price, tick)
          && forall y :: y in eligible ==> Abs(close - z.price) <= Abs(close - y.price)
  {
    hide TickPrice, StopZones, Sort, Offset, StopFloor;
    var eligible := StopZones(close, bullish, zones, pol);
    StopZonesBehind(close, bullish, zones, pol);
    SortElements(Closer(close), eligible);
    if eligible != [] {
      SortedFirst(close, eligible);
      TickKeepsSide(Sort(Closer(close), eligible)[0].price, close, tick);
    } else {
      OffsetKeepsSide(close, bullish, atr, tick);
    }
    if pol.minStopAtr > 0.0 {
      FloorNonNegative(pol, atr);
      OffsetKeepsSide(close, bullish, StopFloor(pol, atr), tick);
    }
  }

  lemma WallsAhead(close: real, bullish: bool, zones: seq<Zone>, pol: GradePolicy)
    ensures var walls := TargetWalls(close, bullish, zones, pol);
      && |walls| <= pol.maxTargets
      && (forall i :: 0 <= i < |walls| ==> walls[i] in zones && (walls[i].price > close) == bullish && IsWall(walls[i]))
      && (forall i, j :: 0 <= i < j < |walls| ==> Abs(close - walls[i].price) <= Abs(close - walls[j].price))
  {
    var ahead := Filter(Ahead(close, bullish), zones);
    var s := Sort(Closer(close), ahead);
    FilterElements(Ahead(close, bullish), zones);
    SortSorted(Closer(close), ahead);
    SortElements(Closer(close), ahead);
    FilterElements(IsWall, s);
    FilterSorted(Closer(close), IsWall, s);
    var walls := Filter(IsWall, s);
    forall i | 0 <= i < |walls|
      ensures walls[i] in zones && (walls[i].price > close) == bullish && IsWall(walls[i])
    {
      assert walls[i] in walls;
    }
    forall i, j | 0 <= i < j < |walls| ensures Abs(close - walls[i].price) <= Abs(close - walls[j].price) {
      assert Closer(close)(walls[i], walls[j]);
    }
  }

  lemma FilterMember<T>(keep: T -> bool, s: seq<T>, y: T)
    requires y in Filter(keep, s)
    ensures y in s && keep(y)
  {
    FilterElements(keep, s);
  }

  lemma {:induction false} FilterSorted<T>(le: (T, T) -> bool, keep: T -> bool, s: seq<T>)
    requires Sorted(le, s)
    ensures Sorted(le, Filter(keep, s))
  {
    if s != [] {
      FilterSorted(le, keep, s[1..]);
      var rest := Filter(keep, s[1..]);
      forall j | 0 <= j < |rest| ensures le(s[0], rest[j]) {
        assert rest[j] in rest;
        FilterMember(keep, s[1..], rest[j]);
        var k :| 0 <= k < |s[1..]| && s[1..][k] == rest[j];
        assert s[k + 1] == rest[j];
      }
    }
  }

  /** A wall at the close is both behind and ahead of a bearish trade. */
  predicate WallAtClose(close: real, zones: seq<Zone>) { exists z :: z in zones && z.price == close && IsWall(z) }

  /** A level between the close and its round figure, too far from that figure to be sent there, and
      more than a rounding away from it. */
  predicate CutShort(level: real, close: real, tick: real) {
    && close > 0.0
    && var figure := RoundFigure(close, false);
       && figure < level < close && level - figure > MAX_SNAP_FRACTION * (close - level)
       && TickPrice(Round2(figure), tick) < TickPrice(Round2(level), tick)
  }

  /** No wall after one at the close is cut short. With no distance to cap its snap, the wall at the
      close goes all the way to the round figure. */
  predicate CloseWallsHold(close: real, walls: seq<Zone>, tick: real) {
    forall i, j :: 0 <= i < j < |walls| && walls[i].price == close ==> !CutShort(walls[j].price, close, tick)
  }

  predicate AllOutward(bullish: bool, ts: seq<real>) {
    forall i, j :: 0 <= i < j < |ts| ==> Outward(bullish, ts[i], ts[j])
  }

  /** Past the close, two decimals never reach back behind `FirstPaise`, and next to it they stop there. */
  lemma PaisePastClose(close: real, bullish: bool, s: real)
    ensures (if bullish then close < s else s < close) ==> Outward(bullish, FirstPaise(close, bullish), Round2(s))
    ensures bullish && close < s && s * 100.0 < (close * 100.0 + 0.5).Floor as real + 0.5 ==>
      Round2(s) == FirstPaise(close, true)
    ensures !bullish && s < close && -(0.5 - close * 100.0).Floor as real - 0.5 < s * 100.0 ==>
      Round2(s) == FirstPaise(close, false)
  {
    assert s / 0.01 == s * 100.0;
    var n := if bullish then (close * 100.0 + 0.5).Floor else -(0.5 - close * 100.0).Floor;
    RoundIntBetween(s * 100.0, n);
  }

  lemma RoundIntBetween(x: real, n: int)
    ensures n as real - 0.5 < x ==> n <= RoundInt(x)
    ensures x < n as real + 0.5 ==> RoundInt(x) <= n
  {
    RoundIntNearest(x);
  }

  /** A round figure is whole rupees, so two decimals keep it. */
  lemma FigureIsPaise(price: real, up: bool)
    requires price > 0.0
    ensures Round2(RoundFigure(price, up)) == RoundFigure(price, up)
  {
    hide RoundFigure;
    FigureOutward(price, up);
    var step, whole := (SnapStep(price) * 100.0).Floor, (price / SnapStep(price)).Floor;
    var n := if RoundFigure(price, up) == whole as real * SnapStep(price) then whole else whole + 1;
    assert step as real * 0.01 == SnapStep(price);
    PaiseOf(n, step, SnapStep(price));
    MultipleStays(n * step, 0.01, RoundFigure(price, up));
  }

  lemma PaiseOf(n: int, paise: int, unit: real)
    requires unit == paise as real * 0.01
    ensures n as real * unit == (n * paise) as real * 0.01
  {
  }

  /** Where the sides hold, every target keeps its side. */
  lemma TargetAhead(z: Zone, close: real, bullish: bool, tick: real)
    requires (z.price > close) == bullish && SidesHold(close, bullish, tick)
    requires close > 0.0 || TickPrice(close, tick) == close
    ensures TargetSide(close, bullish, TargetPrice(z, close, bullish, tick))
  {
    hide TickPrice, Round2, SnapCapped, RoundFigure, FirstPaise;
    var s := RoundFigureSnap(z.price, bullish, close);
    if close <= 0.0 {
      SnappedNonNegative(z.price, bullish, close);
      TickKeepsSide(s, close, tick);
    } else {
      SnapPastFirst(z.price, close, bullish);
      if bullish {
        TickMonotone(FirstPaise(close, true), s, tick);
      } else {
        TickMonotone(s, FirstPaise(close, false), tick);
      }
    }
  }

  lemma SnappedNonNegative(price: real, up: bool, anchor: real)
    ensures price > 0.0 ==> RoundFigureSnap(price, up, anchor) >= 0.0
  {
    hide SnapCapped, Round2;
    if price > 0.0 {
      SnapIsOutwardAndCapped(price, up, anchor);
      Round2Zero();
      Round2Monotone(0.0, SnapCapped(price, up, anchor));
    }
  }

  lemma SnapPastFirst(price: real, close: real, bullish: bool)
    requires close > 0.0 && (price > close) == bullish
    ensures Outward(bullish, FirstPaise(close, bullish), RoundFigureSnap(price, bullish, close))
  {
    hide SnapCapped, RoundFigure, Round2, FirstPaise;
    FirstPaiseNonNegative(close, bullish);
    if price > 0.0 {
      SnapIsOutwardAndCapped(price, bullish, close);
      if price != close {
        PaisePastClose(close, bullish, SnapCapped(price, bullish, close));
      } else {
        FigureBehindFirst(close);
      }
    }
  }

  lemma FirstPaiseNonNegative(close: real, bullish: bool)
    requires close > 0.0
    ensures FirstPaise(close, bullish) >= 0.0
  {
  }

  /** A level at the close has nothing to cap its snap, and its figure is a two-decimal price. */
  lemma FigureBehindFirst(close: real)
    requires close > 0.0
    ensures RoundFigureSnap(close, false, close) == RoundFigure(close, false) <= FirstPaise(close, false)
  {
    hide RoundFigure, RoundInt, SnapStep;
    var f := RoundFigure(close, false);
    FigureOutward(close, false);
    FigureIsPaise(close, false);
    if f == close {
      var n := RoundInt(close / 0.01);
      assert close * 100.0 == n as real;
      assert (0.5 - n as real).Floor == -n;
    } else {
      PaisePastClose(close, false, f);
    }
  }

  /** A level next to the close whose target is the first two-decimal price past it, ticked. */
  function NextTo(close: real, bullish: bool): real {
    if bullish then close + ((close * 100.0 + 0.5).Floor as real + 0.5 - close * 100.0) / 240.0
    else close - (close * 100.0 + (0.5 - close * 100.0).Floor as real + 0.5) / 240.0
  }

  lemma NextToReachesFirst(close: real, bullish: bool)
    requires bullish || 1.0 <= FirstPaise(close, false) * 100.0
    requires close > 0.0
    ensures var price := NextTo(close, bullish);
      && price > 0.0 && price != close && (price > close) == bullish
      && RoundFigureSnap(price, bullish, close) == FirstPaise(close, bullish)
  {
    hide SnapCapped, Round2;
    var price := NextTo(close, bullish);
    SnapIsOutwardAndCapped(price, bullish, close);
    PaisePastClose(close, bullish, SnapCapped(price, bullish, close));
  }

  /** Exactly when the targets keep their side of the close, whatever the zones: the tick leaves the
      first two-decimal price past the close on that side. It speaks of the close and the tick alone. */
  lemma SidesHoldIff(close: real, bullish: bool, tick: real, pol: GradePolicy)
    requires close > 0.0 || TickPrice(close, tick) == close
    ensures (forall zones :: TargetsOnSide(close, bullish, zones, tick, pol)) <==>
      SidesHold(close, bullish, tick) || pol.maxTargets == 0
  {
    hide TargetWalls, TargetPrice, TickPrice, SidesHold;
    if SidesHold(close, bullish, tick) || pol.maxTargets == 0 {
      forall zones ensures TargetsOnSide(close, bullish, zones, tick, pol) {
        SidesKept(close, bullish, zones, tick, pol);
      }
    } else {
      var z := Zone(NextTo(close, bullish), WALL_MIN_STRENGTH, []);
      NextToCrosses(close, bullish, tick);
      OneWallAhead(close, bullish, z, pol);
      assert TargetWalls(close, bullish, [z], pol)[0] == z;
      assert !TargetsOnSide(close, bullish, [z], tick, pol);
    }
  }

  lemma SidesKept(close: real, bullish: bool, zones: seq<Zone>, tick: real, pol: GradePolicy)
    requires SidesHold(close, bullish, tick) || pol.maxTargets == 0
    requires close > 0.0 || TickPrice(close, tick) == close
    ensures TargetsOnSide(close, bullish, zones, tick, pol)
  {
    hide TargetWalls, TargetPrice, TickPrice, SidesHold;
    WallsAhead(close, bullish, zones, pol);
    var walls := TargetWalls(close, bullish, zones, pol);
    forall i | 0 <= i < |walls| ensures TargetSide(close, bullish, TargetPrice(walls[i], close, bullish, tick)) {
      TargetAhead(walls[i], close, bullish, tick);
    }
  }

  lemma NextToCrosses(close: real, bullish: bool, tick: real)
    requires !SidesHold(close, bullish, tick)
    ensures var z := Zone(NextTo(close, bullish), WALL_MIN_STRENGTH, []);
      (z.price > close) == bullish && !TargetSide(close, bullish, TargetPrice(z, close, bullish, tick))
  {
    hide TickPrice, RoundFigureSnap, NextTo;
    if !bullish && FirstPaise(close, false) * 100.0 < 1.0 {
      assert FirstPaise(close, false) <= 0.0;
      TickMonotone(FirstPaise(close, false), 0.0, tick);
      TickZero(tick);
    } else {
      NextToReachesFirst(close, bullish);
    }
  }

  lemma TickZero(tick: real)
    ensures TickPrice(0.0, tick) == 0.0
  {
  }

  lemma OneWallAhead(close: real, bullish: bool, z: Zone, pol: GradePolicy)
    requires (z.price > close) == bullish && IsWall(z) && pol.maxTargets > 0
    ensures TargetWalls(close, bullish, [z], pol) == [z]
  {
    assert [z][1..] == [];
    assert Filter(Ahead(close, bullish), [z]) == [z];
    assert Sort(Closer(close), [z]) == [z];
    assert Filter(IsWall, [z]) == [z];
  }

  lemma TargetsOutward(y: Zone, z: Zone, close: real, bullish: bool, tick: real)
    requires (y.price > close) == bullish && (z.price > close) == bullish
    requires y.price != close && z.price != close
    requires Abs(close - y.price) <= Abs(close - z.price)
    ensures Outward(bullish, TargetPrice(y, close, bullish, tick), TargetPrice(z, close, bullish, tick))
  {
    hide TickPrice, RoundFigureSnap;
    SnapRoundedKeepsOrder(y.price, z.price, bullish, close);
    var sy, sz := RoundFigureSnap(y.price, bullish, close), RoundFigureSnap(z.price, bullish, close);
    if bullish {
      TickMonotone(sy, sz, tick);
    } else {
      TickMonotone(sz, sy, tick);
    }
  }

  /** Without a stop floor, a wall at the close of a bearish trade is also the nearest zone behind:
      the stop lands on the close. */
  lemma WallAtCloseStops(close: real, zones: seq<Zone>, atr: real, tick: real, pol: GradePolicy, z: Zone)
    requires TickPrice(close, tick) == close && atr >= 0.0 && pol.minStopAtr <= 0.0
    requires z in zones && z.price == close && IsWall(z)
    ensures StopPrice(close, false, zones, atr, tick, pol) == close
  {
    hide TickPrice, Round2, Sort;
    FilterElements(Behind(close, false), zones);
    FilterElements(IsWall, Filter(Behind(close, false), zones));
    var eligible := StopZones(close, false, zones, pol);
    assert z in Filter(Behind(close, false), zones);
    assert z in Filter(IsWall, Filter(Behind(close, false), zones));
    assert z in eligible;
    StopBehind(close, false, zones, atr, tick, pol);
    SortedFirst(close, eligible);
  }

  /** Exactly when the targets never turn back toward the close: always for a bullish trade; for a
      bearish one unless a wall at the close is sent past a later wall's target. */
  lemma OutwardIff(close: real, bullish: bool, zones: seq<Zone>, tick: real, pol: GradePolicy)
    ensures var walls := TargetWalls(close, bullish, zones, pol);
      AllOutward(bullish, Targets(close, bullish, walls, tick)) <==> bullish || CloseWallsHold(close, walls, tick)
  {
    hide TargetWalls, TargetPrice, TickPrice, RoundFigureSnap;
    WallsAhead(close, bullish, zones, pol);
    var walls := TargetWalls(close, bullish, zones, pol);
    var ts := Targets(close, bullish, walls, tick);
    forall i, j | 0 <= i < j < |walls| ensures Outward(bullish, ts[i], ts[j]) <==>
      bullish || walls[i].price != close || !CutShort(walls[j].price, close, tick)
    {
      if walls[i].price == close {
        CutShortIff(walls[i], walls[j], close, tick);
      } else {
        TargetsOutward(walls[i], walls[j], close, bullish, tick);
      }
    }
  }

  /** A wall at the close is sent past another exactly when that one is cut short. */
  lemma CutShortIff(y: Zone, z: Zone, close: real, tick: real)
    requires y.price == close && z.price <= close
    ensures CutShort(z.price, close, tick) <==>
      TargetPrice(y, close, false, tick) < TargetPrice(z, close, false, tick)
  {
    hide TickPrice, Round2, RoundFigure;
    if close > 0.0 {
      FigureBehindFirst(close);
      FigureOutward(close, false);
      if z.price <= RoundFigure(close, false) {
        SnapNotOver(z.price, close);
        TickMonotone(RoundFigureSnap(z.price, false, close), RoundFigureSnap(close, false, close), tick);
      } else {
        SameFigure(close, z.price, false);
      }
    } else {
      TickMonotone(z.price, close, tick);
    }
  }

  /** A level at or below the close's figure is not sent above it. */
  lemma SnapNotOver(price: real, close: real)
    requires close > 0.0 && price <= RoundFigure(close, false)
    ensures RoundFigureSnap(price, false, close) <= RoundFigureSnap(close, false, close)
  {
    hide SnapCapped, Round2, RoundFigure;
    FigureBehindFirst(close);
    FigureIsPaise(close, false);
    FigureOutward(close, false);
    if price > 0.0 {
      SnapIsOutwardAndCapped(price, false, close);
      Round2Monotone(SnapCapped(price, false, close), RoundFigure(close, false));
    }
  }

  /** The ladder keeps its order through snap, cap and both roundings: stop and targets lie weakly on
      opposite sides of a close on the tick, whose sides hold, and the targets never turn back toward
      it for a bullish trade, with no wall at the close, or without a stop floor wherever a trade is
      offered at all. */
  lemma LadderOrdered(close: real, bullish: bool, zones: seq<Zone>, atr: real, tick: real, pol: GradePolicy)
    requires TickPrice(close, tick) == close && atr >= 0.0
    ensures StopSide(close, bullish, StopPrice(close, bullish, zones, atr, tick, pol))
    ensures var ts := Targets(close, bullish, TargetWalls(close, bullish, zones, pol), tick);
      && (SidesHold(close, bullish, tick) ==> forall i :: 0 <= i < |ts| ==> TargetSide(close, bullish, ts[i]))
      && (bullish || !WallAtClose(close, zones)
          || (pol.minStopAtr <= 0.0 && StopPrice(close, bullish, zones, atr, tick, pol) != close) ==>
            AllOutward(bullish, ts))
  {
    hide StopPrice, TargetWalls, TargetPrice, TickPrice, SidesHold, AllOutward;
    StopBehind(close, bullish, zones, atr, tick, pol);
    WallsAhead(close, bullish, zones, pol);
    var walls := TargetWalls(close, bullish, zones, pol);
    if SidesHold(close, bullish, tick) {
      SidesKept(close, bullish, zones, tick, pol);
    }
    OutwardIff(close, bullish, zones, tick, pol);
    if !bullish && pol.minStopAtr <= 0.0 && StopPrice(close, bullish, zones, atr, tick, pol) != close {
      forall i | 0 <= i < |walls| ensures walls[i].price != close {
        if walls[i].price == close {
          WallAtCloseStops(close, zones, atr, tick, pol, walls[i]);
        }
      }
    }
  }

  /** With a tick of whole paise, the sides of a close on the tick hold. */
  lemma WholePaiseHolds(close: real, bullish: bool, tick: real, paise: int)
    requires paise > 0 && tick == paise as real * 0.01 && TickPrice(close, tick) == close
    ensures SidesHold(close, bullish, tick)
  {
    hide RoundInt;
    var n := RoundInt(close / tick);
    var hundredths := n * paise;
    assert RoundTo(close, tick) == hundredths as real * 0.01 by { PaiseOf(n, paise, tick); }
    assert hundredths as real * 0.01 == (hundredths * 100) as real * 0.0001;
    MultipleStays(hundredths * 100, 0.0001, RoundTo(close, tick));
    assert close * 100.0 == hundredths as real;
    assert (0.5 - hundredths as real).Floor == -hundredths;
  }

  /** With a finer tick they may not: at 1.0025 on a quarter-paisa tick, a wall at 1.003 is sent to a
      target of 1.0, behind the close. */
  lemma FineTickTargetCrosses()
    ensures var zones := [Zone(1.003, 6.0, [])];
      && TickPrice(1.0025, 0.0025) == 1.0025
      && Targets(1.0025, true, TargetWalls(1.0025, true, zones, DEFAULT_POLICY), 0.0025) == [1.0]
  {
    assert (1.003 / 1.0).Floor == 1;
    assert RoundFigure(1.003, true) == 2.0;
    assert SnapCapped(1.003, true, 1.0025) == 1.003;
    assert RoundInt(1.003 / 0.01) == 100 by { assert 1.003 / 0.01 == 100.3; assert (100.3).Floor == 100; }
    assert Round2(1.003) == 1.0;
    assert RoundInt(1.0 / 0.0025) == 400 by { assert (400.0).Floor == 400; }
    assert RoundInt(1.0 / 0.0001) == 10000 by { assert (10000.0).Floor == 10000; }
    assert RoundInt(1.0025 / 0.0025) == 401 by { assert (401.0).Floor == 401; }
    assert RoundInt(1.0025 / 0.0001) == 10025 by { assert (10025.0).Floor == 10025; }
    OneWallAhead(1.0025, true, Zone(1.003, 6.0, []), DEFAULT_POLICY);
  }

  lemma DisorderedTargets()
    ensures TickPrice(103.0, 0.05) == 103.0 && TickPrice(104.0, 0.05) == 104.0
    ensures TargetPrice(Zone(103.0, 6.0, []), 103.0, false, 0.05) == 100.0
    ensures TargetPrice(Zone(102.0, 6.0, []), 103.0, false, 0.05) == 102.0
  {
    assert (103.0 / 10.0).Floor == 10 && (102.0 / 10.0).Floor == 10;
    assert RoundFigure(103.0, false) == 100.0 && RoundFigure(102.0, false) == 100.0;
    assert SnapCapped(103.0, false, 103.0) == 100.0 && SnapCapped(102.0, false, 103.0) == 102.0;
    WholeRupees(100);
    WholeRupees(102);
    WholeRupees(103);
    WholeRupees(104);
  }

  lemma WholeRupees(n: int)
    ensures Round2(n as real) == n as real && TickPrice(n as real, 0.05) == n as real
  {
    MultipleStays(n * 100, 0.01, n as real);
    MultipleStays(n * 20, 0.05, n as real);
    MultipleStays(n * 10000, 0.0001, n as real);
  }

  /** With a stop floor a wall at the close does disorder a bearish ladder: the floor keeps the trade
      alive with its stop at 104, and the wall at 103 is sent to 100, past the next wall's 102. */
  lemma WallAtCloseDisorders()
    ensures var pol, zones := DEFAULT_POLICY.(minStopAtr := 1.0), [Zone(103.0, 6.0, []), Zone(102.0, 6.0, [])];
      && TickPrice(103.0, 0.05) == 103.0 && StopPrice(103.0, false, zones, 1.0, 0.05, pol) == 104.0
      && Targets(103.0, false, TargetWalls(103.0, false, zones, pol), 0.05) == [100.0, 102.0]
      && !AllOutward(false, [100.0, 102.0])
  {
    hide TickPrice, TargetPrice;
    var y, z, pol := Zone(103.0, 6.0, []), Zone(102.0, 6.0, []), DEFAULT_POLICY.(minStopAtr := 1.0);
    var zones := [y, z];
    DisorderedTargets();
    assert zones[1..] == [z] && [z][1..] == [] && [y][1..] == [];
    assert Filter(Behind(103.0, false), [z]) == [];
    assert Filter(Behind(103.0, false), zones) == [y];
    assert Sort(Closer(103.0), [y]) == [y];
    assert StopZones(103.0, false, zones, pol) == [y];
    assert Filter(Ahead(103.0, false), [z]) == [z];
    assert Filter(Ahead(103.0, false), zones) == [y, z];
    assert Sort(Closer(103.0), [z]) == [z];
    assert Sort(Closer(103.0), [y, z]) == [y, z];
    assert Filter(IsWall, [z]) == [z];
    assert Filter(IsWall, [y, z]) == [y, z];
    assert TargetWalls(103.0, false, zones, pol) == [y, z];
    assert StopFloor(pol, 1.0) == 1.0 && Offset(103.0, false, 1.0) == 104.0;
    var ts := [100.0, 102.0];
    assert !Outward(false, ts[0], ts[1]);
  }

  /** What each grade means: nothing below the publish floor, under a blocking wall or short of every
      threshold is published; A and B need room ahead; and the rest is C. */
  predicate Graded(g: Grade, rr: real, fortress: real, room: real, pol: GradePolicy) {
    var roomy := room >= pol.roomMinAtr;
    var published := rr >= pol.rrHardFloor && !(rr < 1.0 && fortress >= pol.fortressBlock)
      && (rr >= pol.rrC || rr >= pol.rrB || (rr >= pol.rrA && roomy));
    && (g == F <==> !published)
    && (g == A <==> published && rr >= pol.rrA && roomy)
    && (g == B <==> published && !(rr >= pol.rrA) && rr >= pol.rrB && roomy)
  }

  lemma GradeBands(rr: real, fortress: real, room: real, pol: GradePolicy)
    ensures Graded(GradeOf(rr, fortress, room, pol), rr, fortress, room, pol)
  {
  }

  /** A better ratio never earns a worse grade, for thresholds in order. */
  lemma GradeMonotone(rr: real, better: real, fortress: real, room: real, pol: GradePolicy)
    requires rr <= better && pol.rrC <= pol.rrB <= pol.rrA
    ensures Rank(GradeOf(rr, fortress, room, pol)) <= Rank(GradeOf(better, fortress, room, pol))
  {
  }

  function Rank(g: Grade): nat {
    match g
    case F => 0
    case C => 1
    case B => 2
    case A => 3
  }

  /** Reward to risk: the first target's distance over the stop's. */
  function RewardToRisk(close: real, stop: real, target: real): real
    requires stop != close
  {
    Abs(target - close) / Abs(close - stop)
  }

  lemma RatioTimesRisk(close: real, stop: real, target: real)
    requires stop != close
    ensures RewardToRisk(close, stop, target) * Abs(close - stop) == Abs(target - close)
  {
  }

  /** How many ATRs away the next wall is, none without an ATR. */
  predicate RoomIs(room: real, close: real, atr: real, next: real) {
    if atr > 0.0 then room * atr == Abs(next - close) else room == 0.0
  }

  lemma RoomTimesAtr(close: real, atr: real, walls: seq<Zone>, targets: seq<real>)
    requires targets != []
    ensures RoomIs(RoomRatio(close, atr, walls, targets), close, atr,
                   if |walls| > 1 then walls[1].price else targets[0])
  {
  }

  /** How far the next wall is, in ATRs. */
  function RoomRatio(close: real, atr: real, walls: seq<Zone>, targets: seq<real>): real
    requires targets != []
  {
    var next := if |walls| > 1 then walls[1].price else targets[0];
    if atr > 0.0 then Abs(next - close) / atr else 0.0
  }

  method ChooseStop(close: real, bullish: bool, zones: seq<Zone>, atr: real, tick: real, pol: GradePolicy)
    returns (stop: real)
    ensures stop == StopPrice(close, bullish, zones, atr, tick, pol)
    ensures TickPrice(close, tick) == close && atr >= 0.0 ==> StopSide(close, bullish, stop)
  {
    if TickPrice(close, tick) == close && atr >= 0.0 {
      StopBehind(close, bullish, zones, atr, tick, pol);
    }
    hide TickPrice, Sort, Filter, StopFloor, Offset;
    var behind := Filter(Behind(close, bullish), zones);
    if pol.stopRequiresWall {
      var wallsBehind := Filter(IsWall, behind);
      behind := if wallsBehind != [] then wallsBehind else behind;
    }
    behind := Sort(Closer(close), behind);
    stop := if behind != [] then TickPrice(behind[0].price, tick) else TickPrice(Offset(close, bullish, atr), tick);
    if pol.minStopAtr > 0.0 && Abs(close - stop) < StopFloor(pol, atr) {
      stop := TickPrice(Offset(close, bullish, StopFloor(pol, atr)), tick);
    }
  }

  method ChooseWalls(close: real, bullish: bool, zones: seq<Zone>, pol: GradePolicy) returns (walls: seq<Zone>)
    ensures walls == TargetWalls(close, bullish, zones, pol)
    ensures |walls| <= pol.maxTargets
    ensures forall i :: 0 <= i < |walls| ==>
      walls[i] in zones && (walls[i].price > close) == bullish && IsWall(walls[i])
    ensures forall i, j :: 0 <= i < j < |walls| ==> Abs(close - walls[i].price) <= Abs(close - walls[j].price)
  {
    WallsAhead(close, bullish, zones, pol);
    hide Sort, Filter;
    var ahead := Sort(Closer(close), Filter(Ahead(close, bullish), zones));
    walls := Filter(IsWall, ahead);
    walls := if |walls| > pol.maxTargets then walls[..pol.maxTargets] else walls;
  }

  lemma NothingOutward(bullish: bool)
    ensures AllOutward(bullish, [])
  {
  }

  /** Stop, targets and grade of a signal. */
  method ComputeConfluence(close: real, bullish: bool, zones: seq<Zone>, atr: real, tick: real, pol: GradePolicy)
    returns (c: Confluence)
    ensures c.stop == StopPrice(close, bullish, zones, atr, tick, pol)
    ensures var walls := TargetWalls(close, bullish, zones, pol);
      && (c.targets == [] <==>
           || c.stop == close || walls == []
           || (pol.minStopAtrFilter > 0.0 && atr > 0.0 && Abs(close - c.stop) < pol.minStopAtrFilter * atr))
      && (c.targets == [] ==> c.grade == F)
      && (c.targets != [] ==>
           && c.targets == Targets(close, bullish, walls, tick)
           && c.rr * Abs(close - c.stop) == Abs(c.targets[0] - close)
           && c.fortress == walls[0].strength
           && RoomIs(c.roomRatio, close, atr, if |walls| > 1 then walls[1].price else c.targets[0])
           && Graded(c.grade, c.rr, c.fortress, c.roomRatio, pol))
    ensures TickPrice(close, tick) == close && atr >= 0.0 ==>
      && StopSide(close, bullish, c.stop)
      && (SidesHold(close, bullish, tick) ==>
           forall i :: 0 <= i < |c.targets| ==> TargetSide(close, bullish, c.targets[i]))
      && (bullish || pol.minStopAtr <= 0.0 || !WallAtClose(close, zones) ==> AllOutward(bullish, c.targets))
    ensures c.targets != [] ==>
      (AllOutward(bullish, c.targets) <==>
        bullish || CloseWallsHold(close, TargetWalls(close, bullish, zones, pol), tick))
  {
    hide StopPrice, TargetWalls, TargetPrice, GradeOf, TickPrice, SidesHold, RewardToRisk, RoomRatio, AllOutward;
    hide CloseWallsHold, Graded, RoomIs;
    assert AllOutward(bullish, []) by { NothingOutward(bullish); }
    OutwardIff(close, bullish, zones, tick, pol);
    if TickPrice(close, tick) == close && atr >= 0.0 {
      LadderOrdered(close, bullish, zones, atr, tick, pol);
    }
    var stop := ChooseStop(close, bullish, zones, atr, tick, pol);
    c := Confluence(stop, [], F, 0.0, 0.0, 0.0);
    var risk := Abs(close - stop);
    if risk <= 0.0 || (pol.minStopAtrFilter > 0.0 && atr > 0.0 && risk < pol.minStopAtrFilter * atr) {
      return;
    }
    var walls := ChooseWalls(close, bullish, zones, pol);
    var targets := Targets(close, bullish, walls, tick);
    if targets == [] {
      return;
    }
    var rr := RewardToRisk(close, stop, targets[0]);
    var room := RoomRatio(close, atr, walls, targets);
    RatioTimesRisk(close, stop, targets[0]);
    RoomTimesAtr(close, atr, walls, targets);
    GradeBands(rr, walls[0].strength, room, pol);
    c := Confluence(stop, targets, GradeOf(rr, walls[0].strength, room, pol), rr, walls[0].strength, room);
  }
}
