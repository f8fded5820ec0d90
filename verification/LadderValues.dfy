/** The numbers of the ladder, each said outright: the round figure a target is sent to, the stop, the
    walls chosen as targets, and the nearest tick. */
module LadderValues {
  import opened Wrappers
  import opened Sorting
  import opened Clusters
  import opened Rounding
  import opened Ladder

  // ---- the round figure -----------------------------------------------------------------------

  /** The multiple of the step at the price, or the next one outward. */
  ghost predicate NextMultiple(r: real, price: real, step: real, up: bool) {
    && (exists n: int :: MultipleOf(r, n, step))
    && if up then price <= r < price + step else r <= price < r + step
  }

  /** Below 100 whole rupees, below 500 tens, below 2000 fifties, and hundreds from there. */
  lemma FigureIsRound(price: real, up: bool)
    requires price > 0.0
    ensures price < 100.0 ==> NextMultiple(RoundFigure(price, up), price, 1.0, up)
    ensures 100.0 <= price < 500.0 ==> NextMultiple(RoundFigure(price, up), price, 10.0, up)
    ensures 500.0 <= price < 2000.0 ==> NextMultiple(RoundFigure(price, up), price, 50.0, up)
    ensures 2000.0 <= price ==> NextMultiple(RoundFigure(price, up), price, 100.0, up)
  {
    hide RoundFigure, NextMultiple;
    FigureIsNext(price, up);
  }

  lemma FigureIsNext(price: real, up: bool)
    requires price > 0.0
    ensures NextMultiple(RoundFigure(price, up), price, SnapStep(price), up)
  {
    hide RoundFigure, SnapStep;
    FigureOutward(price, up);
    var whole := (price / SnapStep(price)).Floor;
    var n := if RoundFigure(price, up) == whole as real * SnapStep(price) then whole else whole + 1;
    assert MultipleOf(RoundFigure(price, up), n, SnapStep(price));
  }

  /** A target goes to its round figure unless that is more than a fifth of its distance from the close
      away; with no distance to the close it always does. Otherwise it stays, to two decimals. */
  lemma SnapIs(price: real, up: bool, anchor: real)
    ensures price <= 0.0 ==> RoundFigureSnap(price, up, anchor) == price
    ensures price > 0.0 ==>
      var figure := RoundFigure(price, up);
      RoundFigureSnap(price, up, anchor) ==
        Round2(if price == anchor || 5.0 * Abs(figure - price) <= Abs(price - anchor) then figure else price)
  {
    hide RoundFigure, Round2;
  }

  // ---- the stop -------------------------------------------------------------------------------

  predicate OnLosingSide(z: Zone, close: real, bullish: bool) { if bullish then z.price < close else z.price >= close }

  /** A zone the stop may be put behind: a wall, where the policy asks for one and there is one. */
  predicate MayHoldStop(z: Zone, close: real, bullish: bool, zones: seq<Zone>, pol: GradePolicy) {
    && z in zones && OnLosingSide(z, close, bullish)
    && (pol.stopRequiresWall && (exists y :: y in zones && OnLosingSide(y, close, bullish) && y.strength >= 5.2)
        ==> z.strength >= 5.2)
  }

  /** The stop before any floor: the nearest such zone, or one ATR away when there is none, ticked. */
  ghost predicate FirstStop(stop: real, close: real, bullish: bool, zones: seq<Zone>, atr: real, tick: real,
                            pol: GradePolicy)
  {
    || (exists z :: MayHoldStop(z, close, bullish, zones, pol) && stop == TickPrice(z.price, tick)
          && forall y :: MayHoldStop(y, close, bullish, zones, pol) ==> Abs(close - z.price) <= Abs(close - y.price))
    || ((forall z :: !MayHoldStop(z, close, bullish, zones, pol))
        && stop == TickPrice(if bullish then close - atr else close + atr, tick))
  }

  /** The stop that a floor makes of the first one. */
  predicate HeldOff(first: real, stop: real, close: real, bullish: bool, floor: real, tick: real, pol: GradePolicy) {
    stop == if pol.minStopAtr > 0.0 && Abs(close - first) < floor
      then TickPrice(if bullish then close - floor else close + floor, tick) else first
  }

  lemma StopZonesIff(close: real, bullish: bool, zones: seq<Zone>, pol: GradePolicy, z: Zone)
    ensures z in StopZones(close, bullish, zones, pol) <==> MayHoldStop(z, close, bullish, zones, pol)
  {
    var behind := Filter(Behind(close, bullish), zones);
    FilterElements(Behind(close, bullish), zones);
    FilterElements(IsWall, behind);
    assert forall y :: y in behind <==> y in zones && OnLosingSide(y, close, bullish);
    if Filter(IsWall, behind) != [] {
      assert Filter(IsWall, behind)[0] in Filter(IsWall, behind);
    }
  }

  /** The stop: that zone's, unless the policy has a floor and it is nearer than so many ATRs; then it is
      that many ATRs from the close, ticked. */
  lemma StopIs(close: real, bullish: bool, zones: seq<Zone>, atr: real, tick: real, pol: GradePolicy)
    ensures exists first ::
      && FirstStop(first, close, bullish, zones, atr, tick, pol)
      && HeldOff(first, StopPrice(close, bullish, zones, atr, tick, pol), close, bullish, pol.minStopAtr * atr, tick,
                 pol)
  {
    hide TickPrice, Sort, StopZones, MayHoldStop;
    var eligible := StopZones(close, bullish, zones, pol);
    forall z ensures z in eligible <==> MayHoldStop(z, close, bullish, zones, pol) {
      StopZonesIff(close, bullish, zones, pol, z);
    }
    var from := Sort(Closer(close), eligible);
    SortElements(Closer(close), eligible);
    var first := if from != [] then TickPrice(from[0].price, tick) else TickPrice(Offset(close, bullish, atr), tick);
    if eligible != [] {
      SortedFirst(close, eligible);
      assert from[0] in eligible;
    }
    assert FirstStop(first, close, bullish, zones, atr, tick, pol);
    assert StopFloor(pol, atr) == pol.minStopAtr * atr;
    assert HeldOff(first, StopPrice(close, bullish, zones, atr, tick, pol), close, bullish, pol.minStopAtr * atr, tick,
                   pol);
  }

  // ---- the walls ------------------------------------------------------------------------------

  predicate WallPast(z: Zone, close: real, bullish: bool) {
    z.strength >= 5.2 && if bullish then z.price > close else z.price <= close
  }

  /** The targets' walls are the nearest ones ahead: a wall ahead that is not among them is no nearer
      than any that is, and there is one only where the policy's limit is used up. */
  lemma WallsAreNearest(close: real, bullish: bool, zones: seq<Zone>, pol: GradePolicy)
    ensures var walls := TargetWalls(close, bullish, zones, pol);
      && (forall z :: z in walls ==> z in zones && WallPast(z, close, bullish))
      && (forall z :: z in zones && WallPast(z, close, bullish) && z !in walls ==>
            |walls| == pol.maxTargets && forall y :: y in walls ==> Abs(close - y.price) <= Abs(close - z.price))
  {
    hide Sort, Filter, TargetWalls, Abs;
    var all, walls := AllWalls(close, bullish, zones), TargetWalls(close, bullish, zones, pol);
    AllWallsAhead(close, bullish, zones);
    WallsAreFirst(close, bullish, zones, pol);
    forall z | z in walls ensures z in all {
      var i :| 0 <= i < |walls| && walls[i] == z;
      assert all[i] == z;
    }
    forall z | z in zones && WallPast(z, close, bullish) && z !in walls
      ensures |walls| == pol.maxTargets && forall y :: y in walls ==> Abs(close - y.price) <= Abs(close - z.price)
    {
      var k :| 0 <= k < |all| && all[k] == z;
      assert k >= |walls|;
    }
  }

  /** Every wall ahead, nearest first. */
  function AllWalls(close: real, bullish: bool, zones: seq<Zone>): seq<Zone> {
    Filter(IsWall, Sort(Closer(close), Filter(Ahead(close, bullish), zones)))
  }

  lemma WallsAreFirst(close: real, bullish: bool, zones: seq<Zone>, pol: GradePolicy)
    ensures var all, walls := AllWalls(close, bullish, zones), TargetWalls(close, bullish, zones, pol);
      |walls| == (if |all| < pol.maxTargets then |all| else pol.maxTargets) && walls == all[..|walls|]
  {
    hide Sort, Filter;
  }

  lemma AllWallsAhead(close: real, bullish: bool, zones: seq<Zone>)
    ensures var all := AllWalls(close, bullish, zones);
      && (forall z :: z in all <==> z in zones && WallPast(z, close, bullish))
      && (forall i, j :: 0 <= i < j < |all| ==> Abs(close - all[i].price) <= Abs(close - all[j].price))
  {
    var ahead := Filter(Ahead(close, bullish), zones);
    var s := Sort(Closer(close), ahead);
    FilterElements(Ahead(close, bullish), zones);
    SortSorted(Closer(close), ahead);
    SortElements(Closer(close), ahead);
    FilterElements(IsWall, s);
    FilterSorted(Closer(close), IsWall, s);
    hide Sort, Filter, Abs;
    var all := Filter(IsWall, s);
    forall i, j | 0 <= i < j < |all| ensures Abs(close - all[i].price) <= Abs(close - all[j].price) {
      assert Closer(close)(all[i], all[j]);
    }
  }

  // ---- rounding -------------------------------------------------------------------------------

  /** Within half a tick of a multiple of it, and then within half a unit of the fourth decimal. */
  ghost predicate NearTick(px: real, tick: real, ticked: real) {
    exists n: int, y :: MultipleOf(y, n, tick) && 2.0 * Abs(y - px) <= tick && 2.0 * Abs(ticked - y) <= 0.0001
  }

  /** A price goes to its nearest tick, then to four decimals; without a tick, to four decimals. */
  lemma TickIsNearest(px: real, tick: real)
    ensures tick > 0.0 ==> NearTick(px, tick, TickPrice(px, tick))
    ensures tick <= 0.0 ==> 2.0 * Abs(TickPrice(px, tick) - px) <= 0.0001
  {
    hide RoundTo, MultipleOf;
    RoundToNearest(px, 0.0001);
    if tick > 0.0 {
      RoundToNearest(px, tick);
      RoundToNearest(RoundTo(px, tick), 0.0001);
    }
  }
}
