/** True range, Wilder's ATR and SuperTrend: the array-filling loops, proved against pointwise
    definitions that look at no later bar. */
module Indicators {
  import opened Wrappers

  datatype Candle = Candle(high: real, low: real, close: real)

  datatype Trend = Up | Down

  datatype Point = Point(trend: Trend, upper: real, lower: real, value: real)

  // ---- pointwise definitions ------------------------------------------------------------------

  function TrueRange(cur: Candle, prev: Candle): real {
    Max(cur.high - cur.low, Max(Abs(cur.high - prev.close), Abs(cur.low - prev.close)))
  }

  function SumRanges(bars: seq<Candle>, n: nat): real
    requires n < |bars|
  {
    if n == 0 then 0.0 else SumRanges(bars, n - 1) + TrueRange(bars[n], bars[n - 1])
  }

  /** Wilder's running average, and the plain mean that seeds it. */
  function Wilder(prev: real, range: real, period: int): real
    requires period > 0
  {
    (prev * (period - 1) as real + range) / period as real
  }

  function Mean(sum: real, period: int): real
    requires period > 0
  {
    sum / period as real
  }

  function AtrAt(bars: seq<Candle>, period: int, i: nat): Option<real>
    requires i < |bars|
  {
    if period <= 0 || i < period then None
    else if i == period then Some(Mean(SumRanges(bars, period), period))
    else Some(Wilder(AtrAt(bars, period, i - 1).value, TrueRange(bars[i], bars[i - 1]), period))
  }

  function BasicUpper(b: Candle, mult: real, a: real): real { (b.high + b.low) / 2.0 + mult * a }

  function BasicLower(b: Candle, mult: real, a: real): real { (b.high + b.low) / 2.0 - mult * a }

  function Active(trend: Trend, upper: real, lower: real): real { if trend.Up? then lower else upper }

  function First(b: Candle, mult: real, a: real): Point {
    var upper, lower := BasicUpper(b, mult, a), BasicLower(b, mult, a);
    var trend := if b.close >= (b.high + b.low) / 2.0 then Up else Down;
    Point(trend, upper, lower, Active(trend, upper, lower))
  }

  /** The band lock and the flip. */
  function Next(p: Point, prevClose: real, b: Candle, mult: real, a: real): Point {
    var basicUpper, basicLower := BasicUpper(b, mult, a), BasicLower(b, mult, a);
    var upper := if basicUpper < p.upper || prevClose > p.upper then basicUpper else p.upper;
    var lower := if basicLower > p.lower || prevClose < p.lower then basicLower else p.lower;
    var trend :=
      if p.trend.Up? && b.close < lower then Down
      else if p.trend.Down? && b.close > upper then Up
      else p.trend;
    Point(trend, upper, lower, Active(trend, upper, lower))
  }

  /** Warm means an ATR exists there and is positive; only warm bars get a point. */
  predicate Warm(bars: seq<Candle>, period: int, i: nat)
    requires i < |bars|
  {
    AtrAt(bars, period, i).Some? && AtrAt(bars, period, i).value > 0.0
  }

  /** The last point at or before bar `i`. */
  function LastPoint(bars: seq<Candle>, period: int, mult: real, i: nat): Option<Point>
    requires i < |bars|
  {
    var before := if i == 0 then None else LastPoint(bars, period, mult, i - 1);
    if !Warm(bars, period, i) then before
    else
      var a := AtrAt(bars, period, i).value;
      if before.None? then Some(First(bars[i], mult, a))
      else Some(Next(before.value, bars[i - 1].close, bars[i], mult, a))
  }

  function PointAt(bars: seq<Candle>, period: int, mult: real, i: nat): Option<Point>
    requires i < |bars|
  {
    if Warm(bars, period, i) then LastPoint(bars, period, mult, i) else None
  }

  // ---- the loops ------------------------------------------------------------------------------

  method TrueRanges(bars: seq<Candle>) returns (out: seq<real>)
    ensures |out| == if bars == [] then 0 else |bars| - 1
    ensures forall i :: 0 <= i < |out| ==> out[i] == TrueRange(bars[i + 1], bars[i])
  {
    out := [];
    var i := 1;
    while i < |bars|
      invariant 1 <= i && (if bars == [] then i == 1 else i <= |bars|)
      invariant |out| == i - 1
      invariant forall k :: 0 <= k < |out| ==> out[k] == TrueRange(bars[k + 1], bars[k])
    {
      out := out + [TrueRange(bars[i], bars[i - 1])];
      i := i + 1;
    }
  }

  method AtrSeries(bars: seq<Candle>, period: int) returns (out: seq<Option<real>>)
    ensures |out| == |bars| && forall i :: 0 <= i < |bars| ==> out[i] == AtrAt(bars, period, i)
  {
    hide TrueRange, Wilder, Mean;
    out := seq(|bars|, _ => None);
    var trs := TrueRanges(bars);
    if |trs| < period || period <= 0 {
      return;
    }
    var sum := 0.0;
    for k := 0 to period
      invariant sum == SumRanges(bars, k)
    {
      sum := sum + trs[k];
    }
    var prev := Mean(sum, period);
    out := out[period := Some(prev)];
    for i := period to |trs|
      invariant |out| == |bars| && AtrAt(bars, period, i) == Some(prev)
      invariant forall k :: 0 <= k <= i ==> out[k] == AtrAt(bars, period, k)
      invariant forall k :: i < k < |bars| ==> out[k] == None
    {
      prev := Wilder(prev, trs[i], period);
      out := out[i + 1 := Some(prev)];
    }
  }

  method SuperTrend(bars: seq<Candle>, period: int, mult: real) returns (out: seq<Option<Point>>)
    ensures |out| == |bars| && forall i :: 0 <= i < |bars| ==> out[i] == PointAt(bars, period, mult, i)
  {
    hide AtrAt;
    var n := |bars|;
    out := seq(n, _ => None);
    var atrs := AtrSeries(bars, period);
    var trend := Up;
    var finalUpper, finalLower := 0.0, 0.0;
    var started := false;
    for i := 0 to n
      invariant |out| == n
      invariant forall k :: 0 <= k < i ==> out[k] == PointAt(bars, period, mult, k)
      invariant forall k :: i <= k < n ==> out[k] == None
      invariant i == 0 ==> !started
      invariant i > 0 ==> (LastPoint(bars, period, mult, i - 1) ==
        if started then Some(Point(trend, finalUpper, finalLower, Active(trend, finalUpper, finalLower))) else None)
    {
      if atrs[i].None? || atrs[i].value <= 0.0 {
        continue;
      }
      var a := atrs[i].value;
      var b := bars[i];
      var hl2 := (b.high + b.low) / 2.0;
      var basicUpper, basicLower := hl2 + mult * a, hl2 - mult * a;
      assert basicUpper == BasicUpper(b, mult, a) && basicLower == BasicLower(b, mult, a);
      if !started {
        finalUpper, finalLower := basicUpper, basicLower;
        trend := if b.close >= hl2 then Up else Down;
        started := true;
      } else {
        var prevClose := bars[i - 1].close;
        finalUpper := if basicUpper < finalUpper || prevClose > finalUpper then basicUpper else finalUpper;
        finalLower := if basicLower > finalLower || prevClose < finalLower then basicLower else finalLower;
        if trend.Up? && b.close < finalLower {
          trend := Down;
        } else if trend.Down? && b.close > finalUpper {
          trend := Up;
        }
      }
      out := out[i := Some(Point(trend, finalUpper, finalLower, if trend.Up? then finalLower else finalUpper))];
    }
  }

  /** The length of the unchanged run of trend that the points end with. */
  method BarsInTrend(points: seq<Option<Point>>) returns (count: nat)
    ensures points == [] || points[|points| - 1].None? ==> count == 0
    ensures points != [] && points[|points| - 1].Some? ==>
      && 1 <= count <= |points|
      && (forall i :: |points| - count <= i < |points| ==>
           points[i].Some? && points[i].value.trend == points[|points| - 1].value.trend)
      && (count < |points| ==>
           var p := points[|points| - count - 1]; p.None? || p.value.trend != points[|points| - 1].value.trend)
  {
    count := 0;
    if points == [] || points[|points| - 1].None? {
      return;
    }
    var trend := points[|points| - 1].value.trend;
    while count < |points|
      invariant count <= |points|
      invariant forall i :: |points| - count <= i < |points| ==> points[i].Some? && points[i].value.trend == trend
      invariant count == 0 ==> points[|points| - 1].Some? && points[|points| - 1].value.trend == trend
    {
      var p := points[|points| - 1 - count];
      if p.None? || p.value.trend != trend {
        break;
      }
      count := count + 1;
    }
  }
}
