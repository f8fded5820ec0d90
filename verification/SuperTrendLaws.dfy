/** Laws of SuperTrend over whole windows: the ratchet and exactly when it fails, causality, and how
    the bands follow a shift or a scaling of prices. */
module SuperTrendLaws {
  import opened Wrappers
  import opened Indicators

  predicate WellFormed(bars: seq<Candle>) {
    forall i :: 0 <= i < |bars| ==> bars[i].low <= bars[i].close <= bars[i].high
  }

  /** The close is on the trend's side of the active line. */
  predicate OnSide(p: Point, close: real) {
    if p.trend.Up? then p.lower <= close else close <= p.upper
  }

  /** The close is strictly beyond the active line. */
  predicate Beyond(p: Point, close: real) {
    if p.trend.Up? then close < p.value else p.value < close
  }

  /** The line moved only in the trend's favour. */
  predicate Ratcheted(p: Point, q: Point) {
    if p.trend.Up? then p.value <= q.value else q.value <= p.value
  }

  /** The bar is no wider than the basic bands around it. */
  predicate Calm(b: Candle, mult: real, a: real) { b.high - b.low <= 2.0 * (mult * a) }

  /** The bar pulls a band past the other, around its close. It reads the point before, the previous
      close and the bar's basic bands, not the bands that come of them. */
  predicate Squeezed(p: Point, prevClose: real, b: Candle, mult: real, a: real) {
    var basicUpper, basicLower := BasicUpper(b, mult, a), BasicLower(b, mult, a);
    if p.trend.Up? then
      (if prevClose > p.upper then basicUpper else Min(p.upper, basicUpper)) < b.close < Max(p.lower, basicLower)
    else
      Min(p.upper, basicUpper) < b.close < (if prevClose < p.lower then basicLower else Max(p.lower, basicLower))
  }

  // ---- one bar --------------------------------------------------------------------------------

  lemma FirstOnSide(b: Candle, mult: real, a: real)
    requires mult >= 0.0 && a > 0.0
    ensures OnSide(First(b, mult, a), b.close)
  {
    assert mult * a >= 0.0;
  }

  /** From a close on the right side, the next bar's close is on the right side exactly unless it is
      squeezed, and then the bands have crossed around it. */
  lemma NextOnSideIff(p: Point, prevClose: real, b: Candle, mult: real, a: real)
    requires OnSide(p, prevClose)
    ensures var q := Next(p, prevClose, b, mult, a); 
      && (OnSide(q, b.close) <==> !Squeezed(p, prevClose, b, mult, a))
      && (OnSide(q, b.close) <==> !(q.upper < b.close < q.lower))
  {
  }

  /** A calm bar never squeezes; it flips exactly when it closes beyond the line already drawn, and
      otherwise the line only ratchets. */
  lemma CalmRatchets(p: Point, prevClose: real, b: Candle, mult: real, a: real)
    requires OnSide(p, prevClose) && p.value == Active(p.trend, p.upper, p.lower)
    requires b.low <= b.close <= b.high && Calm(b, mult, a)
    ensures var q := Next(p, prevClose, b, mult, a);
      && OnSide(q, b.close)
      && (q.trend != p.trend <==> Beyond(p, b.close))
      && (q.trend == p.trend ==> Ratcheted(p, q))
  {
  }

  /** The new basic band has jumped past a close that had not crossed the line already drawn. */
  predicate Overtaken(p: Point, b: Candle, mult: real, a: real) {
    if p.trend.Up? then p.lower <= b.close < BasicLower(b, mult, a) else BasicUpper(b, mult, a) < b.close <= p.upper
  }

  /** From a close on the right side, whatever the bar: a flip is a crossing of the line already drawn
      exactly unless the new basic band overtook the close, and without a flip the line only ratchets. */
  lemma NextFlipsIff(p: Point, prevClose: real, b: Candle, mult: real, a: real)
    requires OnSide(p, prevClose) && p.value == Active(p.trend, p.upper, p.lower)
    ensures var q := Next(p, prevClose, b, mult, a);
      && ((q.trend != p.trend <==> Beyond(p, b.close)) <==> !Overtaken(p, b, mult, a))
      && (q.trend == p.trend ==> Ratcheted(p, q))
  {
  }

  // ---- the ATR --------------------------------------------------------------------------------

  /** The true range is the length of the shortest interval holding the bar and the previous close. */
  lemma TrueRangeIsSpan(cur: Candle, prev: Candle)
    requires cur.low <= cur.high
    ensures TrueRange(cur, prev) == Max(cur.high, prev.close) - Min(cur.low, prev.close)
  {
  }

  lemma RangeNonNegative(cur: Candle, prev: Candle)
    ensures TrueRange(cur, prev) >= 0.0 && TrueRange(cur, prev) >= cur.high - cur.low
    ensures TrueRange(cur, prev) == 0.0 && cur.low <= cur.close <= cur.high ==> cur.close == prev.close
  {
  }

  lemma {:induction false} SumNonNegative(bars: seq<Candle>, n: nat)
    requires n < |bars|
    ensures SumRanges(bars, n) >= 0.0
  {
    if n > 0 {
      SumNonNegative(bars, n - 1);
      RangeNonNegative(bars[n], bars[n - 1]);
    }
  }

  lemma WilderBounds(prev: real, range: real, period: int)
    requires period > 0 && prev >= 0.0 && range >= 0.0
    ensures Wilder(prev, range, period) >= 0.0
    ensures Wilder(prev, range, period) * period as real >= range
    ensures Wilder(prev, range, period) == 0.0 ==> range == 0.0
  {
    var n := period as real;
    assert prev * (period - 1) as real >= 0.0;
  }

  lemma {:induction false} AtrNonNegative(bars: seq<Candle>, period: int, i: nat)
    requires i < |bars| && AtrAt(bars, period, i).Some?
    ensures AtrAt(bars, period, i).value >= 0.0
    decreases i
  {
    hide TrueRange, Wilder;
    if i == period {
      SumNonNegative(bars, period);
    } else {
      AtrNonNegative(bars, period, i - 1);
      RangeNonNegative(bars[i], bars[i - 1]);
      WilderBounds(AtrAt(bars, period, i - 1).value, TrueRange(bars[i], bars[i - 1]), period);
    }
  }

  /** After the first warm bar, a bar without a point is one that did not move the close. */
  lemma ColdBarIsFlat(bars: seq<Candle>, period: int, i: nat)
    requires WellFormed(bars) && period < i < |bars| && period > 0 && !Warm(bars, period, i)
    ensures bars[i].close == bars[i - 1].close
  {
    hide TrueRange, Wilder;
    AtrNonNegative(bars, period, i - 1);
    AtrNonNegative(bars, period, i);
    RangeNonNegative(bars[i], bars[i - 1]);
    WilderBounds(AtrAt(bars, period, i - 1).value, TrueRange(bars[i], bars[i - 1]), period);
  }

  lemma {:induction false} StartedAfterPeriod(bars: seq<Candle>, period: int, mult: real, i: nat)
    requires i < |bars| && LastPoint(bars, period, mult, i).Some?
    ensures 0 < period <= i
  {
    hide AtrAt;
    if !Warm(bars, period, i) {
      StartedAfterPeriod(bars, period, mult, i - 1);
    } else {
      WarmAfterPeriod(bars, period, i);
    }
  }

  lemma WarmAfterPeriod(bars: seq<Candle>, period: int, i: nat)
    requires i < |bars| && Warm(bars, period, i)
    ensures 0 < period <= i
  {
  }

  /** Every true range up to bar `i` is within the bounds. */
  predicate RangesWithin(bars: seq<Candle>, i: nat, lo: real, hi: real)
    requires i < |bars|
  {
    forall k :: 0 < k <= i ==> lo <= TrueRange(bars[k], bars[k - 1]) <= hi
  }

  lemma {:induction false} SumWithin(bars: seq<Candle>, n: nat, lo: real, hi: real)
    requires n < |bars| && RangesWithin(bars, n, lo, hi)
    ensures lo * n as real <= SumRanges(bars, n) <= hi * n as real
  {
    hide TrueRange;
    if n > 0 {
      SumWithin(bars, n - 1, lo, hi);
      OneMoreTime(lo, n);
      OneMoreTime(hi, n);
    }
  }

  lemma OneMoreTime(x: real, n: nat)
    requires n > 0
    ensures x * n as real == x * (n - 1) as real + x
  {
    MulSplit((n - 1) as real, 1.0, x);
    assert (n - 1) as real + 1.0 == n as real;
  }

  lemma WilderWithin(prev: real, range: real, period: int, lo: real, hi: real)
    requires period > 0 && lo <= prev <= hi && lo <= range <= hi
    ensures lo <= Wilder(prev, range, period) <= hi
  {
    var n := (period - 1) as real;
    MulLessEq(lo, prev, n);
    MulLessEq(prev, hi, n);
    OneMoreTime(lo, period);
    OneMoreTime(hi, period);
    RatioBetween(lo, hi, prev * n + range, period as real);
  }

  /** The ATR is an average: it lies within any bounds on the true ranges it is made of, so equal
      ranges give that range, for every period. */
  lemma {:induction false} AtrWithin(bars: seq<Candle>, period: int, i: nat, lo: real, hi: real)
    requires 0 < period <= i < |bars| && RangesWithin(bars, i, lo, hi)
    ensures AtrAt(bars, period, i).Some? && lo <= AtrAt(bars, period, i).value <= hi
    decreases i
  {
    hide TrueRange, Wilder;
    if i == period {
      SumWithin(bars, period, lo, hi);
      RatioBetween(lo, hi, SumRanges(bars, period), period as real);
    } else {
      AtrWithin(bars, period, i - 1, lo, hi);
      WilderWithin(AtrAt(bars, period, i - 1).value, TrueRange(bars[i], bars[i - 1]), period, lo, hi);
    }
  }

  /** The first average is the plain mean of the ranges before it: times the period it is their sum. */
  lemma SeedIsMean(bars: seq<Candle>, period: int)
    requires 0 < period < |bars|
    ensures AtrAt(bars, period, period).value * period as real == SumRanges(bars, period)
  {
    hide SumRanges;
  }

  // ---- whole windows --------------------------------------------------------------------------

  /** Bar `i` continues a SuperTrend that already started. */
  predicate Live(bars: seq<Candle>, period: int, mult: real, i: nat)
    requires i < |bars|
  {
    i > 0 && Warm(bars, period, i) && LastPoint(bars, period, mult, i - 1).Some?
  }

  predicate SideKept(bars: seq<Candle>, period: int, mult: real, i: nat)
    requires i < |bars|
  {
    LastPoint(bars, period, mult, i).Some? ==> OnSide(LastPoint(bars, period, mult, i).value, bars[i].close)
  }

  predicate NotSqueezed(bars: seq<Candle>, period: int, mult: real, i: nat)
    requires i < |bars|
  {
    Live(bars, period, mult, i) ==>
      !Squeezed(LastPoint(bars, period, mult, i - 1).value, bars[i - 1].close, bars[i], mult,
                AtrAt(bars, period, i).value)
  }

  lemma OneBarSideIff(bars: seq<Candle>, period: int, mult: real, i: nat)
    requires WellFormed(bars) && mult >= 0.0 && i < |bars|
    requires i > 0 ==> SideKept(bars, period, mult, i - 1)
    ensures SideKept(bars, period, mult, i) <==> NotSqueezed(bars, period, mult, i)
  {
    hide AtrAt, First, Next, Squeezed;
    if Warm(bars, period, i) {
      var a := AtrAt(bars, period, i).value;
      if Live(bars, period, mult, i) {
        NextOnSideIff(LastPoint(bars, period, mult, i - 1).value, bars[i - 1].close, bars[i], mult, a);
      } else {
        FirstOnSide(bars[i], mult, a);
      }
    } else if LastPoint(bars, period, mult, i).Some? {
      StartedAfterPeriod(bars, period, mult, i - 1);
      ColdBarIsFlat(bars, period, i);
    }
  }

  /** Exactly when the SuperTrend is on the right side throughout: no live bar closes strictly inside
      crossed bands. */
  lemma {:induction false} SideKeptIff(bars: seq<Candle>, period: int, mult: real, n: nat)
    requires WellFormed(bars) && mult >= 0.0 && n <= |bars|
    ensures (forall i :: 0 <= i < n ==> SideKept(bars, period, mult, i)) <==>
      (forall i :: 0 <= i < n ==> NotSqueezed(bars, period, mult, i))
  {
    hide SideKept, NotSqueezed;
    if n > 0 {
      SideKeptIff(bars, period, mult, n - 1);
      if forall i :: 0 <= i < n - 1 ==> SideKept(bars, period, mult, i) {
        OneBarSideIff(bars, period, mult, n - 1);
      }
    }
  }

  /** At a live bar the trend flips exactly on crossing the line drawn before, and else the line ratchets. */
  predicate FlipsOnCross(bars: seq<Candle>, period: int, mult: real, i: nat)
    requires i < |bars|
  {
    Live(bars, period, mult, i) ==>
      var p, q := LastPoint(bars, period, mult, i - 1).value, LastPoint(bars, period, mult, i).value;
      && (q.trend != p.trend <==> Beyond(p, bars[i].close))
      && (q.trend == p.trend ==> Ratcheted(p, q))
  }

  predicate NotOvertaken(bars: seq<Candle>, period: int, mult: real, i: nat)
    requires i < |bars|
  {
    Live(bars, period, mult, i) ==>
      !Overtaken(LastPoint(bars, period, mult, i - 1).value, bars[i], mult, AtrAt(bars, period, i).value)
  }

  lemma {:induction false} ValueIsActive(bars: seq<Candle>, period: int, mult: real, i: nat)
    requires i < |bars|
    ensures LastPoint(bars, period, mult, i).Some? ==>
      var p := LastPoint(bars, period, mult, i).value; p.value == Active(p.trend, p.upper, p.lower)
  {
    hide AtrAt;
    if i > 0 {
      ValueIsActive(bars, period, mult, i - 1);
    }
  }

  lemma OneBarFlipsIff(bars: seq<Candle>, period: int, mult: real, i: nat)
    requires i < |bars| && (i > 0 ==> SideKept(bars, period, mult, i - 1))
    ensures FlipsOnCross(bars, period, mult, i) <==> NotOvertaken(bars, period, mult, i)
  {
    hide AtrAt, Next, Overtaken;
    if Live(bars, period, mult, i) {
      ValueIsActive(bars, period, mult, i - 1);
      NextFlipsIff(LastPoint(bars, period, mult, i - 1).value, bars[i - 1].close, bars[i], mult,
                   AtrAt(bars, period, i).value);
    }
  }

  /** Exactly when the whole advertised ratchet holds, whatever the bars: every close on the trend's
      side, every flip a crossing of the drawn line and no other move against the trend, if and only if
      no live bar closes inside crossed bands or is overtaken by a new basic band. */
  lemma RatchetIff(bars: seq<Candle>, period: int, mult: real, n: nat)
    requires WellFormed(bars) && mult >= 0.0 && n <= |bars|
    ensures (forall i :: 0 <= i < n ==> SideKept(bars, period, mult, i) && FlipsOnCross(bars, period, mult, i)) <==>
      (forall i :: 0 <= i < n ==> NotSqueezed(bars, period, mult, i) && NotOvertaken(bars, period, mult, i))
  {
    hide SideKept, FlipsOnCross, NotSqueezed, NotOvertaken, WellFormed;
    SideKeptIff(bars, period, mult, n);
    if forall i :: 0 <= i < n ==> SideKept(bars, period, mult, i) {
      forall i | 0 <= i < n ensures FlipsOnCross(bars, period, mult, i) <==> NotOvertaken(bars, period, mult, i) {
        OneBarFlipsIff(bars, period, mult, i);
      }
    }
  }

  predicate AllCalm(bars: seq<Candle>, period: int, mult: real) {
    forall i :: 0 <= i < |bars| && Live(bars, period, mult, i) ==> Calm(bars[i], mult, AtrAt(bars, period, i).value)
  }

  lemma {:induction false} CalmKeepsSide(bars: seq<Candle>, period: int, mult: real, i: nat)
    requires WellFormed(bars) && mult >= 0.0 && AllCalm(bars, period, mult) && i < |bars|
    ensures SideKept(bars, period, mult, i)
    ensures LastPoint(bars, period, mult, i).Some? ==>
      var p := LastPoint(bars, period, mult, i).value; p.value == Active(p.trend, p.upper, p.lower)
    decreases i
  {
    hide AtrAt;
    if i > 0 {
      CalmKeepsSide(bars, period, mult, i - 1);
    }
    OneBarSideIff(bars, period, mult, i);
    if Live(bars, period, mult, i) {
      CalmRatchets(LastPoint(bars, period, mult, i - 1).value, bars[i - 1].close, bars[i], mult,
                   AtrAt(bars, period, i).value);
    }
  }

  /** The ratchet: when no live bar is wider than its own basic bands, every close is on the trend's
      side, the trend flips exactly when the close crosses the line drawn before, and between flips
      the line moves only in the trend's favour. */
  lemma SuperTrendRatchet(bars: seq<Candle>, period: int, mult: real, i: nat)
    requires WellFormed(bars) && mult >= 0.0 && AllCalm(bars, period, mult) && i < |bars|
    ensures PointAt(bars, period, mult, i).Some? ==> OnSide(PointAt(bars, period, mult, i).value, bars[i].close)
    ensures Live(bars, period, mult, i) ==>
      var p, q := LastPoint(bars, period, mult, i - 1).value, PointAt(bars, period, mult, i).value;
      && (q.trend != p.trend <==> Beyond(p, bars[i].close))
      && (q.trend == p.trend ==> Ratcheted(p, q))
  {
    hide AtrAt;
    CalmKeepsSide(bars, period, mult, i);
    if Live(bars, period, mult, i) {
      CalmKeepsSide(bars, period, mult, i - 1);
      CalmRatchets(LastPoint(bars, period, mult, i - 1).value, bars[i - 1].close, bars[i], mult,
                   AtrAt(bars, period, i).value);
    }
  }

  /** Calm is automatic for a multiplier of at least half the period. */
  lemma WideMultiplierIsCalm(bars: seq<Candle>, period: int, mult: real)
    requires period > 0 && 2.0 * mult >= period as real
    ensures AllCalm(bars, period, mult)
  {
    hide AtrAt, TrueRange, Wilder;
    forall i | 0 <= i < |bars| && Live(bars, period, mult, i)
      ensures Calm(bars[i], mult, AtrAt(bars, period, i).value)
    {
      StartedAfterPeriod(bars, period, mult, i - 1);
      AtrNonNegative(bars, period, i);
      AtrCoversRange(bars, period, i);
      RangeNonNegative(bars[i], bars[i - 1]);
    }
  }

  lemma AtrCoversRange(bars: seq<Candle>, period: int, i: nat)
    requires 0 < period < i < |bars|
    ensures AtrAt(bars, period, i).value * period as real >= TrueRange(bars[i], bars[i - 1])
  {
    hide TrueRange, Wilder;
    AtrNonNegative(bars, period, i - 1);
    RangeNonNegative(bars[i], bars[i - 1]);
    WilderBounds(AtrAt(bars, period, i - 1).value, TrueRange(bars[i], bars[i - 1]), period);
  }

  /** A bar is calm when its true range is within what the ATR before it allows; this can be checked
      before the bar's own ATR is known. */
  lemma BoundedRangeIsCalm(bars: seq<Candle>, period: int, mult: real, i: nat)
    requires 0 < period < i < |bars| && mult >= 0.0
    requires var range, prev := TrueRange(bars[i], bars[i - 1]), AtrAt(bars, period, i - 1).value;
      range * (period as real - 2.0 * mult) <= 2.0 * mult * (period - 1) as real * prev
    ensures Calm(bars[i], mult, AtrAt(bars, period, i).value)
  {
    hide TrueRange, Wilder;
    var range, prev := TrueRange(bars[i], bars[i - 1]), AtrAt(bars, period, i - 1).value;
    var a := AtrAt(bars, period, i).value;
    RangeNonNegative(bars[i], bars[i - 1]);
    AtrStep(bars, period, i);
    assert 2.0 * mult * (period - 1) as real * prev == 2.0 * mult * (prev * (period - 1) as real);
    assert 2.0 * mult * (a * period as real) == 2.0 * mult * (prev * (period - 1) as real) + 2.0 * mult * range;
    assert range * (period as real - 2.0 * mult) == range * period as real - 2.0 * mult * range;
    assert 2.0 * mult * (a * period as real) == 2.0 * (mult * a) * period as real;
    if 2.0 * (mult * a) < range {
      MulStrict(2.0 * (mult * a), range, period as real);
    }
  }

  lemma AtrStep(bars: seq<Candle>, period: int, i: nat)
    requires 0 < period < i < |bars|
    ensures AtrAt(bars, period, i).value * period as real
         == AtrAt(bars, period, i - 1).value * (period - 1) as real + TrueRange(bars[i], bars[i - 1])
  {
    hide TrueRange;
  }

  lemma MulStrict(x: real, y: real, n: real)
    requires x < y && n > 0.0
    ensures x * n < y * n
  {
  }

  /** Without calm bars the ratchet does fail: a wide bar gaps up over a falling line and closes on
      its low, so the trend turns up with the close under its own line. */
  lemma GapSqueezes()
    ensures var bars := [Candle(100.0, 100.0, 100.0), Candle(110.0, 100.0, 101.0), Candle(140.0, 120.0, 120.0)];
      WellFormed(bars) && !SideKept(bars, 1, 0.1, 2)
  {
    var bars := [Candle(100.0, 100.0, 100.0), Candle(110.0, 100.0, 101.0), Candle(140.0, 120.0, 120.0)];
    assert SumRanges(bars, 0) == 0.0;
    assert AtrAt(bars, 1, 0) == None && AtrAt(bars, 1, 1) == Some(10.0);
    assert AtrAt(bars, 1, 2) == Some(39.0);
    assert LastPoint(bars, 1, 0.1, 0) == None;
    assert LastPoint(bars, 1, 0.1, 1) == Some(First(bars[1], 0.1, 10.0));
    var p := LastPoint(bars, 1, 0.1, 1).value;
    assert p.trend.Down? && p.upper == 106.0 && p.lower == 104.0;
    assert LastPoint(bars, 1, 0.1, 2) == Some(Next(p, 101.0, bars[2], 0.1, 39.0));
  }

  /** A wide bar that gaps up over a rising line and closes on its low pulls that line past its close:
      the trend turns down though nothing was crossed. */
  lemma GapOvertakes()
    ensures var bars := [Candle(100.0, 100.0, 100.0), Candle(110.0, 100.0, 109.0), Candle(140.0, 120.0, 120.0)];
      WellFormed(bars) && SideKept(bars, 1, 0.1, 2) && !FlipsOnCross(bars, 1, 0.1, 2)
  {
    var bars := [Candle(100.0, 100.0, 100.0), Candle(110.0, 100.0, 109.0), Candle(140.0, 120.0, 120.0)];
    assert SumRanges(bars, 0) == 0.0;
    assert AtrAt(bars, 1, 0) == None && AtrAt(bars, 1, 1) == Some(10.0);
    assert AtrAt(bars, 1, 2) == Some(31.0);
    assert LastPoint(bars, 1, 0.1, 0) == None;
    assert LastPoint(bars, 1, 0.1, 1) == Some(First(bars[1], 0.1, 10.0));
    var p := LastPoint(bars, 1, 0.1, 1).value;
    assert p.trend.Up? && p.upper == 106.0 && p.lower == 104.0;
    assert LastPoint(bars, 1, 0.1, 2) == Some(Next(p, 109.0, bars[2], 0.1, 31.0));
  }

  // ---- causality ------------------------------------------------------------------------------

  lemma {:induction false} SumOfPrefix(bars: seq<Candle>, k: nat, n: nat)
    requires n < k <= |bars|
    ensures SumRanges(bars[..k], n) == SumRanges(bars, n)
  {
    hide TrueRange;
    if n > 0 {
      SumOfPrefix(bars, k, n - 1);
    }
  }

  lemma {:induction false} AtrOfPrefix(bars: seq<Candle>, period: int, k: nat, i: nat)
    requires i < k <= |bars|
    ensures AtrAt(bars[..k], period, i) == AtrAt(bars, period, i)
    decreases i
  {
    hide TrueRange, Wilder, Mean;
    if 0 < period < i {
      AtrOfPrefix(bars, period, k, i - 1);
    } else if 0 < period == i {
      SumOfPrefix(bars, k, period);
    }
  }

  lemma {:induction false} LastPointOfPrefix(bars: seq<Candle>, period: int, mult: real, k: nat, i: nat)
    requires i < k <= |bars|
    ensures LastPoint(bars[..k], period, mult, i) == LastPoint(bars, period, mult, i)
    decreases i
  {
    hide AtrAt, First, Next;
    AtrOfPrefix(bars, period, k, i);
    if i > 0 {
      LastPointOfPrefix(bars, period, mult, k, i - 1);
    }
  }

  /** No look-ahead: a window cut short has the same ATR and the same SuperTrend on what is left. */
  lemma NoLookAhead(bars: seq<Candle>, period: int, mult: real, k: nat, i: nat)
    requires i < k <= |bars|
    ensures AtrAt(bars[..k], period, i) == AtrAt(bars, period, i)
    ensures PointAt(bars[..k], period, mult, i) == PointAt(bars, period, mult, i)
  {
    hide AtrAt, LastPoint;
    AtrOfPrefix(bars, period, k, i);
    LastPointOfPrefix(bars, period, mult, k, i);
  }

  // ---- equivariance ---------------------------------------------------------------------------

  function Scale(s: real, x: real): real { s * x }

  /** Prices rescaled by `s` and then shifted by `c`. */
  function Moved(b: Candle, s: real, c: real): Candle {
    Candle(Scale(s, b.high) + c, Scale(s, b.low) + c, Scale(s, b.close) + c)
  }

  function MovedAll(bars: seq<Candle>, s: real, c: real): (r: seq<Candle>)
    ensures |r| == |bars| && forall i :: 0 <= i < |bars| ==> r[i] == Moved(bars[i], s, c)
  {
    seq(|bars|, i requires 0 <= i < |bars| => Moved(bars[i], s, c))
  }

  function MovedPoint(p: Point, s: real, c: real): Point {
    Point(p.trend, Scale(s, p.upper) + c, Scale(s, p.lower) + c, Scale(s, p.value) + c)
  }

  lemma ScaleOrder(s: real, x: real, y: real)
    requires s > 0.0
    ensures x < y <==> Scale(s, x) < Scale(s, y)
    ensures Scale(s, x - y) == Scale(s, x) - Scale(s, y)
    ensures Scale(s, x + y) == Scale(s, x) + Scale(s, y)
  {
    assert Scale(s, x) == x * s && Scale(s, y) == y * s;
    if x < y {
      MulLess(x, y, s);
    } else {
      MulLessEq(y, x, s);
    }
    assert (x - y) * s == x * s - y * s && (x + y) * s == x * s + y * s;
    assert Scale(s, x - y) == (x - y) * s && Scale(s, x + y) == (x + y) * s;
  }

  lemma AbsScales(s: real, x: real)
    requires s > 0.0
    ensures Abs(Scale(s, x)) == Scale(s, Abs(x))
  {
    ScaleOrder(s, x, 0.0);
    assert s * (-x) == -(s * x);
  }

  lemma MaxScales(s: real, x: real, y: real)
    requires s > 0.0
    ensures Max(Scale(s, x), Scale(s, y)) == Scale(s, Max(x, y))
  {
    ScaleOrder(s, x, y);
  }

  lemma RangeMoves(cur: Candle, prev: Candle, s: real, c: real)
    requires s > 0.0
    ensures TrueRange(Moved(cur, s, c), Moved(prev, s, c)) == Scale(s, TrueRange(cur, prev))
  {
    hide Scale, Max, Abs;
    ScaleOrder(s, cur.high, cur.low);
    ScaleOrder(s, cur.high, prev.close);
    ScaleOrder(s, cur.low, prev.close);
    AbsScales(s, cur.high - prev.close);
    AbsScales(s, cur.low - prev.close);
    MaxScales(s, Abs(cur.high - prev.close), Abs(cur.low - prev.close));
    MaxScales(s, cur.high - cur.low, Max(Abs(cur.high - prev.close), Abs(cur.low - prev.close)));
  }

  lemma {:induction false} SumMoves(bars: seq<Candle>, s: real, c: real, n: nat)
    requires s > 0.0 && n < |bars|
    ensures SumRanges(MovedAll(bars, s, c), n) == Scale(s, SumRanges(bars, n))
  {
    hide TrueRange, Scale;
    ScaleOrder(s, 0.0, 0.0);
    if n > 0 {
      SumMoves(bars, s, c, n - 1);
      RangeMoves(bars[n], bars[n - 1], s, c);
      ScaleOrder(s, SumRanges(bars, n - 1), TrueRange(bars[n], bars[n - 1]));
    }
  }

  lemma MeanMoves(sum: real, s: real, period: int)
    requires period > 0
    ensures Mean(Scale(s, sum), period) == Scale(s, Mean(sum, period))
  {
  }

  lemma WilderMoves(prev: real, range: real, s: real, period: int)
    requires period > 0
    ensures Wilder(Scale(s, prev), Scale(s, range), period) == Scale(s, Wilder(prev, range, period))
  {
    var n := (period - 1) as real;
    assert s * prev * n + s * range == s * (prev * n + range);
    MeanMoves(prev * n + range, s, period);
  }

  lemma {:induction false} AtrMoves(bars: seq<Candle>, period: int, s: real, c: real, i: nat)
    requires s > 0.0 && i < |bars|
    ensures AtrAt(MovedAll(bars, s, c), period, i) ==
      if AtrAt(bars, period, i).None? then None else Some(Scale(s, AtrAt(bars, period, i).value))
    decreases i
  {
    hide TrueRange, Wilder, Mean, Scale;
    if 0 < period < i {
      AtrMoves(bars, period, s, c, i - 1);
      RangeMoves(bars[i], bars[i - 1], s, c);
      WilderMoves(AtrAt(bars, period, i - 1).value, TrueRange(bars[i], bars[i - 1]), s, period);
    } else if 0 < period == i {
      SumMoves(bars, s, c, period);
      MeanMoves(SumRanges(bars, period), s, period);
    }
  }

  lemma BandsMove(b: Candle, mult: real, a: real, s: real, c: real)
    requires s > 0.0
    ensures BasicUpper(Moved(b, s, c), mult, Scale(s, a)) == Scale(s, BasicUpper(b, mult, a)) + c
    ensures BasicLower(Moved(b, s, c), mult, Scale(s, a)) == Scale(s, BasicLower(b, mult, a)) + c
    ensures (Moved(b, s, c).high + Moved(b, s, c).low) / 2.0 == Scale(s, (b.high + b.low) / 2.0) + c
  {
    var half := (b.high + b.low) / 2.0;
    assert mult * (s * a) == s * (mult * a);
    ScaleOrder(s, half, mult * a);
    ScaleOrder(s, half, half);
    assert half + half == b.high + b.low;
    ScaleOrder(s, b.high, b.low);
  }

  lemma FirstMoves(b: Candle, mult: real, a: real, s: real, c: real)
    requires s > 0.0
    ensures First(Moved(b, s, c), mult, Scale(s, a)) == MovedPoint(First(b, mult, a), s, c)
  {
    hide BasicUpper, BasicLower, Scale;
    BandsMove(b, mult, a, s, c);
    ScaleOrder(s, b.close, (b.high + b.low) / 2.0);
  }

  lemma NextMoves(p: Point, prevClose: real, b: Candle, mult: real, a: real, s: real, c: real)
    requires s > 0.0
    ensures Next(MovedPoint(p, s, c), Scale(s, prevClose) + c, Moved(b, s, c), mult, Scale(s, a))
         == MovedPoint(Next(p, prevClose, b, mult, a), s, c)
  {
    hide BasicUpper, BasicLower, Scale;
    BandsMove(b, mult, a, s, c);
    var q := Next(p, prevClose, b, mult, a);
    ScaleOrder(s, BasicUpper(b, mult, a), p.upper);
    ScaleOrder(s, p.upper, prevClose);
    ScaleOrder(s, p.lower, BasicLower(b, mult, a));
    ScaleOrder(s, prevClose, p.lower);
    ScaleOrder(s, b.close, q.lower);
    ScaleOrder(s, q.upper, b.close);
  }

  /** Rescaling and shifting every price moves the bands with it and keeps every trend. */
  lemma {:induction false} PointsMove(bars: seq<Candle>, period: int, mult: real, s: real, c: real, i: nat)
    requires s > 0.0 && i < |bars|
    ensures var p := LastPoint(bars, period, mult, i);
      LastPoint(MovedAll(bars, s, c), period, mult, i) == if p.None? then None else Some(MovedPoint(p.value, s, c))
    ensures PointAt(MovedAll(bars, s, c), period, mult, i).Some? <==> PointAt(bars, period, mult, i).Some?
    decreases i
  {
    hide AtrAt, First, Next, Scale;
    AtrMoves(bars, period, s, c, i);
    ScaleOrder(s, 0.0, 0.0);
    if AtrAt(bars, period, i).Some? {
      ScaleOrder(s, 0.0, AtrAt(bars, period, i).value);
    }
    if i > 0 {
      PointsMove(bars, period, mult, s, c, i - 1);
    }
    if Warm(bars, period, i) {
      var a := AtrAt(bars, period, i).value;
      if i > 0 && LastPoint(bars, period, mult, i - 1).Some? {
        NextMoves(LastPoint(bars, period, mult, i - 1).value, bars[i - 1].close, bars[i], mult, a, s, c);
      } else {
        FirstMoves(bars[i], mult, a, s, c);
      }
    }
  }
}
