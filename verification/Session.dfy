/** Session clock: UTC epoch seconds to IST days, session hours and session-anchored buckets.
    IST is a fixed offset without daylight saving, and every boundary is a whole second, so a
    timestamp is an `int` number of seconds. */
module Session {
  import opened Wrappers

  const IST_OFFSET := 19800
  const DAY_SECONDS := 86400

  datatype Segment = NSE_EQ | NSE_FO | NSE_IDX | MCX_FO

  datatype Timeframe = M1 | M2 | M3 | M5 | M15 | M30 | M60 | D1

  /** Seconds after IST midnight at which the segment opens: 09:15, and 09:00 for commodities. */
  function OpenOffset(seg: Segment): int { if seg.MCX_FO? then 32400 else 33300 }

  /** Seconds after IST midnight at which the segment closes: 15:30, and 23:30 for commodities. */
  function CloseOffset(seg: Segment): int { if seg.MCX_FO? then 84600 else 55800 }

  function IstDay(ts: int): int { (ts + IST_OFFSET) / DAY_SECONDS }

  function SessionOpen(seg: Segment, day: int): int {
    day * DAY_SECONDS - IST_OFFSET + OpenOffset(seg)
  }

  function SessionClose(seg: Segment, day: int): int {
    day * DAY_SECONDS - IST_OFFSET + CloseOffset(seg)
  }

  predicate InSession(seg: Segment, ts: int) {
    SessionOpen(seg, IstDay(ts)) <= ts < SessionClose(seg, IstDay(ts))
  }

  function StepSeconds(tf: Timeframe): int
    requires !tf.D1?
  {
    match tf
    case M1 => 60
    case M2 => 120
    case M3 => 180
    case M5 => 300
    case M15 => 900
    case M30 => 1800
    case M60 => 3600
  }

  /** The start of the step-sized cell that `x` falls in, counting from zero. */
  function Cell(x: int, step: int): int
    requires 0 < step
  {
    x / step * step
  }

  function BucketStart(seg: Segment, ts: int, tf: Timeframe): int {
    var open := SessionOpen(seg, IstDay(ts));
    if tf.D1? || ts < open then open else open + Cell(ts - open, StepSeconds(tf))
  }

  function BucketEnd(seg: Segment, bucket: int, tf: Timeframe): int {
    var close := SessionClose(seg, IstDay(bucket));
    if tf.D1? then close else MinInt(bucket + StepSeconds(tf), close)
  }

  /** The fine timeframe's grid refines the coarse one's. */
  predicate Refines(fine: Timeframe, coarse: Timeframe) {
    coarse.D1? || (!fine.D1? && StepSeconds(coarse) % StepSeconds(fine) == 0)
  }

  /** An IST day is the 86400 seconds from 18:30 UTC of the day before. */
  lemma IstDayIff(ts: int, day: int)
    ensures IstDay(ts) == day <==> day * 86400 - 19800 <= ts < day * 86400 - 19800 + 86400
  {
  }

  /** The hours: 09:15 up to 15:30 IST on the stock exchange, 09:00 up to 23:30 for commodities. */
  lemma InSessionIff(seg: Segment, ts: int)
    ensures InSession(seg, ts) <==>
      var second := (ts + 19800) % 86400;
      if seg.MCX_FO? then 9 * 3600 <= second < 23 * 3600 + 1800
      else 9 * 3600 + 900 <= second < 15 * 3600 + 1800
  {
  }

  /** The minutes a timeframe is named for. */
  function MinutesOf(tf: Timeframe): int
    requires !tf.D1?
  {
    match tf
    case M1 => 1 case M2 => 2 case M3 => 3 case M5 => 5 case M15 => 15 case M30 => 30 case M60 => 60
  }

  /** In session a bucket starts so many whole steps after the open and holds the tick for one step. */
  lemma BucketOnGrid(seg: Segment, ts: int, tf: Timeframe)
    requires InSession(seg, ts)
    ensures var open := ts - (ts + 19800) % 86400 + (if seg.MCX_FO? then 9 * 3600 else 9 * 3600 + 900);
      var b := BucketStart(seg, ts, tf);
      if tf.D1? then b == open
      else b <= ts < b + 60 * MinutesOf(tf) && open <= b && (b - open) % (60 * MinutesOf(tf)) == 0
  {
    var open := SessionOpen(seg, IstDay(ts));
    assert open == ts - (ts + 19800) % 86400 + OpenOffset(seg);
    if !tf.D1? {
      assert StepSeconds(tf) == 60 * MinutesOf(tf);
      GridCell(ts - open, StepSeconds(tf));
    }
  }

  lemma GridCell(x: int, step: int)
    requires 0 <= x && 0 < step
    ensures 0 <= Cell(x, step) <= x < Cell(x, step) + step && Cell(x, step) % step == 0
  {
    CellSpan(x, step);
    DivUnique(Cell(x, step), step, x / step, 0);
  }

  // ---- arithmetic of cells --------------------------------------------------------------------

  lemma MulSteps(d: int, step: int)
    requires 0 < step
    ensures 1 <= d ==> step <= d * step
    ensures d <= -1 ==> d * step <= -step
  {
    if 1 <= d {
      assert d * step == step + (d - 1) * step;
    }
    if d <= -1 {
      assert d * step == -step + (d + 1) * step;
    }
  }

  lemma DivMod(x: int, d: int)
    requires 0 < d
    ensures x == x / d * d + x % d && 0 <= x % d < d
    ensures 0 <= x ==> 0 <= x / d
  {
  }

  lemma DivUnique(y: int, step: int, q: int, r: int)
    requires 0 < step && y == q * step + r && 0 <= r < step
    ensures y / step == q
  {
    MulSteps(y / step - q, step);
  }

  lemma CellSpan(x: int, step: int)
    requires 0 < step
    ensures Cell(x, step) <= x < Cell(x, step) + step
    ensures 0 <= x ==> 0 <= Cell(x, step)
  {
  }

  lemma CellIs(x: int, step: int, q: int, rest: int)
    requires 0 < step && x == q * step + rest && 0 <= rest < step
    ensures Cell(x, step) == q * step
  {
    DivUnique(x, step, q, rest);
  }

  lemma CellUnique(x: int, y: int, step: int)
    requires 0 < step && Cell(x, step) <= y < Cell(x, step) + step
    ensures Cell(y, step) == Cell(x, step)
  {
    CellIs(y, step, x / step, y - Cell(x, step));
  }

  lemma SplitCell(q: int, s: int, step: int, k: int)
    ensures (q * k + s) * step == q * (k * step) + s * step
  {
  }

  /** Cells of a multiple nest: same coarse cell before and after rounding down, and the fine cell
      ends inside it. */
  lemma CellNested(x: int, step: int, k: int)
    requires 0 < step && 0 < k && 0 < k * step
    ensures Cell(Cell(x, step), k * step) == Cell(x, k * step) <= Cell(x, step)
    ensures Cell(x, step) + step <= Cell(x, k * step) + k * step
  {
    hide Cell;
    DivMod(x, k * step);
    var r := x % (k * step);
    DivMod(r, step);
    CellNestedParts(x / (k * step), r / step, r % step, step, k);
  }

  lemma CellNestedParts(q: int, s: int, rest: int, step: int, k: int)
    requires 0 < step && 0 < k && 0 < k * step
    requires 0 <= s && 0 <= rest < step && s * step + rest < k * step
    ensures var x := q * (k * step) + (s * step + rest);
      && Cell(Cell(x, step), k * step) == Cell(x, k * step) <= Cell(x, step)
      && Cell(x, step) + step <= Cell(x, k * step) + k * step
  {
    hide Cell;
    var big := k * step;
    var x := q * big + (s * step + rest);
    SplitCell(q, s, step, k);
    CellIs(x, step, q * k + s, rest);
    MulSteps(k - s, step);
    assert (k - s) * step == big - s * step;
    MulSteps(s + 1, step);
    assert (s + 1) * step == s * step + step;
    CellIs(x, big, q, s * step + rest);
    CellIs(q * big + s * step, big, q, s * step);
  }

  // ---- buckets --------------------------------------------------------------------------------

  lemma DayOfSession(seg: Segment, day: int, ts: int)
    requires SessionOpen(seg, day) <= ts < SessionClose(seg, day)
    ensures IstDay(ts) == day && InSession(seg, ts)
  {
  }

  lemma BucketSpan(seg: Segment, ts: int, tf: Timeframe)
    requires InSession(seg, ts)
    ensures var b := BucketStart(seg, ts, tf);
      b <= ts < BucketEnd(seg, b, tf) && InSession(seg, b) && IstDay(b) == IstDay(ts)
  {
    hide Cell, IstDay, SessionOpen, SessionClose;
    var b := BucketStart(seg, ts, tf);
    if !tf.D1? {
      CellSpan(ts - SessionOpen(seg, IstDay(ts)), StepSeconds(tf));
    }
    DayOfSession(seg, IstDay(ts), b);
  }

  /** A bucket holds exactly the in-session seconds between its start and its end, clipped last
      bucket included. */
  lemma BucketHolds(seg: Segment, ts: int, tf: Timeframe, other: int)
    requires InSession(seg, ts) && InSession(seg, other)
    ensures var b := BucketStart(seg, ts, tf);
      BucketStart(seg, other, tf) == b <==> b <= other < BucketEnd(seg, b, tf)
  {
    hide Cell, IstDay, SessionOpen, SessionClose;
    BucketSpan(seg, ts, tf);
    BucketSpan(seg, other, tf);
    var b := BucketStart(seg, ts, tf);
    if b <= other < BucketEnd(seg, b, tf) {
      DayOfSession(seg, IstDay(ts), other);
      if !tf.D1? {
        var open := SessionOpen(seg, IstDay(ts));
        CellUnique(ts - open, other - open, StepSeconds(tf));
      }
    }
  }

  /** Later in-session ticks never fall in an earlier bucket, and a tick at or past a bucket's end
      falls in a later one. */
  lemma BucketMonotone(seg: Segment, ts: int, later: int, tf: Timeframe)
    requires InSession(seg, ts) && InSession(seg, later) && ts <= later
    ensures BucketStart(seg, ts, tf) <= BucketStart(seg, later, tf)
    ensures BucketEnd(seg, BucketStart(seg, ts, tf), tf) <= later
      ==> BucketStart(seg, ts, tf) < BucketStart(seg, later, tf)
  {
    hide BucketStart, BucketEnd, InSession;
    BucketSpan(seg, ts, tf);
    BucketSpan(seg, later, tf);
    BucketHolds(seg, ts, tf, later);
    BucketHolds(seg, later, tf, ts);
  }

  lemma BucketIdempotent(seg: Segment, ts: int, tf: Timeframe)
    requires InSession(seg, ts)
    ensures BucketStart(seg, BucketStart(seg, ts, tf), tf) == BucketStart(seg, ts, tf)
  {
    hide BucketStart, BucketEnd, InSession;
    BucketSpan(seg, ts, tf);
    BucketHolds(seg, ts, tf, BucketStart(seg, ts, tf));
  }

  /** Buckets of a refining timeframe nest: the coarse bucket of a tick is the coarse bucket of
      its fine bucket, and the fine bucket ends no later. */
  lemma BucketNested(seg: Segment, ts: int, fine: Timeframe, coarse: Timeframe)
    requires InSession(seg, ts) && Refines(fine, coarse)
    ensures var b := BucketStart(seg, ts, fine);
      && BucketStart(seg, b, coarse) == BucketStart(seg, ts, coarse)
      && BucketStart(seg, ts, coarse) <= b
      && BucketEnd(seg, b, fine) <= BucketEnd(seg, BucketStart(seg, ts, coarse), coarse)
  {
    hide Cell, IstDay, SessionOpen, SessionClose;
    BucketSpan(seg, ts, fine);
    BucketSpan(seg, ts, coarse);
    if !coarse.D1? {
      var k := StepSeconds(coarse) / StepSeconds(fine);
      assert k * StepSeconds(fine) == StepSeconds(coarse);
      CellNested(ts - SessionOpen(seg, IstDay(ts)), StepSeconds(fine), k);
    }
  }
}
