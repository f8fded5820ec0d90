/** Ticks to bars: each timeframe is built straight from the ticks, and closed from two places, the
    next tick and a clock flush. The main results: the bars do not depend on when the clock flushed,
    every bucket is emitted at most once, and a coarse bar is the roll-up of the fine bars in it. */
module Rollup {
  import opened Wrappers
  import opened Session
  import opened Bars

  datatype Event = Tick(p: Print) | Flush(now: int)

  /** One (symbol, timeframe) series: the bars handed to the close callback, the forming bar, and
      the ticks dropped as late. */
  datatype Line = Line(emitted: seq<Bar>, forming: Option<Bar>, late: seq<Print>)

  const EMPTY_LINE := Line([], None, [])

  function CloseForming(l: Line): Line {
    if l.forming.None? then l else l.(emitted := l.emitted + [Completed(l.forming.value)], forming := None)
  }

  function OnTick(feed: Feed, tf: Timeframe, l: Line, p: Print): Line {
    var bucket := BucketStart(feed.segment, p.ts, tf);
    if l.forming.Some? && bucket < l.forming.value.ts then l.(late := l.late + [p])
    else if l.forming.Some? && bucket == l.forming.value.ts then
      l.(forming := Some(Absorb(l.forming.value, p)))
    else CloseForming(l).(forming := Some(FirstBar(feed, tf, p)))
  }

  function OnFlush(feed: Feed, tf: Timeframe, l: Line, now: int): Line {
    if l.forming.Some? && BucketEnd(feed.segment, l.forming.value.ts, tf) <= now then CloseForming(l) else l
  }

  function Step(feed: Feed, tf: Timeframe, l: Line, e: Event): Line {
    match e
    case Tick(p) => OnTick(feed, tf, l, p)
    case Flush(now) => OnFlush(feed, tf, l, now)
  }

  function Run(feed: Feed, tf: Timeframe, es: seq<Event>): Line {
    if es == [] then EMPTY_LINE else Step(feed, tf, Run(feed, tf, es[..|es| - 1]), es[|es| - 1])
  }

  function Ticks(es: seq<Event>): seq<Print> {
    if es == [] then []
    else
      var rest := Ticks(es[..|es| - 1]);
      if es[|es| - 1].Tick? then rest + [es[|es| - 1].p] else rest
  }

  function Time(e: Event): int { if e.Tick? then e.p.ts else e.now }

  predicate InHours(seg: Segment, es: seq<Event>) {
    forall i :: 0 <= i < |es| && es[i].Tick? ==> InSession(seg, es[i].p.ts) && es[i].p.price > 0.0
  }

  /** No tick is older than an earlier tick or flush. */
  predicate Timely(es: seq<Event>) {
    forall i, j :: 0 <= i < j < |es| && es[j].Tick? ==> Time(es[i]) <= Time(es[j])
  }

  /** The guard the code does not check: nothing forms, and the tick's bucket is not past the last
      closed one. */
  predicate Reopens(feed: Feed, tf: Timeframe, l: Line, e: Event) {
    && e.Tick? && l.forming.None? && l.emitted != []
    && BucketStart(feed.segment, e.p.ts, tf) <= l.emitted[|l.emitted| - 1].ts
  }

  predicate NeverReopens(feed: Feed, tf: Timeframe, es: seq<Event>) {
    forall i :: 0 <= i < |es| ==> !Reopens(feed, tf, Run(feed, tf, es[..i]), es[i])
  }

  /** Nothing was dropped as late and no closed bucket was opened again. Ticks may still be older than
      a clock call or than each other, as the exchange's stamps often are. */
  predicate OnTime(feed: Feed, tf: Timeframe, es: seq<Event>) {
    Run(feed, tf, es).late == [] && NeverReopens(feed, tf, es)
  }

  lemma NeverReopensStep(feed: Feed, tf: Timeframe, es: seq<Event>)
    requires es != []
    ensures var n := |es| - 1;
      NeverReopens(feed, tf, es) <==>
        NeverReopens(feed, tf, es[..n]) && !Reopens(feed, tf, Run(feed, tf, es[..n]), es[n])
  {
    hide Run, Reopens;
    var n := |es| - 1;
    assert forall i :: 0 <= i < n ==> es[..n][..i] == es[..i] && es[..n][i] == es[i];
    if NeverReopens(feed, tf, es) {
      forall i | 0 <= i < n ensures !Reopens(feed, tf, Run(feed, tf, es[..n][..i]), es[..n][i]) {
        assert !Reopens(feed, tf, Run(feed, tf, es[..i]), es[i]);
      }
    } else {
      var i :| 0 <= i < |es| && Reopens(feed, tf, Run(feed, tf, es[..i]), es[i]);
      assert i < n ==> Reopens(feed, tf, Run(feed, tf, es[..n][..i]), es[..n][i]);
    }
  }

  lemma OnTimePrefix(feed: Feed, tf: Timeframe, es: seq<Event>)
    requires es != [] && OnTime(feed, tf, es)
    ensures var n := |es| - 1; var l := Run(feed, tf, es[..n]);
      && OnTime(feed, tf, es[..n]) && !Reopens(feed, tf, l, es[n])
      && (es[n].Tick? && l.forming.Some? ==> l.forming.value.ts <= BucketStart(feed.segment, es[n].p.ts, tf))
  {
    hide BucketStart, BucketEnd, Reopens, NeverReopens, FirstBar, Absorb;
    NeverReopensStep(feed, tf, es);
  }

  // ---- the flush-free reference -------------------------------------------------------------

  function AddPrint(feed: Feed, tf: Timeframe, bars: seq<Bar>, p: Print): seq<Bar> {
    if bars != [] && bars[|bars| - 1].ts == BucketStart(feed.segment, p.ts, tf) then
      bars[..|bars| - 1] + [Absorb(bars[|bars| - 1], p)]
    else bars + [FirstBar(feed, tf, p)]
  }

  function Grouped(feed: Feed, tf: Timeframe, ps: seq<Print>): seq<Bar> {
    if ps == [] then [] else AddPrint(feed, tf, Grouped(feed, tf, ps[..|ps| - 1]), ps[|ps| - 1])
  }

  predicate Ascending(bars: seq<Bar>) {
    forall i, j :: 0 <= i < j < |bars| ==> bars[i].ts < bars[j].ts
  }

  function Completes(bars: seq<Bar>): (r: seq<Bar>)
    ensures |r| == |bars| && forall i :: 0 <= i < |bars| ==> r[i] == Completed(bars[i])
  {
    seq(|bars|, i requires 0 <= i < |bars| => Completed(bars[i]))
  }

  lemma AppendAscends(bars: seq<Bar>, b: Bar)
    ensures Ascending(bars + [b]) <==> Ascending(bars) && (bars == [] || bars[|bars| - 1].ts < b.ts)
  {
    var after := bars + [b];
    assert forall i :: 0 <= i < |bars| ==> after[i] == bars[i];
    if Ascending(after) {
      forall i, j | 0 <= i < j < |bars| ensures bars[i].ts < bars[j].ts {
        assert after[i].ts < after[j].ts;
      }
      assert bars != [] ==> after[|bars| - 1].ts < after[|bars|].ts;
    }
  }

  lemma SameStartsAscend(bars: seq<Bar>, other: seq<Bar>)
    requires |bars| == |other| && forall i :: 0 <= i < |bars| ==> bars[i].ts == other[i].ts
    ensures Ascending(bars) ==> Ascending(other)
  {
  }

  lemma EmptyAscends()
    ensures Ascending([])
  {
  }

  /** The line shows exactly these bars: all of them emitted, or all but the last, which forms. */
  predicate Shows(l: Line, bars: seq<Bar>) {
    && l.late == []
    && match l.forming
       case None => l.emitted == Completes(bars)
       case Some(b) => bars != [] && b == bars[|bars| - 1] && l.emitted == Completes(bars[..|bars| - 1])
  }

  predicate OnGrid(feed: Feed, tf: Timeframe, b: Bar) {
    InSession(feed.segment, b.ts) && BucketStart(feed.segment, b.ts, tf) == b.ts && !b.complete
  }

  /** Flush timing is invisible: when no tick was late a line shows the flush-free grouping of its
      ticks. */
  lemma {:induction false} OnTimeShows(feed: Feed, tf: Timeframe, es: seq<Event>)
    requires OnTime(feed, tf, es)
    ensures Shows(Run(feed, tf, es), Grouped(feed, tf, Ticks(es)))
    decreases |es|
  {
    hide BucketStart, BucketEnd, OnTime, AddPrint, OnTick, OnFlush;
    if es != [] {
      var n := |es| - 1;
      var bars := Grouped(feed, tf, Ticks(es[..n]));
      OnTimePrefix(feed, tf, es);
      OnTimeShows(feed, tf, es[..n]);
      if es[n].Tick? {
        assert Ticks(es)[..|Ticks(es)| - 1] == Ticks(es[..n]);
        TickShows(feed, tf, Run(feed, tf, es[..n]), bars, es[n].p);
      } else {
        FlushShows(feed, tf, Run(feed, tf, es[..n]), bars, es[n].now);
      }
    }
  }

  lemma FlushShows(feed: Feed, tf: Timeframe, l: Line, bars: seq<Bar>, now: int)
    requires Shows(l, bars)
    ensures var after := OnFlush(feed, tf, l, now);
      && Shows(after, bars)
      && (after.forming.None? && l.forming.Some? ==> BucketEnd(feed.segment, bars[|bars| - 1].ts, tf) <= now)
  {
    if l.forming.Some? {
      assert bars == bars[..|bars| - 1] + [bars[|bars| - 1]];
      assert CloseForming(l).emitted == Completes(bars);
    }
  }

  lemma TickShows(feed: Feed, tf: Timeframe, l: Line, bars: seq<Bar>, p: Print)
    requires Shows(l, bars)
    requires bars != [] ==> bars[|bars| - 1].ts <= BucketStart(feed.segment, p.ts, tf)
    requires l.forming.None? && bars != [] ==> bars[|bars| - 1].ts < BucketStart(feed.segment, p.ts, tf)
    ensures Shows(OnTick(feed, tf, l, p), AddPrint(feed, tf, bars, p))
    ensures OnTick(feed, tf, l, p).forming.Some?
  {
    var after := AddPrint(feed, tf, bars, p);
    if bars != [] && bars[|bars| - 1].ts == BucketStart(feed.segment, p.ts, tf) {
      assert after[..|after| - 1] == bars[..|bars| - 1];
    } else {
      assert after[..|after| - 1] == bars;
      if l.forming.Some? {
        assert bars == bars[..|bars| - 1] + [bars[|bars| - 1]];
      }
      assert OnTick(feed, tf, l, p).emitted == Completes(bars);
    }
  }

  // ---- on time, read off the events -----------------------------------------------------------

  function TickBucket(feed: Feed, tf: Timeframe, e: Event): int
    requires e.Tick?
  {
    BucketStart(feed.segment, e.p.ts, tf)
  }

  /** Between two moments the clock passed the end of tick `i`'s bucket. */
  predicate ClockPassed(feed: Feed, tf: Timeframe, es: seq<Event>, i: nat, j: nat)
    requires i < j <= |es| && es[i].Tick?
  {
    exists k :: i < k < j && es[k].Flush? && BucketEnd(feed.segment, TickBucket(feed, tf, es[i]), tf) <= es[k].now
  }

  /** Tick `j` is for a later bucket than tick `i`, or for the same one before the clock passed its end. */
  predicate Follows(feed: Feed, tf: Timeframe, es: seq<Event>, i: nat, j: nat)
    requires i < j < |es| && es[i].Tick? && es[j].Tick?
  {
    var first, second := TickBucket(feed, tf, es[i]), TickBucket(feed, tf, es[j]);
    first < second || (first == second && !ClockPassed(feed, tf, es, i, j))
  }

  predicate TicksInOrder(feed: Feed, tf: Timeframe, es: seq<Event>) {
    forall i, j :: 0 <= i < j < |es| && es[i].Tick? && es[j].Tick? ==> Follows(feed, tf, es, i, j)
  }

  function LastTick(es: seq<Event>): (m: int)
    ensures -1 <= m < |es| && (m >= 0 ==> es[m].Tick?) && forall k :: m < k < |es| ==> es[k].Flush?
  {
    if es == [] then -1 else if es[|es| - 1].Tick? then |es| - 1 else LastTick(es[..|es| - 1])
  }

  /** The series stands at its last tick: that tick's bucket forms, or the clock has closed it. */
  predicate Stands(feed: Feed, tf: Timeframe, es: seq<Event>, l: Line) {
    var m := LastTick(es);
    if m < 0 then l.forming.None? && l.emitted == []
    else if ClockPassed(feed, tf, es, m, |es|) then
      l.forming.None? && l.emitted != [] && l.emitted[|l.emitted| - 1].ts == TickBucket(feed, tf, es[m])
    else l.forming.Some? && l.forming.value.ts == TickBucket(feed, tf, es[m])
  }

  lemma PassedInPrefix(feed: Feed, tf: Timeframe, es: seq<Event>, n: nat, i: nat, j: nat)
    requires i < j <= n <= |es| && es[i].Tick?
    ensures ClockPassed(feed, tf, es[..n], i, j) <==> ClockPassed(feed, tf, es, i, j)
  {
    hide BucketStart, BucketEnd;
    var end := BucketEnd(feed.segment, TickBucket(feed, tf, es[i]), tf);
    if ClockPassed(feed, tf, es, i, j) {
      var k :| i < k < j && es[k].Flush? && end <= es[k].now;
      assert es[..n][k] == es[k];
    }
  }

  /** A tick follows every tick before it if it follows the last of them. */
  lemma FollowsLast(feed: Feed, tf: Timeframe, es: seq<Event>, i: nat, m: nat, j: nat)
    requires i < m < j < |es| && es[i].Tick? && es[m].Tick? && es[j].Tick?
    requires Follows(feed, tf, es, i, m) && Follows(feed, tf, es, m, j)
    ensures Follows(feed, tf, es, i, j)
  {
    hide BucketStart, BucketEnd;
  }

  lemma InOrderStep(feed: Feed, tf: Timeframe, es: seq<Event>)
    requires es != []
    ensures var n := |es| - 1; var m := LastTick(es[..n]);
      TicksInOrder(feed, tf, es) <==>
        TicksInOrder(feed, tf, es[..n]) && (es[n].Tick? && m >= 0 ==> Follows(feed, tf, es, m, n))
  {
    hide BucketStart, BucketEnd, ClockPassed, LastTick;
    var n := |es| - 1;
    var m := LastTick(es[..n]);
    assert forall i :: 0 <= i < n ==> es[..n][i] == es[i];
    forall i, j | 0 <= i < j < n && es[i].Tick? && es[j].Tick?
      ensures Follows(feed, tf, es[..n], i, j) <==> Follows(feed, tf, es, i, j)
    {
      PassedInPrefix(feed, tf, es, n, i, j);
    }
    if TicksInOrder(feed, tf, es[..n]) && es[n].Tick? && m >= 0 && Follows(feed, tf, es, m, n) {
      forall i | 0 <= i < n && es[i].Tick? ensures Follows(feed, tf, es, i, n) {
        if i < m {
          assert Follows(feed, tf, es[..n], i, m);
          FollowsLast(feed, tf, es, i, m, n);
        }
      }
    }
  }

  /** A series that stands at its last tick takes the next one on time exactly when it follows. */
  lemma TickStands(feed: Feed, tf: Timeframe, es: seq<Event>, l: Line)
    requires es != [] && es[|es| - 1].Tick? && Stands(feed, tf, es[..|es| - 1], l)
    ensures var n := |es| - 1; var m, after := LastTick(es[..n]), OnTick(feed, tf, l, es[n].p);
      && (after.late == l.late && !Reopens(feed, tf, l, es[n]) <==> m < 0 || Follows(feed, tf, es, m, n))
      && (after.late == l.late ==> Stands(feed, tf, es, after))
  {
    hide BucketStart, BucketEnd;
    var n := |es| - 1;
    var m := LastTick(es[..n]);
    if m >= 0 {
      PassedInPrefix(feed, tf, es, n, m, n);
    }
    assert l.late + [es[n].p] != l.late;
  }

  lemma FlushStands(feed: Feed, tf: Timeframe, es: seq<Event>, l: Line)
    requires es != [] && es[|es| - 1].Flush? && Stands(feed, tf, es[..|es| - 1], l)
    ensures Stands(feed, tf, es, OnFlush(feed, tf, l, es[|es| - 1].now))
  {
    hide BucketStart, BucketEnd;
    var n := |es| - 1;
    var m := LastTick(es);
    if m >= 0 {
      PassedInPrefix(feed, tf, es, n, m, n);
      var end := BucketEnd(feed.segment, TickBucket(feed, tf, es[m]), tf);
      if ClockPassed(feed, tf, es, m, |es|) && end > es[n].now {
        var k :| m < k < |es| && es[k].Flush? && end <= es[k].now;
        assert ClockPassed(feed, tf, es, m, n);
      }
    }
  }

  lemma OnTimeStep(feed: Feed, tf: Timeframe, es: seq<Event>)
    requires es != []
    ensures var n := |es| - 1; var l := Run(feed, tf, es[..n]);
      OnTime(feed, tf, es) <==>
        OnTime(feed, tf, es[..n]) && !Reopens(feed, tf, l, es[n]) && Run(feed, tf, es).late == l.late
  {
    hide BucketStart, BucketEnd, Reopens, NeverReopens, FirstBar, Absorb;
    NeverReopensStep(feed, tf, es);
  }

  /** On time, read off the events alone: every two ticks follow each other. No hypothesis at all. */
  lemma {:induction false} OnTimeIff(feed: Feed, tf: Timeframe, es: seq<Event>)
    ensures OnTime(feed, tf, es) <==> TicksInOrder(feed, tf, es)
    ensures OnTime(feed, tf, es) ==> Stands(feed, tf, es, Run(feed, tf, es))
    decreases |es|
  {
    assert es == [] ==> OnTime(feed, tf, []) && Stands(feed, tf, [], EMPTY_LINE) && Run(feed, tf, es) == EMPTY_LINE;
    hide OnTime, Reopens, OnTick, OnFlush, Stands, Follows, LastTick;
    if es != [] {
      var n := |es| - 1;
      var l := Run(feed, tf, es[..n]);
      OnTimeIff(feed, tf, es[..n]);
      OnTimeStep(feed, tf, es);
      InOrderStep(feed, tf, es);
      if OnTime(feed, tf, es[..n]) {
        if es[n].Tick? {
          TickStands(feed, tf, es, l);
        } else {
          FlushStands(feed, tf, es, l);
          FlushKeepsLate(feed, tf, l, es[n]);
        }
      }
    }
  }

  lemma FlushKeepsLate(feed: Feed, tf: Timeframe, l: Line, e: Event)
    requires e.Flush?
    ensures OnFlush(feed, tf, l, e.now).late == l.late && !Reopens(feed, tf, l, e)
  {
  }

  /** Ticks no older than the ticks and clock calls before them are never late, in any timeframe. */
  lemma TimelyIsOnTime(feed: Feed, tf: Timeframe, es: seq<Event>)
    requires Timely(es) && InHours(feed.segment, es)
    ensures OnTime(feed, tf, es)
  {
    hide BucketStart, BucketEnd, InSession, OnTime;
    OnTimeIff(feed, tf, es);
    forall i, j | 0 <= i < j < |es| && es[i].Tick? && es[j].Tick? ensures Follows(feed, tf, es, i, j) {
      BucketMonotone(feed.segment, es[i].p.ts, es[j].p.ts, tf);
      if ClockPassed(feed, tf, es, i, j) {
        var end := BucketEnd(feed.segment, TickBucket(feed, tf, es[i]), tf);
        var k :| i < k < j && es[k].Flush? && end <= es[k].now;
        assert Time(es[k]) <= Time(es[j]);
      }
    }
  }
}
