/** What one instrument's raw ticks do to its state before they become bars: the day roll, the
    volume delta of the cumulative total, the recovered day extremes and the session VWAP. */
module SymbolFeed {
  import opened Wrappers
  import opened Session
  import opened Bars
  import opened Rollup

  /** A frame of the snapshot feed; zero means the field is absent. */
  datatype RawTick = RawTick(ts: int, ltp: real, totalQty: int, lastQty: nat, high: real, low: real, prevClose: real)

  datatype SymbolValue = SymbolValue(feed: Feed, lastTotal: Option<int>, day: Option<int>, pv: real, v: real,
                                     prevClose: Option<real>, oi: Option<OpenInterest>, ticks: nat,
                                     dayHigh: real, dayLow: real)

  datatype RawEvent = Raw(t: RawTick) | Clock(now: int) | SetOi(oi: OpenInterest)

  function NewSymbol(feed: Feed): SymbolValue {
    SymbolValue(feed, None, None, 0.0, 0.0, None, None, 0, 0.0, 0.0)
  }

  function RollDay(s: SymbolValue, day: int, t: RawTick): SymbolValue {
    var base := if s.feed.connectedSince <= SessionOpen(s.feed.segment, day) then Some(0) else None;
    s.(day := Some(day), pv := 0.0, v := 0.0, dayHigh := 0.0, dayLow := 0.0, lastTotal := base,
       prevClose := if t.prevClose > 0.0 then Some(t.prevClose) else s.prevClose)
  }

  /** The volume this frame adds, from the cumulative day total where there is one. */
  function VolumeDelta(s: SymbolValue, t: RawTick): (SymbolValue, real) {
    if t.totalQty <= 0 then (s, t.lastQty as real)
    else if s.lastTotal.None? || t.totalQty < s.lastTotal.value then (s.(lastTotal := Some(t.totalQty)), 0.0)
    else (s.(lastTotal := Some(t.totalQty)), (t.totalQty - s.lastTotal.value) as real)
  }

  function DayExtremes(s: SymbolValue, t: RawTick): (SymbolValue, Option<real>, Option<real>) {
    var newHigh := if t.high > 0.0 && s.dayHigh > 0.0 && t.high > s.dayHigh then Some(t.high) else None;
    var newLow := if t.low > 0.0 && s.dayLow > 0.0 && t.low < s.dayLow then Some(t.low) else None;
    var high := if t.high > 0.0 then Max(s.dayHigh, t.high) else s.dayHigh;
    var low := if t.low <= 0.0 then s.dayLow else if s.dayLow <= 0.0 then t.low else Min(s.dayLow, t.low);
    (s.(dayHigh := high, dayLow := low), newHigh, newLow)
  }

  /** Books the print into the session and stamps it with the running VWAP. */
  function Book(s: SymbolValue, t: RawTick, qty: real, newHigh: Option<real>, newLow: Option<real>):
    (SymbolValue, Print)
  {
    var s1 := s.(pv := s.pv + t.ltp * qty, v := s.v + qty);
    var vwap := if s1.v > 0.0 then s1.pv / s1.v else t.ltp;
    (s1, Print(t.ts, t.ltp, qty, newHigh, newLow, Context(Some(vwap), s1.prevClose, s1.oi)))
  }

  predicate Accepted(seg: Segment, t: RawTick) { t.ltp > 0.0 && InSession(seg, t.ts) }

  function Receive(s: SymbolValue, t: RawTick): (SymbolValue, Option<Print>) {
    if t.ltp <= 0.0 then (s, None)
    else
      var s0 := s.(ticks := s.ticks + 1);
      if !InSession(s.feed.segment, t.ts) then (s0, None)
      else
        var s1 := if s0.day == Some(IstDay(t.ts)) then s0 else RollDay(s0, IstDay(t.ts), t);
        var (s2, qty) := VolumeDelta(s1, t);
        var (s3, newHigh, newLow) := DayExtremes(s2, t);
        var (s4, p) := Book(s3, t, qty, newHigh, newLow);
        (s4, Some(p))
  }

  /** The state after a run, and the bar-building events it gave rise to. */
  function Life(feed: Feed, es: seq<RawEvent>): (SymbolValue, seq<Event>) {
    if es == [] then (NewSymbol(feed), [])
    else
      var (s, trace) := Life(feed, es[..|es| - 1]);
      match es[|es| - 1]
      case Raw(t) =>
        var (s1, p) := Receive(s, t);
        (s1, if p.Some? then trace + [Tick(p.value)] else trace)
      case Clock(now) => (s, trace + [Flush(now)])
      case SetOi(oi) => (s.(oi := Some(oi)), trace)
  }

  function AcceptedTicks(feed: Feed, es: seq<RawEvent>): seq<RawTick> {
    if es == [] then []
    else
      var rest, e := AcceptedTicks(feed, es[..|es| - 1]), es[|es| - 1];
      if e.Raw? && Accepted(feed.segment, e.t) then rest + [e.t] else rest
  }

  function OnDay(ts: seq<RawTick>, day: int): seq<RawTick> {
    if ts == [] then []
    else
      var rest, t := OnDay(ts[..|ts| - 1], day), ts[|ts| - 1];
      if IstDay(t.ts) == day then rest + [t] else rest
  }

  predicate DaysInOrder(ts: seq<RawTick>) {
    forall i, j :: 0 <= i < j < |ts| ==> IstDay(ts[i].ts) <= IstDay(ts[j].ts)
  }

  // ---- volume in the bars ---------------------------------------------------------------------

  function BarVolume(bars: seq<Bar>, day: int): real {
    if bars == [] then 0.0
    else
      var b := bars[|bars| - 1];
      BarVolume(bars[..|bars| - 1], day) + if IstDay(b.ts) == day then b.data.volume else 0.0
  }

  function PrintVolume(ps: seq<Print>, day: int): real {
    if ps == [] then 0.0
    else PrintVolume(ps[..|ps| - 1], day) + if IstDay(ps[|ps| - 1].ts) == day then ps[|ps| - 1].qty else 0.0
  }

  /** Closed, forming and dropped-as-late volume of one day in one series. */
  function LineVolume(l: Line, day: int): real {
    BarVolume(l.emitted, day)
    + (if l.forming.Some? then BarVolume([l.forming.value], day) else 0.0)
    + PrintVolume(l.late, day)
  }

  lemma BarVolumeAppend(bars: seq<Bar>, b: Bar, day: int)
    ensures BarVolume(bars + [b], day) == BarVolume(bars, day) + BarVolume([b], day)
    ensures BarVolume([b], day) == if IstDay(b.ts) == day then b.data.volume else 0.0
    ensures BarVolume([Completed(b)], day) == BarVolume([b], day)
  {
    hide IstDay;
    assert (bars + [b])[..|bars|] == bars;
    assert [b][..0] == [] && [Completed(b)][..0] == [];
  }

  lemma PrintVolumeAppend(ps: seq<Print>, p: Print, day: int)
    ensures PrintVolume(ps + [p], day) == PrintVolume(ps, day) + if IstDay(p.ts) == day then p.qty else 0.0
  {
    assert (ps + [p])[..|ps|] == ps;
  }

  lemma CloseKeepsVolume(l: Line, day: int)
    ensures LineVolume(CloseForming(l), day) == LineVolume(l, day)
  {
    hide BarVolume, PrintVolume;
    if l.forming.Some? {
      BarVolumeAppend(l.emitted, Completed(l.forming.value), day);
      BarVolumeAppend(l.emitted, l.forming.value, day);
    }
  }

  lemma TickAddsVolume(feed: Feed, tf: Timeframe, l: Line, p: Print, day: int)
    requires InSession(feed.segment, p.ts) && p.price > 0.0
    ensures LineVolume(OnTick(feed, tf, l, p), day) == LineVolume(l, day) + if IstDay(p.ts) == day then p.qty else 0.0
  {
    hide BarVolume, PrintVolume, BucketStart, BucketEnd, InSession, IstDay;
    BucketSpan(feed.segment, p.ts, tf);
    var after := OnTick(feed, tf, l, p);
    if l.forming.Some? && BucketStart(feed.segment, p.ts, tf) < l.forming.value.ts {
      PrintVolumeAppend(l.late, p, day);
    } else if l.forming.Some? && BucketStart(feed.segment, p.ts, tf) == l.forming.value.ts {
      BarVolumeAppend([], l.forming.value, day);
      BarVolumeAppend([], Absorb(l.forming.value, p), day);
    } else {
      CloseKeepsVolume(l, day);
      BarVolumeAppend([], FirstBar(feed, tf, p), day);
    }
  }

  /** Conservation, with no hypothesis on order: a day's closed, forming and dropped volume is
      exactly the volume its ticks brought. */
  lemma {:induction false} LineConservesVolume(feed: Feed, tf: Timeframe, es: seq<Event>, day: int)
    requires InHours(feed.segment, es)
    ensures LineVolume(Run(feed, tf, es), day) == PrintVolume(Ticks(es), day)
  {
    assert es == [] ==> LineVolume(EMPTY_LINE, day) == PrintVolume([], day);
    hide BarVolume, PrintVolume, InSession, IstDay, Step, LineVolume;
    if es != [] {
      var n := |es| - 1;
      LineConservesVolume(feed, tf, es[..n], day);
      StepConservesVolume(feed, tf, Run(feed, tf, es[..n]), es[n], day);
      if es[n].Tick? {
        PrintVolumeAppend(Ticks(es[..n]), es[n].p, day);
      }
    }
  }

  lemma StepConservesVolume(feed: Feed, tf: Timeframe, l: Line, e: Event, day: int)
    requires e.Tick? ==> InSession(feed.segment, e.p.ts) && e.p.price > 0.0
    ensures LineVolume(Step(feed, tf, l, e), day) ==
      LineVolume(l, day) + if e.Tick? && IstDay(e.p.ts) == day then e.p.qty else 0.0
  {
    hide InSession, IstDay, BucketStart, BucketEnd, OnTick, LineVolume;
    if e.Tick? {
      TickAddsVolume(feed, tf, l, e.p, day);
    } else {
      CloseKeepsVolume(l, day);
    }
  }
}
