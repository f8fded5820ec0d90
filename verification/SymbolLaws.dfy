/** Laws of the raw feed over whole lives of an instrument: the session volume is what the day's
    bars hold, it telescopes to the cumulative total, and the stamped VWAP is a traded price level. */
module SymbolLaws {
  import opened Wrappers
  import opened Session
  import opened Bars
  import opened Rollup
  import opened SymbolFeed

  function State(feed: Feed, es: seq<RawEvent>): SymbolValue { Life(feed, es).0 }

  function Trace(feed: Feed, es: seq<RawEvent>): seq<Event> { Life(feed, es).1 }

  lemma ReceiveKeepsFeed(s: SymbolValue, t: RawTick)
    ensures Receive(s, t).0.feed == s.feed
    ensures Receive(s, t).1.Some? <==> Accepted(s.feed.segment, t)
    ensures Receive(s, t).1.Some? ==> Receive(s, t).1.value.ts == t.ts && Receive(s, t).1.value.price == t.ltp
    ensures Receive(s, t).1.None? ==> Receive(s, t).0 == s.(ticks := Receive(s, t).0.ticks)
  {
    hide InSession, IstDay, SessionOpen;
  }

  /** The bars see exactly the accepted ticks, in order. */
  lemma {:induction false} TraceIsAccepted(feed: Feed, es: seq<RawEvent>)
    ensures State(feed, es).feed == feed
    ensures InHours(feed.segment, Trace(feed, es))
    ensures var ps, ts := Ticks(Trace(feed, es)), AcceptedTicks(feed, es);
      |ps| == |ts| && forall i :: 0 <= i < |ts| ==> ps[i].ts == ts[i].ts && ps[i].price == ts[i].ltp
    decreases |es|
  {
    hide InSession, IstDay, Receive;
    if es != [] {
      var n := |es| - 1;
      TraceIsAccepted(feed, es[..n]);
      var before, after := Trace(feed, es[..n]), Trace(feed, es);
      if es[n].Raw? {
        ReceiveKeepsFeed(State(feed, es[..n]), es[n].t);
      }
      assert after == before || after[..|after| - 1] == before;
    }
  }

  // ---- session volume -------------------------------------------------------------------------

  predicate Before(ts: seq<RawTick>, day: Option<int>) {
    forall i :: 0 <= i < |ts| ==> day.Some? && IstDay(ts[i].ts) <= day.value
  }

  lemma ReceiveBooks(s: SymbolValue, t: RawTick)
    requires Accepted(s.feed.segment, t)
    ensures var (s1, p) := Receive(s, t);
      && s1.day == Some(IstDay(t.ts))
      && s1.v == (if s.day == Some(IstDay(t.ts)) then s.v else 0.0) + p.value.qty
      && s1.pv == (if s.day == Some(IstDay(t.ts)) then s.pv else 0.0) + t.ltp * p.value.qty
      && p.value.context.vwap == Some(if s1.v > 0.0 then s1.pv / s1.v else t.ltp)
      && p.value.qty >= 0.0
  {
    hide InSession, IstDay, SessionOpen;
  }

  lemma {:induction false} NoVolumeYet(ps: seq<Print>, day: int)
    requires forall i :: 0 <= i < |ps| ==> IstDay(ps[i].ts) != day
    ensures PrintVolume(ps, day) == 0.0
  {
    if ps != [] {
      NoVolumeYet(ps[..|ps| - 1], day);
    }
  }

  /** The session volume is the volume of the current day's ticks. */
  lemma {:induction false} SessionVolume(feed: Feed, es: seq<RawEvent>)
    requires DaysInOrder(AcceptedTicks(feed, es))
    ensures var s := State(feed, es);
      && Before(AcceptedTicks(feed, es), s.day)
      && (s.day.Some? ==> s.v == PrintVolume(Ticks(Trace(feed, es)), s.day.value))
    decreases |es|
  {
    hide InSession, IstDay, Receive, PrintVolume, InHours;
    if es != [] {
      var n := |es| - 1;
      var s := State(feed, es[..n]);
      var ts := AcceptedTicks(feed, es);
      TraceIsAccepted(feed, es[..n]);
      if es[n].Raw? {
        ReceiveKeepsFeed(s, es[n].t);
      }
      if es[n].Raw? && Accepted(feed.segment, es[n].t) {
        assert ts[..|ts| - 1] == AcceptedTicks(feed, es[..n]);
        assert forall i :: 0 <= i < |ts| - 1 ==> IstDay(ts[i].ts) <= IstDay(ts[|ts| - 1].ts);
        assert DaysInOrder(ts[..|ts| - 1]);
        SessionVolume(feed, es[..n]);
        BookedVolume(feed, es);
      } else {
        SessionVolume(feed, es[..n]);
        assert Ticks(Trace(feed, es)) == Ticks(Trace(feed, es[..n])) by { SameTicks(feed, es); }
      }
    }
  }

  lemma SameTicks(feed: Feed, es: seq<RawEvent>)
    requires es != [] && State(feed, es[..|es| - 1]).feed == feed
    requires !(es[|es| - 1].Raw? && Accepted(feed.segment, es[|es| - 1].t))
    ensures Ticks(Trace(feed, es)) == Ticks(Trace(feed, es[..|es| - 1]))
  {
    hide InSession, IstDay, Receive;
    var before, after := Trace(feed, es[..|es| - 1]), Trace(feed, es);
    if es[|es| - 1].Raw? {
      ReceiveKeepsFeed(State(feed, es[..|es| - 1]), es[|es| - 1].t);
    }
    if es[|es| - 1].Clock? {
      assert after[..|after| - 1] == before;
    }
  }

  lemma BookedVolume(feed: Feed, es: seq<RawEvent>)
    requires es != [] && es[|es| - 1].Raw? && Accepted(feed.segment, es[|es| - 1].t)
    requires var s := State(feed, es[..|es| - 1]);
      && Before(AcceptedTicks(feed, es[..|es| - 1]), s.day)
      && (s.day.Some? ==> s.v == PrintVolume(Ticks(Trace(feed, es[..|es| - 1])), s.day.value))
    requires Before(AcceptedTicks(feed, es[..|es| - 1]), Some(IstDay(es[|es| - 1].t.ts)))
    ensures var s := State(feed, es);
      s.day == Some(IstDay(es[|es| - 1].t.ts)) && s.v == PrintVolume(Ticks(Trace(feed, es)), s.day.value)
  {
    hide InSession, IstDay, Receive, PrintVolume;
    var n := |es| - 1;
    var s, day := State(feed, es[..n]), IstDay(es[n].t.ts);
    TraceIsAccepted(feed, es[..n]);
    ReceiveBooks(s, es[n].t);
    ReceiveKeepsFeed(s, es[n].t);
    var before, after := Trace(feed, es[..n]), Trace(feed, es);
    assert after[..|after| - 1] == before;
    PrintVolumeAppend(Ticks(before), after[|after| - 1].p, day);
    if s.day != Some(day) {
      forall i | 0 <= i < |Ticks(before)| ensures IstDay(Ticks(before)[i].ts) != day {
        var ts := AcceptedTicks(feed, es[..n]);
        assert IstDay(ts[i].ts) <= s.day.value;
        assert DayReached(feed, es[..n], s.day.value) by { DayIsReached(feed, es[..n]); }
      }
      NoVolumeYet(Ticks(before), day);
    }
  }

  predicate DayReached(feed: Feed, es: seq<RawEvent>, day: int) {
    exists i :: 0 <= i < |AcceptedTicks(feed, es)| && IstDay(AcceptedTicks(feed, es)[i].ts) == day
  }

  lemma {:induction false} DayIsReached(feed: Feed, es: seq<RawEvent>)
    ensures State(feed, es).day.Some? ==> DayReached(feed, es, State(feed, es).day.value)
    decreases |es|
  {
    hide InSession, IstDay, Receive;
    if es != [] {
      var n := |es| - 1;
      DayIsReached(feed, es[..n]);
      TraceIsAccepted(feed, es[..n]);
      if es[n].Raw? {
        ReceiveKeepsFeed(State(feed, es[..n]), es[n].t);
        if Accepted(feed.segment, es[n].t) {
          ReceiveBooks(State(feed, es[..n]), es[n].t);
          var ts := AcceptedTicks(feed, es);
          assert ts[|ts| - 1] == es[n].t;
        }
      }
      if State(feed, es[..n]).day.Some? && State(feed, es).day == State(feed, es[..n]).day {
        var day := State(feed, es).day.value;
        var i :| 0 <= i < |AcceptedTicks(feed, es[..n])| && IstDay(AcceptedTicks(feed, es[..n])[i].ts) == day;
        assert AcceptedTicks(feed, es)[i] == AcceptedTicks(feed, es[..n])[i];
      }
    }
  }

  /** Volume conservation: for every timeframe, the current day's closed, forming and dropped volume
      equals the session volume. */
  lemma VolumeConservation(feed: Feed, tf: Timeframe, es: seq<RawEvent>)
    requires DaysInOrder(AcceptedTicks(feed, es))
    ensures var s := State(feed, es);
      s.day.Some? ==> LineVolume(Run(feed, tf, Trace(feed, es)), s.day.value) == s.v
  {
    hide *;
    TraceIsAccepted(feed, es);
    SessionVolume(feed, es);
    if State(feed, es).day.Some? {
      LineConservesVolume(feed, tf, Trace(feed, es), State(feed, es).day.value);
    }
  }

  // ---- telescoping to the cumulative total ----------------------------------------------------

  /** The baseline a session counts from: zero when connected by the open, else the first total. */
  function Baseline(feed: Feed, day: int, ts: seq<RawTick>): int
    requires ts != []
  {
    if feed.connectedSince <= SessionOpen(feed.segment, day) then 0 else ts[0].totalQty
  }

  /** By how much the totals fell back, frame to frame. */
  function Fallbacks(ts: seq<RawTick>): int {
    if |ts| < 2 then 0
    else Fallbacks(ts[..|ts| - 1]) + MaxInt(0, ts[|ts| - 2].totalQty - ts[|ts| - 1].totalQty)
  }

  predicate TotalsNeverFall(ts: seq<RawTick>) {
    forall i :: 0 < i < |ts| ==> ts[i - 1].totalQty <= ts[i].totalQty
  }

  predicate TotalsPresent(ts: seq<RawTick>) {
    forall i :: 0 <= i < |ts| ==> ts[i].totalQty > 0
  }

  lemma {:induction false} FallbacksIff(ts: seq<RawTick>)
    ensures Fallbacks(ts) >= 0
    ensures Fallbacks(ts) == 0 <==> TotalsNeverFall(ts)
  {
    if |ts| >= 2 {
      FallbacksIff(ts[..|ts| - 1]);
    }
  }

  predicate Telescoped(s: SymbolValue, ts: seq<RawTick>) {
    s.day.Some? && TotalsPresent(OnDay(ts, s.day.value)) ==>
      var today := OnDay(ts, s.day.value);
      && today != []
      && s.lastTotal == Some(today[|today| - 1].totalQty)
      && s.v == (today[|today| - 1].totalQty - Baseline(s.feed, s.day.value, today) + Fallbacks(today)) as real
  }

  lemma {:induction false} NoneOnDay(ts: seq<RawTick>, day: int)
    requires forall i :: 0 <= i < |ts| ==> IstDay(ts[i].ts) < day
    ensures OnDay(ts, day) == []
  {
    if ts != [] {
      NoneOnDay(ts[..|ts| - 1], day);
    }
  }

  lemma ReceiveCounts(s: SymbolValue, t: RawTick)
    requires Accepted(s.feed.segment, t) && t.totalQty > 0
    ensures var s1, day := Receive(s, t).0, IstDay(t.ts);
      var fromOpen := s.feed.connectedSince <= SessionOpen(s.feed.segment, day);
      && s1.lastTotal == Some(t.totalQty)
      && (s.day == Some(day) && s.lastTotal.Some? ==>
           s1.v == s.v + MaxInt(0, t.totalQty - s.lastTotal.value) as real)
      && (s.day != Some(day) ==> s1.v == if fromOpen then t.totalQty as real else 0.0)
  {
    hide InSession, IstDay, SessionOpen;
  }

  lemma DayGrows(ts: seq<RawTick>, t: RawTick)
    ensures OnDay(ts + [t], IstDay(t.ts)) == OnDay(ts, IstDay(t.ts)) + [t]
  {
    hide IstDay;
    assert (ts + [t])[..|ts|] == ts;
  }

  lemma FallbacksGrow(ts: seq<RawTick>, t: RawTick)
    ensures TotalsPresent(ts + [t]) ==> TotalsPresent(ts) && t.totalQty > 0
    ensures ts != [] ==> Fallbacks(ts + [t]) == Fallbacks(ts) + MaxInt(0, ts[|ts| - 1].totalQty - t.totalQty)
    ensures ts == [] ==> Fallbacks(ts + [t]) == 0
  {
    assert (ts + [t])[..|ts|] == ts && (ts + [t])[|ts|] == t;
    assert forall i :: 0 <= i < |ts| ==> (ts + [t])[i] == ts[i];
  }

  lemma CountKeepsTelescoped(s: SymbolValue, ts: seq<RawTick>, t: RawTick)
    requires Accepted(s.feed.segment, t) && Telescoped(s, ts)
    requires s.day != Some(IstDay(t.ts)) ==> OnDay(ts, IstDay(t.ts)) == []
    ensures Telescoped(Receive(s, t).0, ts + [t])
  {
    hide InSession, IstDay, SessionOpen, Receive, OnDay, Fallbacks, TotalsPresent;
    var before := OnDay(ts, IstDay(t.ts));
    DayGrows(ts, t);
    FallbacksGrow(before, t);
    ReceiveBooks(s, t);
    ReceiveKeepsFeed(s, t);
    if TotalsPresent(before + [t]) {
      ReceiveCounts(s, t);
    }
  }

  /** With every total present, the session volume is the last total less the baseline, plus
      whatever the totals fell back by. */
  lemma {:induction false} SessionTelescopes(feed: Feed, es: seq<RawEvent>)
    requires DaysInOrder(AcceptedTicks(feed, es))
    ensures Telescoped(State(feed, es), AcceptedTicks(feed, es))
    decreases |es|
  {
    if es == [] {
      return;
    }
    hide InSession, IstDay, Receive, Telescoped, OnDay;
    var n := |es| - 1;
    var s, ts := State(feed, es[..n]), AcceptedTicks(feed, es);
    TraceIsAccepted(feed, es[..n]);
    if es[n].Raw? {
      ReceiveKeepsFeed(s, es[n].t);
    }
    if es[n].Raw? && Accepted(feed.segment, es[n].t) {
      assert ts[..|ts| - 1] == AcceptedTicks(feed, es[..n]);
      assert forall i :: 0 <= i < |ts| - 1 ==> IstDay(ts[i].ts) <= IstDay(ts[|ts| - 1].ts);
      assert DaysInOrder(ts[..|ts| - 1]);
      SessionTelescopes(feed, es[..n]);
      SessionVolume(feed, es[..n]);
      if s.day != Some(IstDay(es[n].t.ts)) {
        DayIsPast(feed, es);
      }
      CountKeepsTelescoped(s, ts[..|ts| - 1], es[n].t);
    } else {
      SessionTelescopes(feed, es[..n]);
      QuietKeepsTelescoped(s, State(feed, es), ts);
    }
  }

  lemma QuietKeepsTelescoped(s: SymbolValue, s1: SymbolValue, ts: seq<RawTick>)
    requires Telescoped(s, ts) && s1.feed == s.feed && s1.day == s.day && s1.lastTotal == s.lastTotal && s1.v == s.v
    ensures Telescoped(s1, ts)
  {
  }

  lemma DayIsPast(feed: Feed, es: seq<RawEvent>)
    requires es != [] && es[|es| - 1].Raw? && Accepted(feed.segment, es[|es| - 1].t)
    requires DaysInOrder(AcceptedTicks(feed, es))
    requires Before(AcceptedTicks(feed, es[..|es| - 1]), State(feed, es[..|es| - 1]).day)
    requires State(feed, es[..|es| - 1]).day != Some(IstDay(es[|es| - 1].t.ts))
    ensures OnDay(AcceptedTicks(feed, es[..|es| - 1]), IstDay(es[|es| - 1].t.ts)) == []
  {
    hide InSession, IstDay, Receive, OnDay;
    var n := |es| - 1;
    var before, day := AcceptedTicks(feed, es[..n]), IstDay(es[n].t.ts);
    DayIsReached(feed, es[..n]);
    assert AcceptedTicks(feed, es) == before + [es[n].t];
    forall i | 0 <= i < |before| ensures IstDay(before[i].ts) < day {
      var last := State(feed, es[..n]).day.value;
      var k :| 0 <= k < |before| && IstDay(before[k].ts) == last;
      assert AcceptedTicks(feed, es)[k] == before[k] && AcceptedTicks(feed, es)[|before|] == es[n].t;
    }
    NoneOnDay(before, day);
  }

  /** Exactly when the volume is the cumulative total less its baseline: no total fell back. A stale
      lower total resets the baseline, and the difference is then counted again. */
  lemma VolumeIsTotalIff(feed: Feed, es: seq<RawEvent>)
    requires DaysInOrder(AcceptedTicks(feed, es))
    ensures var s, ts := State(feed, es), AcceptedTicks(feed, es);
      s.day.Some? && TotalsPresent(OnDay(ts, s.day.value)) ==>
        var today := OnDay(ts, s.day.value);
        && today != []
        && (s.v == (today[|today| - 1].totalQty - Baseline(feed, s.day.value, today)) as real
            <==> TotalsNeverFall(today))
  {
    hide InSession, IstDay, Life, OnDay, AcceptedTicks, Fallbacks, TotalsNeverFall, Baseline, TotalsPresent;
    SessionTelescopes(feed, es);
    FeedKept(feed, es);
    var s, ts := State(feed, es), AcceptedTicks(feed, es);
    if s.day.Some? {
      FallbacksIff(OnDay(ts, s.day.value));
    }
  }

  function TotalTick(total: int): RawTick { RawTick(100000, 10.0, total, 0, 0.0, 0.0, 0.0) }

  /** Connected before the open, totals of 100, a stale 50 and 120: a volume of 170 is counted. */
  lemma StaleTotalOverCounts()
    ensures var es := [Raw(TotalTick(100)), Raw(TotalTick(50)), Raw(TotalTick(120))];
      State(Feed("NIFTY", "1", NSE_EQ, 0), es).v == 170.0
  {
    hide Receive, TotalTick;
    var feed, a, b, c := Feed("NIFTY", "1", NSE_EQ, 0), TotalTick(100), TotalTick(50), TotalTick(120);
    assert a.totalQty == 100 && b.totalQty == 50 && c.totalQty == 120 by { TotalTicks(); }
    assert Accepted(NSE_EQ, a) && Accepted(NSE_EQ, b) && Accepted(NSE_EQ, c) by { TotalTicks(); }
    assert IstDay(a.ts) == IstDay(b.ts) == IstDay(c.ts) == 1 by { TotalTicks(); }
    assert [Raw(a)][..0] == [] && [Raw(a), Raw(b)][..1] == [Raw(a)];
    assert [Raw(a), Raw(b), Raw(c)][..2] == [Raw(a), Raw(b)];
    var s1 := Receive(NewSymbol(feed), a).0;
    var s2 := Receive(s1, b).0;
    assert State(feed, []) == NewSymbol(feed);
    assert State(feed, [Raw(a)]) == s1;
    assert State(feed, [Raw(a), Raw(b)]) == s2;
    ReceiveCounts(NewSymbol(feed), a);
    ReceiveBooks(NewSymbol(feed), a);
    ReceiveKeepsFeed(NewSymbol(feed), a);
    ReceiveCounts(s1, b);
    ReceiveBooks(s1, b);
    ReceiveKeepsFeed(s1, b);
    ReceiveCounts(s2, c);
  }

  lemma TotalTicks()
    ensures forall q :: TotalTick(q).totalQty == q && Accepted(NSE_EQ, TotalTick(q)) && IstDay(TotalTick(q).ts) == 1
  {
  }

  lemma FeedKept(feed: Feed, es: seq<RawEvent>)
    ensures State(feed, es).feed == feed
  {
    TraceIsAccepted(feed, es);
  }

  // ---- the stamped VWAP -----------------------------------------------------------------------

  /** Between the prices of two of the day's prints. */
  predicate Traded(ps: seq<Print>, day: int, price: real) {
    exists i, j :: 0 <= i < |ps| && 0 <= j < |ps| && IstDay(ps[i].ts) == day && IstDay(ps[j].ts) == day
      && ps[i].price <= price <= ps[j].price
  }

  /** `pv` lies between `v` units at the lower and at the higher price. */
  predicate Between(lo: real, hi: real, pv: real, v: real) { lo * v <= pv <= hi * v }

  predicate Weighed(ps: seq<Print>, day: int, pv: real, v: real) {
    exists i, j :: 0 <= i < |ps| && 0 <= j < |ps| && IstDay(ps[i].ts) == day && IstDay(ps[j].ts) == day
      && Between(ps[i].price, ps[j].price, pv, v)
  }

  lemma WeighMore(lo: real, hi: real, pv: real, v: real, price: real, q: real, paid: real)
    requires v >= 0.0 && q >= 0.0 && paid == price * q && Between(lo, hi, pv, v)
    ensures Between(Min(lo, price), Max(hi, price), pv + paid, v + q)
  {
    var lower, upper := Min(lo, price), Max(hi, price);
    MulLessEq(lower, lo, v);
    MulLessEq(lower, price, q);
    MulLessEq(hi, upper, v);
    MulLessEq(price, upper, q);
    assert lower * (v + q) == lower * v + lower * q && upper * (v + q) == upper * v + upper * q;
  }

  /** One more print keeps the running average between two traded prices of the day. */
  lemma WeighPrint(ps: seq<Print>, p: Print, pv: real, v: real, paid: real)
    requires v >= 0.0 && p.qty >= 0.0 && paid == p.price * p.qty
    requires Weighed(ps, IstDay(p.ts), pv, v) || (pv == 0.0 && v == 0.0)
    ensures Weighed(ps + [p], IstDay(p.ts), pv + paid, v + p.qty)
  {
    hide IstDay, Between;
    var all, n := ps + [p], |ps|;
    assert all[n] == p;
    var i, j := n, n;
    if Weighed(ps, IstDay(p.ts), pv, v) {
      i, j :| 0 <= i < |ps| && 0 <= j < |ps| && IstDay(ps[i].ts) == IstDay(p.ts) && IstDay(ps[j].ts) == IstDay(p.ts)
        && Between(ps[i].price, ps[j].price, pv, v);
      assert all[i] == ps[i] && all[j] == ps[j];
    } else {
      BetweenNothing(p.price);
    }
    WeighMore(all[i].price, all[j].price, pv, v, p.price, p.qty, paid);
    var lo := if all[i].price < p.price then i else n;
    var hi := if all[j].price < p.price then n else j;
    assert all[lo].price == Min(all[i].price, p.price);
    assert all[hi].price == Max(all[j].price, p.price);
    assert Between(all[lo].price, all[hi].price, pv + paid, v + p.qty);
  }

  lemma BetweenNothing(price: real)
    ensures Between(price, price, 0.0, 0.0)
  {
  }

  lemma WeighedIsTraded(ps: seq<Print>, day: int, pv: real, v: real)
    requires v > 0.0 && Weighed(ps, day, pv, v)
    ensures Traded(ps, day, pv / v)
  {
    hide IstDay;
    var i, j :| 0 <= i < |ps| && 0 <= j < |ps| && IstDay(ps[i].ts) == day && IstDay(ps[j].ts) == day
      && Between(ps[i].price, ps[j].price, pv, v);
    RatioBetween(ps[i].price, ps[j].price, pv, v);
  }

  predicate VwapTraded(ps: seq<Print>, k: int)
    requires 0 <= k < |ps|
  {
    ps[k].context.vwap.Some? && Traded(ps[..k + 1], IstDay(ps[k].ts), ps[k].context.vwap.value)
  }

  predicate SessionWeighed(s: SymbolValue, ps: seq<Print>) {
    s.day.Some? ==> s.v >= 0.0 && Weighed(ps, s.day.value, s.pv, s.v)
  }

  /** Every VWAP ever stamped lies between two prices already traded that day. */
  lemma {:induction false} StampedVwapTraded(feed: Feed, es: seq<RawEvent>)
    ensures var ps := Ticks(Trace(feed, es));
      forall k :: 0 <= k < |ps| ==> VwapTraded(ps, k)
    ensures SessionWeighed(State(feed, es), Ticks(Trace(feed, es)))
    decreases |es|
  {
    hide InSession, IstDay, Receive, VwapTraded, Weighed, Traded;
    if es != [] {
      var n := |es| - 1;
      StampedVwapTraded(feed, es[..n]);
      TraceIsAccepted(feed, es[..n]);
      var s, before, ps := State(feed, es[..n]), Ticks(Trace(feed, es[..n])), Ticks(Trace(feed, es));
      if es[n].Raw? {
        ReceiveKeepsFeed(s, es[n].t);
      }
      if es[n].Raw? && Accepted(feed.segment, es[n].t) {
        var after := Trace(feed, es);
        assert after[..|after| - 1] == Trace(feed, es[..n]);
        assert ps == before + [Receive(s, es[n].t).1.value];
        NextVwapTraded(s, before, es[n].t);
        forall k | 0 <= k < |ps| ensures VwapTraded(ps, k) {
          if k < |before| {
            VwapPrefix(before, ps, k);
          }
        }
      } else {
        SameTicks(feed, es);
      }
    }
  }

  lemma VwapPrefix(before: seq<Print>, ps: seq<Print>, k: int)
    requires 0 <= k < |before| < |ps| && before == ps[..|before|] && VwapTraded(before, k)
    ensures VwapTraded(ps, k)
  {
    assert before[..k + 1] == ps[..k + 1];
  }

  lemma NextVwapTraded(s: SymbolValue, before: seq<Print>, t: RawTick)
    requires Accepted(s.feed.segment, t) && SessionWeighed(s, before)
    ensures var (s1, p) := Receive(s, t);
      && VwapTraded(before + [p.value], |before|)
      && SessionWeighed(s1, before + [p.value])
  {
    hide InSession, IstDay, Receive, Weighed;
    ReceiveBooks(s, t);
    ReceiveKeepsFeed(s, t);
    var s1, p := Receive(s, t).0, Receive(s, t).1.value;
    var same := s.day == Some(IstDay(t.ts));
    var ps := before + [p];
    WeighPrint(before, p, if same then s.pv else 0.0, if same then s.v else 0.0, p.price * p.qty);
    assert ps[..|before| + 1] == ps;
    assert s1.pv == (if same then s.pv else 0.0) + p.price * p.qty;
    if s1.v > 0.0 {
      WeighedIsTraded(ps, IstDay(t.ts), s1.pv, s1.v);
    } else {
      assert ps[|before|].price <= t.ltp <= ps[|before|].price;
    }
  }
}
