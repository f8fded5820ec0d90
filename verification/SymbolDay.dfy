/** What each tick of a day carries into the bars, said on the raw frames alone: the day extremes it
    recovers, its quantity, and the context it stamps. It holds on every run, whatever the order of
    days; a day starts again whenever the frames leave it. */
module SymbolDay {
  import opened Wrappers
  import opened Session
  import opened Bars
  import opened Rollup
  import opened SymbolFeed
  import opened SymbolLaws

  /** Frames `j` to `k` are all of the day of frame `k`. */
  predicate SameDay(ts: seq<RawTick>, j: int, k: int)
    requires 0 <= j <= k < |ts|
  {
    forall m :: j <= m <= k ==> IstDay(ts[m].ts) == IstDay(ts[k].ts)
  }

  /** An earlier frame of the day carried a day high. */
  predicate HighSeen(ts: seq<RawTick>, k: int)
    requires 0 <= k < |ts|
  {
    exists j :: 0 <= j < k && SameDay(ts, j, k) && ts[j].high > 0.0
  }

  predicate LowSeen(ts: seq<RawTick>, k: int)
    requires 0 <= k < |ts|
  {
    exists j :: 0 <= j < k && SameDay(ts, j, k) && ts[j].low > 0.0
  }

  /** Frame `k` moved the day's high past every earlier one of the day. */
  predicate RaisesHigh(ts: seq<RawTick>, k: int)
    requires 0 <= k < |ts|
  {
    && ts[k].high > 0.0 && HighSeen(ts, k)
    && forall j :: 0 <= j < k && SameDay(ts, j, k) ==> ts[j].high < ts[k].high
  }

  predicate LowersLow(ts: seq<RawTick>, k: int)
    requires 0 <= k < |ts|
  {
    && ts[k].low > 0.0 && LowSeen(ts, k)
    && forall j :: 0 <= j < k && SameDay(ts, j, k) && ts[j].low > 0.0 ==> ts[k].low < ts[j].low
  }

  /** The cumulative total counted from: the last one of the day before, or where the day starts. */
  function TotalBefore(feed: Feed, ts: seq<RawTick>, day: int): Option<int> {
    if ts == [] || IstDay(ts[|ts| - 1].ts) != day then
      if feed.connectedSince <= SessionOpen(feed.segment, day) then Some(0) else None
    else if ts[|ts| - 1].totalQty > 0 then Some(ts[|ts| - 1].totalQty)
    else TotalBefore(feed, ts[..|ts| - 1], day)
  }

  /** The previous close given by the first frame of the latest day that gave one. */
  function PrevCloseOf(ts: seq<RawTick>): Option<real> {
    if ts == [] then None
    else
      var n := |ts| - 1;
      var first := n == 0 || IstDay(ts[n - 1].ts) != IstDay(ts[n].ts);
      if first && ts[n].prevClose > 0.0 then Some(ts[n].prevClose) else PrevCloseOf(ts[..n])
  }

  /** Value and volume traded since the day began. */
  function ValueSince(ps: seq<Print>, day: int): real {
    if ps == [] || IstDay(ps[|ps| - 1].ts) != day then 0.0
    else ValueSince(ps[..|ps| - 1], day) + ps[|ps| - 1].price * ps[|ps| - 1].qty
  }

  function VolumeSince(ps: seq<Print>, day: int): real {
    if ps == [] || IstDay(ps[|ps| - 1].ts) != day then 0.0
    else VolumeSince(ps[..|ps| - 1], day) + ps[|ps| - 1].qty
  }

  function LastOi(es: seq<RawEvent>): Option<OpenInterest> {
    if es == [] then None else if es[|es| - 1].SetOi? then Some(es[|es| - 1].oi) else LastOi(es[..|es| - 1])
  }

  /** The `k`-th print recovers exactly the extremes its frame moved. */
  ghost predicate RecoversExtremes(ts: seq<RawTick>, ps: seq<Print>, k: int)
    requires 0 <= k < |ts| == |ps|
  {
    && (forall h :: ps[k].newHigh == Some(h) <==> h == ts[k].high && RaisesHigh(ts, k))
    && (forall l :: ps[k].newLow == Some(l) <==> l == ts[k].low && LowersLow(ts, k))
  }

  /** Without a total a frame brings its own last quantity; with one, what the total grew by. */
  predicate BringsQuantity(feed: Feed, ts: seq<RawTick>, ps: seq<Print>, k: int)
    requires 0 <= k < |ts| == |ps|
  {
    var base := TotalBefore(feed, ts[..k], IstDay(ts[k].ts));
    ps[k].qty ==
      if ts[k].totalQty <= 0 then ts[k].lastQty as real
      else if base.None? then 0.0
      else MaxInt(0, ts[k].totalQty - base.value) as real
  }

  /** The stamped VWAP is the day's value over its volume, this print included. */
  predicate StampsContext(ts: seq<RawTick>, ps: seq<Print>, k: int)
    requires 0 <= k < |ts| == |ps|
  {
    var day := IstDay(ps[k].ts);
    var value, volume := ValueSince(ps[..k + 1], day), VolumeSince(ps[..k + 1], day);
    && ps[k].context.vwap == Some(if volume > 0.0 then value / volume else ps[k].price)
    && ps[k].context.prevClose == PrevCloseOf(ts[..k + 1])
  }

  ghost predicate CarriesRight(feed: Feed, ts: seq<RawTick>, ps: seq<Print>, k: int)
    requires 0 <= k < |ts| == |ps|
  {
    RecoversExtremes(ts, ps, k) && BringsQuantity(feed, ts, ps, k) && StampsContext(ts, ps, k)
  }

  // ---- what the symbol knows ------------------------------------------------------------------

  /** The day's high so far, zero while no frame of the day carried one. */
  predicate KnowsHigh(ts: seq<RawTick>, high: real)
    requires ts != []
  {
    var k := |ts| - 1;
    && high >= 0.0
    && (forall j :: 0 <= j <= k && SameDay(ts, j, k) && ts[j].high > 0.0 ==> ts[j].high <= high)
    && (high > 0.0 ==> exists j :: 0 <= j <= k && SameDay(ts, j, k) && ts[j].high == high)
  }

  predicate KnowsLow(ts: seq<RawTick>, low: real)
    requires ts != []
  {
    var k := |ts| - 1;
    && low >= 0.0
    && (forall j :: 0 <= j <= k && SameDay(ts, j, k) && ts[j].low > 0.0 ==> 0.0 < low <= ts[j].low)
    && (low > 0.0 ==> exists j :: 0 <= j <= k && SameDay(ts, j, k) && ts[j].low == low)
  }

  predicate Knows(s: SymbolValue, ts: seq<RawTick>, ps: seq<Print>) {
    && s.prevClose == PrevCloseOf(ts)
    && |ts| == |ps| && (forall i :: 0 <= i < |ts| ==> ps[i].ts == ts[i].ts)
    && (if ts == [] then s.day == None
        else
          var day := IstDay(ts[|ts| - 1].ts);
          && s.day == Some(day)
          && KnowsHigh(ts, s.dayHigh) && KnowsLow(ts, s.dayLow)
          && s.lastTotal == TotalBefore(s.feed, ts, day)
          && s.pv == ValueSince(ps, day) && s.v == VolumeSince(ps, day))
  }

  /** What one accepted frame does to the symbol, field by field. */
  lemma ReceiveMoves(s: SymbolValue, t: RawTick)
    requires Accepted(s.feed.segment, t)
    ensures var (s1, p) := Receive(s, t); var day := IstDay(t.ts);
      var same := s.day == Some(day);
      var high, low := if same then s.dayHigh else 0.0, if same then s.dayLow else 0.0;
      var base := if same then s.lastTotal
        else if s.feed.connectedSince <= SessionOpen(s.feed.segment, day) then Some(0) else None;
      && s1.day == Some(day) && s1.feed == s.feed
      && s1.dayHigh == (if t.high > 0.0 then Max(high, t.high) else high)
      && s1.dayLow == (if t.low <= 0.0 then low else if low <= 0.0 then t.low else Min(low, t.low))
      && p.value.newHigh == (if t.high > 0.0 && high > 0.0 && t.high > high then Some(t.high) else None)
      && p.value.newLow == (if t.low > 0.0 && low > 0.0 && t.low < low then Some(t.low) else None)
      && s1.lastTotal == (if t.totalQty > 0 then Some(t.totalQty) else base)
      && p.value.qty == (if t.totalQty <= 0 then t.lastQty as real
           else if base.None? then 0.0 else MaxInt(0, t.totalQty - base.value) as real)
      && s1.prevClose == (if !same && t.prevClose > 0.0 then Some(t.prevClose) else s.prevClose)
      && p.value.context.prevClose == s1.prevClose && p.value.context.oi == s.oi && s1.oi == s.oi
  {
    hide InSession, IstDay, SessionOpen;
  }

  lemma SameDayGrows(ts: seq<RawTick>, t: RawTick, j: int)
    requires ts != [] && 0 <= j < |ts|
    ensures SameDay(ts + [t], j, |ts|) <==>
      IstDay(ts[|ts| - 1].ts) == IstDay(t.ts) && SameDay(ts, j, |ts| - 1)
  {
    hide IstDay;
    var more := ts + [t];
    assert forall m :: 0 <= m < |ts| ==> more[m] == ts[m];
    if SameDay(more, j, |ts|) {
      assert IstDay(more[|ts| - 1].ts) == IstDay(t.ts);
      forall m | j <= m <= |ts| - 1 ensures IstDay(ts[m].ts) == IstDay(ts[|ts| - 1].ts) {
        assert IstDay(more[m].ts) == IstDay(t.ts);
      }
    }
  }

  lemma HighMoves(ts: seq<RawTick>, t: RawTick, high: real)
    requires ts == [] ==> high == 0.0
    requires ts != [] ==> if IstDay(ts[|ts| - 1].ts) == IstDay(t.ts) then KnowsHigh(ts, high) else high == 0.0
    ensures RaisesHigh(ts + [t], |ts|) <==> t.high > 0.0 && high > 0.0 && t.high > high
    ensures KnowsHigh(ts + [t], if t.high > 0.0 then Max(high, t.high) else high)
  {
    hide IstDay, SameDay;
    var more, n := ts + [t], |ts|;
    assert SameDay(more, n, n) by { SameDayAlone(more, n); }
    forall j | 0 <= j < n
      ensures SameDay(more, j, n) <==> IstDay(ts[n - 1].ts) == IstDay(t.ts) && SameDay(ts, j, n - 1)
    {
      SameDayGrows(ts, t, j);
    }
    assert forall j :: 0 <= j < n ==> more[j] == ts[j];
    if high > 0.0 {
      var j :| 0 <= j < n && SameDay(ts, j, n - 1) && ts[j].high == high;
      assert SameDay(more, j, n) && more[j].high == high;
    }
    assert more[n].high == t.high;
  }

  lemma LowMoves(ts: seq<RawTick>, t: RawTick, low: real)
    requires ts == [] ==> low == 0.0
    requires ts != [] ==> if IstDay(ts[|ts| - 1].ts) == IstDay(t.ts) then KnowsLow(ts, low) else low == 0.0
    ensures LowersLow(ts + [t], |ts|) <==> t.low > 0.0 && low > 0.0 && t.low < low
    ensures KnowsLow(ts + [t], if t.low <= 0.0 then low else if low <= 0.0 then t.low else Min(low, t.low))
  {
    hide IstDay, SameDay;
    var more, n := ts + [t], |ts|;
    assert SameDay(more, n, n) by { SameDayAlone(more, n); }
    forall j | 0 <= j < n
      ensures SameDay(more, j, n) <==> IstDay(ts[n - 1].ts) == IstDay(t.ts) && SameDay(ts, j, n - 1)
    {
      SameDayGrows(ts, t, j);
    }
    assert forall j :: 0 <= j < n ==> more[j] == ts[j];
    if low > 0.0 {
      var j :| 0 <= j < n && SameDay(ts, j, n - 1) && ts[j].low == low;
      assert SameDay(more, j, n) && more[j].low == low;
    }
    assert more[n].low == t.low;
  }

  lemma SameDayAlone(ts: seq<RawTick>, k: int)
    requires 0 <= k < |ts|
    ensures SameDay(ts, k, k)
  {
  }

  lemma SumsGrow(ps: seq<Print>, p: Print)
    ensures var day := IstDay(p.ts);
      && ValueSince(ps + [p], day) == ValueSince(ps, day) + p.price * p.qty
      && VolumeSince(ps + [p], day) == VolumeSince(ps, day) + p.qty
  {
    hide IstDay;
    assert (ps + [p])[..|ps|] == ps;
  }

  /** One accepted frame: its print carries what it should, and the symbol knows the frame. */
  lemma ReceiveKnows(s: SymbolValue, ts: seq<RawTick>, ps: seq<Print>, t: RawTick)
    requires Knows(s, ts, ps) && Accepted(s.feed.segment, t)
    ensures var (s1, p) := Receive(s, t);
      && Knows(s1, ts + [t], ps + [p.value]) && CarriesRight(s.feed, ts + [t], ps + [p.value], |ts|)
  {
    hide Accepted, Receive, Knows, RecoversExtremes, BringsQuantity, StampsContext;
    ReceiveKeepsFeed(s, t);
    RecoversNow(s, ts, ps, t);
    BringsNow(s, ts, ps, t);
    StampsNow(s, ts, ps, t);
    KnowsNow(s, ts, ps, t);
  }

  lemma RecoversNow(s: SymbolValue, ts: seq<RawTick>, ps: seq<Print>, t: RawTick)
    requires Knows(s, ts, ps) && Accepted(s.feed.segment, t)
    ensures RecoversExtremes(ts + [t], ps + [Receive(s, t).1.value], |ts|)
  {
    hide Accepted, Receive, IstDay, KnowsHigh, KnowsLow, RaisesHigh, LowersLow, SessionOpen;
    hide TotalBefore, PrevCloseOf, ValueSince, VolumeSince;
    ReceiveMoves(s, t);
    var same := s.day == Some(IstDay(t.ts));
    HighMoves(ts, t, if same then s.dayHigh else 0.0);
    LowMoves(ts, t, if same then s.dayLow else 0.0);
  }

  lemma BringsNow(s: SymbolValue, ts: seq<RawTick>, ps: seq<Print>, t: RawTick)
    requires Knows(s, ts, ps) && Accepted(s.feed.segment, t)
    ensures BringsQuantity(s.feed, ts + [t], ps + [Receive(s, t).1.value], |ts|)
  {
    hide Accepted, Receive, IstDay, KnowsHigh, KnowsLow, SessionOpen, PrevCloseOf, ValueSince, VolumeSince;
    ReceiveMoves(s, t);
    assert (ts + [t])[..|ts|] == ts;
  }

  lemma StampsNow(s: SymbolValue, ts: seq<RawTick>, ps: seq<Print>, t: RawTick)
    requires Knows(s, ts, ps) && Accepted(s.feed.segment, t)
    ensures StampsContext(ts + [t], ps + [Receive(s, t).1.value], |ts|)
  {
    hide Accepted, Receive, IstDay, KnowsHigh, KnowsLow, SessionOpen, TotalBefore, PrevCloseOf, ValueSince, VolumeSince;
    ReceiveBooks(s, t);
    ReceiveMoves(s, t);
    ReceiveKeepsFeed(s, t);
    var p := Receive(s, t).1.value;
    SumsSeen(s, ts, ps, t);
    PrevCloseSeen(s, ts, ps, t);
    assert (ts + [t])[..|ts| + 1] == ts + [t] && (ps + [p])[..|ps| + 1] == ps + [p];
  }

  lemma SumsSeen(s: SymbolValue, ts: seq<RawTick>, ps: seq<Print>, t: RawTick)
    requires Knows(s, ts, ps) && Accepted(s.feed.segment, t)
    ensures var (s1, p) := Receive(s, t);
      s1.pv == ValueSince(ps + [p.value], IstDay(t.ts)) && s1.v == VolumeSince(ps + [p.value], IstDay(t.ts))
  {
    hide Accepted, Receive, IstDay, KnowsHigh, KnowsLow, SessionOpen, TotalBefore, PrevCloseOf;
    ReceiveBooks(s, t);
    ReceiveKeepsFeed(s, t);
    var p, day := Receive(s, t).1.value, IstDay(t.ts);
    SumsGrow(ps, p);
    if s.day != Some(day) {
      assert ValueSince(ps, day) == 0.0 && VolumeSince(ps, day) == 0.0;
    }
    assert p.price * p.qty == t.ltp * p.qty;
  }

  lemma PrevCloseSeen(s: SymbolValue, ts: seq<RawTick>, ps: seq<Print>, t: RawTick)
    requires Knows(s, ts, ps) && Accepted(s.feed.segment, t)
    ensures Receive(s, t).0.prevClose == PrevCloseOf(ts + [t])
  {
    hide Accepted, Receive, IstDay, KnowsHigh, KnowsLow, SessionOpen, TotalBefore, ValueSince, VolumeSince;
    ReceiveMoves(s, t);
    assert (ts + [t])[..|ts|] == ts;
  }

  lemma KnowsNow(s: SymbolValue, ts: seq<RawTick>, ps: seq<Print>, t: RawTick)
    requires Knows(s, ts, ps) && Accepted(s.feed.segment, t)
    ensures Knows(Receive(s, t).0, ts + [t], ps + [Receive(s, t).1.value])
  {
    hide Accepted, Receive, IstDay, KnowsHigh, KnowsLow, RaisesHigh, LowersLow, SessionOpen;
    hide TotalBefore, PrevCloseOf, ValueSince, VolumeSince;
    ReceiveMoves(s, t);
    ReceiveKeepsFeed(s, t);
    TotalSeen(s, ts, ps, t);
    var same := s.day == Some(IstDay(t.ts));
    HighMoves(ts, t, if same then s.dayHigh else 0.0);
    LowMoves(ts, t, if same then s.dayLow else 0.0);
    SumsSeen(s, ts, ps, t);
    PrevCloseSeen(s, ts, ps, t);
  }

  lemma TotalSeen(s: SymbolValue, ts: seq<RawTick>, ps: seq<Print>, t: RawTick)
    requires Knows(s, ts, ps) && Accepted(s.feed.segment, t)
    ensures Receive(s, t).0.lastTotal == TotalBefore(s.feed, ts + [t], IstDay(t.ts))
  {
    hide Accepted, Receive, IstDay, KnowsHigh, KnowsLow, SessionOpen, PrevCloseOf, ValueSince, VolumeSince;
    ReceiveMoves(s, t);
    assert (ts + [t])[..|ts|] == ts;
  }

  lemma CarriesInPrefix(feed: Feed, ts: seq<RawTick>, ps: seq<Print>, t: RawTick, p: Print, k: int)
    requires 0 <= k < |ts| == |ps| && CarriesRight(feed, ts, ps, k)
    ensures CarriesRight(feed, ts + [t], ps + [p], k)
  {
    hide IstDay, TotalBefore, PrevCloseOf, ValueSince, VolumeSince;
    var frames, prints := ts + [t], ps + [p];
    assert frames[..k] == ts[..k] && frames[..k + 1] == ts[..k + 1] && prints[..k + 1] == ps[..k + 1];
    assert forall j :: 0 <= j <= k ==> frames[j] == ts[j];
    assert forall j :: 0 <= j <= k ==> SameDay(frames, j, k) == SameDay(ts, j, k);
    assert HighSeen(frames, k) == HighSeen(ts, k) && LowSeen(frames, k) == LowSeen(ts, k);
    assert RaisesHigh(frames, k) == RaisesHigh(ts, k) && LowersLow(frames, k) == LowersLow(ts, k);
  }

  /** On every run: each tick recovers the day's high exactly when its frame moved it past every one
      seen before that day, and the low likewise; brings exactly its own quantity; and stamps the
      day's VWAP and previous close. */
  lemma {:induction false} TicksCarryRight(feed: Feed, es: seq<RawEvent>)
    ensures var ts, ps := AcceptedTicks(feed, es), Ticks(Trace(feed, es));
      && Knows(State(feed, es), ts, ps)
      && forall k :: 0 <= k < |ts| ==> CarriesRight(feed, ts, ps, k)
    decreases |es|
  {
    assert es == [] ==> Knows(NewSymbol(feed), [], []);
    hide Accepted, Receive, IstDay, Knows, CarriesRight;
    if es != [] {
      var n := |es| - 1;
      TicksCarryRight(feed, es[..n]);
      TraceIsAccepted(feed, es[..n]);
      TraceIsAccepted(feed, es);
      var s, ts, ps := State(feed, es[..n]), AcceptedTicks(feed, es[..n]), Ticks(Trace(feed, es[..n]));
      if es[n].Raw? {
        ReceiveKeepsFeed(s, es[n].t);
      }
      if es[n].Raw? && Accepted(feed.segment, es[n].t) {
        assert Trace(feed, es)[..|Trace(feed, es)| - 1] == Trace(feed, es[..n]);
        FrameCarries(s, ts, ps, es[n].t);
      } else {
        SameTicks(feed, es);
        StillKnows(s, State(feed, es), ts, ps);
      }
    }
  }

  lemma FrameCarries(s: SymbolValue, ts: seq<RawTick>, ps: seq<Print>, t: RawTick)
    requires Knows(s, ts, ps) && Accepted(s.feed.segment, t) && |ts| == |ps|
    requires forall k :: 0 <= k < |ts| ==> CarriesRight(s.feed, ts, ps, k)
    ensures var (s1, p) := Receive(s, t);
      && Knows(s1, ts + [t], ps + [p.value])
      && forall k :: 0 <= k <= |ts| ==> CarriesRight(s.feed, ts + [t], ps + [p.value], k)
  {
    hide Accepted, Receive, Knows, CarriesRight;
    ReceiveKeepsFeed(s, t);
    ReceiveKnows(s, ts, ps, t);
    forall k | 0 <= k < |ts| ensures CarriesRight(s.feed, ts + [t], ps + [Receive(s, t).1.value], k) {
      CarriesInPrefix(s.feed, ts, ps, t, Receive(s, t).1.value, k);
    }
  }

  lemma StillKnows(s: SymbolValue, s1: SymbolValue, ts: seq<RawTick>, ps: seq<Print>)
    requires Knows(s, ts, ps) && s1 == s.(ticks := s1.ticks, oi := s1.oi)
    ensures Knows(s1, ts, ps)
  {
  }

  lemma {:induction false} OiIsLast(feed: Feed, es: seq<RawEvent>)
    ensures State(feed, es).oi == LastOi(es) && State(feed, es).feed == feed
  {
    hide Accepted, Receive;
    if es != [] {
      var n := |es| - 1;
      OiIsLast(feed, es[..n]);
      if es[n].Raw? {
        ReceiveKeepsOi(State(feed, es[..n]), es[n].t);
      }
    }
  }

  lemma ReceiveKeepsOi(s: SymbolValue, t: RawTick)
    ensures var (s1, p) := Receive(s, t);
      s1.oi == s.oi && s1.feed == s.feed && (p.Some? ==> p.value.context.oi == s.oi)
  {
    hide InSession, IstDay, SessionOpen;
  }

  /** A tick is stamped with the open interest last set before it. */
  lemma StampsLastOi(feed: Feed, es: seq<RawEvent>, t: RawTick)
    requires Accepted(feed.segment, t)
    ensures var after := Trace(feed, es + [Raw(t)]);
      after != [] && after[|after| - 1].Tick? && after[|after| - 1].p.context.oi == LastOi(es)
  {
    hide InSession, Receive;
    OiIsLast(feed, es);
    ReceiveKeepsOi(State(feed, es), t);
    ReceiveKeepsFeed(State(feed, es), t);
    assert (es + [Raw(t)])[..|es|] == es;
  }

  /** The tick counter counts the frames that carry a price, in session or not. */
  function Priced(es: seq<RawEvent>): nat {
    if es == [] then 0
    else Priced(es[..|es| - 1]) + if es[|es| - 1].Raw? && es[|es| - 1].t.ltp > 0.0 then 1 else 0
  }

  lemma {:induction false} TicksAreCounted(feed: Feed, es: seq<RawEvent>)
    ensures State(feed, es).ticks == Priced(es)
  {
    hide Receive;
    if es != [] {
      var n := |es| - 1;
      TicksAreCounted(feed, es[..n]);
      if es[n].Raw? {
        ReceiveCountsTick(State(feed, es[..n]), es[n].t);
      }
    }
  }

  lemma ReceiveCountsTick(s: SymbolValue, t: RawTick)
    ensures Receive(s, t).0.ticks == s.ticks + if t.ltp > 0.0 then 1 else 0
  {
    hide InSession, IstDay, SessionOpen;
  }
}
