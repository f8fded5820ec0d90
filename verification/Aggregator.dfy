/** The aggregator itself: symbol states updated per tick, forming bars in the store, and the two
    places that close a bar. Its ghost fields record what every instrument received and what every
    series went through; the methods are proved to do exactly what the run functions say. */
module AggregatorModel {
  import opened Wrappers
  import opened Session
  import opened Bars
  import opened Rollup
  import opened RollupLaws
  import opened SymbolFeed
  import opened SymbolLaws
  import opened Series
  import opened Store

  const TIMEFRAMES: seq<Timeframe> := [M1, M2, M3, M5, M15, M30, D1]

  class SymbolState {
    const feed: Feed
    var lastTotalQty: Option<int>
    var day: Option<int>
    var sessionPv: real
    var sessionV: real
    var prevClose: Option<real>
    var oi: Option<OpenInterest>
    var ticks: nat
    var dayHigh: real
    var dayLow: real

    ghost function Value(): SymbolValue
      reads this
    {
      SymbolValue(feed, lastTotalQty, day, sessionPv, sessionV, prevClose, oi, ticks, dayHigh, dayLow)
    }

    constructor (feed: Feed)
      ensures this.feed == feed && Value() == NewSymbol(feed)
    {
      this.feed := feed;
      lastTotalQty, day, sessionPv, sessionV, prevClose, oi, ticks := None, None, 0.0, 0.0, None, None, 0;
      dayHigh, dayLow := 0.0, 0.0;
    }

    method RollDay(day: int, t: RawTick)
      modifies this
      ensures Value() == SymbolFeed.RollDay(old(Value()), day, t)
    {
      this.day := Some(day);
      sessionPv, sessionV := 0.0, 0.0;
      dayHigh, dayLow := 0.0, 0.0;
      var atOpen := SessionOpen(feed.segment, day);
      lastTotalQty := if feed.connectedSince <= atOpen then Some(0) else None;
      prevClose := if t.prevClose > 0.0 then Some(t.prevClose) else prevClose;
    }

    method VolumeDelta(t: RawTick) returns (qty: real)
      modifies this
      ensures (Value(), qty) == SymbolFeed.VolumeDelta(old(Value()), t)
    {
      if t.totalQty <= 0 {
        return t.lastQty as real;
      }
      if lastTotalQty.None? {
        lastTotalQty := Some(t.totalQty);
        return 0.0;
      }
      if t.totalQty < lastTotalQty.value {
        lastTotalQty := Some(t.totalQty);
        return 0.0;
      }
      var delta := t.totalQty - lastTotalQty.value;
      lastTotalQty := Some(t.totalQty);
      return delta as real;
    }

    method DayExtremeMoves(t: RawTick) returns (newHigh: Option<real>, newLow: Option<real>)
      modifies this
      ensures (Value(), newHigh, newLow) == DayExtremes(old(Value()), t)
    {
      newHigh, newLow := None, None;
      if t.high > 0.0 {
        if dayHigh > 0.0 && t.high > dayHigh {
          newHigh := Some(t.high);
        }
        dayHigh := Max(dayHigh, t.high);
      }
      if t.low > 0.0 {
        if dayLow > 0.0 && t.low < dayLow {
          newLow := Some(t.low);
        }
        dayLow := if dayLow <= 0.0 then t.low else Min(dayLow, t.low);
      }
    }

    /** Everything a tick does to the symbol before it reaches the bars. */
    method Receive(t: RawTick) returns (p: Option<Print>)
      modifies this
      ensures (Value(), p) == SymbolFeed.Receive(old(Value()), t)
    {
      hide InSession, IstDay, SymbolFeed.RollDay, SymbolFeed.VolumeDelta, DayExtremes;
      if t.ltp <= 0.0 {
        return None;
      }
      ticks := ticks + 1;
      if !InSession(feed.segment, t.ts) {
        return None;
      }
      if day != Some(IstDay(t.ts)) {
        RollDay(IstDay(t.ts), t);
      }
      var qty := VolumeDelta(t);
      var newHigh, newLow := DayExtremeMoves(t);
      ghost var counted := Value();
      sessionPv := sessionPv + t.ltp * qty;
      sessionV := sessionV + qty;
      var vwap := if sessionV > 0.0 then sessionPv / sessionV else t.ltp;
      p := Some(Print(t.ts, t.ltp, qty, newHigh, newLow, Context(Some(vwap), prevClose, oi)));
      assert Value() == Book(counted, t, qty, newHigh, newLow).0;
      assert p.value == Book(counted, t, qty, newHigh, newLow).1;
    }
  }

  lemma {:induction false} FormingKeyed(feed: Feed, tf: Timeframe, es: seq<Event>)
    ensures var f := Run(feed, tf, es).forming;
      f.Some? ==> KeyOf(f.value) == Key(feed.symbol, tf)
  {
    hide BucketStart, BucketEnd;
    if es != [] {
      FormingKeyed(feed, tf, es[..|es| - 1]);
    }
  }

  lemma RunAppend(feed: Feed, tf: Timeframe, es: seq<Event>, e: Event)
    ensures Run(feed, tf, es + [e]) == Step(feed, tf, Run(feed, tf, es), e)
  {
    assert (es + [e])[..|es|] == es;
  }

  lemma LifeAppend(feed: Feed, es: seq<RawEvent>, e: RawEvent)
    requires State(feed, es).feed == feed
    ensures e.Raw? ==>
      && State(feed, es + [e]) == SymbolFeed.Receive(State(feed, es), e.t).0
      && var p := SymbolFeed.Receive(State(feed, es), e.t).1;
         Trace(feed, es + [e]) == if p.Some? then Trace(feed, es) + [Tick(p.value)] else Trace(feed, es)
    ensures e.Clock? ==>
      State(feed, es + [e]) == State(feed, es) && Trace(feed, es + [e]) == Trace(feed, es) + [Flush(e.now)]
    ensures e.SetOi? ==>
      State(feed, es + [e]) == State(feed, es).(oi := Some(e.oi)) && Trace(feed, es + [e]) == Trace(feed, es)
  {
    hide SymbolFeed.Receive;
    assert (es + [e])[..|es|] == es;
  }

  lemma {:induction false} EmittedComplete(feed: Feed, tf: Timeframe, es: seq<Event>)
    ensures forall i :: 0 <= i < |Run(feed, tf, es).emitted| ==> Run(feed, tf, es).emitted[i].complete
  {
    hide BucketStart, BucketEnd, FirstBar, Absorb;
    if es != [] {
      EmittedComplete(feed, tf, es[..|es| - 1]);
    }
  }

  lemma EmittedAscends(l: Line)
    requires Ascending(Produced(l))
    ensures Ascending(l.emitted)
  {
    assert forall i :: 0 <= i < |l.emitted| ==> Produced(l)[i] == l.emitted[i];
  }

  lemma NewLife(feed: Feed)
    ensures State(feed, []) == NewSymbol(feed) && Trace(feed, []) == []
  {
  }

  /** The series is exactly where its events lead. */
  predicate Matches(feed: Feed, tf: Timeframe, es: seq<Event>, emitted: seq<Bar>, forming: map<Key, Bar>) {
    var l, key := Run(feed, tf, es), Key(feed.symbol, tf);
    emitted == l.emitted && l.forming == if key in forming then Some(forming[key]) else None
  }

  type Traces = map<(string, Timeframe), seq<Event>>
  type Emissions = map<(string, Timeframe), seq<Bar>>

  predicate DistinctSymbols(feeds: map<string, Feed>) {
    forall c, d :: c in feeds && d in feeds && c != d ==> feeds[c].symbol != feeds[d].symbol
  }

  function At<V>(m: map<(string, Timeframe), seq<V>>, k: (string, Timeframe)): seq<V> {
    if k in m then m[k] else []
  }

  predicate SeriesMatches(feeds: map<string, Feed>, c: string, tf: Timeframe, trace: Traces, emitted: Emissions,
                          forming: map<Key, Bar>)
    requires c in feeds
  {
    Matches(feeds[c], tf, At(trace, (c, tf)), At(emitted, (c, tf)), forming)
  }

  predicate AllMatch(feeds: map<string, Feed>, trace: Traces, emitted: Emissions, forming: map<Key, Bar>) {
    forall c, tf :: c in feeds && tf in TIMEFRAMES ==> SeriesMatches(feeds, c, tf, trace, emitted, forming)
  }

  lemma OneMatches(feeds: map<string, Feed>, c: string, tf: Timeframe, trace: Traces, emitted: Emissions,
                   forming: map<Key, Bar>)
    requires c in feeds && tf in TIMEFRAMES && AllMatch(feeds, trace, emitted, forming)
    ensures SeriesMatches(feeds, c, tf, trace, emitted, forming)
  {
  }

  /** Nothing is recorded or forming for an instrument that is not tracked. */
  ghost predicate OnlyTracked(feeds: map<string, Feed>, trace: Traces, emitted: Emissions, forming: map<Key, Bar>) {
    && (forall k :: k in trace ==> k.0 in feeds)
    && (forall k :: k in emitted ==> k.0 in feeds)
    && (forall key :: key in forming ==> exists c :: c in feeds && feeds[c].symbol == key.symbol)
  }

  lemma StillOnlyTracked(feeds: map<string, Feed>, c: string, tf: Timeframe, trace: Traces, es: seq<Event>,
                         emitted: Emissions, emitted': Emissions, forming: map<Key, Bar>, forming': map<Key, Bar>)
    requires c in feeds && OnlyTracked(feeds, trace, emitted, forming)
    requires emitted' == emitted || emitted' == emitted[(c, tf) := At(emitted', (c, tf))]
    requires forming - {Key(feeds[c].symbol, tf)} == forming' - {Key(feeds[c].symbol, tf)}
    ensures OnlyTracked(feeds, trace[(c, tf) := es], emitted', forming')
  {
    forall key | key in forming' ensures exists c :: c in feeds && feeds[c].symbol == key.symbol {
      if key == Key(feeds[c].symbol, tf) {
        assert feeds[c].symbol == key.symbol;
      } else {
        KeptElsewhere(forming, forming', Key(feeds[c].symbol, tf), key);
      }
    }
  }

  lemma TrackOne(feeds: map<string, Feed>, feed: Feed, trace: Traces, emitted: Emissions, forming: map<Key, Bar>)
    requires feed.scripCode !in feeds && forall c :: c in feeds ==> feeds[c].symbol != feed.symbol
    requires DistinctSymbols(feeds)
    requires OnlyTracked(feeds, trace, emitted, forming) && AllMatch(feeds, trace, emitted, forming)
    ensures var more := feeds[feed.scripCode := feed];
      DistinctSymbols(more) && OnlyTracked(more, trace, emitted, forming) && AllMatch(more, trace, emitted, forming)
    ensures forall tf :: At(trace, (feed.scripCode, tf)) == []
  {
    var more := feeds[feed.scripCode := feed];
    forall key | key in forming ensures exists c :: c in more && more[c].symbol == key.symbol {
      var c :| c in feeds && feeds[c].symbol == key.symbol;
      assert more[c].symbol == key.symbol;
    }
    forall d, u | d in more && u in TIMEFRAMES ensures SeriesMatches(more, d, u, trace, emitted, forming) {
      if d != feed.scripCode {
        assert SeriesMatches(feeds, d, u, trace, emitted, forming);
      }
    }
  }

  /** What one series did leaves every other series in step. */
  lemma OthersMatch(feeds: map<string, Feed>, c: string, tf: Timeframe, trace: Traces, es: seq<Event>,
                    emitted: Emissions, emitted': Emissions, forming: map<Key, Bar>, forming': map<Key, Bar>)
    requires c in feeds && DistinctSymbols(feeds) && AllMatch(feeds, trace, emitted, forming)
    requires emitted' == emitted || emitted' == emitted[(c, tf) := At(emitted', (c, tf))]
    requires forming - {Key(feeds[c].symbol, tf)} == forming' - {Key(feeds[c].symbol, tf)}
    requires Matches(feeds[c], tf, es, At(emitted', (c, tf)), forming')
    ensures AllMatch(feeds, trace[(c, tf) := es], emitted', forming')
  {
    hide Matches;
    forall d, u | d in feeds && u in TIMEFRAMES
      ensures SeriesMatches(feeds, d, u, trace[(c, tf) := es], emitted', forming')
    {
      if (d, u) != (c, tf) {
        assert SeriesMatches(feeds, d, u, trace, emitted, forming);
        assert At(emitted', (d, u)) == At(emitted, (d, u));
        KeptElsewhere(forming, forming', Key(feeds[c].symbol, tf), Key(feeds[d].symbol, u));
        SameFormingMatches(feeds[d], u, At(trace, (d, u)), At(emitted, (d, u)), forming, forming');
      }
    }
  }

  lemma SameFormingMatches(feed: Feed, tf: Timeframe, es: seq<Event>, emitted: seq<Bar>, forming: map<Key, Bar>,
                           after: map<Key, Bar>)
    requires Matches(feed, tf, es, emitted, forming)
    requires var key := Key(feed.symbol, tf);
      (key in forming <==> key in after) && (key in forming ==> forming[key] == after[key])
    ensures Matches(feed, tf, es, emitted, after)
  {
    hide Run;
  }

  lemma KeptElsewhere<K, V>(m: map<K, V>, n: map<K, V>, changed: K, k: K)
    requires m - {changed} == n - {changed} && k != changed
    ensures (k in m <==> k in n) && (k in m ==> m[k] == n[k])
  {
    assert k in m <==> k in m - {changed};
    assert k in n <==> k in n - {changed};
    if k in m {
      assert (m - {changed})[k] == (n - {changed})[k];
    }
  }

  lemma AbsorbKeepsKey(b: Bar, p: Print)
    ensures KeyOf(Absorb(b, p)) == KeyOf(b)
  {
  }

  /** A tick's outcome for one series, in the order the code works: late, absorbed into the forming
      bar, or closing what formed and opening a bar. */
  predicate TickOutcome(feed: Feed, tf: Timeframe, p: Print, done: seq<Bar>, forming: map<Key, Bar>, done': seq<Bar>,
                        forming': map<Key, Bar>)
  {
    var key, bucket := Key(feed.symbol, tf), BucketStart(feed.segment, p.ts, tf);
    if key !in forming then done' == done && forming' == forming[key := FirstBar(feed, tf, p)]
    else if bucket < forming[key].ts then done' == done && forming' == forming
    else if bucket == forming[key].ts then done' == done && forming' == forming[key := Absorb(forming[key], p)]
    else done' == done + [Completed(forming[key])] && forming' == (forming - {key})[key := FirstBar(feed, tf, p)]
  }

  lemma TickMatches(feed: Feed, tf: Timeframe, es: seq<Event>, p: Print, done: seq<Bar>, forming: map<Key, Bar>,
                    done': seq<Bar>, forming': map<Key, Bar>)
    requires Matches(feed, tf, es, done, forming)
    requires TickOutcome(feed, tf, p, done, forming, done', forming')
    ensures Matches(feed, tf, es + [Tick(p)], done', forming')
    ensures forming' - {Key(feed.symbol, tf)} == forming - {Key(feed.symbol, tf)}
  {
    hide BucketStart, Run, FirstBar, Absorb;
    RunAppend(feed, tf, es, Tick(p));
  }

  lemma FlushMatches(feed: Feed, tf: Timeframe, es: seq<Event>, now: int, done: seq<Bar>, forming: map<Key, Bar>,
                     done': seq<Bar>, forming': map<Key, Bar>)
    requires Matches(feed, tf, es, done, forming)
    requires var key := Key(feed.symbol, tf);
      if key in forming && BucketEnd(feed.segment, forming[key].ts, tf) <= now then
        done' == done + [Completed(forming[key])] && forming' == forming - {key}
      else done' == done && forming' == forming
    ensures Matches(feed, tf, es + [Flush(now)], done', forming')
    ensures forming' - {Key(feed.symbol, tf)} == forming - {Key(feed.symbol, tf)}
  {
    hide BucketEnd, Run;
    RunAppend(feed, tf, es, Flush(now));
  }

  lemma MatchesKeyed(feed: Feed, tf: Timeframe, es: seq<Event>, done: seq<Bar>, forming: map<Key, Bar>)
    requires Matches(feed, tf, es, done, forming) && Key(feed.symbol, tf) in forming
    ensures KeyOf(forming[Key(feed.symbol, tf)]) == Key(feed.symbol, tf)
  {
    hide Run;
    FormingKeyed(feed, tf, es);
  }

  // ---- what the store holds -------------------------------------------------------------------

  function SeriesIn(closed: map<Key, seq<Bar>>, key: Key): seq<Bar> { if key in closed then closed[key] else [] }

  predicate OneStored(max: nat, feeds: map<string, Feed>, c: string, tf: Timeframe, emitted: Emissions,
                      closed: map<Key, seq<Bar>>)
    requires c in feeds
  {
    SeriesIn(closed, Key(feeds[c].symbol, tf)) == StoreAll(max, At(emitted, (c, tf)))
  }

  /** Every series in the store is what closing its emitted bars left, and there is no other. */
  ghost predicate AllStored(max: nat, feeds: map<string, Feed>, emitted: Emissions, closed: map<Key, seq<Bar>>) {
    && (forall c, tf :: c in feeds && tf in TIMEFRAMES ==> OneStored(max, feeds, c, tf, emitted, closed))
    && (forall key :: key in closed ==> exists c :: c in feeds && feeds[c].symbol == key.symbol)
  }

  /** Nothing closed, or one bar of one series did, into the store and out to the callback. */
  ghost predicate ClosedStep(max: nat, key: Key, k: (string, Timeframe), before: Emissions, after: Emissions,
                             closed: map<Key, seq<Bar>>, closed': map<Key, seq<Bar>>) {
    || (after == before && closed' == closed)
    || exists bar :: after == before[k := At(before, k) + [Completed(bar)]]
         && closed' == closed[key := CloseSeries(max, SeriesIn(closed, key), bar)]
  }

  lemma StepStores(max: nat, feeds: map<string, Feed>, c: string, tf: Timeframe, before: Emissions, after: Emissions,
                   closed: map<Key, seq<Bar>>, closed': map<Key, seq<Bar>>)
    requires c in feeds && DistinctSymbols(feeds) && AllStored(max, feeds, before, closed)
    requires ClosedStep(max, Key(feeds[c].symbol, tf), (c, tf), before, after, closed, closed')
    ensures AllStored(max, feeds, after, closed')
  {
    hide CloseSeries, StoreAll;
    var key := Key(feeds[c].symbol, tf);
    if !(after == before && closed' == closed) {
      var bar :| after == before[(c, tf) := At(before, (c, tf)) + [Completed(bar)]]
        && closed' == closed[key := CloseSeries(max, SeriesIn(closed, key), bar)];
      forall d, u | d in feeds && u in TIMEFRAMES ensures OneStored(max, feeds, d, u, after, closed') {
        assert OneStored(max, feeds, d, u, before, closed);
        if (d, u) == (c, tf) {
          StoreAllAppend(max, At(before, (c, tf)), bar);
        } else {
          assert Key(feeds[d].symbol, u) != key;
        }
      }
      assert feeds[c].symbol == key.symbol;
    }
  }

  lemma TrackStores(max: nat, feeds: map<string, Feed>, feed: Feed, trace: Traces, emitted: Emissions,
                    forming: map<Key, Bar>, closed: map<Key, seq<Bar>>)
    requires feed.scripCode !in feeds && forall c :: c in feeds ==> feeds[c].symbol != feed.symbol
    requires AllStored(max, feeds, emitted, closed) && OnlyTracked(feeds, trace, emitted, forming)
    ensures AllStored(max, feeds[feed.scripCode := feed], emitted, closed)
  {
    assert StoreAll(max, []) == [];
    hide StoreAll;
    var more := feeds[feed.scripCode := feed];
    forall d, u | d in more && u in TIMEFRAMES ensures OneStored(max, more, d, u, emitted, closed) {
      if d != feed.scripCode {
        assert OneStored(max, feeds, d, u, emitted, closed);
      } else {
        assert Key(feed.symbol, u) !in closed;
      }
    }
    forall key | key in closed ensures exists c :: c in more && more[c].symbol == key.symbol {
      var c :| c in feeds && feeds[c].symbol == key.symbol;
      assert more[c].symbol == key.symbol;
    }
  }

  lemma ProducedFrom(feed: Feed, tf: Timeframe, es: seq<Event>, emitted: seq<Bar>, forming: map<Key, Bar>)
    requires Matches(feed, tf, es, emitted, forming)
    ensures var key := Key(feed.symbol, tf);
      Produced(Run(feed, tf, es)) == emitted + if key in forming then [Completed(forming[key])] else []
  {
    hide Run;
    assert emitted + [] == emitted;
  }

  lemma SomeRollUp(feed: Feed, coarse: Timeframe, l: Line, fines: seq<Bar>)
    requires AllRollUp(feed, coarse, Produced(l), fines)
    ensures AllRollUp(feed, coarse, l.emitted, fines)
  {
    hide RollsUpWithin;
    forall i | 0 <= i < |l.emitted| ensures RollsUpWithin(feed, coarse, l.emitted[i], fines) {
      assert Produced(l)[i] == l.emitted[i];
    }
  }

  lemma TrimRollsUp(feed: Feed, coarse: Timeframe, coarses: seq<Bar>, fines: seq<Bar>, max: nat)
    requires AllRollUp(feed, coarse, coarses, fines)
    ensures AllRollUp(feed, coarse, Trim(coarses, max), fines)
  {
    hide RollsUpWithin;
    var kept := Trim(coarses, max);
    forall i | 0 <= i < |kept| ensures RollsUpWithin(feed, coarse, kept[i], fines) {
      assert kept[i] == coarses[|coarses| - |kept| + i];
    }
  }

  lemma {:induction false} LineInHours(feed: Feed, tf: Timeframe, es: seq<Event>)
    requires InHours(feed.segment, es)
    ensures var l := Run(feed, tf, es);
      && (forall i :: 0 <= i < |l.emitted| ==> InSession(feed.segment, l.emitted[i].ts))
      && (l.forming.Some? ==> InSession(feed.segment, l.forming.value.ts))
  {
    hide InSession, BucketStart, BucketEnd;
    if es != [] {
      var n := |es| - 1;
      LineInHours(feed, tf, es[..n]);
      if es[n].Tick? {
        BucketSpan(feed.segment, es[n].p.ts, tf);
      }
    }
  }

  lemma {:induction false} WithinDropped(seg: Segment, coarse: Timeframe, bars: seq<Bar>, k: nat, bucket: int)
    requires k <= |bars| && forall i :: 0 <= i < k ==> BucketStart(seg, bars[i].ts, coarse) < bucket
    ensures Within(seg, coarse, bars[k..], bucket) == Within(seg, coarse, bars, bucket)
    decreases |bars|
  {
    hide BucketStart;
    if |bars| == k {
      WithinNone(seg, coarse, bars, bucket);
    } else {
      WithinDropped(seg, coarse, bars[..|bars| - 1], k, bucket);
      assert bars[k..][..|bars[k..]| - 1] == bars[..|bars| - 1][k..];
    }
  }

  /** No bar of the coarse one's bucket has been cut: it starts past the bucket of the oldest one held. */
  predicate WhollyHeld(feed: Feed, coarse: Timeframe, b: Bar, fines: seq<Bar>) {
    fines != [] && BucketStart(feed.segment, fines[0].ts, coarse) < b.ts
  }

  lemma CutRollsUp(feed: Feed, coarse: Timeframe, b: Bar, fines: seq<Bar>, max: nat)
    requires Ascending(fines) && forall i :: 0 <= i < |fines| ==> InSession(feed.segment, fines[i].ts)
    requires RollsUpWithin(feed, coarse, b, fines) && WhollyHeld(feed, coarse, b, Trim(fines, max))
    ensures RollsUpWithin(feed, coarse, b, Trim(fines, max))
  {
    hide BucketStart, BucketEnd, InSession, RollsUp, Within;
    var k := if |fines| > max then |fines| - max else 0;
    assert fines[k..] == Trim(fines, max);
    forall i | 0 <= i < k ensures BucketStart(feed.segment, fines[i].ts, coarse) < b.ts {
      BucketMonotone(feed.segment, fines[i].ts, fines[k].ts, coarse);
    }
    WithinDropped(feed.segment, coarse, fines, k, b.ts);
  }

  lemma TrimmedRollUp(feed: Feed, coarse: Timeframe, coarses: seq<Bar>, fines: seq<Bar>, max: nat)
    requires AllRollUp(feed, coarse, coarses, fines)
    requires Ascending(fines) && forall i :: 0 <= i < |fines| ==> InSession(feed.segment, fines[i].ts)
    ensures forall i :: 0 <= i < |coarses| && WhollyHeld(feed, coarse, coarses[i], Trim(fines, max)) ==>
      RollsUpWithin(feed, coarse, coarses[i], Trim(fines, max))
  {
    hide RollsUpWithin, InSession, WhollyHeld, Ascending;
    forall i | 0 <= i < |coarses| && WhollyHeld(feed, coarse, coarses[i], Trim(fines, max))
      ensures RollsUpWithin(feed, coarse, coarses[i], Trim(fines, max))
    {
      CutRollsUp(feed, coarse, coarses[i], fines, max);
    }
  }

  class Aggregator {
    const store: BarStore
    var state: map<string, SymbolState>
    var barsClosed: nat
    var partialBars: nat
    var lateTicks: nat
    /** What each instrument has received. */
    ghost var raw: map<string, seq<RawEvent>>
    /** What each series has gone through, and the bars handed to the close callback. */
    ghost var trace: map<(string, Timeframe), seq<Event>>
    ghost var emitted: map<(string, Timeframe), seq<Bar>>

    ghost function Feeds(): map<string, Feed>
      reads this`state
    {
      map c | c in state :: state[c].feed
    }

    /** Holds at every await: each series is where its own events lead. */
    ghost predicate Valid()
      reads this`state, this`trace, this`emitted, store
    {
      && (forall c :: c in state ==> state[c].feed.scripCode == c)
      && DistinctSymbols(Feeds())
      && OnlyTracked(Feeds(), trace, emitted, store.forming)
      && AllMatch(Feeds(), trace, emitted, store.forming)
    }

    /** Everything this instrument received has reached its state and all seven series. */
    ghost predicate InSync(c: string)
      requires c in state
      reads this`state, this`raw, this`trace, state[c]
    {
      && c in raw && state[c].Value() == State(state[c].feed, raw[c])
      && (forall tf :: tf in TIMEFRAMES ==> At(trace, (c, tf)) == Trace(state[c].feed, raw[c]))
    }

    /** Between calls, every instrument is in sync. */
    ghost predicate Settled()
      reads this, store, state.Values
    {
      Valid() && forall c :: c in state ==> InSync(c)
    }

    /** The store holds exactly what this aggregator closed into it. */
    ghost predicate OwnsStore()
      reads this`state, this`emitted, store
    {
      AllStored(store.maxBars, Feeds(), emitted, store.closed)
    }

    constructor (store: BarStore)
      requires store.forming == map[]
      ensures this.store == store && Settled() && state == map[]
      ensures store.closed == map[] ==> OwnsStore()
    {
      this.store := store;
      state := map[];
      barsClosed, partialBars, lateTicks := 0, 0, 0;
      raw, trace, emitted := map[], map[], map[];
    }

    /** Closes a forming bar into the store and hands it on. */
    method CloseBar(c: string, tf: Timeframe, bar: Bar)
      modifies this`barsClosed, this`emitted, store
      ensures store.closed == old(store.closed)[KeyOf(bar) :=
        CloseSeries(store.maxBars, SeriesIn(old(store.closed), KeyOf(bar)), bar)]
      ensures store.forming == old(store.forming) - {KeyOf(bar)}
      ensures barsClosed == old(barsClosed) + 1
      ensures emitted == old(emitted)[(c, tf) := At(old(emitted), (c, tf)) + [Completed(bar)]]
    {
      var done := store.Close(bar);
      barsClosed := barsClosed + 1;
      emitted := emitted[(c, tf) := At(emitted, (c, tf)) + [done]];
    }

    /** The per-timeframe body of a tick. */
    method ApplyBody(c: string, tf: Timeframe, feed: Feed, p: Print)
      requires var key := Key(feed.symbol, tf); key in store.forming ==> KeyOf(store.forming[key]) == key
      modifies this`barsClosed, this`partialBars, this`lateTicks, this`emitted, store
      ensures emitted == old(emitted) || emitted == old(emitted)[(c, tf) := At(emitted, (c, tf))]
      ensures TickOutcome(feed, tf, p, At(old(emitted), (c, tf)), old(store.forming), At(emitted, (c, tf)),
                          store.forming)
      ensures ClosedStep(store.maxBars, Key(feed.symbol, tf), (c, tf), old(emitted), emitted, old(store.closed),
                         store.closed)
    {
      hide BucketStart, Absorb, CloseSeries;
      var key := Key(feed.symbol, tf);
      var bucket := BucketStart(feed.segment, p.ts, tf);
      var cur := store.Forming(key);
      if cur.Some? && bucket < cur.value.ts {
        lateTicks := lateTicks + 1;
        return;
      }
      if cur.Some? && bucket > cur.value.ts {
        CloseBar(c, tf, cur.value);
        cur := None;
      }
      if cur.None? {
        cur := Some(OpenBar(feed, tf, bucket, p));
        partialBars := if cur.value.source == PARTIAL then partialBars + 1 else partialBars;
      }
      AbsorbKeepsKey(cur.value, p);
      store.SetForming(Absorb(cur.value, p));
    }

    method ApplyOne(c: string, tf: Timeframe, p: Print)
      requires Valid() && c in state && tf in TIMEFRAMES
      modifies this`barsClosed, this`partialBars, this`lateTicks, this`trace, this`emitted, store
      ensures Valid()
      ensures trace == old(trace)[(c, tf) := At(old(trace), (c, tf)) + [Tick(p)]]
      ensures old(OwnsStore()) ==> OwnsStore()
    {
      hide TickOutcome, Matches, AllStored, ClosedStep, AllMatch, OnlyTracked, DistinctSymbols;
      ghost var es, done, forming := At(trace, (c, tf)), At(emitted, (c, tf)), store.forming;
      OneMatches(Feeds(), c, tf, trace, emitted, forming);
      if Key(state[c].feed.symbol, tf) in forming {
        MatchesKeyed(state[c].feed, tf, es, done, forming);
      }
      ApplyBody(c, tf, state[c].feed, p);
      TickMatches(state[c].feed, tf, es, p, done, forming, At(emitted, (c, tf)), store.forming);
      if old(OwnsStore()) {
        StepStores(store.maxBars, Feeds(), c, tf, old(emitted), emitted, old(store.closed), store.closed);
      }
      Stepped(c, tf, Tick(p), old(emitted), forming);
    }

    /** The per-timeframe body of a clock flush. */
    method FlushOne(c: string, tf: Timeframe, now: int) returns (closed: bool)
      requires Valid() && c in state && tf in TIMEFRAMES
      modifies this`barsClosed, this`trace, this`emitted, store
      ensures Valid()
      ensures trace == old(trace)[(c, tf) := At(old(trace), (c, tf)) + [Flush(now)]]
      ensures closed <==> At(emitted, (c, tf)) != At(old(emitted), (c, tf))
      ensures barsClosed == old(barsClosed) + if closed then 1 else 0
      ensures old(OwnsStore()) ==> OwnsStore()
    {
      hide Matches, IstDay, SessionClose, CloseSeries, AllStored, AllMatch, OnlyTracked, DistinctSymbols;
      ghost var es, done, forming := At(trace, (c, tf)), At(emitted, (c, tf)), store.forming;
      OneMatches(Feeds(), c, tf, trace, emitted, forming);
      var feed := state[c].feed;
      var cur := store.Forming(Key(feed.symbol, tf));
      closed := false;
      if cur.Some? {
        MatchesKeyed(feed, tf, es, done, forming);
        var close := SessionClose(feed.segment, IstDay(cur.value.ts));
        var end := if tf == D1 then close else MinInt(cur.value.ts + StepSeconds(tf), close);
        if now >= end {
          CloseBar(c, tf, cur.value);
          assert |At(emitted, (c, tf))| != |done|;
          closed := true;
        }
      }
      FlushMatches(feed, tf, es, now, done, forming, At(emitted, (c, tf)), store.forming);
      if old(OwnsStore()) {
        StepStores(store.maxBars, Feeds(), c, tf, old(emitted), emitted, old(store.closed), store.closed);
      }
      Stepped(c, tf, Flush(now), old(emitted), forming);
    }

    /** Records the event a series just went through; everything else is as it was. */
    ghost method Stepped(c: string, tf: Timeframe, e: Event, before: Emissions, forming: map<Key, Bar>)
      requires c in state && (forall d :: d in state ==> state[d].feed.scripCode == d) && DistinctSymbols(Feeds())
      requires AllMatch(Feeds(), trace, before, forming) && OnlyTracked(Feeds(), trace, before, forming)
      requires emitted == before || emitted == before[(c, tf) := At(emitted, (c, tf))]
      requires forming - {Key(state[c].feed.symbol, tf)} == store.forming - {Key(state[c].feed.symbol, tf)}
      requires Matches(state[c].feed, tf, At(trace, (c, tf)) + [e], At(emitted, (c, tf)), store.forming)
      modifies this`trace
      ensures Valid() && (old(OwnsStore()) ==> OwnsStore())
      ensures trace == old(trace)[(c, tf) := At(old(trace), (c, tf)) + [e]]
    {
      hide Matches, AllStored, AllMatch, OnlyTracked, DistinctSymbols;
      trace := trace[(c, tf) := At(trace, (c, tf)) + [e]];
      StillOnlyTracked(Feeds(), c, tf, old(trace), At(trace, (c, tf)), before, emitted, forming, store.forming);
      OthersMatch(Feeds(), c, tf, old(trace), At(trace, (c, tf)), before, emitted, forming, store.forming);
    }

    /** One accepted tick goes to all seven series of its instrument and to no other. */
    method Apply(c: string, p: Print)
      requires Valid() && c in state
      modifies this`barsClosed, this`partialBars, this`lateTicks, this`trace, this`emitted, store
      ensures Valid()
      ensures forall d, tf :: tf in TIMEFRAMES ==>
        At(trace, (d, tf)) == if d == c then At(old(trace), (d, tf)) + [Tick(p)] else At(old(trace), (d, tf))
      ensures old(OwnsStore()) ==> OwnsStore()
    {
      hide Matches, AllStored, AllMatch, OnlyTracked, DistinctSymbols, Advanced;
      NoneAdvanced(trace, c, Tick(p));
      for i := 0 to |TIMEFRAMES|
        invariant Valid() && Advanced(old(trace), trace, c, i, Tick(p))
        invariant old(OwnsStore()) ==> OwnsStore()
      {
        OneAdvanced(old(trace), trace, c, i, Tick(p));
        ApplyOne(c, TIMEFRAMES[i], p);
      }
      AllAdvanced(old(trace), trace, c, Tick(p));
    }

    /** A tick: nothing for an untracked code, else the symbol takes it and, where it is accepted,
        all seven series do. */
    method OnTick(c: string, tick: RawTick, clock: int)
      requires Settled()
      modifies this, store, state.Values
      ensures Settled() && state == old(state)
      ensures c !in state ==> raw == old(raw)
      ensures c in state ==>
        raw == old(raw)[c := old(raw)[c] + [Raw(if tick.ts == 0 then tick.(ts := clock) else tick)]]
      ensures old(OwnsStore()) ==> OwnsStore()
    {
      if c in state {
        Take(c, if tick.ts == 0 then tick.(ts := clock) else tick);
      }
    }

    method Take(c: string, t: RawTick)
      requires Settled() && c in state
      modifies this, store, state[c]
      ensures Settled() && state == old(state) && raw == old(raw)[c := old(raw)[c] + [Raw(t)]]
      ensures old(OwnsStore()) ==> OwnsStore()
    {
      hide Matches, AllStored, AllMatch, OnlyTracked, DistinctSymbols, State, Trace, SymbolFeed.Receive;
      var st := state[c];
      FeedKept(st.feed, raw[c]);
      LifeAppend(st.feed, raw[c], Raw(t));
      var p := st.Receive(t);
      if p.Some? {
        Apply(c, p.value);
      }
      raw := raw[c := raw[c] + [Raw(t)]];
      forall d | d in state ensures InSync(d) {
        assert d != c ==> old(InSync(d));
      }
    }

    /** Closes whatever has ended in one instrument's series. */
    method FlushSeries(c: string, now: int) returns (closed: nat)
      requires Valid() && c in state
      modifies this`barsClosed, this`trace, this`emitted, store
      ensures Valid()
      ensures forall d, tf :: tf in TIMEFRAMES ==>
        At(trace, (d, tf)) == if d == c then At(old(trace), (d, tf)) + [Flush(now)] else At(old(trace), (d, tf))
      ensures barsClosed == old(barsClosed) + closed
      ensures old(OwnsStore()) ==> OwnsStore()
    {
      hide Matches, AllStored, AllMatch, OnlyTracked, DistinctSymbols, Advanced;
      closed := 0;
      NoneAdvanced(trace, c, Flush(now));
      for i := 0 to |TIMEFRAMES|
        invariant Valid() && barsClosed == old(barsClosed) + closed
        invariant old(OwnsStore()) ==> OwnsStore()
        invariant Advanced(old(trace), trace, c, i, Flush(now))
      {
        OneAdvanced(old(trace), trace, c, i, Flush(now));
        var did := FlushOne(c, TIMEFRAMES[i], now);
        if did {
          closed := closed + 1;
        }
      }
      AllAdvanced(old(trace), trace, c, Flush(now));
    }

    method FlushSymbol(c: string, now: int) returns (closed: nat)
      requires Settled() && c in state
      modifies this, store
      ensures Settled() && state == old(state)
      ensures raw == old(raw)[c := old(raw)[c] + [Clock(now)]]
      ensures barsClosed == old(barsClosed) + closed
      ensures old(OwnsStore()) ==> OwnsStore()
    {
      hide Matches, AllStored, AllMatch, OnlyTracked, DistinctSymbols, Life;
      FeedKept(state[c].feed, raw[c]);
      LifeAppend(state[c].feed, raw[c], Clock(now));
      closed := FlushSeries(c, now);
      raw := raw[c := raw[c] + [Clock(now)]];
    }

    /** The one-second clock: every tracked instrument flushes. */
    method FlushStale(now: int) returns (closed: nat)
      requires Settled()
      modifies this, store
      ensures Settled() && state == old(state)
      ensures forall c :: c in state ==> c in raw && c in old(raw) && raw[c] == old(raw)[c] + [Clock(now)]
      ensures barsClosed == old(barsClosed) + closed
      ensures old(OwnsStore()) ==> OwnsStore()
    {
      hide Matches, AllStored, AllMatch, OnlyTracked, DistinctSymbols, Life;
      closed := 0;
      var left := state.Keys;
      while left != {}
        invariant Settled() && state == old(state) && left <= state.Keys
        invariant barsClosed == old(barsClosed) + closed
        invariant old(OwnsStore()) ==> OwnsStore()
        invariant forall c :: c in state && c in left ==> raw[c] == old(raw)[c]
        invariant forall c :: c in state && c !in left ==> raw[c] == old(raw)[c] + [Clock(now)]
        decreases left
      {
        var c :| c in left;
        var did := FlushSymbol(c, now);
        closed := closed + did;
        left := left - {c};
      }
    }

    /** At any suspension point: two series that took the same ticks, however the clock calls fell
        between them, roll up if neither dropped a tick or opened a closed bucket again. */
    lemma SeriesRollUp(c: string, fine: Timeframe, coarse: Timeframe)
      requires Valid() && c in state && fine in TIMEFRAMES && coarse in TIMEFRAMES && Refines(fine, coarse)
      requires Ticks(At(trace, (c, fine))) == Ticks(At(trace, (c, coarse)))
      requires InHours(state[c].feed.segment, At(trace, (c, coarse)))
      requires OnTime(state[c].feed, fine, At(trace, (c, fine)))
      requires OnTime(state[c].feed, coarse, At(trace, (c, coarse)))
      ensures var key := Key(state[c].feed.symbol, fine);
        var fines := At(emitted, (c, fine)) + if key in store.forming then [Completed(store.forming[key])] else [];
        AllRollUp(state[c].feed, coarse, At(emitted, (c, coarse)), fines)
    {
      hide Refines, Run, AllRollUp, InHours, OnTime, AllMatch, OnlyTracked, DistinctSymbols;
      var feed := state[c].feed;
      RollUpRefinement(feed, fine, coarse, At(trace, (c, fine)), At(trace, (c, coarse)));
      OneMatches(Feeds(), c, fine, trace, emitted, store.forming);
      OneMatches(Feeds(), c, coarse, trace, emitted, store.forming);
      ProducedFrom(feed, fine, At(trace, (c, fine)), At(emitted, (c, fine)), store.forming);
      var fines := Produced(Run(feed, fine, At(trace, (c, fine))));
      SomeRollUp(feed, coarse, Run(feed, coarse, At(trace, (c, coarse))), fines);
    }

    /** End to end: whatever ticks and clock calls an instrument went through, if neither series dropped
        a tick as late or opened a closed bucket again, its emitted coarse bars are the roll-up of its
        emitted fine bars, each bucket once and in order. */
    lemma EmittedBarsRollUp(c: string, fine: Timeframe, coarse: Timeframe)
      requires Settled() && c in state && fine in TIMEFRAMES && coarse in TIMEFRAMES && Refines(fine, coarse)
      requires OnTime(state[c].feed, fine, Trace(state[c].feed, raw[c]))
      requires OnTime(state[c].feed, coarse, Trace(state[c].feed, raw[c]))
      ensures AllRollUp(state[c].feed, coarse, At(emitted, (c, coarse)), At(emitted, (c, fine)))
      ensures Ascending(At(emitted, (c, coarse))) && Ascending(At(emitted, (c, fine)))
    {
      hide Refines, Run, AllRollUp, State, Trace, OnTime, InHours, AllMatch, OnlyTracked, DistinctSymbols, Ascending,
           Produced;
      var feed, es := state[c].feed, Trace(state[c].feed, raw[c]);
      assert InSync(c);
      TraceIsAccepted(feed, raw[c]);
      EmittedRollUp(feed, fine, coarse, es);
      OneMatches(Feeds(), c, fine, trace, emitted, store.forming);
      OneMatches(Feeds(), c, coarse, trace, emitted, store.forming);
      BarsSummariseTicks(feed, coarse, es);
      BarsSummariseTicks(feed, fine, es);
      EmittedAscends(Run(feed, coarse, es));
      EmittedAscends(Run(feed, fine, es));
    }

    /** What a strategy reads: then the store holds the newest bars of each emitted series and no others,
        and each coarse bar that starts past the coarse bucket of the oldest fine bar held is the roll-up
        of fine bars held. Until the cap that is every one of them. */
    lemma StoredBarsRollUp(c: string, fine: Timeframe, coarse: Timeframe)
      requires Settled() && OwnsStore() && c in state
      requires fine in TIMEFRAMES && coarse in TIMEFRAMES && Refines(fine, coarse)
      requires OnTime(state[c].feed, fine, Trace(state[c].feed, raw[c]))
      requires OnTime(state[c].feed, coarse, Trace(state[c].feed, raw[c]))
      ensures var feed := state[c].feed;
        var fines, coarses := store.SeriesOf(Key(feed.symbol, fine)), store.SeriesOf(Key(feed.symbol, coarse));
        && fines == Trim(At(emitted, (c, fine)), store.maxBars)
        && coarses == Trim(At(emitted, (c, coarse)), store.maxBars)
        && AllRollUp(feed, coarse, coarses, At(emitted, (c, fine)))
        && (forall i :: 0 <= i < |coarses| && WhollyHeld(feed, coarse, coarses[i], fines) ==>
              RollsUpWithin(feed, coarse, coarses[i], fines))
        && (|At(emitted, (c, fine))| <= store.maxBars ==> AllRollUp(feed, coarse, coarses, fines))
    {
      hide Refines, Run, AllRollUp, State, Trace, OnTime, AllMatch, OnlyTracked, DistinctSymbols, Ascending, StoreAll,
           InSession, InHours, RollsUpWithin, WhollyHeld;
      var feed := state[c].feed;
      EmittedBarsRollUp(c, fine, coarse);
      OneMatches(Feeds(), c, fine, trace, emitted, store.forming);
      OneMatches(Feeds(), c, coarse, trace, emitted, store.forming);
      EmittedComplete(feed, fine, At(trace, (c, fine)));
      EmittedComplete(feed, coarse, At(trace, (c, coarse)));
      StoreAllTrims(store.maxBars, At(emitted, (c, fine)));
      StoreAllTrims(store.maxBars, At(emitted, (c, coarse)));
      assert OneStored(store.maxBars, Feeds(), c, fine, emitted, store.closed);
      assert OneStored(store.maxBars, Feeds(), c, coarse, emitted, store.closed);
      TrimRollsUp(feed, coarse, At(emitted, (c, coarse)), At(emitted, (c, fine)), store.maxBars);
      assert InSync(c);
      TraceIsAccepted(feed, raw[c]);
      LineInHours(feed, fine, At(trace, (c, fine)));
      TrimmedRollUp(feed, coarse, Trim(At(emitted, (c, coarse)), store.maxBars), At(emitted, (c, fine)), store.maxBars);
    }

    /** Open interest of the front future, stamped from the next tick on. */
    method SetOi(c: string, oi: OpenInterest)
      requires Settled()
      modifies this`raw, state.Values
      ensures Settled()
      ensures raw == if c in state then old(raw)[c := old(raw)[c] + [RawEvent.SetOi(oi)]] else old(raw)
      ensures old(OwnsStore()) ==> OwnsStore()
    {
      hide Matches, AllStored, AllMatch, OnlyTracked, DistinctSymbols, Life;
      if c !in state {
        return;
      }
      FeedKept(state[c].feed, raw[c]);
      LifeAppend(state[c].feed, raw[c], RawEvent.SetOi(oi));
      state[c].oi := Some(oi);
      raw := raw[c := raw[c] + [RawEvent.SetOi(oi)]];
    }

    /** Registers an instrument, refusing one whose series would collide with another's; a code
        already tracked is kept as it is. */
    method Track(feed: Feed) returns (ok: bool)
      requires Settled()
      modifies this`state, this`raw
      ensures Settled()
      ensures ok <==>
        feed.scripCode in old(state) || forall c :: c in old(state) ==> old(state)[c].feed.symbol != feed.symbol
      ensures !ok || feed.scripCode in old(state) ==> state == old(state)
      ensures ok ==> feed.scripCode in state && state.Keys == old(state).Keys + {feed.scripCode}
      ensures old(OwnsStore()) ==> OwnsStore()
    {
      if feed.scripCode in state {
        return true;
      }
      if exists c :: c in state.Keys && state[c].feed.symbol == feed.symbol {
        return false;
      }
      Add(feed);
      return true;
    }

    method Add(feed: Feed)
      requires Settled() && feed.scripCode !in state
      requires forall c :: c in state ==> state[c].feed.symbol != feed.symbol
      modifies this`state, this`raw
      ensures Settled() && feed.scripCode in state && state.Keys == old(state).Keys + {feed.scripCode}
      ensures old(OwnsStore()) ==> OwnsStore()
    {
      hide Matches, AllStored, AllMatch, OnlyTracked, DistinctSymbols, State, Trace, NewSymbol;
      ghost var feeds := Feeds();
      TrackOne(feeds, feed, trace, emitted, store.forming);
      NewLife(feed);
      var st := new SymbolState(feed);
      state := state[feed.scripCode := st];
      raw := raw[feed.scripCode := []];
      assert Feeds() == feeds[feed.scripCode := feed];
      if old(OwnsStore()) {
        TrackStores(store.maxBars, feeds, feed, trace, emitted, store.forming, store.closed);
      }
      forall c | c in state ensures InSync(c) {
        assert c != feed.scripCode ==> old(InSync(c));
      }
    }
  }

  /** Position of a timeframe in the aggregator's tuple; the hourly one is not in it. */
  function Rank(tf: Timeframe): nat {
    match tf
    case M1 => 0
    case M2 => 1
    case M3 => 2
    case M5 => 3
    case M15 => 4
    case M30 => 5
    case D1 => 6
    case M60 => 7
  }

  /** The first `n` series of one instrument have taken an event; no other series has changed. */
  ghost predicate Advanced(before: Traces, after: Traces, c: string, n: nat, e: Event) {
    forall d, tf :: At(after, (d, tf)) == At(before, (d, tf)) + if d == c && Rank(tf) < n then [e] else []
  }

  lemma NoneAdvanced(trace: Traces, c: string, e: Event)
    ensures Advanced(trace, trace, c, 0, e)
  {
  }

  lemma OneAdvanced(before: Traces, trace: Traces, c: string, i: nat, e: Event)
    requires i < |TIMEFRAMES| && Advanced(before, trace, c, i, e)
    ensures Advanced(before, trace[(c, TIMEFRAMES[i]) := At(trace, (c, TIMEFRAMES[i])) + [e]], c, i + 1, e)
  {
    var after := trace[(c, TIMEFRAMES[i]) := At(trace, (c, TIMEFRAMES[i])) + [e]];
    forall d, tf ensures At(after, (d, tf)) == At(before, (d, tf)) + if d == c && Rank(tf) < i + 1 then [e] else [] {
      if d == c && Rank(tf) == i {
        SameRank(tf, TIMEFRAMES[i]);
      }
    }
  }

  lemma SameRank(a: Timeframe, b: Timeframe)
    requires Rank(a) == Rank(b)
    ensures a == b
  {
  }

  lemma AllAdvanced(before: Traces, after: Traces, c: string, e: Event)
    requires Advanced(before, after, c, |TIMEFRAMES|, e)
    ensures forall d, tf :: tf in TIMEFRAMES ==>
      At(after, (d, tf)) == if d == c then At(before, (d, tf)) + [e] else At(before, (d, tf))
  {
    forall d, tf | tf in TIMEFRAMES
      ensures At(after, (d, tf)) == if d == c then At(before, (d, tf)) + [e] else At(before, (d, tf))
    {
      assert At(after, (d, tf)) == At(before, (d, tf)) + if d == c && Rank(tf) < |TIMEFRAMES| then [e] else [];
    }
  }
}
