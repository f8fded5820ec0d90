/** The bar store, its methods proved against the series functions, and the reconciler that installs
    the exchange's copy of a closed bucket. */
module Store {
  import opened Wrappers
  import opened Session
  import opened Bars
  import opened Rollup
  import opened Series

  datatype Key = Key(symbol: string, tf: Timeframe)

  function KeyOf(bar: Bar): Key { Key(bar.symbol, bar.tf) }

  class BarStore {
    const maxBars: nat
    var closed: map<Key, seq<Bar>>
    var forming: map<Key, Bar>

    constructor (maxBars: nat)
      ensures this.maxBars == maxBars && closed == map[] && forming == map[]
    {
      this.maxBars := maxBars;
      closed := map[];
      forming := map[];
    }

    ghost function SeriesOf(key: Key): seq<Bar>
      reads this
    {
      if key in closed then closed[key] else []
    }

    method SetForming(bar: Bar)
      modifies this
      ensures forming == old(forming)[KeyOf(bar) := bar] && closed == old(closed)
    {
      forming := forming[KeyOf(bar) := bar];
    }

    method Forming(key: Key) returns (bar: Option<Bar>)
      ensures bar == if key in forming then Some(forming[key]) else None
    {
      if key in forming {
        bar := Some(forming[key]);
      } else {
        bar := None;
      }
    }

    /** Closes a bar: only its own series and its own forming bar change. */
    method Close(bar: Bar) returns (done: Bar)
      modifies this
      ensures done == Completed(bar)
      ensures closed == old(closed)[KeyOf(bar) := CloseSeries(maxBars, old(SeriesOf(KeyOf(bar))), bar)]
      ensures forming == old(forming) - {KeyOf(bar)}
    {
      done := bar.(complete := true);
      var key := KeyOf(bar);
      var series := if key in closed then closed[key] else [];
      if series != [] && series[|series| - 1].ts == bar.ts {
        if !(series[|series| - 1].source != PARTIAL && bar.source == PARTIAL) {
          series := series[|series| - 1 := done];
          assert series == series[..|series| - 1] + [done];
        }
      } else {
        series := series + [done];
        if |series| > maxBars {
          series := series[|series| - maxBars..];
        }
      }
      closed := closed[key := series];
      forming := forming - {key};
    }

    /** Installs a bar into its bucket, leaving every forming bar alone. */
    method ReplaceClosed(bar: Bar) returns (replaced: bool)
      modifies this`closed
      ensures closed == old(closed)[KeyOf(bar) := InstallSeries(old(SeriesOf(KeyOf(bar))), bar)]
      ensures Ascending(old(SeriesOf(KeyOf(bar)))) ==>
        (replaced <==> bar.ts in ByBucket(old(SeriesOf(KeyOf(bar)))))
    {
      var series := if KeyOf(bar) in closed then closed[KeyOf(bar)] else [];
      series, replaced := Place(series, bar);
      closed := closed[KeyOf(bar) := series];
    }

    /** Replaces a series wholesale from a backfill, keeping what the backfill lacks. */
    method Seed(key: Key, bars: seq<Bar>) returns (held: nat)
      modifies this`closed
      ensures closed == old(closed)[key := SeedSeries(maxBars, old(SeriesOf(key)), bars)]
      ensures held == |closed[key]|
    {
      var merged: map<int, Bar> := map[];
      for i := 0 to |bars|
        invariant merged == ByBucket(bars[..i])
      {
        merged := merged[bars[i].ts := bars[i]];
        assert bars[..i + 1][..i] == bars[..i];
      }
      assert bars[..|bars|] == bars;
      var existing := if key in closed then closed[key] else [];
      for i := 0 to |existing|
        invariant merged == SetDefaults(ByBucket(bars), existing[..i])
      {
        if existing[i].ts !in merged {
          merged := merged[existing[i].ts := existing[i]];
        }
        assert existing[..i + 1][..i] == existing[..i];
      }
      assert existing[..|existing|] == existing;
      var series := SortedBars(merged);
      closed := closed[key := if maxBars == 0 then series else Trim(series, maxBars)];
      held := |closed[key]|;
    }

    /** Marks a bar that is held as confirmed; the store shares its bars with whoever was handed them. */
    method Mark(bar: Bar)
      modifies this`closed
      ensures closed == if KeyOf(bar) in old(closed)
        then old(closed)[KeyOf(bar) := Marked(old(closed)[KeyOf(bar)], bar)] else old(closed)
    {
      if KeyOf(bar) in closed {
        closed := closed[KeyOf(bar) := Marked(closed[KeyOf(bar)], bar)];
      }
    }

    /** The last `n` closed bars, all of them for zero; a forming bar is never among them. */
    method LastBars(key: Key, n: nat) returns (bars: seq<Bar>)
      ensures bars == if n == 0 then SeriesOf(key) else Trim(SeriesOf(key), n)
    {
      var series := if key in closed then closed[key] else [];
      bars := if n > 0 && n < |series| then series[|series| - n..] else series;
    }
  }

  /** The series once the walk back from the newest bar has passed all but the first `n` bars. */
  ghost function Walked(s: seq<Bar>, bar: Bar, n: nat): seq<Bar>
    requires n <= |s|
  {
    InstallSeries(s[..n], bar) + s[n..]
  }

  lemma WalkEnds(s: seq<Bar>, bar: Bar)
    ensures Walked(s, bar, |s|) == InstallSeries(s, bar)
    ensures Walked(s, bar, 0) == [Completed(bar)] + s
  {
    assert s[..|s|] == s && s[0..] == s;
  }

  lemma WalkStep(s: seq<Bar>, bar: Bar, i: int)
    requires 0 <= i < |s|
    ensures
      if s[i].ts == bar.ts then Walked(s, bar, i + 1) == s[i := Completed(bar)]
      else if s[i].ts < bar.ts then Walked(s, bar, i + 1) == s[..i + 1] + [Completed(bar)] + s[i + 1..]
      else Walked(s, bar, i + 1) == Walked(s, bar, i)
  {
    assert s[..i + 1][..i] == s[..i];
    assert s[i..] == [s[i]] + s[i + 1..];
  }

  /** The walk back from the newest bar to the installed bar's place. */
  method Place(series: seq<Bar>, bar: Bar) returns (placed: seq<Bar>, replaced: bool)
    ensures placed == InstallSeries(series, bar)
    ensures Ascending(series) ==> (replaced <==> bar.ts in ByBucket(series))
  {
    var done := Completed(bar);
    hide ByBucket, Ascending, InstallSeries, Completed, Walked;
    var i := |series| - 1;
    WalkEnds(series, bar);
    while i >= 0
      invariant -1 <= i < |series|
      invariant InstallSeries(series, bar) == Walked(series, bar, i + 1)
      invariant forall k :: i < k < |series| ==> bar.ts < series[k].ts
    {
      WalkStep(series, bar, i);
      if series[i].ts == bar.ts {
        FoundAt(series, i);
        return series[i := done], true;
      }
      if series[i].ts < bar.ts {
        AbsentBetween(series, bar.ts, i);
        return series[..i + 1] + [done] + series[i + 1..], false;
      }
      i := i - 1;
    }
    AbsentBetween(series, bar.ts, -1);
    return [done] + series, false;
  }

  lemma FoundAt(s: seq<Bar>, i: int)
    requires 0 <= i < |s|
    ensures Ascending(s) ==> s[i].ts in ByBucket(s)
  {
    if Ascending(s) {
      SeriesAt(s, i);
    }
  }

  lemma AbsentBetween(s: seq<Bar>, ts: int, i: int)
    requires -1 <= i < |s| && (i >= 0 ==> s[i].ts < ts)
    requires forall k :: i < k < |s| ==> ts < s[k].ts
    ensures Ascending(s) ==> ts !in ByBucket(s)
  {
    if Ascending(s) && ts in ByBucket(s) {
      var k := BucketOf(s, ts);
      assert false;
    }
  }

  // ---- reconciliation -------------------------------------------------------------------------

  /** The exchange's candle for a bucket. */
  datatype RestRow = RestRow(o: real, h: real, l: real, c: real, v: real)

  datatype BarCheck = BarCheck(found: bool, exact: bool, replaced: bool, partial: bool, failed: bool,
                               live: Option<RestRow>, rest: Option<RestRow>)

  function Live(bar: Bar): RestRow {
    RestRow(bar.data.open, bar.data.high, bar.data.low, bar.data.close, bar.data.volume)
  }

  /** The bar installed over a live build that the exchange disagrees with. */
  function FromExchange(bar: Bar, row: RestRow): Bar {
    bar.(data := Ohlcv(row.o, row.h, row.l, row.c, row.v, bar.data.trades), source := REST, complete := true,
         confirmed := true)
  }

  class BarReconciler {
    const store: BarStore

    constructor (store: BarStore)
      ensures this.store == store
    {
      this.store := store;
    }

    /** The exchange is right about a closed bucket: afterwards the store holds its numbers there,
        every other bucket, series and forming bar is untouched, and an exact build is only marked, in
        the store too when it is the bar held there. */
    method Install(bar: Bar, row: RestRow) returns (check: BarCheck, confirmed: Bar)
      requires Ascending(store.SeriesOf(KeyOf(bar)))
      modifies store`closed
      ensures confirmed.data == Ohlcv(row.o, row.h, row.l, row.c, row.v, bar.data.trades)
      ensures confirmed == bar.(data := confirmed.data, confirmed := true,
        source := if check.exact then bar.source else REST, complete := bar.complete || !check.exact)
      ensures check.exact <==> bar.data == Ohlcv(row.o, row.h, row.l, row.c, row.v, bar.data.trades)
      ensures check.found && check.replaced == !check.exact && check.live == Some(Live(bar)) && check.rest == Some(row)
      ensures check.partial == (bar.source == PARTIAL) && !check.failed
      ensures store.closed.Keys == old(store.closed.Keys) + if check.exact then {} else {KeyOf(bar)}
      ensures forall k :: k in old(store.closed) && k != KeyOf(bar) ==> store.closed[k] == old(store.closed[k])
      ensures Ascending(store.SeriesOf(KeyOf(bar)))
      ensures var before := old(store.SeriesOf(KeyOf(bar)));
        ByBucket(store.SeriesOf(KeyOf(bar)))
        == if check.exact && bar !in before then ByBucket(before) else ByBucket(before)[bar.ts := confirmed]
    {
      var live := Live(bar);
      check := BarCheck(true, live == row, false, bar.source == PARTIAL, false, Some(live), Some(row));
      if check.exact {
        confirmed := Confirmed(bar);
        MarkedMaps(store.SeriesOf(KeyOf(bar)), bar);
        store.Mark(bar);
        return;
      }
      confirmed := FromExchange(bar, row);
      InstallRefines(store.SeriesOf(KeyOf(bar)), confirmed);
      var replaced := store.ReplaceClosed(confirmed);
      check := check.(replaced := true);
    }
  }
}
