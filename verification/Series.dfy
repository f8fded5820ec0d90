/** One stored series of closed bars: what closing, installing and seeding do to it, and that it
    refines a finite map from bucket to bar cut to the newest buckets. */
module Series {
  import opened Wrappers
  import opened Session
  import opened Bars
  import opened Rollup

  /** The newest `n` bars. */
  function Trim(s: seq<Bar>, n: nat): seq<Bar> { if |s| > n then s[|s| - n..] else s }

  function CloseSeries(max: nat, s: seq<Bar>, bar: Bar): seq<Bar> {
    if s != [] && s[|s| - 1].ts == bar.ts then
      if s[|s| - 1].source != PARTIAL && bar.source == PARTIAL then s else s[..|s| - 1] + [Completed(bar)]
    else Trim(s + [Completed(bar)], max)
  }

  /** Walks back to the bar's place: over an equal bucket, else after the first older one. */
  function InstallSeries(s: seq<Bar>, bar: Bar): seq<Bar> {
    if s == [] then [Completed(bar)]
    else
      var last, rest := s[|s| - 1], s[..|s| - 1];
      if last.ts == bar.ts then rest + [Completed(bar)]
      else if last.ts < bar.ts then s + [Completed(bar)]
      else InstallSeries(rest, bar) + [last]
  }

  /** A dictionary of bars by bucket, later entries winning. */
  function ByBucket(s: seq<Bar>): map<int, Bar> {
    if s == [] then map[] else ByBucket(s[..|s| - 1])[s[|s| - 1].ts := s[|s| - 1]]
  }

  /** Fills in what the backfill does not have; the first of equal buckets wins. */
  function SetDefaults(m: map<int, Bar>, s: seq<Bar>): map<int, Bar> {
    if s == [] then m
    else
      var before, last := SetDefaults(m, s[..|s| - 1]), s[|s| - 1];
      if last.ts in before then before else before[last.ts := last]
  }

  predicate Keyed(m: map<int, Bar>) { forall k :: k in m ==> m[k].ts == k }

  lemma {:induction false} SomeNewest(keys: set<int>) returns (k: int)
    requires keys != {}
    ensures k in keys && forall j :: j in keys ==> j <= k
  {
    var one := SomeOne(keys);
    k := one;
    if keys - {one} != {} {
      var top := SomeNewest(keys - {one});
      k := MaxInt(one, top);
    }
    forall j | j in keys ensures j <= k {
      assert j == one || j in keys - {one};
    }
  }

  function NewestKey(keys: set<int>): (k: int)
    requires keys != {}
    ensures k in keys && forall j :: j in keys ==> j <= k
  {
    assert exists k :: k in keys && forall j :: j in keys ==> j <= k by {
      var k := SomeNewest(keys);
    }
    var k :| k in keys && forall j :: j in keys ==> j <= k;
    k
  }

  /** The bars of a dictionary in ascending bucket order. */
  function SortedBars(m: map<int, Bar>): seq<Bar>
    decreases |m|
  {
    if m.Keys == {} then []
    else
      var k := NewestKey(m.Keys);
      SortedBars(m - {k}) + [m[k]]
  }

  function SeedSeries(max: nat, s: seq<Bar>, bars: seq<Bar>): seq<Bar> {
    var merged := SortedBars(SetDefaults(ByBucket(bars), s));
    if max == 0 then merged else Trim(merged, max)
  }

  // ---- the finite map it refines --------------------------------------------------------------

  /** The entries with fewer than `n` newer buckets. */
  ghost function Cut(m: map<int, Bar>, n: nat): map<int, Bar> {
    map k | k in m && |Newer(m, k)| < n :: m[k]
  }

  ghost function Newer(m: map<int, Bar>, k: int): set<int> {
    set j | j in m && k < j
  }

  ghost function MapClose(max: nat, m: map<int, Bar>, bar: Bar): map<int, Bar> {
    if bar.ts in m then
      if m[bar.ts].source != PARTIAL && bar.source == PARTIAL then m else m[bar.ts := Completed(bar)]
    else Cut(m[bar.ts := Completed(bar)], max)
  }

  ghost function MapSeed(max: nat, m: map<int, Bar>, bars: seq<Bar>): map<int, Bar> {
    var merged := m + ByBucket(bars);
    if max == 0 then merged else Cut(merged, max)
  }

  lemma ByBucketAppend(s: seq<Bar>, b: Bar)
    ensures ByBucket(s + [b]) == ByBucket(s)[b.ts := b]
  {
    assert (s + [b])[..|s|] == s;
  }

  lemma {:induction false} BucketOf(s: seq<Bar>, k: int) returns (i: nat)
    requires k in ByBucket(s)
    ensures i < |s| && s[i].ts == k && ByBucket(s)[k] == s[i]
  {
    var n := |s| - 1;
    if s[n].ts == k {
      i := n;
    } else {
      i := BucketOf(s[..n], k);
    }
  }

  lemma {:induction false} SeriesAt(s: seq<Bar>, i: int)
    requires Ascending(s) && 0 <= i < |s|
    ensures s[i].ts in ByBucket(s) && ByBucket(s)[s[i].ts] == s[i]
  {
    var n := |s| - 1;
    if i < n {
      PrefixAscends(s);
      SeriesAt(s[..n], i);
    }
  }

  lemma PrefixAscends(s: seq<Bar>)
    requires Ascending(s) && s != []
    ensures Ascending(s[..|s| - 1])
    ensures forall i :: 0 <= i < |s| - 1 ==> s[i].ts < s[|s| - 1].ts
  {
  }

  lemma LastIsNewest(s: seq<Bar>)
    requires Ascending(s) && s != []
    ensures forall k :: k in ByBucket(s) ==> k <= s[|s| - 1].ts
    ensures ByBucket(s[..|s| - 1]) == ByBucket(s) - {s[|s| - 1].ts}
    ensures ByBucket(s) == ByBucket(s[..|s| - 1])[s[|s| - 1].ts := s[|s| - 1]]
  {
    var older, last := ByBucket(s[..|s| - 1]), s[|s| - 1];
    assert ByBucket(s) == older[last.ts := last];
    hide Ascending, ByBucket;
    PrefixAscends(s);
    forall k | k in older ensures k < last.ts {
      var i := BucketOf(s[..|s| - 1], k);
    }
  }

  /** A series is determined by the map it shows. */
  lemma {:induction false} SameMapSameSeries(s: seq<Bar>, t: seq<Bar>)
    requires Ascending(s) && Ascending(t) && ByBucket(s) == ByBucket(t)
    ensures s == t
  {
    hide Ascending;
    if s != [] && t != [] {
      var m, n := |s| - 1, |t| - 1;
      LastIsNewest(s);
      LastIsNewest(t);
      SeriesAt(s, m);
      SeriesAt(t, n);
      PrefixAscends(s);
      PrefixAscends(t);
      assert s[m].ts in ByBucket(t) && t[n].ts in ByBucket(s);
      assert s[m] == t[n];
      SameMapSameSeries(s[..m], t[..n]);
      assert s == s[..m] + [s[m]] && t == t[..n] + [t[n]];
    } else if s != [] {
      SeriesAt(s, 0);
    } else if t != [] {
      SeriesAt(t, 0);
    }
  }

  lemma {:induction false} NewerCount(s: seq<Bar>, i: int)
    requires Ascending(s) && 0 <= i < |s|
    ensures |Newer(ByBucket(s), s[i].ts)| == |s| - 1 - i
    decreases |s|
  {
    hide Ascending;
    var n := |s| - 1;
    LastIsNewest(s);
    if i == n {
      assert Newer(ByBucket(s), s[i].ts) == {};
    } else {
      PrefixAscends(s);
      NewerCount(s[..n], i);
      assert Newer(ByBucket(s), s[i].ts) == Newer(ByBucket(s[..n]), s[i].ts) + {s[n].ts};
    }
  }

  lemma TrimAscends(s: seq<Bar>, n: nat)
    requires Ascending(s)
    ensures Ascending(Trim(s, n))
  {
  }

  lemma CutKeeps(s: seq<Bar>, n: nat, k: int) returns (i: nat)
    requires Ascending(s) && k in ByBucket(s)
    ensures i < |s| && s[i].ts == k && ByBucket(s)[k] == s[i]
    ensures k in Cut(ByBucket(s), n) <==> |s| - i <= n
  {
    hide Ascending, ByBucket;
    i := BucketOf(s, k);
    NewerCount(s, i);
  }

  lemma TrimKeeps(s: seq<Bar>, n: nat, i: nat)
    requires Ascending(s) && i < |s|
    ensures s[i].ts in ByBucket(Trim(s, n)) <==> |s| - i <= n
    ensures |s| - i <= n ==> ByBucket(Trim(s, n))[s[i].ts] == s[i]
  {
    hide Ascending, ByBucket;
    var t := Trim(s, n);
    TrimAscends(s, n);
    if |s| - i <= n {
      SeriesAt(t, i - (|s| - |t|));
    } else if s[i].ts in ByBucket(t) {
      var j := BucketOf(t, s[i].ts);
      NewerCount(s, i);
      NewerCount(s, |s| - |t| + j);
    }
  }

  /** Trimming the series is cutting the map to its newest buckets. */
  lemma TrimCuts(s: seq<Bar>, n: nat)
    requires Ascending(s)
    ensures ByBucket(Trim(s, n)) == Cut(ByBucket(s), n)
  {
    hide Ascending, ByBucket, Trim, Cut;
    var m, cut := ByBucket(Trim(s, n)), Cut(ByBucket(s), n);
    forall k | k in cut ensures k in m && m[k] == cut[k] {
      CutWithin(ByBucket(s), n, k);
      var i := CutKeeps(s, n, k);
      TrimKeeps(s, n, i);
    }
    forall k | k in m ensures k in cut {
      TrimWithin(s, n, k);
      var i := CutKeeps(s, n, k);
      TrimKeeps(s, n, i);
    }
  }

  lemma CutWithin(m: map<int, Bar>, n: nat, k: int)
    requires k in Cut(m, n)
    ensures k in m && Cut(m, n)[k] == m[k]
  {
  }

  lemma TrimWithin(s: seq<Bar>, n: nat, k: int)
    requires Ascending(s) && k in ByBucket(Trim(s, n))
    ensures k in ByBucket(s)
  {
    hide Ascending, ByBucket;
    var j := BucketOf(Trim(s, n), k);
    SeriesAt(s, |s| - |Trim(s, n)| + j);
  }

  // ---- each operation refines the map ---------------------------------------------------------

  predicate NotOlder(s: seq<Bar>, bar: Bar) { s == [] || s[|s| - 1].ts <= bar.ts }

  lemma CloseRefines(max: nat, s: seq<Bar>, bar: Bar)
    requires Ascending(s) && NotOlder(s, bar)
    ensures Ascending(CloseSeries(max, s, bar))
    ensures ByBucket(CloseSeries(max, s, bar)) == MapClose(max, ByBucket(s), bar)
  {
    hide Ascending, Trim;
    var n := |s| - 1;
    if s != [] {
      LastIsNewest(s);
      SeriesAt(s, n);
      PrefixAscends(s);
    }
    if s != [] && s[n].ts == bar.ts {
      ByBucketAppend(s[..n], Completed(bar));
      ReplaceLastAscends(s, Completed(bar));
    } else {
      AppendAscends(s, Completed(bar));
      ByBucketAppend(s, Completed(bar));
      TrimAscends(s + [Completed(bar)], max);
      TrimCuts(s + [Completed(bar)], max);
    }
  }

  lemma ReplaceLastAscends(s: seq<Bar>, bar: Bar)
    requires Ascending(s) && s != [] && s[|s| - 1].ts == bar.ts
    ensures Ascending(s[..|s| - 1] + [bar])
  {
  }

  predicate UpTo(s: seq<Bar>, top: int) { forall i :: 0 <= i < |s| ==> s[i].ts <= top }

  lemma {:induction false} InstallStaysBelow(s: seq<Bar>, bar: Bar, top: int)
    requires UpTo(s, top) && bar.ts <= top
    ensures UpTo(InstallSeries(s, bar), top)
  {
    if s != [] && s[|s| - 1].ts > bar.ts {
      InstallStaysBelow(s[..|s| - 1], bar, top);
    }
  }

  lemma {:induction false} InstallAscends(s: seq<Bar>, bar: Bar)
    requires Ascending(s)
    ensures Ascending(InstallSeries(s, bar))
  {
    hide Ascending;
    AppendAscends(s, Completed(bar));
    if s == [] {
      assert InstallSeries(s, bar) == s + [Completed(bar)];
    } else {
      var last, rest := s[|s| - 1], s[..|s| - 1];
      PrefixAscends(s);
      if last.ts == bar.ts {
        ReplaceLastAscends(s, Completed(bar));
      } else if bar.ts < last.ts {
        InstallAscends(rest, bar);
        InstallStaysBelow(rest, bar, last.ts - 1);
        AppendAscends(InstallSeries(rest, bar), last);
      }
    }
  }

  lemma {:induction false} InstallMaps(s: seq<Bar>, bar: Bar)
    requires Ascending(s)
    ensures ByBucket(InstallSeries(s, bar)) == ByBucket(s)[bar.ts := Completed(bar)]
  {
    hide Ascending, ByBucket;
    var done := Completed(bar);
    ByBucketAppend(s, done);
    if s == [] {
      assert InstallSeries(s, bar) == s + [done];
    } else {
      var last, rest := s[|s| - 1], s[..|s| - 1];
      PrefixAscends(s);
      assert s == rest + [last];
      ByBucketAppend(rest, last);
      if last.ts == bar.ts {
        ByBucketAppend(rest, done);
      } else if bar.ts < last.ts {
        InstallMaps(rest, bar);
        ByBucketAppend(InstallSeries(rest, bar), last);
      }
    }
  }

  lemma InstallRefines(s: seq<Bar>, bar: Bar)
    requires Ascending(s)
    ensures Ascending(InstallSeries(s, bar))
    ensures ByBucket(InstallSeries(s, bar)) == ByBucket(s)[bar.ts := Completed(bar)]
  {
    InstallAscends(s, bar);
    InstallMaps(s, bar);
  }

  lemma {:induction false} SortedBarsSorted(m: map<int, Bar>)
    requires Keyed(m)
    ensures Ascending(SortedBars(m)) && ByBucket(SortedBars(m)) == m
    decreases |m|
  {
    hide Ascending, ByBucket;
    if m.Keys == {} {
      EmptyAscends();
      assert ByBucket([]) == m by { NothingHeld(); }
    } else {
      var k := NewestKey(m.Keys);
      var s := SortedBars(m - {k});
      SortedBarsSorted(m - {k});
      if s != [] {
        SeriesAt(s, |s| - 1);
      }
      AppendAscends(s, m[k]);
      ByBucketAppend(s, m[k]);
    }
  }

  lemma NothingHeld()
    ensures ByBucket([]) == map[]
  {
  }

  lemma {:induction false} ByBucketKeyed(s: seq<Bar>)
    ensures Keyed(ByBucket(s))
  {
    if s != [] {
      ByBucketKeyed(s[..|s| - 1]);
    }
  }

  lemma {:induction false} SetDefaultsMerges(m: map<int, Bar>, s: seq<Bar>)
    requires Ascending(s) && Keyed(m)
    ensures SetDefaults(m, s) == ByBucket(s) + m && Keyed(SetDefaults(m, s))
  {
    hide Ascending;
    if s != [] {
      PrefixAscends(s);
      LastIsNewest(s);
      SetDefaultsMerges(m, s[..|s| - 1]);
    }
  }

  lemma SeedRefines(max: nat, s: seq<Bar>, bars: seq<Bar>)
    requires Ascending(s)
    ensures Ascending(SeedSeries(max, s, bars))
    ensures ByBucket(SeedSeries(max, s, bars)) == MapSeed(max, ByBucket(s), bars)
  {
    hide Ascending, Trim, SortedBars, Cut;
    ByBucketKeyed(bars);
    SetDefaultsMerges(ByBucket(bars), s);
    var merged := SetDefaults(ByBucket(bars), s);
    SortedBarsSorted(merged);
    TrimAscends(SortedBars(merged), max);
    TrimCuts(SortedBars(merged), max);
  }

  // ---- whole runs -----------------------------------------------------------------------------

  datatype Op = Close(bar: Bar) | Install(bar: Bar) | Seed(bars: seq<Bar>)

  ghost function Apply(max: nat, s: seq<Bar>, op: Op): seq<Bar> {
    match op
    case Close(bar) => CloseSeries(max, s, bar)
    case Install(bar) => InstallSeries(s, bar)
    case Seed(bars) => SeedSeries(max, s, bars)
  }

  ghost function ApplyMap(max: nat, m: map<int, Bar>, op: Op): map<int, Bar> {
    match op
    case Close(bar) => MapClose(max, m, bar)
    case Install(bar) => m[bar.ts := Completed(bar)]
    case Seed(bars) => MapSeed(max, m, bars)
  }

  ghost function History(max: nat, ops: seq<Op>): seq<Bar> {
    if ops == [] then [] else Apply(max, History(max, ops[..|ops| - 1]), ops[|ops| - 1])
  }

  ghost function MapHistory(max: nat, ops: seq<Op>): map<int, Bar> {
    if ops == [] then map[] else ApplyMap(max, MapHistory(max, ops[..|ops| - 1]), ops[|ops| - 1])
  }

  /** No bar is closed into a bucket older than the newest one held. */
  ghost predicate ClosesForward(max: nat, ops: seq<Op>) {
    forall i :: 0 <= i < |ops| && ops[i].Close? ==> NotOlder(History(max, ops[..i]), ops[i].bar)
  }

  /** Over every history the stored list is strictly sorted and is exactly the obvious finite map. */
  lemma {:induction false} HistoryRefines(max: nat, ops: seq<Op>)
    requires ClosesForward(max, ops)
    ensures Ascending(History(max, ops)) && ByBucket(History(max, ops)) == MapHistory(max, ops)
    decreases |ops|
  {
    hide Ascending, CloseSeries, InstallSeries, SeedSeries, MapClose, MapSeed, NotOlder;
    if ops == [] {
      assert Ascending([]) by { EmptyAscends(); }
    } else {
      var n := |ops| - 1;
      assert forall i :: 0 <= i < n ==> ops[..n][..i] == ops[..i] && ops[..n][i] == ops[i];
      HistoryRefines(max, ops[..n]);
      var s := History(max, ops[..n]);
      match ops[n] {
        case Close(bar) => CloseRefines(max, s, bar);
        case Install(bar) => InstallRefines(s, bar);
        case Seed(bars) => SeedRefines(max, s, bars);
      }
    }
  }

  /** Closing into an older bucket is exactly what breaks the order: the code appends without
      comparing. Only a store of at most one bar hides it. */
  lemma CloseSortedIff(max: nat, s: seq<Bar>, bar: Bar)
    requires Ascending(s) && max >= 2
    ensures Ascending(CloseSeries(max, s, bar)) <==> NotOlder(s, bar)
  {
    if NotOlder(s, bar) {
      CloseRefines(max, s, bar);
    } else {
      var t := CloseSeries(max, s, bar);
      assert t[|t| - 2] == s[|s| - 1] && t[|t| - 1].ts == bar.ts;
    }
  }

  predicate Trusted(op: Op) {
    match op
    case Close(_) => true
    case Install(bar) => bar.source != PARTIAL
    case Seed(bars) => forall i :: 0 <= i < |bars| ==> bars[i].source != PARTIAL
  }

  lemma WholeBarKept(max: nat, m: map<int, Bar>, op: Op, k: int)
    requires Keyed(m) && Trusted(op) && k in m && m[k].source != PARTIAL && k in ApplyMap(max, m, op)
    ensures ApplyMap(max, m, op)[k].source != PARTIAL
    ensures op.Close? && op.bar.source == PARTIAL ==> ApplyMap(max, m, op)[k] == m[k]
  {
    if op.Seed? && k in ByBucket(op.bars) {
      var i := BucketOf(op.bars, k);
    }
  }

  lemma {:induction false} MapHistoryKeyed(max: nat, ops: seq<Op>)
    ensures Keyed(MapHistory(max, ops))
  {
    if ops != [] {
      var n := |ops| - 1;
      MapHistoryKeyed(max, ops[..n]);
      if ops[n].Seed? {
        ByBucketKeyed(ops[n].bars);
      }
    }
  }

  /** A bucket that has held a whole bar never goes back to a partial one, for as long as it stays
      among the buckets held, whatever is closed, and whatever trusted bars are installed or seeded. */
  lemma {:induction false} WholeBarStays(max: nat, ops: seq<Op>, j: nat, k: int)
    requires j <= |ops| && forall i :: j <= i < |ops| ==> Trusted(ops[i])
    requires forall i :: j <= i <= |ops| ==> k in MapHistory(max, ops[..i])
    requires MapHistory(max, ops[..j])[k].source != PARTIAL
    ensures k in MapHistory(max, ops) && MapHistory(max, ops)[k].source != PARTIAL
    decreases |ops|
  {
    hide ApplyMap, Trusted;
    assert ops[..|ops|] == ops;
    if j < |ops| {
      var n := |ops| - 1;
      forall i | j <= i <= n ensures k in MapHistory(max, ops[..n][..i]) {
        assert ops[..n][..i] == ops[..i];
      }
      assert ops[..n][..j] == ops[..j];
      WholeBarStays(max, ops[..n], j, k);
      MapHistoryKeyed(max, ops[..n]);
      WholeBarKept(max, MapHistory(max, ops[..n]), ops[n], k);
    }
  }

  // ---- a series that only live bars reach -----------------------------------------------------

  /** What closing the bars one after another leaves. */
  function StoreAll(max: nat, bars: seq<Bar>): seq<Bar> {
    if bars == [] then [] else CloseSeries(max, StoreAll(max, bars[..|bars| - 1]), bars[|bars| - 1])
  }

  lemma StoreAllAppend(max: nat, bars: seq<Bar>, b: Bar)
    ensures StoreAll(max, bars + [Completed(b)]) == CloseSeries(max, StoreAll(max, bars), b)
  {
    assert (bars + [Completed(b)])[..|bars|] == bars;
  }

  lemma TrimTwice(s: seq<Bar>, b: Bar, max: nat)
    ensures Trim(Trim(s, max) + [b], max) == Trim(s + [b], max)
    ensures Trim(s, max) != [] ==> s != [] && Trim(s, max)[|Trim(s, max)| - 1] == s[|s| - 1]
  {
  }

  lemma CloseNewer(max: nat, s: seq<Bar>, b: Bar)
    requires b.complete && (s != [] ==> s[|s| - 1].ts < b.ts)
    ensures CloseSeries(max, s, b) == Trim(s + [b], max)
  {
    hide Trim;
  }

  /** Bars closed in order of their buckets are all kept, up to the newest `max`. */
  lemma {:induction false} StoreAllTrims(max: nat, bars: seq<Bar>)
    requires Ascending(bars) && forall i :: 0 <= i < |bars| ==> bars[i].complete
    ensures StoreAll(max, bars) == Trim(bars, max)
  {
    hide Trim, CloseSeries, Ascending;
    if bars == [] {
      assert Trim([], max) == [] by { TrimNothing(max); }
    } else {
      var n := |bars| - 1;
      PrefixAscends(bars);
      StoreAllTrims(max, bars[..n]);
      TrimTwice(bars[..n], bars[n], max);
      CloseNewer(max, Trim(bars[..n], max), bars[n]);
      assert bars[..n] + [bars[n]] == bars;
    }
  }

  lemma TrimNothing(max: nat)
    ensures Trim([], max) == []
  {
  }

  // ---- marking a bar confirmed ----------------------------------------------------------------

  function Confirmed(bar: Bar): Bar { bar.(confirmed := true) }

  /** The series once this very bar, wherever it is held, has been marked. */
  function Marked(s: seq<Bar>, bar: Bar): (r: seq<Bar>)
    ensures |r| == |s| && forall i :: 0 <= i < |s| ==> r[i] == if s[i] == bar then Confirmed(bar) else s[i]
  {
    seq(|s|, i requires 0 <= i < |s| => if s[i] == bar then Confirmed(bar) else s[i])
  }

  /** Marking changes the bar's own bucket and nothing else, and only when the bar is the one held. */
  lemma {:induction false} MarkedMaps(s: seq<Bar>, bar: Bar)
    requires Ascending(s)
    ensures Ascending(Marked(s, bar))
    ensures ByBucket(Marked(s, bar)) == if bar in s then ByBucket(s)[bar.ts := Confirmed(bar)] else ByBucket(s)
  {
    hide Ascending, ByBucket;
    SameStartsAscend(s, Marked(s, bar));
    if s == [] {
      assert Marked(s, bar) == s;
    } else {
      var n := |s| - 1;
      PrefixAscends(s);
      MarkedMaps(s[..n], bar);
      var last := if s[n] == bar then Confirmed(bar) else s[n];
      assert s == s[..n] + [s[n]] && Marked(s, bar) == Marked(s[..n], bar) + [last];
      ByBucketAppend(s[..n], s[n]);
      ByBucketAppend(Marked(s[..n], bar), last);
    }
  }
}
