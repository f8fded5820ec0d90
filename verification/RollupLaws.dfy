/** What the bars mean: each is the summary of the ticks of its bucket, and a coarse bar is the
    roll-up of the fine bars inside it. */
module RollupLaws {
  import opened Wrappers
  import opened Session
  import opened Bars
  import opened Rollup

  // ---- a bar is the summary of its bucket's ticks ---------------------------------------------

  function InBucket(feed: Feed, tf: Timeframe, bucket: int, ps: seq<Print>): seq<Print> {
    if ps == [] then []
    else
      var rest, p := InBucket(feed, tf, bucket, ps[..|ps| - 1]), ps[|ps| - 1];
      if BucketStart(feed.segment, p.ts, tf) == bucket then rest + [p] else rest
  }

  function PrintHigh(p: Print): real { if p.newHigh.Some? then Max(p.price, p.newHigh.value) else p.price }

  function PrintLow(p: Print): real { if p.newLow.Some? then Min(p.price, p.newLow.value) else p.price }

  function Highest(ps: seq<Print>): real
    requires ps != []
  {
    var p := PrintHigh(ps[|ps| - 1]);
    if |ps| == 1 then p else Max(Highest(ps[..|ps| - 1]), p)
  }

  function Lowest(ps: seq<Print>): real
    requires ps != []
  {
    var p := PrintLow(ps[|ps| - 1]);
    if |ps| == 1 then p else Min(Lowest(ps[..|ps| - 1]), p)
  }

  function Quantity(ps: seq<Print>): real {
    if ps == [] then 0.0 else Quantity(ps[..|ps| - 1]) + ps[|ps| - 1].qty
  }

  function Summary(ps: seq<Print>): Ohlcv
    requires ps != []
  {
    Ohlcv(ps[0].price, Highest(ps), Lowest(ps), ps[|ps| - 1].price, Quantity(ps), |ps|)
  }

  /** Good ticks whose buckets never go back; inside a bucket they may come in any order. */
  predicate InStep(feed: Feed, tf: Timeframe, ps: seq<Print>) {
    && (forall i :: 0 <= i < |ps| ==> InSession(feed.segment, ps[i].ts) && ps[i].price > 0.0)
    && (forall i, j :: 0 <= i < j < |ps| ==>
          BucketStart(feed.segment, ps[i].ts, tf) <= BucketStart(feed.segment, ps[j].ts, tf))
  }

  lemma AbsorbSummary(b: Bar, group: seq<Print>, p: Print)
    requires group != [] && b.data == Summary(group) && p.price > 0.0
    ensures Absorb(b, p).data == Summary(group + [p]) && Absorb(b, p).context == p.context
    ensures Absorb(b, p).ts == b.ts
  {
    assert (group + [p])[..|group|] == group;
  }

  predicate BarsSummarise(feed: Feed, tf: Timeframe, bars: seq<Bar>, ps: seq<Print>) {
    forall i :: 0 <= i < |bars| ==> SummarisedBy(feed, tf, bars[i], ps)
  }

  predicate SummarisedBy(feed: Feed, tf: Timeframe, b: Bar, ps: seq<Print>) {
    var group := InBucket(feed, tf, b.ts, ps);
    group != [] && b.data == Summary(group) && b.context == group[|group| - 1].context
  }

  predicate Listed(bars: seq<Bar>, bucket: int) {
    exists k :: 0 <= k < |bars| && bars[k].ts == bucket
  }

  predicate EveryTickListed(feed: Feed, tf: Timeframe, bars: seq<Bar>, ps: seq<Print>) {
    forall i :: 0 <= i < |ps| ==> Listed(bars, BucketStart(feed.segment, ps[i].ts, tf))
  }

  lemma StepPrefix(feed: Feed, tf: Timeframe, ps: seq<Print>)
    requires ps != [] && InStep(feed, tf, ps)
    ensures InStep(feed, tf, ps[..|ps| - 1])
  {
    hide BucketStart, InSession;
  }

  predicate EndsAt(feed: Feed, tf: Timeframe, bars: seq<Bar>, ps: seq<Print>) {
    if ps == [] then bars == []
    else bars != [] && bars[|bars| - 1].ts == BucketStart(feed.segment, ps[|ps| - 1].ts, tf)
  }

  lemma {:induction false} GroupedEnds(feed: Feed, tf: Timeframe, ps: seq<Print>)
    ensures EndsAt(feed, tf, Grouped(feed, tf, ps), ps)
  {
    hide BucketStart;
    if ps != [] {
      AddPrintShape(feed, tf, Grouped(feed, tf, ps[..|ps| - 1]), ps[|ps| - 1]);
    }
  }

  /** Grouping ticks whose buckets never go back gives one bar per bucket that traded, ascending, each
      the summary of exactly its bucket's ticks. */
  lemma {:induction false} GroupedSummarises(feed: Feed, tf: Timeframe, ps: seq<Print>)
    requires InStep(feed, tf, ps)
    ensures Ascending(Grouped(feed, tf, ps))
    ensures BarsSummarise(feed, tf, Grouped(feed, tf, ps), ps)
    ensures EndsAt(feed, tf, Grouped(feed, tf, ps), ps)
    decreases |ps|
  {
    assert ps == [] ==> Ascending([]) && BarsSummarise(feed, tf, [], ps) && EndsAt(feed, tf, [], ps);
    hide BucketStart, BucketEnd, InSession, InStep, AddPrint, Ascending, BarsSummarise, EndsAt;
    if ps != [] {
      var n := |ps| - 1;
      StepPrefix(feed, tf, ps);
      GroupedSummarises(feed, tf, ps[..n]);
      PrintExtends(feed, tf, Grouped(feed, tf, ps[..n]), ps);
      GroupedEnds(feed, tf, ps);
    }
  }

  lemma {:induction false} EmptyBucket(feed: Feed, tf: Timeframe, ps: seq<Print>, bucket: int)
    requires forall i :: 0 <= i < |ps| ==> BucketStart(feed.segment, ps[i].ts, tf) < bucket
    ensures InBucket(feed, tf, bucket, ps) == []
  {
    if ps != [] {
      EmptyBucket(feed, tf, ps[..|ps| - 1], bucket);
    }
  }

  lemma NewBucketIsEmpty(feed: Feed, tf: Timeframe, ps: seq<Print>)
    requires ps != [] && InStep(feed, tf, ps)
    requires var n := |ps| - 1;
      n > 0 ==> BucketStart(feed.segment, ps[n - 1].ts, tf) != BucketStart(feed.segment, ps[n].ts, tf)
    ensures InBucket(feed, tf, BucketStart(feed.segment, ps[|ps| - 1].ts, tf), ps[..|ps| - 1]) == []
  {
    hide BucketStart, BucketEnd, InSession;
    var n := |ps| - 1;
    forall i | 0 <= i < n
      ensures BucketStart(feed.segment, ps[..n][i].ts, tf) < BucketStart(feed.segment, ps[n].ts, tf)
    {
      assert BucketStart(feed.segment, ps[i].ts, tf) <= BucketStart(feed.segment, ps[n - 1].ts, tf);
    }
    EmptyBucket(feed, tf, ps[..n], BucketStart(feed.segment, ps[n].ts, tf));
  }

  /** A print either absorbs into the last bar or opens one; earlier bars stay. */
  lemma AddPrintShape(feed: Feed, tf: Timeframe, bars: seq<Bar>, p: Print)
    ensures var after, bucket := AddPrint(feed, tf, bars, p), BucketStart(feed.segment, p.ts, tf);
      && after != [] && after[|after| - 1].ts == bucket
      && after[..|after| - 1] <= bars
      && (if bars != [] && bars[|bars| - 1].ts == bucket
          then |after| == |bars| && after[|after| - 1] == Absorb(bars[|bars| - 1], p)
          else |after| == |bars| + 1 && after[|after| - 1] == FirstBar(feed, tf, p))
  {
  }

  lemma LastSummarised(feed: Feed, tf: Timeframe, before: seq<Bar>, ps: seq<Print>)
    requires ps != [] && InStep(feed, tf, ps)
    requires BarsSummarise(feed, tf, before, ps[..|ps| - 1]) && EndsAt(feed, tf, before, ps[..|ps| - 1])
    ensures var after := AddPrint(feed, tf, before, ps[|ps| - 1]);
      after != [] && SummarisedBy(feed, tf, after[|after| - 1], ps)
  {
    hide BucketStart, InSession, FirstBar, Absorb, AddPrint, Summary, InBucket, InStep;
    AddPrintShape(feed, tf, before, ps[|ps| - 1]);
    var n, p := |ps| - 1, ps[|ps| - 1];
    var bucket := BucketStart(feed.segment, p.ts, tf);
    LastInBucket(feed, tf, ps);
    assert p.price > 0.0 by { LastIsGood(feed, tf, ps); }
    if before != [] && before[|before| - 1].ts == bucket {
      assert SummarisedBy(feed, tf, before[|before| - 1], ps[..n]);
      AbsorbSummary(before[|before| - 1], InBucket(feed, tf, bucket, ps[..n]), p);
    } else {
      NewBucketIsEmpty(feed, tf, ps);
      FirstSummary(feed, tf, p);
      assert [] + [p] == [p];
    }
  }

  lemma LastInBucket(feed: Feed, tf: Timeframe, ps: seq<Print>)
    requires ps != []
    ensures var n := |ps| - 1; var bucket := BucketStart(feed.segment, ps[n].ts, tf);
      InBucket(feed, tf, bucket, ps) == InBucket(feed, tf, bucket, ps[..n]) + [ps[n]]
  {
    hide BucketStart;
  }

  lemma LastIsGood(feed: Feed, tf: Timeframe, ps: seq<Print>)
    requires ps != [] && InStep(feed, tf, ps)
    ensures ps[|ps| - 1].price > 0.0
  {
  }

  lemma FirstSummary(feed: Feed, tf: Timeframe, p: Print)
    requires p.price > 0.0
    ensures FirstBar(feed, tf, p).data == Summary([p])
    ensures FirstBar(feed, tf, p).context == p.context
  {
    assert [p][..0] == [];
    assert Quantity([p]) == Quantity([]) + p.qty;
  }

  lemma PrintExtends(feed: Feed, tf: Timeframe, before: seq<Bar>, ps: seq<Print>)
    requires ps != [] && InStep(feed, tf, ps) && Ascending(before)
    requires BarsSummarise(feed, tf, before, ps[..|ps| - 1])
    requires EndsAt(feed, tf, before, ps[..|ps| - 1])
    ensures Ascending(AddPrint(feed, tf, before, ps[|ps| - 1]))
    ensures BarsSummarise(feed, tf, AddPrint(feed, tf, before, ps[|ps| - 1]), ps)
  {
    hide *;
    LastSummarised(feed, tf, before, ps);
    AddPrintAscends(feed, tf, before, ps);
    EarlierStaySummarised(feed, tf, before, ps);
  }

  lemma AddPrintAscends(feed: Feed, tf: Timeframe, before: seq<Bar>, ps: seq<Print>)
    requires ps != [] && InStep(feed, tf, ps) && Ascending(before)
    requires EndsAt(feed, tf, before, ps[..|ps| - 1])
    ensures Ascending(AddPrint(feed, tf, before, ps[|ps| - 1]))
  {
    hide BucketStart, InSession, FirstBar, Absorb, AddPrint;
    var n := |ps| - 1;
    AddPrintShape(feed, tf, before, ps[n]);
    assert n > 0 ==> BucketStart(feed.segment, ps[n - 1].ts, tf) <= BucketStart(feed.segment, ps[n].ts, tf);
  }

  lemma EarlierStaySummarised(feed: Feed, tf: Timeframe, before: seq<Bar>, ps: seq<Print>)
    requires ps != [] && Ascending(AddPrint(feed, tf, before, ps[|ps| - 1]))
    requires BarsSummarise(feed, tf, before, ps[..|ps| - 1])
    requires var after := AddPrint(feed, tf, before, ps[|ps| - 1]);
      after != [] && SummarisedBy(feed, tf, after[|after| - 1], ps)
    ensures BarsSummarise(feed, tf, AddPrint(feed, tf, before, ps[|ps| - 1]), ps)
  {
    hide BucketStart, FirstBar, Absorb, AddPrint, Summary;
    AddPrintShape(feed, tf, before, ps[|ps| - 1]);
    var after := AddPrint(feed, tf, before, ps[|ps| - 1]);
    forall i | 0 <= i < |after| ensures SummarisedBy(feed, tf, after[i], ps) {
      if i < |after| - 1 {
        assert after[i] == after[..|after| - 1][i] == before[i];
        assert SummarisedBy(feed, tf, before[i], ps[..|ps| - 1]);
      }
    }
  }

  lemma ListedKept(feed: Feed, tf: Timeframe, bars: seq<Bar>, p: Print, bucket: int)
    requires Listed(bars, bucket)
    ensures Listed(AddPrint(feed, tf, bars, p), bucket)
  {
    var k :| 0 <= k < |bars| && bars[k].ts == bucket;
    assert AddPrint(feed, tf, bars, p)[k].ts == bucket;
  }

  lemma {:induction false} EveryTickGrouped(feed: Feed, tf: Timeframe, ps: seq<Print>)
    ensures EveryTickListed(feed, tf, Grouped(feed, tf, ps), ps)
  {
    hide BucketStart, AddPrint, Listed;
    if ps != [] {
      var n := |ps| - 1;
      var before := Grouped(feed, tf, ps[..n]);
      EveryTickGrouped(feed, tf, ps[..n]);
      AddPrintShape(feed, tf, before, ps[n]);
      LastListed(Grouped(feed, tf, ps));
      forall i | 0 <= i < n ensures Listed(Grouped(feed, tf, ps), BucketStart(feed.segment, ps[i].ts, tf)) {
        assert ps[..n][i] == ps[i];
        ListedKept(feed, tf, before, ps[n], BucketStart(feed.segment, ps[i].ts, tf));
      }
    }
  }

  lemma LastListed(bars: seq<Bar>)
    requires bars != []
    ensures Listed(bars, bars[|bars| - 1].ts)
  {
  }

  /** Safety over whole runs: whatever the interleaving of ticks and flushes, as long as no tick is
      late, each bucket is emitted at most once, in order, each bar is the summary of exactly its
      bucket's ticks (their recovered day extremes included), and every tick is in some bar. */
  lemma BarsSummariseTicks(feed: Feed, tf: Timeframe, es: seq<Event>)
    requires OnTime(feed, tf, es) && InHours(feed.segment, es)
    ensures Ascending(Produced(Run(feed, tf, es)))
    ensures BarsSummarise(feed, tf, Produced(Run(feed, tf, es)), Ticks(es))
    ensures EveryTickListed(feed, tf, Produced(Run(feed, tf, es)), Ticks(es))
    ensures Run(feed, tf, es).late == []
  {
    hide *;
    OnTimeInStep(feed, tf, es);
    GroupedSummarises(feed, tf, Ticks(es));
    EveryTickGrouped(feed, tf, Ticks(es));
    ProducedIsGrouped(feed, tf, es);
    CompletedSummarise(feed, tf, Grouped(feed, tf, Ticks(es)), Ticks(es));
  }

  /** The buckets of a run without late ticks never go back. */
  lemma {:induction false} OnTimeInStep(feed: Feed, tf: Timeframe, es: seq<Event>)
    requires OnTime(feed, tf, es) && InHours(feed.segment, es)
    ensures InStep(feed, tf, Ticks(es))
    decreases |es|
  {
    hide BucketStart, BucketEnd, InSession, OnTime, Grouped, Run;
    if es != [] {
      var n := |es| - 1;
      OnTimePrefix(feed, tf, es);
      OnTimeInStep(feed, tf, es[..n]);
      if es[n].Tick? {
        var ps := Ticks(es[..n]);
        OnTimeShows(feed, tf, es[..n]);
        GroupedEnds(feed, tf, ps);
        assert Ticks(es) == ps + [es[n].p];
      }
    }
  }

  lemma CompletedSummarise(feed: Feed, tf: Timeframe, bars: seq<Bar>, ps: seq<Print>)
    requires Ascending(bars) && BarsSummarise(feed, tf, bars, ps) && EveryTickListed(feed, tf, bars, ps)
    ensures Ascending(Completes(bars)) && BarsSummarise(feed, tf, Completes(bars), ps)
    ensures EveryTickListed(feed, tf, Completes(bars), ps)
  {
    hide BucketStart, Summary, InBucket;
    var made := Completes(bars);
    forall i | 0 <= i < |made| ensures SummarisedBy(feed, tf, made[i], ps) {
      assert SummarisedBy(feed, tf, bars[i], ps);
    }
    forall i | 0 <= i < |ps| ensures Listed(made, BucketStart(feed.segment, ps[i].ts, tf)) {
      var k :| 0 <= k < |bars| && bars[k].ts == BucketStart(feed.segment, ps[i].ts, tf);
      assert made[k].ts == bars[k].ts;
    }
  }

  // ---- roll-up --------------------------------------------------------------------------------

  /** Everything a series has built so far, the forming bar last. */
  function Produced(l: Line): seq<Bar> {
    if l.forming.Some? then l.emitted + [Completed(l.forming.value)] else l.emitted
  }

  lemma ProducedIsGrouped(feed: Feed, tf: Timeframe, es: seq<Event>)
    requires OnTime(feed, tf, es)
    ensures Produced(Run(feed, tf, es)) == Completes(Grouped(feed, tf, Ticks(es)))
    ensures Run(feed, tf, es).late == []
  {
    hide Run, Grouped, Ticks, NeverReopens;
    OnTimeShows(feed, tf, es);
  }

  /** The fine bars lying in one coarse bucket, in order. */
  function Within(seg: Segment, coarse: Timeframe, bars: seq<Bar>, bucket: int): seq<Bar> {
    if bars == [] then []
    else
      var rest, b := Within(seg, coarse, bars[..|bars| - 1], bucket), bars[|bars| - 1];
      if BucketStart(seg, b.ts, coarse) == bucket then rest + [b] else rest
  }

  function RollUp(bars: seq<Bar>): Ohlcv
    requires bars != []
  {
    var d := bars[|bars| - 1].data;
    if |bars| == 1 then d
    else
      var r := RollUp(bars[..|bars| - 1]);
      Ohlcv(r.open, Max(r.high, d.high), Min(r.low, d.low), d.close, r.volume + d.volume, r.trades + d.trades)
  }

  /** The coarse bar is its children rolled up: first open, last close and context, extreme high and
      low, summed volume and trades; and a coarse bar marked live has only live children. */
  predicate RollsUp(coarse: Bar, children: seq<Bar>) {
    && children != []
    && coarse.data == RollUp(children)
    && coarse.context == children[|children| - 1].context
    && (coarse.source == LIVE ==> forall i :: 0 <= i < |children| ==> children[i].source == LIVE)
  }

  predicate Sourced(feed: Feed, b: Bar) {
    b.source == if b.ts < feed.connectedSince - 1 then PARTIAL else LIVE
  }

  lemma AbsorbRollsUp(coarse: Bar, children: seq<Bar>, p: Print)
    requires RollsUp(coarse, children) && p.price > 0.0
    ensures RollsUp(Absorb(coarse, p), children[..|children| - 1] + [Absorb(children[|children| - 1], p)])
  {
    var n := |children| - 1;
    var after := children[..n] + [Absorb(children[n], p)];
    assert after[..n] == children[..n];
    forall i | 0 <= i < |after| && coarse.source == LIVE ensures after[i].source == LIVE {
      assert children[i].source == LIVE;
    }
  }

  lemma AppendRollsUp(feed: Feed, coarse: Bar, children: seq<Bar>, fine: Timeframe, p: Print)
    requires RollsUp(coarse, children) && p.price > 0.0 && Sourced(feed, coarse)
    requires coarse.ts <= BucketStart(feed.segment, p.ts, fine)
    ensures RollsUp(Absorb(coarse, p), children + [FirstBar(feed, fine, p)])
  {
    assert (children + [FirstBar(feed, fine, p)])[..|children|] == children;
  }

  lemma FirstRollsUp(feed: Feed, fine: Timeframe, coarse: Timeframe, p: Print)
    requires InSession(feed.segment, p.ts) && Refines(fine, coarse)
    ensures Sourced(feed, FirstBar(feed, coarse, p))
    ensures FirstBar(feed, coarse, p).ts == BucketStart(feed.segment, p.ts, coarse)
    ensures RollsUp(FirstBar(feed, coarse, p), [FirstBar(feed, fine, p)])
  {
    hide BucketStart, BucketEnd, InSession;
    BucketNested(feed.segment, p.ts, fine, coarse);
  }

  predicate RollsUpWithin(feed: Feed, coarse: Timeframe, b: Bar, inner: seq<Bar>) {
    Sourced(feed, b) && RollsUp(b, Within(feed.segment, coarse, inner, b.ts))
  }

  predicate AllRollUp(feed: Feed, coarse: Timeframe, outer: seq<Bar>, inner: seq<Bar>) {
    forall i :: 0 <= i < |outer| ==> RollsUpWithin(feed, coarse, outer[i], inner)
  }

  /** The fine bars lie in ascending coarse buckets, up to the one of the last coarse bar. */
  predicate Nested(seg: Segment, coarse: Timeframe, outer: seq<Bar>, inner: seq<Bar>) {
    && (inner == [] <==> outer == [])
    && (inner != [] ==> BucketStart(seg, inner[|inner| - 1].ts, coarse) == outer[|outer| - 1].ts)
    && (forall i :: 0 <= i < |inner| ==> BucketStart(seg, inner[i].ts, coarse) <= outer[|outer| - 1].ts)
  }

  lemma {:induction false} WithinNone(seg: Segment, coarse: Timeframe, bars: seq<Bar>, bucket: int)
    requires forall i :: 0 <= i < |bars| ==> BucketStart(seg, bars[i].ts, coarse) < bucket
    ensures Within(seg, coarse, bars, bucket) == []
  {
    if bars != [] {
      WithinNone(seg, coarse, bars[..|bars| - 1], bucket);
    }
  }

  lemma {:induction false} GroupsRollUp(feed: Feed, fine: Timeframe, coarse: Timeframe, ps: seq<Print>)
    requires InStep(feed, coarse, ps) && Refines(fine, coarse)
    ensures AllRollUp(feed, coarse, Grouped(feed, coarse, ps), Grouped(feed, fine, ps))
    ensures Nested(feed.segment, coarse, Grouped(feed, coarse, ps), Grouped(feed, fine, ps))
    decreases |ps|
  {
    hide BucketStart, BucketEnd, InSession, RollsUpWithin;
    if ps != [] {
      var n := |ps| - 1;
      var inner, outer := Grouped(feed, fine, ps[..n]), Grouped(feed, coarse, ps[..n]);
      StepPrefix(feed, coarse, ps);
      GroupsRollUp(feed, fine, coarse, ps[..n]);
      GroupedSummarises(feed, coarse, ps[..n]);
      GroupedSummarises(feed, coarse, ps);
      BucketNested(feed.segment, ps[n].ts, fine, coarse);
      assert n > 0 ==> BucketStart(feed.segment, ps[n - 1].ts, coarse) <= BucketStart(feed.segment, ps[n].ts, coarse);
      PrintRollsUp(feed, fine, coarse, inner, outer, ps[n]);
    }
  }

  lemma PrintRollsUp(feed: Feed, fine: Timeframe, coarse: Timeframe, inner: seq<Bar>, outer: seq<Bar>, p: Print)
    requires InSession(feed.segment, p.ts) && p.price > 0.0 && Refines(fine, coarse)
    requires Ascending(AddPrint(feed, coarse, outer, p))
    requires AllRollUp(feed, coarse, outer, inner) && Nested(feed.segment, coarse, outer, inner)
    requires outer != [] ==> outer[|outer| - 1].ts <= BucketStart(feed.segment, p.ts, coarse)
    ensures AllRollUp(feed, coarse, AddPrint(feed, coarse, outer, p), AddPrint(feed, fine, inner, p))
    ensures Nested(feed.segment, coarse, AddPrint(feed, coarse, outer, p), AddPrint(feed, fine, inner, p))
  {
    hide BucketStart, InSession, FirstBar, Absorb, AddPrint, RollsUpWithin;
    BucketNested(feed.segment, p.ts, fine, coarse);
    AddPrintShape(feed, coarse, outer, p);
    AddPrintShape(feed, fine, inner, p);
    var outer', inner' := AddPrint(feed, coarse, outer, p), AddPrint(feed, fine, inner, p);
    forall i | 0 <= i < |outer'| ensures RollsUpWithin(feed, coarse, outer'[i], inner') {
      if i < |outer'| - 1 {
        assert outer'[i] == outer'[..|outer'| - 1][i] == outer[i];
        assert RollsUpWithin(feed, coarse, outer[i], inner);
        EarlierChildrenKept(feed, fine, coarse, inner, outer[i], p);
      } else if outer != [] && outer[|outer| - 1].ts == BucketStart(feed.segment, p.ts, coarse) {
        assert RollsUpWithin(feed, coarse, outer[i], inner);
        FormingRollsUp(feed, fine, coarse, inner, outer[i], p);
      } else {
        OpeningRollsUp(feed, fine, coarse, inner, p);
      }
    }
  }

  lemma WithinLast(seg: Segment, coarse: Timeframe, bars: seq<Bar>, init: seq<Bar>, last: Bar, bucket: int)
    requires bars == init + [last]
    ensures Within(seg, coarse, bars, bucket) ==
      Within(seg, coarse, init, bucket) + (if BucketStart(seg, last.ts, coarse) == bucket then [last] else [])
  {
    assert bars[..|bars| - 1] == init;
  }

  lemma EarlierChildrenKept(feed: Feed, fine: Timeframe, coarse: Timeframe, inner: seq<Bar>, c: Bar, p: Print)
    requires InSession(feed.segment, p.ts) && Refines(fine, coarse)
    requires c.ts < BucketStart(feed.segment, p.ts, coarse) && RollsUpWithin(feed, coarse, c, inner)
    ensures RollsUpWithin(feed, coarse, c, AddPrint(feed, fine, inner, p))
  {
    hide BucketStart, InSession, FirstBar, Absorb, AddPrint, RollsUp, Within;
    BucketNested(feed.segment, p.ts, fine, coarse);
    AddPrintShape(feed, fine, inner, p);
    var inner' := AddPrint(feed, fine, inner, p);
    WithinLast(feed.segment, coarse, inner', inner'[..|inner'| - 1], inner'[|inner'| - 1], c.ts);
    if |inner'| == |inner| {
      WithinLast(feed.segment, coarse, inner, inner'[..|inner'| - 1], inner[|inner| - 1], c.ts);
    } else {
      assert inner'[..|inner'| - 1] == inner;
    }
    assert Within(feed.segment, coarse, inner', c.ts) == Within(feed.segment, coarse, inner, c.ts);
  }

  lemma FormingRollsUp(feed: Feed, fine: Timeframe, coarse: Timeframe, inner: seq<Bar>, c: Bar, p: Print)
    requires InSession(feed.segment, p.ts) && p.price > 0.0 && Refines(fine, coarse)
    requires RollsUpWithin(feed, coarse, c, inner)
    requires inner != []
    requires BucketStart(feed.segment, inner[|inner| - 1].ts, coarse) == c.ts == BucketStart(feed.segment, p.ts, coarse)
    ensures RollsUpWithin(feed, coarse, Absorb(c, p), AddPrint(feed, fine, inner, p))
  {
    hide BucketStart, InSession, FirstBar, Absorb, AddPrint, RollsUp, Within, Sourced;
    BucketNested(feed.segment, p.ts, fine, coarse);
    AddPrintShape(feed, fine, inner, p);
    var inner' := AddPrint(feed, fine, inner, p);
    var children := Within(feed.segment, coarse, inner, c.ts);
    WithinLast(feed.segment, coarse, inner', inner'[..|inner'| - 1], inner'[|inner'| - 1], c.ts);
    if |inner'| == |inner| {
      WithinLast(feed.segment, coarse, inner, inner'[..|inner'| - 1], inner[|inner| - 1], c.ts);
      assert children[..|children| - 1] == Within(feed.segment, coarse, inner'[..|inner'| - 1], c.ts);
      AbsorbRollsUp(c, children, p);
    } else {
      assert inner'[..|inner'| - 1] == inner;
      AppendRollsUp(feed, c, children, fine, p);
    }
    AbsorbKeepsSource(feed, c, p);
  }

  lemma AbsorbKeepsSource(feed: Feed, b: Bar, p: Print)
    requires Sourced(feed, b)
    ensures Sourced(feed, Absorb(b, p)) && Absorb(b, p).ts == b.ts
  {
  }

  lemma OpeningRollsUp(feed: Feed, fine: Timeframe, coarse: Timeframe, inner: seq<Bar>, p: Print)
    requires InSession(feed.segment, p.ts) && Refines(fine, coarse)
    requires forall i :: 0 <= i < |inner| ==>
      BucketStart(feed.segment, inner[i].ts, coarse) < BucketStart(feed.segment, p.ts, coarse)
    ensures RollsUpWithin(feed, coarse, FirstBar(feed, coarse, p), AddPrint(feed, fine, inner, p))
  {
    hide BucketStart, InSession, FirstBar, AddPrint, Within, RollsUp, Sourced;
    BucketNested(feed.segment, p.ts, fine, coarse);
    AddPrintShape(feed, fine, inner, p);
    var inner' := AddPrint(feed, fine, inner, p);
    assert inner'[..|inner'| - 1] == inner;
    WithinLast(feed.segment, coarse, inner', inner, inner'[|inner'| - 1], BucketStart(feed.segment, p.ts, coarse));
    WithinNone(feed.segment, coarse, inner, BucketStart(feed.segment, p.ts, coarse));
    FirstRollsUp(feed, fine, coarse, p);
    assert Within(feed.segment, coarse, inner', BucketStart(feed.segment, p.ts, coarse)) == [FirstBar(feed, fine, p)];
  }

  // ---- the refinement theorem -----------------------------------------------------------------

  lemma CompletedRollUp(feed: Feed, coarse: Timeframe, outer: seq<Bar>, inner: seq<Bar>)
    requires AllRollUp(feed, coarse, outer, inner)
    ensures AllRollUp(feed, coarse, Completes(outer), Completes(inner))
  {
    hide BucketStart, RollsUp, Within;
    forall i | 0 <= i < |outer| ensures RollsUpWithin(feed, coarse, Completes(outer)[i], Completes(inner)) {
      assert RollsUpWithin(feed, coarse, outer[i], inner);
      WithinCompletes(feed.segment, coarse, inner, outer[i].ts);
      CompletesRollUp(outer[i], Within(feed.segment, coarse, inner, outer[i].ts));
    }
  }

  lemma {:induction false} WithinCompletes(seg: Segment, coarse: Timeframe, inner: seq<Bar>, bucket: int)
    ensures Within(seg, coarse, Completes(inner), bucket) == Completes(Within(seg, coarse, inner, bucket))
  {
    hide BucketStart;
    if inner != [] {
      var n := |inner| - 1;
      assert Completes(inner)[..n] == Completes(inner[..n]);
      WithinCompletes(seg, coarse, inner[..n], bucket);
    }
  }

  lemma {:induction false} RollUpCompletes(children: seq<Bar>)
    requires children != []
    ensures RollUp(Completes(children)) == RollUp(children)
  {
    var n := |children| - 1;
    assert Completes(children)[..n] == Completes(children[..n]);
    if n > 0 {
      RollUpCompletes(children[..n]);
    }
  }

  lemma CompletesRollUp(coarse: Bar, children: seq<Bar>)
    requires RollsUp(coarse, children)
    ensures RollsUp(Completed(coarse), Completes(children))
  {
    RollUpCompletes(children);
    forall i | 0 <= i < |children| && coarse.source == LIVE ensures Completes(children)[i].source == LIVE {
      assert children[i].source == LIVE;
    }
  }

  /** The roll-up refinement: on any two schedules of the same ticks, however differently the clock
      flushed the two series, if neither saw a late tick then every coarse bar is the roll-up of the
      fine bars in its bucket. */
  lemma RollUpRefinement(feed: Feed, fine: Timeframe, coarse: Timeframe, esFine: seq<Event>, esCoarse: seq<Event>)
    requires Refines(fine, coarse) && Ticks(esFine) == Ticks(esCoarse) && InHours(feed.segment, esCoarse)
    requires OnTime(feed, fine, esFine) && OnTime(feed, coarse, esCoarse)
    ensures AllRollUp(feed, coarse, Produced(Run(feed, coarse, esCoarse)), Produced(Run(feed, fine, esFine)))
  {
    hide *;
    OnTimeInStep(feed, coarse, esCoarse);
    ProducedIsGrouped(feed, fine, esFine);
    ProducedIsGrouped(feed, coarse, esCoarse);
    GroupsRollUp(feed, fine, coarse, Ticks(esFine));
    CompletedRollUp(feed, coarse, Grouped(feed, coarse, Ticks(esFine)), Grouped(feed, fine, Ticks(esFine)));
  }

  /** The same with a hypothesis on the ticks and clock calls alone: each tick is for a later bucket than
      the one before, or for the same one before the clock passed its end. */
  lemma RollUpInOrder(feed: Feed, fine: Timeframe, coarse: Timeframe, esFine: seq<Event>, esCoarse: seq<Event>)
    requires Refines(fine, coarse) && Ticks(esFine) == Ticks(esCoarse) && InHours(feed.segment, esCoarse)
    requires TicksInOrder(feed, fine, esFine) && TicksInOrder(feed, coarse, esCoarse)
    ensures AllRollUp(feed, coarse, Produced(Run(feed, coarse, esCoarse)), Produced(Run(feed, fine, esFine)))
  {
    hide *;
    OnTimeIff(feed, fine, esFine);
    OnTimeIff(feed, coarse, esCoarse);
    RollUpRefinement(feed, fine, coarse, esFine, esCoarse);
  }

  lemma {:induction false} GroupedOnGrid(feed: Feed, tf: Timeframe, ps: seq<Print>)
    requires forall i :: 0 <= i < |ps| ==> InSession(feed.segment, ps[i].ts)
    ensures forall i :: 0 <= i < |Grouped(feed, tf, ps)| ==> OnGrid(feed, tf, Grouped(feed, tf, ps)[i])
  {
    hide BucketStart, BucketEnd, InSession;
    if ps != [] {
      var n := |ps| - 1;
      GroupedOnGrid(feed, tf, ps[..n]);
      BucketSpan(feed.segment, ps[n].ts, tf);
      BucketIdempotent(feed.segment, ps[n].ts, tf);
    }
  }

  lemma FormingIsLast(feed: Feed, tf: Timeframe, es: seq<Event>)
    requires OnTime(feed, tf, es) && InHours(feed.segment, es)
    ensures var l, bars := Run(feed, tf, es), Grouped(feed, tf, Ticks(es));
      l.forming.Some? ==> bars != [] && l.forming.value == bars[|bars| - 1] && OnGrid(feed, tf, l.forming.value)
  {
    hide Run, Grouped, Ticks, BucketStart, OnGrid, Completes, OnTime, InHours, BucketEnd;
    OnTimeShows(feed, tf, es);
    OnTimeInStep(feed, tf, es);
    GroupedOnGrid(feed, tf, Ticks(es));
  }

  lemma FormingNested(feed: Feed, fine: Timeframe, coarse: Timeframe, es: seq<Event>)
    requires Refines(fine, coarse) && InHours(feed.segment, es) && OnTime(feed, fine, es) && OnTime(feed, coarse, es)
    ensures var f, c := Run(feed, fine, es).forming, Run(feed, coarse, es).forming;
      f.Some? && c.Some? ==>
        && BucketStart(feed.segment, f.value.ts, coarse) == c.value.ts
        && BucketEnd(feed.segment, f.value.ts, fine) <= BucketEnd(feed.segment, c.value.ts, coarse)
  {
    hide Run, Grouped, Ticks, BucketStart, BucketEnd, InSession, InHours, OnTime, Refines, AllRollUp, InStep;
    FormingIsLast(feed, fine, es);
    FormingIsLast(feed, coarse, es);
    OnTimeInStep(feed, coarse, es);
    GroupsRollUp(feed, fine, coarse, Ticks(es));
    if Run(feed, fine, es).forming.Some? {
      BucketNested(feed.segment, Run(feed, fine, es).forming.value.ts, fine, coarse);
    }
  }

  /** While a fine bar forms, so does the coarse bar around it: a flush that ends the coarse bucket
      ends the fine one too. */
  lemma {:induction false} FormingTogether(feed: Feed, fine: Timeframe, coarse: Timeframe, es: seq<Event>)
    requires Refines(fine, coarse) && InHours(feed.segment, es) && OnTime(feed, fine, es) && OnTime(feed, coarse, es)
    ensures Run(feed, fine, es).forming.Some? ==> Run(feed, coarse, es).forming.Some?
    decreases |es|
  {
    hide BucketStart, BucketEnd, InSession, InHours, OnTime, Refines;
    if es != [] {
      var n := |es| - 1;
      OnTimePrefix(feed, fine, es);
      OnTimePrefix(feed, coarse, es);
      assert InHours(feed.segment, es[..n]) by { HoursPrefix(feed.segment, es); }
      FormingTogether(feed, fine, coarse, es[..n]);
      FormingNested(feed, fine, coarse, es[..n]);
    }
  }

  lemma HoursPrefix(seg: Segment, es: seq<Event>)
    requires es != [] && InHours(seg, es)
    ensures InHours(seg, es[..|es| - 1])
  {
    hide InSession;
  }

  /** On one schedule, an emitted coarse bar is the roll-up of fine bars that have all been emitted. */
  lemma EmittedRollUp(feed: Feed, fine: Timeframe, coarse: Timeframe, es: seq<Event>)
    requires Refines(fine, coarse) && InHours(feed.segment, es) && OnTime(feed, fine, es) && OnTime(feed, coarse, es)
    ensures AllRollUp(feed, coarse, Run(feed, coarse, es).emitted, Run(feed, fine, es).emitted)
  {
    hide Run, Ticks, BucketStart, BucketEnd, InSession, InHours, OnTime, Refines, RollsUp, Within, BarsSummarise,
         EveryTickListed;
    var f, c := Run(feed, fine, es), Run(feed, coarse, es);
    RollUpRefinement(feed, fine, coarse, es, es);
    FormingTogether(feed, fine, coarse, es);
    FormingNested(feed, fine, coarse, es);
    BarsSummariseTicks(feed, coarse, es);
    forall i | 0 <= i < |c.emitted| ensures RollsUpWithin(feed, coarse, c.emitted[i], f.emitted) {
      assert c.emitted[i] == Produced(c)[i];
      assert RollsUpWithin(feed, coarse, Produced(c)[i], Produced(f));
      if f.forming.Some? {
        assert Produced(c)[i].ts < Produced(c)[|c.emitted|].ts;
        WithinLast(feed.segment, coarse, Produced(f), f.emitted, Completed(f.forming.value), c.emitted[i].ts);
        assert Within(feed.segment, coarse, Produced(f), c.emitted[i].ts)
            == Within(feed.segment, coarse, f.emitted, c.emitted[i].ts);
      }
    }
  }

  // ---- exactly when a bucket is built once ----------------------------------------------------

  lemma StepBuilds(feed: Feed, tf: Timeframe, l: Line, e: Event)
    requires Ascending(Produced(l))
    ensures Ascending(Produced(Step(feed, tf, l, e))) <==> !Reopens(feed, tf, l, e)
  {
    hide BucketStart, BucketEnd, Ascending, FirstBar;
    var before, after := Produced(l), Produced(Step(feed, tf, l, e));
    if |after| == |before| {
      SameStartsAscend(before, after);
    } else {
      assert after == before + [after[|before|]];
      AppendAscends(before, after[|before|]);
      AddPrintShape(feed, tf, [], e.p);
    }
  }

  lemma StepKeepsDisorder(feed: Feed, tf: Timeframe, l: Line, e: Event)
    requires !Ascending(Produced(l))
    ensures !Ascending(Produced(Step(feed, tf, l, e)))
  {
    hide BucketStart, BucketEnd;
    var before, after := Produced(l), Produced(Step(feed, tf, l, e));
    var i, j :| 0 <= i < j < |before| && before[i].ts >= before[j].ts;
    assert after[i].ts == before[i].ts && after[j].ts == before[j].ts;
  }

  /** With late ticks allowed, buckets are built once and in order exactly when no tick reopens an
      already closed bucket while nothing forms. */
  lemma {:induction false} BuiltOnceIff(feed: Feed, tf: Timeframe, es: seq<Event>)
    ensures Ascending(Produced(Run(feed, tf, es))) <==> NeverReopens(feed, tf, es)
    decreases |es|
  {
    if es == [] {
      return;
    }
    hide Step, Reopens, Ascending, Produced;
    var n := |es| - 1;
    BuiltOnceIff(feed, tf, es[..n]);
    NeverReopensStep(feed, tf, es);
    if Ascending(Produced(Run(feed, tf, es[..n]))) {
      StepBuilds(feed, tf, Run(feed, tf, es[..n]), es[n]);
    } else {
      StepKeepsDisorder(feed, tf, Run(feed, tf, es[..n]), es[n]);
    }
  }

  lemma SameShapeAscends(bars: seq<Bar>)
    ensures Ascending(Completes(bars)) <==> Ascending(bars)
  {
    SameStartsAscend(bars, Completes(bars));
    SameStartsAscend(Completes(bars), bars);
  }

  /** Flush timing is invisible exactly when no tick was late: a series shows the flush-free grouping
      of its ticks, in strictly ascending buckets, if and only if nothing was dropped and no closed
      bucket was opened again. */
  lemma FlushConfluenceIff(feed: Feed, tf: Timeframe, es: seq<Event>)
    ensures OnTime(feed, tf, es) <==>
      Shows(Run(feed, tf, es), Grouped(feed, tf, Ticks(es))) && Ascending(Grouped(feed, tf, Ticks(es)))
  {
    hide Run, Grouped, Ticks, NeverReopens, Ascending, Completes;
    BuiltOnceIff(feed, tf, es);
    SameShapeAscends(Grouped(feed, tf, Ticks(es)));
    if OnTime(feed, tf, es) {
      OnTimeShows(feed, tf, es);
      ProducedIsGrouped(feed, tf, es);
    } else if Shows(Run(feed, tf, es), Grouped(feed, tf, Ticks(es))) {
      ShownIsProduced(Run(feed, tf, es), Grouped(feed, tf, Ticks(es)));
    }
  }

  lemma ShownIsProduced(l: Line, bars: seq<Bar>)
    requires Shows(l, bars)
    ensures Produced(l) == Completes(bars)
  {
  }

  /** A late tick after a flush does reopen: 09:15 is emitted, then opened again. */
  lemma LateTickReopens(feed: Feed, context: Context)
    requires feed.segment == NSE_EQ
    ensures var p := Print(SessionOpen(NSE_EQ, 0), 100.0, 1.0, None, None, context);
      !Ascending(Produced(Run(feed, M1, [Tick(p), Flush(p.ts + 60), Tick(p)])))
  {
    var p := Print(SessionOpen(NSE_EQ, 0), 100.0, 1.0, None, None, context);
    var es := [Tick(p), Flush(p.ts + 60), Tick(p)];
    assert es[..2] == [Tick(p), Flush(p.ts + 60)] && es[..2][..1] == [Tick(p)] && es[..2][..1][..0] == [];
    assert BucketStart(NSE_EQ, p.ts, M1) == p.ts && BucketEnd(NSE_EQ, p.ts, M1) == p.ts + 60;
    assert Run(feed, M1, []) == EMPTY_LINE;
    assert Run(feed, M1, [Tick(p)]) == OnTick(feed, M1, EMPTY_LINE, p);
    var l := Run(feed, M1, es[..2]);
    assert l == OnFlush(feed, M1, Run(feed, M1, [Tick(p)]), p.ts + 60);
    assert l.forming.None? && |l.emitted| == 1 && l.emitted[0].ts == p.ts;
    assert Reopens(feed, M1, l, es[2]);
    BuiltOnceIff(feed, M1, es);
  }
}
