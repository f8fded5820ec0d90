/** Daily bars to weeks and months, and the previous completed one. A period is known by an integer
    that grows with the calendar: the Monday-based week, or the civil month. Day 0 is 1970-01-01. */
module Periods {
  import opened Wrappers
  import opened Session
  import opened Bars
  import opened Sorting

  datatype Period = Period(key: int, start: int, end: int, open: real, high: real, low: real, close: real, volume: real)

  // ---- the calendar ---------------------------------------------------------------------------

  /** Weeks begin on Mondays; day 0 was a Thursday. */
  function WeekKey(day: int): int { (day + 3) / 7 }

  /** A week turns on its Monday: day 4, 1970-01-05, was one, and every seventh day before and after. */
  lemma WeekTurnsOnMonday(day: int)
    ensures WeekKey(day) == WeekKey(day - 1) + if day % 7 == 4 then 1 else 0
  {
  }

  predicate Leap(year: int) { year % 4 == 0 && (year % 100 != 0 || year % 400 == 0) }

  lemma LeapIff(year: int)
    ensures Leap(year) <==> year % 400 == 0 || (year % 4 == 0 && year % 100 != 0)
  {
  }

  /** Months are counted from January 1970. */
  function MonthLength(month: int): (n: int)
    ensures 28 <= n <= 31
  {
    var m := month % 12;
    if m == 1 then (if Leap(1970 + month / 12) then 29 else 28)
    else if m == 3 || m == 5 || m == 8 || m == 10 then 30
    else 31
  }

  function MonthStart(month: int): int
    decreases if month < 0 then -month else month
  {
    if month == 0 then 0
    else if month > 0 then MonthStart(month - 1) + MonthLength(month - 1)
    else MonthStart(month + 1) - MonthLength(month)
  }

  lemma MonthFollows(month: int)
    ensures MonthStart(month + 1) == MonthStart(month) + MonthLength(month)
  {
  }

  function MonthUp(month: int, day: int): (m: int)
    requires MonthStart(month) <= day
    ensures MonthStart(m) <= day < MonthStart(m + 1)
    decreases day - MonthStart(month)
  {
    MonthFollows(month);
    if day < MonthStart(month + 1) then month else MonthUp(month + 1, day)
  }

  function MonthDown(month: int, day: int): (m: int)
    requires day < MonthStart(month + 1)
    ensures MonthStart(m) <= day < MonthStart(m + 1)
    decreases MonthStart(month + 1) - day
  {
    MonthFollows(month);
    if MonthStart(month) <= day then month else MonthDown(month - 1, day)
  }

  /** The calendar month a day falls in. */
  function MonthKey(day: int): (m: int)
    ensures MonthStart(m) <= day < MonthStart(m + 1)
  {
    if day >= 0 then MonthUp(0, day) else MonthDown(-1, day)
  }

  /** Twelve months from a January make a civil year. */
  lemma YearLength(month: int)
    requires month % 12 == 0
    ensures MonthStart(month + 12) - MonthStart(month) ==
      var year := 1970 + month / 12;
      if year % 400 == 0 || (year % 4 == 0 && year % 100 != 0) then 366 else 365
  {
    hide MonthStart;
    TwelveMonths(month);
    LeapIff(1970 + month / 12);
  }

  lemma TwelveMonths(month: int)
    requires month % 12 == 0
    ensures MonthStart(month + 12) - MonthStart(month) == if Leap(1970 + month / 12) then 366 else 365
  {
    hide MonthStart, Leap;
    var i := 0;
    ghost var sum := 0;
    while i < 12
      invariant 0 <= i <= 12 && MonthStart(month + i) == MonthStart(month) + sum
      invariant sum == DaysBefore(i, Leap(1970 + month / 12))
    {
      MonthFollows(month + i);
      assert (month + i) % 12 == i && (month + i) / 12 == month / 12;
      sum := sum + MonthLength(month + i);
      i := i + 1;
    }
  }

  /** Days of a year before its month `i`, January being 0. */
  function DaysBefore(i: nat, leap: bool): int
    requires i <= 12
  {
    [0, 31, 59, 90, 120, 151, 181, 212, 243, 273, 304, 334, 365][i] + if leap && i >= 2 then 1 else 0
  }

  ghost predicate Monotone(key: int -> int) { forall d, e :: d <= e ==> key(d) <= key(e) }

  lemma {:induction false} MonthsStartLater(m: int, n: int)
    requires m <= n
    ensures MonthStart(m) <= MonthStart(n)
    decreases n - m
  {
    if m < n {
      MonthFollows(m);
      MonthsStartLater(m + 1, n);
    }
  }

  lemma MonthsAscend()
    ensures Monotone(MonthKey)
  {
    forall d, e | d <= e ensures MonthKey(d) <= MonthKey(e) {
      if MonthKey(e) < MonthKey(d) {
        MonthsStartLater(MonthKey(e) + 1, MonthKey(d));
      }
    }
  }

  // ---- aggregation ----------------------------------------------------------------------------

  function DayOf(b: Bar): int { IstDay(b.ts) }

  function InPeriod(key: int -> int, k: int): Bar -> bool { (b: Bar) => key(DayOf(b)) == k }

  function ByTime(): (Bar, Bar) -> bool { (a: Bar, b: Bar) => a.ts <= b.ts }

  function Volume(): Bar -> real { (b: Bar) => b.data.volume }

  /** The period keys of the bars, in the order they first appear. */
  function KeysIn(key: int -> int, bars: seq<Bar>): seq<int> {
    if bars == [] then []
    else
      var rest, k := KeysIn(key, bars[..|bars| - 1]), key(DayOf(bars[|bars| - 1]));
      if k in rest then rest else rest + [k]
  }

  function FirstDay(rows: seq<Bar>): (d: int)
    requires rows != []
    ensures (exists b :: b in rows && DayOf(b) == d) && forall b :: b in rows ==> d <= DayOf(b)
  {
    var head := DayOf(rows[0]);
    if |rows| == 1 then head
    else
      assert rows == [rows[0]] + rows[1..];
      MinInt(head, FirstDay(rows[1..]))
  }

  function LastDay(rows: seq<Bar>): (d: int)
    requires rows != []
    ensures (exists b :: b in rows && DayOf(b) == d) && forall b :: b in rows ==> DayOf(b) <= d
  {
    var head := DayOf(rows[0]);
    if |rows| == 1 then head
    else
      assert rows == [rows[0]] + rows[1..];
      MaxInt(head, LastDay(rows[1..]))
  }

  function HighOf(rows: seq<Bar>): (h: real)
    requires rows != []
    ensures (exists b :: b in rows && b.data.high == h) && forall b :: b in rows ==> b.data.high <= h
  {
    if |rows| == 1 then rows[0].data.high
    else
      assert rows == [rows[0]] + rows[1..];
      Max(rows[0].data.high, HighOf(rows[1..]))
  }

  function LowOf(rows: seq<Bar>): (l: real)
    requires rows != []
    ensures (exists b :: b in rows && b.data.low == l) && forall b :: b in rows ==> l <= b.data.low
  {
    if |rows| == 1 then rows[0].data.low
    else
      assert rows == [rows[0]] + rows[1..];
      Min(rows[0].data.low, LowOf(rows[1..]))
  }

  function PeriodOf(k: int, group: seq<Bar>): Period
    requires group != []
  {
    SortElements(ByTime(), group);
    var rows := Sort(ByTime(), group);
    Period(k, FirstDay(rows), LastDay(rows), rows[0].data.open, HighOf(rows), LowOf(rows),
           rows[|rows| - 1].data.close, Sum(Volume(), rows))
  }

  method Group(bars: seq<Bar>, key: int -> int) returns (groups: map<int, seq<Bar>>, names: seq<int>)
    ensures Grouped(bars, key, groups) && names == KeysIn(key, bars)
    ensures forall k :: k in names <==> k in groups
  {
    hide Filter;
    groups, names := map[], [];
    for i := 0 to |bars|
      invariant Grouped(bars[..i], key, groups) && names == KeysIn(key, bars[..i])
      invariant forall k :: k in names <==> k in groups
    {
      var k := key(DayOf(bars[i]));
      GroupMore(bars[..i], key, groups, bars[i]);
      assert bars[..i + 1] == bars[..i] + [bars[i]] && bars[..i + 1][..i] == bars[..i];
      if k !in groups {
        names := names + [k];
      }
      groups := groups[k := (if k in groups then groups[k] else []) + [bars[i]]];
    }
    assert bars[..|bars|] == bars;
  }

  /** Groups the bars by period and makes one period of each, earliest first. */
  method Aggregate(bars: seq<Bar>, key: int -> int) returns (out: seq<Period>)
    ensures Aggregated(bars, key, out)
  {
    hide Sort, Grouped, KeysIn, Earliest, PeriodOf, Aggregated, Filter;
    var groups, names := Group(bars, key);
    var order := Sort(Earliest(groups), names);
    SortElements(Earliest(groups), names);
    assert forall k :: k in order ==> k in groups && groups[k] != [] by { GroupsFilled(bars, key, groups); }
    out := [];
    for i := 0 to |order|
      invariant |out| == i && forall j :: 0 <= j < i ==> out[j] == PeriodOf(order[j], groups[order[j]])
    {
      out := out + [PeriodOf(order[i], groups[order[i]])];
    }
    PeriodsAggregate(bars, key, groups, names, order, out);
  }

  lemma GroupsFilled(bars: seq<Bar>, key: int -> int, groups: map<int, seq<Bar>>)
    requires Grouped(bars, key, groups)
    ensures forall k :: k in groups ==> groups[k] != []
  {
    hide Filter;
  }

  ghost predicate Grouped(bars: seq<Bar>, key: int -> int, groups: map<int, seq<Bar>>) {
    && (forall k :: k in groups ==> groups[k] != [] && groups[k] == Filter(InPeriod(key, k), bars))
    && (forall b :: b in bars ==> key(DayOf(b)) in groups)
  }

  /** Every period with a bar, once each, made of exactly its bars, earliest first. */
  ghost predicate Aggregated(bars: seq<Bar>, key: int -> int, out: seq<Period>) {
    && (forall p :: p in out ==>
          Filter(InPeriod(key, p.key), bars) != [] && p == PeriodOf(p.key, Filter(InPeriod(key, p.key), bars)))
    && (forall b :: b in bars ==> exists p :: p in out && p.key == key(DayOf(b)))
    && (forall i, j :: 0 <= i < j < |out| ==> out[i].key != out[j].key && out[i].start <= out[j].start)
  }

  function Earliest(groups: map<int, seq<Bar>>): (int, int) -> bool {
    (k: int, l: int) => GroupDay(groups, k) <= GroupDay(groups, l)
  }

  function GroupDay(groups: map<int, seq<Bar>>, k: int): int {
    if k in groups && groups[k] != [] then FirstDay(groups[k]) else 0
  }

  lemma EarliestIsPreorder(groups: map<int, seq<Bar>>)
    ensures TotalPreorder(Earliest(groups))
  {
    hide GroupDay;
  }

  lemma {:induction false} FilterAppend<T>(keep: T -> bool, s: seq<T>, x: T)
    ensures Filter(keep, s + [x]) == Filter(keep, s) + if keep(x) then [x] else []
  {
    if s == [] {
      assert s + [x] == [x];
    } else {
      FilterAppend(keep, s[1..], x);
      assert (s + [x])[1..] == s[1..] + [x];
    }
  }

  lemma SomeMember<T>(s: seq<T>)
    requires s != []
    ensures exists x :: x in s
  {
    assert s[0] in s;
  }

  lemma GroupMore(bars: seq<Bar>, key: int -> int, groups: map<int, seq<Bar>>, b: Bar)
    requires Grouped(bars, key, groups)
    ensures var k := key(DayOf(b));
      Grouped(bars + [b], key, groups[k := (if k in groups then groups[k] else []) + [b]])
  {
    hide Filter;
    var k := key(DayOf(b));
    forall l
      ensures Filter(InPeriod(key, l), bars + [b]) == Filter(InPeriod(key, l), bars) + if l == k then [b] else []
    {
      FilterAppend(InPeriod(key, l), bars, b);
    }
    if k !in groups {
      FilterElements(InPeriod(key, k), bars);
      if Filter(InPeriod(key, k), bars) != [] {
        SomeMember(Filter(InPeriod(key, k), bars));
      }
    }
  }

  lemma {:induction false} KeysDistinct(key: int -> int, bars: seq<Bar>)
    ensures Distinct(KeysIn(key, bars))
  {
    if bars != [] {
      KeysDistinct(key, bars[..|bars| - 1]);
    }
  }

  lemma PeriodsAggregate(bars: seq<Bar>, key: int -> int, groups: map<int, seq<Bar>>, names: seq<int>, order: seq<int>,
                         out: seq<Period>)
    requires Grouped(bars, key, groups) && names == KeysIn(key, bars) && forall k :: k in names <==> k in groups
    requires order == Sort(Earliest(groups), names) && |out| == |order|
    requires forall k :: k in order ==> k in groups && groups[k] != []
    requires forall j :: 0 <= j < |out| ==> out[j] == PeriodOf(order[j], groups[order[j]])
    ensures Aggregated(bars, key, out)
  {
    hide Sort, Filter, FirstDay, KeysIn;
    SortElements(Earliest(groups), names);
    KeysDistinct(key, bars);
    SortDistinct(Earliest(groups), names);
    EarliestIsPreorder(groups);
    SortSorted(Earliest(groups), names);
    forall b | b in bars ensures exists p :: p in out && p.key == key(DayOf(b)) {
      var k := key(DayOf(b));
      assert k in groups;
      assert k in names;
      assert k in order;
      var j :| 0 <= j < |order| && order[j] == k;
      assert out[j] in out;
    }
    forall i, j | 0 <= i < j < |out| ensures out[i].key != out[j].key && out[i].start <= out[j].start {
      assert Earliest(groups)(order[i], order[j]);
      PeriodStart(order[i], groups[order[i]]);
      PeriodStart(order[j], groups[order[j]]);
    }
  }

  lemma PeriodStart(k: int, group: seq<Bar>)
    requires group != []
    ensures PeriodOf(k, group).start == FirstDay(group)
  {
    SortElements(ByTime(), group);
    var rows := Sort(ByTime(), group);
    var a, b := FirstDay(rows), FirstDay(group);
  }

  // ---- the previous completed period ----------------------------------------------------------

  function ByEnd(): (Period, Period) -> bool { (p: Period, q: Period) => p.end <= q.end }

  /** Ended before today, and not the period today is in. */
  function Done(key: int -> int, today: int): Period -> bool {
    (p: Period) => p.end < today && key(p.start) != key(today)
  }

  method PreviousComplete(periods: seq<Period>, key: int -> int, today: int) returns (prev: Option<Period>)
    ensures prev == LastDone(periods, key, today)
  {
    var done: seq<Period> := [];
    for i := 0 to |periods|
      invariant done == Filter(Done(key, today), periods[..i])
    {
      assert periods[..i + 1] == periods[..i] + [periods[i]];
      FilterAppend(Done(key, today), periods[..i], periods[i]);
      var p := periods[i];
      if p.end < today && key(p.start) != key(today) {
        done := done + [p];
      }
    }
    assert periods[..|periods|] == periods;
    var ordered := Sort(ByEnd(), done);
    prev := if ordered != [] then Some(ordered[|ordered| - 1]) else None;
  }

  function LastDone(periods: seq<Period>, key: int -> int, today: int): Option<Period> {
    var ordered := Sort(ByEnd(), Filter(Done(key, today), periods));
    if ordered != [] then Some(ordered[|ordered| - 1]) else None
  }

  /** The period that covers a group of bars: true first open, last close, extremes and volume. */
  ghost predicate Covers(p: Period, group: seq<Bar>) {
    && (exists f :: f in group && f.data.open == p.open && IstDay(f.ts) == p.start
          && forall b :: b in group ==> f.ts <= b.ts)
    && (exists l :: l in group && l.data.close == p.close && IstDay(l.ts) == p.end
          && forall b :: b in group ==> b.ts <= l.ts)
    && (exists h :: h in group && h.data.high == p.high) && (forall b :: b in group ==> b.data.high <= p.high)
    && (exists l :: l in group && l.data.low == p.low) && (forall b :: b in group ==> p.low <= b.data.low)
    && p.volume == Sum((b: Bar) => b.data.volume, group)
  }

  lemma DaysFollowTime(a: Bar, b: Bar)
    requires a.ts <= b.ts
    ensures DayOf(a) <= DayOf(b)
  {
  }

  lemma RowsSpan(group: seq<Bar>)
    requires group != []
    ensures var rows := Sort(ByTime(), group);
      && |rows| == |group| && (forall b :: b in rows <==> b in group)
      && forall b :: b in group ==> rows[0].ts <= b.ts <= rows[|rows| - 1].ts
  {
    hide Sort;
    var rows := Sort(ByTime(), group);
    SortElements(ByTime(), group);
    SortSorted(ByTime(), group);
    forall b | b in group ensures rows[0].ts <= b.ts <= rows[|rows| - 1].ts {
      var i :| 0 <= i < |rows| && rows[i] == b;
      assert i > 0 ==> ByTime()(rows[0], rows[i]);
      assert i < |rows| - 1 ==> ByTime()(rows[i], rows[|rows| - 1]);
    }
  }

  lemma RowsDays(rows: seq<Bar>)
    requires rows != [] && forall b :: b in rows ==> rows[0].ts <= b.ts <= rows[|rows| - 1].ts
    ensures FirstDay(rows) == DayOf(rows[0]) && LastDay(rows) == DayOf(rows[|rows| - 1])
  {
    hide FirstDay, LastDay, DayOf;
    forall b | b in rows ensures DayOf(rows[0]) <= DayOf(b) <= DayOf(rows[|rows| - 1]) {
      DaysFollowTime(rows[0], b);
      DaysFollowTime(b, rows[|rows| - 1]);
    }
    assert rows[0] in rows && rows[|rows| - 1] in rows;
  }

  /** A period really covers its bars, whatever order they came in. */
  lemma PeriodCovers(k: int, group: seq<Bar>)
    requires group != []
    ensures Covers(PeriodOf(k, group), group)
  {
    hide Sort, Sum, FirstDay, LastDay, HighOf, LowOf, IstDay;
    var rows := Sort(ByTime(), group);
    RowsSpan(group);
    RowsDays(rows);
    SortSum(Volume(), ByTime(), group);
    SumSame(Volume(), (b: Bar) => b.data.volume, group);
    assert rows[0] in rows && rows[|rows| - 1] in rows;
  }

  /** A finished period is one before today's. */
  lemma DoneIffEarlier(bars: seq<Bar>, key: int -> int, today: int, p: Period)
    requires Monotone(key)
    requires Filter(InPeriod(key, p.key), bars) != [] && p == PeriodOf(p.key, Filter(InPeriod(key, p.key), bars))
    ensures Done(key, today)(p) <==> p.key < key(today)
    ensures key(p.start) == p.key == key(p.end)
  {
    hide Filter, PeriodOf, Sum;
    var group := Filter(InPeriod(key, p.key), bars);
    PeriodCovers(p.key, group);
    FilterElements(InPeriod(key, p.key), bars);
    var f :| f in group && DayOf(f) == p.start;
    var l :| l in group && DayOf(l) == p.end;
    assert InPeriod(key, p.key)(f) && InPeriod(key, p.key)(l);
    if p.end < today {
      assert key(p.end) <= key(today);
    } else {
      assert key(today) <= key(p.end);
    }
  }

  /** The bars of the latest period before today's that has any. */
  ghost predicate IsPrevious(bars: seq<Bar>, key: int -> int, today: int, p: Period) {
    var group := Filter(InPeriod(key, p.key), bars);
    && group != [] && p.key < key(today) && Covers(p, group)
    && forall b :: b in bars && key(IstDay(b.ts)) < key(today) ==> key(IstDay(b.ts)) <= p.key
  }

  /** The previous completed period of any daily bars, in any order: there is none exactly when no bar
      lies in a period before today's; otherwise it is the latest such period, and it has that
      period's true first open, highest high, lowest low, last close and total volume. */
  lemma PreviousIsLatest(bars: seq<Bar>, key: int -> int, today: int, periods: seq<Period>)
    requires Monotone(key) && Aggregated(bars, key, periods)
    ensures var prev := LastDone(periods, key, today);
      && (prev.None? <==> forall b :: b in bars ==> key(IstDay(b.ts)) >= key(today))
      && (prev.Some? ==> IsPrevious(bars, key, today, prev.value))
  {
    hide Filter, Sort, PeriodOf, Covers, IstDay, Monotone;
    var done := Filter(Done(key, today), periods);
    var ordered := Sort(ByEnd(), done);
    FilterElements(Done(key, today), periods);
    SortElements(ByEnd(), done);
    SortSorted(ByEnd(), done);
    forall b | b in bars && key(DayOf(b)) < key(today)
      ensures exists p :: p in ordered && p.key == key(DayOf(b))
    {
      var p :| p in periods && p.key == key(DayOf(b));
      DoneIffEarlier(bars, key, today, p);
    }
    forall p | p in ordered ensures p in periods && p.key < key(today) && key(p.end) == p.key {
      DoneIffEarlier(bars, key, today, p);
    }
    if ordered == [] {
      assert forall b :: b in bars ==> key(DayOf(b)) >= key(today);
    } else {
      var last := ordered[|ordered| - 1];
      assert last in ordered;
      PeriodCovers(last.key, Filter(InPeriod(key, last.key), bars));
      SomeEarlier(bars, key, last.key);
      forall b | b in bars && key(DayOf(b)) < key(today) ensures key(DayOf(b)) <= last.key {
        var p :| p in ordered && p.key == key(DayOf(b));
        var i :| 0 <= i < |ordered| && ordered[i] == p;
        assert i < |ordered| - 1 ==> ByEnd()(ordered[i], last);
        EndsOrderKeys(key, p, last);
      }
    }
  }

  lemma EndsOrderKeys(key: int -> int, p: Period, q: Period)
    requires Monotone(key) && p.end <= q.end
    ensures key(p.end) <= key(q.end)
  {
  }

  lemma SomeEarlier(bars: seq<Bar>, key: int -> int, k: int)
    requires Filter(InPeriod(key, k), bars) != []
    ensures exists b :: b in bars && key(DayOf(b)) == k
  {
    hide Filter;
    FilterElements(InPeriod(key, k), bars);
    var b := Filter(InPeriod(key, k), bars)[0];
    assert b in Filter(InPeriod(key, k), bars) && InPeriod(key, k)(b);
  }

  /** Weekly and monthly, as the pivots use them. */
  method PreviousWeek(bars: seq<Bar>, today: int) returns (prev: Option<Period>)
    ensures prev.None? <==> forall b :: b in bars ==> WeekKey(IstDay(b.ts)) >= WeekKey(today)
    ensures prev.Some? ==> IsPrevious(bars, WeekKey, today, prev.value)
  {
    var periods := Aggregate(bars, WeekKey);
    prev := PreviousComplete(periods, WeekKey, today);
    PreviousIsLatest(bars, WeekKey, today, periods);
  }

  method PreviousMonth(bars: seq<Bar>, today: int) returns (prev: Option<Period>)
    ensures prev.None? <==> forall b :: b in bars ==> MonthKey(IstDay(b.ts)) >= MonthKey(today)
    ensures prev.Some? ==> IsPrevious(bars, MonthKey, today, prev.value)
  {
    MonthsAscend();
    var periods := Aggregate(bars, MonthKey);
    prev := PreviousComplete(periods, MonthKey, today);
    PreviousIsLatest(bars, MonthKey, today, periods);
  }
}
