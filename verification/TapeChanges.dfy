/** What the tape leaves out: a quote that has not changed is not written again, and no second has two
    rows of one contract. */
module TapeChanges {
  import opened Wrappers
  import opened Tape

  // ---- one row to a key -----------------------------------------------------------------------

  predicate CodesOnce(targets: seq<Target>) {
    forall i, j :: 0 <= i < j < |targets| ==> targets[i].code != targets[j].code
  }

  /** Samples come in later and later seconds, and each looks at a code once. */
  predicate OncePerSecond(es: seq<Event>) {
    if es == [] then true
    else
      var n := |es| - 1;
      OncePerSecond(es[..n])
      && (es[n].Sample? ==>
           && CodesOnce(es[n].targets)
           && (LastSample(es[..n]).Some? ==> Trunc(LastSample(es[..n]).value) < Trunc(es[n].now)))
  }

  predicate KeysDiffer(rows: seq<Row>) {
    forall i, j :: 0 <= i < j < |rows| ==> KeyOf(rows[i]) != KeyOf(rows[j])
  }

  predicate Before(rows: seq<Row>, ts: int) { forall i :: 0 <= i < |rows| ==> rows[i].ts < ts }

  lemma {:induction false} OnceIsClocked(es: seq<Event>)
    requires OncePerSecond(es)
    ensures Clocked(es)
  {
    hide Trunc;
    if es != [] {
      var n := |es| - 1;
      OnceIsClocked(es[..n]);
      if es[n].Sample? && LastSample(es[..n]).Some? && es[n].now < LastSample(es[..n]).value {
        TruncMonotone(es[n].now, LastSample(es[..n]).value);
      }
    }
  }

  function CodesOf(sights: seq<Row>): set<Code> { set i | 0 <= i < |sights| :: sights[i].code }

  function TargetCodes(targets: seq<Target>): set<Code> { set i | 0 <= i < |targets| :: targets[i].code }

  /** Each sight is of another code, and of one that was looked for. */
  predicate SeenOnce(sights: seq<Row>, codes: set<Code>) {
    && (forall i, j :: 0 <= i < j < |sights| ==> sights[i].code != sights[j].code)
    && (forall i :: 0 <= i < |sights| ==> sights[i].code in codes)
  }

  lemma {:induction false} SightsOnce(targets: seq<Target>, quotes: map<Code, Quote>, held: set<Symbol>, ts: int)
    requires CodesOnce(targets)
    ensures SeenOnce(Sights(targets, quotes, held, ts), TargetCodes(targets))
  {
    if targets != [] {
      var n := |targets| - 1;
      SightsOnce(targets[..n], quotes, held, ts);
      assert forall c :: c in TargetCodes(targets[..n]) ==> c in TargetCodes(targets) && c != targets[n].code;
      assert targets[n].code in TargetCodes(targets);
    }
  }

  lemma {:induction false} RecordAllOnce(last: map<Code, Key>, rows: seq<Row>, sights: seq<Row>, codes: set<Code>,
                                         ts: int)
    requires KeysDiffer(rows) && Before(rows, ts)
    requires forall i :: 0 <= i < |sights| ==> sights[i].ts == ts
    requires SeenOnce(sights, codes)
    ensures var all := RecordAll(last, rows, sights).1;
      && KeysDiffer(all)
      && forall i :: 0 <= i < |all| ==> all[i].ts < ts || (all[i].ts == ts && all[i].code in CodesOf(sights))
  {
    if sights != [] {
      var n := |sights| - 1;
      RecordAllOnce(last, rows, sights[..n], codes, ts);
      assert forall c :: c in CodesOf(sights[..n]) ==> c in CodesOf(sights) && c != sights[n].code;
      assert sights[n].code in CodesOf(sights);
    }
  }

  lemma {:induction false} RowsOnce(es: seq<Event>)
    requires OncePerSecond(es)
    ensures KeysDiffer(After(es).rows)
  {
    hide Trunc, FollowAll, RecordAll, WatchAfter, Sights;
    if es != [] {
      var n := |es| - 1;
      RowsOnce(es[..n]);
      var s, e := After(es[..n]), es[n];
      match e
      case Follow(symbol, codes, role, ttl, at) => FollowKeepsRows(s, codes, symbol, role, at + ttl);
      case Sample(now, quotes, held, targets) =>
        var symbols := HeldSymbols(WatchAfter(s.watch, held, now), held, now);
        OnceIsClocked(es[..n]);
        RunOrdered(es[..n]);
        SightsAtSecond(targets, quotes, symbols, Trunc(now));
        SightsOnce(targets, quotes, symbols, Trunc(now));
        RecordAllOnce(Remembered(s, held, now), s.rows, SampleSights(s, e), TargetCodes(targets), Trunc(now));
    }
  }

  // ---- only changes are written ---------------------------------------------------------------

  /** What is remembered of a code once a second's sights have been through: the sight it had. */
  lemma {:induction false} RecordAllRemembers(last: map<Code, Key>, rows: seq<Row>, sights: seq<Row>, codes: set<Code>,
                                              r: Row)
    requires SeenOnce(sights, codes) && r in sights
    ensures var l := RecordAll(last, rows, sights).0; r.code in l && l[r.code] == Key(r.quote, r.held)
  {
    var n := |sights| - 1;
    if r == sights[n] {
      hide RecordAll;
      RecordAllLast(last, rows, sights);
    } else {
      RecordAllRemembers(last, rows, sights[..n], codes, r);
      assert sights[n].code != r.code;
    }
  }

  lemma RecordAllLast(last: map<Code, Key>, rows: seq<Row>, sights: seq<Row>)
    requires sights != []
    ensures var l, r := RecordAll(last, rows, sights).0, sights[|sights| - 1];
      r.code in l && l[r.code] == Key(r.quote, r.held)
  {
  }

  /** A code seen as it was remembered has no new row. */
  lemma {:induction false} SameKeySkips(last: map<Code, Key>, rows: seq<Row>, sights: seq<Row>, code: Code)
    requires code in last
    requires forall i :: 0 <= i < |sights| && sights[i].code == code ==>
      Key(sights[i].quote, sights[i].held) == last[code]
    ensures var (l, all) := RecordAll(last, rows, sights);
      && code in l && l[code] == last[code]
      && rows <= all && forall i :: |rows| <= i < |all| ==> all[i].code != code
  {
    if sights != [] {
      SameKeySkips(last, rows, sights[..|sights| - 1], code);
    }
  }

  lemma {:induction false} FollowsForgetNothing(es: seq<Event>, j: nat)
    requires j < |es| && forall i :: j < i < |es| ==> es[i].Follow?
    ensures After(es).last == After(es[..j + 1]).last
    decreases |es|
  {
    hide FollowAll, RecordAll, WatchAfter, Sights;
    if j + 1 == |es| {
      assert es[..j + 1] == es;
    } else {
      var n := |es| - 1;
      assert es[..n][..j + 1] == es[..j + 1];
      FollowsForgetNothing(es[..n], j);
      var e := es[n];
      FollowKeepsRows(After(es[..n]), e.codes, e.symbol, e.role, e.at + e.ttl);
    }
  }

  /** A contract seen alike at two samples with only follows between them, whose watch does not lapse at
      the second, has no new row at it. */
  lemma UnchangedIsNotWritten(es: seq<Event>, j: nat, first: Row, second: Row)
    requires j + 1 < |es| && es[j].Sample? && es[|es| - 1].Sample?
    requires forall i :: j < i < |es| - 1 ==> es[i].Follow?
    requires CodesOnce(es[j].targets) && CodesOnce(es[|es| - 1].targets)
    requires first in SampleSights(After(es[..j]), es[j]) && second in SampleSights(After(es[..|es| - 1]), es[|es| - 1])
    requires first.code == second.code && first.quote == second.quote && first.held == second.held
    requires var s, e := After(es[..|es| - 1]), es[|es| - 1];
      first.code in Pin(s.watch, e.held) ==> first.code in WatchAfter(s.watch, e.held, e.now)
    ensures var before, after := After(es[..|es| - 1]).rows, After(es).rows;
      before <= after && forall i :: |before| <= i < |after| ==> after[i].code != first.code
  {
    hide RecordAll, WatchAfter, Pin, Sights, HeldSymbols, Trunc;
    var n := |es| - 1;
    var s0, s, e := After(es[..j]), After(es[..n]), es[n];
    var code := first.code;
    SightsCodesOnce(s0, es[j]);
    SightsCodesOnce(s, e);
    RecordAllRemembers(Remembered(s0, es[j].held, es[j].now), s0.rows, SampleSights(s0, es[j]),
                       TargetCodes(es[j].targets), first);
    assert es[..j + 1][..j] == es[..j];
    FollowsForgetNothing(es[..n], j);
    assert es[..n][..j + 1] == es[..j + 1];
    var kept, sights := Remembered(s, e.held, e.now), SampleSights(s, e);
    assert code in kept && kept[code] == Key(first.quote, first.held);
    var k :| 0 <= k < |sights| && sights[k] == second;
    assert forall i :: 0 <= i < |sights| && sights[i].code == code ==> i == k;
    SameKeySkips(kept, s.rows, sights, code);
  }

  lemma SightsCodesOnce(s: State, e: Event)
    requires e.Sample? && CodesOnce(e.targets)
    ensures SeenOnce(SampleSights(s, e), TargetCodes(e.targets))
  {
    SightsOnce(e.targets, e.quotes, HeldSymbols(WatchAfter(s.watch, e.held, e.now), e.held, e.now), Trunc(e.now));
  }
}
