/** The tape and the archive put together: what the archive is for. A contract that was traded can be
    replayed after its day has left the tape's own window. */
module Replay {
  import opened Wrappers
  import opened DayFile
  import opened Tape
  import opened TapeChanges
  import Archive

  // ---- from the tape to the archive and back --------------------------------------------------

  /** The archive's row of a tape row, in the columns a replay reads. */
  function Put(r: Row): Archive.Row {
    Archive.Row(r.code, r.ts as real, r.held, [r.quote.ltp, r.quote.bid, r.quote.ask, r.quote.ts])
  }

  /** The row a replay makes of an archived one; it has no use for symbol and role. */
  function Taken(r: Archive.Row): Row {
    var q :=
      if |r.values| == 4 then Quote(r.values[0], r.values[1], r.values[2], r.values[3]) else Quote(0.0, 0.0, 0.0, 0.0);
    Row(r.code, Trunc(r.at), "", OptionLeg, q, r.held)
  }

  function AllTaken(rows: seq<Archive.Row>): (out: seq<Row>)
    ensures |out| == |rows| && forall i :: 0 <= i < |rows| ==> out[i] == Taken(rows[i])
  {
    seq(|rows|, i requires 0 <= i < |rows| => Taken(rows[i]))
  }

  lemma TakenBack(r: Row)
    ensures Taken(Put(r)).quote == r.quote && KeyOf(Taken(Put(r))) == KeyOf(r)
  {
    assert (r.ts as real).Floor == r.ts && (-(r.ts as real)).Floor == -r.ts;
  }

  /** The run recorded exactly these tape rows for the day. */
  ghost predicate Feeds(rows: seq<Row>, run: seq<Archive.Step>, slot: Archive.Slot) {
    && (forall r :: r in rows ==> Archive.Recorded(run, slot, Put(r)))
    && (forall a :: Archive.Recorded(run, slot, a) ==> exists r :: r in rows && Put(r) == a)
  }

  /** The rows of a day file, in any order and however often the reader lists them. */
  ghost predicate Lists(listing: seq<Archive.Row>, file: Archive.File) {
    && (forall a :: a in listing ==> Archive.KeyOf(a) in file && file[Archive.KeyOf(a)] == a)
    && (forall k :: k in file ==> file[k] in listing)
  }

  lemma FedKeysOnce(rows: seq<Row>, run: seq<Archive.Step>, slot: Archive.Slot)
    requires KeysDiffer(rows) && Feeds(rows, run, slot)
    ensures Archive.KeysOnce(run, slot)
  {
    hide Archive.Recorded;
    forall a, b |
      Archive.Recorded(run, slot, a) && Archive.Recorded(run, slot, b) && Archive.KeyOf(a) == Archive.KeyOf(b)
      ensures a == b
    {
      var r :| r in rows && Put(r) == a;
      var q :| q in rows && Put(q) == b;
      SameKeySameRow(rows, r, q);
    }
  }

  lemma SameKeySameRow(rows: seq<Row>, r: Row, q: Row)
    requires KeysDiffer(rows) && r in rows && q in rows && KeyOf(r) == KeyOf(q)
    ensures r == q
  {
    var i :| 0 <= i < |rows| && rows[i] == r;
    var j :| 0 <= j < |rows| && rows[j] == q;
  }

  /** Two tapes with the same seconds and quotes of a code. */
  ghost predicate SameOf(a: DayTape, b: DayTape, code: Code) {
    forall k: (Code, int) :: k.0 == code ==> (k in a <==> k in b) && (k in a ==> a[k].quote == b[k].quote)
  }

  lemma LatestSame(a: DayTape, b: DayTape, code: Code, s: int, x: Option<Row>, y: Option<Row>)
    requires SameOf(a, b, code) && LatestIn(a, code, s, x) && LatestIn(b, code, s, y)
    ensures QuoteOf(x) == QuoteOf(y)
  {
    if x.Some? {
      assert (code, x.value.ts) in b;
    }
    if y.Some? {
      assert (code, y.value.ts) in a;
    }
  }

  lemma {:induction false} TapeHas(rows: seq<Row>, k: (Code, int))
    ensures k in Write(map[], Tape.Keyed(rows)) <==> exists r :: r in rows && KeyOf(r) == k
    ensures k in Write(map[], Tape.Keyed(rows)) ==>
      Write(map[], Tape.Keyed(rows))[k] in rows && KeyOf(Write(map[], Tape.Keyed(rows))[k]) == k
  {
    if rows != [] {
      var n := |rows| - 1;
      TapeHas(rows[..n], k);
      assert Tape.Keyed(rows)[..|Tape.Keyed(rows)| - 1] == Tape.Keyed(rows[..n]);
      if r :| r in rows && KeyOf(r) == k {
        assert r in rows[..n] || r == rows[n];
      }
      if r :| r in rows[..n] && KeyOf(r) == k {
        assert r in rows;
      }
      assert rows[n] in rows;
    }
  }

  /** A file that holds all of a code reads, of that code, like the tape the rows came from. */
  lemma ListingReadsSame(rows: seq<Row>, run: seq<Archive.Step>, slot: Archive.Slot, file: Archive.File,
                         listing: seq<Archive.Row>, code: Code)
    requires KeysDiffer(rows) && Feeds(rows, run, slot)
    requires Archive.HoldsAll(file, run, slot, code) && Lists(listing, file)
    ensures SameOf(Write(map[], Tape.Keyed(AllTaken(listing))), Write(map[], Tape.Keyed(rows)), code)
  {
    hide Write, Tape.Keyed, Archive.Recorded, Put, Taken;
    var read, tape := Write(map[], Tape.Keyed(AllTaken(listing))), Write(map[], Tape.Keyed(rows));
    forall k: (Code, int) | k.0 == code
      ensures (k in read <==> k in tape) && (k in read ==> read[k].quote == tape[k].quote)
    {
      TapeHas(AllTaken(listing), k);
      TapeHas(rows, k);
      if k in read {
        var i :| 0 <= i < |listing| && AllTaken(listing)[i] == read[k];
        var r := RowOf(rows, run, slot, file, listing, code, i);
        assert k in tape;
        SameKeySameRow(rows, r, tape[k]);
      } else if k in tape {
        var a := Put(tape[k]);
        PutKeeps(tape[k]);
        assert Archive.Recorded(run, slot, a);
        var i :| 0 <= i < |listing| && listing[i] == a;
        TakenBack(tape[k]);
      }
    }
  }

  lemma PutKeeps(r: Row)
    ensures Put(r).code == r.code && Archive.KeyOf(Put(r)) == (r.code, r.ts as real)
  {
  }

  /** The tape row behind a listed one. */
  lemma RowOf(rows: seq<Row>, run: seq<Archive.Step>, slot: Archive.Slot, file: Archive.File,
              listing: seq<Archive.Row>, code: Code, i: nat) returns (r: Row)
    requires i < |listing| && Taken(listing[i]).code == code
    requires Feeds(rows, run, slot) && Archive.HoldsAll(file, run, slot, code) && Lists(listing, file)
    ensures r in rows && Put(r) == listing[i]
    ensures KeyOf(r) == KeyOf(Taken(listing[i])) && r.quote == Taken(listing[i]).quote
  {
    hide Archive.Recorded;
    var a := listing[i];
    assert a in listing;
    r :| r in rows && Put(r) == a;
    TakenBack(r);
  }

  /** The tape's rows went to the archive, whatever failed in it; at step `i` their day was deleted for
      good, with none of the contract's rows still to write; and this is what the held stream has. */
  ghost predicate WentAside(w: Archive.Windows, run: seq<Archive.Step>, i: nat, day: int, rows: seq<Row>, code: Code,
                            listing: seq<Archive.Row>)
  {
    var tape, held := Archive.Slot(Archive.Quotes, day), Archive.Slot(Archive.QuotesHeld, day);
    && i < |run| && Archive.NeverAddsAside(run) && Archive.OnlyDeletion(w, run, i, tape)
    && Feeds(rows, run[..i], tape)
    && (forall y :: y in Archive.Buffered(Archive.After(w, Archive.NOTHING, run[..i]), tape) ==> y.code != code)
    && Lists(listing, Archive.FileAt(Archive.After(w, Archive.NOTHING, run[..i + 1]).disk, held))
  }

  /** Forward-filling the listed rows answers with the last usable quote a sample saw. */
  ghost predicate Answers(listing: seq<Archive.Row>, es: seq<Event>, code: Code, at: real) {
    && Ordered(ReadSeries(AllTaken(listing), code))
    && QuoteOf(SeriesAt(ReadSeries(AllTaken(listing), code), at)) == QuoteOf(LastAt(Full(es), code, Trunc(at)))
  }

  /** What the archive is for: once its tape day is gone, a contract with a held row can be replayed at
      any second from the held stream's file. */
  lemma HeldContractReplays(w: Archive.Windows, run: seq<Archive.Step>, i: nat, day: int, es: seq<Event>,
                            listing: seq<Archive.Row>, code: Code, at: real)
    requires OncePerSecond(es) && WentAside(w, run, i, day, After(es).rows, code, listing)
    requires exists r :: r in After(es).rows && r.code == code && r.held
    ensures Answers(listing, es, code, at)
  {
    hide Write, Tape.Keyed, ReadSeries, LatestIn, LastAt, After, Full, Trunc, QuoteOf, OncePerSecond, Clocked;
    hide Archive.Recorded, Archive.OnlyDeletion, Archive.KeysOnce, Archive.Buffered, Archive.HoldsAll, Archive.After;
    hide Put;
    var slot, rows := Archive.Slot(Archive.Quotes, day), After(es).rows;
    var after := Archive.After(w, Archive.NOTHING, run[..i + 1]);
    var file := Archive.FileAt(after.disk, Archive.Slot(Archive.QuotesHeld, day));
    OnceIsClocked(es);
    RowsOnce(es);
    FedKeysOnce(rows, run[..i], slot);
    HeldIsRecorded(rows, run[..i], slot, code);
    Archive.HeldDayIsAside(w, run, i, day, code);
    ListingReadsSame(rows, run[..i], slot, file, listing, code);
    RunOrdered(es);
    ReadSeriesIsSeries(AllTaken(listing), code);
    ReadSeriesSorted(AllTaken(listing), code);
    SeriesAtIsLatest(ReadSeries(AllTaken(listing), code), Write(map[], Tape.Keyed(AllTaken(listing))), code, at);
    WrittenLatest(rows, code, Trunc(at));
    LatestSame(Write(map[], Tape.Keyed(AllTaken(listing))), Write(map[], Tape.Keyed(rows)), code, Trunc(at),
               SeriesAt(ReadSeries(AllTaken(listing), code), at), LastAt(rows, code, Trunc(at)));
    CompressedReads(es, code, Trunc(at));
  }

  /** And so can every contract that was traded: open at a sample that had a quote for it. */
  lemma TradedContractReplays(w: Archive.Windows, run: seq<Archive.Step>, i: nat, day: int, es: seq<Event>, j: nat,
                              symbolOf: Code -> Symbol, legs: map<Symbol, seq<Leg>>, listing: seq<Archive.Row>,
                              code: Code, at: real)
    requires OncePerSecond(es) && WentAside(w, run, i, day, After(es).rows, code, listing)
    requires j < |es| && es[j].Sample? && ProperRun(es[..j + 1], symbolOf)
    requires Resolved(After(es[..j + 1]).watch, legs, es[j].targets)
    requires code in OpenCodes(es[j].held) && code in es[j].quotes && Usable(es[j].quotes[code])
    ensures Answers(listing, es, code, at)
  {
    hide *;
    HeldRowWritten(es, j, symbolOf, legs, code);
    HeldContractReplays(w, run, i, day, es, listing, code, at);
  }

  lemma HeldRowWritten(es: seq<Event>, j: nat, symbolOf: Code -> Symbol, legs: map<Symbol, seq<Leg>>, code: Code)
    requires j < |es| && es[j].Sample? && ProperRun(es[..j + 1], symbolOf)
    requires Resolved(After(es[..j + 1]).watch, legs, es[j].targets)
    requires code in OpenCodes(es[j].held) && code in es[j].quotes && Usable(es[j].quotes[code])
    ensures exists r :: r in After(es).rows && r.code == code && r.held
  {
    hide After, Resolved, ProperRun, Usable;
    OpenIsWritten(es[..j + 1], symbolOf, legs, code);
    RowsGrow(es, j + 1);
    var rows := After(es[..j + 1]).rows;
    var k :| 0 <= k < |rows| && rows[k].code == code && rows[k].held;
    assert After(es).rows[k] == rows[k];
  }

  lemma HeldIsRecorded(rows: seq<Row>, run: seq<Archive.Step>, slot: Archive.Slot, code: Code)
    requires Feeds(rows, run, slot) && exists r :: r in rows && r.code == code && r.held
    ensures exists a :: Archive.Recorded(run, slot, a) && a.code == code && a.held
  {
    var r :| r in rows && r.code == code && r.held;
    assert Archive.Recorded(run, slot, Put(r));
  }
}
