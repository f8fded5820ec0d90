/** The archive as the object the engine holds: adding a row, and the flush that writes every buffered
    day and then prunes. Its methods take exactly the steps that the laws in `Archive` are about; the
    oracle says which writes, reads and unlinks fail. */
module DailyArchiveModel {
  import opened Wrappers
  import opened Session
  import opened DayFile
  import opened Archive

  /** Rows that the engine records, in order, each with the day file it is for. */
  type Records = seq<(Slot, Row)>

  /** What happens during one flush: what the file system does, and what is recorded while each day is
      out of the buffer. */
  datatype Oracle = Oracle(
    unwritable: set<Slot>, arrivals: map<Slot, Records>, aside: map<Slot, Aside>, unlinkFails: set<Slot>)

  /** The recorded rows that are for one day. */
  function Incoming(adds: Records, slot: Slot): seq<Row> {
    if adds == [] then [] else
      var n := |adds| - 1;
      Incoming(adds[..n], slot) + if adds[n].0 == slot then [adds[n].1] else []
  }

  function During(arrivals: map<Slot, Records>, slot: Slot): Records {
    if slot in arrivals then arrivals[slot] else []
  }

  /** All that is recorded while the days of `order` are flushed one after the other. */
  function Arrived(arrivals: map<Slot, Records>, order: seq<Slot>): Records {
    if order == [] then [] else
      Arrived(arrivals, order[..|order| - 1]) + During(arrivals, order[|order| - 1])
  }

  function Gained(buffer: map<Slot, seq<Row>>, adds: Records): map<Slot, seq<Row>> {
    if adds == [] then buffer else
      var n := |adds| - 1;
      var (slot, row) := adds[n];
      var rest := Gained(buffer, adds[..n]);
      rest[slot := (if slot in rest then rest[slot] else []) + [row]]
  }

  predicate SameFile(before: Disk, after: Disk, slot: Slot) {
    (slot in after <==> slot in before) && FileAt(after, slot) == FileAt(before, slot)
  }

  /** What a flush owes one day, when `came` was recorded for it meanwhile. A day that cannot be written
      keeps every row. Any other has all the rows it started with written in order, and after them the
      first `sent` of what came; the rest waits. */
  ghost predicate DayFlushed(s: State, t: State, slot: Slot, came: seq<Row>, unwritable: set<Slot>) {
    if slot in unwritable then
      SameFile(s.disk, t.disk, slot) && multiset(Buffered(t, slot)) == multiset(Buffered(s, slot) + came)
    else
      exists sent: nat :: sent <= |came| && WrittenPast(s, t, slot, came, sent)
  }

  ghost predicate WrittenPast(s: State, t: State, slot: Slot, came: seq<Row>, sent: nat)
    requires sent <= |came|
  {
    var rows := Buffered(s, slot) + came[..sent];
    && Buffered(t, slot) == came[sent..]
    && if rows == [] then SameFile(s.disk, t.disk, slot)
       else slot in t.disk && t.disk[slot] == Write(FileAt(s.disk, slot), Keyed(rows))
  }

  /** A day whose turn has not come has gained rows and nothing else. */
  ghost predicate DayPending(s: State, t: State, slot: Slot, came: seq<Row>) {
    SameFile(s.disk, t.disk, slot) && Buffered(t, slot) == Buffered(s, slot) + came
  }

  ghost predicate AllFlushed(s: State, t: State, came: Records, unwritable: set<Slot>) {
    forall slot :: DayFlushed(s, t, slot, Incoming(came, slot), unwritable)
  }

  /** The days of the first `n` streams are flushed but for `todo`; the others are pending. */
  ghost predicate FlushedSoFar(s: State, t: State, came: Records, unwritable: set<Slot>, n: nat, todo: set<Slot>) {
    forall slot :: if slot in todo || StreamOf(slot.kind) >= n
      then DayPending(s, t, slot, Incoming(came, slot)) else DayFlushed(s, t, slot, Incoming(came, slot), unwritable)
  }

  /** The place of a stream in the flush. */
  function StreamOf(kind: Kind): (i: nat)
    ensures i < |KINDS| && KINDS[i] == kind
  {
    match kind
    case Bars => 0
    case Oi => 1
    case Micro => 2
    case OptionQuotes => 3
    case Quotes => 4
    case QuotesHeld => 5
  }

  predicate AllPrunes(run: seq<Step>) { forall i :: 0 <= i < |run| ==> run[i].Prune? }

  /** The first `n` streams hold no more day files than their windows. */
  predicate WithinWindows(w: Windows, disk: Disk, n: nat)
    requires n <= |KINDS|
  {
    forall i :: 0 <= i < n && KeepFor(w, KINDS[i]) > 0 ==> |DaysOf(disk, KINDS[i])| <= KeepFor(w, KINDS[i])
  }

  /** Every read, write and unlink of the retention pass goes through. */
  predicate NothingFails(o: Oracle) { o.unlinkFails == {} && forall sl :: sl in o.aside ==> o.aside[sl].Readable? }

  class DailyArchive {
    const enabled: bool
    const windows: Windows
    var buffer: map<Slot, seq<Row>>
    var disk: Disk
    var flushes: nat
    var errors: nat
    var setAsideFailed: nat

    constructor (enabled: bool, windows: Windows, disk: Disk)
      ensures this.enabled == enabled && this.windows == windows
      ensures Value() == State(map[], None, disk) && flushes == errors == setAsideFailed == 0
    {
      this.enabled, this.windows, this.disk := enabled, windows, disk;
      buffer, flushes, errors, setAsideFailed := map[], 0, 0, 0;
    }

    ghost function Value(): State
      reads this
    {
      State(buffer, None, disk)
    }

    method Add(kind: Kind, ts: int, row: Row)
      modifies this`buffer
      ensures Value() ==
        if enabled then Next(windows, old(Value()), Step.Add(Slot(kind, IstDay(ts)), row)) else old(Value())
    {
      if enabled {
        Record(Slot(kind, IstDay(ts)), row);
      }
    }

    method Record(slot: Slot, row: Row)
      modifies this`buffer
      ensures buffer == old(buffer)[slot := Buffered(old(Value()), slot) + [row]]
    {
      buffer := buffer[slot := (if slot in buffer then buffer[slot] else []) + [row]];
    }

    method Receive(adds: Records)
      modifies this`buffer
      ensures buffer == Gained(old(buffer), adds)
    {
      for i := 0 to |adds|
        invariant buffer == Gained(old(buffer), adds[..i])
      {
        Record(adds[i].0, adds[i].1);
        assert adds[..i + 1][..i] == adds[..i];
      }
      assert adds[..|adds|] == adds;
    }

    /** Writes one buffered day, or puts its rows back; `adds` is recorded while they are out. */
    method FlushDay(slot: Slot, writable: bool, adds: Records) returns (ghost run: seq<Step>)
      requires slot in buffer
      modifies this`buffer, this`disk, this`errors
      ensures Value() == After(windows, old(Value()), run) && Turn(old(Value()), Value(), slot, writable, adds)
    {
      hide After, Gained, Turn, Next, Write, Keyed;
      var rows := buffer[slot];
      ghost var s := Value();
      buffer := buffer - {slot};
      Receive(adds);
      if rows != [] {
        if writable {
          disk := disk[slot := Write(if slot in disk then disk[slot] else map[], Keyed(rows))];
        } else {
          errors := errors + 1;
          buffer := buffer[slot := (if slot in buffer then buffer[slot] else []) + rows];
        }
      }
      run := DaySteps(slot, rows, writable, adds);
      DayTaken(windows, s, slot, writable, adds);
      TurnSeen(s, slot, writable, adds);
    }

    /** Writes every day that a stream has buffered when its turn comes. */
    method FlushStream(i: nat, o: Oracle, ghost s: State, ghost order: seq<Slot>)
      returns (ghost run: seq<Step>, ghost more: seq<Slot>)
      requires i < |KINDS| && FlushedSoFar(s, Value(), Arrived(o.arrivals, order), o.unwritable, i, {})
      modifies this`buffer, this`disk, this`errors
      ensures Value() == After(windows, old(Value()), run)
      ensures FlushedSoFar(s, Value(), Arrived(o.arrivals, order + more), o.unwritable, i + 1, {})
      ensures forall sl :: sl in old(buffer) ==> if sl.kind == KINDS[i] then sl in more else sl in buffer
    {
      hide After, FlushedSoFar, Turn, Arrived, FileAt;
      ghost var first := Value();
      run, more := [], [];
      NoSteps(windows, first);
      var todo := set sl | sl in buffer && sl.kind == KINDS[i];
      StreamBegins(s, Value(), Arrived(o.arrivals, order), o.unwritable, i, todo);
      assert order + more == order;
      while todo != {}
        invariant todo <= buffer.Keys && forall sl :: sl in todo ==> sl.kind == KINDS[i]
        invariant Value() == After(windows, first, run)
        invariant FlushedSoFar(s, Value(), Arrived(o.arrivals, order + more), o.unwritable, i + 1, todo)
        invariant forall sl :: sl in first.buffer ==>
          if sl.kind == KINDS[i] then sl in more || sl in todo else sl in buffer
        decreases |todo|
      {
        var slot :| slot in todo;
        ghost var t := Value();
        var adds := if slot in o.arrivals then o.arrivals[slot] else [];
        ghost var steps := FlushDay(slot, slot !in o.unwritable, adds);
        TurnKeeps(t, Value(), slot, slot !in o.unwritable, adds);
        DayOneMore(s, t, Value(), Arrived(o.arrivals, order + more), adds, o.unwritable, i + 1, todo, slot);
        todo := todo - {slot};
        AfterConcat(windows, first, run, steps);
        ArrivedAppends(o.arrivals, order + more, slot);
        assert order + more + [slot] == order + (more + [slot]);
        run, more := run + steps, more + [slot];
      }
    }

    /** Writes every buffered day, stream by stream. `order` is the order the days went in, which does
        not matter. */
    method FlushDays(o: Oracle) returns (ghost run: seq<Step>, ghost order: seq<Slot>)
      modifies this`buffer, this`disk, this`errors
      ensures Value() == After(windows, old(Value()), run)
      ensures AllFlushed(old(Value()), Value(), Arrived(o.arrivals, order), o.unwritable)
      ensures old(buffer).Keys <= set sl | sl in order
    {
      hide After, FlushedSoFar, AllFlushed, Arrived;
      ghost var s := Value();
      run, order := [], [];
      NoSteps(windows, s);
      NothingFlushed(s, o.arrivals, o.unwritable);
      for i := 0 to |KINDS|
        invariant Value() == After(windows, s, run)
        invariant FlushedSoFar(s, Value(), Arrived(o.arrivals, order), o.unwritable, i, {})
        invariant forall sl :: sl in s.buffer ==> if StreamOf(sl.kind) < i then sl in order else sl in buffer
      {
        ghost var steps, more := FlushStream(i, o, s, order);
        AfterConcat(windows, s, run, steps);
        run, order := run + steps, order + more;
      }
      EveryStreamFlushed(s, Value(), Arrived(o.arrivals, order), o.unwritable);
    }

    /** Moves a tape day's held rows into the held stream; false means its file must stay. */
    method SetAsideDay(slot: Slot, aside: Aside) returns (ok: bool)
      requires slot in disk && slot.kind.Quotes?
      modifies this`disk
      ensures ok <==> SetAside(old(disk), slot, aside).Some?
      ensures disk == if ok then SetAside(old(disk), slot, aside).value else old(disk)
    {
      if aside.Unreadable? {
        return false;
      }
      var rows, dest := HeldRows(disk[slot]), Slot(QuotesHeld, slot.day);
      if rows == map[] {
        return true;
      }
      if aside.Unwritable? {
        return false;
      }
      disk := disk[dest := (if dest in disk then disk[dest] else map[]) + rows];
      return true;
    }

    method PruneDay(slot: Slot, aside: Aside, unlinks: bool) returns (aborted: bool)
      requires Outdated(windows, disk, slot)
      modifies this`disk, this`setAsideFailed
      ensures Value() == Next(windows, old(Value()), Prune(slot, aside, unlinks))
      ensures aborted <==> SetAside(old(disk), slot, aside).Some? && !unlinks
    {
      hide Outdated, HeldRows;
      if slot.kind.Quotes? {
        var ok := SetAsideDay(slot, aside);
        if !ok {
          setAsideFailed := setAsideFailed + 1;
          return false;
        }
      }
      if !unlinks {
        return true;
      }
      disk := disk - {slot};
      return false;
    }

    /** Prunes one stream, oldest day first, down to its window. */
    method PruneStream(kind: Kind, o: Oracle) returns (aborted: bool, ghost run: seq<Step>)
      requires 0 < KeepFor(windows, kind)
      modifies this`disk, this`setAsideFailed
      ensures Value() == After(windows, old(Value()), run) && AllPrunes(run)
      ensures NothingFails(o) ==> !aborted && |DaysOf(disk, kind)| <= KeepFor(windows, kind)
      ensures forall k :: k != kind && !(kind.Quotes? && k.QuotesHeld?) ==> DaysOf(disk, k) == DaysOf(old(disk), k)
    {
      hide After, DaysOf, Outdated, KeepFor, Next, SetAside;
      ghost var s := Value();
      aborted, run := false, [];
      NoSteps(windows, s);
      var keep, todo := KeepFor(windows, kind), DaysOf(disk, kind);
      while |todo| > keep
        invariant todo <= DaysOf(disk, kind) && (NothingFails(o) ==> todo == DaysOf(disk, kind))
        invariant Value() == After(windows, s, run) && AllPrunes(run)
        invariant forall k :: k != kind && !(kind.Quotes? && k.QuotesHeld?) ==> DaysOf(disk, k) == DaysOf(s.disk, k)
        decreases |todo|
      {
        ghost var oldest := SomeOldest(todo);
        var d :| d in todo && forall e :: e in todo ==> d <= e;
        todo := todo - {d};
        var slot := Slot(kind, d);
        OldestIsOutdated(windows, disk, kind, todo + {d}, d);
        var aside := if slot in o.aside then o.aside[slot] else Readable;
        var unlinks := slot !in o.unlinkFails;
        ghost var mid := Value();
        forall k {
          PrunedDays(windows, mid, slot, aside, unlinks, k);
        }
        aborted := PruneDay(slot, aside, unlinks);
        StepAppends(windows, s, run, Prune(slot, aside, unlinks));
        run := run + [Prune(slot, aside, unlinks)];
        if aborted {
          return;
        }
      }
    }

    method PruneAll(o: Oracle) returns (ghost run: seq<Step>)
      modifies this`disk, this`setAsideFailed, this`errors
      ensures Value() == After(windows, old(Value()), run) && AllPrunes(run)
      ensures NothingFails(o) ==> WithinWindows(windows, disk, |KINDS|)
    {
      hide After, DaysOf, KeepFor;
      ghost var s := Value();
      run := [];
      NoSteps(windows, s);
      for i := 0 to |KINDS|
        invariant Value() == After(windows, s, run) && AllPrunes(run)
        invariant NothingFails(o) ==> WithinWindows(windows, disk, i)
      {
        ghost var before := disk;
        if KeepFor(windows, KINDS[i]) > 0 {
          var aborted, more := PruneStream(KINDS[i], o);
          AfterConcat(windows, s, run, more);
          run := run + more;
          if aborted {
            errors := errors + 1;
            return;
          }
        }
        forall j | 0 <= j < i ensures DaysOf(disk, KINDS[j]) == DaysOf(before, KINDS[j]) {
          assert KINDS[j] != KINDS[i];
        }
      }
    }

    /** Writes every buffered day, then applies the retention windows. `pops` and `prunes` are the
        steps it took; rows that could not be written are back in the buffer, whole. What is recorded
        during the pruning might as well come after it (`PruneAddCommute`). */
    method Flush(o: Oracle) returns (ghost pops: seq<Step>, ghost order: seq<Slot>, ghost prunes: seq<Step>)
      modifies this
      ensures !enabled ==> Value() == old(Value())
      ensures enabled ==>
        && AllFlushed(old(Value()), After(windows, old(Value()), pops), Arrived(o.arrivals, order), o.unwritable)
        && old(buffer).Keys <= (set sl | sl in order)
        && Value() == After(windows, old(Value()), pops + prunes) && AllPrunes(prunes)
        && (NothingFails(o) ==> WindowsKept(windows, disk))
        && flushes == old(flushes) + 1
    {
      pops, order, prunes := [], [], [];
      if enabled {
        hide After, AllFlushed, Arrived, WithinWindows, WindowsKept;
        pops, order := FlushDays(o);
        flushes := flushes + 1;
        prunes := PruneAll(o);
        AfterConcat(windows, old(Value()), pops, prunes);
        if NothingFails(o) {
          EveryWindowKept(windows, disk);
        }
      }
    }
  }

  lemma StepAppends(w: Windows, s: State, run: seq<Step>, e: Step)
    ensures After(w, s, run + [e]) == Next(w, After(w, s, run), e)
  {
    hide Next;
    assert (run + [e])[..|run|] == run;
  }

  lemma NoSteps(w: Windows, s: State)
    ensures After(w, s, []) == s
  {
  }

  // ---- one day's turn -------------------------------------------------------------------------

  function AddsOf(adds: Records): seq<Step> {
    seq(|adds|, i requires 0 <= i < |adds| => Step.Add(adds[i].0, adds[i].1))
  }

  function PutBack(buffer: map<Slot, seq<Row>>, slot: Slot, rows: seq<Row>): map<Slot, seq<Row>> {
    if rows == [] then buffer else buffer[slot := (if slot in buffer then buffer[slot] else []) + rows]
  }

  /** A day's turn as the machine's steps: pop it, record what comes, write it or put it back. */
  function DaySteps(slot: Slot, rows: seq<Row>, writable: bool, adds: Records): seq<Step> {
    [Pop(slot)] + AddsOf(adds) + if rows == [] then [] else [if writable then Commit else Fail]
  }

  lemma {:induction false} AddsRecord(w: Windows, s: State, adds: Records)
    ensures After(w, s, AddsOf(adds)) == s.(buffer := Gained(s.buffer, adds))
  {
    if adds != [] {
      var n := |adds| - 1;
      AddsRecord(w, s, adds[..n]);
      assert AddsOf(adds)[..n] == AddsOf(adds[..n]);
    }
  }

  function AfterTurn(s: State, slot: Slot, writable: bool, adds: Records): State
    requires slot in s.buffer
  {
    var rows := s.buffer[slot];
    State(
      PutBack(Gained(s.buffer - {slot}, adds), slot, if writable then [] else rows), None,
      if writable && rows != [] then s.disk[slot := Write(FileAt(s.disk, slot), Keyed(rows))] else s.disk)
  }

  lemma DayTaken(w: Windows, s: State, slot: Slot, writable: bool, adds: Records)
    requires s.flying.None? && slot in s.buffer
    ensures After(w, s, DaySteps(slot, s.buffer[slot], writable, adds)) == AfterTurn(s, slot, writable, adds)
  {
    hide Gained, Write, Keyed;
    var rows, popped := s.buffer[slot], Next(w, s, Pop(slot));
    AfterStep(w, s, [Pop(slot)], 0);
    assert [Pop(slot)][..1] == [Pop(slot)];
    AfterConcat(w, s, [Pop(slot)], AddsOf(adds));
    AddsRecord(w, popped, adds);
    if rows != [] {
      var e := if writable then Commit else Fail;
      StepAppends(w, s, [Pop(slot)] + AddsOf(adds), e);
    } else {
      assert [Pop(slot)] + AddsOf(adds) + [] == [Pop(slot)] + AddsOf(adds);
    }
  }

  lemma {:induction false} GainedShows(s: State, adds: Records, slot: Slot)
    ensures s.buffer.Keys <= Gained(s.buffer, adds).Keys
    ensures Buffered(s.(buffer := Gained(s.buffer, adds)), slot) == Buffered(s, slot) + Incoming(adds, slot)
  {
    if adds != [] {
      GainedShows(s, adds[..|adds| - 1], slot);
    }
  }

  /** What a day's turn does to the buffered rows of every day, and to the disk. */
  ghost predicate Turn(s: State, t: State, slot: Slot, writable: bool, adds: Records)
    requires slot in s.buffer
  {
    var rows := s.buffer[slot];
    && s.buffer.Keys - {slot} <= t.buffer.Keys
    && (forall d :: Buffered(t, d) ==
         if d == slot then Incoming(adds, d) + (if writable then [] else rows) else Buffered(s, d) + Incoming(adds, d))
    && t.disk == if writable && rows != [] then s.disk[slot := Write(FileAt(s.disk, slot), Keyed(rows))] else s.disk
  }

  lemma TurnSeen(s: State, slot: Slot, writable: bool, adds: Records)
    requires slot in s.buffer
    ensures Turn(s, AfterTurn(s, slot, writable, adds), slot, writable, adds)
  {
    hide Gained, Write, Keyed, Incoming;
    var popped := s.(buffer := s.buffer - {slot});
    GainedShows(popped, adds, slot);
    forall d {
      GainedShows(popped, adds, d);
    }
  }

  lemma TurnKeeps(s: State, t: State, slot: Slot, writable: bool, adds: Records)
    requires slot in s.buffer && Turn(s, t, slot, writable, adds)
    ensures s.buffer.Keys - {slot} <= t.buffer.Keys
  {
  }

  lemma {:induction false} IncomingConcat(xs: Records, ys: Records, slot: Slot)
    ensures Incoming(xs + ys, slot) == Incoming(xs, slot) + Incoming(ys, slot)
  {
    if ys == [] {
      assert xs + ys == xs;
    } else {
      var n := |ys| - 1;
      IncomingConcat(xs, ys[..n], slot);
      assert (xs + ys)[..|xs + ys| - 1] == xs + ys[..n];
    }
  }

  lemma ArrivedAppends(arrivals: map<Slot, Records>, order: seq<Slot>, slot: Slot)
    ensures Arrived(arrivals, order + [slot]) == Arrived(arrivals, order) + During(arrivals, slot)
  {
    assert (order + [slot])[..|order|] == order;
  }

  // ---- every day's turn -----------------------------------------------------------------------

  lemma NothingFlushed(s: State, arrivals: map<Slot, Records>, unwritable: set<Slot>)
    ensures FlushedSoFar(s, s, Arrived(arrivals, []), unwritable, 0, {})
  {
  }

  /** A stream's turn: the days it has no buffer for are done. */
  lemma StreamBegins(s: State, t: State, came: Records, unwritable: set<Slot>, n: nat, todo: set<Slot>)
    requires n < |KINDS| && FlushedSoFar(s, t, came, unwritable, n, {})
    requires todo == set sl | sl in t.buffer && sl.kind == KINDS[n]
    ensures FlushedSoFar(s, t, came, unwritable, n + 1, todo)
  {
    hide Incoming, Write, Keyed;
    forall slot | slot !in todo && StreamOf(slot.kind) == n
      ensures DayFlushed(s, t, slot, Incoming(came, slot), unwritable)
    {
      var rows := Incoming(came, slot);
      assert DayPending(s, t, slot, rows);
      assert Buffered(t, slot) == [];
      assert rows == [] && Buffered(s, slot) == [];
      assert rows[..0] == [] && rows[0..] == [];
      if slot !in unwritable {
        assert WrittenPast(s, t, slot, rows, 0);
      }
    }
  }

  lemma EveryStreamFlushed(s: State, t: State, came: Records, unwritable: set<Slot>)
    requires FlushedSoFar(s, t, came, unwritable, |KINDS|, {})
    ensures AllFlushed(s, t, came, unwritable)
  {
    forall slot ensures DayFlushed(s, t, slot, Incoming(came, slot), unwritable) {
      assert StreamOf(slot.kind) < |KINDS|;
    }
  }

  /** Rows that come to a day that has had its turn wait in the buffer. */
  lemma FlushedStays(s: State, t: State, u: State, slot: Slot, came: seq<Row>, more: seq<Row>, unwritable: set<Slot>)
    requires DayFlushed(s, t, slot, came, unwritable)
    requires SameFile(t.disk, u.disk, slot) && Buffered(u, slot) == Buffered(t, slot) + more
    ensures DayFlushed(s, u, slot, came + more, unwritable)
  {
    hide Write, Keyed, Buffered;
    if slot in unwritable {
      assert Buffered(s, slot) + (came + more) == (Buffered(s, slot) + came) + more;
    } else {
      var sent: nat :| sent <= |came| && WrittenPast(s, t, slot, came, sent);
      assert (came + more)[..sent] == came[..sent] && (came + more)[sent..] == came[sent..] + more;
      assert WrittenPast(s, u, slot, came + more, sent);
    }
  }

  /** The day whose turn it is. */
  lemma TurnTaken(s: State, t: State, u: State, slot: Slot, came: seq<Row>, more: seq<Row>, unwritable: set<Slot>)
    requires DayPending(s, t, slot, came)
    requires Buffered(u, slot) == more + if slot in unwritable then Buffered(t, slot) else []
    requires if slot !in unwritable && Buffered(t, slot) != []
      then slot in u.disk && u.disk[slot] == Write(FileAt(t.disk, slot), Keyed(Buffered(t, slot)))
      else SameFile(t.disk, u.disk, slot)
    ensures DayFlushed(s, u, slot, came + more, unwritable)
  {
    hide Write, Keyed, Buffered;
    if slot in unwritable {
      assert Buffered(s, slot) + (came + more) == (Buffered(s, slot) + came) + more;
    } else {
      var sent := |came|;
      assert (came + more)[..sent] == came && (came + more)[sent..] == more;
      assert WrittenPast(s, u, slot, came + more, sent);
    }
  }

  lemma DayOneMore(s: State, t: State, u: State, came: Records, adds: Records, unwritable: set<Slot>, n: nat,
                   todo: set<Slot>, slot: Slot)
    requires FlushedSoFar(s, t, came, unwritable, n, todo)
    requires slot in todo && slot in t.buffer && StreamOf(slot.kind) < n
    requires Turn(t, u, slot, slot !in unwritable, adds)
    ensures FlushedSoFar(s, u, came + adds, unwritable, n, todo - {slot})
  {
    hide Write, Keyed, Incoming, DayFlushed, FileAt, Buffered;
    forall d
      ensures if d in todo - {slot} || StreamOf(d.kind) >= n
        then DayPending(s, u, d, Incoming(came + adds, d))
        else DayFlushed(s, u, d, Incoming(came + adds, d), unwritable)
    {
      IncomingConcat(came, adds, d);
      if d == slot {
        PopsAll(t, slot);
        TurnTaken(s, t, u, d, Incoming(came, d), Incoming(adds, d), unwritable);
      } else {
        OtherDay(t, u, slot, slot !in unwritable, adds, d);
        if d in todo || StreamOf(d.kind) >= n {
          PendingStays(s, t, u, d, Incoming(came, d), Incoming(adds, d));
        } else {
          FlushedStays(s, t, u, d, Incoming(came, d), Incoming(adds, d), unwritable);
        }
      }
    }
  }

  lemma PopsAll(t: State, slot: Slot)
    requires slot in t.buffer
    ensures Buffered(t, slot) == t.buffer[slot]
  {
  }

  lemma OtherDay(t: State, u: State, slot: Slot, writable: bool, adds: Records, d: Slot)
    requires slot in t.buffer && Turn(t, u, slot, writable, adds) && d != slot
    ensures SameFile(t.disk, u.disk, d) && Buffered(u, d) == Buffered(t, d) + Incoming(adds, d)
  {
    hide Incoming, Write, Keyed, Buffered;
  }

  lemma PendingStays(s: State, t: State, u: State, slot: Slot, came: seq<Row>, more: seq<Row>)
    requires DayPending(s, t, slot, came)
    requires SameFile(t.disk, u.disk, slot) && Buffered(u, slot) == Buffered(t, slot) + more
    ensures DayPending(s, u, slot, came + more)
  {
    assert Buffered(s, slot) + came + more == Buffered(s, slot) + (came + more);
  }

  lemma PruneAddCommute(w: Windows, s: State, slot: Slot, aside: Aside, unlinked: bool, into: Slot, row: Row)
    ensures Next(w, Next(w, s, Step.Add(into, row)), Prune(slot, aside, unlinked))
         == Next(w, Next(w, s, Prune(slot, aside, unlinked)), Step.Add(into, row))
  {
    hide Outdated, HeldRows;
  }

  // ---- pruning --------------------------------------------------------------------------------

  lemma SomeOldest(days: set<int>) returns (d: int)
    requires days != {}
    ensures d in days && forall e :: e in days ==> d <= e
    decreases |days|
  {
    var one := SomeOne(days);
    d := one;
    if days - {one} != {} {
      var rest := SomeOldest(days - {one});
      d := MinInt(one, rest);
    }
    forall e | e in days ensures d <= e {
      assert e == one || e in days - {one};
    }
  }

  lemma EveryWindowKept(w: Windows, disk: Disk)
    requires WithinWindows(w, disk, |KINDS|)
    ensures WindowsKept(w, disk)
  {
    hide DaysOf, DaysAtMost;
    forall i | 0 <= i < |KINDS| && KeepFor(w, KINDS[i]) > 0 ensures DaysAtMost(disk, KINDS[i], KeepFor(w, KINDS[i])) {
      DaysBounded(disk, KINDS[i], KeepFor(w, KINDS[i]));
    }
    assert KINDS[0] == Bars && KINDS[1] == Oi && KINDS[2] == Micro && KINDS[3] == OptionQuotes;
    assert KINDS[4] == Quotes && KINDS[5] == QuotesHeld;
  }

  lemma OldestIsOutdated(w: Windows, disk: Disk, kind: Kind, todo: set<int>, d: int)
    requires todo <= DaysOf(disk, kind) && 0 < KeepFor(w, kind) < |todo|
    requires d in todo && forall e :: e in todo ==> d <= e
    ensures Outdated(w, disk, Slot(kind, d))
  {
    assert |todo - {d}| == |todo| - 1;
    SubsetSize(todo - {d}, Newer(DaysOf(disk, kind), d));
  }

  /** Pruning a day takes at most that day from its own stream, and may add it to the held one. */
  lemma PrunedDays(w: Windows, s: State, slot: Slot, aside: Aside, unlinked: bool, kind: Kind)
    requires s.flying.None? && Outdated(w, s.disk, slot)
    ensures var days, after := DaysOf(s.disk, kind), DaysOf(Next(w, s, Prune(slot, aside, unlinked)).disk, kind);
      && (kind == slot.kind ==> days - {slot.day} <= after <= days)
      && (kind == slot.kind && aside.Readable? && unlinked ==> after == days - {slot.day})
      && (kind != slot.kind && !(slot.kind.Quotes? && kind.QuotesHeld?) ==> after == days)
  {
    hide Outdated, HeldRows;
    var disk, disk1 := s.disk, Next(w, s, Prune(slot, aside, unlinked)).disk;
    forall d ensures Slot(kind, d) in disk1 ==> d in DaysOf(disk1, kind) {
    }
    forall d | d in DaysOf(disk, kind) ensures Slot(kind, d) in disk {
    }
    forall d | d in DaysOf(disk1, kind) ensures Slot(kind, d) in disk1 {
    }
  }
}
