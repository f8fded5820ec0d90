/** The daily archive as a machine of atomic steps: rows are buffered by stream and day, a flush pops
    a day and writes it or puts it back, and pruning deletes the days past a stream's window. Any
    read, write or unlink may fail, and rows may be added between any two steps of a flush. */
module Archive {
  import opened Wrappers
  import opened DayFile

  datatype Kind = Bars | Oi | Micro | OptionQuotes | Quotes | QuotesHeld

  /** The streams in the order they are flushed and pruned. */
  const KINDS := [Bars, Oi, Micro, OptionQuotes, Quotes, QuotesHeld]

  datatype Slot = Slot(kind: Kind, day: int)

  datatype Row = Row(code: string, at: real, held: bool, values: seq<real>)

  type Key = (string, real)

  type File = map<Key, Row>

  type Disk = map<Slot, File>

  datatype State = State(buffer: map<Slot, seq<Row>>, flying: Option<(Slot, seq<Row>)>, disk: Disk)

  datatype Windows = Windows(tape: nat, held: nat, research: nat)

  datatype Aside = Unreadable | Unwritable | Readable

  datatype Step =
    | Add(slot: Slot, row: Row)
    | Pop(slot: Slot)
    | Commit
    | Fail
    | Prune(slot: Slot, aside: Aside, unlinked: bool)

  function KeyOf(r: Row): Key { (r.code, r.at) }

  function Keyed(rows: seq<Row>): (out: seq<(Key, Row)>)
    ensures |out| == |rows| && forall i :: 0 <= i < |rows| ==> out[i] == (KeyOf(rows[i]), rows[i])
  {
    seq(|rows|, i requires 0 <= i < |rows| => (KeyOf(rows[i]), rows[i]))
  }

  /** How many day files of a stream are kept; zero keeps everything. */
  function KeepFor(w: Windows, kind: Kind): nat {
    match kind
    case Quotes => w.tape
    case QuotesHeld => w.held
    case _ => w.research
  }

  function Buffered(s: State, slot: Slot): seq<Row> { if slot in s.buffer then s.buffer[slot] else [] }

  function FileAt(disk: Disk, slot: Slot): File { if slot in disk then disk[slot] else map[] }

  function DaysOf(disk: Disk, kind: Kind): set<int> { set sl | sl in disk && sl.kind == kind :: sl.day }

  function Newer(days: set<int>, day: int): set<int> { set d | d in days && day < d }

  /** A day past its stream's window: at least as many newer files are on disk as are kept. */
  predicate Outdated(w: Windows, disk: Disk, slot: Slot)
    ensures Outdated(w, disk, slot) ==> slot in disk
  {
    slot in disk && 0 < KeepFor(w, slot.kind) <= |Newer(DaysOf(disk, slot.kind), slot.day)|
  }

  function HeldCodes(file: File): set<string> { set k | k in file && file[k].held :: file[k].code }

  /** Every row of every code that was held at any point of the file's day. */
  function HeldRows(file: File): File {
    var held := HeldCodes(file);
    map k | k in file && file[k].code in held :: file[k]
  }

  /** The disk once a tape day's held rows have been moved aside, or `None` when that failed. */
  function SetAside(disk: Disk, slot: Slot, aside: Aside): Option<Disk>
    requires slot in disk
  {
    if !slot.kind.Quotes? then Some(disk)
    else if aside.Unreadable? then None
    else
      var rows, dest := HeldRows(disk[slot]), Slot(QuotesHeld, slot.day);
      if rows == map[] then Some(disk)
      else if aside.Unwritable? then None
      else Some(disk[dest := FileAt(disk, dest) + rows])
  }

  predicate Enabled(w: Windows, s: State, e: Step) {
    match e
    case Add(_, _) => true
    case Pop(slot) => s.flying.None? && slot in s.buffer
    case Commit => s.flying.Some?
    case Fail => s.flying.Some?
    case Prune(slot, _, _) => s.flying.None? && Outdated(w, s.disk, slot)
  }

  /** A step that is not enabled does nothing, so every sequence of steps is a run. */
  function Next(w: Windows, s: State, e: Step): State {
    if !Enabled(w, s, e) then s
    else
    match e
    case Add(slot, row) => s.(buffer := s.buffer[slot := Buffered(s, slot) + [row]])
    case Pop(slot) =>
      var rows := s.buffer[slot];
      s.(buffer := s.buffer - {slot}, flying := if rows == [] then None else Some((slot, rows)))
    case Commit =>
      var (slot, rows) := s.flying.value;
      s.(flying := None, disk := s.disk[slot := Write(FileAt(s.disk, slot), Keyed(rows))])
    case Fail =>
      var (slot, rows) := s.flying.value;
      s.(flying := None, buffer := s.buffer[slot := Buffered(s, slot) + rows])
    case Prune(slot, aside, unlinked) =>
      match SetAside(s.disk, slot, aside)
      case None => s
      case Some(disk) => s.(disk := if unlinked then disk - {slot} else disk)
  }

  function After(w: Windows, s: State, run: seq<Step>): State {
    if run == [] then s else Next(w, After(w, s, run[..|run| - 1]), run[|run| - 1])
  }

  // ---- nothing recorded is lost ---------------------------------------------------------------

  predicate HasKey(rows: seq<Row>, k: Key) { exists i :: 0 <= i < |rows| && KeyOf(rows[i]) == k }

  /** The key is waiting in the buffer, being written, or on disk. */
  predicate Kept(s: State, slot: Slot, k: Key) {
    || HasKey(Buffered(s, slot), k)
    || (s.flying.Some? && s.flying.value.0 == slot && HasKey(s.flying.value.1, k))
    || k in FileAt(s.disk, slot)
  }

  /** Step `i` deleted the slot's file, past its window, with the key in it. */
  predicate DeletedAt(w: Windows, s: State, run: seq<Step>, i: nat, slot: Slot, k: Key) {
    && i < |run| && run[i].Prune? && run[i].slot == slot
    && Outdated(w, After(w, s, run[..i]).disk, slot)
    && k in FileAt(After(w, s, run[..i]).disk, slot)
    && slot !in After(w, s, run[..i + 1]).disk
  }

  lemma HasKeyConcat(a: seq<Row>, b: seq<Row>, k: Key)
    ensures HasKey(a + b, k) <==> HasKey(a, k) || HasKey(b, k)
  {
    if i :| 0 <= i < |a| && KeyOf(a[i]) == k {
      assert KeyOf((a + b)[i]) == k;
    }
    if i :| 0 <= i < |b| && KeyOf(b[i]) == k {
      assert KeyOf((a + b)[|a| + i]) == k;
    }
  }

  lemma WritesKey(file: File, rows: seq<Row>, k: Key)
    requires k in file || HasKey(rows, k)
    ensures k in Write(file, Keyed(rows))
  {
    WriteKeys(file, Keyed(rows));
    if k !in file {
      var i :| 0 <= i < |rows| && KeyOf(rows[i]) == k;
      assert Keyed(rows)[i].0 == k;
    }
  }

  lemma SetAsideKeeps(disk: Disk, slot: Slot, aside: Aside, other: Slot, k: Key)
    requires slot in disk && k in FileAt(disk, other) && SetAside(disk, slot, aside).Some?
    ensures k in FileAt(SetAside(disk, slot, aside).value, other)
  {
  }

  /** One step keeps a key, unless it is the deletion of the key's own day past its window. */
  lemma StepKeeps(w: Windows, s: State, e: Step, slot: Slot, k: Key)
    requires Kept(s, slot, k)
    ensures Kept(Next(w, s, e), slot, k)
      || (e.Prune? && e.slot == slot && Outdated(w, s.disk, slot) && k in FileAt(s.disk, slot)
          && slot !in Next(w, s, e).disk)
  {
    hide HasKey, SetAside, Outdated, Write, Keyed;
    if Enabled(w, s, e) {
      match e
      case Add(sl, row) => HasKeyConcat(Buffered(s, sl), [row], k);
      case Pop(sl) =>
      case Commit =>
        if s.flying.value.0 == slot && !HasKey(Buffered(s, slot), k) {
          WritesKey(FileAt(s.disk, slot), s.flying.value.1, k);
        }
      case Fail => HasKeyConcat(Buffered(s, s.flying.value.0), s.flying.value.1, k);
      case Prune(sl, aside, unlinked) =>
        if k in FileAt(s.disk, slot) {
          PruneKeeps(w, s, e, slot, k);
        }
    }
  }

  lemma PruneKeeps(w: Windows, s: State, e: Step, slot: Slot, k: Key)
    requires e.Prune? && Enabled(w, s, e) && k in FileAt(s.disk, slot)
    ensures k in FileAt(Next(w, s, e).disk, slot) || (e.slot == slot && slot !in Next(w, s, e).disk)
  {
    hide SetAside, DaysOf, Newer;
    if SetAside(s.disk, e.slot, e.aside).Some? {
      SetAsideKeeps(s.disk, e.slot, e.aside, slot, k);
    }
  }

  /** A kept key stays kept until its own day leaves its stream's window with the key in it. */
  lemma {:induction false} KeptUntilDeleted(w: Windows, s: State, run: seq<Step>, j: nat, slot: Slot, k: Key)
    requires j <= |run| && Kept(After(w, s, run[..j]), slot, k)
    ensures Kept(After(w, s, run), slot, k) || exists i :: j <= i < |run| && DeletedAt(w, s, run, i, slot, k)
    decreases |run|
  {
    hide Kept, Next, Outdated;
    if j == |run| {
      assert run[..j] == run;
    } else {
      var n := |run| - 1;
      assert run[..n][..j] == run[..j] && run[..n + 1] == run;
      KeptUntilDeleted(w, s, run[..n], j, slot, k);
      if Kept(After(w, s, run[..n]), slot, k) {
        StepKeeps(w, After(w, s, run[..n]), run[n], slot, k);
        assert !Kept(After(w, s, run), slot, k) ==> DeletedAt(w, s, run, n, slot, k);
      } else {
        var i :| j <= i < n && DeletedAt(w, s, run[..n], i, slot, k);
        assert run[..n][..i] == run[..i] && run[..n][..i + 1] == run[..i + 1];
        assert DeletedAt(w, s, run, i, slot, k);
      }
    }
  }

  lemma {:induction false} AfterConcat(w: Windows, s: State, a: seq<Step>, b: seq<Step>)
    ensures After(w, s, a + b) == After(w, After(w, s, a), b)
  {
    hide Next;
    if b == [] {
      assert a + b == a;
    } else {
      AfterConcat(w, s, a, b[..|b| - 1]);
      assert (a + b)[..|a + b| - 1] == a + b[..|b| - 1];
    }
  }

  lemma AfterStep(w: Windows, s: State, run: seq<Step>, i: nat)
    requires i < |run|
    ensures After(w, s, run[..i + 1]) == Next(w, After(w, s, run[..i]), run[i])
  {
    hide Next;
    assert run[..i + 1][..i] == run[..i];
  }

  /** Nothing recorded is lost: a row's key is buffered, in flight or on disk, or the day it was
      recorded for was deleted later, with that key on disk and at least the window's number of newer
      days there. */
  lemma NothingLost(w: Windows, s: State, run: seq<Step>, j: nat)
    requires j < |run| && run[j].Add?
    ensures Kept(After(w, s, run), run[j].slot, KeyOf(run[j].row))
      || exists i :: j < i < |run| && DeletedAt(w, s, run, i, run[j].slot, KeyOf(run[j].row))
  {
    hide Outdated, HasKey;
    AfterStep(w, s, run, j);
    var slot, row := run[j].slot, run[j].row;
    var before := After(w, s, run[..j]);
    HasKeyConcat(Buffered(before, slot), [row], KeyOf(row));
    assert HasKey([row], KeyOf(row)) by { OneHasKey(row); }
    KeptUntilDeleted(w, s, run, j + 1, slot, KeyOf(row));
  }

  lemma OneHasKey(row: Row)
    ensures HasKey([row], KeyOf(row))
  {
    assert KeyOf([row][0]) == KeyOf(row);
  }

  // ---- the newest days are never deleted ------------------------------------------------------

  lemma NewerGrows(days: set<int>, more: set<int>, day: int)
    requires days <= more
    ensures |Newer(days, day)| <= |Newer(more, day)|
  {
    SubsetSize(Newer(days, day), Newer(more, day));
  }

  /** A day is stored, or as many newer days of its stream as are kept are stored. */
  predicate InWindow(w: Windows, disk: Disk, slot: Slot) {
    slot in disk || 0 < KeepFor(w, slot.kind) <= |Newer(DaysOf(disk, slot.kind), slot.day)|
  }

  lemma GrowKeepsWindow(w: Windows, disk: Disk, more: Disk, slot: Slot)
    requires InWindow(w, disk, slot) && disk.Keys <= more.Keys
    ensures InWindow(w, more, slot)
  {
    assert DaysOf(disk, slot.kind) <= DaysOf(more, slot.kind);
    NewerGrows(DaysOf(disk, slot.kind), DaysOf(more, slot.kind), slot.day);
  }

  lemma UnlinkKeepsWindow(w: Windows, disk: Disk, gone: Slot, slot: Slot)
    requires InWindow(w, disk, slot) && Outdated(w, disk, gone)
    ensures InWindow(w, disk - {gone}, slot)
  {
    var before, after := DaysOf(disk, slot.kind), DaysOf(disk - {gone}, slot.kind);
    if gone.kind != slot.kind {
      assert before == after;
    } else if slot.day <= gone.day {
      forall d | d in Newer(before, gone.day) ensures d in Newer(after, slot.day) {
        assert Slot(slot.kind, d) in disk - {gone};
      }
      SubsetSize(Newer(before, gone.day), Newer(after, slot.day));
    } else {
      forall d | d in Newer(before, slot.day) ensures d in Newer(after, slot.day) {
        assert Slot(slot.kind, d) in disk - {gone};
      }
      SubsetSize(Newer(before, slot.day), Newer(after, slot.day));
    }
  }

  lemma StepKeepsWindow(w: Windows, s: State, e: Step, slot: Slot)
    requires InWindow(w, s.disk, slot)
    ensures InWindow(w, Next(w, s, e).disk, slot)
  {
    hide InWindow, Outdated, Write, Keyed, HeldRows;
    var s1 := Next(w, s, e);
    if e.Prune? && e.unlinked && Enabled(w, s, e) && e.slot in s.disk && SetAside(s.disk, e.slot, e.aside).Some? {
      var disk := SetAside(s.disk, e.slot, e.aside).value;
      GrowKeepsWindow(w, s.disk, disk, slot);
      assert Outdated(w, disk, e.slot) by { GrowKeepsOutdated(w, s.disk, disk, e.slot); }
      UnlinkKeepsWindow(w, disk, e.slot, slot);
    } else {
      assert s.disk.Keys <= s1.disk.Keys;
      GrowKeepsWindow(w, s.disk, s1.disk, slot);
    }
  }

  lemma GrowKeepsOutdated(w: Windows, disk: Disk, more: Disk, slot: Slot)
    requires Outdated(w, disk, slot) && disk.Keys <= more.Keys
    ensures Outdated(w, more, slot)
  {
    assert DaysOf(disk, slot.kind) <= DaysOf(more, slot.kind);
    NewerGrows(DaysOf(disk, slot.kind), DaysOf(more, slot.kind), slot.day);
  }

  /** The newest days are never deleted: a day that was ever on disk either still is, or as many
      newer days as its stream keeps are on disk now. A stream whose window is zero loses nothing. */
  lemma {:induction false} NewestDaysStay(w: Windows, s: State, run: seq<Step>, j: nat, slot: Slot)
    requires j <= |run| && slot in After(w, s, run[..j]).disk
    ensures InWindow(w, After(w, s, run).disk, slot)
    ensures KeepFor(w, slot.kind) == 0 ==> slot in After(w, s, run).disk
    decreases |run|
  {
    hide Next, KeepFor, DaysOf, Newer;
    if j == |run| {
      assert run[..j] == run;
    } else {
      var n := |run| - 1;
      assert run[..n][..j] == run[..j];
      NewestDaysStay(w, s, run[..n], j, slot);
      StepKeepsWindow(w, After(w, s, run[..n]), run[n], slot);
    }
  }

  /** At least `n` newer days of the stream are on disk. */
  ghost predicate NewerDaysStored(disk: Disk, kind: Kind, day: int, n: nat) {
    exists newer: set<int> :: |newer| >= n && forall d :: d in newer ==> day < d && Slot(kind, d) in disk
  }

  /** The windows, stream by stream: in any run a day is deleted only past its own stream's window, the
      tape's, the held stream's or the research one, and a window of zero deletes nothing. */
  lemma DeletedPastWindow(w: Windows, s: State, run: seq<Step>, i: nat, slot: Slot)
    requires i < |run| && slot in After(w, s, run[..i]).disk && slot !in After(w, s, run[..i + 1]).disk
    ensures var before := After(w, s, run[..i]).disk;
      match slot.kind
      case Quotes => w.tape > 0 && NewerDaysStored(before, Quotes, slot.day, w.tape)
      case QuotesHeld => w.held > 0 && NewerDaysStored(before, QuotesHeld, slot.day, w.held)
      case _ => w.research > 0 && NewerDaysStored(before, slot.kind, slot.day, w.research)
  {
    hide After, Write, Keyed, HeldRows;
    AfterStep(w, s, run, i);
    var disk := After(w, s, run[..i]).disk;
    assert Outdated(w, disk, slot);
    var newer := Newer(DaysOf(disk, slot.kind), slot.day);
    assert forall d :: d in newer ==> slot.day < d && Slot(slot.kind, d) in disk;
  }

  /** At most `n` days of the stream are on disk. */
  ghost predicate DaysAtMost(disk: Disk, kind: Kind, n: nat) {
    forall days: set<int> :: (forall d :: d in days ==> Slot(kind, d) in disk) ==> |days| <= n
  }

  /** No stream holds more day files than its own window, where it has one. */
  ghost predicate WindowsKept(w: Windows, disk: Disk) {
    && (w.tape > 0 ==> DaysAtMost(disk, Quotes, w.tape))
    && (w.held > 0 ==> DaysAtMost(disk, QuotesHeld, w.held))
    && (w.research > 0 ==>
         && DaysAtMost(disk, Bars, w.research) && DaysAtMost(disk, Oi, w.research)
         && DaysAtMost(disk, Micro, w.research) && DaysAtMost(disk, OptionQuotes, w.research))
  }

  lemma DaysBounded(disk: Disk, kind: Kind, n: nat)
    requires |DaysOf(disk, kind)| <= n
    ensures DaysAtMost(disk, kind, n)
  {
    forall days: set<int> | forall d :: d in days ==> Slot(kind, d) in disk ensures |days| <= n {
      forall d | d in days ensures d in DaysOf(disk, kind) {
        assert Slot(kind, d) in disk;
      }
      SubsetSize(days, DaysOf(disk, kind));
    }
  }

  // ---- a tape day goes only once its held rows are aside --------------------------------------

  predicate Covered(rows: File, store: File) { forall k :: k in rows ==> k in store && store[k] == rows[k] }

  /** A tape day is deleted only once every row of every code its file marks held is, unchanged, in
      the same day's file of the held stream. */
  lemma DeletedOnceAside(w: Windows, s: State, e: Step, day: int)
    requires Slot(Quotes, day) in s.disk && Slot(Quotes, day) !in Next(w, s, e).disk
    ensures e.Prune? && e.slot == Slot(Quotes, day) && Outdated(w, s.disk, e.slot)
    ensures FileAt(Next(w, s, e).disk, Slot(QuotesHeld, day))
         == FileAt(s.disk, Slot(QuotesHeld, day)) + HeldRows(s.disk[Slot(Quotes, day)])
    ensures Covered(HeldRows(s.disk[Slot(Quotes, day)]), FileAt(Next(w, s, e).disk, Slot(QuotesHeld, day)))
  {
    hide Outdated, HeldRows, Write, Keyed;
  }

  /** A row of a contract held that day is lost only when its day leaves the held stream's window. */
  lemma HeldRowsOutlive(w: Windows, s: State, run: seq<Step>, i: nat, day: int, k: Key)
    requires i < |run|
    requires Slot(Quotes, day) in After(w, s, run[..i]).disk && Slot(Quotes, day) !in After(w, s, run[..i + 1]).disk
    requires k in HeldRows(After(w, s, run[..i]).disk[Slot(Quotes, day)])
    ensures Kept(After(w, s, run), Slot(QuotesHeld, day), k)
      || exists d :: i < d < |run| && DeletedAt(w, s, run, d, Slot(QuotesHeld, day), k)
  {
    hide Next, HeldRows, DeletedAt, HasKey;
    AfterStep(w, s, run, i);
    DeletedOnceAside(w, After(w, s, run[..i]), run[i], day);
    KeptUntilDeleted(w, s, run, i + 1, Slot(QuotesHeld, day), k);
  }

  // ---- rows the flush could not write ---------------------------------------------------------

  predicate HeldIn(file: File, code: string) { exists k :: k in file && file[k].code == code && file[k].held }

  /** A code is held that day, by a row on disk or by one still waiting to be written. */
  predicate HeldThatDay(s: State, day: int, code: string) {
    || HeldIn(FileAt(s.disk, Slot(Quotes, day)), code)
    || exists i :: 0 <= i < |Buffered(s, Slot(Quotes, day))|
         && Buffered(s, Slot(Quotes, day))[i].code == code && Buffered(s, Slot(Quotes, day))[i].held
  }

  /** No waiting row is the only one to say that a code already on disk was held. */
  predicate NothingHeldWaiting(s: State, day: int) {
    forall i, k :: 0 <= i < |Buffered(s, Slot(Quotes, day))| && k in FileAt(s.disk, Slot(Quotes, day))
      && Buffered(s, Slot(Quotes, day))[i].held
      && FileAt(s.disk, Slot(Quotes, day))[k].code == Buffered(s, Slot(Quotes, day))[i].code
      ==> HeldIn(FileAt(s.disk, Slot(Quotes, day)), Buffered(s, Slot(Quotes, day))[i].code)
  }

  /** Every stored row of a contract held that day is one that the file itself says was held, or one
      already aside. */
  ghost predicate HeldIsSafe(s: State, day: int) {
    var file, aside := FileAt(s.disk, Slot(Quotes, day)), FileAt(s.disk, Slot(QuotesHeld, day));
    forall k :: k in file && HeldThatDay(s, day, file[k].code) ==>
      HeldIn(file, file[k].code) || (k in aside && aside[k] == file[k])
  }

  lemma HeldRowsIff(file: File, k: Key)
    requires k in file
    ensures k in HeldRows(file) <==> HeldIn(file, file[k].code)
    ensures k in HeldRows(file) ==> HeldRows(file)[k] == file[k]
  {
    if HeldIn(file, file[k].code) {
      var h :| h in file && file[h].code == file[k].code && file[h].held;
      assert file[h].code in HeldCodes(file);
    }
  }

  /** Every row the tape day had on disk, of every contract held that day, is aside unchanged. */
  ghost predicate DayIsAside(before: State, after: State, day: int) {
    var file := FileAt(before.disk, Slot(Quotes, day));
    var aside := FileAt(after.disk, Slot(QuotesHeld, day));
    forall k :: k in file && HeldThatDay(before, day, file[k].code) ==> k in aside && aside[k] == file[k]
  }

  /** Exactly when deleting a tape day keeps the day's held contracts, in any run: when each of their
      stored rows was one the file itself says was held, or was already aside. */
  lemma DeletionKeepsHeldIff(w: Windows, s: State, run: seq<Step>, i: nat, day: int)
    requires i < |run|
    requires Slot(Quotes, day) in After(w, s, run[..i]).disk && Slot(Quotes, day) !in After(w, s, run[..i + 1]).disk
    ensures var before, after := After(w, s, run[..i]), After(w, s, run[..i + 1]);
      DayIsAside(before, after, day) <==> HeldIsSafe(before, day)
  {
    hide After, HeldThatDay, HeldIn, HeldRows, Outdated;
    AfterStep(w, s, run, i);
    var before := After(w, s, run[..i]);
    DeletedOnceAside(w, before, run[i], day);
    var file := before.disk[Slot(Quotes, day)];
    forall k | k in file ensures k in HeldRows(file) <==> HeldIn(file, file[k].code)
      ensures k in HeldRows(file) ==> HeldRows(file)[k] == file[k]
    {
      HeldRowsIff(file, k);
    }
  }

  /** That is so when no row still to be written is alone in saying that a stored code was held; and,
      where nothing of the day was aside before, only then. */
  lemma NothingWaitingIsSafe(s: State, day: int)
    ensures NothingHeldWaiting(s, day) ==> HeldIsSafe(s, day)
    ensures Slot(QuotesHeld, day) !in s.disk && HeldIsSafe(s, day) ==> NothingHeldWaiting(s, day)
  {
    var file, waiting := FileAt(s.disk, Slot(Quotes, day)), Buffered(s, Slot(Quotes, day));
    if Slot(QuotesHeld, day) !in s.disk && HeldIsSafe(s, day) {
      forall i, k | 0 <= i < |waiting| && k in file && waiting[i].held && file[k].code == waiting[i].code
        ensures HeldIn(file, waiting[i].code)
      {
        assert HeldThatDay(s, day, file[k].code);
      }
    }
  }

  // ---- what the run recorded ------------------------------------------------------------------

  const NOTHING := State(map[], None, map[])

  predicate Recorded(run: seq<Step>, slot: Slot, r: Row) { Add(slot, r) in run }

  /** Every row of the slot, wherever it is, was recorded in the run, and is filed under its key. */
  predicate AllRecorded(s: State, run: seq<Step>, slot: Slot) {
    && (forall r :: r in Buffered(s, slot) ==> Recorded(run, slot, r))
    && (s.flying.Some? && s.flying.value.0 == slot ==> forall r :: r in s.flying.value.1 ==> Recorded(run, slot, r))
    && (forall k :: k in FileAt(s.disk, slot) ==>
          Recorded(run, slot, FileAt(s.disk, slot)[k]) && KeyOf(FileAt(s.disk, slot)[k]) == k)
  }

  lemma {:induction false} RowsAreRecorded(w: Windows, run: seq<Step>, slot: Slot)
    requires !slot.kind.QuotesHeld?
    ensures AllRecorded(After(w, NOTHING, run), run, slot)
  {
    if run == [] {
      return;
    }
    hide Next, AllRecorded;
    var n := |run| - 1;
    RowsAreRecorded(w, run[..n], slot);
    assert run == run[..n] + [run[n]];
    StepRecords(w, After(w, NOTHING, run[..n]), run[..n], run[n], slot);
  }

  lemma RecordedGrows(s: State, run: seq<Step>, e: Step, slot: Slot)
    requires AllRecorded(s, run, slot)
    ensures AllRecorded(s, run + [e], slot)
  {
    forall r | Recorded(run, slot, r) ensures Recorded(run + [e], slot, r) {
    }
  }

  lemma StepRecords(w: Windows, s: State, run: seq<Step>, e: Step, slot: Slot)
    requires AllRecorded(s, run, slot) && !slot.kind.QuotesHeld?
    ensures AllRecorded(Next(w, s, e), run + [e], slot)
  {
    hide Outdated, Write, Keyed, HeldRows, Recorded;
    RecordedGrows(s, run, e, slot);
    if Enabled(w, s, e) {
      match e
      case Add(_, _) => JustRecorded(run, e);
      case Pop(_) =>
      case Commit =>
        if s.flying.value.0 == slot {
          CommitRecords(w, s, run + [e], e, slot);
        } else {
          FileStaysRecorded(s, Next(w, s, e), run + [e], slot);
        }
      case Fail =>
      case Prune(sl, _, _) => PruneRecords(w, s, run + [e], e, slot);
    }
  }

  lemma PruneRecords(w: Windows, s: State, run: seq<Step>, e: Step, slot: Slot)
    requires AllRecorded(s, run, slot) && !slot.kind.QuotesHeld? && e.Prune? && Enabled(w, s, e)
    ensures AllRecorded(Next(w, s, e), run, slot)
  {
    hide Outdated, Recorded, HeldRows;
    var s1 := Next(w, s, e);
    assert slot in s1.disk ==> slot in s.disk && s1.disk[slot] == s.disk[slot];
    FileStaysRecorded(s, s1, run, slot);
  }

  lemma FileStaysRecorded(s: State, s1: State, run: seq<Step>, slot: Slot)
    requires AllRecorded(s, run, slot) && s1.buffer == s.buffer
    requires s1.flying == s.flying || s1.flying == None
    requires FileAt(s1.disk, slot) == FileAt(s.disk, slot) || FileAt(s1.disk, slot) == map[]
    ensures AllRecorded(s1, run, slot)
  {
    hide Recorded;
  }

  lemma JustRecorded(run: seq<Step>, e: Step)
    requires e.Add?
    ensures Recorded(run + [e], e.slot, e.row)
  {
  }

  lemma CommitRecords(w: Windows, s: State, run: seq<Step>, e: Step, slot: Slot)
    requires AllRecorded(s, run, slot) && e.Commit? && s.flying.Some? && s.flying.value.0 == slot
    ensures AllRecorded(Next(w, s, e), run, slot)
  {
    hide Outdated, Write, Recorded;
    var file, rows := FileAt(s.disk, slot), s.flying.value.1;
    var after := Write(file, Keyed(rows));
    forall k | k in after ensures Recorded(run, slot, after[k]) && KeyOf(after[k]) == k {
      WriteValues(file, Keyed(rows), k);
      if i :| 0 <= i < |rows| && Keyed(rows)[i] == (k, after[k]) {
        assert rows[i] in rows;
      }
    }
  }

  /** Rows recorded under one key agree on whether the contract was held. */
  predicate HeldAgrees(run: seq<Step>, slot: Slot) {
    forall i, j :: 0 <= i < |run| && 0 <= j < |run| && run[i].Add? && run[j].Add? ==>
      run[i].slot == slot == run[j].slot && KeyOf(run[i].row) == KeyOf(run[j].row) ==>
        run[i].row.held == run[j].row.held
  }

  lemma SameHeld(run: seq<Step>, slot: Slot, a: Row, b: Row)
    requires HeldAgrees(run, slot) && Recorded(run, slot, a) && Recorded(run, slot, b) && KeyOf(a) == KeyOf(b)
    ensures a.held == b.held
  {
    var i :| 0 <= i < |run| && run[i] == Add(slot, a);
    var j :| 0 <= j < |run| && run[j] == Add(slot, b);
  }

  /** A held row that is still somewhere makes its contract one held that day. */
  lemma KeptMakesHeld(s: State, run: seq<Step>, day: int, row: Row)
    requires AllRecorded(s, run, Slot(Quotes, day)) && HeldAgrees(run, Slot(Quotes, day)) && s.flying.None?
    requires Recorded(run, Slot(Quotes, day), row) && row.held && Kept(s, Slot(Quotes, day), KeyOf(row))
    ensures HeldThatDay(s, day, row.code)
  {
    hide HeldAgrees, Recorded;
    var slot := Slot(Quotes, day);
    if KeyOf(row) in FileAt(s.disk, slot) {
      SameHeld(run, slot, FileAt(s.disk, slot)[KeyOf(row)], row);
    } else {
      var waiting := Buffered(s, slot);
      var i :| 0 <= i < |waiting| && KeyOf(waiting[i]) == KeyOf(row);
      assert waiting[i] in waiting;
      SameHeld(run, slot, waiting[i], row);
    }
  }

  /** From an empty archive: when a tape day is deleted with nothing held left to write, every row on
      disk of every contract recorded as held that day is aside, unchanged; unless that held row had
      itself gone at an earlier deletion of the day. */
  lemma RecordedHeldIsAside(w: Windows, run: seq<Step>, i: nat, j: nat, day: int, k: Key)
    requires j < i < |run| && run[j].Add? && run[j].slot == Slot(Quotes, day) && run[j].row.held
    requires Slot(Quotes, day) !in After(w, NOTHING, run[..i + 1]).disk
    requires k in FileAt(After(w, NOTHING, run[..i]).disk, Slot(Quotes, day))
    requires FileAt(After(w, NOTHING, run[..i]).disk, Slot(Quotes, day))[k].code == run[j].row.code
    requires NothingHeldWaiting(After(w, NOTHING, run[..i]), day) && HeldAgrees(run[..i], Slot(Quotes, day))
    ensures var aside := FileAt(After(w, NOTHING, run[..i + 1]).disk, Slot(QuotesHeld, day));
      || (k in aside && aside[k] == FileAt(After(w, NOTHING, run[..i]).disk, Slot(Quotes, day))[k])
      || exists d :: j < d < i && DeletedAt(w, NOTHING, run, d, Slot(Quotes, day), KeyOf(run[j].row))
  {
    hide After, NothingHeldWaiting, HeldThatDay, HeldAgrees, Kept, DeletedAt, AllRecorded;
    var slot, row, before := Slot(Quotes, day), run[j].row, After(w, NOTHING, run[..i]);
    RowsAreRecorded(w, run[..i], slot);
    assert Recorded(run[..i], slot, row) by { assert run[..i][j] == run[j]; }
    AddKept(w, NOTHING, run[..i], j);
    if Kept(before, slot, KeyOf(row)) {
      assert before.flying.None? by { AfterStep(w, NOTHING, run, i); }
      KeptMakesHeld(before, run[..i], day, row);
      DeletionKeepsHeldIff(w, NOTHING, run, i, day);
      NothingWaitingIsSafe(before, day);
    } else {
      var d :| j < d < i && DeletedAt(w, NOTHING, run[..i], d, slot, KeyOf(row));
      DeletedInPrefix(w, NOTHING, run, i, d, slot, KeyOf(row));
    }
  }

  lemma AddKept(w: Windows, s: State, run: seq<Step>, j: nat)
    requires j < |run| && run[j].Add?
    ensures Kept(After(w, s, run), run[j].slot, KeyOf(run[j].row))
      || exists i :: j < i < |run| && DeletedAt(w, s, run, i, run[j].slot, KeyOf(run[j].row))
  {
    NothingLost(w, s, run, j);
  }

  lemma DeletedInPrefix(w: Windows, s: State, run: seq<Step>, n: nat, d: nat, slot: Slot, k: Key)
    requires d < n <= |run| && DeletedAt(w, s, run[..n], d, slot, k)
    ensures DeletedAt(w, s, run, d, slot, k)
  {
    hide After, Outdated;
    assert run[..n][..d] == run[..d] && run[..n][..d + 1] == run[..d + 1];
  }

  /** The held stream is written by pruning only. */
  predicate NeverAddsAside(run: seq<Step>) {
    forall i :: 0 <= i < |run| && run[i].Add? ==> !run[i].slot.kind.QuotesHeld?
  }

  /** Every row aside was recorded for the tape's day, and is filed under its key. */
  predicate AsideRecorded(s: State, run: seq<Step>, day: int) {
    var held, file := Slot(QuotesHeld, day), FileAt(s.disk, Slot(QuotesHeld, day));
    && held !in s.buffer && (s.flying.Some? ==> s.flying.value.0 != held)
    && forall k :: k in file ==> Recorded(run, Slot(Quotes, day), file[k]) && KeyOf(file[k]) == k
  }

  lemma {:induction false} AsideIsRecorded(w: Windows, run: seq<Step>, day: int)
    requires NeverAddsAside(run)
    ensures AsideRecorded(After(w, NOTHING, run), run, day)
  {
    if run == [] {
      return;
    }
    hide Next, AsideRecorded, AllRecorded;
    var n := |run| - 1;
    AsideIsRecorded(w, run[..n], day);
    RowsAreRecorded(w, run[..n], Slot(Quotes, day));
    assert run == run[..n] + [run[n]];
    StepKeepsAside(w, After(w, NOTHING, run[..n]), run[..n], run[n], day);
  }

  lemma StepKeepsAside(w: Windows, s: State, run: seq<Step>, e: Step, day: int)
    requires AsideRecorded(s, run, day) && AllRecorded(s, run, Slot(Quotes, day))
    requires e.Add? ==> !e.slot.kind.QuotesHeld?
    ensures AsideRecorded(Next(w, s, e), run + [e], day)
  {
    hide Outdated, Write, Keyed, HeldRows, Recorded;
    var tape, held := Slot(Quotes, day), Slot(QuotesHeld, day);
    var before, after := FileAt(s.disk, held), FileAt(Next(w, s, e).disk, held);
    var prunes := e.Prune? && Enabled(w, s, e) && e.slot == tape;
    if prunes {
      AsideGains(w, s, e, day);
    } else {
      assert after == before || after == map[];
    }
    forall k | k in after ensures Recorded(run + [e], tape, after[k]) && KeyOf(after[k]) == k {
      if prunes {
        AsideFrom(s, run, day, k);
      }
      RecordedLater(run, e, tape, after[k]);
    }
  }

  lemma RecordedLater(run: seq<Step>, e: Step, slot: Slot, r: Row)
    requires Recorded(run, slot, r)
    ensures Recorded(run + [e], slot, r)
  {
  }

  lemma HeldRowsAreRows(file: File)
    ensures forall k :: k in HeldRows(file) ==> k in file && HeldRows(file)[k] == file[k]
  {
  }

  lemma AsideGains(w: Windows, s: State, e: Step, day: int)
    requires e.Prune? && Enabled(w, s, e) && e.slot == Slot(Quotes, day)
    ensures var held := Slot(QuotesHeld, day); var after := FileAt(Next(w, s, e).disk, held);
      after == FileAt(s.disk, held) || after == FileAt(s.disk, held) + HeldRows(s.disk[e.slot])
  {
    hide Outdated, HeldRows;
  }

  /** The slot's one and only deletion. */
  predicate OnlyDeletion(w: Windows, run: seq<Step>, i: nat, slot: Slot)
    requires i < |run|
  {
    && slot in After(w, NOTHING, run[..i]).disk && slot !in After(w, NOTHING, run[..i + 1]).disk
    && forall d :: 0 <= d < i && slot in After(w, NOTHING, run[..d]).disk ==>
         slot in After(w, NOTHING, run[..d + 1]).disk
  }

  /** Every row of a code, and nothing else of it, is in the file under its key. */
  ghost predicate HoldsAll(file: File, run: seq<Step>, slot: Slot, code: string) {
    && (forall r :: Recorded(run, slot, r) && r.code == code ==> KeyOf(r) in file && file[KeyOf(r)] == r)
    && (forall k :: k in file && k.0 == code ==> Recorded(run, slot, file[k]) && KeyOf(file[k]) == k)
  }

  /** Rows recorded for a slot are one to a key. */
  ghost predicate KeysOnce(run: seq<Step>, slot: Slot) {
    forall a, b :: Recorded(run, slot, a) && Recorded(run, slot, b) && KeyOf(a) == KeyOf(b) ==> a == b
  }

  lemma RecordedIsStored(w: Windows, run: seq<Step>, i: nat, slot: Slot, r: Row)
    requires i < |run| && !slot.kind.QuotesHeld? && OnlyDeletion(w, run, i, slot)
    requires KeysOnce(run[..i], slot) && Recorded(run[..i], slot, r)
    requires forall y :: y in Buffered(After(w, NOTHING, run[..i]), slot) ==> y.code != r.code
    ensures var file := FileAt(After(w, NOTHING, run[..i]).disk, slot); KeyOf(r) in file && file[KeyOf(r)] == r
  {
    hide After, Next, Outdated, HeldRows, Write, Keyed;
    var before := After(w, NOTHING, run[..i]);
    RowsAreRecorded(w, run[..i], slot);
    var j :| 0 <= j < i && run[..i][j] == Add(slot, r);
    NothingLost(w, NOTHING, run[..i], j);
    forall d | j < d < i ensures !DeletedAt(w, NOTHING, run[..i], d, slot, KeyOf(r)) {
      if DeletedAt(w, NOTHING, run[..i], d, slot, KeyOf(r)) {
        DeletedInPrefix(w, NOTHING, run, i, d, slot, KeyOf(r));
      }
    }
    assert before.flying.None? by { AfterStep(w, NOTHING, run, i); DeletionIsPrune(w, before, run[i], slot); }
    assert HasKey(Buffered(before, slot), KeyOf(r)) ==> exists y :: y in Buffered(before, slot) && y.code == r.code;
  }

  lemma DeletionIsPrune(w: Windows, s: State, e: Step, slot: Slot)
    requires slot in s.disk && slot !in Next(w, s, e).disk
    ensures s.flying.None? && e.Prune?
  {
    hide Outdated, HeldRows, Write, Keyed;
  }

  /** Once a tape day is deleted, for good, with none of a contract's rows still to write, a contract
      recorded held that day has exactly the rows recorded of it in the held stream. */
  lemma HeldDayIsAside(w: Windows, run: seq<Step>, i: nat, day: int, code: string)
    requires i < |run| && NeverAddsAside(run) && OnlyDeletion(w, run, i, Slot(Quotes, day))
    requires KeysOnce(run[..i], Slot(Quotes, day))
    requires exists r :: Recorded(run[..i], Slot(Quotes, day), r) && r.code == code && r.held
    requires forall y :: y in Buffered(After(w, NOTHING, run[..i]), Slot(Quotes, day)) ==> y.code != code
    ensures var aside := FileAt(After(w, NOTHING, run[..i + 1]).disk, Slot(QuotesHeld, day));
      HoldsAll(aside, run[..i], Slot(Quotes, day), code)
  {
    hide After, Next, Outdated, HeldRows, Recorded, AllRecorded, AsideRecorded, KeysOnce, Buffered;
    var slot, before := Slot(Quotes, day), After(w, NOTHING, run[..i]);
    var file, aside := FileAt(before.disk, slot), FileAt(After(w, NOTHING, run[..i + 1]).disk, Slot(QuotesHeld, day));
    AfterStep(w, NOTHING, run, i);
    DeletedOnceAside(w, before, run[i], day);
    var h :| Recorded(run[..i], slot, h) && h.code == code && h.held;
    RecordedIsStored(w, run, i, slot, h);
    forall r | Recorded(run[..i], slot, r) && r.code == code ensures KeyOf(r) in aside && aside[KeyOf(r)] == r {
      RecordedIsStored(w, run, i, slot, r);
      HeldRowsIff(file, KeyOf(r));
    }
    AsideIsRecorded(w, run[..i], day);
    RowsAreRecorded(w, run[..i], slot);
    forall k | k in aside && k.0 == code ensures Recorded(run[..i], slot, aside[k]) && KeyOf(aside[k]) == k {
      AsideFrom(before, run[..i], day, k);
    }
  }

  lemma AsideFrom(s: State, run: seq<Step>, day: int, k: Key)
    requires AllRecorded(s, run, Slot(Quotes, day)) && AsideRecorded(s, run, day) && Slot(Quotes, day) in s.disk
    ensures var rows := FileAt(s.disk, Slot(QuotesHeld, day)) + HeldRows(s.disk[Slot(Quotes, day)]);
      k in rows ==> Recorded(run, Slot(Quotes, day), rows[k]) && KeyOf(rows[k]) == k
  {
    hide HeldRows, Recorded;
    HeldRowsAreRows(s.disk[Slot(Quotes, day)]);
    assert FileAt(s.disk, Slot(Quotes, day)) == s.disk[Slot(Quotes, day)];
  }

  // ---- a flush that loses a held contract's day -----------------------------------------------

  lemma AfterCons(w: Windows, s: State, run: seq<Step>, next: State)
    requires run != [] && Next(w, s, run[0]) == next
    ensures After(w, s, run) == After(w, next, run[1..])
  {
    hide Next;
    assert run == [run[0]] + run[1..] && [run[0]][..0] == [];
    AfterConcat(w, s, [run[0]], run[1..]);
  }

  lemma AfterFive(w: Windows, s: State, run: seq<Step>, s1: State, s2: State, s3: State, s4: State, s5: State)
    requires |run| == 5 && Next(w, s, run[0]) == s1 && Next(w, s1, run[1]) == s2 && Next(w, s2, run[2]) == s3
    requires Next(w, s3, run[3]) == s4 && Next(w, s4, run[4]) == s5
    ensures After(w, s, run) == s5
  {
    hide Next;
    AfterCons(w, s, run, s1);
    AfterCons(w, s1, run[1..], s2);
    AfterCons(w, s2, run[1..][1..], s3);
    AfterCons(w, s3, run[1..][1..][1..], s4);
    AfterCons(w, s4, run[1..][1..][1..][1..], s5);
  }

  const FIRST := Slot(Quotes, 1)
  const SECOND := Slot(Quotes, 2)
  const EARLY := Row("C", 1.0, false, [])
  const BOUGHT := Row("C", 2.0, true, [])
  const OTHER := Row("D", 3.0, false, [])

  /** A row is recorded and flushed; then the contract is bought, and a second day begins. */
  lemma TwoDays(w: Windows)
    ensures After(w, NOTHING, [Add(FIRST, EARLY), Pop(FIRST), Commit, Add(FIRST, BOUGHT), Add(SECOND, OTHER)])
      == State(map[FIRST := [BOUGHT], SECOND := [OTHER]], None, map[FIRST := map[KeyOf(EARLY) := EARLY]])
  {
    var s1 := State(map[FIRST := [EARLY]], None, map[]);
    var s2 := State(map[], Some((FIRST, [EARLY])), map[]);
    var s3 := State(map[], None, map[FIRST := map[KeyOf(EARLY) := EARLY]]);
    var s4 := State(map[FIRST := [BOUGHT]], None, s3.disk);
    assert [] + [EARLY] == [EARLY] && [] + [BOUGHT] == [BOUGHT] && [] + [OTHER] == [OTHER];
    assert Next(w, NOTHING, Add(FIRST, EARLY)) == s1;
    assert Next(w, s1, Pop(FIRST)) == s2;
    assert Next(w, s2, Commit) == s3 by { OneWritten(EARLY); }
    assert Next(w, s3, Add(FIRST, BOUGHT)) == s4;
    var s5 := State(map[FIRST := [BOUGHT], SECOND := [OTHER]], None, s3.disk);
    assert Next(w, s4, Add(SECOND, OTHER)) == s5;
    AfterFive(w, NOTHING, [Add(FIRST, EARLY), Pop(FIRST), Commit, Add(FIRST, BOUGHT), Add(SECOND, OTHER)],
              s1, s2, s3, s4, s5);
  }

  lemma OneWritten(r: Row)
    ensures Write(map[], Keyed([r])) == map[KeyOf(r) := r]
  {
    assert Keyed([r])[..0] == [];
  }

  /** One flush, in a window of one day, in which the first day's write fails and the second's goes
      through: the first day is deleted though its held row still waits. */
  lemma FailedFlush(w: Windows)
    requires w.tape == 1
    ensures var s := State(map[FIRST := [BOUGHT], SECOND := [OTHER]], None, map[FIRST := map[KeyOf(EARLY) := EARLY]]);
      After(w, s, [Pop(FIRST), Fail, Pop(SECOND), Commit, Prune(FIRST, Readable, true)])
      == State(map[FIRST := [BOUGHT]], None, map[SECOND := map[KeyOf(OTHER) := OTHER]])
  {
    var file := map[KeyOf(EARLY) := EARLY];
    var s := State(map[FIRST := [BOUGHT], SECOND := [OTHER]], None, map[FIRST := file]);
    var s1 := State(map[SECOND := [OTHER]], Some((FIRST, [BOUGHT])), s.disk);
    var s2 := State(map[FIRST := [BOUGHT], SECOND := [OTHER]], None, s.disk);
    var s3 := State(map[FIRST := [BOUGHT]], Some((SECOND, [OTHER])), s.disk);
    var s4 := State(map[FIRST := [BOUGHT]], None, map[FIRST := file, SECOND := map[KeyOf(OTHER) := OTHER]]);
    assert [] + [BOUGHT] == [BOUGHT];
    assert Next(w, s, Pop(FIRST)) == s1 && Next(w, s1, Fail) == s2 && Next(w, s2, Pop(SECOND)) == s3;
    assert Next(w, s3, Commit) == s4 by { OneWritten(OTHER); }
    PrunesUnaside(w, s4, file);
    AfterFive(w, s, [Pop(FIRST), Fail, Pop(SECOND), Commit, Prune(FIRST, Readable, true)], s1, s2, s3, s4,
              s4.(disk := map[SECOND := map[KeyOf(OTHER) := OTHER]]));
  }

  lemma PrunesUnaside(w: Windows, s: State, file: File)
    requires w.tape == 1 && s.flying.None? && file == map[KeyOf(EARLY) := EARLY]
    requires s.disk == map[FIRST := file, SECOND := map[KeyOf(OTHER) := OTHER]]
    ensures Next(w, s, Prune(FIRST, Readable, true)) == s.(disk := map[SECOND := map[KeyOf(OTHER) := OTHER]])
  {
    assert 2 in Newer(DaysOf(s.disk, Quotes), 1) by { assert SECOND in s.disk; }
    assert Outdated(w, s.disk, FIRST) by { SubsetSize({2}, Newer(DaysOf(s.disk, Quotes), 1)); }
    assert HeldRows(file) == map[];
    assert s.disk - {FIRST} == map[SECOND := map[KeyOf(OTHER) := OTHER]];
  }

  /** From an empty archive, a held contract's day is lost: after one failed write its first row is
      neither on disk nor aside nor waiting, while the row that says it was held still waits. */
  lemma WaitingHeldRowLosesItsDay(w: Windows)
    requires w.tape == 1
    ensures var run := [Add(FIRST, EARLY), Pop(FIRST), Commit, Add(FIRST, BOUGHT), Add(SECOND, OTHER)]
        + [Pop(FIRST), Fail, Pop(SECOND), Commit, Prune(FIRST, Readable, true)];
      After(w, NOTHING, run) == State(map[FIRST := [BOUGHT]], None, map[SECOND := map[KeyOf(OTHER) := OTHER]])
  {
    hide After;
    TwoDays(w);
    FailedFlush(w);
    AfterConcat(w, NOTHING, [Add(FIRST, EARLY), Pop(FIRST), Commit, Add(FIRST, BOUGHT), Add(SECOND, OTHER)],
                [Pop(FIRST), Fail, Pop(SECOND), Commit, Prune(FIRST, Readable, true)]);
  }
}
