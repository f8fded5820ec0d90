/** The tick tape: which contracts are watched, for how long, which rows a second writes, and the
    reader that forward-fills them. Prices and times are reals; a row's key is the whole second. */
module Tape {
  import opened Wrappers
  import opened DayFile
  import opened Sorting

  const AFTER_CLOSE := 300.0
  const MAX_WATCHED := 200

  type Code = string
  type Symbol = string

  datatype Role = OptionLeg | EquityLeg | FutureLeg | IndexLeg

  /** A wall-clock limit, `Forever` standing for the infinite one. */
  datatype Deadline = At(t: real) | Forever

  datatype Watch = Watch(symbol: Symbol, role: Role, until: Deadline, heldUntil: Deadline)

  datatype Quote = Quote(ltp: real, bid: real, ask: real, ts: real)

  datatype Holding = Holding(code: Code, symbol: Symbol, role: Role)

  datatype Leg = Leg(code: Code, role: Role)

  /** What a second looks at: a watched contract, or a leg of a watched symbol. */
  datatype Target = Target(code: Code, symbol: Symbol, role: Role)

  datatype Key = Key(quote: Quote, held: bool)

  datatype Row = Row(code: Code, ts: int, symbol: Symbol, role: Role, quote: Quote, held: bool)

  datatype State = State(watch: map<Code, Watch>, last: map<Code, Key>, rows: seq<Row>, dropped: nat, capped: bool)

  datatype Event =
    | Follow(symbol: Symbol, codes: seq<Code>, role: Role, ttl: real, at: real)
    | Sample(now: real, quotes: map<Code, Quote>, held: seq<Holding>, targets: seq<Target>)

  const EMPTY := State(map[], map[], [], 0, false)

  /** Python's `int` of a float: truncation toward zero. */
  function Trunc(x: real): int { if x >= 0.0 then x.Floor else -((-x).Floor) }

  // ---- following ------------------------------------------------------------------------------

  function FollowOne(s: State, code: Code, symbol: Symbol, role: Role, until: real): State {
    if code in s.watch then
      var w := s.watch[code];
      if w.until.At? && w.until.t < until then s.(watch := s.watch[code := w.(until := At(until))]) else s
    else if |s.watch| >= MAX_WATCHED then s.(dropped := s.dropped + 1, capped := true)
    else s.(watch := s.watch[code := Watch(symbol, role, At(until), At(0.0))])
  }

  function FollowAll(s: State, codes: seq<Code>, symbol: Symbol, role: Role, until: real): State {
    if codes == [] then s
    else FollowOne(FollowAll(s, codes[..|codes| - 1], symbol, role, until), codes[|codes| - 1], symbol, role, until)
  }

  // ---- sampling -------------------------------------------------------------------------------

  function PinOne(watch: map<Code, Watch>, h: Holding): map<Code, Watch> {
    watch[h.code := if h.code in watch then watch[h.code].(until := Forever, role := h.role, heldUntil := Forever)
                    else Watch(h.symbol, h.role, Forever, Forever)]
  }

  function Pin(watch: map<Code, Watch>, held: seq<Holding>): map<Code, Watch> {
    if held == [] then watch else PinOne(Pin(watch, held[..|held| - 1]), held[|held| - 1])
  }

  function OpenCodes(held: seq<Holding>): set<Code> { set h | h in held :: h.code }

  function OpenSymbols(held: seq<Holding>): set<Symbol> { set h | h in held :: h.symbol }

  /** The grace, given once, to a contract that was held and is not any more. */
  function Aged(w: Watch, isOpen: bool, now: real): Watch {
    if !isOpen && w.heldUntil.Forever? then
      var floor := if w.until.At? then w.until.t else 0.0;
      w.(until := At(Max(floor, now + AFTER_CLOSE)), heldUntil := At(now + AFTER_CLOSE))
    else w
  }

  predicate Lapsed(w: Watch, now: real) { w.until.At? && w.until.t < now }

  predicate IsHeld(w: Watch, now: real) { w.heldUntil.Forever? || now <= w.heldUntil.t }

  function Swept(watch: map<Code, Watch>, open: set<Code>, now: real): map<Code, Watch> {
    map c | c in watch && !Lapsed(Aged(watch[c], c in open, now), now) :: Aged(watch[c], c in open, now)
  }

  /** The watches a sample leaves behind. */
  function WatchAfter(watch: map<Code, Watch>, held: seq<Holding>, now: real): map<Code, Watch> {
    Swept(Pin(watch, held), OpenCodes(held), now)
  }

  function HeldSymbols(watch: map<Code, Watch>, held: seq<Holding>, now: real): set<Symbol> {
    OpenSymbols(held) + set c | c in watch && IsHeld(watch[c], now) :: watch[c].symbol
  }

  predicate Usable(q: Quote) { q.ltp > 0.0 || q.bid > 0.0 || q.ask > 0.0 }

  /** What this second sees of a target, before asking whether it changed. */
  function Sight(t: Target, quotes: map<Code, Quote>, heldSymbols: set<Symbol>, ts: int): Option<Row> {
    if t.code in quotes && Usable(quotes[t.code]) then
      Some(Row(t.code, ts, t.symbol, t.role, quotes[t.code], t.symbol in heldSymbols))
    else None
  }

  function Sights(targets: seq<Target>, quotes: map<Code, Quote>, heldSymbols: set<Symbol>, ts: int): seq<Row> {
    if targets == [] then []
    else
      var n := |targets| - 1;
      var before := Sights(targets[..n], quotes, heldSymbols, ts);
      match Sight(targets[n], quotes, heldSymbols, ts)
      case None => before
      case Some(r) => before + [r]
  }

  /** Writes a sight only when its key differs from the last one written for the code. */
  function Record(last: map<Code, Key>, rows: seq<Row>, r: Row): (map<Code, Key>, seq<Row>) {
    if r.code in last && last[r.code] == Key(r.quote, r.held) then (last, rows)
    else (last[r.code := Key(r.quote, r.held)], rows + [r])
  }

  function RecordAll(last: map<Code, Key>, rows: seq<Row>, sights: seq<Row>): (map<Code, Key>, seq<Row>) {
    if sights == [] then (last, rows)
    else
      var (l, rs) := RecordAll(last, rows, sights[..|sights| - 1]);
      Record(l, rs, sights[|sights| - 1])
  }

  function SampleSights(s: State, e: Event): seq<Row>
    requires e.Sample?
  {
    var watch := WatchAfter(s.watch, e.held, e.now);
    Sights(e.targets, e.quotes, HeldSymbols(watch, e.held, e.now), Trunc(e.now))
  }

  /** The keys still remembered once lapsed watches are forgotten. */
  function Remembered(s: State, held: seq<Holding>, now: real): map<Code, Key> {
    s.last - (Pin(s.watch, held).Keys - WatchAfter(s.watch, held, now).Keys)
  }

  function Step(s: State, e: Event): State {
    match e
    case Follow(symbol, codes, role, ttl, at) => FollowAll(s, codes, symbol, role, at + ttl)
    case Sample(now, quotes, held, targets) =>
      var (last, rows) := RecordAll(Remembered(s, held, now), s.rows, SampleSights(s, e));
      s.(watch := WatchAfter(s.watch, held, now), last := last, rows := rows)
  }

  function After(es: seq<Event>): State {
    if es == [] then EMPTY else Step(After(es[..|es| - 1]), es[|es| - 1])
  }

  /** The targets a sample resolves: every watched contract under its own symbol, then the legs of
      every watched symbol, each code once, symbols in no particular order. */
  predicate Resolved(watch: map<Code, Watch>, legs: map<Symbol, seq<Leg>>, targets: seq<Target>) {
    && (forall i, j :: 0 <= i < j < |targets| ==> targets[i].code != targets[j].code)
    && (forall c :: c in watch ==> Target(c, watch[c].symbol, watch[c].role) in targets)
    && (forall t :: t in targets ==> t.code in watch || LegOf(watch, legs, t))
    && (forall c, l :: c in watch && watch[c].symbol in legs && l in legs[watch[c].symbol] ==>
          exists t :: t in targets && t.code == l.code)
  }

  predicate LegOf(watch: map<Code, Watch>, legs: map<Symbol, seq<Leg>>, t: Target) {
    && t.symbol in legs && Leg(t.code, t.role) in legs[t.symbol]
    && exists c :: c in watch && watch[c].symbol == t.symbol
  }

  // ---- the clock ------------------------------------------------------------------------------

  function LastSample(es: seq<Event>): Option<real> {
    if es == [] then None
    else if es[|es| - 1].Sample? then Some(es[|es| - 1].now)
    else LastSample(es[..|es| - 1])
  }

  predicate Clocked(es: seq<Event>) {
    if es == [] then true
    else
      var n := |es| - 1;
      Clocked(es[..n])
      && (es[n].Sample? && LastSample(es[..n]).Some? ==> LastSample(es[..n]).value <= es[n].now)
  }

  // ---- the round trip -------------------------------------------------------------------------

  /** The tape with nothing left out: every usable quote every sample saw. */
  function Full(es: seq<Event>): seq<Row> {
    if es == [] then []
    else
      var n := |es| - 1;
      if es[n].Sample? then Full(es[..n]) + SampleSights(After(es[..n]), es[n]) else Full(es[..n])
  }

  function LastAt(rows: seq<Row>, code: Code, s: int): Option<Row> {
    if rows == [] then None
    else
      var r := rows[|rows| - 1];
      if r.code == code && r.ts <= s then Some(r) else LastAt(rows[..|rows| - 1], code, s)
  }

  function QuoteOf(r: Option<Row>): Option<Quote> {
    match r case None => None case Some(row) => Some(row.quote)
  }

  /** What a reader sees at a second: the quote, and whether the contract was held. */
  function KeyAt(rows: seq<Row>, code: Code, s: int): Option<Key> {
    match LastAt(rows, code, s) case None => None case Some(row) => Some(Key(row.quote, row.held))
  }

  ghost predicate SameReading(rows: seq<Row>, full: seq<Row>) {
    forall code, s :: KeyAt(rows, code, s) == KeyAt(full, code, s)
  }

  predicate UpTo(rows: seq<Row>, ts: int) { forall i :: 0 <= i < |rows| ==> rows[i].ts <= ts }

  predicate Ordered(rows: seq<Row>) { forall i, j :: 0 <= i < j < |rows| ==> rows[i].ts <= rows[j].ts }

  /** What is remembered for a code is the quote and flag it was last seen with. */
  predicate RemembersLast(last: map<Code, Key>, full: seq<Row>, ts: int) {
    forall code :: code in last ==> KeyAt(full, code, ts) == Some(last[code])
  }

  lemma LastAtAppend(rows: seq<Row>, r: Row, code: Code, s: int)
    ensures LastAt(rows + [r], code, s) == if r.code == code && r.ts <= s then Some(r) else LastAt(rows, code, s)
  {
    assert (rows + [r])[..|rows|] == rows;
  }

  /** Past every row, reading later changes nothing. */
  lemma {:induction false} LastAtSettled(rows: seq<Row>, code: Code, ts: int, s: int)
    requires UpTo(rows, ts) && ts <= s
    ensures LastAt(rows, code, s) == LastAt(rows, code, ts)
  {
    if rows != [] {
      LastAtSettled(rows[..|rows| - 1], code, ts, s);
    }
  }

  lemma RecordKeepsReading(last: map<Code, Key>, rows: seq<Row>, full: seq<Row>, r: Row)
    requires SameReading(rows, full) && UpTo(full, r.ts) && RemembersLast(last, full, r.ts)
    ensures SameReading(Record(last, rows, r).1, full + [r])
    ensures RemembersLast(Record(last, rows, r).0, full + [r], r.ts)
  {
    hide KeyAt;
    var (last1, rows1) := Record(last, rows, r);
    forall code, s ensures KeyAt(rows1, code, s) == KeyAt(full + [r], code, s) {
      KeyAtAppend(full, r, code, s);
      KeyAtAppend(rows, r, code, s);
      if r.ts <= s {
        KeyAtSettled(full, code, r.ts, s);
      }
    }
    forall code | code in last1 ensures KeyAt(full + [r], code, r.ts) == Some(last1[code]) {
      KeyAtAppend(full, r, code, r.ts);
    }
  }

  lemma KeyAtAppend(rows: seq<Row>, r: Row, code: Code, s: int)
    ensures KeyAt(rows + [r], code, s) ==
      if r.code == code && r.ts <= s then Some(Key(r.quote, r.held)) else KeyAt(rows, code, s)
  {
    hide LastAt;
    LastAtAppend(rows, r, code, s);
  }

  lemma KeyAtSettled(rows: seq<Row>, code: Code, ts: int, s: int)
    requires UpTo(rows, ts) && ts <= s
    ensures KeyAt(rows, code, s) == KeyAt(rows, code, ts)
  {
    hide LastAt, UpTo;
    LastAtSettled(rows, code, ts, s);
  }

  lemma {:induction false} RecordAllKeepsReading(last: map<Code, Key>, rows: seq<Row>, full: seq<Row>,
                                                 sights: seq<Row>, ts: int)
    requires SameReading(rows, full) && UpTo(full, ts) && RemembersLast(last, full, ts)
    requires forall i :: 0 <= i < |sights| ==> sights[i].ts == ts
    ensures SameReading(RecordAll(last, rows, sights).1, full + sights)
    ensures RemembersLast(RecordAll(last, rows, sights).0, full + sights, ts)
    ensures UpTo(full + sights, ts)
  {
    if sights == [] {
      assert full + sights == full;
    } else {
      var n := |sights| - 1;
      RecordAllKeepsReading(last, rows, full, sights[..n], ts);
      var (l, rs) := RecordAll(last, rows, sights[..n]);
      RecordKeepsReading(l, rs, full + sights[..n], sights[n]);
      assert full + sights == full + sights[..n] + [sights[n]];
    }
  }

  lemma {:induction false} SightsAtSecond(targets: seq<Target>, quotes: map<Code, Quote>, held: set<Symbol>, ts: int)
    ensures forall i :: 0 <= i < |Sights(targets, quotes, held, ts)| ==> Sights(targets, quotes, held, ts)[i].ts == ts
  {
    if targets != [] {
      SightsAtSecond(targets[..|targets| - 1], quotes, held, ts);
    }
  }

  lemma TruncMonotone(x: real, y: real)
    requires x <= y
    ensures Trunc(x) <= Trunc(y)
  {
  }

  lemma LaterStillRemembers(last: map<Code, Key>, full: seq<Row>, ts: int, later: int, kept: map<Code, Key>)
    requires RemembersLast(last, full, ts) && UpTo(full, ts) && ts <= later
    requires kept.Keys <= last.Keys && forall c :: c in kept ==> kept[c] == last[c]
    ensures RemembersLast(kept, full, later) && UpTo(full, later)
  {
    forall code | code in kept ensures KeyAt(full, code, later) == Some(kept[code]) {
      LastAtSettled(full, code, ts, later);
    }
  }

  ghost predicate Compressed(s: State, full: seq<Row>, clock: Option<real>) {
    && SameReading(s.rows, full)
    && (clock.None? ==> full == [] && s.last == map[])
    && (clock.Some? ==> UpTo(full, Trunc(clock.value)) && RemembersLast(s.last, full, Trunc(clock.value)))
  }

  lemma {:induction false} FollowKeepsRows(s: State, codes: seq<Code>, symbol: Symbol, role: Role, until: real)
    ensures FollowAll(s, codes, symbol, role, until).rows == s.rows
    ensures FollowAll(s, codes, symbol, role, until).last == s.last
  {
    if codes != [] {
      FollowKeepsRows(s, codes[..|codes| - 1], symbol, role, until);
    }
  }

  lemma SampleKeepsCompressed(s: State, full: seq<Row>, clock: Option<real>, e: Event)
    requires e.Sample? && Compressed(s, full, clock) && (clock.Some? ==> clock.value <= e.now)
    ensures Compressed(Step(s, e), full + SampleSights(s, e), Some(e.now))
  {
    var ts, sights := Trunc(e.now), SampleSights(s, e);
    var kept := Remembered(s, e.held, e.now);
    assert clock.None? ==> RemembersLast(kept, full, ts);
    hide Trunc, RecordAll, Sights, WatchAfter, Pin, LastAt, HeldSymbols, RemembersLast, SameReading;
    if clock.Some? {
      TruncMonotone(clock.value, e.now);
      LaterStillRemembers(s.last, full, Trunc(clock.value), ts, kept);
    }
    SightsAtSecond(e.targets, e.quotes, HeldSymbols(WatchAfter(s.watch, e.held, e.now), e.held, e.now), ts);
    RecordAllKeepsReading(kept, s.rows, full, sights, ts);
  }

  lemma {:induction false} RunCompresses(es: seq<Event>)
    requires Clocked(es)
    ensures Compressed(After(es), Full(es), LastSample(es))
  {
    hide Trunc, LastAt, RemembersLast, FollowAll, RecordAll;
    if es == [] {
      assert SameReading([], []);
    } else {
      var n := |es| - 1;
      RunCompresses(es[..n]);
      var s := After(es[..n]);
      match es[n]
      case Follow(symbol, codes, role, ttl, at) => FollowKeepsRows(s, codes, symbol, role, at + ttl);
      case Sample(_, _, _, _) => SampleKeepsCompressed(s, Full(es[..n]), LastSample(es[..n]), es[n]);
    }
  }

  // ---- reading it back ------------------------------------------------------------------------

  type DayTape = map<(Code, int), Row>

  function Keyed(rows: seq<Row>): seq<((Code, int), Row)> {
    if rows == [] then []
    else Keyed(rows[..|rows| - 1]) + [((rows[|rows| - 1].code, rows[|rows| - 1].ts), rows[|rows| - 1])]
  }

  predicate KeysMatch(tape: DayTape) { forall k :: k in tape ==> k == (tape[k].code, tape[k].ts) }

  /** One code's rows of the day, in ascending seconds. */
  predicate SeriesOf(ticks: seq<Row>, tape: DayTape, code: Code) {
    && (forall i, j :: 0 <= i < j < |ticks| ==> ticks[i].ts < ticks[j].ts)
    && (forall r :: r in ticks ==> r.code == code && (code, r.ts) in tape && tape[(code, r.ts)] == r)
    && (forall k :: k in tape && k.0 == code ==> tape[k] in ticks)
  }

  /** Python's `bisect_right`: how many leading rows are at or before second `x`. */
  function BisectRight(ticks: seq<Row>, x: int, lo: nat, hi: nat): (i: nat)
    requires lo <= hi <= |ticks|
    requires forall k, l :: 0 <= k < l < |ticks| ==> ticks[k].ts <= ticks[l].ts
    requires forall k :: 0 <= k < lo ==> ticks[k].ts <= x
    requires forall k :: hi <= k < |ticks| ==> x < ticks[k].ts
    ensures lo <= i <= hi
    ensures forall k :: 0 <= k < i ==> ticks[k].ts <= x
    ensures forall k :: i <= k < |ticks| ==> x < ticks[k].ts
    decreases hi - lo
  {
    if lo == hi then lo
    else
      var mid := (lo + hi) / 2;
      if x < ticks[mid].ts then BisectRight(ticks, x, lo, mid) else BisectRight(ticks, x, mid + 1, hi)
  }

  function SeriesAt(ticks: seq<Row>, at: real): Option<Row>
    requires forall k, l :: 0 <= k < l < |ticks| ==> ticks[k].ts <= ticks[l].ts
  {
    var i := BisectRight(ticks, Trunc(at), 0, |ticks|);
    if i > 0 then Some(ticks[i - 1]) else None
  }

  /** The latest row of a code at or before a second, said on the file alone. */
  predicate LatestIn(tape: DayTape, code: Code, s: int, r: Option<Row>) {
    match r
    case None => forall k :: k in tape && k.0 == code ==> s < k.1
    case Some(row) =>
      && row.ts <= s && (code, row.ts) in tape && tape[(code, row.ts)] == row
      && forall k :: k in tape && k.0 == code && k.1 <= s ==> k.1 <= row.ts
  }

  lemma SeriesAtIsLatest(ticks: seq<Row>, tape: DayTape, code: Code, at: real)
    requires SeriesOf(ticks, tape, code) && KeysMatch(tape)
    ensures LatestIn(tape, code, Trunc(at), SeriesAt(ticks, at))
  {
    hide Trunc;
    var s := Trunc(at);
    var i := BisectRight(ticks, s, 0, |ticks|);
    forall k | k in tape && k.0 == code ensures tape[k] in ticks && k.1 == tape[k].ts {
    }
    if i > 0 {
      assert ticks[i - 1] in ticks;
    }
  }

  lemma {:induction false} WrittenLatest(rows: seq<Row>, code: Code, s: int)
    requires Ordered(rows)
    ensures KeysMatch(Write(map[], Keyed(rows)))
    ensures LatestIn(Write(map[], Keyed(rows)), code, s, LastAt(rows, code, s))
    ensures forall k, i :: k in Write(map[], Keyed(rows)) && 0 <= i < |rows| && i == |rows| - 1 ==> k.1 <= rows[i].ts
  {
    if rows != [] {
      var n := |rows| - 1;
      var r := rows[n];
      WrittenLatest(rows[..n], code, s);
      var before := Write(map[], Keyed(rows[..n]));
      if n > 0 {
        assert rows[..n][n - 1] == rows[n - 1];
        assert forall k :: k in before ==> k.1 <= rows[n - 1].ts;
      }
      assert forall k :: k in before ==> k.1 <= r.ts;
      var was := LastAt(rows[..n], code, s);
      if !(r.code == code && r.ts <= s) && was.Some? {
        assert (code, was.value.ts) in before;
        LastAtOfCode(rows[..n], code, s);
      }
    }
  }

  lemma {:induction false} LastAtOfCode(rows: seq<Row>, code: Code, s: int)
    ensures LastAt(rows, code, s).Some? ==> LastAt(rows, code, s).value.code == code
  {
    if rows != [] {
      LastAtOfCode(rows[..|rows| - 1], code, s);
    }
  }

  function KeyOf(r: Row): (Code, int) { (r.code, r.ts) }

  /** Drops every row whose key comes again later. */
  function DropDuplicates(rows: seq<Row>): seq<Row> {
    if rows == [] then []
    else
      var r := rows[|rows| - 1];
      Filter((x: Row) => KeyOf(x) != KeyOf(r), DropDuplicates(rows[..|rows| - 1])) + [r]
  }

  function Earlier(): (Row, Row) -> bool { (x: Row, y: Row) => x.ts <= y.ts }

  function ReadSeries(listing: seq<Row>, code: Code): seq<Row> {
    Sort(Earlier(), Filter((x: Row) => x.code == code, DropDuplicates(listing)))
  }

  lemma {:induction false} DropDuplicatesKeeps(rows: seq<Row>, r: Row)
    ensures var tape := Write(map[], Keyed(rows));
      multiset(DropDuplicates(rows))[r] == if KeyOf(r) in tape && tape[KeyOf(r)] == r then 1 else 0
  {
    if rows != [] {
      hide Write, Keyed, Filter;
      var n := |rows| - 1;
      DropDuplicatesKeeps(rows[..n], r);
      FilterCounts((x: Row) => KeyOf(x) != KeyOf(rows[n]), DropDuplicates(rows[..n]), r);
    } else {
      assert Write(map[], Keyed(rows)) == map[];
    }
  }

  lemma {:induction false} WriteKeepsKeys(rows: seq<Row>)
    ensures KeysMatch(Write(map[], Keyed(rows)))
  {
    if rows != [] {
      var n := |rows| - 1;
      WriteKeepsKeys(rows[..n]);
    }
  }

  lemma ReadSeriesCounts(listing: seq<Row>, code: Code, r: Row)
    ensures var tape := Write(map[], Keyed(listing));
      multiset(ReadSeries(listing, code))[r]
      == if r.code == code && KeyOf(r) in tape && tape[KeyOf(r)] == r then 1 else 0
  {
    hide Write, Keyed, DropDuplicates, Sort, Filter;
    var ofCode := (x: Row) => x.code == code;
    SortPermutes(Earlier(), Filter(ofCode, DropDuplicates(listing)));
    FilterCounts(ofCode, DropDuplicates(listing), r);
    DropDuplicatesKeeps(listing, r);
  }

  lemma ReadSeriesSorted(listing: seq<Row>, code: Code)
    ensures Ordered(ReadSeries(listing, code))
  {
    hide Sort, Filter, DropDuplicates;
    var ticks := ReadSeries(listing, code);
    SortSorted(Earlier(), Filter((x: Row) => x.code == code, DropDuplicates(listing)));
    forall i, j | 0 <= i < j < |ticks| ensures ticks[i].ts <= ticks[j].ts {
      assert Earlier()(ticks[i], ticks[j]);
    }
  }

  /** The reader's series lists exactly the file's rows of the code, in ascending seconds. */
  lemma ReadSeriesIsSeries(listing: seq<Row>, code: Code)
    ensures KeysMatch(Write(map[], Keyed(listing)))
    ensures SeriesOf(ReadSeries(listing, code), Write(map[], Keyed(listing)), code)
  {
    hide Write, Keyed, ReadSeries;
    var tape, ticks := Write(map[], Keyed(listing)), ReadSeries(listing, code);
    WriteKeepsKeys(listing);
    ReadSeriesSorted(listing, code);
    forall r | r in ticks ensures r.code == code && KeyOf(r) in tape && tape[KeyOf(r)] == r {
      ReadSeriesCounts(listing, code, r);
      assert multiset(ticks)[r] > 0;
    }
    forall k | k in tape && k.0 == code ensures tape[k] in ticks {
      ReadSeriesCounts(listing, code, tape[k]);
      assert multiset(ticks)[tape[k]] == 1;
    }
    forall i, j | 0 <= i < j < |ticks| ensures ticks[i].ts < ticks[j].ts {
      assert ticks[i] in ticks && ticks[j] in ticks;
      if ticks[i].ts == ticks[j].ts {
        TwiceCounts(ticks, i, j);
        ReadSeriesCounts(listing, code, ticks[i]);
      }
    }
  }

  // ---- what the tape promises -----------------------------------------------------------------

  lemma {:induction false} RecordAllOrdered(last: map<Code, Key>, rows: seq<Row>, sights: seq<Row>, ts: int)
    requires Ordered(rows) && UpTo(rows, ts) && forall i :: 0 <= i < |sights| ==> sights[i].ts == ts
    ensures Ordered(RecordAll(last, rows, sights).1) && UpTo(RecordAll(last, rows, sights).1, ts)
  {
    if sights != [] {
      RecordAllOrdered(last, rows, sights[..|sights| - 1], ts);
    }
  }

  lemma {:induction false} RunOrdered(es: seq<Event>)
    requires Clocked(es)
    ensures Ordered(After(es).rows)
    ensures LastSample(es).None? ==> After(es).rows == []
    ensures LastSample(es).Some? ==> UpTo(After(es).rows, Trunc(LastSample(es).value))
  {
    hide Trunc, FollowAll, RecordAll, WatchAfter, Sights;
    if es != [] {
      var n := |es| - 1;
      RunOrdered(es[..n]);
      var s, e := After(es[..n]), es[n];
      match e
      case Follow(symbol, codes, role, ttl, at) => FollowKeepsRows(s, codes, symbol, role, at + ttl);
      case Sample(now, quotes, held, targets) =>
        if LastSample(es[..n]).Some? {
          TruncMonotone(LastSample(es[..n]).value, now);
        }
        SightsAtSecond(targets, quotes, HeldSymbols(WatchAfter(s.watch, held, now), held, now), Trunc(now));
        RecordAllOrdered(Remembered(s, held, now), s.rows, SampleSights(s, e), Trunc(now));
    }
  }

  /** The round trip. Though only changes are written, forward-filling any listing of the day's file
      answers with the last usable quote a sample saw at or before the second asked for. */
  lemma RoundTrip(es: seq<Event>, listing: seq<Row>, code: Code, at: real)
    requires Clocked(es)
    requires Write(map[], Keyed(listing)) == Write(map[], Keyed(After(es).rows))
    ensures SeriesOf(ReadSeries(listing, code), Write(map[], Keyed(listing)), code)
    ensures var r := SeriesAt(ReadSeries(listing, code), at);
      && QuoteOf(r) == QuoteOf(LastAt(Full(es), code, Trunc(at)))
      && (r.Some? ==> KeyAt(Full(es), code, Trunc(at)) == Some(Key(r.value.quote, r.value.held)))
  {
    hide ReadSeries, Write, Keyed, LastAt, After, Full, Clocked, Trunc;
    RunOrdered(es);
    ReadSeriesIsSeries(listing, code);
    SeriesAtIsLatest(ReadSeries(listing, code), Write(map[], Keyed(listing)), code, at);
    WrittenLatest(After(es).rows, code, Trunc(at));
    CompressedReads(es, code, Trunc(at));
  }

  lemma CompressedReads(es: seq<Event>, code: Code, s: int)
    requires Clocked(es)
    ensures KeyAt(After(es).rows, code, s) == KeyAt(Full(es), code, s)
    ensures QuoteOf(LastAt(After(es).rows, code, s)) == QuoteOf(LastAt(Full(es), code, s))
  {
    hide LastAt, After, Full;
    RunCompresses(es);
  }

  lemma {:induction false} LastAtIn(rows: seq<Row>, code: Code, s: int)
    ensures var r := LastAt(rows, code, s);
      r.Some? ==> r.value in rows && r.value.code == code && r.value.ts <= s
  {
    if rows != [] {
      LastAtIn(rows[..|rows| - 1], code, s);
    }
  }

  /** A held row of the code, at or before the second. */
  predicate HeldRowBy(rows: seq<Row>, code: Code, s: int) {
    exists i :: 0 <= i < |rows| && rows[i].code == code && rows[i].ts <= s && rows[i].held
  }

  /** Turning held is itself written: a contract last seen held at a second has a held row by then,
      even when its quote never changed. */
  lemma HeldIsWritten(es: seq<Event>, code: Code, s: int)
    requires Clocked(es) && LastAt(Full(es), code, s).Some? && LastAt(Full(es), code, s).value.held
    ensures HeldRowBy(After(es).rows, code, s)
  {
    hide LastAt, After, Full;
    CompressedReads(es, code, s);
    LastAtIn(After(es).rows, code, s);
  }

  lemma {:induction false} KeyedConcat(a: seq<Row>, b: seq<Row>)
    ensures Keyed(a + b) == Keyed(a) + Keyed(b)
  {
    if b == [] {
      assert a + b == a;
    } else {
      KeyedConcat(a, b[..|b| - 1]);
      assert (a + b)[..|a + b| - 1] == a + b[..|b| - 1];
    }
  }

  lemma {:induction false} CopiesChangeNothing(tape: DayTape, copies: seq<Row>)
    requires forall r :: r in copies ==> KeyOf(r) in tape && tape[KeyOf(r)] == r
    ensures Write(tape, Keyed(copies)) == tape
  {
    if copies != [] {
      var n := |copies| - 1;
      CopiesChangeNothing(tape, copies[..n]);
      assert Keyed(copies)[..|Keyed(copies)| - 1] == Keyed(copies[..n]);
      assert copies[n] in copies;
    }
  }

  /** A day read mid-prune, from its own file and the rows already set aside, reads the same. */
  lemma MidPruneReadsSame(file: seq<Row>, aside: seq<Row>)
    requires forall r :: r in aside ==>
      KeyOf(r) in Write(map[], Keyed(file)) && Write(map[], Keyed(file))[KeyOf(r)] == r
    ensures Write(map[], Keyed(file + aside)) == Write(map[], Keyed(file))
  {
    KeyedConcat(file, aside);
    WriteConcat(map[], Keyed(file), Keyed(aside));
    CopiesChangeNothing(Write(map[], Keyed(file)), aside);
  }

  // ---- the held flag --------------------------------------------------------------------------

  /** A contract's standing by the history alone: never open at a sample, open at the last one, or
      first seen closed at a given time. */
  datatype Standing = Never | Open | ClosedAt(t: real)

  function StandingOf(es: seq<Event>, c: Code): Standing {
    if es == [] then Never
    else
      var before, e := StandingOf(es[..|es| - 1], c), es[|es| - 1];
      match e
      case Follow(_, _, _, _, _) => before
      case Sample(now, _, held, _) =>
        if c in OpenCodes(held) then Open else if before.Open? then ClosedAt(now) else before
  }

  predicate HeldByHistory(st: Standing, now: real) {
    st.Open? || (st.ClosedAt? && now <= st.t + AFTER_CLOSE)
  }

  /** Every event names a contract under the one symbol that is its own. */
  predicate NamesSymbols(e: Event, symbolOf: Code -> Symbol) {
    match e
    case Follow(symbol, codes, _, _, _) => forall c :: c in codes ==> symbolOf(c) == symbol
    case Sample(_, _, held, _) => forall h :: h in held ==> symbolOf(h.code) == h.symbol
  }

  predicate ProperRun(es: seq<Event>, symbolOf: Code -> Symbol) {
    && Clocked(es)
    && forall i :: 0 <= i < |es| ==> NamesSymbols(es[i], symbolOf) && (es[i].Sample? ==> es[i].now > 0.0)
  }

  /** What a contract's watch must look like for its standing, at the last sample's clock. */
  predicate Matches(watch: map<Code, Watch>, c: Code, st: Standing, clock: Option<real>) {
    match st
    case Never => c in watch ==> watch[c].heldUntil == At(0.0)
    case Open => c in watch && watch[c].until == Forever && watch[c].heldUntil == Forever
    case ClosedAt(t) =>
      && 0.0 < t && clock.Some? && t <= clock.value
      && if c in watch && watch[c].heldUntil == At(t + AFTER_CLOSE) then
           watch[c].until.At? && t + AFTER_CLOSE <= watch[c].until.t
         else
           t + AFTER_CLOSE < clock.value && (c in watch ==> watch[c].heldUntil == At(0.0))
  }

  lemma {:induction false} FollowKeepsMatches(s: State, codes: seq<Code>, symbol: Symbol, role: Role, until: real,
                                              c: Code, st: Standing, clock: Option<real>)
    requires Matches(s.watch, c, st, clock)
    ensures Matches(FollowAll(s, codes, symbol, role, until).watch, c, st, clock)
  {
    if codes != [] {
      FollowKeepsMatches(s, codes[..|codes| - 1], symbol, role, until, c, st, clock);
    }
  }

  lemma {:induction false} PinOpens(watch: map<Code, Watch>, held: seq<Holding>, c: Code)
    ensures c in OpenCodes(held) ==>
      c in Pin(watch, held) && Pin(watch, held)[c].until == Forever && Pin(watch, held)[c].heldUntil == Forever
    ensures c !in OpenCodes(held) ==>
      (c in Pin(watch, held) <==> c in watch) && (c in watch ==> Pin(watch, held)[c] == watch[c])
  {
    if held != [] {
      var n := |held| - 1;
      PinOpens(watch, held[..n], c);
      assert OpenCodes(held) == OpenCodes(held[..n]) + {held[n].code} by {
        assert held == held[..n] + [held[n]];
      }
    }
  }

  lemma SampleKeepsMatches(watch: map<Code, Watch>, held: seq<Holding>, now: real, c: Code,
                           st: Standing, clock: Option<real>)
    requires Matches(watch, c, st, clock) && now > 0.0 && (clock.Some? ==> clock.value <= now)
    ensures var after := if c in OpenCodes(held) then Open else if st.Open? then ClosedAt(now) else st;
      && Matches(WatchAfter(watch, held, now), c, after, Some(now))
      && (HeldByHistory(after, now) <==>
            c in WatchAfter(watch, held, now) && IsHeld(WatchAfter(watch, held, now)[c], now))
  {
    hide Pin, OpenCodes;
    PinOpens(watch, held, c);
  }

  function HeldAfter(es: seq<Event>): set<Symbol>
    requires es != [] && es[|es| - 1].Sample?
  {
    HeldSymbols(After(es).watch, es[|es| - 1].held, es[|es| - 1].now)
  }

  lemma {:induction false} RunMatches(es: seq<Event>, symbolOf: Code -> Symbol, c: Code)
    requires ProperRun(es, symbolOf)
    ensures Matches(After(es).watch, c, StandingOf(es, c), LastSample(es))
    ensures es != [] && es[|es| - 1].Sample? ==>
      (HeldByHistory(StandingOf(es, c), es[|es| - 1].now) <==>
        c in After(es).watch && IsHeld(After(es).watch[c], es[|es| - 1].now))
  {
    if es == [] {
      return;
    }
    hide FollowAll, WatchAfter, RecordAll, Matches, HeldByHistory, OpenCodes, NamesSymbols;
    var n := |es| - 1;
    RunMatches(es[..n], symbolOf, c);
    var s, st, clock := After(es[..n]), StandingOf(es[..n], c), LastSample(es[..n]);
    match es[n]
    case Follow(symbol, codes, role, ttl, at) => FollowKeepsMatches(s, codes, symbol, role, at + ttl, c, st, clock);
    case Sample(now, _, held, _) => SampleKeepsMatches(s.watch, held, now, c, st, clock);
  }

  predicate OwnSymbols(watch: map<Code, Watch>, symbolOf: Code -> Symbol) {
    forall c :: c in watch ==> watch[c].symbol == symbolOf(c)
  }

  lemma {:induction false} FollowOwnSymbols(s: State, codes: seq<Code>, symbol: Symbol, role: Role, until: real,
                                            symbolOf: Code -> Symbol)
    requires OwnSymbols(s.watch, symbolOf) && forall c :: c in codes ==> symbolOf(c) == symbol
    ensures OwnSymbols(FollowAll(s, codes, symbol, role, until).watch, symbolOf)
  {
    if codes != [] {
      FollowOwnSymbols(s, codes[..|codes| - 1], symbol, role, until, symbolOf);
    }
  }

  lemma {:induction false} PinOwnSymbols(watch: map<Code, Watch>, held: seq<Holding>, symbolOf: Code -> Symbol)
    requires OwnSymbols(watch, symbolOf) && forall h :: h in held ==> symbolOf(h.code) == h.symbol
    ensures OwnSymbols(Pin(watch, held), symbolOf)
  {
    if held != [] {
      PinOwnSymbols(watch, held[..|held| - 1], symbolOf);
    }
  }

  lemma {:induction false} RunOwnSymbols(es: seq<Event>, symbolOf: Code -> Symbol)
    requires ProperRun(es, symbolOf)
    ensures OwnSymbols(After(es).watch, symbolOf)
  {
    hide FollowAll, Pin, RecordAll;
    if es != [] {
      var n := |es| - 1;
      RunOwnSymbols(es[..n], symbolOf);
      match es[n]
      case Follow(symbol, codes, role, ttl, at) =>
        FollowOwnSymbols(After(es[..n]), codes, symbol, role, at + ttl, symbolOf);
      case Sample(_, _, held, _) => PinOwnSymbols(After(es[..n]).watch, held, symbolOf);
    }
  }

  ghost predicate SomeContractHeld(es: seq<Event>, symbolOf: Code -> Symbol, symbol: Symbol, now: real) {
    exists c :: symbolOf(c) == symbol && HeldByHistory(StandingOf(es, c), now)
  }

  /** The held flag is its history: a sample marks a symbol held exactly when some contract of it is
      open at that sample, or was first seen closed at most the grace ago. Follows do not enter. */
  lemma HeldIffHistory(es: seq<Event>, symbolOf: Code -> Symbol, symbol: Symbol)
    requires ProperRun(es, symbolOf) && es != [] && es[|es| - 1].Sample?
    ensures symbol in HeldAfter(es) <==> SomeContractHeld(es, symbolOf, symbol, es[|es| - 1].now)
  {
    hide After, IsHeld, HeldByHistory, Matches;
    var e := es[|es| - 1];
    var watch := After(es).watch;
    RunOwnSymbols(es, symbolOf);
    if h :| h in e.held && h.symbol == symbol {
      assert HeldByHistory(StandingOf(es, h.code), e.now) by { OpenIsHeld(es, h); }
      assert NamesSymbols(e, symbolOf);
    }
    if c :| c in watch && IsHeld(watch[c], e.now) && watch[c].symbol == symbol {
      RunMatches(es, symbolOf, c);
    }
    if c :| symbolOf(c) == symbol && HeldByHistory(StandingOf(es, c), e.now) {
      RunMatches(es, symbolOf, c);
    }
  }

  lemma OpenIsHeld(es: seq<Event>, h: Holding)
    requires es != [] && es[|es| - 1].Sample? && h in es[|es| - 1].held
    ensures HeldByHistory(StandingOf(es, h.code), es[|es| - 1].now)
  {
  }

  /** An open contract is never evicted and its watch never lapses, whatever is followed meanwhile. */
  lemma OpenNeverEvicted(es: seq<Event>, symbolOf: Code -> Symbol, c: Code)
    requires ProperRun(es, symbolOf) && StandingOf(es, c).Open?
    ensures c in After(es).watch && After(es).watch[c].until == Forever && After(es).watch[c].heldUntil == Forever
  {
    RunMatches(es, symbolOf, c);
  }

  lemma {:induction false} SightsCarry(targets: seq<Target>, quotes: map<Code, Quote>, held: set<Symbol>, ts: int)
    ensures forall r :: r in Sights(targets, quotes, held, ts) ==> r.held == (r.symbol in held)
  {
    if targets != [] {
      SightsCarry(targets[..|targets| - 1], quotes, held, ts);
    }
  }

  lemma {:induction false} RecordAllWritesSights(last: map<Code, Key>, rows: seq<Row>, sights: seq<Row>)
    ensures rows <= RecordAll(last, rows, sights).1
    ensures forall r :: r in RecordAll(last, rows, sights).1[|rows|..] ==> r in sights
  {
    if sights != [] {
      var n := |sights| - 1;
      RecordAllWritesSights(last, rows, sights[..n]);
      var before := RecordAll(last, rows, sights[..n]).1;
      assert (before + [sights[n]])[|rows|..] == before[|rows|..] + [sights[n]];
    }
  }

  /** Every row a sample writes is marked held exactly when its symbol is held by the history. */
  lemma RowsCarryHistory(es: seq<Event>, symbolOf: Code -> Symbol, r: Row)
    requires ProperRun(es, symbolOf) && es != [] && es[|es| - 1].Sample?
    requires After(es[..|es| - 1]).rows <= After(es).rows ==> r in After(es).rows[|After(es[..|es| - 1]).rows|..]
    ensures After(es[..|es| - 1]).rows <= After(es).rows
    ensures r.held <==> SomeContractHeld(es, symbolOf, r.symbol, es[|es| - 1].now)
  {
    hide RecordAll, Sights, WatchAfter, HeldSymbols, ProperRun, SomeContractHeld;
    var n := |es| - 1;
    var s, e := After(es[..n]), es[n];
    RecordAllWritesSights(Remembered(s, e.held, e.now), s.rows, SampleSights(s, e));
    SightsCarry(e.targets, e.quotes, HeldAfter(es), Trunc(e.now));
    HeldIffHistory(es, symbolOf, r.symbol);
  }

  // ---- the ceiling ----------------------------------------------------------------------------

  /** The watches some follow created and no sample has let lapse since. */
  function FollowMade(es: seq<Event>): set<Code> {
    if es == [] then {}
    else
      var before := FollowMade(es[..|es| - 1]);
      if es[|es| - 1].Follow? then before + (After(es).watch.Keys - After(es[..|es| - 1]).watch.Keys)
      else before * After(es).watch.Keys
  }

  lemma FollowOneBounded(s: State, code: Code, symbol: Symbol, role: Role, until: real)
    ensures var after := FollowOne(s, code, symbol, role, until).watch;
      after.Keys == s.watch.Keys || (after.Keys == s.watch.Keys + {code} && |after.Keys| <= MAX_WATCHED)
  {
    var after := FollowOne(s, code, symbol, role, until).watch;
    if code !in s.watch && |s.watch| < MAX_WATCHED {
      assert after.Keys == s.watch.Keys + {code};
      assert |s.watch.Keys| == |s.watch|;
    } else {
      assert after.Keys == s.watch.Keys;
    }
  }

  lemma {:induction false} FollowBounded(s: State, codes: seq<Code>, symbol: Symbol, role: Role, until: real)
    ensures var after := FollowAll(s, codes, symbol, role, until).watch;
      s.watch.Keys <= after.Keys && (after.Keys == s.watch.Keys || |after.Keys| <= MAX_WATCHED)
  {
    hide FollowOne;
    if codes != [] {
      var n := |codes| - 1;
      FollowBounded(s, codes[..n], symbol, role, until);
      FollowOneBounded(FollowAll(s, codes[..n], symbol, role, until), codes[n], symbol, role, until);
    }
  }

  lemma FollowGrows(es: seq<Event>)
    requires es != [] && es[|es| - 1].Follow?
    ensures var before, after := After(es[..|es| - 1]).watch.Keys, After(es).watch.Keys;
      before <= after && (after == before || |after| <= MAX_WATCHED)
  {
    hide FollowAll, WatchAfter, RecordAll, Sights, HeldSymbols;
    var e := es[|es| - 1];
    FollowBounded(After(es[..|es| - 1]), e.codes, e.symbol, e.role, e.at + e.ttl);
  }

  /** Follows alone never put more than the ceiling on the tape, however many contracts are held. */
  lemma {:induction false} FollowsCapped(es: seq<Event>)
    ensures FollowMade(es) <= After(es).watch.Keys && |FollowMade(es)| <= MAX_WATCHED
  {
    hide After;
    if es != [] {
      var n := |es| - 1;
      FollowsCapped(es[..n]);
      if es[n].Follow? {
        FollowGrows(es);
        GrownCapped(FollowMade(es[..n]), After(es[..n]).watch.Keys, After(es).watch.Keys);
      } else {
        SubsetSize(FollowMade(es), FollowMade(es[..n]));
      }
    }
  }

  lemma GrownCapped(made: set<Code>, before: set<Code>, after: set<Code>)
    requires made <= before <= after && |made| <= MAX_WATCHED
    requires after == before || |after| <= MAX_WATCHED
    ensures made + (after - before) <= after && |made + (after - before)| <= MAX_WATCHED
  {
    if after == before {
      assert made + (after - before) == made;
    } else {
      SubsetSize(made + (after - before), after);
    }
  }

  // ---- everything watched is looked at --------------------------------------------------------

  lemma {:induction false} SightsSee(targets: seq<Target>, quotes: map<Code, Quote>, held: set<Symbol>, ts: int, i: nat)
    requires i < |targets| && targets[i].code in quotes && Usable(quotes[targets[i].code])
    ensures exists j ::
      0 <= j < |Sights(targets, quotes, held, ts)| && Sights(targets, quotes, held, ts)[j].code == targets[i].code
  {
    hide Usable;
    var n := |targets| - 1;
    var sights := Sights(targets, quotes, held, ts);
    if i < n {
      SightsSee(targets[..n], quotes, held, ts, i);
      var before := Sights(targets[..n], quotes, held, ts);
      var j :| 0 <= j < |before| && before[j].code == targets[i].code;
      assert sights[j] == before[j];
    } else {
      assert sights[|sights| - 1].code == targets[i].code;
    }
  }

  lemma {:induction false} SightsQuote(targets: seq<Target>, quotes: map<Code, Quote>, held: set<Symbol>, ts: int)
    ensures forall r :: r in Sights(targets, quotes, held, ts) ==>
      && r.ts == ts && r.code in quotes && r.quote == quotes[r.code] && r.held == (r.symbol in held)
      && Target(r.code, r.symbol, r.role) in targets
  {
    if targets != [] {
      SightsQuote(targets[..|targets| - 1], quotes, held, ts);
    }
  }

  lemma {:induction false} LastAtSeesAny(rows: seq<Row>, sights: seq<Row>, code: Code, ts: int, key: Key, i: nat)
    requires i < |sights| && sights[i].code == code
    requires forall r :: r in sights ==> r.ts == ts && (r.code == code ==> Key(r.quote, r.held) == key)
    ensures KeyAt(rows + sights, code, ts) == Some(key)
  {
    var n := |sights| - 1;
    assert (rows + sights)[..|rows| + n] == rows + sights[..n];
    assert (rows + sights)[|rows| + n] == sights[n] && sights[n] in sights;
    if sights[n].code != code {
      LastAtSeesAny(rows, sights[..n], code, ts, key, i);
    }
  }

  /** Every contract still watched after a sample, and quoted at it, was seen with that quote, and as
      held exactly when its symbol is. With `OpenNeverEvicted` and `RoundTrip`, an open position's
      quotes are always on record. */
  lemma WatchedIsSeen(es: seq<Event>, legs: map<Symbol, seq<Leg>>, c: Code)
    requires es != [] && es[|es| - 1].Sample?
    requires Resolved(After(es).watch, legs, es[|es| - 1].targets)
    requires c in After(es).watch && c in es[|es| - 1].quotes && Usable(es[|es| - 1].quotes[c])
    ensures KeyAt(Full(es), c, Trunc(es[|es| - 1].now))
         == Some(Key(es[|es| - 1].quotes[c], After(es).watch[c].symbol in HeldAfter(es)))
  {
    hide Sights, KeyAt, Usable, RecordAll, WatchAfter, HeldSymbols, Trunc;
    var n := |es| - 1;
    var e, held := es[n], HeldAfter(es);
    var t := Target(c, After(es).watch[c].symbol, After(es).watch[c].role);
    OneTargetSeen(Full(es[..n]), e.targets, e.quotes, held, Trunc(e.now), t);
  }

  lemma OneTargetSeen(rows: seq<Row>, targets: seq<Target>, quotes: map<Code, Quote>, held: set<Symbol>, ts: int,
                      t: Target)
    requires t in targets && forall i, j :: 0 <= i < j < |targets| ==> targets[i].code != targets[j].code
    requires t.code in quotes && Usable(quotes[t.code])
    ensures KeyAt(rows + Sights(targets, quotes, held, ts), t.code, ts) == Some(Key(quotes[t.code], t.symbol in held))
  {
    hide Sights, KeyAt, Usable;
    var i :| 0 <= i < |targets| && targets[i] == t;
    SightsSee(targets, quotes, held, ts, i);
    SightsQuote(targets, quotes, held, ts);
    var sights := Sights(targets, quotes, held, ts);
    forall r | r in sights && r.code == t.code ensures r.symbol == t.symbol {
      var k :| 0 <= k < |targets| && targets[k] == Target(r.code, r.symbol, r.role);
      assert targets[k].code == targets[i].code;
    }
    var j :| 0 <= j < |sights| && sights[j].code == t.code;
    LastAtSeesAny(rows, sights, t.code, ts, Key(quotes[t.code], t.symbol in held), j);
  }

  /** A contract open at a sample that has a quote for it has a held row on the tape by that second. */
  lemma OpenIsWritten(es: seq<Event>, symbolOf: Code -> Symbol, legs: map<Symbol, seq<Leg>>, c: Code)
    requires ProperRun(es, symbolOf) && es != [] && es[|es| - 1].Sample?
    requires Resolved(After(es).watch, legs, es[|es| - 1].targets)
    requires c in OpenCodes(es[|es| - 1].held) && c in es[|es| - 1].quotes && Usable(es[|es| - 1].quotes[c])
    ensures HeldRowBy(After(es).rows, c, Trunc(es[|es| - 1].now))
  {
    hide After, Full, LastAt, Usable, Resolved, Trunc, HeldRowBy;
    var e := es[|es| - 1];
    OpenNeverEvicted(es, symbolOf, c);
    RunOwnSymbols(es, symbolOf);
    var h :| h in e.held && h.code == c;
    assert NamesSymbols(e, symbolOf);
    assert After(es).watch[c].symbol in HeldAfter(es);
    WatchedIsSeen(es, legs, c);
    HeldIsWritten(es, c, Trunc(e.now));
  }

  lemma {:induction false} RowsGrow(es: seq<Event>, j: nat)
    requires j <= |es|
    ensures After(es[..j]).rows <= After(es).rows
    decreases |es|
  {
    hide FollowAll, RecordAll, WatchAfter, Sights;
    if j == |es| {
      assert es[..j] == es;
    } else {
      var n := |es| - 1;
      RowsGrow(es[..n], j);
      assert es[..n][..j] == es[..j];
      var s := After(es[..n]);
      match es[n]
      case Follow(symbol, codes, role, ttl, at) => FollowKeepsRows(s, codes, symbol, role, at + ttl);
      case Sample(now, _, held, _) => RecordAllWritesSights(Remembered(s, held, now), s.rows, SampleSights(s, es[n]));
    }
  }

  // ---- how long a candidate stays -------------------------------------------------------------

  /** Watched until `t` at least, and not on behalf of an open position. */
  predicate StaysUntil(watch: map<Code, Watch>, c: Code, t: real) {
    c in watch && watch[c].heldUntil.At? && watch[c].until.At? && t <= watch[c].until.t
  }

  lemma {:induction false} FollowKeepsStaying(s: State, codes: seq<Code>, symbol: Symbol, role: Role, until: real,
                                              c: Code, t: real)
    requires StaysUntil(s.watch, c, t)
    ensures StaysUntil(FollowAll(s, codes, symbol, role, until).watch, c, t)
  {
    if codes != [] {
      FollowKeepsStaying(s, codes[..|codes| - 1], symbol, role, until, c, t);
    }
  }

  predicate NotOpen(watch: map<Code, Watch>, c: Code) { c in watch ==> watch[c].heldUntil.At? && watch[c].until.At? }

  lemma {:induction false} FollowStarts(s: State, codes: seq<Code>, symbol: Symbol, role: Role, until: real, c: Code)
    requires NotOpen(s.watch, c)
    ensures var after := FollowAll(s, codes, symbol, role, until).watch;
      NotOpen(after, c) && (c in codes && c in after ==> StaysUntil(after, c, until))
  {
    if codes != [] {
      var n := |codes| - 1;
      FollowStarts(s, codes[..n], symbol, role, until, c);
      var before := FollowAll(s, codes[..n], symbol, role, until);
      if c in codes[..n] && c in before.watch {
        FollowKeepsStaying(before, [codes[n]], symbol, role, until, c, until);
        assert [codes[n]][..0] == [];
        assert FollowAll(before, [codes[n]], symbol, role, until) == FollowOne(before, codes[n], symbol, role, until);
      }
    }
  }

  lemma SampleKeepsStaying(watch: map<Code, Watch>, held: seq<Holding>, now: real, c: Code, t: real)
    requires StaysUntil(watch, c, t) && c !in OpenCodes(held) && now <= t
    ensures StaysUntil(WatchAfter(watch, held, now), c, t)
  {
    hide Pin, OpenCodes;
    PinOpens(watch, held, c);
  }

  /** A candidate that was admitted stays for the whole time it was followed for, whatever else is
      followed or held meanwhile, as long as no position opens in it. */
  lemma {:induction false} CandidateStays(es: seq<Event>, j: nat, c: Code)
    requires j < |es| && es[j].Follow? && c in es[j].codes
    requires NotOpen(After(es[..j]).watch, c) && c in After(es[..j + 1]).watch
    requires forall i :: j < i < |es| && es[i].Sample? ==>
      c !in OpenCodes(es[i].held) && es[i].now <= es[j].at + es[j].ttl
    ensures StaysUntil(After(es).watch, c, es[j].at + es[j].ttl)
    decreases |es|
  {
    hide FollowAll, WatchAfter, RecordAll, OpenCodes, NotOpen, StaysUntil;
    var n, t := |es| - 1, es[j].at + es[j].ttl;
    if j == n {
      assert es[..j + 1] == es;
      FollowStarts(After(es[..n]), es[n].codes, es[n].symbol, es[n].role, t, c);
    } else {
      assert es[..n][..j] == es[..j] && es[..n][..j + 1] == es[..j + 1];
      CandidateStays(es[..n], j, c);
      match es[n]
      case Follow(symbol, codes, role, ttl, at) =>
        FollowKeepsStaying(After(es[..n]), codes, symbol, role, at + ttl, c, t);
      case Sample(now, _, held, _) => SampleKeepsStaying(After(es[..n]).watch, held, now, c, t);
    }
  }

  /** A lapsed watch goes: after a sample, nothing watched is past its time. */
  lemma NothingLapsedStays(s: State, e: Event)
    requires e.Sample?
    ensures forall c :: c in Step(s, e).watch ==> !Lapsed(Step(s, e).watch[c], e.now)
    ensures forall c :: c in Step(s, e).last && c in Pin(s.watch, e.held) && c !in Step(s, e).watch ==>
      exists i :: 0 <= i < |SampleSights(s, e)| && SampleSights(s, e)[i].code == c
  {
    hide Sights, Pin, HeldSymbols;
    var sights := SampleSights(s, e);
    RememberedOrSeen(Remembered(s, e.held, e.now), s.rows, sights);
  }

  lemma {:induction false} RememberedOrSeen(last: map<Code, Key>, rows: seq<Row>, sights: seq<Row>)
    ensures forall c :: c in RecordAll(last, rows, sights).0 ==>
      c in last || exists i :: 0 <= i < |sights| && sights[i].code == c
  {
    if sights != [] {
      var n := |sights| - 1;
      RememberedOrSeen(last, rows, sights[..n]);
      forall c | c in RecordAll(last, rows, sights).0 && c !in last
        ensures exists i :: 0 <= i < |sights| && sights[i].code == c
      {
        if c != sights[n].code {
          var i :| 0 <= i < n && sights[..n][i].code == c;
          assert sights[i].code == c;
        }
      }
    }
  }
}
