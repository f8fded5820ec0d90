/** The tape as the object the engine drives once a second: its methods do exactly the steps that the
    laws in `Tape` are about. */
module TapeRecorder {
  import opened Wrappers
  import opened Tape

  class TickTape {
    const enabled: bool
    var watch: map<Code, Watch>
    var last: map<Code, Key>
    var written: seq<Row>    // what has been handed to the archive
    var samples: nat
    var dropped: nat
    var capped: bool
    var lastSample: Option<real>

    constructor (enabled: bool)
      ensures this.enabled == enabled && Value() == EMPTY && samples == 0 && lastSample == None
    {
      this.enabled := enabled;
      watch, last, written, samples, dropped, capped, lastSample := map[], map[], [], 0, 0, false, None;
    }

    ghost function Value(): State
      reads this
    {
      State(watch, last, written, dropped, capped)
    }

    method Follow(symbol: Symbol, codes: seq<Code>, role: Role, ttl: real, now: real)
      modifies this`watch, this`dropped, this`capped
      ensures Value() ==
        if enabled then Step(old(Value()), Event.Follow(symbol, codes, role, ttl, now)) else old(Value())
    {
      hide FollowOne;
      if enabled {
        for i := 0 to |codes|
          invariant Value() == FollowAll(old(Value()), codes[..i], symbol, role, now + ttl)
        {
          assert codes[..i + 1][..i] == codes[..i];
          FollowCode(codes[i], symbol, role, now + ttl);
        }
        assert codes[..|codes|] == codes;
      }
    }

    method FollowCode(code: Code, symbol: Symbol, role: Role, until: real)
      modifies this`watch, this`dropped, this`capped
      ensures Value() == FollowOne(old(Value()), code, symbol, role, until)
    {
      if code in watch {
        var w := watch[code];
        if w.until.At? && w.until.t < until {
          watch := watch[code := w.(until := At(until))];
        }
      } else if |watch| >= MAX_WATCHED {
        dropped, capped := dropped + 1, true;
      } else {
        watch := watch[code := Watch(symbol, role, At(until), At(0.0))];
      }
    }

    /** Pins the watches of the open contracts and collects their codes and symbols. */
    method PinOpen(held: seq<Holding>) returns (openCodes: set<Code>, heldSymbols: set<Symbol>)
      modifies this`watch
      ensures watch == Pin(old(watch), held)
      ensures openCodes == OpenCodes(held) && heldSymbols == OpenSymbols(held)
    {
      openCodes, heldSymbols := {}, {};
      for i := 0 to |held|
        invariant watch == Pin(old(watch), held[..i])
        invariant openCodes == OpenCodes(held[..i]) && heldSymbols == OpenSymbols(held[..i])
      {
        assert held[..i + 1][..i] == held[..i] && held[..i + 1] == held[..i] + [held[i]];
        var h := held[i];
        openCodes, heldSymbols := openCodes + {h.code}, heldSymbols + {h.symbol};
        if h.code in watch {
          watch := watch[h.code := watch[h.code].(until := Forever, role := h.role, heldUntil := Forever)];
        } else {
          watch := watch[h.code := Watch(h.symbol, h.role, Forever, Forever)];
        }
      }
      assert held[..|held|] == held;
    }

    /** Gives the grace, drops what lapsed, and collects the symbols still held. */
    method Sweep(openCodes: set<Code>, openSymbols: set<Symbol>, now: real) returns (heldSymbols: set<Symbol>)
      modifies this`watch, this`last
      ensures watch == Swept(old(watch), openCodes, now)
      ensures last == old(last) - (old(watch).Keys - watch.Keys)
      ensures heldSymbols == openSymbols + HeldBut(watch, {}, now)
    {
      hide Sweeping, Swept, HeldBut, Aged, Lapsed, IsHeld;
      ghost var pinned, was := watch, last;
      heldSymbols := openSymbols;
      var todo := watch.Keys;
      SweepStarts(pinned, was, openSymbols, openCodes, now);
      while todo != {}
        invariant Sweeping(pinned, was, openSymbols, openCodes, now, todo, watch, last, heldSymbols)
        decreases |todo|
      {
        var c :| c in todo;
        SweepHas(pinned, was, openSymbols, openCodes, now, todo, watch, last, heldSymbols, c);
        ghost var watch0, last0 := watch, last;
        var held := AgeOne(c, c in openCodes, now);
        SweepMoves(pinned, was, openSymbols, openCodes, now, todo, watch0, last0, heldSymbols, c, watch, last, held);
        todo, heldSymbols := todo - {c}, heldSymbols + held;
      }
      SweepEnds(pinned, was, openSymbols, openCodes, now, watch, last, heldSymbols);
    }

    method AgeOne(c: Code, isOpen: bool, now: real) returns (held: set<Symbol>)
      requires c in watch
      modifies this`watch, this`last
      ensures AgedOne(old(watch), old(last), c, isOpen, now, watch, last, held)
    {
      held := {};
      var w := Aged(watch[c], isOpen, now);
      if Lapsed(w, now) {
        watch, last := watch - {c}, last - {c};
      } else {
        watch := watch[c := w];
        if IsHeld(w, now) {
          held := {w.symbol};
        }
      }
    }

    /** Lists the second's targets: the watched contracts, then the legs of their symbols. */
    method Resolve(legs: map<Symbol, seq<Leg>>) returns (targets: seq<Target>)
      ensures Resolved(watch, legs, targets)
    {
      hide Seen, Listed;
      var symbols, seen;
      targets, symbols, seen := ListWatched();
      ghost var all := symbols;
      ListedIsLegged(watch, legs, seen, targets);
      while symbols != {}
        invariant symbols <= all == SymbolsOf(watch) && Legged(watch, legs, seen, targets)
        invariant forall s, l :: s in all - symbols && s in legs && l in legs[s] ==> l.code in seen
        decreases |symbols|
      {
        hide Legged, SymbolsOf;
        var symbol :| symbol in symbols;
        symbols := symbols - {symbol};
        if symbol in legs {
          targets, seen := ListLegs(legs, symbol, targets, seen);
        }
      }
      LeggedIsResolved(watch, legs, seen, targets);
    }

    method ListWatched() returns (targets: seq<Target>, symbols: set<Symbol>, seen: set<Code>)
      ensures Listed(watch, watch.Keys, targets) && symbols == SymbolsOf(watch) && seen == watch.Keys
    {
      hide Listed, Seen;
      targets, symbols, seen := [], {}, {};
      var todo := watch.Keys;
      assert Listed(watch, {}, []) by { NothingListed(watch); }
      while todo != {}
        invariant todo <= watch.Keys && seen == watch.Keys - todo
        invariant symbols == set c | c in seen :: watch[c].symbol
        invariant Listed(watch, seen, targets)
        decreases |todo|
      {
        var c :| c in todo;
        ListOne(watch, seen, targets, c);
        todo, seen, symbols := todo - {c}, seen + {c}, symbols + {watch[c].symbol};
        targets := targets + [Target(c, watch[c].symbol, watch[c].role)];
      }
      assert seen == watch.Keys;
    }

    method ListLegs(legs: map<Symbol, seq<Leg>>, symbol: Symbol, targets0: seq<Target>, seen0: set<Code>)
      returns (targets: seq<Target>, seen: set<Code>)
      requires symbol in legs && symbol in SymbolsOf(watch) && Legged(watch, legs, seen0, targets0)
      ensures Legged(watch, legs, seen, targets) && seen0 <= seen
      ensures forall l :: l in legs[symbol] ==> l.code in seen
    {
      hide Legged, SymbolsOf;
      targets, seen := targets0, seen0;
      var mine := legs[symbol];
      for i := 0 to |mine|
        invariant seen0 <= seen && Legged(watch, legs, seen, targets)
        invariant forall j :: 0 <= j < i ==> mine[j].code in seen
      {
        if mine[i].code !in seen {
          LegOne(watch, legs, seen, targets, symbol, mine[i]);
          seen := seen + {mine[i].code};
          targets := targets + [Target(mine[i].code, symbol, mine[i].role)];
        }
      }
    }

    /** Writes the rows of this second that changed. */
    method Write(ts: int, targets: seq<Target>, quotes: map<Code, Quote>, heldSymbols: set<Symbol>) returns (n: nat)
      modifies this`last, this`written
      ensures (last, written) == RecordAll(old(last), old(written), Sights(targets, quotes, heldSymbols, ts))
      ensures n == |written| - |old(written)|
    {
      hide Usable;
      n := 0;
      for i := 0 to |targets|
        invariant (last, written) == RecordAll(old(last), old(written), Sights(targets[..i], quotes, heldSymbols, ts))
        invariant n == |written| - |old(written)|
      {
        assert targets[..i + 1][..i] == targets[..i];
        var t := targets[i];
        if t.code in quotes && Usable(quotes[t.code]) {
          var q := quotes[t.code];
          var key := Key(q, t.symbol in heldSymbols);
          ghost var r := Row(t.code, ts, t.symbol, t.role, q, key.held);
          if t.code !in last || last[t.code] != key {
            last := last[t.code := key];
            written := written + [Row(t.code, ts, t.symbol, t.role, q, key.held)];
            n := n + 1;
          }
        }
      }
      assert targets[..|targets|] == targets;
    }

    /** Records one second. The targets are what the second looked at, in the order it did. */
    method Sample(now: real, quotes: map<Code, Quote>, held: seq<Holding>, legs: map<Symbol, seq<Leg>>)
      returns (n: nat, ghost targets: seq<Target>)
      modifies this
      ensures !enabled ==> n == 0 && Value() == old(Value()) && samples == old(samples) && lastSample == old(lastSample)
      ensures enabled ==>
        && Value() == Step(old(Value()), Event.Sample(now, quotes, held, targets))
        && Resolved(watch, legs, targets)
        && n == |written| - |old(written)| && samples == old(samples) + 1 && lastSample == Some(now)
    {
      n, targets := 0, [];
      if enabled {
        hide *;
        ghost var s := Value();
        var openCodes, openSymbols := PinOpen(held);
        var heldSymbols := Sweep(openCodes, openSymbols, now);
        var found := Resolve(legs);
        ghost var kept := last;
        n := Write(Trunc(now), found, quotes, heldSymbols);
        samples, lastSample, targets := samples + 1, Some(now), found;
        SampleIsStep(s, now, quotes, held, found, watch, heldSymbols, kept);
        assert Value().rows == written && Value().watch == watch;
      }
    }
  }

  lemma SampleIsStep(s: State, now: real, quotes: map<Code, Quote>, held: seq<Holding>, targets: seq<Target>,
                     watch: map<Code, Watch>, heldSymbols: set<Symbol>, kept: map<Code, Key>)
    requires watch == Swept(Pin(s.watch, held), OpenCodes(held), now)
    requires heldSymbols == OpenSymbols(held) + HeldBut(watch, {}, now)
    requires kept == s.last - (Pin(s.watch, held).Keys - watch.Keys)
    ensures var (last, rows) := RecordAll(kept, s.rows, Sights(targets, quotes, heldSymbols, Trunc(now)));
      Step(s, Event.Sample(now, quotes, held, targets)) == s.(watch := watch, last := last, rows := rows)
  {
    hide Pin, Swept, RecordAll, Sights, Trunc, IsHeld;
    assert heldSymbols == HeldSymbols(watch, held, now);
  }

  // ---- the sweep, one watch at a time ---------------------------------------------------------

  ghost function MidSweep(pinned: map<Code, Watch>, todo: set<Code>, open: set<Code>, now: real): map<Code, Watch> {
    map c | c in pinned && (c in todo || !Lapsed(Aged(pinned[c], c in open, now), now)) ::
      if c in todo then pinned[c] else Aged(pinned[c], c in open, now)
  }

  ghost function HeldBut(watch: map<Code, Watch>, todo: set<Code>, now: real): set<Symbol> {
    set c | c in watch && c !in todo && IsHeld(watch[c], now) :: watch[c].symbol
  }

  ghost predicate Sweeping(pinned: map<Code, Watch>, was: map<Code, Key>, base: set<Symbol>, open: set<Code>, now: real,
                           todo: set<Code>, watch: map<Code, Watch>, last: map<Code, Key>, held: set<Symbol>) {
    && todo <= pinned.Keys && watch == MidSweep(pinned, todo, open, now)
    && last == was - (pinned.Keys - watch.Keys)
    && held == base + HeldBut(watch, todo, now)
  }

  /** What aging one watch does to the tape, and the symbol it shows to be still held. */
  ghost predicate AgedOne(watch0: map<Code, Watch>, last0: map<Code, Key>, c: Code, isOpen: bool, now: real,
                          watch: map<Code, Watch>, last: map<Code, Key>, held: set<Symbol>)
    requires c in watch0
  {
    var w := Aged(watch0[c], isOpen, now);
    if Lapsed(w, now) then watch == watch0 - {c} && last == last0 - {c} && held == {}
    else watch == watch0[c := w] && last == last0 && held == if IsHeld(w, now) then {w.symbol} else {}
  }

  lemma SweepStarts(pinned: map<Code, Watch>, was: map<Code, Key>, base: set<Symbol>, open: set<Code>, now: real)
    ensures Sweeping(pinned, was, base, open, now, pinned.Keys, pinned, was, base)
  {
    assert MidSweep(pinned, pinned.Keys, open, now) == pinned;
    assert HeldBut(pinned, pinned.Keys, now) == {};
  }

  lemma SweepHas(pinned: map<Code, Watch>, was: map<Code, Key>, base: set<Symbol>, open: set<Code>, now: real,
                 todo: set<Code>, watch: map<Code, Watch>, last: map<Code, Key>, held: set<Symbol>, c: Code)
    requires Sweeping(pinned, was, base, open, now, todo, watch, last, held) && c in todo
    ensures c in watch && watch[c] == pinned[c]
  {
  }

  lemma SweepMoves(pinned: map<Code, Watch>, was: map<Code, Key>, base: set<Symbol>, open: set<Code>, now: real,
                   todo: set<Code>, watch: map<Code, Watch>, last: map<Code, Key>, held: set<Symbol>, c: Code,
                   watch1: map<Code, Watch>, last1: map<Code, Key>, more: set<Symbol>)
    requires Sweeping(pinned, was, base, open, now, todo, watch, last, held) && c in todo && c in watch
    requires AgedOne(watch, last, c, c in open, now, watch1, last1, more)
    ensures Sweeping(pinned, was, base, open, now, todo - {c}, watch1, last1, held + more)
  {
    hide Aged, Lapsed, IsHeld;
    var w := Aged(pinned[c], c in open, now);
    assert watch1 == MidSweep(pinned, todo - {c}, open, now);
    if Lapsed(w, now) {
      assert pinned.Keys - watch1.Keys == pinned.Keys - watch.Keys + {c};
      assert HeldBut(watch1, todo - {c}, now) == HeldBut(watch, todo, now);
    } else {
      assert watch1.Keys == watch.Keys;
      HeldMoves(watch, todo, c, w, now);
    }
  }

  lemma HeldMoves(watch: map<Code, Watch>, todo: set<Code>, c: Code, w: Watch, now: real)
    requires c in todo && c in watch
    ensures HeldBut(watch[c := w], todo - {c}, now)
         == HeldBut(watch, todo, now) + if IsHeld(w, now) then {w.symbol} else {}
  {
    hide IsHeld;
    var watch1 := watch[c := w];
    forall s | s in HeldBut(watch, todo, now) ensures s in HeldBut(watch1, todo - {c}, now) {
      var d :| d in watch && d !in todo && IsHeld(watch[d], now) && watch[d].symbol == s;
      assert d in watch1 && watch1[d] == watch[d];
    }
    if IsHeld(w, now) {
      assert c in watch1 && watch1[c] == w;
    }
  }

  lemma SweepEnds(pinned: map<Code, Watch>, was: map<Code, Key>, base: set<Symbol>, open: set<Code>, now: real,
                  watch: map<Code, Watch>, last: map<Code, Key>, held: set<Symbol>)
    requires Sweeping(pinned, was, base, open, now, {}, watch, last, held)
    ensures watch == Swept(pinned, open, now)
    ensures last == was - (pinned.Keys - watch.Keys) && held == base + HeldBut(watch, {}, now)
  {
  }

  // ---- the targets, one at a time -------------------------------------------------------------

  ghost function SymbolsOf(watch: map<Code, Watch>): set<Symbol> { set c | c in watch :: watch[c].symbol }

  ghost predicate Seen(seen: set<Code>, targets: seq<Target>) {
    && (forall i, j :: 0 <= i < j < |targets| ==> targets[i].code != targets[j].code)
    && (forall t :: t in targets ==> t.code in seen)
    && (forall c :: c in seen ==> exists t :: t in targets && t.code == c)
  }

  ghost predicate Listed(watch: map<Code, Watch>, seen: set<Code>, targets: seq<Target>) {
    && Seen(seen, targets)
    && (forall t :: t in targets ==> t.code in watch && t == Target(t.code, watch[t.code].symbol, watch[t.code].role))
  }

  ghost predicate Legged(watch: map<Code, Watch>, legs: map<Symbol, seq<Leg>>, seen: set<Code>, targets: seq<Target>) {
    && Seen(seen, targets)
    && (forall c :: c in watch ==> Target(c, watch[c].symbol, watch[c].role) in targets)
    && (forall t :: t in targets ==> t.code in watch || LegOf(watch, legs, t))
  }

  lemma SeeOne(seen: set<Code>, targets: seq<Target>, t: Target)
    requires Seen(seen, targets) && t.code !in seen
    ensures Seen(seen + {t.code}, targets + [t])
    ensures forall u :: u in targets + [t] <==> u in targets || u == t
  {
    var more := targets + [t];
    forall i, j | 0 <= i < j < |more| ensures more[i].code != more[j].code {
      assert targets[i] in targets;
    }
    forall c | c in seen + {t.code} ensures exists u :: u in more && u.code == c {
      if c == t.code {
        assert more[|targets|] == t;
      } else {
        var u :| u in targets && u.code == c;
        assert u in more;
      }
    }
  }

  lemma NothingListed(watch: map<Code, Watch>)
    ensures Listed(watch, {}, [])
  {
  }

  lemma ListOne(watch: map<Code, Watch>, seen: set<Code>, targets: seq<Target>, c: Code)
    requires Listed(watch, seen, targets) && c in watch && c !in seen
    ensures Listed(watch, seen + {c}, targets + [Target(c, watch[c].symbol, watch[c].role)])
  {
    hide Seen;
    SeeOne(seen, targets, Target(c, watch[c].symbol, watch[c].role));
  }

  lemma ListedIsLegged(watch: map<Code, Watch>, legs: map<Symbol, seq<Leg>>, seen: set<Code>, targets: seq<Target>)
    requires Listed(watch, seen, targets) && seen == watch.Keys
    ensures Legged(watch, legs, seen, targets)
  {
    forall c | c in watch ensures Target(c, watch[c].symbol, watch[c].role) in targets {
      var t :| t in targets && t.code == c;
    }
  }

  lemma LegOne(watch: map<Code, Watch>, legs: map<Symbol, seq<Leg>>, seen: set<Code>, targets: seq<Target>,
               symbol: Symbol, l: Leg)
    requires Legged(watch, legs, seen, targets) && l.code !in seen
    requires symbol in SymbolsOf(watch) && symbol in legs && l in legs[symbol]
    ensures Legged(watch, legs, seen + {l.code}, targets + [Target(l.code, symbol, l.role)])
  {
    hide Seen;
    var t := Target(l.code, symbol, l.role);
    SeeOne(seen, targets, t);
    assert LegOf(watch, legs, t);
  }

  lemma LeggedIsResolved(watch: map<Code, Watch>, legs: map<Symbol, seq<Leg>>, seen: set<Code>, targets: seq<Target>)
    requires Legged(watch, legs, seen, targets)
    requires forall s, l :: s in SymbolsOf(watch) && s in legs && l in legs[s] ==> l.code in seen
    ensures Resolved(watch, legs, targets)
  {
    forall c, l | c in watch && watch[c].symbol in legs && l in legs[watch[c].symbol]
      ensures exists t :: t in targets && t.code == l.code
    {
      assert watch[c].symbol in SymbolsOf(watch);
    }
  }
}
