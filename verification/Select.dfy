/** Strike selection: two preferred candidates, then everything else by liquidity, and the first that
    passes the quote, age, premium and spread gates. */
module Select {
  import opened Wrappers
  import opened Sorting

  datatype OptionType = CE | PE

  datatype Instrument = Instrument(code: string, strike: real, kind: OptionType)

  datatype Quote = Quote(ltp: real, bid: real, ask: real, ts: real)

  datatype Policy = Policy(minPremium: real, maxPremium: Option<real>, maxSpreadPct: real, maxAge: real,
                           minDelta: real, oiMargin: real)

  const DEFAULT_POLICY := Policy(5.0, Some(400.0), 8.0, 30.0, 0.2, 1.5)

  /** Traded volume and open interest by scrip code; a code without data counts as nothing. */
  type Liquidity = map<string, (real, real)>

  datatype Selection = Selection(instrument: Option<Instrument>, premium: real, anchor: real, spreadPct: Option<real>)

  function Mid(q: Quote): real { if q.bid > 0.0 && q.ask > 0.0 then (q.bid + q.ask) / 2.0 else q.ltp }

  function SpreadPct(q: Quote): Option<real> {
    if q.bid <= 0.0 || q.ask <= 0.0 then None
    else
      var mid := (q.bid + q.ask) / 2.0;
      if mid > 0.0 then Some((q.ask - q.bid) / mid * 100.0) else None
  }

  function LiquidityOf(l: Liquidity, i: Instrument): (real, real) { if i.code in l then l[i.code] else (0.0, 0.0) }

  /** A stand-in for delta: half at the money, falling away with distance. */
  function EstimateDelta(spot: real, strike: real, kind: OptionType): real {
    if spot <= 0.0 || strike <= 0.0 then 0.5
    else
      var moneyness := (if kind.CE? then strike - spot else spot - strike) / spot;
      if moneyness <= 0.0 then Min(0.85, 0.5 + Abs(moneyness) * 6.0) else Max(0.15, 0.5 - moneyness * 8.0)
  }

  /** At the target, or at spot when there is none or it lies behind spot. */
  function Anchor(spot: real, target: Option<real>, kind: OptionType): real {
    if target.None? || target.value <= 0.0 then spot
    else if kind.CE? && target.value < spot then spot
    else if kind.PE? && target.value > spot then spot
    else target.value
  }

  /** The estimate is a half at the money, falls as the strike moves away from it, and stays within
      its band. */
  lemma DeltaFallsAway(spot: real, nearer: real, farther: real, kind: OptionType)
    requires spot > 0.0 && nearer > 0.0 && farther > 0.0
    requires if kind.CE? then nearer <= farther else farther <= nearer
    ensures 0.15 <= EstimateDelta(spot, farther, kind) <= EstimateDelta(spot, nearer, kind) <= 0.85
    ensures EstimateDelta(spot, spot, kind) == 0.5
  {
    hide EstimateDelta;
    DeltaOfMoneyness(spot, nearer, kind);
    DeltaOfMoneyness(spot, farther, kind);
    DeltaOfMoneyness(spot, spot, kind);
    DivMonotone(if kind.CE? then nearer - spot else spot - nearer,
                if kind.CE? then farther - spot else spot - farther, spot);
  }

  function DeltaOf(moneyness: real): real {
    if moneyness <= 0.0 then Min(0.85, 0.5 - moneyness * 6.0) else Max(0.15, 0.5 - moneyness * 8.0)
  }

  /** The floor in plain numbers, for a strike so far out of the money: an eighth of what the floor is
      under a half, in parts of spot; within a sixth of what it is over, for one in the money. */
  lemma ClearsFloorIff(i: Instrument, spot: real, kind: OptionType, floor: real)
    requires spot > 0.0 && i.strike > 0.0
    ensures var out := if kind.CE? then i.strike - spot else spot - i.strike;
      ClearsFloor(i, spot, kind, floor) <==>
        if out > 0.0 then floor <= 0.15 || 8.0 * out <= (0.5 - floor) * spot
        else floor <= 0.85 && 6.0 * out <= (0.5 - floor) * spot
  {
    hide EstimateDelta, DeltaOf;
    var out := if kind.CE? then i.strike - spot else spot - i.strike;
    var x := out / spot;
    DeltaOfMoneyness(spot, i.strike, kind);
    assert EstimateDelta(spot, i.strike, kind) == DeltaOf(x);
    DeltaClears(x, floor);
    assert x * spot == out;
    TimesSpot(x, 8.0, 0.5 - floor, spot, out);
    TimesSpot(x, 6.0, 0.5 - floor, spot, out);
    TimesSpot(x, 1.0, 0.0, spot, out);
  }

  lemma TimesSpot(x: real, n: real, y: real, spot: real, out: real)
    requires spot > 0.0 && x * spot == out
    ensures n * x <= y <==> n * out <= y * spot
  {
    assert n * x * spot == n * out;
    OverSpot(n * x, y, spot);
  }

  lemma DeltaClears(x: real, floor: real)
    ensures Abs(DeltaOf(x)) >= floor <==>
      if x > 0.0 then floor <= 0.15 || 8.0 * x <= 0.5 - floor else floor <= 0.85 && 6.0 * x <= 0.5 - floor
  {
  }

  lemma OverSpot(x: real, y: real, spot: real)
    requires spot > 0.0
    ensures x <= y <==> x * spot <= y * spot
  {
    if x <= y {
      MulLessEq(x, y, spot);
    } else {
      MulLess(y, x, spot);
    }
  }

  lemma DeltaOfMoneyness(spot: real, strike: real, kind: OptionType)
    ensures spot <= 0.0 || strike <= 0.0 ==> EstimateDelta(spot, strike, kind) == 0.5
    ensures spot > 0.0 && strike > 0.0 ==>
      EstimateDelta(spot, strike, kind) == DeltaOf((if kind.CE? then strike - spot else spot - strike) / spot)
  {
  }

  // ---- the two candidates ---------------------------------------------------------------------

  /** The measure has data on at least one side. */
  predicate Measured(b: real, a: real) { a > 0.0 || b > 0.0 }

  /** Where both have a measure, `b` is at least `margin` times `a`; nothing against something wins. */
  predicate BeatsOn(b: real, a: real, margin: real) { a > 0.0 ==> b / a >= margin }

  predicate Beats(b: (real, real), a: (real, real), margin: real) {
    && (Measured(b.0, a.0) || Measured(b.1, a.1))
    && BeatsOn(b.0, a.0, margin) && BeatsOn(b.1, a.1, margin)
  }

  /** Better by the margin: some measure has data, and on each that the other has, at least so many
      times as much. */
  lemma BeatsIff(b: (real, real), a: (real, real), margin: real)
    ensures Beats(b, a, margin) <==>
      && (b.0 > 0.0 || a.0 > 0.0 || b.1 > 0.0 || a.1 > 0.0)
      && (a.0 > 0.0 ==> b.0 >= margin * a.0) && (a.1 > 0.0 ==> b.1 >= margin * a.1)
  {
    hide BeatsOn;
    BeatsOnIff(b.0, a.0, margin);
    BeatsOnIff(b.1, a.1, margin);
  }

  lemma BeatsOnIff(b: real, a: real, margin: real)
    ensures BeatsOn(b, a, margin) <==> (a > 0.0 ==> b >= margin * a)
  {
    if a > 0.0 {
      var r := b / a;
      assert r * a == b;
      if r >= margin {
        MulLessEq(margin, r, a);
      } else {
        MulLess(r, margin, a);
      }
    }
  }

  datatype Ratio = Finite(r: real) | Infinite

  predicate AtLeast(x: Ratio, margin: real) { x.Infinite? || x.r >= margin }

  predicate RatioLess(x: Ratio, y: Ratio) { x.Finite? && (y.Infinite? || x.r < y.r) }

  method BeatsOnLiquidity(b: (real, real), a: (real, real), margin: real) returns (beats: bool)
    ensures beats == Beats(b, a, margin)
  {
    var bs, measures := [b.0, b.1], [a.0, a.1];
    var ratios: seq<Ratio> := [];
    for i := 0 to 2
      invariant (forall r :: r in ratios ==> AtLeast(r, margin))
        <==> forall j :: 0 <= j < i ==> BeatsOn(bs[j], measures[j], margin)
      invariant ratios != [] <==> exists j :: 0 <= j < i && Measured(bs[j], measures[j])
    {
      var vb, va := bs[i], measures[i];
      if va > 0.0 {
        ratios := ratios + [Finite(vb / va)];
        assert ratios[|ratios| - 1] in ratios;
      } else if vb > 0.0 {
        ratios := ratios + [Infinite];
      }
      assert Measured(vb, va) ==> Measured(bs[i], measures[i]);
    }
    assert bs[0] == b.0 && bs[1] == b.1 && measures[0] == a.0 && measures[1] == a.1;
    if ratios == [] {
      return false;
    }
    var least := ratios[0];
    for i := 1 to |ratios|
      invariant least in ratios
      invariant forall j :: 0 <= j < i ==> !RatioLess(ratios[j], least)
    {
      if RatioLess(ratios[i], least) {
        least := ratios[i];
      }
    }
    beats := AtLeast(least, margin);
  }

  predicate IsNearest(pool: seq<Instrument>, level: real, i: Instrument) {
    i in pool && forall j :: j in pool ==> Abs(i.strike - level) <= Abs(j.strike - level)
  }

  /** No strike before it is as near. */
  predicate IsFirstNearest(pool: seq<Instrument>, level: real, k: int)
    requires 0 <= k < |pool|
  {
    forall j :: 0 <= j < k ==> Abs(pool[k].strike - level) < Abs(pool[j].strike - level)
  }

  /** The first instrument whose strike is nearest to a level. */
  function Nearest(pool: seq<Instrument>, level: real): (i: Instrument)
    requires pool != []
    ensures IsNearest(pool, level, i)
  {
    if |pool| == 1 then pool[0]
    else
      var rest := Nearest(pool[1..], level);
      assert pool == [pool[0]] + pool[1..];
      if Abs(pool[0].strike - level) <= Abs(rest.strike - level) then pool[0] else rest
  }

  lemma NearestSteps(pool: seq<Instrument>, level: real)
    requires pool != []
    ensures |pool| == 1 ==> Nearest(pool, level) == pool[0]
    ensures |pool| > 1 ==>
      var rest := Nearest(pool[1..], level);
      Nearest(pool, level) == if Abs(pool[0].strike - level) <= Abs(rest.strike - level) then pool[0] else rest
  {
  }

  /** Of strikes as near, the first in the pool is taken. */
  lemma {:induction false} NearestIsFirst(pool: seq<Instrument>, level: real) returns (k: nat)
    requires pool != []
    ensures k < |pool| && pool[k] == Nearest(pool, level) && IsFirstNearest(pool, level, k)
  {
    NearestSteps(pool, level);
    hide Abs, Nearest, IsNearest, IsFirstNearest;
    k := 0;
    var rest := if |pool| > 1 then Nearest(pool[1..], level) else pool[0];
    if |pool| > 1 && Abs(pool[0].strike - level) > Abs(rest.strike - level) {
      var m := NearestIsFirst(pool[1..], level);
      k := m + 1;
      FirstAfter(pool, level, m);
    } else {
      NothingBefore(pool, level);
    }
  }

  lemma NothingBefore(pool: seq<Instrument>, level: real)
    requires pool != []
    ensures IsFirstNearest(pool, level, 0)
  {
  }

  lemma FirstAfter(pool: seq<Instrument>, level: real, m: nat)
    requires m + 1 < |pool| && IsFirstNearest(pool[1..], level, m)
    requires Abs(pool[0].strike - level) > Abs(pool[1..][m].strike - level)
    ensures IsFirstNearest(pool, level, m + 1) && pool[m + 1] == pool[1..][m]
  {
    hide Abs;
    forall j | 0 <= j < m + 1 ensures Abs(pool[m + 1].strike - level) < Abs(pool[j].strike - level) {
      assert j > 0 ==> pool[1..][j - 1] == pool[j];
    }
  }

  predicate ClearsFloor(i: Instrument, spot: real, kind: OptionType, floor: real) {
    Abs(EstimateDelta(spot, i.strike, kind)) >= floor
  }

  /** The strike one ATR out, and the strike at the target when there is one. */
  function AtrStrike(otm: seq<Instrument>, spot: real, kind: OptionType, atr: real): Instrument
    requires otm != []
  {
    Nearest(otm, if kind.CE? then spot + atr else spot - atr)
  }

  function TargetStrike(otm: seq<Instrument>, target: Option<real>): Option<Instrument>
    requires otm != []
  {
    if target.Some? && target.value != 0.0 then Some(Nearest(otm, target.value)) else None
  }

  function StrikeCandidates(otm: seq<Instrument>, spot: real, kind: OptionType, atr: real, target: Option<real>,
                            liquidity: Liquidity, floor: real, margin: real): (picks: seq<Instrument>)
    ensures forall i :: i in picks ==> i in otm
  {
    if otm == [] || spot <= 0.0 || atr <= 0.0 then []
    else
      var a, b := AtrStrike(otm, spot, kind, atr), TargetStrike(otm, target);
      if b.Some? && b.value.code == a.code then [a]
      else
        var aLive, bLive := ClearsFloor(a, spot, kind, floor), b.Some? && ClearsFloor(b.value, spot, kind, floor);
        if aLive && bLive then
          if Beats(LiquidityOf(liquidity, b.value), LiquidityOf(liquidity, a), margin) then [b.value, a]
          else [a, b.value]
        else if aLive then [a]
        else if bLive then [b.value]
        else []
  }

  /** Where one ATR takes a call up and a put down. */
  function OneAtrOut(spot: real, kind: OptionType, atr: real): real {
    match kind case CE => spot + atr case PE => spot - atr
  }

  /** Which strikes are preferred, and in what order: only the two candidates, the strikes nearest to one
      ATR out and to the target; each clears the delta
      floor unless one strike serves both, which is not asked to; and of two that clear it, the one
      at the target comes first exactly when it beats the nearer one on every liquidity measure. */
  lemma CandidatesAreChosenRightly(otm: seq<Instrument>, spot: real, kind: OptionType, atr: real, target: Option<real>,
                                   liquidity: Liquidity, floor: real, margin: real)
    requires otm != [] && spot > 0.0 && atr > 0.0
    ensures var picks := StrikeCandidates(otm, spot, kind, atr, target, liquidity, floor, margin);
      var a, b := AtrStrike(otm, spot, kind, atr), TargetStrike(otm, target);
      var shared := b.Some? && b.value.code == a.code;
      && IsNearest(otm, OneAtrOut(spot, kind, atr), a)
      && (b.Some? <==> target.Some? && target.value != 0.0)
      && (b.Some? ==> IsNearest(otm, target.value, b.value))
      && (forall i :: i in picks ==> (i == a || Some(i) == b) && (shared || ClearsFloor(i, spot, kind, floor)))
      && (a in picks <==> shared || ClearsFloor(a, spot, kind, floor))
      && (!shared && b.Some? && ClearsFloor(b.value, spot, kind, floor) ==> b.value in picks)
      && (!shared && |picks| == 2 ==>
            (picks[0] == b.value <==> Beats(LiquidityOf(liquidity, b.value), LiquidityOf(liquidity, a), margin)))
      && (forall i, j :: 0 <= i < j < |picks| ==> picks[i].code != picks[j].code)
  {
    hide EstimateDelta, BeatsOn;
  }

  /** Nothing is preferred without strikes, a spot or an ATR. */
  lemma NothingPreferred(otm: seq<Instrument>, spot: real, kind: OptionType, atr: real, target: Option<real>,
                         liquidity: Liquidity, floor: real, margin: real)
    requires otm == [] || spot <= 0.0 || atr <= 0.0
    ensures StrikeCandidates(otm, spot, kind, atr, target, liquidity, floor, margin) == []
  {
  }

  /** When the preferred strikes clear the delta floor: always, unless one strike serves both
      candidates, of which the floor is never asked; then exactly when that strike happens to. */
  lemma PicksClearFloorIff(otm: seq<Instrument>, spot: real, kind: OptionType, atr: real, target: Option<real>,
                           liquidity: Liquidity, floor: real, margin: real)
    requires otm != [] && spot > 0.0 && atr > 0.0
    ensures var picks := StrikeCandidates(otm, spot, kind, atr, target, liquidity, floor, margin);
      var a, b := AtrStrike(otm, spot, kind, atr), TargetStrike(otm, target);
      (forall i :: i in picks ==> ClearsFloor(i, spot, kind, floor))
      <==> !(b.Some? && b.value.code == a.code) || ClearsFloor(a, spot, kind, floor)
  {
    hide ClearsFloor, Beats;
    var picks := StrikeCandidates(otm, spot, kind, atr, target, liquidity, floor, margin);
    var a, b := AtrStrike(otm, spot, kind, atr), TargetStrike(otm, target);
    if b.Some? && b.value.code == a.code {
      assert picks == [a] && a in picks;
    }
  }

  /** A chain whose only strike is far out: it serves both candidates, so it is preferred, and reported
      as the anchor, on a delta of 0.15 against a floor of 0.20. */
  lemma SharedStrikeSkipsFloor()
    ensures var far := Instrument("130CE", 130.0, CE);
      var m := Market(100.0, Some(105.0), CE, 1.0, Some(map[]));
      && StrikeCandidates([far], 100.0, CE, 1.0, Some(105.0), map[], DEFAULT_POLICY.minDelta, DEFAULT_POLICY.oiMargin)
           == [far]
      && Ordering(Pool([far], CE, 100.0), m, DEFAULT_POLICY) == ([far], 130.0)
      && !ClearsFloor(far, 100.0, CE, DEFAULT_POLICY.minDelta)
  {
    var far := Instrument("130CE", 130.0, CE);
    assert [far][1..] == [];
    assert Filter(OfKind(CE), [far]) == [far];
    assert Filter(OutOfTheMoney(CE, 100.0), [far]) == [far];
    assert Filter(NotAmong([far]), [far]) == [] by { assert far in [far]; }
    assert (130.0 - 100.0) / 100.0 == 0.3;
  }

  // ---- the rest, by liquidity -----------------------------------------------------------------

  function Measure(l: Liquidity, which: bool, i: Instrument): real {
    if which then LiquidityOf(l, i).0 else LiquidityOf(l, i).1
  }

  /** How many different values of the measure among the candidates are larger. */
  function Rank(candidates: seq<Instrument>, l: Liquidity, which: bool, i: Instrument): nat {
    |set j | j in candidates && Measure(l, which, j) > Measure(l, which, i) :: Measure(l, which, j)|
  }

  function CombinedRank(candidates: seq<Instrument>, l: Liquidity, i: Instrument): nat {
    Rank(candidates, l, true, i) + Rank(candidates, l, false, i)
  }

  function Better(candidates: seq<Instrument>, l: Liquidity, anchor: real): (Instrument, Instrument) -> bool {
    (x: Instrument, y: Instrument) =>
      CombinedRank(candidates, l, x) < CombinedRank(candidates, l, y)
      || (CombinedRank(candidates, l, x) == CombinedRank(candidates, l, y)
          && Abs(x.strike - anchor) <= Abs(y.strike - anchor))
  }

  function RankByLiquidity(candidates: seq<Instrument>, l: Liquidity, anchor: real): seq<Instrument> {
    Sort(Better(candidates, l, anchor), candidates)
  }

  /** A larger measure never ranks worse, and among the candidates it ranks strictly better. */
  lemma RankFollowsMeasure(candidates: seq<Instrument>, l: Liquidity, which: bool, x: Instrument, y: Instrument)
    ensures Measure(l, which, y) <= Measure(l, which, x) ==>
      Rank(candidates, l, which, x) <= Rank(candidates, l, which, y)
    ensures x in candidates && Measure(l, which, y) < Measure(l, which, x) ==>
      Rank(candidates, l, which, x) < Rank(candidates, l, which, y)
  {
    var above := set j | j in candidates && Measure(l, which, j) > Measure(l, which, x) :: Measure(l, which, j);
    var aboveY := set j | j in candidates && Measure(l, which, j) > Measure(l, which, y) :: Measure(l, which, j);
    if Measure(l, which, y) <= Measure(l, which, x) {
      SubsetSize(above, aboveY);
    }
    if x in candidates && Measure(l, which, y) < Measure(l, which, x) {
      SubsetSize(above + {Measure(l, which, x)}, aboveY);
    }
  }

  /** A strike that is at least as good on both measures and better on one comes earlier, however far
      it stands from the anchor; two alike on both are ordered by their distance from it. */
  lemma DominanceRanks(candidates: seq<Instrument>, l: Liquidity, anchor: real, i: nat, j: nat)
    requires i < j < |RankByLiquidity(candidates, l, anchor)|
    ensures var x, y := RankByLiquidity(candidates, l, anchor)[i], RankByLiquidity(candidates, l, anchor)[j];
      && !(LiquidityOf(l, x).0 <= LiquidityOf(l, y).0 && LiquidityOf(l, x).1 <= LiquidityOf(l, y).1
           && LiquidityOf(l, x) != LiquidityOf(l, y))
      && (LiquidityOf(l, x) == LiquidityOf(l, y) ==> Abs(x.strike - anchor) <= Abs(y.strike - anchor))
  {
    hide Rank, Sort, LiquidityOf, Abs;
    var ranked := RankByLiquidity(candidates, l, anchor);
    var x, y := ranked[i], ranked[j];
    SortSorted(Better(candidates, l, anchor), candidates);
    SortElements(Better(candidates, l, anchor), candidates);
    assert Better(candidates, l, anchor)(x, y);
    assert y in ranked && x in ranked;
    assert y in candidates && x in candidates;
    assert CombinedRank(candidates, l, x) <= CombinedRank(candidates, l, y);
    RankFollowsMeasure(candidates, l, true, y, x);
    RankFollowsMeasure(candidates, l, false, y, x);
    RankFollowsMeasure(candidates, l, true, x, y);
    RankFollowsMeasure(candidates, l, false, x, y);
  }

  // ---- the pool -------------------------------------------------------------------------------

  function OfKind(kind: OptionType): Instrument -> bool { (i: Instrument) => i.kind == kind && i.strike > 0.0 }

  function OutOfTheMoney(kind: OptionType, spot: real): Instrument -> bool {
    (i: Instrument) => if kind.CE? then i.strike > spot else i.strike < spot
  }

  /** The strikes that may be traded: those out of the money, or all of the kind when none is. */
  function Pool(chain: seq<Instrument>, kind: OptionType, spot: real): seq<Instrument> {
    var candidates := Filter(OfKind(kind), chain);
    var otm := Filter(OutOfTheMoney(kind, spot), candidates);
    if otm != [] then otm else candidates
  }

  function NotAmong(picks: seq<Instrument>): Instrument -> bool {
    (i: Instrument) => forall p :: p in picks ==> p.code != i.code
  }

  function Closer(anchor: real): (Instrument, Instrument) -> bool {
    (x: Instrument, y: Instrument) => Abs(x.strike - anchor) <= Abs(y.strike - anchor)
  }

  datatype Market = Market(spot: real, target: Option<real>, kind: OptionType, atr: real, liquidity: Option<Liquidity>)

  /** The pool in the order it is tried, and the anchor reported. */
  function Ordering(pool: seq<Instrument>, m: Market, pol: Policy): (seq<Instrument>, real) {
    var anchor := Anchor(m.spot, m.target, m.kind);
    if m.liquidity.Some? && m.atr > 0.0 then
      var l := m.liquidity.value;
      var picks := StrikeCandidates(pool, m.spot, m.kind, m.atr, m.target, l, pol.minDelta, pol.oiMargin);
      var rest := RankByLiquidity(Filter(NotAmong(picks), pool), l, anchor);
      (picks + rest, if picks != [] then picks[0].strike else anchor)
    else (Sort(Closer(anchor), pool), anchor)
  }

  predicate UniqueCodes(s: seq<Instrument>) { forall i, j :: 0 <= i < j < |s| ==> s[i].code != s[j].code }

  lemma {:induction false} UniqueCounts(s: seq<Instrument>, x: Instrument)
    requires UniqueCodes(s)
    ensures multiset(s)[x] == if x in s then 1 else 0
  {
    if s != [] {
      assert s == [s[0]] + s[1..];
      UniqueCounts(s[1..], x);
    }
  }

  lemma {:induction false} FilterUnique(keep: Instrument -> bool, s: seq<Instrument>)
    requires UniqueCodes(s)
    ensures UniqueCodes(Filter(keep, s))
  {
    if s != [] {
      FilterUnique(keep, s[1..]);
      FilterElements(keep, s[1..]);
      forall x | x in Filter(keep, s[1..]) ensures x.code != s[0].code {
        assert x in s[1..];
      }
    }
  }

  lemma SameCodeSame(s: seq<Instrument>, x: Instrument, y: Instrument)
    requires UniqueCodes(s) && x in s && y in s && x.code == y.code
    ensures x == y
  {
  }

  /** Preferred strikes first, then the rest: together exactly the pool, each strike once. */
  lemma OrderingPermutesPool(pool: seq<Instrument>, m: Market, pol: Policy)
    requires UniqueCodes(pool)
    ensures multiset(Ordering(pool, m, pol).0) == multiset(pool)
  {
    hide StrikeCandidates, Better, Sort, Filter, UniqueCodes, EstimateDelta;
    var anchor := Anchor(m.spot, m.target, m.kind);
    if m.liquidity.Some? && m.atr > 0.0 {
      var l := m.liquidity.value;
      var picks := StrikeCandidates(pool, m.spot, m.kind, m.atr, m.target, l, pol.minDelta, pol.oiMargin);
      var others := Filter(NotAmong(picks), pool);
      SortPermutes(Better(others, l, anchor), others);
      PicksUnique(pool, m, pol, l);
      forall x: Instrument ensures multiset(picks)[x] + multiset(others)[x] == multiset(pool)[x] {
        PickOrOther(pool, picks, x);
      }
      assert multiset(picks + RankByLiquidity(others, l, anchor)) == multiset(picks) + multiset(others);
    } else {
      SortPermutes(Closer(anchor), pool);
    }
  }

  lemma PicksUnique(pool: seq<Instrument>, m: Market, pol: Policy, l: Liquidity)
    ensures UniqueCodes(StrikeCandidates(pool, m.spot, m.kind, m.atr, m.target, l, pol.minDelta, pol.oiMargin))
  {
    hide EstimateDelta, BeatsOn;
  }

  lemma PickOrOther(pool: seq<Instrument>, picks: seq<Instrument>, x: Instrument)
    requires UniqueCodes(pool) && UniqueCodes(picks) && forall i :: i in picks ==> i in pool
    ensures multiset(picks)[x] + multiset(Filter(NotAmong(picks), pool))[x] == multiset(pool)[x]
  {
    hide Filter;
    FilterCounts(NotAmong(picks), pool, x);
    UniqueCounts(pool, x);
    UniqueCounts(picks, x);
    if x in pool && x !in picks && !NotAmong(picks)(x) {
      var p :| p in picks && p.code == x.code;
      SameCodeSame(pool, p, x);
    }
  }

  // ---- the choice -----------------------------------------------------------------------------

  /** Quoted, fresh, in the premium band, two-sided and tight. */
  predicate Tradeable(i: Instrument, quotes: map<string, Quote>, now: real, pol: Policy) {
    i.code in quotes &&
    var q := quotes[i.code];
    && now - q.ts <= pol.maxAge
    && pol.minPremium <= Mid(q) && (pol.maxPremium.Some? ==> Mid(q) <= pol.maxPremium.value)
    && SpreadPct(q).Some? && SpreadPct(q).value <= pol.maxSpreadPct
  }

  /** The same on the quote's own numbers: two-sided, fresh, its middle within the band, and its spread
      within so many percent of it. */
  predicate GoodQuote(q: Quote, now: real, pol: Policy) {
    && now <= q.ts + pol.maxAge && q.bid > 0.0 && q.ask > 0.0
    && 2.0 * pol.minPremium <= q.bid + q.ask
    && (pol.maxPremium.Some? ==> q.bid + q.ask <= 2.0 * pol.maxPremium.value)
    && 200.0 * (q.ask - q.bid) <= pol.maxSpreadPct * (q.bid + q.ask)
  }

  lemma SpreadScales(q: Quote, most: real)
    requires q.bid > 0.0 && q.ask > 0.0
    ensures SpreadPct(q).Some? && SpreadPct(q).value * (q.bid + q.ask) == 200.0 * (q.ask - q.bid)
    ensures SpreadPct(q).value <= most <==> 200.0 * (q.ask - q.bid) <= most * (q.bid + q.ask)
  {
    var sum := q.bid + q.ask;
    var x := SpreadPct(q).value;
    SpreadOfMid(q.ask - q.bid, sum / 2.0, x);
    assert x * sum == 2.0 * (x * (sum / 2.0));
    if x <= most {
      MulLessEq(x, most, sum);
    } else {
      MulLess(most, x, sum);
    }
  }

  lemma SpreadOfMid(gap: real, mid: real, x: real)
    requires mid > 0.0 && x == gap / mid * 100.0
    ensures x * mid == gap * 100.0
  {
    assert gap / mid * mid == gap;
  }

  lemma TradeableIff(i: Instrument, quotes: map<string, Quote>, now: real, pol: Policy)
    ensures Tradeable(i, quotes, now, pol) <==> i.code in quotes && GoodQuote(quotes[i.code], now, pol)
    ensures Tradeable(i, quotes, now, pol) ==>
      var q := quotes[i.code];
      2.0 * Mid(q) == q.bid + q.ask && SpreadPct(q).value * (q.bid + q.ask) == 200.0 * (q.ask - q.bid)
  {
    hide SpreadPct;
    if i.code in quotes && quotes[i.code].bid > 0.0 && quotes[i.code].ask > 0.0 {
      SpreadScales(quotes[i.code], pol.maxSpreadPct);
    } else if i.code in quotes {
      OneSided(quotes[i.code]);
    }
  }

  lemma OneSided(q: Quote)
    requires q.bid <= 0.0 || q.ask <= 0.0
    ensures SpreadPct(q).None?
  {
  }

  /** The first tradeable strike of an ordered pool. */
  predicate FirstTradeable(order: seq<Instrument>, quotes: map<string, Quote>, now: real, pol: Policy, i: Instrument) {
    exists k :: 0 <= k < |order| && order[k] == i && Tradeable(order[k], quotes, now, pol)
      && forall j :: 0 <= j < k ==> !Tradeable(order[j], quotes, now, pol)
  }

  method SelectOption(chain: seq<Instrument>, quotes: map<string, Quote>, m: Market, now: real, pol: Policy)
    returns (s: Selection)
    ensures var (order, anchor) := Ordering(Pool(chain, m.kind, m.spot), m, pol);
      && (s.instrument.Some? ==>
            && FirstTradeable(order, quotes, now, pol, s.instrument.value) && s.anchor == anchor
            && s.instrument.value.code in quotes && s.spreadPct.Some?
            && var q := quotes[s.instrument.value.code];
               && GoodQuote(q, now, pol) && 2.0 * s.premium == q.bid + q.ask
               && s.spreadPct.value * (q.bid + q.ask) == 200.0 * (q.ask - q.bid))
      && (s.instrument.None? ==> forall i :: i in order ==> !Tradeable(i, quotes, now, pol))
  {
    hide Ordering, Filter, Mid, SpreadPct, GoodQuote;
    var pool := Pool(chain, m.kind, m.spot);
    var (order, anchor) := Ordering(pool, m, pol);
    for k := 0 to |order|
      invariant forall j :: 0 <= j < k ==> !Tradeable(order[j], quotes, now, pol)
    {
      var inst := order[k];
      if inst.code !in quotes {
        continue;
      }
      var q := quotes[inst.code];
      if now - q.ts > pol.maxAge {
        continue;
      }
      var premium := Mid(q);
      if premium < pol.minPremium || (pol.maxPremium.Some? && premium > pol.maxPremium.value) {
        continue;
      }
      var spread := SpreadPct(q);
      if spread.None? || spread.value > pol.maxSpreadPct {
        continue;
      }
      assert Tradeable(order[k], quotes, now, pol);
      TradeableIff(inst, quotes, now, pol);
      return Selection(Some(inst), premium, anchor, spread);
    }
    s := Selection(None, 0.0, anchor, None);
  }

  /** Selection is complete: with unique codes, none is chosen exactly when no strike of the pool is
      tradeable, and otherwise the choice is in the pool and nothing tried before it was tradeable. */
  lemma SelectionIsComplete(chain: seq<Instrument>, quotes: map<string, Quote>, m: Market, now: real, pol: Policy)
    requires UniqueCodes(chain)
    ensures var pool := Pool(chain, m.kind, m.spot);
      var order := Ordering(pool, m, pol).0;
      && UniqueCodes(pool) && multiset(order) == multiset(pool)
      && ((exists i :: FirstTradeable(order, quotes, now, pol, i)) <==>
            exists i :: i in pool && Tradeable(i, quotes, now, pol))
      && (forall i :: FirstTradeable(order, quotes, now, pol, i) ==> i in pool && Tradeable(i, quotes, now, pol))
  {
    hide Ordering, Tradeable, Filter;
    var pool := Pool(chain, m.kind, m.spot);
    FilterUnique(OfKind(m.kind), chain);
    FilterUnique(OutOfTheMoney(m.kind, m.spot), Filter(OfKind(m.kind), chain));
    OrderingPermutesPool(pool, m, pol);
    var order := Ordering(pool, m, pol).0;
    forall i ensures i in order <==> i in pool {
      assert i in multiset(order) <==> i in multiset(pool);
    }
    if i :| i in pool && Tradeable(i, quotes, now, pol) {
      SomeFirst(order, quotes, now, pol, i);
    }
  }

  lemma SomeFirst(order: seq<Instrument>, quotes: map<string, Quote>, now: real, pol: Policy, i: Instrument)
    requires i in order && Tradeable(i, quotes, now, pol)
    ensures exists f :: FirstTradeable(order, quotes, now, pol, f)
  {
    hide Tradeable;
    var k := 0;
    while !Tradeable(order[k], quotes, now, pol)
      invariant 0 <= k < |order|
      invariant forall j :: 0 <= j < k ==> !Tradeable(order[j], quotes, now, pol)
      invariant i in order[k..]
      decreases |order| - k
    {
      k := k + 1;
    }
    assert FirstTradeable(order, quotes, now, pol, order[k]);
  }

  // ---- sizing ---------------------------------------------------------------------------------

  /** Lots that fit the budget, as a quantity; shares need no lot. */
  function QtyForBudget(equity: bool, lotSize: int, multiplier: int, price: real, budget: real, maxLots: Option<int>):
    int
  {
    if price <= 0.0 || budget <= 0.0 || multiplier <= 0 then 0
    else if equity then MaxInt(0, (budget / Worth(price, 1, multiplier)).Floor)
    else
      var perLot := Worth(price, lotSize, multiplier);
      if perLot <= 0.0 then 0
      else
        var fit := (budget / perLot).Floor;
        var lots := if maxLots.Some? then MinInt(fit, maxLots.value) else fit;
        if lots >= 1 then lots * lotSize else 0
  }

  function Worth(price: real, lotSize: int, multiplier: int): real { price * lotSize as real * multiplier as real }

  /** The most whole lots the budget pays for: what is bought costs no more than the budget, and one
      lot more would cost more, unless the limit on lots is what stopped it. */
  lemma BudgetBuysTheMost(equity: bool, lotSize: int, multiplier: int, price: real, budget: real, maxLots: Option<int>)
    returns (lots: nat)
    requires price > 0.0 && budget > 0.0 && multiplier > 0 && lotSize > 0 && (equity ==> lotSize == 1)
    ensures QtyForBudget(equity, lotSize, multiplier, price, budget, maxLots) == lots * lotSize
    ensures LotsCost(lots, price, lotSize, multiplier) <= budget
    ensures LotsCost(lots + 1, price, lotSize, multiplier) > budget
      || (!equity && maxLots.Some? && lots == MaxInt(0, maxLots.value))
  {
    hide Worth;
    var perLot := Worth(price, lotSize, multiplier);
    assert perLot == price * lotSize as real * multiplier as real by { WorthIs(price, lotSize, multiplier); }
    assert perLot > 0.0 by { WorthPositive(price, lotSize, multiplier); }
    var fit := (budget / perLot).Floor;
    FloorFits(budget, perLot, fit);
    lots := MaxInt(0, if !equity && maxLots.Some? then MinInt(fit, maxLots.value) else fit);
    MulLessEq(lots as real, fit as real, perLot);
  }

  function LotsCost(lots: nat, price: real, lotSize: int, multiplier: int): real {
    lots as real * (price * lotSize as real * multiplier as real)
  }

  lemma WorthIs(price: real, lotSize: int, multiplier: int)
    ensures Worth(price, lotSize, multiplier) == price * lotSize as real * multiplier as real
  {
  }

  lemma WorthPositive(price: real, lotSize: int, multiplier: int)
    requires price > 0.0 && lotSize > 0 && multiplier > 0
    ensures Worth(price, lotSize, multiplier) > 0.0
  {
  }

  lemma FloorFits(budget: real, perLot: real, fit: int)
    requires perLot > 0.0 && budget > 0.0 && fit == (budget / perLot).Floor
    ensures 0 <= fit && fit as real * perLot <= budget < (fit + 1) as real * perLot
  {
    var q, high := budget / perLot, (fit + 1) as real;
    MulLessEq(fit as real, q, perLot);
    calc {
      budget;
      q * perLot;
    < { MulLess(q, high, perLot); }
      high * perLot;
    }
  }
}
