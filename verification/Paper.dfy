/** Paper fills: the greedy walk of the order book and what makes it the right one. One side of the
    book is judged by signed price, so that lower is better for a buyer and a seller alike. */
module Paper {
  import opened Wrappers

  datatype Level = Level(price: real, size: int)

  datatype Walk = Walk(avgPrice: real, filled: int, levels: nat, capped: bool)

  function Signed(buy: bool, x: real): real { if buy then x else -x }

  function Ceiling(touch: real, ceilingPct: real, buy: bool): real {
    if buy then touch * (1.0 + ceilingPct / 100.0) else touch * (1.0 - ceilingPct / 100.0)
  }

  /** A level is within the ceiling exactly when it is at most so many percent worse than the touch. */
  lemma WithinCeilingIff(l: Level, touch: real, ceilingPct: real, buy: bool)
    ensures !Beyond(l, Ceiling(touch, ceilingPct, buy), buy) <==>
      100.0 * (if buy then l.price - touch else touch - l.price) <= touch * ceilingPct
  {
  }

  /** A price for so many units. */
  function Times(p: real, n: int): real { p * n as real }

  predicate Beyond(l: Level, limit: real, buy: bool) { Signed(buy, limit) < Signed(buy, l.price) }

  function Size(l: Level): nat { MaxInt(0, l.size) }

  // ---- allocations ----------------------------------------------------------------------------

  /** How many units each level gives. */
  type Allocation = seq<nat>

  function Total(a: Allocation): nat { if a == [] then 0 else a[0] + Total(a[1..]) }

  function Cost(levels: seq<Level>, a: Allocation): real
    requires |a| == |levels|
  {
    if levels == [] then 0.0 else Times(levels[0].price, a[0]) + Cost(levels[1..], a[1..])
  }

  function Used(a: Allocation): nat { if a == [] then 0 else (if a[0] > 0 then 1 else 0) + Used(a[1..]) }

  predicate Fits(levels: seq<Level>, a: Allocation) {
    |a| == |levels| && forall i :: 0 <= i < |a| ==> a[i] <= Size(levels[i])
  }

  function Nothing(n: nat): (a: Allocation)
    ensures |a| == n && forall i :: 0 <= i < n ==> a[i] == 0
  {
    if n == 0 then [] else [0] + Nothing(n - 1)
  }

  /** What the walk takes of each level: all it can, nearest first, stopping at the ceiling. */
  function Takes(levels: seq<Level>, need: int, limit: real, buy: bool): (a: Allocation)
    ensures |a| == |levels|
  {
    if levels == [] then []
    else if need <= 0 || Beyond(levels[0], limit, buy) then Nothing(|levels|)
    else
      var t: nat := MinInt(Size(levels[0]), need);
      [t] + Takes(levels[1..], need - t, limit, buy)
  }

  /** The walk stopped at a level past the ceiling, still wanting units. */
  function Capped(levels: seq<Level>, need: int, limit: real, buy: bool): bool {
    levels != [] && need > 0
    && (Beyond(levels[0], limit, buy) || Capped(levels[1..], need - MinInt(Size(levels[0]), need), limit, buy))
  }

  lemma {:induction false} NothingCosts(levels: seq<Level>)
    ensures Total(Nothing(|levels|)) == 0 && Used(Nothing(|levels|)) == 0
    ensures Cost(levels, Nothing(|levels|)) == 0.0
  {
    if levels != [] {
      NothingCosts(levels[1..]);
      assert Nothing(|levels|)[1..] == Nothing(|levels| - 1);
    }
  }

  // ---- arithmetic of prices -------------------------------------------------------------------

  lemma TimesAdd(p: real, m: int, n: int)
    ensures Times(p, m + n) == Times(p, m) + Times(p, n)
    ensures Times(p, 0) == 0.0
  {
  }

  lemma TimesMonotone(p: real, q: real, n: nat)
    requires p <= q
    ensures Times(p, n) <= Times(q, n)
  {
    MulLessEq(p, q, n as real);
  }

  lemma SignedLinear(buy: bool, p: real, n: int, x: real, y: real)
    ensures Signed(buy, Times(p, n)) == Times(Signed(buy, p), n)
    ensures Signed(buy, x + y) == Signed(buy, x) + Signed(buy, y)
    ensures Signed(buy, 0.0) == 0.0
  {
  }

  lemma SignedCost(levels: seq<Level>, a: Allocation, buy: bool)
    requires |a| == |levels| && levels != []
    ensures Signed(buy, Cost(levels, a)) ==
      Times(Signed(buy, levels[0].price), a[0]) + Signed(buy, Cost(levels[1..], a[1..]))
  {
    hide Times, Signed;
    SignedLinear(buy, levels[0].price, a[0], Times(levels[0].price, a[0]), Cost(levels[1..], a[1..]));
  }

  lemma SignedCostOfNone(levels: seq<Level>, buy: bool)
    ensures levels == [] ==> Signed(buy, Cost(levels, [])) == 0.0
    ensures Signed(buy, Cost(levels, Nothing(|levels|))) == 0.0
  {
    hide Times, Signed;
    NothingCosts(levels);
    SignedLinear(buy, 0.0, 0, 0.0, 0.0);
  }

  // ---- the walk -------------------------------------------------------------------------------

  /** What is left of the walk from here on, added to what it has taken. */
  ghost predicate SoFar(levels: seq<Level>, need: int, limit: real, buy: bool, taken: int, cost: real, used: int,
                        all: seq<Level>, qty: int)
  {
    var rest, takes := Takes(levels, need, limit, buy), Takes(all, qty, limit, buy);
    && taken + Total(rest) == Total(takes)
    && used + Used(rest) == Used(takes)
    && cost + Cost(levels, rest) == Cost(all, takes)
    && Capped(levels, need, limit, buy) == Capped(all, qty, limit, buy)
  }

  lemma WalkStep(levels: seq<Level>, need: int, limit: real, buy: bool, taken: int, cost: real, used: int,
                 all: seq<Level>, qty: int)
    requires levels != [] && need > 0 && !Beyond(levels[0], limit, buy)
    requires SoFar(levels, need, limit, buy, taken, cost, used, all, qty)
    ensures var take := MinInt(levels[0].size, need);
      if take > 0 then
        SoFar(levels[1..], need - take, limit, buy, taken + take, cost + Times(levels[0].price, take), used + 1, all,
              qty)
      else SoFar(levels[1..], need, limit, buy, taken, cost, used, all, qty)
  {
    hide Times;
    TimesAdd(levels[0].price, 0, 0);
    var takes := Takes(levels, need, limit, buy);
    assert takes[1..] == Takes(levels[1..], need - takes[0], limit, buy);
  }

  lemma WalkStops(levels: seq<Level>, need: int, limit: real, buy: bool, taken: int, cost: real, used: int,
                  all: seq<Level>, qty: int)
    requires levels == [] || need <= 0 || Beyond(levels[0], limit, buy)
    requires SoFar(levels, need, limit, buy, taken, cost, used, all, qty)
    ensures var takes := Takes(all, qty, limit, buy);
      && taken == Total(takes) && used == Used(takes) && cost == Cost(all, takes)
      && Capped(all, qty, limit, buy) == (levels != [] && need > 0)
  {
    NothingCosts(levels);
  }

  /** The walk itself: a loop over the levels. */
  method WalkBook(levels: seq<Level>, qty: int, touch: real, ceilingPct: real, buy: bool) returns (w: Walk)
    ensures var limit := Ceiling(touch, ceilingPct, buy);
      var takes := Takes(levels, qty, limit, buy);
      && w.filled == Total(takes) && w.levels == Used(takes)
      && w.avgPrice == (if Total(takes) > 0 then Average(levels, takes) else 0.0)
      && w.capped == Capped(levels, qty, limit, buy)
  {
    hide SoFar, Takes, Total, Used, Cost, Capped, Times;
    var limit := Ceiling(touch, ceilingPct, buy);
    var taken, cost, used, capped := 0, 0.0, 0, false;
    var i := 0;
    assert levels[0..] == levels;
    assert SoFar(levels, qty, limit, buy, 0, 0.0, 0, levels, qty) by { WalkStarts(levels, qty, limit, buy); }
    while i < |levels| && !capped && taken < qty
      invariant 0 <= i <= |levels|
      invariant SoFar(levels[i..], qty - taken, limit, buy, taken, cost, used, levels, qty)
      invariant capped ==> i < |levels| && taken < qty && Beyond(levels[i], limit, buy)
      decreases |levels| - i, if capped then 0 else 1
    {
      var l := levels[i];
      if Beyond(l, limit, buy) {
        capped := true;
      } else {
        WalkStep(levels[i..], qty - taken, limit, buy, taken, cost, used, levels, qty);
        assert levels[i..][1..] == levels[i + 1..];
        var take := MinInt(l.size, qty - taken);
        i := i + 1;
        if take > 0 {
          taken, cost, used := taken + take, cost + Times(l.price, take), used + 1;
        }
      }
    }
    WalkStops(levels[i..], qty - taken, limit, buy, taken, cost, used, levels, qty);
    w := Walk(if taken > 0 then cost / taken as real else 0.0, taken, used, capped);
  }

  lemma WalkStarts(levels: seq<Level>, qty: int, limit: real, buy: bool)
    ensures SoFar(levels, qty, limit, buy, 0, 0.0, 0, levels, qty)
  {
  }

  // ---- how much is filled ---------------------------------------------------------------------

  /** Nearest level first. */
  predicate Ordered(levels: seq<Level>, buy: bool) {
    forall i, j :: 0 <= i < j < |levels| ==> Signed(buy, levels[i].price) <= Signed(buy, levels[j].price)
  }

  /** Everything on offer within the ceiling, wherever it stands in the book. */
  function SizeWithin(levels: seq<Level>, limit: real, buy: bool): nat {
    if levels == [] then 0
    else (if Beyond(levels[0], limit, buy) then 0 else Size(levels[0])) + SizeWithin(levels[1..], limit, buy)
  }

  lemma {:induction false} NoneWithin(levels: seq<Level>, limit: real, buy: bool)
    requires forall i :: 0 <= i < |levels| ==> Beyond(levels[i], limit, buy)
    ensures SizeWithin(levels, limit, buy) == 0
  {
    if levels != [] {
      NoneWithin(levels[1..], limit, buy);
    }
  }

  /** The walk fills the smaller of what is wanted and what is within the ceiling, within each level. */
  lemma {:induction false} FillsWhatIsThere(levels: seq<Level>, qty: int, limit: real, buy: bool)
    requires Ordered(levels, buy)
    ensures Total(Takes(levels, qty, limit, buy)) == MinInt(MaxInt(0, qty), SizeWithin(levels, limit, buy))
    ensures Fits(levels, Takes(levels, qty, limit, buy))
  {
    if levels != [] {
      NothingCosts(levels);
      if Beyond(levels[0], limit, buy) {
        forall i | 0 <= i < |levels| ensures Beyond(levels[i], limit, buy) {
          assert Signed(buy, levels[0].price) <= Signed(buy, levels[i].price);
        }
        NoneWithin(levels, limit, buy);
      } else if qty > 0 {
        var t := MinInt(Size(levels[0]), qty);
        FillsWhatIsThere(levels[1..], qty - t, limit, buy);
      }
    }
  }

  /** On an ordered book the walk reports a cap exactly when it fell short and the book had a level
      past the ceiling. */
  lemma {:induction false} CappedIff(levels: seq<Level>, qty: int, limit: real, buy: bool)
    requires Ordered(levels, buy)
    ensures Capped(levels, qty, limit, buy)
      <==> Total(Takes(levels, qty, limit, buy)) < qty && exists i :: 0 <= i < |levels| && Beyond(levels[i], limit, buy)
  {
    if levels != [] {
      NothingCosts(levels);
      if qty > 0 && !Beyond(levels[0], limit, buy) {
        var t := MinInt(Size(levels[0]), qty);
        CappedIff(levels[1..], qty - t, limit, buy);
        var rest := levels[1..];
        if i :| 0 <= i < |rest| && Beyond(rest[i], limit, buy) {
          assert levels[i + 1] == rest[i];
        }
        if i :| 0 <= i < |levels| && Beyond(levels[i], limit, buy) {
          assert rest[i - 1] == levels[i];
        }
      }
    }
  }

  // ---- the greedy walk is optimal -------------------------------------------------------------

  predicate AllAtLeast(levels: seq<Level>, floor: real, buy: bool) {
    forall i :: 0 <= i < |levels| ==> floor <= Signed(buy, levels[i].price)
  }

  lemma {:induction false} FloorOnCost(levels: seq<Level>, a: Allocation, floor: real, buy: bool)
    requires |a| == |levels| && AllAtLeast(levels, floor, buy)
    ensures Times(floor, Total(a)) <= Signed(buy, Cost(levels, a))
  {
    hide Times, Signed, Cost;
    TimesAdd(floor, 0, 0);
    if levels == [] {
      SignedCostOfNone(levels, buy);
    } else {
      FloorOnCost(levels[1..], a[1..], floor, buy);
      SignedCost(levels, a, buy);
      TimesMonotone(floor, Signed(buy, levels[0].price), a[0]);
      TimesAdd(floor, a[0], Total(a[1..]));
    }
  }

  /** Takes `d` units out of an allocation; each saves at least the cheapest level's price. */
  lemma {:induction false} GiveBack(levels: seq<Level>, a: Allocation, d: nat, floor: real, buy: bool)
    returns (b: Allocation)
    requires Fits(levels, a) && d <= Total(a) && AllAtLeast(levels, floor, buy)
    ensures Fits(levels, b) && Total(b) == Total(a) - d
    ensures Signed(buy, Cost(levels, b)) + Times(floor, d) <= Signed(buy, Cost(levels, a))
  {
    hide Times, Signed, Cost, Size;
    TimesAdd(floor, 0, 0);
    if levels == [] {
      b := [];
      SignedCostOfNone(levels, buy);
    } else {
      var here: nat := MinInt(a[0], d);
      var rest := GiveBack(levels[1..], a[1..], d - here, floor, buy);
      b := [a[0] - here] + rest;
      assert b[1..] == rest;
      var p := Signed(buy, levels[0].price);
      TimesMonotone(floor, p, here);
      TimesAdd(p, a[0] - here, here);
      TimesAdd(floor, here, d - here);
      SignedCost(levels, a, buy);
      SignedCost(levels, b, buy);
    }
  }

  /** Greedy is optimal: no other way to take as many units from the book, past the ceiling or not,
      costs a buyer less or brings a seller more. */
  lemma {:induction false} GreedyIsOptimal(levels: seq<Level>, qty: int, limit: real, buy: bool, a: Allocation)
    requires Ordered(levels, buy) && Fits(levels, a) && Total(a) == Total(Takes(levels, qty, limit, buy))
    ensures Signed(buy, Cost(levels, Takes(levels, qty, limit, buy))) <= Signed(buy, Cost(levels, a))
    decreases |levels|
  {
    hide Times, Signed, Cost, Size, Beyond, Total, Takes, Fits, Ordered;
    var takes := Takes(levels, qty, limit, buy);
    if levels == [] {
      assert takes == a by { FillsWhatIsThere(levels, qty, limit, buy); NoLevels(levels, takes, a); }
    } else if qty <= 0 || Beyond(levels[0], limit, buy) {
      NothingTaken(levels, qty, limit, buy);
      NothingCosts(levels);
      TotalZero(a);
      SameSize(levels, a);
    } else {
      TakesStep(levels, qty, limit, buy);
      var t := takes[0];
      FirstIsMost(levels, a, qty, limit, buy);
      FitsRest(levels, a);
      RestAtLeast(levels, buy);
      TotalSplit(a);
      TotalSplit(takes);
      var p := Signed(buy, levels[0].price);
      var b := GiveBack(levels[1..], a[1..], t - a[0], p, buy);
      GreedyIsOptimal(levels[1..], qty - t, limit, buy, b);
      SignedCost(levels, a, buy);
      SignedCost(levels, takes, buy);
      TimesAdd(p, a[0], t - a[0]);
    }
  }

  lemma NoLevels(levels: seq<Level>, a: Allocation, b: Allocation)
    requires levels == [] && Fits(levels, a) && Fits(levels, b)
    ensures a == b
  {
  }

  lemma SameSize(levels: seq<Level>, a: Allocation)
    requires Fits(levels, a)
    ensures |a| == |levels|
  {
  }

  lemma {:induction false} TakesFit(levels: seq<Level>, need: int, limit: real, buy: bool)
    ensures Fits(levels, Takes(levels, need, limit, buy))
  {
    if levels != [] && need > 0 && !Beyond(levels[0], limit, buy) {
      TakesFit(levels[1..], need - MinInt(Size(levels[0]), need), limit, buy);
    }
  }

  lemma FitsRest(levels: seq<Level>, a: Allocation)
    requires levels != [] && Fits(levels, a)
    ensures |a| == |levels| && Fits(levels[1..], a[1..])
  {
  }

  lemma FirstIsMost(levels: seq<Level>, a: Allocation, qty: int, limit: real, buy: bool)
    requires levels != [] && qty > 0 && !Beyond(levels[0], limit, buy) && Ordered(levels, buy)
    requires Fits(levels, a) && Total(a) == Total(Takes(levels, qty, limit, buy))
    ensures a != [] && a[0] <= Takes(levels, qty, limit, buy)[0]
  {
    FillsWhatIsThere(levels, qty, limit, buy);
  }

  lemma {:induction false} TotalZero(a: Allocation)
    requires Total(a) == 0
    ensures a == Nothing(|a|)
  {
    if a != [] {
      TotalZero(a[1..]);
    }
  }

  // ---- the average price ----------------------------------------------------------------------

  lemma {:induction false} CeilingOnCost(levels: seq<Level>, qty: int, limit: real, buy: bool)
    ensures Signed(buy, Cost(levels, Takes(levels, qty, limit, buy)))
      <= Times(Signed(buy, limit), Total(Takes(levels, qty, limit, buy)))
  {
    hide Times, Signed, Cost, Size;
    var takes, top := Takes(levels, qty, limit, buy), Signed(buy, limit);
    TimesAdd(top, 0, 0);
    NothingCosts(levels);
    SignedCostOfNone(levels, buy);
    if levels != [] && qty > 0 && !Beyond(levels[0], limit, buy) {
      var t := takes[0];
      CeilingOnCost(levels[1..], qty - t, limit, buy);
      assert takes[1..] == Takes(levels[1..], qty - t, limit, buy);
      SignedCost(levels, takes, buy);
      TimesMonotone(Signed(buy, levels[0].price), top, t);
      TimesAdd(top, t, Total(takes[1..]));
    }
  }

  function Average(levels: seq<Level>, a: Allocation): real
    requires |a| == |levels| && Total(a) > 0
  {
    Cost(levels, a) / Total(a) as real
  }

  lemma SignedAverage(buy: bool, cost: real, n: int)
    requires n > 0
    ensures Times(Signed(buy, cost / n as real), n) == Signed(buy, cost)
  {
  }

  lemma TimesCancels(p: real, q: real, n: int)
    requires n > 0 && Times(p, n) <= Times(q, n)
    ensures p <= q
  {
    if q < p {
      MulLess(q, p, n as real);
    }
  }

  /** The average lies between the touch and the ceiling. */
  lemma AverageBetween(levels: seq<Level>, qty: int, limit: real, buy: bool)
    requires Ordered(levels, buy) && Total(Takes(levels, qty, limit, buy)) > 0
    ensures var average := Average(levels, Takes(levels, qty, limit, buy));
      Signed(buy, levels[0].price) <= Signed(buy, average) <= Signed(buy, limit)
  {
    hide Times, Signed, Cost, Takes;
    var takes := Takes(levels, qty, limit, buy);
    var avg := Signed(buy, Average(levels, takes));
    FloorOnCost(levels, takes, Signed(buy, levels[0].price), buy);
    CeilingOnCost(levels, qty, limit, buy);
    SignedAverage(buy, Cost(levels, takes), Total(takes));
    TimesCancels(Signed(buy, levels[0].price), avg, Total(takes));
    TimesCancels(avg, Signed(buy, limit), Total(takes));
  }

  /** A price between what the smaller order paid and what the larger one paid for its extra units. */
  lemma {:induction false} Pivot(levels: seq<Level>, less: int, more: int, limit: real, buy: bool, floor: real)
    returns (m: real)
    requires Ordered(levels, buy) && AllAtLeast(levels, floor, buy) && less <= more
    ensures floor <= m
    ensures var few, many := Takes(levels, less, limit, buy), Takes(levels, more, limit, buy);
      && Total(few) <= Total(many)
      && Signed(buy, Cost(levels, few)) <= Times(m, Total(few))
      && Signed(buy, Cost(levels, few)) + Times(m, Total(many) - Total(few)) <= Signed(buy, Cost(levels, many))
    decreases |levels|
  {
    hide Times, Signed, Cost, Size, Takes, Total, Ordered, AllAtLeast, Beyond;
    var few, many := Takes(levels, less, limit, buy), Takes(levels, more, limit, buy);
    if levels == [] || less <= 0 || Beyond(levels[0], limit, buy) {
      m := floor;
      NothingTaken(levels, less, limit, buy);
      NothingCosts(levels);
      SignedCostOfNone(levels, buy);
      TimesAdd(floor, 0, 0);
      FloorOnCost(levels, many, floor, buy);
    } else {
      var p := Signed(buy, levels[0].price);
      TakesStep(levels, less, limit, buy);
      TakesStep(levels, more, limit, buy);
      RestAtLeast(levels, buy);
      assert floor <= p by { FloorFirst(levels, floor, buy); }
      if less <= Size(levels[0]) {
        m := p;
        NothingTaken(levels[1..], less - few[0], limit, buy);
        PivotHere(levels, few, many, buy);
      } else {
        m := Pivot(levels[1..], less - few[0], more - many[0], limit, buy, p);
        assert few[0] == many[0];
        SignedCost(levels, few, buy);
        SignedCost(levels, many, buy);
        TotalSplit(few);
        TotalSplit(many);
        TimesMonotone(p, m, few[0]);
        TimesAdd(m, few[0], Total(few[1..]));
      }
    }
  }

  lemma FloorFirst(levels: seq<Level>, floor: real, buy: bool)
    requires levels != [] && AllAtLeast(levels, floor, buy)
    ensures floor <= Signed(buy, levels[0].price)
  {
  }

  lemma NothingTaken(levels: seq<Level>, need: int, limit: real, buy: bool)
    requires levels == [] || need <= 0 || Beyond(levels[0], limit, buy)
    ensures Takes(levels, need, limit, buy) == Nothing(|levels|)
  {
  }

  lemma TotalSplit(a: Allocation)
    requires a != []
    ensures Total(a) == a[0] + Total(a[1..])
  {
  }

  lemma TakesStep(levels: seq<Level>, need: int, limit: real, buy: bool)
    requires levels != [] && need > 0 && !Beyond(levels[0], limit, buy)
    ensures var takes := Takes(levels, need, limit, buy);
      takes[0] == MinInt(Size(levels[0]), need) && takes[1..] == Takes(levels[1..], need - takes[0], limit, buy)
  {
  }

  lemma RestAtLeast(levels: seq<Level>, buy: bool)
    requires levels != [] && Ordered(levels, buy)
    ensures AllAtLeast(levels[1..], Signed(buy, levels[0].price), buy) && Ordered(levels[1..], buy)
  {
  }

  lemma ExtraCost(p: real, few: nat, many: nat, rest: nat, extra: int, fewCost: real, manyCost: real, restCost: real)
    requires few <= many && extra == many + rest - few
    requires Times(p, rest) <= restCost && fewCost == Times(p, few) && manyCost == Times(p, many) + restCost
    ensures fewCost + Times(p, extra) <= manyCost
  {
    hide Times;
    TimesAdd(p, few, many - few);
    TimesAdd(p, many - few, rest);
    assert extra == (many - few) + rest;
  }

  lemma FirstOnly(levels: seq<Level>, a: Allocation, buy: bool)
    requires levels != [] && |a| == |levels| && a[1..] == Nothing(|levels[1..]|)
    ensures Total(a) == a[0] && Signed(buy, Cost(levels, a)) == Times(Signed(buy, levels[0].price), a[0])
  {
    hide Signed, Times, Cost, Total;
    NothingCosts(levels[1..]);
    SignedCostOfNone(levels[1..], buy);
    SignedCost(levels, a, buy);
    TotalSplit(a);
  }

  lemma PivotHere(levels: seq<Level>, few: Allocation, many: Allocation, buy: bool)
    requires levels != [] && |few| == |many| == |levels| && Ordered(levels, buy)
    requires few[0] <= many[0] && few[1..] == Nothing(|levels[1..]|)
    ensures var p := Signed(buy, levels[0].price);
      && Total(few) <= Total(many) && Signed(buy, Cost(levels, few)) <= Times(p, Total(few))
      && Signed(buy, Cost(levels, few)) + Times(p, Total(many) - Total(few)) <= Signed(buy, Cost(levels, many))
  {
    hide *;
    var p, rest, ms := Signed(buy, levels[0].price), levels[1..], many[1..];
    var fewCost, manyCost := Signed(buy, Cost(levels, few)), Signed(buy, Cost(levels, many));
    var restCost := Signed(buy, Cost(rest, ms));
    var f, m, r, extra := few[0], many[0], Total(ms), Total(many) - Total(few);
    assert fewCost == Times(p, f) && Total(few) == f by { FirstOnly(levels, few, buy); }
    assert manyCost == Times(p, m) + restCost by { SignedCost(levels, many, buy); }
    assert Total(many) == m + r by { TotalSplit(many); }
    assert Times(p, r) <= restCost by {
      RestAtLeast(levels, buy);
      FloorOnCost(rest, ms, p, buy);
    }
    ExtraCost(p, f, m, r, extra, fewCost, manyCost, restCost);
  }

  /** The average worsens, weakly, with the size of the order. */
  lemma AverageWorsens(levels: seq<Level>, less: int, more: int, limit: real, buy: bool)
    requires Ordered(levels, buy) && less <= more && Total(Takes(levels, less, limit, buy)) > 0
    ensures Total(Takes(levels, more, limit, buy)) > 0
    ensures Signed(buy, Average(levels, Takes(levels, less, limit, buy)))
      <= Signed(buy, Average(levels, Takes(levels, more, limit, buy)))
  {
    hide Times, Signed, Cost, Takes, Total;
    var few, many := Takes(levels, less, limit, buy), Takes(levels, more, limit, buy);
    assert levels != [] by { EmptyBook(levels, less, limit, buy); }
    var m := Pivot(levels, less, more, limit, buy, Signed(buy, levels[0].price));
    var a, b := Signed(buy, Average(levels, few)), Signed(buy, Average(levels, many));
    SignedAverage(buy, Cost(levels, few), Total(few));
    SignedAverage(buy, Cost(levels, many), Total(many));
    TimesCancels(a, m, Total(few));
    TimesMonotone(a, m, Total(many) - Total(few));
    TimesAdd(a, Total(few), Total(many) - Total(few));
    TimesCancels(a, b, Total(many));
  }

  lemma EmptyBook(levels: seq<Level>, qty: int, limit: real, buy: bool)
    ensures levels == [] ==> Total(Takes(levels, qty, limit, buy)) == 0
  {
  }
}
