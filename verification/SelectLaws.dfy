/** What the selection tries and in what order, said on the chain, the quotes and the liquidity alone. */
module SelectLaws {
  import opened Wrappers
  import opened Sorting
  import opened Select

  // ---- the pool -------------------------------------------------------------------------------

  /** A call above spot or a put below it. */
  predicate IsOut(i: Instrument, kind: OptionType, spot: real) { if kind.CE? then i.strike > spot else i.strike < spot }

  predicate IsStrike(chain: seq<Instrument>, kind: OptionType, i: Instrument) {
    i in chain && i.kind == kind && i.strike > 0.0
  }

  /** The pool is every strike of the wanted kind that is out of the money, or every strike of the kind
      when none is. */
  lemma PoolIs(chain: seq<Instrument>, kind: OptionType, spot: real, i: Instrument)
    ensures i in Pool(chain, kind, spot) <==>
      IsStrike(chain, kind, i)
      && ((exists j :: IsStrike(chain, kind, j) && IsOut(j, kind, spot)) ==> IsOut(i, kind, spot))
  {
    var candidates := Filter(OfKind(kind), chain);
    FilterElements(OfKind(kind), chain);
    FilterElements(OutOfTheMoney(kind, spot), candidates);
    var otm := Filter(OutOfTheMoney(kind, spot), candidates);
    assert forall j :: j in candidates <==> IsStrike(chain, kind, j);
    if otm != [] {
      assert otm[0] in otm;
    }
  }

  /** The choice is out of the money whenever the chain has such a strike. */
  lemma ChoiceIsOut(chain: seq<Instrument>, quotes: map<string, Quote>, m: Market, now: real, pol: Policy,
                    i: Instrument, j: Instrument)
    requires UniqueCodes(chain) && FirstTradeable(Ordering(Pool(chain, m.kind, m.spot), m, pol).0, quotes, now, pol, i)
    requires IsStrike(chain, m.kind, j) && IsOut(j, m.kind, m.spot)
    ensures IsStrike(chain, m.kind, i) && IsOut(i, m.kind, m.spot)
  {
    hide Ordering, Pool, Tradeable;
    SelectionIsComplete(chain, quotes, m, now, pol);
    PoolIs(chain, m.kind, m.spot, i);
  }

  // ---- the order ------------------------------------------------------------------------------

  /** The target where it lies at or ahead of spot, else spot. */
  function LevelOf(m: Market): real {
    if m.target.Some? && m.target.value > 0.0
       && (if m.kind.CE? then m.spot <= m.target.value else m.target.value <= m.spot)
    then m.target.value else m.spot
  }

  lemma AnchorIsLevel(m: Market)
    ensures Anchor(m.spot, m.target, m.kind) == LevelOf(m)
  {
  }

  /** Without liquidity or ATR the strikes are tried by their distance from the target, or from spot
      when it does not lie ahead. */
  lemma OrderWithoutData(pool: seq<Instrument>, m: Market, pol: Policy)
    requires m.liquidity.None? || m.atr <= 0.0
    ensures var (order, anchor) := Ordering(pool, m, pol);
      && multiset(order) == multiset(pool) && anchor == LevelOf(m)
      && forall i, j :: 0 <= i < j < |order| ==>
           Abs(order[i].strike - LevelOf(m)) <= Abs(order[j].strike - LevelOf(m))
  {
    hide Sort, Anchor, Abs;
    AnchorIsLevel(m);
    var level := LevelOf(m);
    SortPermutes(Closer(level), pool);
    SortSorted(Closer(level), pool);
    var order := Sort(Closer(level), pool);
    forall i, j | 0 <= i < j < |order| ensures Abs(order[i].strike - level) <= Abs(order[j].strike - level) {
      assert Closer(level)(order[i], order[j]);
    }
  }

  function VolumeOf(l: Liquidity, i: Instrument): real { if i.code in l then l[i.code].0 else 0.0 }

  function InterestOf(l: Liquidity, i: Instrument): real { if i.code in l then l[i.code].1 else 0.0 }

  /** How many different volumes, and how many different open interests, are larger than its own. */
  ghost function PlaceOf(others: seq<Instrument>, l: Liquidity, i: Instrument): nat {
    |set j | j in others && VolumeOf(l, j) > VolumeOf(l, i) :: VolumeOf(l, j)|
    + |set j | j in others && InterestOf(l, j) > InterestOf(l, i) :: InterestOf(l, j)|
  }

  ghost predicate TriedBefore(others: seq<Instrument>, l: Liquidity, level: real, x: Instrument, y: Instrument) {
    || PlaceOf(others, l, x) < PlaceOf(others, l, y)
    || (PlaceOf(others, l, x) == PlaceOf(others, l, y) && Abs(x.strike - level) <= Abs(y.strike - level))
  }

  lemma PlaceIsRank(others: seq<Instrument>, l: Liquidity, i: Instrument)
    ensures CombinedRank(others, l, i) == PlaceOf(others, l, i)
  {
    assert forall j :: Measure(l, true, j) == VolumeOf(l, j) && Measure(l, false, j) == InterestOf(l, j);
    assert (set j | j in others && Measure(l, true, j) > Measure(l, true, i) :: Measure(l, true, j))
        == (set j | j in others && VolumeOf(l, j) > VolumeOf(l, i) :: VolumeOf(l, j));
    assert (set j | j in others && Measure(l, false, j) > Measure(l, false, i) :: Measure(l, false, j))
        == (set j | j in others && InterestOf(l, j) > InterestOf(l, i) :: InterestOf(l, j));
  }

  /** With them, the preferred strikes come first and give the anchor; the rest follow by their places
      in volume and in open interest, both together, and then by distance. */
  lemma OrderWithData(pool: seq<Instrument>, m: Market, pol: Policy)
    requires m.liquidity.Some? && m.atr > 0.0
    ensures var (order, anchor), l := Ordering(pool, m, pol), m.liquidity.value;
      var picks := StrikeCandidates(pool, m.spot, m.kind, m.atr, m.target, l, pol.minDelta, pol.oiMargin);
      var others := order[if |picks| <= |order| then |picks| else 0..];
      && |picks| <= |order| && order[..|picks|] == picks
      && anchor == (if picks != [] then picks[0].strike else LevelOf(m))
      && (forall x :: x in others <==> x in pool && forall p :: p in picks ==> p.code != x.code)
      && (forall i, j :: 0 <= i < j < |others| ==> TriedBefore(others, l, LevelOf(m), others[i], others[j]))
  {
    hide StrikeCandidates, Sort, Filter, Anchor, CombinedRank, PlaceOf, Abs;
    AnchorIsLevel(m);
    var l, level := m.liquidity.value, LevelOf(m);
    var picks := StrikeCandidates(pool, m.spot, m.kind, m.atr, m.target, l, pol.minDelta, pol.oiMargin);
    var rest := Filter(NotAmong(picks), pool);
    var others := RankByLiquidity(rest, l, level);
    FilterElements(NotAmong(picks), pool);
    SortElements(Better(rest, l, level), rest);
    SortSorted(Better(rest, l, level), rest);
    assert (picks + others)[|picks|..] == others && (picks + others)[..|picks|] == picks;
    forall i, j | 0 <= i < j < |others| ensures TriedBefore(others, l, level, others[i], others[j]) {
      assert Better(rest, l, level)(others[i], others[j]);
      SamePlaces(rest, others, l, others[i]);
      SamePlaces(rest, others, l, others[j]);
    }
  }

  lemma SamePlaces(rest: seq<Instrument>, others: seq<Instrument>, l: Liquidity, i: Instrument)
    requires forall x :: x in rest <==> x in others
    ensures CombinedRank(rest, l, i) == PlaceOf(others, l, i)
  {
    PlaceIsRank(rest, l, i);
    assert (set j | j in rest && VolumeOf(l, j) > VolumeOf(l, i) :: VolumeOf(l, j))
        == (set j | j in others && VolumeOf(l, j) > VolumeOf(l, i) :: VolumeOf(l, j));
    assert (set j | j in rest && InterestOf(l, j) > InterestOf(l, i) :: InterestOf(l, j))
        == (set j | j in others && InterestOf(l, j) > InterestOf(l, i) :: InterestOf(l, j));
  }

  // ---- sizing ---------------------------------------------------------------------------------

  /** Nothing is bought without a price, a budget, a known multiplier or, off the cash segment, a lot. */
  lemma NothingToBuy(equity: bool, lotSize: int, multiplier: int, price: real, budget: real, maxLots: Option<int>)
    requires price <= 0.0 || budget <= 0.0 || multiplier <= 0 || (!equity && lotSize <= 0)
    ensures QtyForBudget(equity, lotSize, multiplier, price, budget, maxLots) == 0
  {
    if price > 0.0 && multiplier > 0 && lotSize <= 0 {
      MulLessEq(lotSize as real, 0.0, price);
      MulLessEq(price * lotSize as real, 0.0, multiplier as real);
    }
  }
}
