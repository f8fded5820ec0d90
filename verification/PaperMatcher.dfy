/** The paper matcher: a fill at the book when there is a fresh one, at the last price plus slippage
    when there is none, and a refusal otherwise. Charges come from a cost model that is not part of
    this model; they enter as a function of the executed price and quantity. */
module PaperMatcherModel {
  import opened Wrappers
  import opened Rounding
  import opened Paper

  /** Times are epoch seconds with their fraction. */
  datatype Book = Book(bids: seq<Level>, asks: seq<Level>, ts: real)

  datatype Fill = Fill(price: real, qty: int, ts: real, charges: real, slippageBps: real, bookAgeMs: Option<int>,
                       levels: nat)

  datatype NoBook = NoPrice | Stale | NothingInside

  datatype Result = Filled(fill: Fill) | Refused(why: NoBook)

  datatype Settings = Settings(maxAgeMs: real, openMaxAgeMs: real, openFrom: int, openTo: int, ceilingPct: real,
                               slippageBps: real)

  /** Minutes after IST midnight. */
  function IstMinute(now: real): int { (now.Floor + 19800) % 86400 / 60 }

  function AgeLimitMs(s: Settings, now: real): real {
    if s.openFrom <= IstMinute(now) < s.openTo then s.openMaxAgeMs else s.maxAgeMs
  }

  function AgeMs(book: Book, now: real): real { (now - book.ts) * 1000.0 }

  function Side(book: Book, buy: bool): seq<Level> { if buy then book.asks else book.bids }

  function Mid(book: Book): Option<real> {
    var bid := if book.bids != [] then book.bids[0].price else 0.0;
    var ask := if book.asks != [] then book.asks[0].price else 0.0;
    if bid != 0.0 && ask != 0.0 then Some((bid + ask) / 2.0)
    else if bid != 0.0 then Some(bid)
    else if ask != 0.0 then Some(ask)
    else None
  }

  function Slippage(avg: real, mid: real, buy: bool): real {
    if mid == 0.0 then 0.0 else (avg - mid) / mid * 10000.0 * (if buy then 1.0 else -1.0)
  }

  /** The last price worsened by the slippage allowance. */
  function Slipped(ltp: real, bps: real, buy: bool): real {
    ltp * (1.0 + bps / 10000.0 * (if buy then 1.0 else -1.0))
  }

  predicate HasSide(book: Option<Book>, buy: bool) { book.Some? && Side(book.value, buy) != [] }

  /** What filling one order must answer. */
  ghost predicate FilledRightly(s: Settings, charges: (real, int) -> real, buy: bool, qty: int, book: Option<Book>,
                                ltp: Option<real>, now: real, r: Result) {
    if !HasSide(book, buy) then
      if ltp.None? || ltp.value <= 0.0 then r == Refused(NoPrice)
      else
        var price := Slipped(ltp.value, s.slippageBps, buy);
        r == Filled(Fill(Round2(price), qty, now, charges(price, qty), s.slippageBps, None, 0))
    else if AgeMs(book.value, now) > AgeLimitMs(s, now) then r == Refused(Stale)
    else
      var levels := Side(book.value, buy);
      var takes := Takes(levels, qty, Ceiling(levels[0].price, s.ceilingPct, buy), buy);
      if Total(takes) == 0 then r == Refused(NothingInside)
      else
        var avg := Average(levels, takes);
        && r.Filled? && r.fill.price == Round2(avg) && r.fill.qty == Total(takes) && r.fill.ts == now
        && r.fill.charges == charges(avg, Total(takes)) && r.fill.levels == Used(takes)
        && r.fill.bookAgeMs == Some(RoundInt(AgeMs(book.value, now)))
        && r.fill.slippageBps ==
             Round2(Slippage(avg, if Mid(book.value).Some? then Mid(book.value).value else levels[0].price, buy))
  }

  class PaperMatcher {
    const settings: Settings
    const charges: (real, int) -> real
    var fills: nat
    var truncated: nat
    var rejectedStale: nat

    constructor (settings: Settings, charges: (real, int) -> real)
      ensures this.settings == settings && this.charges == charges
      ensures fills == truncated == rejectedStale == 0
    {
      this.settings, this.charges := settings, charges;
      fills, truncated, rejectedStale := 0, 0, 0;
    }

    method FillOrder(buy: bool, qty: int, book: Option<Book>, ltp: Option<real>, now: real) returns (r: Result)
      modifies this
      ensures FilledRightly(settings, charges, buy, qty, book, ltp, now, r)
      ensures fills == old(fills) + (if r.Filled? then 1 else 0)
      ensures rejectedStale == old(rejectedStale) + (if r == Refused(Stale) then 1 else 0)
      ensures truncated == old(truncated) + (if r.Filled? && r.fill.qty < qty then 1 else 0)
    {
      hide Takes, Total, Used, Cost, Capped, Times, Ceiling, RoundTo, RoundInt, Slipped, Slippage;
      if !HasSide(book, buy) {
        if ltp.None? || ltp.value <= 0.0 {
          return Refused(NoPrice);
        }
        var price := Slipped(ltp.value, settings.slippageBps, buy);
        fills := fills + 1;
        return Filled(Fill(Round2(price), qty, now, charges(price, qty), settings.slippageBps, None, 0));
      }
      var age := AgeMs(book.value, now);
      if age > AgeLimitMs(settings, now) {
        rejectedStale := rejectedStale + 1;
        return Refused(Stale);
      }
      var levels := Side(book.value, buy);
      var touch := levels[0].price;
      var walk := WalkBook(levels, qty, touch, settings.ceilingPct, buy);
      if walk.filled == 0 {
        return Refused(NothingInside);
      }
      if walk.filled < qty {
        truncated := truncated + 1;
      }
      var mid := if Mid(book.value).Some? then Mid(book.value).value else touch;
      fills := fills + 1;
      return Filled(Fill(Round2(walk.avgPrice), walk.filled, now, charges(walk.avgPrice, walk.filled),
                         Round2(Slippage(walk.avgPrice, mid, buy)), Some(RoundInt(age)), walk.levels));
    }
  }

  /** Past its allowance a book never fills, and with no book and no price neither does an order. */
  lemma NoInventedPrice(s: Settings, charges: (real, int) -> real, buy: bool, qty: int, book: Option<Book>,
                        ltp: Option<real>, now: real, r: Result)
    requires FilledRightly(s, charges, buy, qty, book, ltp, now, r) && r.Filled?
    ensures HasSide(book, buy) ==> AgeMs(book.value, now) <= AgeLimitMs(s, now)
    ensures !HasSide(book, buy) ==> ltp.Some? && ltp.value > 0.0 && r.fill.bookAgeMs == None && r.fill.levels == 0
    ensures !HasSide(book, buy) && 0.0 <= s.slippageBps ==>
      Signed(buy, Round2(ltp.value)) <= Signed(buy, r.fill.price)
  {
    hide Takes, Total, Cost, Times, Ceiling, RoundTo, RoundInt, AgeLimitMs, SizeWithin, Slippage, Mid;
    if !HasSide(book, buy) && 0.0 <= s.slippageBps {
      if buy {
        RoundToMonotone(ltp.value, Slipped(ltp.value, s.slippageBps, buy), 0.01);
      } else {
        RoundToMonotone(Slipped(ltp.value, s.slippageBps, buy), ltp.value, 0.01);
      }
    }
  }

  /** How old a book may be, in milliseconds: the wide allowance from `openFrom` up to `openTo` minutes
      after IST midnight, the tight one at any other second of the day. */
  predicate Allows(s: Settings, now: real, ms: real) {
    var second := (now.Floor + 19800) % 86400;
    ms == if 60 * s.openFrom <= second < 60 * s.openTo then s.openMaxAgeMs else s.maxAgeMs
  }

  /** An order is refused as stale exactly when the side it needs has levels and the book is older than
      its allowance. */
  lemma StaleIff(s: Settings, charges: (real, int) -> real, buy: bool, qty: int, book: Option<Book>,
                 ltp: Option<real>, now: real, r: Result)
    requires FilledRightly(s, charges, buy, qty, book, ltp, now, r)
    ensures r == Refused(Stale) <==>
      && book.Some? && (if buy then book.value.asks else book.value.bids) != []
      && exists ms :: Allows(s, now, ms) && 1000.0 * (now - book.value.ts) > ms
  {
    hide Takes, Total, Cost, Times, Ceiling, RoundTo, RoundInt, Slippage, Slipped, Mid, Used;
    assert Allows(s, now, AgeLimitMs(s, now));
    assert forall ms :: Allows(s, now, ms) ==> ms == AgeLimitMs(s, now);
  }

  /** The price a slippage is measured from: between the two touches, else the one there is. */
  predicate MidIs(book: Book, touch: real, mid: real) {
    var bid := if book.bids != [] then book.bids[0].price else 0.0;
    var ask := if book.asks != [] then book.asks[0].price else 0.0;
    if bid != 0.0 && ask != 0.0 then 2.0 * mid == bid + ask
    else if bid != 0.0 then mid == bid
    else if ask != 0.0 then mid == ask
    else mid == touch
  }

  /** So many hundredths of a percent worse than the middle: above it for a buyer, below for a seller. */
  predicate WorseBy(avg: real, mid: real, buy: bool, bps: real) {
    if mid == 0.0 then bps == 0.0 else bps * mid == 10000.0 * if buy then avg - mid else mid - avg
  }

  /** What a fill against the book reports: the average of the units taken from the side it needs,
      its slippage from the middle, its charges and the age of the book, rounded as money is. */
  ghost predicate Reported(charges: (real, int) -> real, buy: bool, book: Book, now: real, f: Fill, avg: real,
                           mid: real, bps: real)
  {
    var levels := if buy then book.asks else book.bids;
    && levels != [] && MidIs(book, levels[0].price, mid) && WorseBy(avg, mid, buy, bps)
    && f.price == Round2(avg) && f.slippageBps == Round2(bps) && f.charges == charges(avg, f.qty) && f.ts == now
    && f.bookAgeMs == Some(RoundInt(1000.0 * (now - book.ts)))
    && exists a: Allocation :: Fits(levels, a) && Total(a) == f.qty && Used(a) == f.levels
         && avg * f.qty as real == Cost(levels, a)
  }

  lemma BookFillReports(s: Settings, charges: (real, int) -> real, buy: bool, qty: int, book: Book, ltp: Option<real>,
                        now: real, r: Result)
    requires FilledRightly(s, charges, buy, qty, Some(book), ltp, now, r) && r.Filled?
    requires (if buy then book.asks else book.bids) != []
    ensures exists avg, mid, bps :: Reported(charges, buy, book, now, r.fill, avg, mid, bps)
  {
    hide Total, Cost, Times, Ceiling, RoundTo, RoundInt, Slipped, Used, Takes, Slippage, AgeLimitMs;
    var levels := Side(book, buy);
    var limit := Ceiling(levels[0].price, s.ceilingPct, buy);
    var takes := Takes(levels, qty, limit, buy);
    var avg := Average(levels, takes);
    var mid := if Mid(book).Some? then Mid(book).value else levels[0].price;
    TakesFit(levels, qty, limit, buy);
    SlippageIs(avg, mid, buy);
    AverageTimesUnits(levels, takes);
    assert Reported(charges, buy, book, now, r.fill, avg, mid, Slippage(avg, mid, buy));
  }

  lemma SlippageIs(avg: real, mid: real, buy: bool)
    ensures WorseBy(avg, mid, buy, Slippage(avg, mid, buy))
  {
    if mid != 0.0 {
      assert (avg - mid) / mid * mid == avg - mid;
    }
  }

  lemma AverageTimesUnits(levels: seq<Level>, a: Allocation)
    requires |a| == |levels| && Total(a) > 0
    ensures Average(levels, a) * Total(a) as real == Cost(levels, a)
  {
  }

  /** Without a side to walk, the whole order fills at the last price made worse by the allowance, and
      says so; or, without a price, is refused. */
  lemma LastPriceFill(s: Settings, charges: (real, int) -> real, buy: bool, qty: int, book: Option<Book>,
                      ltp: Option<real>, now: real, r: Result)
    requires FilledRightly(s, charges, buy, qty, book, ltp, now, r)
    requires book.None? || (if buy then book.value.asks else book.value.bids) == []
    ensures r == Refused(NoPrice) <==> ltp.None? || ltp.value <= 0.0
    ensures r != Refused(NoPrice) ==>
      && r.Filled? && r.fill.qty == qty && r.fill.slippageBps == s.slippageBps && r.fill.bookAgeMs == None
      && exists price ::
           && 10000.0 * price == ltp.value * (if buy then 10000.0 + s.slippageBps else 10000.0 - s.slippageBps)
           && r.fill.price == Round2(price) && r.fill.charges == charges(price, qty)
  {
    hide RoundTo;
    if ltp.Some? && ltp.value > 0.0 {
      var price := Slipped(ltp.value, s.slippageBps, buy);
      assert 10000.0 * price == ltp.value * (if buy then 10000.0 + s.slippageBps else 10000.0 - s.slippageBps);
    }
  }

  lemma SignedBounds(buy: bool, lo: real, x: real, hi: real)
    requires Signed(buy, lo) <= Signed(buy, x) <= Signed(buy, hi)
    ensures Signed(buy, Round2(lo)) <= Signed(buy, Round2(x)) <= Signed(buy, Round2(hi))
  {
    hide RoundTo;
    if buy {
      RoundToMonotone(lo, x, 0.01);
      RoundToMonotone(x, hi, 0.01);
    } else {
      RoundToMonotone(hi, x, 0.01);
      RoundToMonotone(x, lo, 0.01);
    }
  }

  /** A fill against an ordered book is honest: fresh, no larger than asked or than what stands within
      the ceiling, and priced, to the paisa, between the touch and the ceiling. */
  lemma BookFillIsHonest(s: Settings, charges: (real, int) -> real, buy: bool, qty: int, book: Book, ltp: Option<real>,
                         now: real, r: Result)
    requires FilledRightly(s, charges, buy, qty, Some(book), ltp, now, r) && r.Filled?
    requires Side(book, buy) != [] && Ordered(Side(book, buy), buy)
    ensures var levels := Side(book, buy);
      var limit := Ceiling(levels[0].price, s.ceilingPct, buy);
      && AgeMs(book, now) <= AgeLimitMs(s, now)
      && 0 < r.fill.qty == MinInt(qty, SizeWithin(levels, limit, buy))
      && Signed(buy, Round2(levels[0].price)) <= Signed(buy, r.fill.price) <= Signed(buy, Round2(limit))
  {
    hide Takes, Total, Cost, Times, Ceiling, RoundTo, RoundInt, AgeLimitMs, Signed, SizeWithin, Ordered, Slippage, Mid;
    var levels := Side(book, buy);
    var limit := Ceiling(levels[0].price, s.ceilingPct, buy);
    FillsWhatIsThere(levels, qty, limit, buy);
    AverageBetween(levels, qty, limit, buy);
    SignedBounds(buy, levels[0].price, Average(levels, Takes(levels, qty, limit, buy)), limit);
  }
}
