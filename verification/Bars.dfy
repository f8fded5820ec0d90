/** The bar every strategy sees, and how one tick is absorbed into a forming bar. */
module Bars {
  import opened Wrappers
  import opened Session

  datatype BarSource = LIVE | REST | PARTIAL

  /** The traded part of a bar. */
  datatype Ohlcv = Ohlcv(open: real, high: real, low: real, close: real, volume: real, trades: nat)

  /** Open interest of the front future, stamped on the underlying's bars. */
  datatype OpenInterest = OpenInterest(oi: int, changePct: real, futCode: string)

  /** Session context carried by every bar; the last tick's values win. */
  datatype Context = Context(vwap: Option<real>, prevClose: Option<real>, oi: Option<OpenInterest>)

  datatype Bar = Bar(symbol: string, scripCode: string, tf: Timeframe, ts: int, data: Ohlcv,
                     source: BarSource, complete: bool, context: Context, confirmed: bool)

  /** One accepted tick as the bar builder sees it: its own timestamp, price and volume delta, the
      day extremes it recovers, and the context it stamps. */
  datatype Print = Print(ts: int, price: real, qty: real, newHigh: Option<real>, newLow: Option<real>,
                         context: Context)

  /** What identifies a tracked instrument's bar series. */
  datatype Feed = Feed(symbol: string, scripCode: string, segment: Segment, connectedSince: int)

  function MergeTick(d: Ohlcv, price: real, qty: real): Ohlcv {
    if price <= 0.0 then d
    else Ohlcv(d.open, Max(d.high, price), Min(d.low, price), price, d.volume + qty, d.trades + 1)
  }

  /** A recovered day extreme belongs to the bucket that is open when it shows up. */
  function Recover(d: Ohlcv, newHigh: Option<real>, newLow: Option<real>): Ohlcv {
    var d1 := if newHigh.Some? && newHigh.value > d.high then d.(high := newHigh.value) else d;
    if newLow.Some? && newLow.value < d1.low then d1.(low := newLow.value) else d1
  }

  function Absorb(b: Bar, p: Print): Bar {
    b.(data := Recover(MergeTick(b.data, p.price, p.qty), p.newHigh, p.newLow), context := p.context)
  }

  function OpenBar(feed: Feed, tf: Timeframe, bucket: int, p: Print): Bar {
    var source := if bucket < feed.connectedSince - 1 then PARTIAL else LIVE;
    Bar(feed.symbol, feed.scripCode, tf, bucket, Ohlcv(p.price, p.price, p.price, p.price, 0.0, 0),
        source, false, Context(None, p.context.prevClose, None), false)
  }

  function FirstBar(feed: Feed, tf: Timeframe, p: Print): Bar {
    Absorb(OpenBar(feed, tf, BucketStart(feed.segment, p.ts, tf), p), p)
  }

  function Completed(b: Bar): Bar { b.(complete := true) }
}
