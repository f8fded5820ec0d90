/** The gateway as the object the engine calls. A live call is two methods, up to the broker wait and
    after it, so other calls may come between; each takes exactly one step of `Gateway`. */
module OrderGatewayModel {
  import opened Wrappers
  import opened Gateway

  class OrderGateway {
    const caps: Caps
    var seen: set<string>
    var ordersToday: int
    var rejects: int
    var tripped: bool
    var day: int
    var waiting: map<string, Intent>

    constructor (caps: Caps, day: int)
      ensures this.caps == caps && Value() == NEW.(day := day)
    {
      this.caps, this.day := caps, day;
      seen, ordersToday, rejects, tripped, waiting := {}, 0, 0, false, map[];
    }

    ghost function Value(): State
      reads this
    {
      State(seen, ordersToday, rejects, tripped, day, waiting)
    }

    method RememberId(id: string)
      modifies this`seen
      ensures Value() == Step(caps, old(Value()), Remember(id)).0
    {
      seen := seen + {id};
    }

    method RollDay(today: int)
      modifies this`day, this`ordersToday
      ensures Value() == Rollover(old(Value()), today)
    {
      if today != day {
        day, ordersToday := today, 0;
      }
    }

    method Refuse(intent: Intent, d: Decision) returns (m: Mark)
      modifies this`rejects, this`tripped
      ensures (Value(), m) == Reject(caps, old(Value()), intent, d)
    {
      if !d.DupBlocked? {
        rejects := rejects + 1;
        if rejects >= caps.breaker {
          tripped := true;
        }
      }
      m := Decided(intent, d);
    }

    method Admit(intent: Intent, halted: bool) returns (refused: Option<Mark>)
      modifies this`seen, this`rejects, this`tripped
      ensures (Value(), refused) == Precheck(caps, old(Value()), intent, halted)
    {
      refused := None;
      if intent.id in seen {
        var m := Refuse(intent, DupBlocked);
        return Some(m);
      }
      seen := seen + {intent.id};
      if halted && intent.purpose.Entry? {
        var m := Refuse(intent, RejectedHalt);
        refused := Some(m);
      }
    }

    method CountFill(intent: Intent, d: Decision) returns (m: Mark)
      modifies this`rejects, this`ordersToday
      ensures (Value(), m) == Fill(old(Value()), intent, d)
    {
      rejects, ordersToday := 0, ordersToday + 1;
      m := Decided(intent, d);
    }

    method SubmitOrder(intent: Intent, today: int, mode: Mode, halted: bool, bookFills: bool) returns (m: Mark)
      modifies this
      ensures (Value(), m) == Step(caps, old(Value()), Submit(intent, today, mode, halted, bookFills))
    {
      hide Rollover, Precheck, Reject, Fill;
      RollDay(today);
      var refused := Admit(intent, halted);
      if refused.Some? {
        return refused.value;
      }
      match mode {
        case Shadow =>
          rejects := 0;
          m := Decided(intent, ShadowOk);
        case Paper =>
          if bookFills {
            m := CountFill(intent, PaperFilled);
          } else {
            m := Refuse(intent, RejectedBook);
          }
        case LiveCapped => m := Refuse(intent, RejectedBroker);
        case Live => m := Refuse(intent, RejectedBroker);
      }
    }

    /** A live order up to the point where it waits for the broker. */
    method SubmitLive(intent: Intent, today: int, mode: Mode, configured: bool, halted: bool, ctx: Context,
                      ltp: Option<real>) returns (m: Mark)
      modifies this
      ensures (Value(), m) == Step(caps, old(Value()), LiveStart(intent, today, mode, configured, halted, ctx, ltp))
    {
      hide Rollover, Precheck, Reject, CheckLiveCaps;
      RollDay(today);
      if !(mode.LiveCapped? || mode.Live?) || !configured {
        m := Refuse(intent, RejectedBroker);
        return;
      }
      var refused := Admit(intent, halted);
      if refused.Some? {
        return refused.value;
      }
      if mode.LiveCapped? {
        var why := CheckCaps(intent, ctx, ltp);
        if why.Some? {
          m := Refuse(intent, RejectedCap);
          return;
        }
      }
      waiting := waiting[intent.id := intent];
      m := Placed(intent);
    }

    /** The first cap an entry breaks; exits break none. */
    method CheckCaps(intent: Intent, ctx: Context, ltp: Option<real>) returns (why: Option<CapReason>)
      ensures why == CheckLiveCaps(caps, Value(), intent, ctx, ltp)
      ensures why.None? <==> intent.purpose.Exit? || WithinCaps(caps, Value(), intent, ctx, ltp)
    {
      CapsHoldIff(caps, Value(), intent, ctx, ltp);
      if !intent.purpose.Entry? { return None; }
      if tripped { return Some(BreakerTripped); }
      if ctx.segment !in caps.segments { return Some(SegmentClosed); }
      if caps.skipIndex && IsIndex(intent.code) { return Some(IndexExcluded); }
      if !ctx.exposureOk { return Some(Exposure); }
      if ctx.openPositions >= caps.maxPositions { return Some(Positions); }
      if ordersToday >= caps.maxOrders { return Some(Orders); }
      if ctx.now > caps.cutoff { return Some(Cutoff); }
      if ctx.dayPnl <= -caps.dailyLoss { return Some(DayLoss); }
      var notional := RefPrice(intent, ltp) * intent.qty as real * intent.multiplier as real;
      return if notional > caps.maxNotional then Some(Notional) else None;
    }

    /** The rest of a live order, once the broker has answered. */
    method Resume(id: string, outcome: Outcome) returns (m: Mark)
      requires id in waiting
      modifies this
      ensures (Value(), m) == Step(caps, old(Value()), LiveFinish(id, outcome))
    {
      hide Reject, Fill;
      var intent := waiting[id];
      waiting := waiting - {id};
      match outcome {
        case Filled => m := CountFill(intent, Submitted);
        case Unfilled => m := Refuse(intent, RejectedBroker);
        case Raised => m := Silent;
      }
    }

    method Reset()
      modifies this`rejects, this`tripped
      ensures Value() == Step(caps, old(Value()), ResetBreaker).0
    {
      rejects, tripped := 0, false;
    }
  }
}
