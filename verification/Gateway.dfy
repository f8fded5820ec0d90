/** The order gateway: idempotency, halts, live caps and the consecutive-reject breaker, over every
    history of calls, including live calls that overlap while each waits for the broker. */
module Gateway {
  import opened Wrappers

  datatype Mode = Shadow | Paper | LiveCapped | Live

  datatype Purpose = Entry | Exit

  datatype Decision =
    | Submitted | PaperFilled | ShadowOk
    | RejectedHalt | RejectedCap | RejectedBook | RejectedBroker
    | DupBlocked

  datatype Intent = Intent(id: string, purpose: Purpose, code: string, qty: int, multiplier: int,
                           refPrice: Option<real>)

  /** Clock times of day are minutes after midnight. */
  datatype Caps = Caps(segments: set<string>, maxNotional: real, maxPositions: int, maxOrders: int,
                       dailyLoss: real, cutoff: int, breaker: int, skipIndex: bool)

  const DEFAULT_CAPS := Caps({"NSE_EQ"}, 25000.0, 2, 6, 2000.0, 910, 12, true)

  datatype Context = Context(openPositions: int, dayPnl: real, now: int, segment: string, exposureOk: bool)

  datatype CapReason =
    | BreakerTripped | SegmentClosed | IndexExcluded | Exposure | Positions | Orders | Cutoff | DayLoss | Notional

  datatype Outcome = Filled | Unfilled | Raised

  /** `waiting` holds the live calls suspended at the broker, by client order id. */
  datatype State = State(seen: set<string>, ordersToday: int, rejects: int, tripped: bool, day: int,
                         waiting: map<string, Intent>)

  datatype Event =
    | Submit(intent: Intent, day: int, mode: Mode, halted: bool, bookFills: bool)
    | LiveStart(intent: Intent, day: int, mode: Mode, configured: bool, halted: bool, ctx: Context, ltp: Option<real>)
    | LiveFinish(id: string, outcome: Outcome)
    | Remember(id: string)
    | ResetBreaker

  /** What one event leaves in the history. */
  datatype Mark = Decided(intent: Intent, decision: Decision) | Placed(intent: Intent) | BreakerReset | Silent

  const NEW := State({}, 0, 0, false, 0, map[])

  predicate IsRejection(d: Decision) {
    d.RejectedHalt? || d.RejectedCap? || d.RejectedBook? || d.RejectedBroker?
  }

  predicate IsFill(d: Decision) { d.Submitted? || d.PaperFilled? }

  // ---- the steps ------------------------------------------------------------------------------

  function Rollover(s: State, day: int): State {
    if day != s.day then s.(day := day, ordersToday := 0) else s
  }

  function Reject(c: Caps, s: State, intent: Intent, d: Decision): (State, Mark) {
    if d.DupBlocked? then (s, Decided(intent, d))
    else (s.(rejects := s.rejects + 1, tripped := s.tripped || s.rejects + 1 >= c.breaker), Decided(intent, d))
  }

  /** The state to go on from, or the refusal. */
  function Precheck(c: Caps, s: State, intent: Intent, halted: bool): (State, Option<Mark>) {
    if intent.id in s.seen then
      var (s1, m) := Reject(c, s, intent, DupBlocked);
      (s1, Some(m))
    else
      var s0 := s.(seen := s.seen + {intent.id});
      if halted && intent.purpose.Entry? then
        var (s1, m) := Reject(c, s0, intent, RejectedHalt);
        (s1, Some(m))
      else (s0, None)
  }

  function RefPrice(intent: Intent, ltp: Option<real>): real {
    if intent.refPrice.Some? && intent.refPrice.value != 0.0 then intent.refPrice.value
    else if ltp.Some? then ltp.value
    else 0.0
  }

  predicate IsIndex(code: string) { "999920" <= code }

  function CheckLiveCaps(c: Caps, s: State, intent: Intent, ctx: Context, ltp: Option<real>): Option<CapReason> {
    if !intent.purpose.Entry? then None
    else if s.tripped then Some(BreakerTripped)
    else if ctx.segment !in c.segments then Some(SegmentClosed)
    else if c.skipIndex && IsIndex(intent.code) then Some(IndexExcluded)
    else if !ctx.exposureOk then Some(Exposure)
    else if ctx.openPositions >= c.maxPositions then Some(Positions)
    else if s.ordersToday >= c.maxOrders then Some(Orders)
    else if ctx.now > c.cutoff then Some(Cutoff)
    else if ctx.dayPnl <= -c.dailyLoss then Some(DayLoss)
    else if RefPrice(intent, ltp) * intent.qty as real * intent.multiplier as real > c.maxNotional then Some(Notional)
    else None
  }

  function Fill(s: State, intent: Intent, d: Decision): (State, Mark) {
    (s.(rejects := 0, ordersToday := s.ordersToday + 1), Decided(intent, d))
  }

  function SubmitStep(c: Caps, s: State, intent: Intent, day: int, mode: Mode, halted: bool, bookFills: bool):
    (State, Mark)
  {
    var (s1, refused) := Precheck(c, Rollover(s, day), intent, halted);
    if refused.Some? then (s1, refused.value)
    else
      match mode
      case Shadow => (s1.(rejects := 0), Decided(intent, ShadowOk))
      case Paper => if bookFills then Fill(s1, intent, PaperFilled) else Reject(c, s1, intent, RejectedBook)
      case LiveCapped => Reject(c, s1, intent, RejectedBroker)
      case Live => Reject(c, s1, intent, RejectedBroker)
  }

  function StartStep(c: Caps, s: State, intent: Intent, day: int, mode: Mode, configured: bool, halted: bool,
                     ctx: Context, ltp: Option<real>): (State, Mark) {
    var s0 := Rollover(s, day);
    if !(mode.LiveCapped? || mode.Live?) then Reject(c, s0, intent, RejectedBroker)
    else if !configured then Reject(c, s0, intent, RejectedBroker)
    else
      var (s1, refused) := Precheck(c, s0, intent, halted);
      if refused.Some? then (s1, refused.value)
      else if mode.LiveCapped? && CheckLiveCaps(c, s1, intent, ctx, ltp).Some? then Reject(c, s1, intent, RejectedCap)
      else (s1.(waiting := s1.waiting[intent.id := intent]), Placed(intent))
  }

  function FinishStep(c: Caps, s: State, id: string, outcome: Outcome): (State, Mark) {
    if id !in s.waiting then (s, Silent)
    else
      var s1, intent := s.(waiting := s.waiting - {id}), s.waiting[id];
      match outcome
      case Filled => Fill(s1, intent, Submitted)
      case Unfilled => Reject(c, s1, intent, RejectedBroker)
      case Raised => (s1, Silent)
  }

  function Step(c: Caps, s: State, e: Event): (State, Mark) {
    match e
    case Submit(intent, day, mode, halted, bookFills) => SubmitStep(c, s, intent, day, mode, halted, bookFills)
    case LiveStart(intent, day, mode, configured, halted, ctx, ltp) =>
      StartStep(c, s, intent, day, mode, configured, halted, ctx, ltp)
    case LiveFinish(id, outcome) => FinishStep(c, s, id, outcome)
    case Remember(id) => (s.(seen := s.seen + {id}), Silent)
    case ResetBreaker => (s.(rejects := 0, tripped := false), BreakerReset)
  }

  /** The state after a history, and the mark each event left. */
  function Life(c: Caps, s: State, es: seq<Event>): (State, seq<Mark>) {
    if es == [] then (s, [])
    else
      var (s1, marks) := Life(c, s, es[..|es| - 1]);
      var (s2, m) := Step(c, s1, es[|es| - 1]);
      (s2, marks + [m])
  }

  // ---- each order id goes through at most once ------------------------------------------------

  /** The event carries `id` through the precheck. */
  predicate PassesPrecheck(s: State, e: Event, id: string) {
    match e
    case Submit(intent, _, _, halted, _) =>
      intent.id == id && id !in s.seen && !(halted && intent.purpose.Entry?)
    case LiveStart(intent, _, mode, configured, halted, _, _) =>
      && (mode.LiveCapped? || mode.Live?) && configured
      && intent.id == id && id !in s.seen && !(halted && intent.purpose.Entry?)
    case _ => false
  }

  function Passes(c: Caps, s: State, es: seq<Event>, id: string): nat {
    if es == [] then 0
    else
      var n := |es| - 1;
      Passes(c, s, es[..n], id) + if PassesPrecheck(Life(c, s, es[..n]).0, es[n], id) then 1 else 0
  }

  function Fills(marks: seq<Mark>, id: string): nat {
    if marks == [] then 0
    else
      var n := |marks| - 1;
      Fills(marks[..n], id)
      + if marks[n].Decided? && marks[n].intent.id == id && IsFill(marks[n].decision) then 1 else 0
  }

  /** Orders sent to the broker under an id. */
  function Placements(marks: seq<Mark>, id: string): nat {
    if marks == [] then 0
    else
      var n := |marks| - 1;
      Placements(marks[..n], id) + if marks[n].Placed? && marks[n].intent.id == id then 1 else 0
  }

  function One(b: bool): nat { if b then 1 else 0 }

  /** Suspended calls carry ids already spent, each under its own. */
  predicate Proper(s: State) { forall id :: id in s.waiting ==> id in s.seen && s.waiting[id].id == id }

  ghost predicate Once(s: State, e: Event, id: string, s1: State, m: Mark) {
    && One(id in s.seen) + One(PassesPrecheck(s, e, id)) <= One(id in s1.seen)
    && One(m.Decided? && m.intent.id == id && IsFill(m.decision)) + One(id in s1.waiting)
       <= One(PassesPrecheck(s, e, id)) + One(id in s.waiting)
    && One(m.Placed? && m.intent.id == id) <= One(PassesPrecheck(s, e, id))
  }

  lemma StepOnce(c: Caps, s: State, e: Event, id: string)
    requires Proper(s)
    ensures Proper(Step(c, s, e).0) && Once(s, e, id, Step(c, s, e).0, Step(c, s, e).1)
  {
    hide SubmitStep, StartStep;
    match e
    case Submit(_, _, _, _, _) => SubmitOnce(c, s, e, id);
    case LiveStart(_, _, _, _, _, _, _) => StartOnce(c, s, e, id);
    case LiveFinish(_, _) =>
    case Remember(_) =>
    case ResetBreaker =>
  }

  lemma RejectKeeps(c: Caps, s: State, intent: Intent, d: Decision)
    ensures var (s1, m) := Reject(c, s, intent, d);
      s1.seen == s.seen && s1.waiting == s.waiting && m == Decided(intent, d)
  {
  }

  lemma PrecheckSpends(c: Caps, s: State, intent: Intent, halted: bool)
    ensures var (s1, refused) := Precheck(c, s, intent, halted);
      && s1.seen == s.seen + {intent.id} && s1.waiting == s.waiting
      && (refused.None? <==> intent.id !in s.seen && !(halted && intent.purpose.Entry?))
      && (refused.Some? ==> refused.value.Decided? && !IsFill(refused.value.decision))
  {
  }

  lemma SubmitOnce(c: Caps, s: State, e: Event, id: string)
    requires Proper(s) && e.Submit?
    ensures Proper(Step(c, s, e).0) && Once(s, e, id, Step(c, s, e).0, Step(c, s, e).1)
  {
    hide Precheck, Reject;
    PrecheckSpends(c, Rollover(s, e.day), e.intent, e.halted);
    var s1 := Precheck(c, Rollover(s, e.day), e.intent, e.halted).0;
    RejectKeeps(c, s1, e.intent, RejectedBook);
    RejectKeeps(c, s1, e.intent, RejectedBroker);
  }

  lemma StartOnce(c: Caps, s: State, e: Event, id: string)
    requires Proper(s) && e.LiveStart?
    ensures Proper(Step(c, s, e).0) && Once(s, e, id, Step(c, s, e).0, Step(c, s, e).1)
  {
    hide Precheck, Reject, CheckLiveCaps;
    var s0 := Rollover(s, e.day);
    PrecheckSpends(c, s0, e.intent, e.halted);
    var s1 := Precheck(c, s0, e.intent, e.halted).0;
    RejectKeeps(c, s1, e.intent, RejectedCap);
    RejectKeeps(c, s0, e.intent, RejectedBroker);
  }

  /** At most once: however calls interleave at the broker, an id gets through the precheck at most
      once, not at all once it has been seen or remembered; so it is placed at most once and it
      fills at most once. */
  lemma {:induction false} AtMostOnce(c: Caps, s: State, es: seq<Event>, id: string)
    requires Proper(s)
    ensures var (s1, marks) := Life(c, s, es);
      && Proper(s1)
      && One(id in s.seen) + Passes(c, s, es, id) <= One(id in s1.seen) <= 1
      && Fills(marks, id) + One(id in s1.waiting) <= Passes(c, s, es, id) + One(id in s.waiting) <= 1
      && Placements(marks, id) <= Passes(c, s, es, id)
  {
    hide Step, PassesPrecheck;
    if es != [] {
      var n := |es| - 1;
      AtMostOnce(c, s, es[..n], id);
      var (s1, marks) := Life(c, s, es[..n]);
      StepOnce(c, s1, es[n], id);
      assert (marks + [Step(c, s1, es[n]).1])[..|marks|] == marks;
    }
  }

  // ---- exits are never refused for a halt or a cap --------------------------------------------

  lemma ExitStep(c: Caps, s: State, e: Event)
    ensures var m := Step(c, s, e).1;
      m.Decided? && m.intent.purpose.Exit? ==> !m.decision.RejectedHalt? && !m.decision.RejectedCap?
  {
    hide IsIndex, RefPrice;
  }

  /** No history, however halted, capped or tripped, holds an exit refused for a halt or a cap. */
  lemma {:induction false} ExitsNeverBlocked(c: Caps, s: State, es: seq<Event>, i: nat)
    requires i < |Life(c, s, es).1|
    requires Life(c, s, es).1[i].Decided? && Life(c, s, es).1[i].intent.purpose.Exit?
    ensures !Life(c, s, es).1[i].decision.RejectedHalt? && !Life(c, s, es).1[i].decision.RejectedCap?
  {
    hide Step;
    var n := |es| - 1;
    var (s1, marks) := Life(c, s, es[..n]);
    if i < |marks| {
      ExitsNeverBlocked(c, s, es[..n], i);
    } else {
      ExitStep(c, s1, es[n]);
    }
  }

  // ---- what becomes of each event -------------------------------------------------------------

  lemma {:induction false} MarkAt(c: Caps, s: State, es: seq<Event>, i: nat)
    requires i < |es|
    ensures |Life(c, s, es).1| == |es| && Life(c, s, es).1[i] == Step(c, Life(c, s, es[..i]).0, es[i]).1
    decreases |es|
  {
    hide Step;
    var n := |es| - 1;
    MarksPerEvent(c, s, es[..n]);
    if i < n {
      assert es[..n][..i] == es[..i];
      MarkAt(c, s, es[..n], i);
    }
  }

  lemma {:induction false} MarksPerEvent(c: Caps, s: State, es: seq<Event>)
    ensures |Life(c, s, es).1| == |es|
  {
    hide Step;
    if es != [] {
      MarksPerEvent(c, s, es[..|es| - 1]);
    }
  }

  predicate LiveMode(mode: Mode) { mode.LiveCapped? || mode.Live? }

  /** The event spends the id, whatever becomes of it. */
  predicate Spends(e: Event, id: string) {
    match e
    case Submit(intent, _, _, _, _) => intent.id == id
    case LiveStart(intent, _, mode, configured, _, _, _) => LiveMode(mode) && configured && intent.id == id
    case Remember(other) => other == id
    case _ => false
  }

  /** An id is seen exactly when it was at the start or some event spent it. */
  lemma {:induction false} SeenIff(c: Caps, s: State, es: seq<Event>, id: string)
    ensures id in Life(c, s, es).0.seen <==> id in s.seen || exists i :: 0 <= i < |es| && Spends(es[i], id)
  {
    hide Step, Spends;
    if es != [] {
      var n := |es| - 1;
      SeenIff(c, s, es[..n], id);
      StepSpends(c, Life(c, s, es[..n]).0, es[n], id);
      if i :| 0 <= i < n && Spends(es[..n][i], id) {
        assert Spends(es[i], id);
      }
      if i :| 0 <= i < |es| && Spends(es[i], id) {
        assert i < n ==> Spends(es[..n][i], id);
      }
    }
  }

  lemma StepSpends(c: Caps, s: State, e: Event, id: string)
    ensures id in Step(c, s, e).0.seen <==> id in s.seen || Spends(e, id)
  {
    hide CheckLiveCaps, IsIndex, RefPrice;
  }

  /** The intent placed under an id and not answered yet. */
  function PlacedOf(s: State, es: seq<Event>, marks: seq<Mark>, id: string): Option<Intent>
    requires |es| == |marks|
  {
    if es == [] then if id in s.waiting then Some(s.waiting[id]) else None
    else
      var n := |es| - 1;
      if marks[n].Placed? && marks[n].intent.id == id then Some(marks[n].intent)
      else if es[n].LiveFinish? && es[n].id == id then None
      else PlacedOf(s, es[..n], marks[..n], id)
  }

  lemma {:induction false} WaitingIsPlaced(c: Caps, s: State, es: seq<Event>, id: string)
    ensures var (s1, marks) := Life(c, s, es);
      |marks| == |es| && PlacedOf(s, es, marks, id) == if id in s1.waiting then Some(s1.waiting[id]) else None
  {
    hide Step;
    if es != [] {
      var n := |es| - 1;
      WaitingIsPlaced(c, s, es[..n], id);
      var (s1, marks) := Life(c, s, es[..n]);
      StepWaits(c, s1, es[n], id);
      assert (marks + [Step(c, s1, es[n]).1])[..n] == marks;
    }
  }

  lemma StepWaits(c: Caps, s: State, e: Event, id: string)
    ensures var (s1, m) := Step(c, s, e);
      (if id in s1.waiting then Some(s1.waiting[id]) else None)
      == if m.Placed? && m.intent.id == id then Some(m.intent)
         else if e.LiveFinish? && e.id == id then None
         else if id in s.waiting then Some(s.waiting[id]) else None
  {
    hide CheckLiveCaps, IsIndex, RefPrice;
  }

  /** The id is new, and it is not an entry while halted. */
  predicate Admitted(s: State, intent: Intent, halted: bool) {
    intent.id !in s.seen && !(halted && intent.purpose.Entry?)
  }

  predicate Is(m: Mark, intent: Intent, d: Decision) { m == Decided(intent, d) }

  /** What becomes of each shadow or paper submission, in every history. */
  lemma SubmissionOutcome(c: Caps, s: State, es: seq<Event>, i: nat)
    requires i < |es| && es[i].Submit?
    ensures |Life(c, s, es).1| == |es|
    ensures var e, now, m := es[i], Life(c, s, es[..i]).0, Life(c, s, es).1[i];
      var admitted := Admitted(now, e.intent, e.halted);
      && (Is(m, e.intent, PaperFilled) <==> admitted && e.mode.Paper? && e.bookFills)
      && (Is(m, e.intent, RejectedBook) <==> admitted && e.mode.Paper? && !e.bookFills)
      && (Is(m, e.intent, ShadowOk) <==> admitted && e.mode.Shadow?)
      && (Is(m, e.intent, RejectedBroker) <==> admitted && LiveMode(e.mode))
      && (Is(m, e.intent, DupBlocked) <==> e.intent.id in now.seen)
      && (Is(m, e.intent, RejectedHalt) <==> e.intent.id !in now.seen && !admitted)
  {
    MarkAt(c, s, es, i);
    hide Life;
  }

  /** The price a cap is applied to: the intent's own where it has one, else the last one traded. */
  predicate PricedAt(intent: Intent, ltp: Option<real>, price: real) {
    if intent.refPrice.Some? && intent.refPrice.value != 0.0 then price == intent.refPrice.value
    else if ltp.Some? then price == ltp.value else price == 0.0
  }

  /** Every cap holds, in no particular order. */
  ghost predicate WithinCaps(c: Caps, s: State, intent: Intent, ctx: Context, ltp: Option<real>) {
    && !s.tripped && ctx.segment in c.segments && ctx.exposureOk
    && !(c.skipIndex && |intent.code| >= 6 && intent.code[..6] == "999920")
    && ctx.openPositions < c.maxPositions && s.ordersToday < c.maxOrders && ctx.now <= c.cutoff
    && -c.dailyLoss < ctx.dayPnl
    && exists price :: PricedAt(intent, ltp, price)
         && price * intent.qty as real * intent.multiplier as real <= c.maxNotional
  }

  lemma CapsHoldIff(c: Caps, s: State, intent: Intent, ctx: Context, ltp: Option<real>)
    ensures CheckLiveCaps(c, s, intent, ctx, ltp).None? <==> intent.purpose.Exit? || WithinCaps(c, s, intent, ctx, ltp)
  {
    assert PricedAt(intent, ltp, RefPrice(intent, ltp));
    assert forall price :: PricedAt(intent, ltp, price) ==> price == RefPrice(intent, ltp);
  }

  /** The orders counted on a day: those so far if it is still the same one. */
  function OrdersOn(s: State, day: int): int { if s.day == day then s.ordersToday else 0 }

  /** What becomes of each live call up to the broker, in every history: it is sent if and only if the
      mode is live and configured, its id is new, no halt stands in an entry's way and, for a capped
      entry with the day's orders counted so far, every cap holds. */
  lemma LiveOutcome(c: Caps, s: State, es: seq<Event>, i: nat)
    requires i < |es| && es[i].LiveStart?
    ensures |Life(c, s, es).1| == |es|
    ensures var e, now, m := es[i], Life(c, s, es[..i]).0, Life(c, s, es).1[i];
      var live, admitted := LiveMode(e.mode) && e.configured, Admitted(now, e.intent, e.halted);
      var within := e.mode.LiveCapped? && e.intent.purpose.Entry? ==>
        WithinCaps(c, now.(ordersToday := OrdersOn(now, e.day)), e.intent, e.ctx, e.ltp);
      && (m == Placed(e.intent) <==> live && admitted && within)
      && (Is(m, e.intent, RejectedCap) <==> live && admitted && !within)
      && (Is(m, e.intent, RejectedBroker) <==> !live)
      && (Is(m, e.intent, DupBlocked) <==> live && e.intent.id in now.seen)
      && (Is(m, e.intent, RejectedHalt) <==> live && e.intent.id !in now.seen && !admitted)
  {
    MarkAt(c, s, es, i);
    StartOutcome(c, Life(c, s, es[..i]).0, es[i]);
    hide Life, Step, WithinCaps;
  }

  lemma StartOutcome(c: Caps, s: State, e: Event)
    requires e.LiveStart?
    ensures var m := Step(c, s, e).1;
      var live, admitted := LiveMode(e.mode) && e.configured, Admitted(s, e.intent, e.halted);
      var within := e.mode.LiveCapped? && e.intent.purpose.Entry? ==>
        WithinCaps(c, s.(ordersToday := OrdersOn(s, e.day)), e.intent, e.ctx, e.ltp);
      && (m == Placed(e.intent) <==> live && admitted && within)
      && (Is(m, e.intent, RejectedCap) <==> live && admitted && !within)
      && (Is(m, e.intent, RejectedBroker) <==> !live)
      && (Is(m, e.intent, DupBlocked) <==> live && e.intent.id in s.seen)
      && (Is(m, e.intent, RejectedHalt) <==> live && e.intent.id !in s.seen && !admitted)
  {
    hide CheckLiveCaps, WithinCaps;
    var s1 := Rollover(s, e.day).(seen := s.seen + {e.intent.id});
    CapsHoldIff(c, s1, e.intent, e.ctx, e.ltp);
    SeenIsNoCap(c, s1, s.(ordersToday := OrdersOn(s, e.day)), e.intent, e.ctx, e.ltp);
  }

  lemma SeenIsNoCap(c: Caps, s: State, before: State, intent: Intent, ctx: Context, ltp: Option<real>)
    requires s.tripped == before.tripped && s.ordersToday == before.ordersToday
    ensures WithinCaps(c, s, intent, ctx, ltp) <==> WithinCaps(c, before, intent, ctx, ltp)
  {
  }

  /** A new exit is always sent in a live mode, whatever the halt, the caps and the breaker say. */
  lemma NewExitIsPlaced(c: Caps, s: State, es: seq<Event>, i: nat)
    requires i < |es| && es[i].LiveStart? && LiveMode(es[i].mode) && es[i].configured
    requires es[i].intent.purpose.Exit? && es[i].intent.id !in Life(c, s, es[..i]).0.seen
    ensures |Life(c, s, es).1| == |es| && Life(c, s, es).1[i] == Placed(es[i].intent)
  {
    hide Life, WithinCaps;
    LiveOutcome(c, s, es, i);
  }

  /** What becomes of each answer of the broker: it decides the intent placed under its id. */
  lemma AnswerOutcome(c: Caps, s: State, es: seq<Event>, i: nat)
    requires i < |es| && es[i].LiveFinish?
    ensures |Life(c, s, es).1| == |es|
    ensures var e, (now, before), m := es[i], Life(c, s, es[..i]), Life(c, s, es).1[i];
      |before| == i && var placed := PlacedOf(s, es[..i], before, e.id);
      m == if placed.None? || e.outcome.Raised? then Silent
           else Decided(placed.value, if e.outcome.Filled? then Submitted else RejectedBroker)
  {
    MarkAt(c, s, es, i);
    WaitingIsPlaced(c, s, es[..i], es[i].id);
    hide Life, PlacedOf;
  }

  // ---- the day's orders -----------------------------------------------------------------------

  predicate Dated(e: Event) { e.Submit? || e.LiveStart? }

  /** The day of the last call that had one. */
  function DayAfter(s: State, es: seq<Event>): int {
    if es == [] then s.day
    else if Dated(es[|es| - 1]) then es[|es| - 1].day
    else DayAfter(s, es[..|es| - 1])
  }

  /** The fills since the day last changed, that call included. */
  function FillsToday(s: State, es: seq<Event>, marks: seq<Mark>): int
    requires |es| == |marks|
  {
    if es == [] then s.ordersToday
    else
      var n := |es| - 1;
      var changes := Dated(es[n]) && es[n].day != DayAfter(s, es[..n]);
      (if changes then 0 else FillsToday(s, es[..n], marks[..n])) + One(marks[n].Decided? && IsFill(marks[n].decision))
  }

  /** In every history the day's orders are its fills. */
  lemma {:induction false} OrdersCountFills(c: Caps, s: State, es: seq<Event>)
    ensures var (s1, marks) := Life(c, s, es);
      |marks| == |es| && s1.day == DayAfter(s, es) && s1.ordersToday == FillsToday(s, es, marks)
  {
    hide Step;
    if es != [] {
      var n := |es| - 1;
      OrdersCountFills(c, s, es[..n]);
      var (s1, marks) := Life(c, s, es[..n]);
      StepCountsFill(c, s1, es[n]);
      assert (marks + [Step(c, s1, es[n]).1])[..n] == marks;
    }
  }

  lemma StepCountsFill(c: Caps, s: State, e: Event)
    ensures var (s1, m) := Step(c, s, e);
      && s1.day == (if Dated(e) then e.day else s.day)
      && s1.ordersToday ==
           (if Dated(e) && e.day != s.day then 0 else s.ordersToday) + One(m.Decided? && IsFill(m.decision))
  {
    hide CheckLiveCaps;
  }

  // ---- the breaker is its history -------------------------------------------------------------

  predicate Clears(m: Mark) { m.BreakerReset? || (m.Decided? && (IsFill(m.decision) || m.decision.ShadowOk?)) }

  predicate Counts(m: Mark) { m.Decided? && IsRejection(m.decision) }

  /** Rejections in `marks[from..]`. */
  function RejectionsFrom(marks: seq<Mark>, from: nat): nat
    requires from <= |marks|
    decreases |marks| - from
  {
    if from == |marks| then 0 else One(Counts(marks[from])) + RejectionsFrom(marks, from + 1)
  }

  /** One past the last mark that satisfies `p`, or zero. */
  function AfterLast(p: Mark -> bool, marks: seq<Mark>): (i: nat)
    ensures i <= |marks|
  {
    if marks == [] then 0
    else if p(marks[|marks| - 1]) then |marks|
    else AfterLast(p, marks[..|marks| - 1])
  }

  /** Non-duplicate rejections since the last fill, shadow pass or reset. */
  function RecentRejections(marks: seq<Mark>): nat { RejectionsFrom(marks, AfterLast(Clears, marks)) }

  /** At some rejection since the last reset, that count had reached the cap. */
  ghost predicate ReachedCap(cap: int, marks: seq<Mark>) {
    exists n :: AfterLast((m: Mark) => m.BreakerReset?, marks) < n <= |marks|
      && Counts(marks[n - 1]) && RecentRejections(marks[..n]) >= cap
  }

  lemma {:induction false} RejectionsGrow(marks: seq<Mark>, m: Mark, from: nat)
    requires from <= |marks|
    ensures RejectionsFrom(marks + [m], from) == RejectionsFrom(marks, from) + One(Counts(m))
    decreases |marks| - from
  {
    if from < |marks| {
      RejectionsGrow(marks, m, from + 1);
    } else {
      assert RejectionsFrom(marks + [m], from + 1) == 0;
    }
  }

  lemma RecentGrows(marks: seq<Mark>, m: Mark)
    ensures RecentRejections(marks + [m]) == if Clears(m) then 0 else RecentRejections(marks) + One(Counts(m))
  {
    assert (marks + [m])[..|marks|] == marks;
    RejectionsGrow(marks, m, AfterLast(Clears, marks));
  }

  lemma ReachedGrows(cap: int, marks: seq<Mark>, m: Mark)
    ensures ReachedCap(cap, marks + [m])
      <==> !m.BreakerReset? && (ReachedCap(cap, marks) || (Counts(m) && RecentRejections(marks + [m]) >= cap))
  {
    hide RecentRejections;
    var more := marks + [m];
    var reset := (x: Mark) => x.BreakerReset?;
    assert more[..|marks|] == marks && more[..|more|] == more;
    assert AfterLast(reset, more) == if m.BreakerReset? then |more| else AfterLast(reset, marks);
    if n :| AfterLast(reset, marks) < n <= |marks| && Counts(marks[n - 1]) && RecentRejections(marks[..n]) >= cap {
      assert more[..n] == marks[..n] && more[n - 1] == marks[n - 1];
    }
    if n :| AfterLast(reset, more) < n <= |more| && Counts(more[n - 1]) && RecentRejections(more[..n]) >= cap {
      assert n <= |marks| ==> more[..n] == marks[..n] && more[n - 1] == marks[n - 1];
    }
    if Counts(m) && RecentRejections(more) >= cap {
      assert Counts(more[|more| - 1]) && RecentRejections(more[..|more|]) >= cap;
    }
  }

  lemma StepBreaker(c: Caps, s: State, e: Event)
    ensures var (s1, m) := Step(c, s, e);
      && s1.rejects == (if Clears(m) then 0 else s.rejects + One(Counts(m)))
      && (s1.tripped <==> !m.BreakerReset? && (s.tripped || (Counts(m) && s1.rejects >= c.breaker)))
  {
    hide CheckLiveCaps, IsIndex, RefPrice;
  }

  /** The breaker as history: the counter is the non-duplicate rejections since the last fill, shadow
      pass or reset, and the breaker is tripped exactly when that count has reached the cap at some
      rejection since the last reset. */
  lemma {:induction false} BreakerIsHistory(c: Caps, s: State, es: seq<Event>)
    requires s.rejects == 0 && !s.tripped
    ensures var (s1, marks) := Life(c, s, es);
      s1.rejects == RecentRejections(marks) && (s1.tripped <==> ReachedCap(c.breaker, marks))
  {
    hide Step, RecentRejections, ReachedCap, Clears, Counts;
    if es == [] {
      assert RecentRejections([]) == 0 && !ReachedCap(c.breaker, []) by { NoHistory(c.breaker); }
    } else {
      var n := |es| - 1;
      BreakerIsHistory(c, s, es[..n]);
      var (s1, marks) := Life(c, s, es[..n]);
      var m := Step(c, s1, es[n]).1;
      StepBreaker(c, s1, es[n]);
      RecentGrows(marks, m);
      ReachedGrows(c.breaker, marks, m);
    }
  }

  lemma NoHistory(cap: int)
    ensures RecentRejections([]) == 0 && !ReachedCap(cap, [])
  {
  }

  // ---- how far the daily order cap holds ------------------------------------------------------

  /** The entries placed under the live caps: how many have filled since the day's count last started,
      and which still wait for the broker. */
  datatype Tally = Tally(fills: nat, waiting: set<string>)

  predicate StartsDay(s: State, e: Event) {
    match e
    case Submit(_, day, _, _, _) => day != s.day
    case LiveStart(_, day, _, _, _, _, _) => day != s.day
    case _ => false
  }

  predicate CappedEntry(e: Event) { e.LiveStart? && e.mode.LiveCapped? && e.intent.purpose.Entry? }

  function Count(t: Tally, s: State, e: Event, m: Mark): Tally {
    var t0 := if StartsDay(s, e) then t.(fills := 0) else t;
    if CappedEntry(e) && m.Placed? then t0.(waiting := t0.waiting + {e.intent.id})
    else if e.LiveFinish? && e.id in t0.waiting then
      Tally(t0.fills + One(m.Decided? && IsFill(m.decision)), t0.waiting - {e.id})
    else t0
  }

  function CappedEntries(c: Caps, s: State, es: seq<Event>): Tally {
    if es == [] then Tally(0, {})
    else
      var n := |es| - 1;
      var s1 := Life(c, s, es[..n]).0;
      Count(CappedEntries(c, s, es[..n]), s1, es[n], Step(c, s1, es[n]).1)
  }

  /** At most this many of them ever wait at once. */
  predicate OverlapWithin(c: Caps, s: State, es: seq<Event>, overlap: nat) {
    forall i :: 0 <= i <= |es| ==> |CappedEntries(c, s, es[..i]).waiting| <= overlap
  }

  predicate Bounded(c: Caps, s: State, t: Tally, overlap: nat) {
    && t.fills <= s.ordersToday
    && t.fills + |t.waiting| <= if c.maxOrders <= 0 then 0 else c.maxOrders + overlap - 1
  }

  lemma CountBounded(c: Caps, s: State, t: Tally, e: Event, overlap: nat)
    requires Bounded(c, s, t, overlap) && |t.waiting| <= overlap
    requires |Count(t, s, e, Step(c, s, e).1).waiting| <= overlap
    ensures Bounded(c, Step(c, s, e).0, Count(t, s, e, Step(c, s, e).1), overlap)
  {
    hide SubmitStep, StartStep, FinishStep;
    match e
    case Submit(_, _, _, _, _) => SubmitCounts(c, s, e);
    case LiveStart(_, _, _, _, _, _, _) => StartCounts(c, s, e);
    case LiveFinish(id, _) => FinishCounts(c, s, e);
    case Remember(_) =>
    case ResetBreaker =>
  }

  lemma SubmitCounts(c: Caps, s: State, e: Event)
    requires e.Submit?
    ensures Step(c, s, e).0.ordersToday >= if StartsDay(s, e) then 0 else s.ordersToday
  {
  }

  lemma StartCounts(c: Caps, s: State, e: Event)
    requires e.LiveStart?
    ensures var before := if StartsDay(s, e) then 0 else s.ordersToday;
      && Step(c, s, e).0.ordersToday == before
      && (CappedEntry(e) && Step(c, s, e).1.Placed? ==> before < c.maxOrders)
  {
    hide IsIndex, RefPrice;
  }

  lemma FinishCounts(c: Caps, s: State, e: Event)
    requires e.LiveFinish?
    ensures var (s1, m) := Step(c, s, e); s1.ordersToday == s.ordersToday + One(m.Decided? && IsFill(m.decision))
  {
  }

  /** The daily order cap is checked before the broker wait and counted after it, so it holds up to
      the overlap. In any history, whatever exits, paper, shadow and uncapped orders are in it, if at
      most `overlap` capped entries wait for the broker at once, then those filled in a day and those
      waiting are at most `overlap - 1` more than the cap; one at a time keeps the cap. */
  lemma {:induction false} DailyOrdersBounded(c: Caps, s: State, es: seq<Event>, overlap: nat)
    requires 0 <= s.ordersToday && OverlapWithin(c, s, es, overlap)
    ensures Bounded(c, Life(c, s, es).0, CappedEntries(c, s, es), overlap)
  {
    hide Step, Count, Bounded;
    if es == [] {
      assert Bounded(c, s, Tally(0, {}), overlap) by { NothingCounted(c, s, overlap); }
    } else {
      var n := |es| - 1;
      forall i | 0 <= i <= n ensures |CappedEntries(c, s, es[..n][..i]).waiting| <= overlap {
        assert es[..n][..i] == es[..i];
      }
      assert es[..n + 1] == es;
      DailyOrdersBounded(c, s, es[..n], overlap);
      CountBounded(c, Life(c, s, es[..n]).0, CappedEntries(c, s, es[..n]), es[n], overlap);
    }
  }

  lemma NothingCounted(c: Caps, s: State, overlap: nat)
    requires 0 <= s.ordersToday
    ensures Bounded(c, s, Tally(0, {}), overlap)
  {
    assert c.maxOrders > 0 ==> 0 <= c.maxOrders + overlap - 1;
  }

  // ---- and how far it does not ----------------------------------------------------------------

  function Name(n: nat): string { seq(n, i => 'x') }

  function Names(first: nat, past: nat): set<string> { set i: nat | first <= i < past :: Name(i) }

  function EntryOf(id: string): Intent { Intent(id, Entry, "1", 1, 1, Some(1.0)) }

  const AT_TEN := Context(0, 0.0, 600, "NSE_EQ", true)

  function CapsOf(maxOrders: int): Caps { DEFAULT_CAPS.(maxOrders := maxOrders) }

  function StartOf(n: nat): Event { LiveStart(EntryOf(Name(n)), 0, LiveCapped, true, false, AT_TEN, None) }

  function FinishOf(n: nat): Event { LiveFinish(Name(n), Filled) }

  /** `started` entries were placed, and the first `filled` of them filled. */
  function Mid(filled: nat, started: nat): State {
    State(Names(0, started), filled, 0, false, 0, map id | id in Names(filled, started) :: EntryOf(id))
  }

  function OneByOne(n: nat): seq<Event> {
    if n == 0 then [] else OneByOne(n - 1) + [StartOf(n - 1)] + [FinishOf(n - 1)]
  }

  function Together(first: nat, n: nat): seq<Event> {
    if n == 0 then [] else Together(first, n - 1) + [StartOf(first + n - 1)]
  }

  function Fulfilled(first: nat, n: nat): seq<Event> {
    if n == 0 then [] else Fulfilled(first, n - 1) + [FinishOf(first + n - 1)]
  }

  /** All but one of the day's orders one by one, and then `overlap` at once. */
  function WorstDay(cap: nat, overlap: nat): seq<Event>
    requires cap >= 1
  {
    OneByOne(cap - 1) + Together(cap - 1, overlap) + Fulfilled(cap - 1, overlap)
  }

  predicate Reaches(cap: nat, es: seq<Event>, filled: nat, started: nat, overlap: nat) {
    && Life(CapsOf(cap), NEW, es).0 == Mid(filled, started)
    && CappedEntries(CapsOf(cap), NEW, es) == Tally(filled, Names(filled, started))
    && OverlapWithin(CapsOf(cap), NEW, es, overlap)
  }

  lemma NameOf(i: nat)
    ensures |Name(i)| == i
  {
  }

  lemma {:induction false} NamesSize(first: nat, past: nat)
    requires first <= past
    ensures |Names(first, past)| == past - first
    decreases past
  {
    if first < past {
      NamesSize(first, past - 1);
      NamesGrow(first, past - 1);
    }
  }

  lemma NamesGrow(first: nat, past: nat)
    requires first <= past
    ensures Names(first, past + 1) == Names(first, past) + {Name(past)} && Name(past) !in Names(first, past)
    ensures Names(first, past + 1) - {Name(first)} == Names(first + 1, past + 1)
    ensures Name(first) in Names(first, past + 1)
  {
    hide Name;
    forall i: nat, j: nat | Name(i) == Name(j) ensures i == j {
      NameOf(i);
      NameOf(j);
    }
    forall i: nat | first <= i < past + 1 ensures Name(i) in Names(first, past) + {Name(past)} {
    }
    forall i: nat | first + 1 <= i < past + 1 ensures Name(i) in Names(first, past + 1) - {Name(first)} {
    }
  }

  lemma StartReaches(cap: nat, es: seq<Event>, filled: nat, started: nat, overlap: nat)
    requires Reaches(cap, es, filled, started, overlap) && filled < cap && filled <= started < filled + overlap
    ensures Reaches(cap, es + [StartOf(started)], filled, started + 1, overlap)
  {
    hide Life, CappedEntries, Names, Name, OverlapWithin;
    var c, e := CapsOf(cap), StartOf(started);
    NamesGrow(0, started);
    NamesGrow(filled, started);
    assert !IsIndex("1");
    var s, id := Mid(filled, started), Name(started);
    assert CheckLiveCaps(c, s.(seen := s.seen + {id}), EntryOf(id), AT_TEN, None).None?;
    assert s.waiting[id := EntryOf(id)] == Mid(filled, started + 1).waiting;
    assert Step(c, Mid(filled, started), e) == (Mid(filled, started + 1), Placed(EntryOf(Name(started))));
    NamesSize(filled, started + 1);
    EventCounts(c, es, e, overlap);
  }

  lemma FinishReaches(cap: nat, es: seq<Event>, filled: nat, started: nat, overlap: nat)
    requires Reaches(cap, es, filled, started, overlap) && filled < started <= filled + overlap
    ensures Reaches(cap, es + [FinishOf(filled)], filled + 1, started, overlap)
  {
    hide Life, CappedEntries, Names, Name, OverlapWithin;
    var c, e := CapsOf(cap), FinishOf(filled);
    NamesGrow(filled, started - 1);
    assert Mid(filled, started).waiting - {Name(filled)} == Mid(filled + 1, started).waiting;
    assert Step(c, Mid(filled, started), e) == (Mid(filled + 1, started), Decided(EntryOf(Name(filled)), Submitted));
    NamesSize(filled + 1, started);
    EventCounts(c, es, e, overlap);
  }

  /** One more event, within the overlap. */
  lemma EventCounts(c: Caps, es: seq<Event>, e: Event, overlap: nat)
    ensures var s := Life(c, NEW, es).0;
      && Life(c, NEW, es + [e]).0 == Step(c, s, e).0
      && CappedEntries(c, NEW, es + [e]) == Count(CappedEntries(c, NEW, es), s, e, Step(c, s, e).1)
    ensures OverlapWithin(c, NEW, es, overlap) && |CappedEntries(c, NEW, es + [e]).waiting| <= overlap
      ==> OverlapWithin(c, NEW, es + [e], overlap)
  {
    hide Step, Count;
    assert (es + [e])[..|es|] == es && (es + [e])[..|es| + 1] == es + [e];
    assert forall i :: 0 <= i <= |es| ==> (es + [e])[..i] == es[..i];
  }

  lemma {:induction false} OneByOneReaches(cap: nat, n: nat, overlap: nat)
    requires n <= cap && overlap >= 1
    ensures Reaches(cap, OneByOne(n), n, n, overlap)
  {
    assert n == 0 ==> Names(0, 0) == {} && Reaches(cap, [], 0, 0, overlap);
    hide Reaches;
    if n > 0 {
      OneByOneReaches(cap, n - 1, overlap);
      StartReaches(cap, OneByOne(n - 1), n - 1, n - 1, overlap);
      FinishReaches(cap, OneByOne(n - 1) + [StartOf(n - 1)], n - 1, n, overlap);
    }
  }

  lemma {:induction false} TogetherReaches(cap: nat, es: seq<Event>, first: nat, n: nat, overlap: nat)
    requires Reaches(cap, es, first, first, overlap) && first < cap && n <= overlap
    ensures Reaches(cap, es + Together(first, n), first, first + n, overlap)
  {
    hide Reaches;
    if n == 0 {
      assert es + Together(first, 0) == es;
    } else {
      TogetherReaches(cap, es, first, n - 1, overlap);
      StartReaches(cap, es + Together(first, n - 1), first, first + n - 1, overlap);
      assert es + Together(first, n) == es + Together(first, n - 1) + [StartOf(first + n - 1)];
    }
  }

  lemma {:induction false} FulfilledReaches(cap: nat, es: seq<Event>, first: nat, n: nat, overlap: nat)
    requires Reaches(cap, es, first, first + overlap, overlap) && n <= overlap
    ensures Reaches(cap, es + Fulfilled(first, n), first + n, first + overlap, overlap)
  {
    hide Reaches;
    if n == 0 {
      assert es + Fulfilled(first, 0) == es;
    } else {
      FulfilledReaches(cap, es, first, n - 1, overlap);
      FinishReaches(cap, es + Fulfilled(first, n - 1), first + n - 1, first + overlap, overlap);
      assert es + Fulfilled(first, n) == es + Fulfilled(first, n - 1) + [FinishOf(first + n - 1)];
    }
  }

  /** The bound is reached, for every cap and every overlap: with the last order of the day open, as
      many entries as overlap all pass the check, and all fill. */
  lemma OverlapReachesBound(cap: nat, overlap: nat)
    requires cap >= 1 && overlap >= 1
    ensures OverlapWithin(CapsOf(cap), NEW, WorstDay(cap, overlap), overlap)
    ensures CappedEntries(CapsOf(cap), NEW, WorstDay(cap, overlap)) == Tally(cap + overlap - 1, {})
    ensures Life(CapsOf(cap), NEW, WorstDay(cap, overlap)).0.ordersToday == cap + overlap - 1
  {
    hide Life, CappedEntries, OverlapWithin;
    OneByOneReaches(cap, cap - 1, overlap);
    TogetherReaches(cap, OneByOne(cap - 1), cap - 1, overlap, overlap);
    FulfilledReaches(cap, OneByOne(cap - 1) + Together(cap - 1, overlap), cap - 1, overlap, overlap);
    assert Names(cap + overlap - 1, cap + overlap - 1) == {};
  }
}
