/** The event bus, one topic at a time: publishers that may block, consumers, and subscriptions that
    may be added while a publisher waits. An event is known by its publication number. */
module Bus {
  import opened Wrappers
  import opened Sorting

  datatype Policy = DropOldest | Block

  datatype Topic =
    | Tick | Depth | Oi | Bar | Boundary | Signal | OrderIntent | OrderEvent | Fill | PositionEvent | Control

  predicate NeverDrop(t: Topic) { !(t.Tick? || t.Depth? || t.Oi? || t.Bar?) }

  function DefaultPolicy(t: Topic): Policy { if NeverDrop(t) then Block else DropOldest }

  /** A subscription, with its history: what reached it, what its consumer took, and what it is owed,
      the events published since it subscribed or still being published then. A limit of zero or
      less is no limit. */
  datatype Sub = Sub(policy: Policy, limit: int, queue: seq<nat>, dropped: nat,
                     offered: seq<nat>, delivered: seq<nat>, owed: set<nat>)

  /** `tasks` maps a publication in progress to the index of the subscription it serves next. */
  datatype State = State(subs: seq<Sub>, tasks: map<nat, nat>, published: nat)

  datatype Step = Subscribe(policy: Policy, limit: int) | Publish | Serve(id: nat) | Consume(k: nat)

  const EMPTY := State([], map[], 0)

  predicate Full(s: Sub) { 0 < s.limit <= |s.queue| }

  /** Hands an event to a subscription that can take it, dropping the oldest if it must. */
  function Offer(s: Sub, id: nat): Sub {
    var s0 := if Full(s) then s.(queue := s.queue[1..], dropped := s.dropped + 1) else s;
    s0.(queue := s0.queue + [id], offered := s0.offered + [id])
  }

  /** A blocking subscription that is full makes its publisher wait. */
  predicate Waits(s: Sub) { s.policy.Block? && Full(s) }

  function OwedMore(subs: seq<Sub>, id: nat): (out: seq<Sub>)
    ensures |out| == |subs| && forall k :: 0 <= k < |subs| ==> out[k] == subs[k].(owed := subs[k].owed + {id})
  {
    seq(|subs|, k requires 0 <= k < |subs| => subs[k].(owed := subs[k].owed + {id}))
  }

  function Next(s: State, e: Step): State {
    match e
    case Subscribe(policy, limit) => s.(subs := s.subs + [Sub(policy, limit, [], 0, [], [], s.tasks.Keys)])
    case Publish =>
      var id := s.published;
      s.(published := id + 1, subs := OwedMore(s.subs, id), tasks := if s.subs == [] then s.tasks else s.tasks[id := 0])
    case Serve(id) =>
      if id !in s.tasks || s.tasks[id] >= |s.subs| || Waits(s.subs[s.tasks[id]]) then s
      else
        var k := s.tasks[id];
        s.(subs := s.subs[k := Offer(s.subs[k], id)],
           tasks := if k + 1 == |s.subs| then s.tasks - {id} else s.tasks[id := k + 1])
    case Consume(k) =>
      if k >= |s.subs| || s.subs[k].queue == [] then s
      else
        var sub := s.subs[k];
        s.(subs := s.subs[k := sub.(queue := sub.queue[1..], delivered := sub.delivered + [sub.queue[0]])])
  }

  function After(run: seq<Step>): State {
    if run == [] then EMPTY else Next(After(run[..|run| - 1]), run[|run| - 1])
  }

  // ---- what a subscription keeps --------------------------------------------------------------

  predicate Subsequence(a: seq<nat>, b: seq<nat>) {
    a == []
    || (b != [] && (Subsequence(a, b[..|b| - 1])
                    || (a[|a| - 1] == b[|b| - 1] && Subsequence(a[..|a| - 1], b[..|b| - 1]))))
  }

  /** What has left the queue, delivered or dropped. */
  function Gone(s: Sub): seq<nat>
    requires |s.queue| <= |s.offered|
  {
    s.offered[..|s.offered| - |s.queue|]
  }

  /** The queue is the latest of what was offered, in order; the rest was delivered, in order, or
      dropped; and a blocking subscription drops nothing. */
  predicate Conserves(s: Sub) {
    && |s.queue| <= |s.offered|
    && s.queue == s.offered[|s.offered| - |s.queue|..]
    && |s.offered| == |s.delivered| + |s.queue| + s.dropped
    && Subsequence(s.delivered, Gone(s))
    && (s.policy.Block? ==> s.dropped == 0 && s.offered == s.delivered + s.queue)
    && (s.limit > 0 ==> |s.queue| <= s.limit)
  }

  lemma SubsequenceGrows(a: seq<nat>, b: seq<nat>, x: nat)
    requires Subsequence(a, b)
    ensures Subsequence(a, b + [x]) && Subsequence(a + [x], b + [x])
  {
    assert (b + [x])[..|b|] == b && (a + [x])[..|a|] == a;
  }

  lemma OfferConserves(s: Sub, id: nat)
    requires Conserves(s) && !Waits(s)
    ensures Conserves(Offer(s, id))
  {
    hide Subsequence;
    var s1 := Offer(s, id);
    var cut := |s.offered| - |s.queue|;
    if Full(s) {
      assert s.offered[cut] == s.queue[0];
      assert Gone(s1) == Gone(s) + [s.queue[0]];
      SubsequenceGrows(s.delivered, Gone(s), s.queue[0]);
      assert s1.queue == s1.offered[cut + 1..];
    } else {
      assert Gone(s1) == Gone(s);
      assert s1.queue == s1.offered[cut..];
      assert s.policy.Block? ==> s1.offered == s1.delivered + s1.queue;
    }
  }

  lemma ConsumeConserves(s: Sub)
    requires Conserves(s) && s.queue != []
    ensures Conserves(s.(queue := s.queue[1..], delivered := s.delivered + [s.queue[0]]))
  {
    hide Subsequence;
    var s1 := s.(queue := s.queue[1..], delivered := s.delivered + [s.queue[0]]);
    var cut := |s.offered| - |s.queue|;
    assert s.offered[cut] == s.queue[0];
    assert Gone(s1) == Gone(s) + [s.queue[0]];
    SubsequenceGrows(s.delivered, Gone(s), s.queue[0]);
    assert s1.queue == s1.offered[cut + 1..];
    assert s.policy.Block? ==> s1.offered == s1.delivered + s1.queue;
  }

  // ---- what it is owed ------------------------------------------------------------------------

  /** Publications in progress that have yet to reach subscription `k`. */
  function Coming(s: State, k: nat): set<nat> { set id | id in s.tasks && s.tasks[id] <= k }

  /** Everything owed has been offered, once, or is still coming. */
  ghost predicate Settled(s: State, k: nat)
    requires k < |s.subs|
  {
    && Distinct(s.subs[k].offered)
    && (forall id :: id in s.subs[k].owed <==> id in s.subs[k].offered || id in Coming(s, k))
    && (forall id :: id in Coming(s, k) ==> id !in s.subs[k].offered)
    && (forall id :: id in s.subs[k].owed ==> id < s.published)
  }

  ghost predicate Sound(s: State) {
    && (forall id :: id in s.tasks ==> s.tasks[id] < |s.subs| && id < s.published)
    && (forall k :: 0 <= k < |s.subs| ==> Conserves(s.subs[k]) && Settled(s, k))
  }

  lemma SubscribeSound(s: State, policy: Policy, limit: int)
    requires Sound(s)
    ensures Sound(Next(s, Subscribe(policy, limit)))
  {
    hide Subsequence, Conserves;
    var s1, n := Next(s, Subscribe(policy, limit)), |s.subs|;
    assert Conserves(s1.subs[n]) by { NewConserves(policy, limit, s.tasks.Keys); }
    forall k | 0 <= k < n ensures Conserves(s1.subs[k]) && Settled(s1, k) {
      assert s1.subs[k] == s.subs[k] && Coming(s1, k) == Coming(s, k);
    }
    assert Coming(s1, n) == s.tasks.Keys;
  }

  lemma NewConserves(policy: Policy, limit: int, owed: set<nat>)
    ensures Conserves(Sub(policy, limit, [], 0, [], [], owed))
  {
  }

  lemma PublishSound(s: State)
    requires Sound(s)
    ensures Sound(Next(s, Publish))
  {
    hide Conserves;
    var s1, id := Next(s, Publish), s.published;
    forall k | 0 <= k < |s.subs| ensures Conserves(s1.subs[k]) && Settled(s1, k) {
      assert Conserves(s1.subs[k]) by { OwedConserves(s.subs[k], s.subs[k].owed + {id}); }
      assert Coming(s1, k) == Coming(s, k) + {id};
      assert id !in s.subs[k].owed;
    }
  }

  lemma OwedConserves(s: Sub, owed: set<nat>)
    requires Conserves(s)
    ensures Conserves(s.(owed := owed))
  {
    hide Subsequence;
  }

  lemma ServeSound(s: State, id: nat)
    requires Sound(s)
    ensures Sound(Next(s, Serve(id)))
  {
    assert forall k :: 0 <= k < |s.subs| ==>
      Offer(s.subs[k], id).offered == s.subs[k].offered + [id] && Offer(s.subs[k], id).owed == s.subs[k].owed;
    hide Conserves, Offer, Waits;
    if id in s.tasks && !Waits(s.subs[s.tasks[id]]) {
      var s1, k := Next(s, Serve(id)), s.tasks[id];
      OfferConserves(s.subs[k], id);
      forall j | 0 <= j < |s.subs| ensures Conserves(s1.subs[j]) && Settled(s1, j) {
        assert Conserves(s.subs[j]) && Settled(s, j);
        if j == k {
          assert id in Coming(s, k) && Coming(s1, k) == Coming(s, k) - {id};
        } else if j < k {
          assert id !in Coming(s, j) && Coming(s1, j) == Coming(s, j);
        } else {
          assert k + 1 < |s.subs| && Coming(s1, j) == Coming(s, j);
        }
      }
    }
  }

  lemma ConsumeSound(s: State, k: nat)
    requires Sound(s)
    ensures Sound(Next(s, Consume(k)))
  {
    hide Conserves;
    if k < |s.subs| && s.subs[k].queue != [] {
      var s1 := Next(s, Consume(k));
      ConsumeConserves(s.subs[k]);
      forall j | 0 <= j < |s.subs| ensures Conserves(s1.subs[j]) && Settled(s1, j) {
        assert Settled(s, j) && Coming(s1, j) == Coming(s, j);
      }
    }
  }

  /** On every interleaving of publishers, consumers and subscribers: each subscription is owed every
      event published since it subscribed, each of them reached it exactly once or is still waiting
      to; what reached it was delivered, is queued or was dropped; its queue is the latest of what
      reached it, in order; and a blocking subscription dropped nothing and delivers in order. */
  lemma {:induction false} BusConserves(run: seq<Step>)
    ensures Sound(After(run))
  {
    if run == [] {
      return;
    }
    hide Sound, Next;
    var n := |run| - 1;
    BusConserves(run[..n]);
    match run[n]
    case Subscribe(policy, limit) => SubscribeSound(After(run[..n]), policy, limit);
    case Publish => PublishSound(After(run[..n]));
    case Serve(id) => ServeSound(After(run[..n]), id);
    case Consume(k) => ConsumeSound(After(run[..n]), k);
  }

  /** In numbers: the events owed are those delivered, queued, dropped and still coming. */
  lemma OwedIsAccountedFor(run: seq<Step>, k: nat)
    requires k < |After(run).subs|
    ensures var s := After(run);
      |s.subs[k].owed| == |s.subs[k].delivered| + |s.subs[k].queue| + s.subs[k].dropped + |Coming(s, k)|
  {
    hide After, Conserves, Coming;
    BusConserves(run);
    var s := After(run);
    var sub := s.subs[k];
    assert |sub.offered| == |sub.delivered| + |sub.queue| + sub.dropped by { ConservesCount(sub); }
    DistinctSize(sub.offered);
    assert sub.owed == Elements(sub.offered) + Coming(s, k);
    assert Elements(sub.offered) !! Coming(s, k);
  }

  lemma ConservesCount(s: Sub)
    requires Conserves(s)
    ensures |s.offered| == |s.delivered| + |s.queue| + s.dropped
  {
  }

  function Elements(s: seq<nat>): set<nat> { set x | x in s }

  lemma {:induction false} DistinctSize(s: seq<nat>)
    requires Distinct(s)
    ensures |Elements(s)| == |s|
  {
    if s != [] {
      var n := |s| - 1;
      DistinctSize(s[..n]);
      assert s[n] !in Elements(s[..n]);
      assert Elements(s) == Elements(s[..n]) + {s[n]} by {
        assert s == s[..n] + [s[n]];
      }
    }
  }

  /** A publisher waits only for a blocking subscription that is full: otherwise serving moves it on,
      and it ends once every subscription, those added meanwhile included, has been served. */
  lemma ServingMovesOn(run: seq<Step>, id: nat)
    requires id in After(run).tasks
    ensures var s := After(run); var s1 := Next(s, Serve(id)); var k := s.tasks[id];
      && k < |s.subs|
      && var sub := s.subs[k]; var full := 0 < sub.limit <= |sub.queue|;
      && (sub.policy.Block? && full ==> s1 == s)
      && (!(sub.policy.Block? && full) ==>
            && s1.subs[k] == sub.(queue := (if full then sub.queue[1..] else sub.queue) + [id],
                 dropped := sub.dropped + if full then 1 else 0, offered := sub.offered + [id])
            && (forall j :: 0 <= j < |s.subs| && j != k ==> s1.subs[j] == s.subs[j])
            && if k + 1 == |s.subs| then id !in s1.tasks else id in s1.tasks && s1.tasks[id] == k + 1)
  {
    hide After, Conserves, Settled;
    BusConserves(run);
  }

  // ---- the objects ----------------------------------------------------------------------------

  class Subscription {
    const policy: Policy
    const limit: int
    var queue: seq<nat>
    var dropped: nat
    ghost var offered: seq<nat>
    ghost var delivered: seq<nat>

    constructor (topic: Topic, limit: int, policy: Option<Policy>)
      ensures this.policy == if policy.Some? then policy.value
        else if topic in {Boundary, Signal, OrderIntent, OrderEvent, Fill, PositionEvent, Control} then Block
        else DropOldest
      ensures Value() == Sub(this.policy, limit, [], 0, [], [], {})
    {
      this.policy, this.limit := if policy.Some? then policy.value else DefaultPolicy(topic), limit;
      queue, dropped, offered, delivered := [], 0, [], [];
    }

    ghost function Value(): Sub
      reads this
    {
      Sub(policy, limit, queue, dropped, offered, delivered, {})
    }

    /** Takes an event; a publisher that must wait has waited. */
    method Put(id: nat)
      requires !Waits(Value())
      modifies this
      ensures Value() == Offer(old(Value()), id)
      ensures queue == (if 0 < limit <= |old(queue)| then old(queue)[1..] else old(queue)) + [id]
    {
      if limit > 0 && |queue| >= limit {
        queue, dropped := queue[1..], dropped + 1;
      }
      queue, offered := queue + [id], offered + [id];
    }

    method Get() returns (id: nat)
      requires queue != []
      modifies this
      ensures id == old(queue)[0]
      ensures Value() == old(Value()).(queue := old(queue)[1..], delivered := old(delivered) + [id])
    {
      id := queue[0];
      queue, delivered := queue[1..], delivered + [id];
    }
  }

  /** Publishing when no blocking subscription is full: every subscription is served, in order. */
  method PublishNow(subs: seq<Subscription>, id: nat)
    requires forall i, j :: 0 <= i < j < |subs| ==> subs[i] != subs[j]
    requires forall i :: 0 <= i < |subs| ==> !Waits(subs[i].Value())
    modifies subs
    ensures forall i :: 0 <= i < |subs| ==> subs[i].Value() == Offer(old(subs[i].Value()), id)
  {
    hide Waits, Offer;
    for i := 0 to |subs|
      invariant forall j :: 0 <= j < i ==> subs[j].Value() == Offer(old(subs[j].Value()), id)
      invariant forall j :: i <= j < |subs| ==> subs[j].Value() == old(subs[j].Value())
    {
      subs[i].Put(id);
    }
  }
}
