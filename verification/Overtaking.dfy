/** How newcomers get ahead of those who wait: straight into a free slot, or past a queue that activations
    have thinned out. */
module Overtaking {
  import opened Core
  import opened Text
  import opened Lifecycle
  import opened Flutterwave
  import opened Payments
  import opened Ledger
  import opened Trust
  import opened System
  import opened Invariant
  import opened Runs
  import opened Safety
  import opened Limits
  import opened Fifo
  import opened Reuse
  import opened Witnesses

  // ---- Into a free slot --------------------------------------------------------------------------------

  /** An order that is accepted while the slot is taken, as it changes the tables. */
  lemma QueuedOrder(
    s: Sys, l: ListingRef, buyer: Address, units: U128, child: TradeId, qref: QueueRef, ok: bool, now: Time)
    requires Inv(s) && child !in s.pay.trades && qref !in s.queue
    requires ok && Eligibility(s, buyer, units, now) == Done && Orderable(s, l, buyer, units)
    requires s.listings[l].active.Some?
    ensures var (r, reply) := Order(s, l, buyer, units, child, qref, ok, now);
            var x := s.listings[l];
            && reply == Done && r.pay == s.pay && r.guarantors == s.guarantors
            && r.listings == s.listings[l := Reserve(x, units)]
            && r.queue == s.queue[qref := Entry(l, buyer, units, Convert(units, x.rateMinor).value, x.rateMinor,
                                                |WaitingKeys(s.queue, l)| + 1, Queued, None, None, now)]
            && r.profiles == s.profiles[buyer := ProfileOf(s, buyer)]
  {
    hide Inv, Evolves, Eligibility, NewAwaitingPayment, Convert, Conserves, ProfileOf, WaitingKeys;
    OrderOutcome(s, l, buyer, units, child, qref, ok, now);
  }

  /** The entry sorts before one that joins at `position` at time `now`. */
  predicate Ahead(e: Entry, position: nat, now: Time) {
    e.position < position || (e.position == position && e.createdAt < now)
  }

  predicate Behind(e: Entry, position: nat, now: Time) {
    e.position > position || (e.position == position && e.createdAt >= now)
  }

  /** An order that joins the queue is numbered one beyond the number waiting. It sorts strictly behind
      everyone queued exactly when each of them has a smaller number, or the same number and an earlier
      time. And the next resolution may promote it before all of them exactly when none of them has a
      smaller number, or the same number and an earlier time; of those that tie either may come first. */
  lemma NewcomerIsLastExactly(
    s: Sys, l: ListingRef, buyer: Address, units: U128, child: TradeId, qref: QueueRef, ok: bool, now: Time)
    requires Inv(s) && child !in s.pay.trades && qref !in s.queue
    requires ok && Eligibility(s, buyer, units, now) == Done && Orderable(s, l, buyer, units)
    requires s.listings[l].active.Some?
    ensures var (q, r, n) := (s.queue, Order(s, l, buyer, units, child, qref, ok, now).0.queue,
                              |WaitingKeys(s.queue, l)| + 1);
            && QueuedIn(r, l, qref) && qref in r && r[qref].position == n
            && ((forall k :: QueuedIn(q, l, k) ==> k in r && !Precedes(r[qref], r[k]))
                <==> (forall k :: QueuedIn(q, l, k) ==> Ahead(q[k], n, now)))
            && ((exists hint :: NextQueued(r, l, hint) == Some(qref))
                <==> (forall k :: QueuedIn(q, l, k) ==> Behind(q[k], n, now)))
  {
    hide Inv, Eligibility, Orderable, Order, Convert, ProfileOf, WaitingKeys;
    QueuedOrder(s, l, buyer, units, child, qref, ok, now);
    JoinedRank(s.queue, l, qref, Order(s, l, buyer, units, child, qref, ok, now).0.queue, now);
  }

  lemma JoinedRank(q: Queue, l: ListingRef, k: QueueRef, r: Queue, now: Time)
    requires k !in q && k in r && r == q[k := r[k]] && r[k].listing == l && r[k].status == Queued
             && r[k].createdAt == now
    ensures (forall j :: QueuedIn(q, l, j) ==> j in r && !Precedes(r[k], r[j]))
       <==> (forall j :: QueuedIn(q, l, j) ==> Ahead(q[j], r[k].position, now))
    ensures (exists hint :: NextQueued(r, l, hint) == Some(k))
       <==> (forall j :: QueuedIn(q, l, j) ==> Behind(q[j], r[k].position, now))
  {
    forall j | QueuedIn(q, l, j)
      ensures j in r && r[j] == q[j] && (Ahead(q[j], r[k].position, now) <==> !Precedes(r[k], r[j]))
      ensures Behind(q[j], r[k].position, now) <==> Precedes(r[k], r[j])
    {}
    assert QueuedKeys(r, l) == QueuedKeys(q, l) + {k};
    assert IsFirst(r, QueuedKeys(r, l), k) <==> forall j :: QueuedIn(q, l, j) ==> Behind(q[j], r[k].position, now);
    if IsFirst(r, QueuedKeys(r, l), k) { assert NextQueued(r, l, k) == Some(k); }
  }

  /** The order goes straight into the slot of a listing somebody waits for. */
  predicate SeatedAhead(s: Sys, l: ListingRef, buyer: Address, units: U128, child: TradeId, qref: QueueRef, ok: bool,
                        now: Time) {
    var (r, reply) := Order(s, l, buyer, units, child, qref, ok, now);
    reply == Done && qref in r.queue && r.queue[qref].status == ActiveSlot && WaitingKeys(s.queue, l) != {}
  }

  /** An order is seated ahead of those who wait exactly when it is admitted and the slot happens to be
      free; those who wait stay where they were. */
  lemma SeatedAheadExactly(
    s: Sys, l: ListingRef, buyer: Address, units: U128, child: TradeId, qref: QueueRef, ok: bool, now: Time)
    requires Inv(s) && child !in s.pay.trades && qref !in s.queue
    ensures SeatedAhead(s, l, buyer, units, child, qref, ok, now) <==>
              && ok && Eligibility(s, buyer, units, now) == Done && Orderable(s, l, buyer, units)
              && s.listings[l].active.None? && WaitingKeys(s.queue, l) != {}
    ensures SeatedAhead(s, l, buyer, units, child, qref, ok, now) ==>
              var r := Order(s, l, buyer, units, child, qref, ok, now).0;
              && l in r.listings && r.listings[l].active == Some(child)
              && forall k :: k in WaitingKeys(s.queue, l) ==> k in r.queue && r.queue[k] == s.queue[k]
  {
    hide Inv, Evolves, Eligibility, Order, Orderable, NewAwaitingPayment, Convert, ProfileOf;
    OrderOutcome(s, l, buyer, units, child, qref, ok, now);
    if ok && Eligibility(s, buyer, units, now) == Done && Orderable(s, l, buyer, units) {
      OrderableListing(s, l, buyer, units);
      if s.listings[l].active.None? {
        SeatedOrder(s, l, buyer, units, child, qref, ok, now);
      } else {
        QueuedOrder(s, l, buyer, units, child, qref, ok, now);
      }
    }
  }

  // ---- A shop with one listing ----------------------------------------------------------------------------

  const UNITS: U128 := 1_000_000
  const RATE: U128 := 163_000

  function Place(buyer: Address, position: nat, status: EntryStatus, child: Option<TradeId>, consent: Option<Time>,
                 since: Time): Entry {
    Entry(3, buyer, UNITS, RATE, RATE, position, status, child, consent, since)
  }

  /** Listing 3 of seller 1 has at least `left` units and `slot` in its slot; only buyers in `seen` have
      dealt with the service. */
  ghost predicate Shop(s: Sys, queue: Queue, slot: Option<TradeId>, left: nat, seen: set<Address>) {
    && Inv(s) && s.queue == queue && s.listings.Keys == {3}
    && (var x := s.listings[3];
        && x.seller == 1 && x.rateMinor == RATE && x.currency == "NGN" && x.status == Active && x.active == slot
        && left <= x.available)
    && s.guarantors == map[] && s.pay.config == CONFIG && s.profiles.Keys <= seen
    && (forall t :: t in s.pay.trades ==> s.pay.trades[t].buyer.Some? && s.pay.trades[t].buyer.value in seen)
    && (forall k :: k in queue ==> queue[k].buyer in seen)
    && (slot.Some? ==> slot.value in s.pay.trades && s.pay.trades[slot.value].stage == AwaitingPayment)
  }

  lemma NewcomerAdmitted(s: Sys, queue: Queue, slot: Option<TradeId>, left: nat, seen: set<Address>, buyer: Address,
                         now: Time)
    requires Shop(s, queue, slot, left, seen) && buyer !in seen && buyer != 1 && left >= UNITS
    ensures Eligibility(s, buyer, UNITS, now) == Done && Orderable(s, 3, buyer, UNITS)
    ensures ProfileOf(s, buyer) == NewProfile() && Convert(UNITS, RATE) == Some(RATE)
  {
    hide Inv;
    assert UnpaidTrades(s, buyer) == {} && WaitingEntries(s, buyer) == {};
  }

  function Ask(buyer: Address, child: TradeId, qref: QueueRef, now: Time): Timed {
    Timed(PlaceOrder(3, buyer, UNITS, child, qref, true), now)
  }

  lemma StepInv(s: Sys, a: Timed, r: Sys)
    requires Inv(s) && Next(s, a, r)
    ensures Inv(r)
  {
    hide Inv, Next, Evolves, EveryMoveCaused, NewTradesWait, PaymentsKept;
    NextIsGood(s, a, r);
  }

  /** A newcomer takes the free slot. */
  lemma Seats(s: Sys, queue: Queue, left: nat, seen: set<Address>, buyer: Address, child: TradeId, qref: QueueRef,
              now: Time)
    returns (r: Sys)
    requires Shop(s, queue, None, left, seen) && buyer !in seen && buyer != 1 && left >= UNITS
    requires child !in s.pay.trades && qref !in queue
    ensures Next(s, Ask(buyer, child, qref, now), r)
    ensures Shop(r, queue[qref := Place(buyer, 0, ActiveSlot, Some(child), None, now)], Some(child), left - UNITS,
                 seen + {buyer})
    ensures r.pay.trades.Keys == s.pay.trades.Keys + {child}
  {
    hide Inv, Eligibility, Convert, WrapMul, Order, ProfileOf;
    r := Step(s, Ask(buyer, child, qref, now));
    StepInv(s, Ask(buyer, child, qref, now), r);
    NewcomerAdmitted(s, queue, None, left, seen, buyer, now);
    SeatedOrder(s, 3, buyer, UNITS, child, qref, true, now);
  }

  /** A newcomer joins the queue. */
  lemma Joins(s: Sys, queue: Queue, slot: TradeId, left: nat, seen: set<Address>, buyer: Address, child: TradeId,
              qref: QueueRef, now: Time) returns (r: Sys)
    requires Shop(s, queue, Some(slot), left, seen) && buyer !in seen && buyer != 1 && left >= UNITS
    requires child !in s.pay.trades && qref !in queue
    ensures Next(s, Ask(buyer, child, qref, now), r)
    ensures Shop(r, queue[qref := Place(buyer, |WaitingKeys(queue, 3)| + 1, Queued, None, None, now)], Some(slot),
                 left - UNITS, seen + {buyer})
    ensures r.pay.trades == s.pay.trades
  {
    hide Inv, Eligibility, Convert, Order, ProfileOf, WaitingKeys;
    r := Step(s, Ask(buyer, child, qref, now));
    StepInv(s, Ask(buyer, child, qref, now), r);
    NewcomerAdmitted(s, queue, Some(slot), left, seen, buyer, now);
    QueuedOrder(s, 3, buyer, UNITS, child, qref, true, now);
  }

  function Take(buyer: Address, child: TradeId, qref: QueueRef, now: Time): Timed {
    Timed(TakeSlot(qref, buyer, child), now)
  }

  /** The entry at the front takes the free slot. */
  lemma Activates(s: Sys, queue: Queue, left: nat, seen: set<Address>, child: TradeId, qref: QueueRef, now: Time)
    returns (r: Sys)
    requires Shop(s, queue, None, left, seen) && child !in s.pay.trades
    requires qref in queue && queue[qref].listing == 3 && AtFront(queue[qref])
    ensures Next(s, Take(queue[qref].buyer, child, qref, now), r)
    ensures Shop(r, queue[qref := queue[qref].(position := 0, status := ActiveSlot, tradeId := Some(child))],
                 Some(child), left, seen)
    ensures r.pay.trades.Keys == s.pay.trades.Keys + {child}
  {
    hide Inv, NewAwaitingPayment, Activate, AtFront;
    var a := Take(queue[qref].buyer, child, qref, now);
    r := Step(s, a);
    StepInv(s, a, r);
    ActivatedEntry(s, qref, queue[qref].buyer, child, now);
    var x := s.listings[3];
    NewTradeUnpaid(x.seller, queue[qref].buyer, queue[qref].units, x.rateMinor, x.currency,
                   s.pay.config.timeoutMinutes, now);
  }

  function AskBack(t: TradeId, now: Time): Timed { Timed(RequestRefund(t), now) }

  function Refund(t: TradeId, next: QueueRef, now: Time): Timed {
    Timed(SettleRefund(t, "completed", Visit(3, next)), now)
  }

  function FreedQueue(queue: Queue, t: TradeId, next: QueueRef, now: Time): Queue {
    Promote(SettleEntries(queue, t, false), Some(next), now)
  }

  lemma CompletedStatus()
    ensures RefundStatusOf("completed") == RefundCompleted
  {
    TrimNothing("completed");
    assert Lower("completed") == "completed";
  }

  lemma AskedBack(s: Sys, t: TradeId, now: Time) returns (m: Sys)
    requires t in s.pay.trades && s.pay.trades[t].stage == AwaitingPayment
    ensures Next(s, AskBack(t, now), m) && m == s.(pay := m.pay) && t in m.pay.refunds && m.pay.config == s.pay.config
    ensures var u := s.pay.trades[t];
            m.pay.trades == s.pay.trades[t := Advance(u, RefundPending).(refund := RefundRequested)]
  {
    m := s.(pay := RefundRequest(s.pay, t).0);
  }

  lemma Refunded(m: Sys, t: TradeId, next: QueueRef, now: Time) returns (r: Sys)
    requires t in m.pay.trades && m.pay.trades[t].stage == RefundPending && t in m.pay.refunds
    requires 3 in m.listings && m.listings[3].active == Some(t)
    requires IsFirst(SettleEntries(m.queue, t, false), QueuedKeys(SettleEntries(m.queue, t, false), 3), next)
    ensures Next(m, Refund(t, next, now), r)
    ensures && r.queue == FreedQueue(m.queue, t, next, now) && r.profiles == m.profiles && r.guarantors == m.guarantors
            && r.listings == m.listings[3 := FreeSlot(m.listings[3], m.pay.trades[t].units, false)]
            && r.pay.config == m.pay.config && t in r.pay.trades && r.pay.trades == m.pay.trades[t := r.pay.trades[t]]
            && r.pay.trades[t].buyer == m.pay.trades[t].buyer
  {
    hide SettleEntries, Promote, FreeSlot, IsFirst, RefundStatusOf;
    CompletedStatus();
    r := Step(m, Refund(t, next, now));
  }

  /** The trade in the slot is refunded, which frees the slot and promotes the next queued entry. */
  lemma Frees(s: Sys, queue: Queue, t: TradeId, left: nat, seen: set<Address>, next: QueueRef, now: Time)
    returns (m: Sys, r: Sys)
    requires Shop(s, queue, Some(t), left, seen) && left > 0
    requires IsFirst(SettleEntries(queue, t, false), QueuedKeys(SettleEntries(queue, t, false), 3), next)
    ensures Next(s, AskBack(t, now), m) && Next(m, Refund(t, next, now), r)
    ensures Shop(r, FreedQueue(queue, t, next, now), None, left, seen) && r.pay.trades.Keys == s.pay.trades.Keys
  {
    hide Inv, Next, SettleEntries, FreedQueue, FreeSlot, IsFirst;
    m := AskedBack(s, t, now);
    StepInv(s, AskBack(t, now), m);
    r := Refunded(m, t, next, now);
    StepInv(m, Refund(t, next, now), r);
    SlotFreed(s.listings[3], s.pay.trades[t].units, left);
    FreedBuyers(queue, t, next, now, seen);
  }

  lemma SlotFreed(x: Listing, amount: U128, left: nat)
    requires 0 < left <= x.available
    ensures var y := FreeSlot(x, amount, false);
            && y.available >= left && y.active.None? && y.status == x.status
            && y.seller == x.seller && y.rateMinor == x.rateMinor && y.currency == x.currency
  {}

  lemma FreedBuyers(queue: Queue, t: TradeId, next: QueueRef, now: Time, seen: set<Address>)
    requires forall k :: k in queue ==> queue[k].buyer in seen
    ensures forall k :: k in FreedQueue(queue, t, next, now) ==> FreedQueue(queue, t, next, now)[k].buyer in seen
  {}

  // ---- The runs -----------------------------------------------------------------------------------------------

  const OPEN_SHOP := Timed(PublishListing(3, 1, 10_000_000, RATE, "NGN"), 0)

  lemma ShopOpens()
    ensures var r := Empty(CONFIG).(listings := map[3 := OFFER]);
            Next(Empty(CONFIG), OPEN_SHOP, r) && (Inv(r) ==> Shop(r, map[], None, 10_000_000, {}))
  {
    hide Inv;
    Published(Empty(CONFIG));
  }

  /** Buyer 11 holds the slot; buyers 12, 13 and 14 wait, in this order. */
  function Line(): Queue {
    map[1 := Place(11, 0, ActiveSlot, Some(101), None, 1), 2 := Place(12, 1, Queued, None, None, 2),
        3 := Place(13, 2, Queued, None, None, 3), 4 := Place(14, 3, Queued, None, None, 4)]
  }

  lemma FirstArrives() returns (states: seq<Sys>, acts: seq<Timed>)
    ensures IsRun(states, acts) && acts == [OPEN_SHOP, Ask(11, 101, 1, 1)]
    ensures Shop(states[|acts|], map[1 := Place(11, 0, ActiveSlot, Some(101), None, 1)], Some(101), 9_000_000, {11})
    ensures states[|acts|].pay.trades.Keys == {101}
  {
    hide Next, Shop, Place;
    states, acts := [Empty(CONFIG)], [];
    ShopOpens();
    var s := Empty(CONFIG).(listings := map[3 := OFFER]);
    EmptyIsGood(CONFIG);
    StepInv(Empty(CONFIG), OPEN_SHOP, s);
    states, acts := Longer(states, acts, OPEN_SHOP, s);
    s := Seats(s, map[], 10_000_000, {}, 11, 101, 1, 1);
    assert {} + {11} == {11};
    states, acts := Longer(states, acts, Ask(11, 101, 1, 1), s);
  }

  /** One more buyer joins at the end of a run. */
  lemma JoinsRun(states: seq<Sys>, acts: seq<Timed>, queue: Queue, slot: TradeId, left: nat, seen: set<Address>,
                 buyer: Address, child: TradeId, qref: QueueRef, now: Time)
    returns (states': seq<Sys>, acts': seq<Timed>)
    requires IsRun(states, acts) && Shop(states[|acts|], queue, Some(slot), left, seen)
    requires buyer !in seen && buyer != 1 && left >= UNITS && child !in states[|acts|].pay.trades && qref !in queue
    ensures IsRun(states', acts') && acts' == acts + [Ask(buyer, child, qref, now)]
    ensures Shop(states'[|acts'|], queue[qref := Place(buyer, |WaitingKeys(queue, 3)| + 1, Queued, None, None, now)],
                 Some(slot), left - UNITS, seen + {buyer})
    ensures states'[|acts'|].pay.trades == states[|acts|].pay.trades
    ensures states <= states'
  {
    hide Next, Shop, IsRun;
    RunLength(states, acts);
    var r := Joins(states[|acts|], queue, slot, left, seen, buyer, child, qref, now);
    states', acts' := Longer(states, acts, Ask(buyer, child, qref, now), r);
  }

  const ARRIVALS := [OPEN_SHOP, Ask(11, 101, 1, 1), Ask(12, 102, 2, 2), Ask(13, 103, 3, 3), Ask(14, 104, 4, 4)]

  lemma FourArrive() returns (states: seq<Sys>, acts: seq<Timed>)
    ensures IsRun(states, acts) && acts == ARRIVALS
    ensures Shop(states[|acts|], Line(), Some(101), 6_000_000, {11, 12, 13, 14})
    ensures states[|acts|].pay.trades.Keys == {101}
  {
    hide IsRun, Shop;
    states, acts := FirstArrives();
    var queue: Queue := map[1 := Place(11, 0, ActiveSlot, Some(101), None, 1)];
    assert WaitingKeys(queue, 3) == {};
    states, acts := JoinsRun(states, acts, queue, 101, 9_000_000, {11}, 12, 102, 2, 2);
    queue := queue[2 := Place(12, 1, Queued, None, None, 2)];
    assert WaitingKeys(queue, 3) == {2} && {11} + {12} == {11, 12};
    states, acts := JoinsRun(states, acts, queue, 101, 8_000_000, {11, 12}, 13, 103, 3, 3);
    queue := queue[3 := Place(13, 2, Queued, None, None, 3)];
    assert WaitingKeys(queue, 3) == {2, 3} && {11, 12} + {13} == {11, 12, 13};
    states, acts := JoinsRun(states, acts, queue, 101, 7_000_000, {11, 12, 13}, 14, 104, 4, 4);
    assert {11, 12, 13} + {14} == {11, 12, 13, 14};
  }

  predicate First(queue: Queue, t: TradeId, next: QueueRef) {
    var settled := SettleEntries(queue, t, false);
    next in QueuedKeys(settled, 3) && forall m :: m in QueuedKeys(settled, 3) ==> Precedes(settled[next], settled[m])
  }

  /** The queue once the slot has gone from trade `t` to the child of `next`. */
  function Turned(queue: Queue, t: TradeId, next: QueueRef, child: TradeId, now: Time): Queue
    requires next in queue
  {
    var freed := FreedQueue(queue, t, next, now);
    freed[next := freed[next].(position := 0, status := ActiveSlot, tradeId := Some(child))]
  }

  lemma FreedFront(queue: Queue, t: TradeId, next: QueueRef, now: Time)
    requires First(queue, t, next)
    ensures IsFirst(SettleEntries(queue, t, false), QueuedKeys(SettleEntries(queue, t, false), 3), next)
    ensures next in queue && queue[next].listing == 3
    ensures var r := FreedQueue(queue, t, next, now);
            next in r && r[next].listing == 3 && AtFront(r[next]) && r[next].buyer == queue[next].buyer
  {}

  lemma FreesRun(states: seq<Sys>, acts: seq<Timed>, queue: Queue, t: TradeId, left: nat, seen: set<Address>,
                 next: QueueRef, now: Time) returns (states': seq<Sys>, acts': seq<Timed>)
    requires IsRun(states, acts) && Shop(states[|acts|], queue, Some(t), left, seen) && left > 0
             && First(queue, t, next)
    ensures IsRun(states', acts') && acts' == acts + [AskBack(t, now), Refund(t, next, now)] && states <= states'
    ensures Shop(states'[|acts'|], FreedQueue(queue, t, next, now), None, left, seen)
    ensures states'[|acts'|].pay.trades.Keys == states[|acts|].pay.trades.Keys
  {
    hide Next, Shop, IsRun, First, FreedQueue, AtFront, IsFirst;
    RunLength(states, acts);
    FreedFront(queue, t, next, now);
    var m, r := Frees(states[|acts|], queue, t, left, seen, next, now);
    states', acts' := Longer(states, acts, AskBack(t, now), m);
    states', acts' := Longer(states', acts', Refund(t, next, now), r);
  }

  /** The slot's trade is refunded and the next buyer takes the slot. */
  lemma TurnRun(states: seq<Sys>, acts: seq<Timed>, queue: Queue, t: TradeId, left: nat, seen: set<Address>,
                next: QueueRef, child: TradeId, now: Time) returns (states': seq<Sys>, acts': seq<Timed>)
    requires IsRun(states, acts) && Shop(states[|acts|], queue, Some(t), left, seen) && left > 0
    requires First(queue, t, next) && next in queue && child !in states[|acts|].pay.trades
    ensures IsRun(states', acts')
    ensures acts' == acts + [AskBack(t, now), Refund(t, next, now), Take(queue[next].buyer, child, next, now)]
    ensures Shop(states'[|acts'|], Turned(queue, t, next, child, now), Some(child), left, seen)
    ensures states'[|acts'|].pay.trades.Keys == states[|acts|].pay.trades.Keys + {child}
    ensures states <= states'
  {
    hide Next, Shop, IsRun, First, FreedQueue, AtFront, IsFirst;
    FreedFront(queue, t, next, now);
    states', acts' := FreesRun(states, acts, queue, t, left, seen, next, now);
    RunLength(states', acts');
    var r := Activates(states'[|acts'|], FreedQueue(queue, t, next, now), left, seen, child, next, now);
    states', acts' := Longer(states', acts', Take(queue[next].buyer, child, next, now), r);
  }

  function HalfThinned(): Queue {
    map[1 := Place(11, 0, EntryExpired, Some(101), None, 1), 2 := Place(12, 0, ActiveSlot, Some(102), Some(305), 2),
        3 := Place(13, 2, Queued, None, None, 3), 4 := Place(14, 3, Queued, None, None, 4)]
  }

  /** Two turns later buyer 14 waits alone, still at position 3. */
  function Thinned(): Queue {
    map[1 := Place(11, 0, EntryExpired, Some(101), None, 1), 2 := Place(12, 0, EntryExpired, Some(102), Some(305), 2),
        3 := Place(13, 0, ActiveSlot, Some(103), Some(306), 3), 4 := Place(14, 3, Queued, None, None, 4)]
  }

  function Joined(): Queue { Thinned()[5 := Place(15, 2, Queued, None, None, 7)] }

  lemma FirstTurn()
    ensures First(Line(), 101, 2)
    ensures Turned(Line(), 101, 2, 102, 5) == HalfThinned()
  {}

  lemma SecondTurn()
    ensures First(HalfThinned(), 102, 3)
    ensures Turned(HalfThinned(), 102, 3, 103, 6) == Thinned()
  {}

  lemma NewcomerIsSecond()
    ensures |WaitingKeys(Thinned(), 3)| == 1
    ensures First(Joined(), 103, 5)
    ensures var r := FreedQueue(Joined(), 103, 5, 8);
            4 in r && r[4] == Joined()[4] && 5 in r && r[5].status == Eligible
  {
    assert WaitingKeys(Thinned(), 3) == {4};
  }

  const TURNS := [AskBack(101, 5), Refund(101, 2, 5), Take(12, 102, 2, 5), AskBack(102, 6), Refund(102, 3, 6),
                  Take(13, 103, 3, 6)]

  lemma TwoTurns() returns (states: seq<Sys>, acts: seq<Timed>)
    ensures IsRun(states, acts) && acts == ARRIVALS + TURNS
            && Shop(states[5], Line(), Some(101), 6_000_000, {11, 12, 13, 14})
    ensures Shop(states[|acts|], Thinned(), Some(103), 6_000_000, {11, 12, 13, 14})
    ensures states[|acts|].pay.trades.Keys == {101, 102, 103}
  {
    hide IsRun, Shop, First, Turned;
    states, acts := FourArrive();
    RunLength(states, acts);
    var line := states[5];
    FirstTurn();
    states, acts := TurnRun(states, acts, Line(), 101, 6_000_000, {11, 12, 13, 14}, 2, 102, 5);
    SecondTurn();
    states, acts := TurnRun(states, acts, HalfThinned(), 102, 6_000_000, {11, 12, 13, 14}, 3, 103, 6);
    assert states[5] == line;
  }

  lemma ShopQueue(s: Sys, queue: Queue, slot: Option<TradeId>, left: nat, seen: set<Address>)
    requires Shop(s, queue, slot, left, seen)
    ensures s.queue == queue && Inv(s)
  {
    hide Inv;
  }

  /** Buyer 15 arrives after buyer 14, with two activations in between, and is promoted before them. */
  lemma NewcomerOvertakes() returns (states: seq<Sys>, acts: seq<Timed>)
    ensures IsRun(states, acts)
    ensures acts == ARRIVALS + TURNS + [Ask(15, 105, 5, 7), AskBack(103, 8), Refund(103, 5, 8)]
    ensures ArrivedBefore(states, |acts|, 4, 5) && 4 in states[|acts|].queue && 5 in states[|acts|].queue
    ensures states[|acts|].queue[4].status == Queued && states[|acts|].queue[5].status == Eligible
  {
    hide IsRun, Shop, First, FreedQueue, Inv;
    states, acts := TwoTurns();
    RunLength(states, acts);
    ShopQueue(states[5], Line(), Some(101), 6_000_000, {11, 12, 13, 14});
    var before := states[5];
    NewcomerIsSecond();
    states, acts := JoinsRun(states, acts, Thinned(), 103, 6_000_000, {11, 12, 13, 14}, 15, 105, 5, 7);
    states, acts := FreesRun(states, acts, Joined(), 103, 5_000_000, {11, 12, 13, 14} + {15}, 5, 8);
    RunLength(states, acts);
    ShopQueue(states[|acts|], FreedQueue(Joined(), 103, 5, 8), None, 5_000_000, {11, 12, 13, 14} + {15});
    assert states[5] == before;
  }

  function Tied(): Queue {
    map[1 := Place(11, 0, EntryExpired, Some(101), None, 1), 2 := Place(12, 0, ActiveSlot, Some(102), Some(304), 2),
        3 := Place(13, 2, Queued, None, None, 3), 4 := Place(14, 3, Queued, None, None, 4),
        5 := Place(15, 3, Queued, None, None, 4)]
  }

  function TiedPair(): Queue {
    map[1 := Place(11, 0, EntryExpired, Some(101), None, 1), 2 := Place(12, 0, EntryExpired, Some(102), Some(304), 2),
        3 := Place(13, 0, ActiveSlot, Some(103), Some(304), 3), 4 := Place(14, 3, Queued, None, None, 4),
        5 := Place(15, 3, Queued, None, None, 4)]
  }

  lemma TieArises()
    ensures First(Line(), 101, 2)
    ensures var q := Turned(Line(), 101, 2, 102, 4);
            5 !in q && q[5 := Place(15, |WaitingKeys(q, 3)| + 1, Queued, None, None, 4)] == Tied()
  {
    var q := Turned(Line(), 101, 2, 102, 4);
    assert WaitingKeys(q, 3) == {3, 4};
  }

  lemma TieStays()
    ensures First(Tied(), 102, 3)
    ensures Turned(Tied(), 102, 3, 103, 4) == TiedPair()
  {}

  lemma TieIsWon()
    ensures First(TiedPair(), 103, 5)
    ensures var r := FreedQueue(TiedPair(), 103, 5, 4);
            4 in r && r[4] == TiedPair()[4] && 5 in r && r[5].status == Eligible
  {}

  const TIE := [AskBack(101, 4), Refund(101, 2, 4), Take(12, 102, 2, 4), Ask(15, 105, 5, 4), AskBack(102, 4),
                Refund(102, 3, 4), Take(13, 103, 3, 4)]

  lemma TwoTie() returns (states: seq<Sys>, acts: seq<Timed>)
    ensures IsRun(states, acts) && acts == ARRIVALS + TIE && states[5].queue == Line()
    ensures Shop(states[|acts|], TiedPair(), Some(103), 5_000_000, {11, 12, 13, 14} + {15})
  {
    hide IsRun, Shop, First, Inv, Turned, WaitingKeys;
    states, acts := FourArrive();
    RunLength(states, acts);
    ShopQueue(states[5], Line(), Some(101), 6_000_000, {11, 12, 13, 14});
    var before := states[5];
    TieArises();
    states, acts := TurnRun(states, acts, Line(), 101, 6_000_000, {11, 12, 13, 14}, 2, 102, 4);
    var queue := Turned(Line(), 101, 2, 102, 4);
    states, acts := JoinsRun(states, acts, queue, 102, 6_000_000, {11, 12, 13, 14}, 15, 105, 5, 4);
    TieStays();
    states, acts := TurnRun(states, acts, Tied(), 102, 5_000_000, {11, 12, 13, 14} + {15}, 3, 103, 4);
    assert states[5] == before;
  }

  /** Buyer 15 orders in the same second as buyer 14 but after them, gets the same number after an activation,
      and is the one promoted. */
  lemma NewcomerWinsTie() returns (states: seq<Sys>, acts: seq<Timed>)
    ensures IsRun(states, acts) && acts == ARRIVALS + TIE + [AskBack(103, 4), Refund(103, 5, 4)]
    ensures ArrivedBefore(states, |acts|, 4, 5) && 4 in states[|acts|].queue && 5 in states[|acts|].queue
    ensures states[|acts|].queue[4].status == Queued && states[|acts|].queue[5].status == Eligible
  {
    hide IsRun, Shop, First, FreedQueue, Inv;
    states, acts := TwoTie();
    RunLength(states, acts);
    var before := states[5];
    TieIsWon();
    states, acts := FreesRun(states, acts, TiedPair(), 103, 5_000_000, {11, 12, 13, 14} + {15}, 5, 4);
    RunLength(states, acts);
    ShopQueue(states[|acts|], FreedQueue(TiedPair(), 103, 5, 4), None, 5_000_000, {11, 12, 13, 14} + {15});
    assert states[5] == before;
  }

  lemma ThreeWait()
    ensures First(Line(), 101, 2) && WaitingKeys(FreedQueue(Line(), 101, 2, 5), 3) == {2, 3, 4}
    ensures 5 !in FreedQueue(Line(), 101, 2, 5)
  {
    FirstTurn();
  }

  lemma SeatedAheadHere(s: Sys, queue: Queue, left: nat, seen: set<Address>, buyer: Address, child: TradeId,
                        qref: QueueRef, now: Time)
    requires Shop(s, queue, None, left, seen) && buyer !in seen && buyer != 1 && left >= UNITS
    requires child !in s.pay.trades && qref !in queue && WaitingKeys(queue, 3) != {}
    ensures SeatedAhead(s, 3, buyer, UNITS, child, qref, true, now)
  {
    hide Inv, Eligibility, Orderable, Order, SeatedAhead, Convert, WaitingKeys;
    NewcomerAdmitted(s, queue, None, left, seen, buyer, now);
    SeatedAheadExactly(s, 3, buyer, UNITS, child, qref, true, now);
  }

  /** With three buyers waiting, the slot that has just become free goes to a newcomer. */
  lemma NewcomerSeatedAhead() returns (states: seq<Sys>, acts: seq<Timed>)
    ensures IsRun(states, acts) && acts == ARRIVALS + [AskBack(101, 5), Refund(101, 2, 5)]
    ensures WaitingKeys(states[|acts|].queue, 3) == {2, 3, 4}
    ensures SeatedAhead(states[|acts|], 3, 15, UNITS, 105, 5, true, 6)
  {
    hide IsRun, Shop, First, FreedQueue, SeatedAhead, Inv, WaitingKeys;
    states, acts := FourArrive();
    ThreeWait();
    states, acts := FreesRun(states, acts, Line(), 101, 6_000_000, {11, 12, 13, 14}, 2, 5);
    RunLength(states, acts);
    var queue := FreedQueue(Line(), 101, 2, 5);
    ShopQueue(states[|acts|], queue, None, 6_000_000, {11, 12, 13, 14});
    SeatedAheadHere(states[|acts|], queue, 6_000_000, {11, 12, 13, 14}, 15, 105, 5, 6);
  }
}
