/** First come, first served: what the queue order is worth, and what activation does to it. */
module Fifo {
  import opened Core
  import opened Lifecycle
  import opened Payments
  import opened Ledger
  import opened System
  import opened Invariant
  import opened Safety
  import opened Obligations

  // ---- Order-keeping changes -----------------------------------------------------------------------

  /** No queued entry is numbered beyond the number of waiting ones. */
  predicate Bounded(q: Queue, l: ListingRef) {
    forall k :: k in q && IsQueued(q[k], l) ==> q[k].position <= |WaitingKeys(q, l)|
  }

  predicate QueuedIn(q: Queue, l: ListingRef, k: QueueRef) { k in q && IsQueued(q[k], l) }

  /** From `q` to `r` queued entries keep their order, and a newcomer goes behind all of them. */
  ghost predicate KeepsOrder(q: Queue, r: Queue, l: ListingRef) {
    && q.Keys <= r.Keys
    && (Bounded(q, l) ==> Bounded(r, l))
    && (forall k :: k in q && QueuedIn(r, l, k) ==> QueuedIn(q, l, k))
    && (forall j, k :: j in q && k in q && QueuedIn(r, l, j) && QueuedIn(r, l, k) && q[j].position < q[k].position ==>
          r[j].position < r[k].position)
    && (forall j, k :: Bounded(q, l) && j in q && k !in q && QueuedIn(r, l, j) && QueuedIn(r, l, k) ==>
          r[j].position < r[k].position)
    && (forall j, k :: j !in q && k !in q && QueuedIn(r, l, j) && QueuedIn(r, l, k) ==> j == k)
  }

  /** Some queued entries may have become eligible or left; nobody has moved. */
  ghost predicate Shrinks(q: Queue, r: Queue, l: ListingRef) {
    && r.Keys == q.Keys
    && WaitingKeys(r, l) == WaitingKeys(q, l)
    && (forall k :: QueuedIn(r, l, k) ==> QueuedIn(q, l, k) && r[k].position == q[k].position)
  }

  lemma ShrinkingKeepsOrder(q: Queue, r: Queue, l: ListingRef)
    requires Shrinks(q, r, l)
    ensures KeepsOrder(q, r, l)
  {
    hide WaitingKeys, IsQueued;
    forall k | k in r && IsQueued(r[k], l)
      ensures QueuedIn(q, l, k) && r[k].position == q[k].position
    {
      assert QueuedIn(r, l, k);
    }
  }

  lemma ShrinksTwice(q: Queue, m: Queue, r: Queue, l: ListingRef)
    requires Shrinks(q, m, l) && Shrinks(m, r, l)
    ensures Shrinks(q, r, l)
  {
    hide WaitingKeys, IsQueued;
    forall k | QueuedIn(r, l, k)
      ensures QueuedIn(q, l, k) && r[k].position == q[k].position
    {
      assert QueuedIn(m, l, k);
    }
  }

  // ---- Each step -----------------------------------------------------------------------------------------

  lemma JoiningKeepsOrder(q: Queue, l: ListingRef, k: QueueRef, e: Entry, m: ListingRef)
    requires k !in q && e.listing == m && e.status == Queued && e.position == |WaitingKeys(q, m)| + 1
    ensures KeepsOrder(q, q[k := e], l)
  {
    var r := q[k := e];
    if l == m {
      assert WaitingKeys(r, l) == WaitingKeys(q, l) + {k};
    } else {
      assert WaitingKeys(r, l) == WaitingKeys(q, l);
    }
  }

  lemma SeatingShrinks(q: Queue, l: ListingRef, k: QueueRef, e: Entry)
    requires k !in q && e.status == ActiveSlot
    ensures KeepsOrder(q, q[k := e], l)
  {
    assert WaitingKeys(q[k := e], l) == WaitingKeys(q, l);
  }

  lemma SettlingShrinks(q: Queue, tid: TradeId, completed: bool, l: ListingRef)
    ensures Shrinks(q, SettleEntries(q, tid, completed), l)
  {
    var r := SettleEntries(q, tid, completed);
    assert forall k :: k in q ==> (IsWaiting(r[k], l) <==> IsWaiting(q[k], l)) && (IsQueued(r[k], l) ==> r[k] == q[k]);
  }

  lemma PromotingShrinks(q: Queue, next: Option<QueueRef>, now: Time, l: ListingRef)
    requires next.Some? ==> next.value in q && q[next.value].status == Queued
    ensures Shrinks(q, Promote(q, next, now), l)
  {
    var r := Promote(q, next, now);
    assert forall k :: k in q ==> (IsWaiting(r[k], l) <==> IsWaiting(q[k], l)) && (IsQueued(r[k], l) ==> r[k] == q[k]);
  }

  lemma ResolvingShrinks(s: Sys, tid: TradeId, completed: bool, hint: Visit, now: Time, l: ListingRef)
    ensures Shrinks(s.queue, Resolve(s, tid, completed, hint, now).queue, l)
  {
    hide Shrinks, SettleEntries, Promote, FreeSlot, WaitingKeys;
    match ServingListing(s.listings, tid, hint.listing)
    case None => StandingShrinks(s.queue, l);
    case Some(m) =>
      var settled := SettleEntries(s.queue, tid, completed);
      SettlingShrinks(s.queue, tid, completed, l);
      PromotingShrinks(settled, NextQueued(settled, m, hint.entry), now, l);
      ShrinksTwice(s.queue, settled, Promote(settled, NextQueued(settled, m, hint.entry), now), l);
  }

  lemma StandingShrinks(q: Queue, l: ListingRef)
    ensures Shrinks(q, q, l)
  {}

  lemma {:induction false} ExpiringShrinks(s: Sys, xs: seq<Expiration>, hints: seq<Visit>, now: Time, l: ListingRef)
    ensures Shrinks(s.queue, SettleExpirations(s, xs, hints, now).queue, l)
  {
    hide Shrinks, Resolve, Trust.AfterExpiration;
    if xs == [] {
      StandingShrinks(s.queue, l);
    } else {
      var n := |xs| - 1;
      ExpiringShrinks(s, xs[..n], hints, now, l);
      var m := SettleExpirations(s, xs[..n], hints, now);
      var hint := HintAt(hints, n);
      ResolvingShrinks(m, xs[n].trade, false, hint, now, l);
      ShrinksTwice(s.queue, m.queue, Resolve(m, xs[n].trade, false, hint, now).queue, l);
    }
  }

  /** A cancellation renumbers the waiting entries of its own listing in the order they stood. */
  lemma LeavingKeepsOrder(s: Sys, qref: QueueRef, buyer: Address, hint: seq<QueueRef>, now: Time, l: ListingRef)
    ensures KeepsOrder(s.queue, CancelQueued(s, qref, buyer, hint, now).0.queue, l)
  {
    hide ReturnReserved, Renumbered, HasActiveSlot, KeepsOrder, WaitingKeys, Trust.AfterQueueCancel;
    var (r, reply) := CancelQueued(s, qref, buyer, hint, now);
    if reply == Done {
      var e := s.queue[qref];
      var q1 := s.queue[qref := e.(status := CancelledByBuyer)];
      var busy := e.listing !in r.listings || HasActiveSlot(r.listings[e.listing], now);
      if e.listing == l {
        RenumberingKeepsOrder(s.queue, qref, l, hint, busy, now);
      } else {
        OthersKeepPlace(s.queue, qref, e.listing, l, hint, busy, now);
      }
    } else {
      StandingShrinks(s.queue, l);
      ShrinkingKeepsOrder(s.queue, s.queue, l);
    }
  }

  lemma RenumberingKeepsOrder(q: Queue, qref: QueueRef, l: ListingRef, hint: seq<QueueRef>, busy: bool, now: Time)
    requires qref in q && q[qref].listing == l && q[qref].status in {Queued, Eligible}
    ensures var q1 := q[qref := q[qref].(status := CancelledByBuyer)];
            KeepsOrder(q, Renumbered(q1, OrderOf(q1, WaitingKeys(q1, l), hint), busy, now), l)
  {
    hide Renumbered;
    var q1 := q[qref := q[qref].(status := CancelledByBuyer)];
    var order := OrderOf(q1, WaitingKeys(q1, l), hint);
    var r := Renumbered(q1, order, busy, now);
    RenumberingIsExact(q1, l, hint, busy, now);
    forall k | k in q1
      ensures QueuedIn(r, l, k) ==> QueuedIn(q, l, k) && k in WaitingKeys(q1, l) && q1[k] == q[k]
    {
      RenumberedSame(q1, order, busy, now, k);
    }
    forall j, k | j in q && k in q && QueuedIn(r, l, j) && QueuedIn(r, l, k) && q[j].position < q[k].position
      ensures r[j].position < r[k].position
    {
      assert !Precedes(q1[k], q1[j]);
    }
  }

  /** Whatever activations have left behind, a cancellation numbers the queue of its listing afresh. */
  lemma CancellationRestoresBound(s: Sys, qref: QueueRef, buyer: Address, hint: seq<QueueRef>, now: Time)
    requires CancelQueued(s, qref, buyer, hint, now).1 == Done
    ensures Bounded(CancelQueued(s, qref, buyer, hint, now).0.queue, s.queue[qref].listing)
  {
    hide ReturnReserved, Renumbered, HasActiveSlot, Trust.AfterQueueCancel;
    var r := CancelQueued(s, qref, buyer, hint, now).0;
    var e := s.queue[qref];
    var q1 := s.queue[qref := e.(status := CancelledByBuyer)];
    var busy := e.listing !in r.listings || HasActiveSlot(r.listings[e.listing], now);
    RenumberingIsExact(q1, e.listing, hint, busy, now);
  }

  lemma OthersKeepPlace(q: Queue, qref: QueueRef, m: ListingRef, l: ListingRef, hint: seq<QueueRef>, busy: bool,
                        now: Time)
    requires qref in q && q[qref].listing == m && m != l
    ensures var q1 := q[qref := q[qref].(status := CancelledByBuyer)];
            KeepsOrder(q, Renumbered(q1, OrderOf(q1, WaitingKeys(q1, m), hint), busy, now), l)
  {
    hide Renumbered, KeepsOrder;
    var q1 := q[qref := q[qref].(status := CancelledByBuyer)];
    var order := OrderOf(q1, WaitingKeys(q1, m), hint);
    var r := Renumbered(q1, order, busy, now);
    RenumberedWaiting(q1, order, busy, now, l);
    forall k | k in q1
      ensures r[k].listing == q[k].listing && (q[k].listing == l ==> r[k] == q[k])
    {
      RenumberedSame(q1, order, busy, now, k);
    }
    assert WaitingKeys(q1, l) == WaitingKeys(q, l);
    ShrinkingKeepsOrder(q, r, l);
  }

  /** The action activates an entry of this listing. */
  predicate ActivatesOn(s: Sys, a: Timed, l: ListingRef) {
    a.act.TakeSlot? && a.act.qref in s.queue && s.queue[a.act.qref].listing == l
  }

  lemma OrderQueue(
    s: Sys, m: ListingRef, buyer: Address, units: U128, child: TradeId, qref: QueueRef, ok: bool, now: Time,
    l: ListingRef)
    requires qref !in s.queue
    ensures KeepsOrder(s.queue, Order(s, m, buyer, units, child, qref, ok, now).0.queue, l)
  {
    hide KeepsOrder, Eligibility, NewAwaitingPayment, Convert, Conserves, HasActiveSlot, Seat, Reserve, WaitingKeys;
    var (r, reply) := Order(s, m, buyer, units, child, qref, ok, now);
    if r.queue == s.queue {
      StandingShrinks(s.queue, l);
      ShrinkingKeepsOrder(s.queue, s.queue, l);
    } else if r.queue[qref].status == ActiveSlot {
      SeatingShrinks(s.queue, l, qref, r.queue[qref]);
    } else {
      JoiningKeepsOrder(s.queue, l, qref, r.queue[qref], m);
    }
  }

  lemma ActivationElsewhere(s: Sys, qref: QueueRef, buyer: Address, child: TradeId, now: Time, l: ListingRef)
    requires qref in s.queue ==> s.queue[qref].listing != l
    ensures KeepsOrder(s.queue, Activate(s, qref, buyer, child, now).0.queue, l)
  {
    hide KeepsOrder, NewAwaitingPayment, Conserves, HasActiveSlot, SeatReserved, WaitingKeys;
    var r := Activate(s, qref, buyer, child, now).0;
    if r.queue == s.queue {
      StandingShrinks(s.queue, l);
    } else {
      WriteElsewhere(s.queue, qref, r.queue[qref], l);
    }
    ShrinkingKeepsOrder(s.queue, r.queue, l);
  }

  lemma WriteElsewhere(q: Queue, k: QueueRef, e: Entry, l: ListingRef)
    requires k in q && q[k].listing != l && e.listing != l
    ensures Shrinks(q, q[k := e], l)
  {
    assert WaitingKeys(q[k := e], l) == WaitingKeys(q, l);
  }

  lemma PassKeepsOrder(s: Sys, order: seq<TradeId>, hints: seq<Visit>, now: Time, l: ListingRef)
    ensures KeepsOrder(s.queue, ReconcilePass(s, order, hints, now).queue, l)
  {
    hide KeepsOrder, Shrinks, SettleExpirations, ProcessJobs, Sweep, Expirations;
    ExpiringShrinks(s.(pay := Sweep(s.pay, order, now)), Expirations(s.pay, order, now), hints, now, l);
    ShrinkingKeepsOrder(s.queue, ReconcilePass(s, order, hints, now).queue, l);
  }

  lemma RefundKeepsOrder(s: Sys, tid: TradeId, status: string, hint: Visit, now: Time, l: ListingRef)
    ensures KeepsOrder(s.queue, ApproveRefund(s, tid, status, hint, now).0.queue, l)
  {
    hide KeepsOrder, Shrinks, Resolve, Flutterwave.RefundStatusOf;
    var (p1, reply) := RefundCancel(s.pay, tid, status);
    StandingShrinks(s.queue, l);
    ResolvingShrinks(s.(pay := p1), tid, false, hint, now, l);
    ShrinkingKeepsOrder(s.queue, ApproveRefund(s, tid, status, hint, now).0.queue, l);
  }

  lemma ReleaseKeepsOrder(s: Sys, tid: TradeId, txHash: Option<Hash>, hint: Visit, now: Time, l: ListingRef)
    ensures KeepsOrder(s.queue, ConfirmRelease(s, tid, txHash, hint, now).0.queue, l)
  {
    hide KeepsOrder, Shrinks, Resolve, Trust.AfterCompletion;
    var (p1, reply) := ReleaseComplete(s.pay, tid, txHash);
    StandingShrinks(s.queue, l);
    if reply == Done { ResolvingShrinks(Credit(s.(pay := p1), p1.trades[tid]), tid, true, hint, now, l); }
    ShrinkingKeepsOrder(s.queue, ConfirmRelease(s, tid, txHash, hint, now).0.queue, l);
  }

  lemma StandingKeepsOrder(q: Queue, l: ListingRef)
    ensures KeepsOrder(q, q, l)
  {
    StandingShrinks(q, l);
    ShrinkingKeepsOrder(q, q, l);
  }

  /** Every action but an activation on the listing keeps the order of its queue. */
  lemma StepKeepsOrder(s: Sys, a: Timed, r: Sys, l: ListingRef)
    requires Next(s, a, r) && !ActivatesOn(s, a, l)
    ensures KeepsOrder(s.queue, r.queue, l)
  {
    hide KeepsOrder, Order, CancelQueued, Activate, ApproveRefund, ConfirmRelease, ReconcilePass, Admit, CreateListing,
         InitCheckout, VerifyPayment, Webhook, PayoutInitiate, PayoutConfirm, PayoutHold, RefundRequest, RequestRelease,
         HoldRelease, Trust.AfterOverride, NewAwaitingPayment, Covers;
    match a.act
    case PlaceOrder(m, buyer, units, child, qref, ok) => OrderQueue(s, m, buyer, units, child, qref, ok, a.now, l);
    case LeaveQueue(qref, buyer, hint) => LeavingKeepsOrder(s, qref, buyer, hint, a.now, l);
    case TakeSlot(qref, buyer, child) => ActivationElsewhere(s, qref, buyer, child, a.now, l);
    case SettleRefund(tid, status, hint) => RefundKeepsOrder(s, tid, status, hint, a.now, l);
    case ConfirmOnChain(tid, txHash, hint) => ReleaseKeepsOrder(s, tid, txHash, hint, a.now, l);
    case Reconcile(order, hints) => PassKeepsOrder(s, order, hints, a.now, l);
    case RegisterTrade(tid, seller, buyer, units, rate, currency, ok) =>
      RegisterSparesQueue(s, tid, seller, buyer, units, rate, currency, ok, a.now);
      StandingKeepsOrder(s.queue, l);
    case PublishListing(m, seller, total, rate, currency) =>
      PublishSpares(s, m, seller, total, rate, currency);
      StandingKeepsOrder(s.queue, l);
    case _ => StandingKeepsOrder(s.queue, l);
  }

  lemma RegisterSparesQueue(
    s: Sys, tid: TradeId, seller: Address, buyer: Address, units: U128, rateMinor: U128, currency: string,
    ok: bool, now: Time)
    ensures Register(s, tid, seller, buyer, units, rateMinor, currency, ok, now).0.queue == s.queue
  {
    hide Eligibility, NewAwaitingPayment;
  }

  // ---- Runs ------------------------------------------------------------------------------------------------

  lemma QueueGrows(s: Sys, a: Timed, r: Sys)
    requires Next(s, a, r)
    ensures s.queue.Keys <= r.queue.Keys
  {
    hide Next;
    var l: ListingRef := if a.act.TakeSlot? && a.act.qref in s.queue then s.queue[a.act.qref].listing + 1 else 0;
    StepKeepsOrder(s, a, r, l);
  }

  lemma {:induction false} QueueGrowsLong(states: seq<Sys>, acts: seq<Timed>, i: nat, j: nat, k: QueueRef)
    requires IsRun(states, acts) && i <= j <= |acts| && k in states[i].queue
    ensures k in states[j].queue
    decreases j
  {
    hide Next, Empty;
    if i == j {
    } else {
      QueueGrowsLong(states, acts, i, j - 1, k);
      QueueGrows(states[j - 1], acts[j - 1], states[j]);
    }
  }

  /** At some moment up to `n` entry `x` was already queued for and `y` was not. */
  ghost predicate ArrivedBefore(states: seq<Sys>, n: nat, x: QueueRef, y: QueueRef) {
    exists i :: 0 <= i <= n < |states| && x in states[i].queue && y !in states[i].queue
  }

  /** Positions are bounded by the number of waiting entries, and queued entries are numbered in the
      order in which they arrived. */
  ghost predicate InArrivalOrder(states: seq<Sys>, n: nat, l: ListingRef) {
    && n < |states|
    && Bounded(states[n].queue, l)
    && forall x, y ::
         (QueuedIn(states[n].queue, l, x) && QueuedIn(states[n].queue, l, y) && ArrivedBefore(states, n, x, y)) ==>
         states[n].queue[x].position < states[n].queue[y].position
  }

  /** A listing nobody queues for is in arrival order. */
  lemma EmptyQueueInOrder(states: seq<Sys>, n: nat, l: ListingRef)
    requires n < |states| && forall k :: k in states[n].queue ==> !IsQueued(states[n].queue[k], l)
    ensures InArrivalOrder(states, n, l)
  {
    hide IsQueued;
  }

  lemma StepInOrder(states: seq<Sys>, acts: seq<Timed>, n: nat, l: ListingRef)
    requires IsRun(states, acts) && n < |acts| && InArrivalOrder(states, n, l)
    requires KeepsOrder(states[n].queue, states[n + 1].queue, l)
    ensures InArrivalOrder(states, n + 1, l)
  {
    hide IsRun, Bounded, QueuedIn;
    RunLength(states, acts);
    var q, r := states[n].queue, states[n + 1].queue;
    forall x, y | QueuedIn(r, l, x) && QueuedIn(r, l, y) && ArrivedBefore(states, n + 1, x, y)
      ensures PresentBelow(r, x, y)
    {
      QueuedIsPresent(r, l, x);
      QueuedIsPresent(r, l, y);
      var i :| 0 <= i <= n + 1 < |states| && x in states[i].queue && y !in states[i].queue;
      QueueGrowsLong(states, acts, i, n, x);
      if y in q { assert ArrivedBefore(states, n, x, y); }
    }
  }

  predicate PresentBelow(q: Queue, x: QueueRef, y: QueueRef) {
    x in q && y in q && q[x].position < q[y].position
  }

  lemma QueuedIsPresent(q: Queue, l: ListingRef, k: QueueRef)
    requires QueuedIn(q, l, k)
    ensures k in q
  {}

  /** On any stretch of a run without activations on the listing its queued entries stay numbered in
      arrival order, through new orders, cancellations, refunds, releases and deadline passes. */
  lemma {:induction false} FifoWithoutActivation(states: seq<Sys>, acts: seq<Timed>, i: nat, j: nat, l: ListingRef)
    requires IsRun(states, acts) && i <= j <= |acts| && InArrivalOrder(states, i, l)
    requires forall n :: i <= n < j ==> !ActivatesOn(states[n], acts[n], l)
    ensures InArrivalOrder(states, j, l)
    decreases j
  {
    hide Next, Empty, KeepsOrder, InArrivalOrder, ActivatesOn;
    if i == j {
    } else {
      FifoWithoutActivation(states, acts, i, j - 1, l);
      StepKeepsOrder(states[j - 1], acts[j - 1], states[j], l);
      StepInOrder(states, acts, j - 1, l);
    }
  }

  /** And then resolving the trade in the slot promotes an entry that nobody still queued came before. */
  lemma ResolutionPromotesEarliest(
    states: seq<Sys>, n: nat, l: ListingRef, tid: TradeId, completed: bool, hint: Visit, now: Time)
    requires InArrivalOrder(states, n, l) && ServingListing(states[n].listings, tid, hint.listing) == Some(l)
    requires QueuedKeys(states[n].queue, l) != {}
    ensures var q, r := states[n].queue, Resolve(states[n], tid, completed, hint, now).queue;
            exists k :: k in QueuedKeys(q, l)
              && r == SettleEntries(q, tid, completed)[k := Promoted(q[k], now)]
              && forall m :: m in QueuedKeys(q, l) && m != k ==> !ArrivedBefore(states, n, m, k)
  {
    hide FreeSlot, ArrivedBefore;
    var q := states[n].queue;
    var settled := SettleEntries(q, tid, completed);
    assert forall k :: k in q && IsQueued(q[k], l) ==> settled[k] == q[k];
    assert QueuedKeys(settled, l) == QueuedKeys(q, l);
    var k := NextQueued(settled, l, hint.entry).value;
    forall m | m in QueuedKeys(q, l) && m != k
      ensures !ArrivedBefore(states, n, m, k)
    {
      assert Precedes(settled[k], settled[m]);
      assert QueuedIn(q, l, m) && QueuedIn(q, l, k);
    }
  }

  // ---- Ranks -------------------------------------------------------------------------------------------------

  /** Of two entries that stay queued, the one numbered below stays below. */
  ghost predicate KeepsRank(q: Queue, r: Queue, l: ListingRef) {
    && q.Keys <= r.Keys
    && (forall k :: k in q && QueuedIn(r, l, k) ==> QueuedIn(q, l, k))
    && (forall j, k :: j in q && k in q && QueuedIn(r, l, j) && QueuedIn(r, l, k) && q[j].position < q[k].position ==>
          r[j].position < r[k].position)
  }

  /** An activation takes one entry out and moves nobody. */
  lemma ActivationKeepsRank(s: Sys, qref: QueueRef, buyer: Address, child: TradeId, now: Time, l: ListingRef)
    ensures KeepsRank(s.queue, Activate(s, qref, buyer, child, now).0.queue, l)
    ensures var r := Activate(s, qref, buyer, child, now).0;
            forall k :: QueuedIn(r.queue, l, k) ==> k in s.queue && r.queue[k] == s.queue[k]
  {
    hide NewAwaitingPayment, Conserves, HasActiveSlot, SeatReserved;
  }

  /** No action changes the rank of entries that stay queued. */
  lemma StepKeepsRank(s: Sys, a: Timed, r: Sys, l: ListingRef)
    requires Next(s, a, r)
    ensures KeepsRank(s.queue, r.queue, l)
  {
    hide Bounded, QueuedIn, Possible;
    if a.act.TakeSlot? {
      hide Activate;
      ActivationKeepsRank(s, a.act.qref, a.act.buyer, a.act.child, a.now, l);
    } else {
      hide Next;
      StepKeepsOrder(s, a, r, l);
    }
  }

  /** The rank of two entries is settled once both are there: whichever is numbered below stays below for
      as long as both are queued, through activations as well. */
  lemma {:induction false} RankIsSettled(
    states: seq<Sys>, acts: seq<Timed>, m: nat, n: nat, l: ListingRef, x: QueueRef, y: QueueRef)
    requires IsRun(states, acts) && m <= n <= |acts|
    requires x in states[m].queue && y in states[m].queue
    requires QueuedIn(states[n].queue, l, x) && QueuedIn(states[n].queue, l, y)
    requires states[m].queue[x].position < states[m].queue[y].position
    ensures PresentBelow(states[n].queue, x, y)
    decreases n
  {
    hide Next, Empty;
    if m == n {
    } else {
      QueueGrowsLong(states, acts, m, n - 1, x);
      QueueGrowsLong(states, acts, m, n - 1, y);
      StepKeepsRank(states[n - 1], acts[n - 1], states[n], l);
      RankIsSettled(states, acts, m, n - 1, l, x, y);
    }
  }

  /** Entries come from orders only. */
  lemma NewEntriesFromOrders(s: Sys, a: Timed, r: Sys, k: QueueRef)
    requires Next(s, a, r) && k in r.queue && k !in s.queue
    ensures a.act.PlaceOrder? && a.act.qref == k
  {
    hide Covers, ReconcilePass, ApproveRefund, ConfirmRelease;
    match a.act
    case PlaceOrder(l, buyer, units, child, qref, ok) => OrderKeys(s, l, buyer, units, child, qref, ok, a.now);
    case TakeSlot(qref, buyer, child) => ActivationKeys(s, qref, buyer, child, a.now);
    case LeaveQueue(qref, buyer, hint) => LeavingKeys(s, qref, buyer, hint, a.now);
    case RegisterTrade(tid, seller, buyer, units, rate, currency, ok) =>
      RegisterSparesQueue(s, tid, seller, buyer, units, rate, currency, ok, a.now);
    case _ => StepSameWaiting(s, a);
  }

  lemma OrderKeys(
    s: Sys, l: ListingRef, buyer: Address, units: U128, child: TradeId, qref: QueueRef, ok: bool, now: Time)
    ensures Order(s, l, buyer, units, child, qref, ok, now).0.queue.Keys <= s.queue.Keys + {qref}
  {
    hide Eligibility, NewAwaitingPayment, Convert, Conserves, HasActiveSlot, Seat, Reserve, WaitingKeys;
  }

  lemma ActivationKeys(s: Sys, qref: QueueRef, buyer: Address, child: TradeId, now: Time)
    ensures Activate(s, qref, buyer, child, now).0.queue.Keys == s.queue.Keys
  {
    hide NewAwaitingPayment, Conserves, HasActiveSlot, SeatReserved;
  }

  lemma LeavingKeys(s: Sys, qref: QueueRef, buyer: Address, hint: seq<QueueRef>, now: Time)
    ensures CancelQueued(s, qref, buyer, hint, now).0.queue.Keys == s.queue.Keys
  {
    hide ReturnReserved, HasActiveSlot, WaitingKeys, Trust.AfterQueueCancel;
  }

  /** Step `m` is the order that brings entry `y`, which is not numbered behind entry `x`. */
  predicate ArrivesAhead(states: seq<Sys>, acts: seq<Timed>, m: nat, x: QueueRef, y: QueueRef) {
    && m < |acts| && m + 1 < |states| && acts[m].act.PlaceOrder? && acts[m].act.qref == y
    && x in states[m].queue && y !in states[m].queue && x in states[m + 1].queue && y in states[m + 1].queue
    && states[m + 1].queue[y].position <= states[m + 1].queue[x].position
  }

  /** Whoever has overtaken an earlier arrival did so by the number the order gave them. */
  lemma {:induction false} OvertakenOnArrival(
    states: seq<Sys>, acts: seq<Timed>, i: nat, n: nat, l: ListingRef, x: QueueRef, y: QueueRef) returns (m: nat)
    requires IsRun(states, acts) && i <= n <= |acts| && x in states[i].queue && y !in states[i].queue
    requires QueuedIn(states[n].queue, l, x) && QueuedIn(states[n].queue, l, y)
    requires states[n].queue[y].position <= states[n].queue[x].position
    ensures i <= m < n && ArrivesAhead(states, acts, m, x, y)
  {
    hide Next, Empty;
    m := Arrival(states, acts, i, n, y);
    QueueGrowsLong(states, acts, i, m, x);
    QueueGrowsLong(states, acts, m, m + 1, x);
    assert Next(states[m], acts[m], states[m + 1]);
    NewEntriesFromOrders(states[m], acts[m], states[m + 1], y);
    if states[m + 1].queue[x].position < states[m + 1].queue[y].position {
      RankIsSettled(states, acts, m + 1, n, l, x, y);
    }
  }

  lemma {:induction false} Arrival(states: seq<Sys>, acts: seq<Timed>, i: nat, n: nat, y: QueueRef) returns (m: nat)
    requires IsRun(states, acts) && i <= n <= |acts| && y !in states[i].queue && y in states[n].queue
    ensures i <= m < n && y !in states[m].queue && y in states[m + 1].queue
    decreases n
  {
    hide Next, Empty;
    if y in states[n - 1].queue {
      m := Arrival(states, acts, i, n - 1, y);
    } else {
      m := n - 1;
    }
  }

  // ---- From a numbered queue on -------------------------------------------------------------------------------

  /** Entries queued at `j` stand in the order in which they arrived since step `i`. */
  ghost predicate InOrderSince(states: seq<Sys>, i: nat, j: nat, l: ListingRef) {
    && i <= j < |states| && Bounded(states[j].queue, l)
    && forall x, y ::
         (QueuedIn(states[j].queue, l, x) && QueuedIn(states[j].queue, l, y) && CameBetween(states, i, j, x, y)) ==>
         PresentBelow(states[j].queue, x, y)
  }

  /** At some moment from `i` to `j` entry `x` was there and `y` was not. */
  ghost predicate CameBetween(states: seq<Sys>, i: nat, j: nat, x: QueueRef, y: QueueRef) {
    exists m :: i <= m <= j < |states| && x in states[m].queue && y !in states[m].queue
  }

  lemma StepInOrderSince(states: seq<Sys>, acts: seq<Timed>, i: nat, j: nat, l: ListingRef)
    requires IsRun(states, acts) && j < |acts| && InOrderSince(states, i, j, l)
    requires KeepsOrder(states[j].queue, states[j + 1].queue, l)
    ensures InOrderSince(states, i, j + 1, l)
  {
    hide IsRun, Bounded, QueuedIn;
    RunLength(states, acts);
    var q, r := states[j].queue, states[j + 1].queue;
    forall x, y | QueuedIn(r, l, x) && QueuedIn(r, l, y) && CameBetween(states, i, j + 1, x, y)
      ensures PresentBelow(r, x, y)
    {
      QueuedIsPresent(r, l, x);
      QueuedIsPresent(r, l, y);
      var m :| i <= m <= j + 1 < |states| && x in states[m].queue && y !in states[m].queue;
      QueueGrowsLong(states, acts, m, j, x);
      if y in q { assert CameBetween(states, i, j, x, y); }
    }
  }

  lemma InOrderAtFirst(states: seq<Sys>, i: nat, l: ListingRef)
    requires i < |states| && Bounded(states[i].queue, l)
    ensures InOrderSince(states, i, i, l)
  {
    hide Bounded;
  }

  /** From any moment at which nobody is numbered beyond the number waiting, and up to the next activation
      on the listing, newcomers queue up in the order of arrival, behind everyone who was there; and those
      who were there keep their rank. */
  lemma {:induction false} FifoFromBound(states: seq<Sys>, acts: seq<Timed>, i: nat, j: nat, l: ListingRef)
    requires IsRun(states, acts) && i <= j <= |acts| && Bounded(states[i].queue, l)
    requires forall n :: i <= n < j ==> !ActivatesOn(states[n], acts[n], l)
    ensures InOrderSince(states, i, j, l)
    ensures forall x, y ::
              (PresentBelow(states[i].queue, x, y) && QueuedIn(states[j].queue, l, x)
               && QueuedIn(states[j].queue, l, y)) ==>
                PresentBelow(states[j].queue, x, y)
    decreases j
  {
    hide Next, Empty, KeepsOrder, ActivatesOn, Bounded, InOrderSince;
    forall x, y | PresentBelow(states[i].queue, x, y) && QueuedIn(states[j].queue, l, x)
        && QueuedIn(states[j].queue, l, y)
      ensures PresentBelow(states[j].queue, x, y)
    {
      RankIsSettled(states, acts, i, j, l, x, y);
    }
    if i == j {
      InOrderAtFirst(states, i, l);
    } else {
      FifoFromBound(states, acts, i, j - 1, l);
      StepKeepsOrder(states[j - 1], acts[j - 1], states[j], l);
      StepInOrderSince(states, acts, i, j - 1, l);
    }
  }

  /** In particular after every cancellation, whatever activations came before it. */
  lemma FifoAfterCancellation(states: seq<Sys>, acts: seq<Timed>, i: nat, j: nat, l: ListingRef)
    requires IsRun(states, acts) && i < j <= |acts| && acts[i].act.LeaveQueue?
    requires Leaves(states[i], acts[i].act.qref, acts[i].act.buyer) && states[i].queue[acts[i].act.qref].listing == l
    requires forall n :: i < n < j ==> !ActivatesOn(states[n], acts[n], l)
    ensures InOrderSince(states, i + 1, j, l)
    ensures forall x, y ::
              (PresentBelow(states[i + 1].queue, x, y) && QueuedIn(states[j].queue, l, x)
               && QueuedIn(states[j].queue, l, y)) ==>
                PresentBelow(states[j].queue, x, y)
  {
    hide Empty, Possible, CancelQueued, ActivatesOn, Bounded, InOrderSince, QueuedIn;
    assert Next(states[i], acts[i], states[i + 1]);
    var a := acts[i];
    LeavingSucceeds(states[i], a.act.qref, a.act.buyer, a.act.orderHint, a.now);
    CancellationRestoresBound(states[i], a.act.qref, a.act.buyer, a.act.orderHint, a.now);
    FifoFromBound(states, acts, i + 1, j, l);
  }

  lemma LeavingSucceeds(s: Sys, qref: QueueRef, buyer: Address, hint: seq<QueueRef>, now: Time)
    requires Leaves(s, qref, buyer)
    ensures CancelQueued(s, qref, buyer, hint, now).1 == Done
  {
    hide ReturnReserved, Renumbered, HasActiveSlot, WaitingKeys, Trust.AfterQueueCancel;
  }
}
