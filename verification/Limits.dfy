/** Unpaid obligations: what orders, activations and checkouts do to a buyer's count. */
module Limits {
  import opened Core
  import opened Lifecycle
  import opened Payments
  import opened Settlement
  import opened Ledger
  import opened System
  import opened Columns

  // ---- Unpaid obligations --------------------------------------------------------------------------

  /** `r` is `s` with one more obligation of `buyer`, and the same for everyone else. */
  ghost predicate OneMore(s: Sys, r: Sys, buyer: Address) {
    && UnpaidObligations(r, buyer) == UnpaidObligations(s, buyer) + 1
    && forall b: Address :: b != buyer ==> UnpaidObligations(r, b) == UnpaidObligations(s, b)
  }

  /** Sets that agree everywhere but at one element. */
  lemma SizeAfterWrite(before: set<nat>, after: set<nat>, x: nat)
    requires forall y :: y != x ==> (y in before <==> y in after)
    ensures |after| == |before| - (if x in before then 1 else 0) + if x in after then 1 else 0
  {
    var rest := before - {x};
    assert rest == after - {x};
    assert before == if x in before then rest + {x} else rest;
    assert after == if x in after then rest + {x} else rest;
  }

  lemma TradeWritten(s: Sys, r: Sys, tid: TradeId, b: Address)
    requires tid in r.pay.trades && r.pay.trades == s.pay.trades[tid := r.pay.trades[tid]]
    ensures |UnpaidTrades(r, b)| == |UnpaidTrades(s, b)|
              - (if tid in s.pay.trades && UnpaidTrade(s.pay.trades[tid], b) then 1 else 0)
              + if UnpaidTrade(r.pay.trades[tid], b) then 1 else 0
  {
    hide UnpaidTrade;
    SizeAfterWrite(UnpaidTrades(s, b), UnpaidTrades(r, b), tid);
  }

  predicate Waits(e: Entry, b: Address) { e.buyer == b && e.status in {Queued, Eligible} }

  lemma EntryWritten(s: Sys, r: Sys, k: QueueRef, b: Address)
    requires k in r.queue && r.queue == s.queue[k := r.queue[k]]
    ensures |WaitingEntries(r, b)| == |WaitingEntries(s, b)|
              - (if k in s.queue && Waits(s.queue[k], b) then 1 else 0) + if Waits(r.queue[k], b) then 1 else 0
  {
    SizeAfterWrite(WaitingEntries(s, b), WaitingEntries(r, b), k);
  }

  lemma SameTradesSameUnpaid(s: Sys, r: Sys, b: Address)
    requires r.pay.trades == s.pay.trades
    ensures UnpaidTrades(r, b) == UnpaidTrades(s, b)
  {}

  lemma SameQueueSameWaiting(s: Sys, r: Sys, b: Address)
    requires r.queue == s.queue
    ensures WaitingEntries(r, b) == WaitingEntries(s, b)
  {}

  lemma EligibleBelowCap(s: Sys, buyer: Address, units: U128, now: Time)
    requires Eligibility(s, buyer, units, now) == Done
    ensures UnpaidObligations(s, buyer) < ProfileOf(s, buyer).policy.concurrent
  {
    hide EffectiveLimit, Backed, UnpaidObligations, ProfileOf;
  }

  /** Exactly one of the two tables gains an obligation of `buyer`. */
  ghost predicate Gains(s: Sys, r: Sys, child: TradeId, qref: QueueRef, buyer: Address) {
    && r.queue.Keys == s.queue.Keys + {qref} && r.queue == s.queue[qref := r.queue[qref]]
    && if r.queue[qref].status == ActiveSlot
       then child in r.pay.trades && r.pay.trades == s.pay.trades[child := r.pay.trades[child]]
            && UnpaidTrade(r.pay.trades[child], buyer)
       else r.pay == s.pay && Waits(r.queue[qref], buyer)
  }

  lemma GainsOneMore(s: Sys, r: Sys, child: TradeId, qref: QueueRef, buyer: Address)
    requires child !in s.pay.trades && qref !in s.queue && Gains(s, r, child, qref, buyer)
    ensures OneMore(s, r, buyer)
  {
    hide UnpaidTrades, WaitingEntries;
    forall b: Address
      ensures UnpaidObligations(r, b) == UnpaidObligations(s, b) + if b == buyer then 1 else 0
    {
      EntryWritten(s, r, qref, b);
      if r.queue[qref].status == ActiveSlot {
        TradeWritten(s, r, child, b);
      } else {
        SameTradesSameUnpaid(s, r, b);
      }
    }
  }

  lemma NewTradeUnpaid(
    seller: Address, buyer: Address, units: U128, rateMinor: U128, currency: string, timeoutMinutes: nat, now: Time)
    ensures var r := NewAwaitingPayment(seller, buyer, units, rateMinor, currency, timeoutMinutes, now);
            r.Ok? ==> UnpaidTrade(r.value, buyer) && forall b :: b != buyer ==> !UnpaidTrade(r.value, b)
  {
    hide Convert;
  }

  lemma OrderGains(
    s: Sys, l: ListingRef, buyer: Address, units: U128, child: TradeId, qref: QueueRef, ok: bool, now: Time)
    requires qref !in s.queue
    ensures var (r, reply) := Order(s, l, buyer, units, child, qref, ok, now);
            reply == Done ==> Gains(s, r, child, qref, buyer)
  {
    hide Eligibility, NewAwaitingPayment, Convert, Conserves, HasActiveSlot, Seat, Reserve, WaitingKeys, UnpaidTrade;
    if l in s.listings {
      var x := s.listings[l];
      NewTradeUnpaid(x.seller, buyer, units, x.rateMinor, x.currency, s.pay.config.timeoutMinutes, now);
    }
  }

  lemma OrderNeedsAdmission(
    s: Sys, l: ListingRef, buyer: Address, units: U128, child: TradeId, qref: QueueRef, ok: bool, now: Time)
    ensures Order(s, l, buyer, units, child, qref, ok, now).1 == Done ==> Eligibility(s, buyer, units, now) == Done
  {
    hide Eligibility, NewAwaitingPayment, Convert, Conserves, HasActiveSlot, Seat, Reserve, WaitingKeys, Admit;
    AdmitAsks(s, buyer, units, ok, now);
  }

  lemma AdmitAsks(s: Sys, buyer: Address, units: U128, ok: bool, now: Time)
    ensures Admit(s, buyer, units, ok, now).1 == Done ==> Eligibility(s, buyer, units, now) == Done
  {
    hide Eligibility;
  }

  /** Admission keeps the cap: an accepted order adds one obligation of its buyer, in the queue or as an
      unpaid trade, and the new count does not exceed what the buyer's tier allows. */
  lemma OrderRespectsCap(
    s: Sys, l: ListingRef, buyer: Address, units: U128, child: TradeId, qref: QueueRef, ok: bool, now: Time)
    requires child !in s.pay.trades && qref !in s.queue
    ensures var (r, reply) := Order(s, l, buyer, units, child, qref, ok, now);
            reply == Done ==>
              OneMore(s, r, buyer) && UnpaidObligations(r, buyer) <= ProfileOf(s, buyer).policy.concurrent
  {
    hide Order, Eligibility, Gains, ProfileOf;
    var (r, reply) := Order(s, l, buyer, units, child, qref, ok, now);
    if reply == Done {
      OrderGains(s, l, buyer, units, child, qref, ok, now);
      OrderNeedsAdmission(s, l, buyer, units, child, qref, ok, now);
      GainsOneMore(s, r, child, qref, buyer);
      EligibleBelowCap(s, buyer, units, now);
    }
  }

  /** Activation turns a waiting entry into an unpaid trade of the same buyer: nobody's count changes. */
  lemma ActivationKeepsCount(s: Sys, qref: QueueRef, buyer: Address, child: TradeId, now: Time, b: Address)
    requires child !in s.pay.trades
    ensures UnpaidObligations(Activate(s, qref, buyer, child, now).0, b) == UnpaidObligations(s, b)
  {
    hide NewAwaitingPayment, Conserves, HasActiveSlot, SeatReserved, UnpaidTrade, UnpaidTrades, WaitingEntries;
    var (r, reply) := Activate(s, qref, buyer, child, now);
    if reply == Done {
      var e, x := s.queue[qref], s.listings[s.queue[qref].listing];
      NewTradeUnpaid(x.seller, buyer, e.units, x.rateMinor, x.currency, s.pay.config.timeoutMinutes, now);
      TradeWritten(s, r, child, b);
      EntryWritten(s, r, qref, b);
    } else {
      SameTradesSameUnpaid(s, r, b);
      SameQueueSameWaiting(s, r, b);
    }
  }

  // ---- Checkout and the cap ------------------------------------------------------------------------------

  predicate Counted(x: PaymentState) { x in {Unpaid, CheckoutCreated, PendingVerification} }

  /** A checkout asks no limit, so the cap can be passed: it raises the buyer's count exactly when it opens
      a new attempt for a trade whose payment had failed, or had been too small or too large. */
  lemma CheckoutRaisesExactly(
    s: Sys, tid: TradeId, caller: Address, ref: TxRef, reply: CheckoutReply, now: Time)
    requires TablesOk(s.pay) && tid in s.pay.trades
    ensures var q := InitCheckout(s.pay, tid, caller, ref, reply, now).0;
            var raised := Opens(s.pay, tid, caller, now) && !Counted(s.pay.trades[tid].payment);
            UnpaidObligations(s.(pay := q), caller) == UnpaidObligations(s, caller) + if raised then 1 else 0
  {
    hide InitCheckout, TermsOk, ColumnsOk, RowsOk, AttemptOk, UnpaidTrades, WaitingEntries, Reusable;
    assert TermsOk(s.pay.trades[tid]);
    CheckoutExact(s.pay, tid, caller, ref, reply, now);
    var r := s.(pay := InitCheckout(s.pay, tid, caller, ref, reply, now).0);
    SameQueueSameWaiting(s, r, caller);
    if Opens(s.pay, tid, caller, now) {
      TradeWritten(s, r, tid, caller);
    } else {
      SameTradesSameUnpaid(s, r, caller);
    }
  }
}
