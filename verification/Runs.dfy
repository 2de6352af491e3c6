/** Safety over whole runs of the service, from the empty service on. */
module Runs {
  import opened Core
  import opened Lifecycle
  import opened Flutterwave
  import opened Payments
  import opened Settlement
  import opened Ledger
  import opened Inventory
  import opened System
  import opened Invariant
  import opened Reconciliation

  // ---- One step ------------------------------------------------------------------------------------

  /** The action delivers a payment that settles trade `t` exactly and in time. */
  ghost predicate SettlingAction(s: Sys, a: Timed, t: TradeId, v: Verified) {
    match a.act
    case Verify(tid, ref, _, fetch) => fetch == Payload(Some(v)) && tid == t && Settles(s.pay, t, ref, v, a.now)
    case Deliver(event, ref, parsed) =>
      event !in s.pay.inbox && ref.Some? && parsed == Some(v) && Settles(s.pay, t, ref.value, v, a.now)
    case _ => false
  }

  /** The transaction id is bound to trade `t`. */
  predicate Bound(consumed: map<FlwTxId, TradeId>, id: FlwTxId, t: TradeId) { id in consumed && consumed[id] == t }

  ghost predicate SomePaymentSettles(s: Sys, a: Timed, q: Tables, t: TradeId) {
    exists v :: SettlingAction(s, a, t, v) && Bound(q.consumed, v.flwTxId, t)
  }

  /** The only events that can move trade `t` to stage `to`, leaving tables `q`. */
  ghost predicate Causes(s: Sys, a: Timed, q: Tables, t: TradeId, to: Stage) {
    match to
    case PaymentConfirmed => SomePaymentSettles(s, a, q, t)
    case LatePaymentReview => a.act.Verify? || a.act.Deliver?
    case SellerPayoutPending => a.act == InitiatePayout(t)
    case SellerPayoutConfirmed =>
      a.act.ConfirmPayout? && a.act.tid == t && PayoutStatusOf(a.act.providerStatus) == PayoutConfirmed
    case PayoutOnHold => a.act == HoldPayout(t)
    case RefundPending => a.act == RequestRefund(t)
    case Cancelled =>
      || (&& a.act.SettleRefund? && a.act.tid == t && RefundStatusOf(a.act.providerStatus) == RefundCompleted
          && t in s.pay.trades && s.pay.trades[t].stage == RefundPending)
      || (a.act.Reconcile? && Lapsed(s.pay, t, a.now))
    case ReleasePending => a.act.SubmitRelease? && a.act.tid == t && t in s.pay.trades
        && ReleaseEligible(s.pay.trades[t])
    case ReleaseOnHold => a.act.RevertRelease? && a.act.tid == t
    case Completed => a.act.ConfirmOnChain? && a.act.tid == t
    case _ => false
  }

  predicate Moved(p: Tables, q: Tables, t: TradeId) {
    t in p.trades && t in q.trades && p.trades[t].stage != q.trades[t].stage
  }

  ghost predicate EveryMoveCaused(s: Sys, a: Timed, r: Sys) {
    forall t :: Moved(s.pay, r.pay, t) ==> Causes(s, a, r.pay, t, r.pay.trades[t].stage)
  }

  ghost predicate NewTradesWait(s: Sys, r: Sys) {
    forall t :: t in r.pay.trades && t !in s.pay.trades ==> r.pay.trades[t].stage == AwaitingPayment
  }

  /** Checkouts, deliveries and the pass are the only actions that write a payment column. */
  predicate WritesPayments(a: Action) { a.OpenCheckout? || a.Verify? || a.Deliver? || a.Reconcile? }

  ghost predicate PaymentsKept(s: Sys, a: Timed, r: Sys) {
    !WritesPayments(a.act) ==>
      forall t :: t in s.pay.trades && t in r.pay.trades ==> r.pay.trades[t].payment == s.pay.trades[t].payment
  }

  /** Registration, orders and activations are the only actions that add a trade. */
  predicate AddsTrades(a: Action) { a.RegisterTrade? || a.PlaceOrder? || a.TakeSlot? }

  /** What every step keeps. */
  ghost predicate GoodStep(s: Sys, a: Timed, r: Sys) {
    && Inv(r) && Evolves(s, r) && EveryMoveCaused(s, a, r) && NewTradesWait(s, r) && PaymentsKept(s, a, r)
    && (AddsTrades(a.act) || r.pay.trades.Keys == s.pay.trades.Keys)
  }

  lemma SingleMoveStep(s: Sys, a: Timed, q: Tables, tid: TradeId, to: Stage)
    requires Inv(s) && TablesOk(q) && AllMove(s.pay, q) && RecordsKept(s.pay, q) && MovesOnly(s.pay, q, tid, to)
    requires !Ended(to) && (Moved(s.pay, q, tid) ==> Causes(s, a, q, tid, to))
    requires to == AwaitingPayment ==> WritesPayments(a.act)
    ensures GoodStep(s, a, s.(pay := q))
  {
    hide Inv, Evolves, TablesOkExcept, RecordsKept, Moves, Causes;
    OpenMoveEndsNothing(s.pay, q, tid, to);
    PayStep(s, q);
  }

  lemma CheckoutStep(s: Sys, a: Timed)
    requires Inv(s) && a.act.OpenCheckout? && Fresh(s, a.act)
    ensures GoodStep(s, a, Step(s, a))
  {
    hide GoodStep, InitCheckout, TablesOkExcept, LedgerOk, AllMove, RecordsKept, MovesOnly, TermsOk;
    var act := a.act;
    InitCheckoutKeeps(s.pay, act.tid, act.caller, act.ref, act.reply, a.now);
    if act.tid in s.pay.trades {
      TradeFacts(s.pay, act.tid);
      CheckoutMoves(s.pay, act.tid, act.caller, act.ref, act.reply, a.now);
    } else {
      NoTradeNoCheckout(s.pay, act.tid, act.caller, act.ref, act.reply, a.now);
    }
    var q := InitCheckout(s.pay, act.tid, act.caller, act.ref, act.reply, a.now).0;
    CheckoutStays(s.pay, act.tid, act.caller, act.ref, act.reply, a.now);
    SingleMoveStep(s, a, q, act.tid, AwaitingPayment);
  }

  lemma NoTradeNoCheckout(p: Tables, tid: TradeId, caller: Address, ref: TxRef, reply: CheckoutReply, now: Time)
    requires tid !in p.trades
    ensures MovesOnly(p, InitCheckout(p, tid, caller, ref, reply, now).0, tid, AwaitingPayment)
  {}

  lemma CheckoutStays(p: Tables, tid: TradeId, caller: Address, ref: TxRef, reply: CheckoutReply, now: Time)
    requires tid in p.trades ==> TermsOk(p.trades[tid])
    ensures !Moved(p, InitCheckout(p, tid, caller, ref, reply, now).0, tid)
  {
    if tid in p.trades {
      hide InitCheckout, Convert;
      InitCheckoutSameTerms(p, tid, caller, ref, reply, now);
    }
  }

  lemma PayoutStep(s: Sys, a: Timed)
    requires Inv(s) && (a.act.InitiatePayout? || a.act.ConfirmPayout? || a.act.HoldPayout?)
    ensures GoodStep(s, a, Step(s, a))
  {
    hide GoodStep, TablesOkExcept, LedgerOk, AllMove, RecordsKept, MovesOnly, PayoutInitiate, PayoutConfirm, PayoutHold;
    match a.act
    case InitiatePayout(tid) =>
      PayoutInitiateKeeps(s.pay, tid);
      PayoutInitiateMoves(s.pay, tid);
      SingleMoveStep(s, a, PayoutInitiate(s.pay, tid).0, tid, SellerPayoutPending);
    case ConfirmPayout(tid, status) =>
      PayoutConfirmKeeps(s.pay, tid, status, a.now);
      PayoutConfirmMoves(s.pay, tid, status, a.now);
      SingleMoveStep(s, a, PayoutConfirm(s.pay, tid, status, a.now).0, tid, SellerPayoutConfirmed);
    case HoldPayout(tid) =>
      PayoutHoldKeeps(s.pay, tid);
      PayoutHoldMoves(s.pay, tid);
      SingleMoveStep(s, a, PayoutHold(s.pay, tid).0, tid, PayoutOnHold);
  }

  lemma RequestStep(s: Sys, a: Timed)
    requires Inv(s) && (a.act.RequestRefund? || a.act.SubmitRelease? || a.act.RevertRelease?)
    ensures GoodStep(s, a, Step(s, a))
  {
    hide GoodStep, TablesOkExcept, LedgerOk, AllMove, RecordsKept, MovesOnly, RefundRequest, RequestRelease,
         HoldRelease;
    match a.act
    case RequestRefund(tid) =>
      RefundRequestKeeps(s.pay, tid);
      RefundRequestMoves(s.pay, tid);
      SingleMoveStep(s, a, RefundRequest(s.pay, tid).0, tid, RefundPending);
    case SubmitRelease(tid, txHash, proof) =>
      RequestReleaseKeeps(s.pay, tid, txHash, proof);
      RequestReleaseMoves(s.pay, tid, txHash, proof);
      SingleMoveStep(s, a, RequestRelease(s.pay, tid, txHash, proof).0, tid, ReleasePending);
    case RevertRelease(tid, txHash) =>
      HoldReleaseKeeps(s.pay, tid, txHash);
      HoldReleaseMoves(s.pay, tid, txHash);
      SingleMoveStep(s, a, HoldRelease(s.pay, tid, txHash).0, tid, ReleaseOnHold);
  }

  // ---- Verification and webhooks -------------------------------------------------------------------

  /** A delivery confirms exactly the trade it settles. */
  lemma DeliveryConfirms(p: Tables, tid: TradeId, ref: TxRef, parsed: Option<Verified>, now: Time)
    requires TablesOk(p)
    ensures var q := ApplyVerified(p, tid, ref, parsed, now).0;
            forall t :: Moved(p, q, t) ==>
              && q.trades[t].stage in {PaymentConfirmed, LatePaymentReview}
              && (q.trades[t].stage == PaymentConfirmed ==>
                    && t == tid && parsed.Some? && Settles(p, t, ref, parsed.value, now)
                    && Bound(q.consumed, parsed.value.flwTxId, t))
  {
    hide TablesOkExcept, ApplyVerified, EvaluateVerified, Settles, JudgedTrade, HandlerEdge;
    var q := ApplyVerified(p, tid, ref, parsed, now).0;
    forall t | Moved(p, q, t)
      ensures q.trades[t].stage in {PaymentConfirmed, LatePaymentReview}
      ensures q.trades[t].stage == PaymentConfirmed ==>
                && t == tid && parsed.Some? && Settles(p, t, ref, parsed.value, now)
                && Bound(q.consumed, parsed.value.flwTxId, t)
    {
      ApplyVerifiedKeeps(p, tid, ref, parsed, now);
      DeliveryMoves(p, tid, ref, parsed, now);
      if q.trades[t].stage == PaymentConfirmed {
        EdgeToConfirmed(p.trades[t], q.trades[t]);
        PaidOnlyBySettling(p, tid, ref, parsed, now, t);
      }
    }
  }

  lemma EdgeToConfirmed(t: Trade, u: Trade)
    requires Moves(t, u) && u.stage == PaymentConfirmed && t.stage != u.stage
    ensures !PostPaid(t.stage) && PostPaid(u.stage)
  {}

  lemma DeliveryMoves(p: Tables, tid: TradeId, ref: TxRef, parsed: Option<Verified>, now: Time)
    requires TablesOk(p)
    ensures var q := ApplyVerified(p, tid, ref, parsed, now).0;
            forall t :: Moved(p, q, t) ==> q.trades[t].stage in {PaymentConfirmed, LatePaymentReview}
  {
    hide TermsOk, ColumnsOk, RowsOk, AttemptOk, ApplyVerified, EvaluateVerified, JudgedTrade, HandlerEdge;
    if parsed.Some? && ref in p.attempts && tid in p.trades {
      var t := p.trades[tid];
      ApplyVerifiedEffect(p, tid, ref, parsed.value, now);
      JudgementShape(p.attempts[ref], parsed.value, t.deadline, now);
      var r := EvaluateVerified(p.attempts[ref], parsed.value, t.deadline, now);
      if r.Ok? { JudgedTradeShape(t, r.value); }
    } else {
      IgnoredDelivery(p, tid, ref, parsed, now);
    }
  }

  lemma VerifyStep(s: Sys, a: Timed)
    requires Inv(s) && a.act.Verify?
    ensures GoodStep(s, a, Step(s, a))
  {
    hide TablesOkExcept, LedgerOk, ProfilesOk, RecordsKept, ApplyVerified, Settles, Evolves, Moves, EndsNothing;
    var act := a.act;
    var q := VerifyPayment(s.pay, act.tid, act.ref, act.who, act.fetch, a.now).0;
    VerifyPaymentKeeps(s.pay, act.tid, act.ref, act.who, act.fetch, a.now);
    VerifyEndsNothing(s.pay, act.tid, act.ref, act.who, act.fetch, a.now);
    PayStep(s, q);
    if act.fetch.Payload? { DeliveryConfirms(s.pay, act.tid, act.ref, act.fetch.parsed, a.now); }
    forall t | Moved(s.pay, q, t)
      ensures Causes(s, a, q, t, q.trades[t].stage)
    {
      assert Moved(s.pay, ApplyVerified(s.pay, act.tid, act.ref, act.fetch.parsed, a.now).0, t);
      if q.trades[t].stage == PaymentConfirmed { assert SettlingAction(s, a, t, act.fetch.parsed.value); }
    }
  }

  lemma WebhookStep(s: Sys, a: Timed)
    requires Inv(s) && a.act.Deliver?
    ensures GoodStep(s, a, Step(s, a))
  {
    hide TablesOkExcept, LedgerOk, ProfilesOk, RecordsKept, ApplyVerified, Settles, Evolves, Moves, EndsNothing;
    var act := a.act;
    var q := Webhook(s.pay, act.event, act.eventRef, act.parsed, a.now).0;
    WebhookKeeps(s.pay, act.event, act.eventRef, act.parsed, a.now);
    WebhookEndsNothing(s.pay, act.event, act.eventRef, act.parsed, a.now);
    PayStep(s, q);
    forall t | Moved(s.pay, q, t)
      ensures Causes(s, a, q, t, q.trades[t].stage)
    {
      var tid := s.pay.attempts[act.eventRef.value].tradeId;
      assert Moved(s.pay, ApplyVerified(s.pay, tid, act.eventRef.value, act.parsed, a.now).0, t);
      DeliveryConfirms(s.pay, tid, act.eventRef.value, act.parsed, a.now);
      if q.trades[t].stage == PaymentConfirmed { assert SettlingAction(s, a, t, act.parsed.value); }
    }
  }

  // ---- Steps across tables ---------------------------------------------------------------------------

  /** Existing trades stay as they are, new ones wait for payment. */
  ghost predicate AddsWaiting(s: Sys, r: Sys) {
    && (forall t :: t in s.pay.trades ==> t in r.pay.trades && r.pay.trades[t] == s.pay.trades[t])
    && NewTradesWait(s, r)
  }

  lemma AddingStep(s: Sys, a: Timed, r: Sys)
    requires Inv(r) && Evolves(s, r) && AddsWaiting(s, r)
    requires AddsTrades(a.act) || r.pay == s.pay
    ensures GoodStep(s, a, r)
  {
    hide Inv, Evolves, Causes;
  }

  lemma NewTradeWaits(
    seller: Address, buyer: Address, units: U128, rateMinor: U128, currency: string, timeoutMinutes: nat, now: Time)
    ensures var r := NewAwaitingPayment(seller, buyer, units, rateMinor, currency, timeoutMinutes, now);
            r.Ok? ==> r.value.stage == AwaitingPayment
  {
    hide Convert;
  }

  lemma RegisterStep(s: Sys, a: Timed)
    requires Inv(s) && a.act.RegisterTrade?
    ensures GoodStep(s, a, Step(s, a))
  {
    hide GoodStep, Inv, Evolves, Eligibility, NewAwaitingPayment;
    var x := a.act;
    RegisterKeeps(s, x.tid, x.seller, x.buyer, x.units, x.rateMinor, x.currency, x.limiterOk, a.now);
    NewTradeWaits(x.seller, x.buyer, x.units, x.rateMinor, x.currency, s.pay.config.timeoutMinutes, a.now);
    AddingStep(s, a, Step(s, a));
  }

  lemma OrderStep(s: Sys, a: Timed)
    requires Inv(s) && a.act.PlaceOrder? && Fresh(s, a.act)
    ensures GoodStep(s, a, Step(s, a))
  {
    hide GoodStep, Inv, Evolves;
    var x := a.act;
    OrderOutcome(s, x.listing, x.buyer, x.units, x.child, x.qref, x.limiterOk, a.now);
    OrderAddsWaiting(s, x.listing, x.buyer, x.units, x.child, x.qref, x.limiterOk, a.now);
    AddingStep(s, a, Order(s, x.listing, x.buyer, x.units, x.child, x.qref, x.limiterOk, a.now).0);
  }

  lemma OrderAddsWaiting(
    s: Sys, l: ListingRef, buyer: Address, units: U128, child: TradeId, qref: QueueRef, ok: bool, now: Time)
    requires child !in s.pay.trades
    ensures AddsWaiting(s, Order(s, l, buyer, units, child, qref, ok, now).0)
  {
    hide Eligibility, NewAwaitingPayment, Convert, Conserves, HasActiveSlot, Seat, Reserve;
    if l in s.listings {
      var x := s.listings[l];
      NewTradeWaits(x.seller, buyer, units, x.rateMinor, x.currency, s.pay.config.timeoutMinutes, now);
    }
  }

  lemma ActivateStep(s: Sys, a: Timed)
    requires Inv(s) && a.act.TakeSlot? && Fresh(s, a.act)
    ensures GoodStep(s, a, Step(s, a))
  {
    hide GoodStep, Inv, Evolves, SeatedFrom;
    var x := a.act;
    ActivationOutcome(s, x.qref, x.buyer, x.child, a.now);
    ActivateAddsOne(s, x.qref, x.buyer, x.child, a.now);
    AddsOneWaiting(s, Activate(s, x.qref, x.buyer, x.child, a.now).0, x.child);
    AddingStep(s, a, Activate(s, x.qref, x.buyer, x.child, a.now).0);
  }

  /** At most one trade is added, and it waits. */
  ghost predicate AddsOne(s: Sys, r: Sys, child: TradeId) {
    r.pay == s.pay
    || (&& child in r.pay.trades && r.pay.trades[child].stage == AwaitingPayment
        && r.pay == s.pay.(trades := s.pay.trades[child := r.pay.trades[child]]))
  }

  lemma AddsOneWaiting(s: Sys, r: Sys, child: TradeId)
    requires child !in s.pay.trades && AddsOne(s, r, child)
    ensures AddsWaiting(s, r)
  {}

  lemma ActivateAddsOne(s: Sys, qref: QueueRef, buyer: Address, child: TradeId, now: Time)
    ensures AddsOne(s, Activate(s, qref, buyer, child, now).0, child)
  {
    hide NewAwaitingPayment, Conserves, HasActiveSlot, SeatReserved, AtFront;
    var (r, reply) := Activate(s, qref, buyer, child, now);
    if reply == Done {
      var e, x := s.queue[qref], s.listings[s.queue[qref].listing];
      NewTradeWaits(x.seller, buyer, e.units, x.rateMinor, x.currency, s.pay.config.timeoutMinutes, now);
    }
  }

  /** At most trade `tid` changes, and moves only to `to`. */
  lemma EndingStep(s: Sys, a: Timed, r: Sys, tid: TradeId, to: Stage)
    requires Inv(r) && Evolves(s, r) && MovesOnly(s.pay, r.pay, tid, to)
    requires to != AwaitingPayment && (Moved(s.pay, r.pay, tid) ==> Causes(s, a, r.pay, tid, to))
    ensures GoodStep(s, a, r)
  {
    hide Inv, Evolves, Causes;
  }

  lemma RefundSettleStep(s: Sys, a: Timed)
    requires Inv(s) && a.act.SettleRefund?
    ensures GoodStep(s, a, Step(s, a))
  {
    hide GoodStep, Inv, Evolves, ApproveRefund, RefundCancel, Serves, MovesOnly, RefundStatusOf;
    var x := a.act;
    ApproveRefundKeeps(s, x.tid, x.providerStatus, x.hint, a.now);
    var r := ApproveRefund(s, x.tid, x.providerStatus, x.hint, a.now).0;
    RefundPayments(s, x.tid, x.providerStatus, x.hint, a.now);
    RefundCancelMoves(s.pay, x.tid, x.providerStatus);
    SameTradesMoveOnly(s.pay, RefundCancel(s.pay, x.tid, x.providerStatus).0, r.pay, x.tid, Cancelled);
    EndingStep(s, a, r, x.tid, Cancelled);
  }

  lemma SameTradesMoveOnly(p: Tables, q: Tables, r: Tables, tid: TradeId, to: Stage)
    requires MovesOnly(p, q, tid, to) && r.trades == q.trades
    ensures MovesOnly(p, r, tid, to)
  {}

  lemma RefundPayments(s: Sys, tid: TradeId, status: string, hint: Visit, now: Time)
    ensures ApproveRefund(s, tid, status, hint, now).0.pay.trades == RefundCancel(s.pay, tid, status).0.trades
  {
    hide RefundStatusOf, FreeSlot, SettleEntries, Promote;
  }

  lemma RefundCancelMoves(p: Tables, tid: TradeId, status: string)
    ensures MovesOnly(p, RefundCancel(p, tid, status).0, tid, Cancelled)
    ensures RefundStatusOf(status) != RefundCompleted ==> RefundCancel(p, tid, status).0 == p
    ensures tid in p.trades && p.trades[tid].stage != RefundPending ==> RefundCancel(p, tid, status).0 == p
  {
    hide RefundStatusOf, WrapAdd32;
    var (q, r) := RefundCancel(p, tid, status);
    if r == Done {
      assert q.trades[tid].stage == Cancelled;
      assert q.trades == p.trades[tid := q.trades[tid]];
    }
  }

  lemma ConfirmReleaseStep(s: Sys, a: Timed)
    requires Inv(s) && a.act.ConfirmOnChain?
    ensures GoodStep(s, a, Step(s, a))
  {
    hide GoodStep, Inv, Evolves, ConfirmRelease, ReleaseComplete, Serves, MovesOnly;
    var x := a.act;
    ConfirmReleaseKeeps(s, x.tid, x.txHash, x.hint, a.now);
    var r := ConfirmRelease(s, x.tid, x.txHash, x.hint, a.now).0;
    ReleasePayments(s, x.tid, x.txHash, x.hint, a.now);
    ReleaseCompleteMoves(s.pay, x.tid, x.txHash);
    SameTradesMoveOnly(s.pay, ReleaseComplete(s.pay, x.tid, x.txHash).0, r.pay, x.tid, Completed);
    EndingStep(s, a, r, x.tid, Completed);
  }

  lemma ReleasePayments(s: Sys, tid: TradeId, txHash: Option<Hash>, hint: Visit, now: Time)
    ensures ConfirmRelease(s, tid, txHash, hint, now).0.pay.trades == ReleaseComplete(s.pay, tid, txHash).0.trades
  {
    hide FreeSlot, SettleEntries, Promote, Trust.AfterCompletion;
  }

  lemma ReleaseCompleteMoves(p: Tables, tid: TradeId, txHash: Option<Hash>)
    ensures MovesOnly(p, ReleaseComplete(p, tid, txHash).0, tid, Completed)
  {
    hide WrapAdd32;
    var (q, r) := ReleaseComplete(p, tid, txHash);
    if r == Done {
      assert q.trades[tid].stage == Completed;
      assert q.trades == p.trades[tid := q.trades[tid]];
    }
  }

  lemma PassStep(s: Sys, a: Timed)
    requires Inv(s) && a.act.Reconcile? && Covers(s, a.act)
    ensures GoodStep(s, a, Step(s, a))
  {
    hide Inv, Evolves, ReconcilePass, PassTrades, PassAttempts, PassListings, PassProfiles, Lapsed;
    PassIsExact(s, a.act.order, a.act.hints, a.now);
    PassMoves(s, ReconcilePass(s, a.act.order, a.act.hints, a.now), a.now);
  }

  lemma PassMoves(s: Sys, r: Sys, now: Time)
    requires PassTrades(s, r, now)
    ensures NewTradesWait(s, r) && r.pay.trades.Keys == s.pay.trades.Keys
    ensures forall t :: Moved(s.pay, r.pay, t) ==> r.pay.trades[t].stage == Cancelled && Lapsed(s.pay, t, now)
  {
    hide Lapsed;
  }

  lemma RemainingStep(s: Sys, a: Timed)
    requires Inv(s) && (a.act.PublishListing? || a.act.LeaveQueue? || a.act.Override? || a.act.PledgeGuarantee?)
    ensures GoodStep(s, a, Step(s, a))
  {
    hide GoodStep, Inv, Evolves, CancelQueued, CreateListing, Trust.AfterOverride, ProfileOf;
    match a.act
    case PublishListing(l, seller, total, rate, currency) =>
      PublishKeeps(s, l, seller, total, rate, currency);
      PublishSpares(s, l, seller, total, rate, currency);
      AddingStep(s, a, CreateListing(s, l, seller, total, rate, currency).0);
    case LeaveQueue(qref, buyer, hint) =>
      LeaveQueueKeeps(s, qref, buyer, hint, a.now);
      LeavingSparesTrades(s, qref, buyer, hint, a.now);
      AddingStep(s, a, CancelQueued(s, qref, buyer, hint, a.now).0);
    case Override(w, clear, v) =>
      OverrideKeeps(s, w, clear, v);
      AddingStep(s, a, Step(s, a));
    case PledgeGuarantee(g, guarantor) =>
      PledgeKeeps(s, g, guarantor);
      AddingStep(s, a, Step(s, a));
  }

  lemma LeavingSparesTrades(s: Sys, qref: QueueRef, buyer: Address, hint: seq<QueueRef>, now: Time)
    ensures CancelQueued(s, qref, buyer, hint, now).0.pay == s.pay
  {}

  lemma OverrideKeeps(s: Sys, w: Address, clear: bool, v: Option<Trust.Verification>)
    requires Inv(s)
    ensures var r := s.(profiles := s.profiles[w := Trust.AfterOverride(ProfileOf(s, w), clear, v)]);
            Inv(r) && Evolves(s, r)
  {
    hide Inv, Evolves, ProfileOf, Trust.PolicyOf;
    WithProfile(s, s.(profiles := s.profiles[w := Trust.AfterOverride(ProfileOf(s, w), clear, v)]), w,
                Trust.AfterOverride(ProfileOf(s, w), clear, v));
  }

  lemma PledgeKeeps(s: Sys, g: nat, guarantor: Guarantor)
    requires Inv(s)
    ensures var r := s.(guarantors := s.guarantors[g := guarantor]); Inv(r) && Evolves(s, r)
  {
    hide TablesOkExcept, LedgerOk, Trust.Consistent, Evolves, Serves;
    Stands(s, s.(guarantors := s.guarantors[g := guarantor]));
  }

  /** Every possible action keeps the invariant, moves trades only along handler edges, and confirms a
      payment only by delivering one that settles the trade exactly and in time. */
  lemma StepKeeps(s: Sys, a: Timed)
    requires Inv(s) && Possible(s, a.act)
    ensures GoodStep(s, a, Step(s, a))
  {
    hide Inv, GoodStep, Step;
    match a.act
    case RegisterTrade(_, _, _, _, _, _, _) => RegisterStep(s, a);
    case OpenCheckout(_, _, _, _) => CheckoutStep(s, a);
    case Verify(_, _, _, _) => VerifyStep(s, a);
    case Deliver(_, _, _) => WebhookStep(s, a);
    case InitiatePayout(_) => PayoutStep(s, a);
    case ConfirmPayout(_, _) => PayoutStep(s, a);
    case HoldPayout(_) => PayoutStep(s, a);
    case RequestRefund(_) => RequestStep(s, a);
    case SettleRefund(_, _, _) => RefundSettleStep(s, a);
    case SubmitRelease(_, _, _) => RequestStep(s, a);
    case ConfirmOnChain(_, _, _) => ConfirmReleaseStep(s, a);
    case RevertRelease(_, _) => RequestStep(s, a);
    case Reconcile(_, _) => PassStep(s, a);
    case PlaceOrder(_, _, _, _, _, _) => OrderStep(s, a);
    case TakeSlot(_, _, _) => ActivateStep(s, a);
    case _ => RemainingStep(s, a);
  }
}
