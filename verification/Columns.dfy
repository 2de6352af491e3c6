/** What one action does to a trade's stage and payment column, to a buyer's profile and to the count of
    unpaid obligations, in terms of the state before it. */
module Columns {
  import opened Core
  import opened Lifecycle
  import opened Flutterwave
  import opened Payments
  import opened Settlement
  import opened Inventory
  import opened System
  import opened Invariant
  import opened Reconciliation
  import opened Runs

  // ---- Deliveries ------------------------------------------------------------------------------------

  /** The judgement of a delivery for attempt `ref` of trade `tid`, if it takes effect: the attempt is the
      trade's own, the transaction is not spent elsewhere, and it is not the one already confirmed. */
  function Accepted(p: Tables, tid: TradeId, ref: TxRef, parsed: Option<Verified>, now: Time): Option<Judgement> {
    if parsed.None? || ref !in p.attempts || tid !in p.trades || p.attempts[ref].tradeId != tid then None else
    var v, a, t := parsed.value, p.attempts[ref], p.trades[tid];
    if v.flwTxId in p.consumed && p.consumed[v.flwTxId] != tid then None
    else if a.status == AttemptVerified && t.payment == Confirmed && a.flwTxId == Some(v.flwTxId) then None
    else match EvaluateVerified(a, v, t.deadline, now) case Ok(j) => Some(j) case Err(_) => None
  }

  predicate Participant(p: Tables, tid: TradeId, who: Option<Address>) {
    who.Some? ==> tid in p.trades && (p.trades[tid].buyer == who || p.trades[tid].seller == who.value)
  }

  /** The judgement that the action delivers to trade `t`, if any. */
  function DeliveredTo(s: Sys, a: Timed, t: TradeId): Option<Judgement> {
    match a.act
    case Verify(tid, ref, who, fetch) =>
      if tid == t && fetch.Payload? && Participant(s.pay, tid, who) then Accepted(s.pay, t, ref, fetch.parsed, a.now)
      else None
    case Deliver(event, ref, parsed) =>
      if event !in s.pay.inbox && ref.Some? then Accepted(s.pay, t, ref.value, parsed, a.now) else None
    case _ => None
  }

  /** Trade `t` once the judgement, if any, has been applied. */
  function Applied(t: Trade, j: Option<Judgement>): Trade { if j.Some? then JudgedTrade(t, j.value) else t }

  lemma AcceptedExact(p: Tables, tid: TradeId, ref: TxRef, parsed: Option<Verified>, now: Time, t: TradeId)
    requires t in p.trades
    ensures var q := ApplyVerified(p, tid, ref, parsed, now).0;
            && t in q.trades
            && q.trades[t] == Applied(p.trades[t], if t == tid then Accepted(p, t, ref, parsed, now) else None)
  {
    hide EvaluateVerified, JudgedTrade, ApplyVerified;
    if parsed.Some? && ref in p.attempts && tid in p.trades {
      ApplyVerifiedEffect(p, tid, ref, parsed.value, now);
    } else {
      IgnoredDelivery(p, tid, ref, parsed, now);
    }
  }

  lemma VerifyExact(
    p: Tables, tid: TradeId, ref: TxRef, who: Option<Address>, fetch: Fetch, now: Time, t: TradeId)
    requires t in p.trades
    ensures var q := VerifyPayment(p, tid, ref, who, fetch, now).0;
            var j := if tid == t && fetch.Payload? && Participant(p, tid, who)
                     then Accepted(p, t, ref, fetch.parsed, now) else None;
            t in q.trades && q.trades[t] == Applied(p.trades[t], j)
  {
    hide ApplyVerified, EvaluateVerified, JudgedTrade;
    if fetch.Payload? { AcceptedExact(p, tid, ref, fetch.parsed, now, t); }
  }

  lemma WebhookExact(p: Tables, event: EventId, ref: Option<TxRef>, parsed: Option<Verified>, now: Time, t: TradeId)
    requires t in p.trades
    ensures var q := Webhook(p, event, ref, parsed, now).0;
            var j := if event !in p.inbox && ref.Some? then Accepted(p, t, ref.value, parsed, now) else None;
            t in q.trades && q.trades[t] == Applied(p.trades[t], j)
  {
    hide ApplyVerified, EvaluateVerified, JudgedTrade;
    if ref.Some? && ref.value in p.attempts {
      AcceptedExact(p, p.attempts[ref.value].tradeId, ref.value, parsed, now, t);
    }
  }

  /** A delivery changes exactly the trade it is accepted for, as its judgement says. */
  lemma DeliveryExact(s: Sys, a: Timed, t: TradeId)
    requires (a.act.Verify? || a.act.Deliver?) && t in s.pay.trades
    ensures var r := Step(s, a);
            t in r.pay.trades && r.pay.trades[t] == Applied(s.pay.trades[t], DeliveredTo(s, a, t))
  {
    hide VerifyPayment, Webhook, Accepted, Applied, Participant;
    match a.act
    case Verify(tid, ref, who, fetch) => VerifyExact(s.pay, tid, ref, who, fetch, a.now, t);
    case Deliver(event, ref, parsed) => WebhookExact(s.pay, event, ref, parsed, a.now, t);
  }

  // ---- Checkouts -----------------------------------------------------------------------------------------

  /** A checkout by `caller` opens a new attempt. */
  predicate Opens(p: Tables, tid: TradeId, caller: Address, now: Time) {
    && tid in p.trades
    && var t := p.trades[tid];
       t.stage == AwaitingPayment && t.buyer == Some(caller) && now < OrElse(t.deadline, now) && !Reusable(p, tid, now)
  }

  lemma CheckoutExact(p: Tables, tid: TradeId, caller: Address, ref: TxRef, reply: CheckoutReply, now: Time)
    requires tid in p.trades ==> TermsOk(p.trades[tid])
    ensures var q := InitCheckout(p, tid, caller, ref, reply, now).0;
            q.trades == if Opens(p, tid, caller, now)
                        then p.trades[tid := p.trades[tid].(payment := CheckoutCreated)] else p.trades
  {
    hide Reusable, Convert;
    if tid in p.trades && p.trades[tid].buyer == Some(caller) {
      var t := p.trades[tid];
      assert t.(buyer := Some(caller), deadline := t.deadline) == t;
      assert p.trades[tid := t] == p.trades;
    }
  }

  // ---- Stage and payment after any action ------------------------------------------------------------------

  /** Whether the trade waits for payment, and its payment column. */
  datatype Column = Column(waits: bool, payment: PaymentState)

  function ColumnOf(t: Trade): Column { Column(t.stage == AwaitingPayment, t.payment) }

  function JudgedPayment(j: Judgement): PaymentState {
    match j.outcome
    case PaidInFull(_, _, _, late) => if late then LateConfirmed else Confirmed
    case TooLittle(_, _, _) => Underpaid
    case TooMuch(_, _, _) => Overpaid
    case StillPending(_) => PendingVerification
    case NotPaid => PaymentFailed
  }

  function ColumnAfter(s: Sys, a: Timed, t: TradeId): Column
    requires t in s.pay.trades
  {
    var c := ColumnOf(s.pay.trades[t]);
    match a.act
    case Verify(_, _, _, _) => Judged(c, DeliveredTo(s, a, t))
    case Deliver(_, _, _) => Judged(c, DeliveredTo(s, a, t))
    case OpenCheckout(tid, caller, _, _) =>
      if tid == t && Opens(s.pay, tid, caller, a.now) then c.(payment := CheckoutCreated) else c
    case RequestRefund(tid) => c.(waits := c.waits && tid != t)
    case Reconcile(_, _) => if Lapsed(s.pay, t, a.now) then Column(false, PaymentExpired) else c
    case _ => c
  }

  function Judged(c: Column, j: Option<Judgement>): Column {
    if j.None? then c else Column(c.waits && !j.value.outcome.PaidInFull?, JudgedPayment(j.value))
  }

  lemma JudgedTradeColumn(t: Trade, j: Judgement)
    requires j.outcome.StillPending? ==> j.payment == PendingVerification
    ensures ColumnOf(JudgedTrade(t, j)) == Judged(ColumnOf(t), Some(j))
  {}

  lemma AcceptedShape(p: Tables, tid: TradeId, ref: TxRef, parsed: Option<Verified>, now: Time)
    ensures var j := Accepted(p, tid, ref, parsed, now);
            j.Some? && j.value.outcome.StillPending? ==> j.value.payment == PendingVerification
  {
    hide EvaluateVerified;
    if parsed.Some? && ref in p.attempts && tid in p.trades {
      JudgementShape(p.attempts[ref], parsed.value, p.trades[tid].deadline, now);
    }
  }

  lemma DeliveredShape(s: Sys, a: Timed, t: TradeId)
    ensures var j := DeliveredTo(s, a, t);
            j.Some? && j.value.outcome.StillPending? ==> j.value.payment == PendingVerification
  {
    hide Accepted;
    match a.act
    case Verify(_, ref, _, fetch) => if fetch.Payload? { AcceptedShape(s.pay, t, ref, fetch.parsed, a.now); }
    case Deliver(_, ref, parsed) => if ref.Some? { AcceptedShape(s.pay, t, ref.value, parsed, a.now); }
    case _ =>
  }

  lemma RefundRequestMovesWaiting(p: Tables, tid: TradeId)
    requires tid in p.trades && p.trades[tid].stage == AwaitingPayment
    ensures var q := RefundRequest(p, tid).0; tid in q.trades && q.trades[tid].stage == RefundPending
  {}

  /** Whether the trade waits after an action that neither delivers nor runs the pass. */
  lemma WaitsAfter(s: Sys, a: Timed, r: Sys, t: TradeId)
    requires GoodStep(s, a, r) && t in s.pay.trades && !a.act.Verify? && !a.act.Deliver? && !a.act.Reconcile?
    ensures t in r.pay.trades
    ensures r.pay.trades[t].stage == AwaitingPayment ==> s.pay.trades[t].stage == AwaitingPayment
    ensures s.pay.trades[t].stage == AwaitingPayment && r.pay.trades[t].stage != AwaitingPayment ==>
              a.act == RequestRefund(t)
  {
    hide Inv, RecordsKept, NoOldTradeSeated, SameOffers;
    assert Moves(s.pay.trades[t], r.pay.trades[t]);
    if s.pay.trades[t].stage == AwaitingPayment && r.pay.trades[t].stage != AwaitingPayment {
      assert Moved(s.pay, r.pay, t);
    }
  }

  /** The columns of every trade after every possible action. */
  lemma StepColumns(s: Sys, a: Timed, t: TradeId)
    requires Inv(s) && Possible(s, a.act) && t in s.pay.trades
    ensures var r := Step(s, a);
            && t in r.pay.trades && ColumnOf(r.pay.trades[t]) == ColumnAfter(s, a, t)
            && SameTerms(s.pay.trades[t], r.pay.trades[t])
  {
    hide Inv, GoodStep, Step, DeliveredTo, JudgedTrade, Opens, Lapsed, Covers, Fresh, ReconcilePass, InitCheckout;
    var r := Step(s, a);
    StepKeeps(s, a);
    StepTerms(s, a, r, t);
    match a.act
    case Verify(_, _, _, _) =>
      DeliveryExact(s, a, t);
      DeliveredShape(s, a, t);
      if DeliveredTo(s, a, t).Some? { JudgedTradeColumn(s.pay.trades[t], DeliveredTo(s, a, t).value); }
    case Deliver(_, _, _) =>
      DeliveryExact(s, a, t);
      DeliveredShape(s, a, t);
      if DeliveredTo(s, a, t).Some? { JudgedTradeColumn(s.pay.trades[t], DeliveredTo(s, a, t).value); }
    case Reconcile(_, _) => PassColumns(s, a, t);
    case OpenCheckout(_, _, _, _) => CheckoutColumns(s, a, t);
    case RequestRefund(_) => RefundColumns(s, a, t);
    case _ =>
      WaitsAfter(s, a, r, t);
      PaymentStays(s, a, r, t);
  }

  lemma StepTerms(s: Sys, a: Timed, r: Sys, t: TradeId)
    requires GoodStep(s, a, r) && t in s.pay.trades
    ensures t in r.pay.trades && SameTerms(s.pay.trades[t], r.pay.trades[t])
  {
    hide Inv, RecordsKept, NoOldTradeSeated, SameOffers, HandlerEdge;
    assert Moves(s.pay.trades[t], r.pay.trades[t]);
  }

  lemma PaymentStays(s: Sys, a: Timed, r: Sys, t: TradeId)
    requires GoodStep(s, a, r) && t in s.pay.trades && t in r.pay.trades && !WritesPayments(a.act)
    ensures r.pay.trades[t].payment == s.pay.trades[t].payment
  {
    hide Inv, Evolves;
  }

  lemma PassColumns(s: Sys, a: Timed, t: TradeId)
    requires Inv(s) && Possible(s, a.act) && t in s.pay.trades && a.act.Reconcile?
    ensures var r := Step(s, a); t in r.pay.trades && ColumnOf(r.pay.trades[t]) == ColumnAfter(s, a, t)
  {
    hide Inv, Evolves, ReconcilePass, PassAttempts, PassListings, PassProfiles, Lapsed;
    PassIsExact(s, a.act.order, a.act.hints, a.now);
  }

  lemma CheckoutColumns(s: Sys, a: Timed, t: TradeId)
    requires Inv(s) && t in s.pay.trades && a.act.OpenCheckout?
    ensures var r := Step(s, a); t in r.pay.trades && ColumnOf(r.pay.trades[t]) == ColumnAfter(s, a, t)
  {
    hide TermsOk, ColumnsOk, RowsOk, AttemptOk, LedgerOk, ProfilesOk, InitCheckout, Reusable;
    var x := a.act;
    if x.tid in s.pay.trades { TradeFacts(s.pay, x.tid); }
    CheckoutExact(s.pay, x.tid, x.caller, x.ref, x.reply, a.now);
  }

  lemma RefundColumns(s: Sys, a: Timed, t: TradeId)
    requires t in s.pay.trades && a.act.RequestRefund? && GoodStep(s, a, Step(s, a))
    ensures var r := Step(s, a); t in r.pay.trades && ColumnOf(r.pay.trades[t]) == ColumnAfter(s, a, t)
  {
    hide GoodStep, RefundRequest;
    var r := Step(s, a);
    WaitsAfter(s, a, r, t);
    PaymentStays(s, a, r, t);
    if a.act.tid == t && s.pay.trades[t].stage == AwaitingPayment { RefundRequestMovesWaiting(s.pay, t); }
  }

  // ---- Off the transition table ------------------------------------------------------------------------

  /** The change is no move of the transition table, nor two moves through SellerPayoutPending. */
  predicate OffTable(from: Stage, to: Stage) {
    && !CanTransitionTo(from, to)
    && !(CanTransitionTo(from, SellerPayoutPending) && CanTransitionTo(SellerPayoutPending, to))
  }

  /** A full payment is delivered to trade `t`, too late. */
  predicate DeliversLate(s: Sys, a: Timed, t: TradeId) {
    var j := DeliveredTo(s, a, t);
    j.Some? && j.value.outcome.PaidInFull? && j.value.outcome.late
  }

  /** Every action moves trades along the transition table, with one exception: a trade leaves the table
      exactly when it is cancelled and a full payment reaches it late, and then it goes to review. */
  lemma OffTableExactly(s: Sys, a: Timed, t: TradeId)
    requires Inv(s) && Possible(s, a.act) && t in s.pay.trades
    ensures var r := Step(s, a);
            && t in r.pay.trades
            && (OffTable(s.pay.trades[t].stage, r.pay.trades[t].stage)
                <==> s.pay.trades[t].stage == Cancelled && DeliversLate(s, a, t))
            && (OffTable(s.pay.trades[t].stage, r.pay.trades[t].stage) ==> r.pay.trades[t].stage == LatePaymentReview)
  {
    hide Inv, Step, DeliveredTo, JudgedTrade, Possible, HandlerEdge, CanTransitionTo;
    var r := Step(s, a);
    StepKeeps(s, a);
    StepEdge(s, a, r, t);
    var from, to := s.pay.trades[t].stage, r.pay.trades[t].stage;
    EdgesAreLegal(from, to);
    if a.act.Verify? || a.act.Deliver? {
      DeliveryExact(s, a, t);
      if from == Cancelled && DeliveredTo(s, a, t).Some? {
        CancelledJudged(s.pay.trades[t], DeliveredTo(s, a, t).value);
      }
    } else {
      OnlyDeliveriesDeliver(s, a, t);
      if Moved(s.pay, r.pay, t) { ReviewNeedsDelivery(s, a, r, t); }
    }
  }

  lemma StepEdge(s: Sys, a: Timed, r: Sys, t: TradeId)
    requires GoodStep(s, a, r) && t in s.pay.trades
    ensures t in r.pay.trades && HandlerEdge(s.pay.trades[t].stage, r.pay.trades[t].stage)
  {
    hide Inv, RecordsKept, NoOldTradeSeated, SameOffers, HandlerEdge;
    assert Moves(s.pay.trades[t], r.pay.trades[t]);
  }

  lemma CancelledJudged(t: Trade, j: Judgement)
    requires t.stage == Cancelled
    ensures JudgedTrade(t, j).stage
         == if j.outcome.PaidInFull? && j.outcome.late then LatePaymentReview else Cancelled
  {}

  lemma OnlyDeliveriesDeliver(s: Sys, a: Timed, t: TradeId)
    requires !a.act.Verify? && !a.act.Deliver?
    ensures DeliveredTo(s, a, t).None?
  {}

  lemma ReviewNeedsDelivery(s: Sys, a: Timed, r: Sys, t: TradeId)
    requires GoodStep(s, a, r) && Moved(s.pay, r.pay, t) && !a.act.Verify? && !a.act.Deliver?
    ensures r.pay.trades[t].stage != LatePaymentReview
  {
    hide Inv, Evolves;
  }

  // ---- What a delivery must bring ------------------------------------------------------------------------

  /** The delivered payment belongs to attempt `ref` of trade `tid` and may take effect there. */
  predicate Matches(p: Tables, tid: TradeId, ref: TxRef, v: Flutterwave.Verified) {
    && ref in p.attempts && tid in p.trades && p.attempts[ref].tradeId == tid
    && (v.flwTxId in p.consumed ==> p.consumed[v.flwTxId] == tid)
    && var a, t := p.attempts[ref], p.trades[tid];
       && !(a.status == AttemptVerified && t.payment == Confirmed && a.flwTxId == Some(v.flwTxId))
       && v.txRef == a.txRef && (v.tradeMeta.Some? ==> v.tradeMeta.value == a.tradeId)
       && (v.buyerMeta.Some? ==> v.buyerMeta.value == a.buyer)
       && Text.Upper(v.currency) == Text.Upper(a.expectedCurrency)
  }

  /** When a delivery takes effect, and when it is a pending or a late payment. */
  lemma AcceptedMeans(p: Tables, tid: TradeId, ref: TxRef, v: Flutterwave.Verified, now: Time)
    ensures var j := Accepted(p, tid, ref, Some(v), now);
            && (j.Some? <==> Matches(p, tid, ref, v))
            && (j.Some? && j.value.outcome.StillPending? <==> Matches(p, tid, ref, v) && IsPendingStatus(v.status))
            && (j.Some? && j.value.outcome.PaidInFull? && j.value.outcome.late
                <==> && Matches(p, tid, ref, v) && v.status == SUCCESSFUL
                     && v.amountMinor == p.attempts[ref].expectedMinor
                     && (now > OrElse(p.trades[tid].deadline, now) || now > p.attempts[ref].expiresAt))
  {
    hide Text.Upper;
  }
}
