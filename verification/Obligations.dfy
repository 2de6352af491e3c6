/** The cap on a buyer's unpaid obligations: which actions change the count and the cap, by how much, and
    exactly when a buyer gets past the cap. */
module Obligations {
  import opened Core
  import opened Lifecycle
  import opened Flutterwave
  import opened Payments
  import opened Settlement
  import opened Ledger
  import opened Trust
  import opened System
  import opened Invariant
  import opened Reconciliation
  import opened Runs
  import opened Columns
  import opened Limits
  import opened Safety

  // ---- Profiles after any action -----------------------------------------------------------------------

  /** A release confirmation that goes through. */
  predicate Completes(p: Tables, tid: TradeId, txHash: Option<Hash>) {
    && tid in p.trades && p.trades[tid].stage in {ReleasePending, ReleaseOnHold}
    && (txHash.Some? || p.trades[tid].releaseHash.Some?)
  }

  /** The owner of a waiting entry leaves the queue. */
  predicate Leaves(s: Sys, qref: QueueRef, buyer: Address) {
    qref in s.queue && s.queue[qref].buyer == buyer && s.queue[qref].status in {Queued, Eligible}
  }

  /** Buyer `b`'s profile after the action. */
  function ProfileAfter(s: Sys, a: Timed, b: Address): Profile {
    var p := ProfileOf(s, b);
    match a.act
    case ConfirmOnChain(tid, txHash, _) =>
      if Completes(s.pay, tid, txHash) && s.pay.trades[tid].buyer == Some(b)
      then AfterCompletion(p, s.pay.trades[tid].units) else p
    case LeaveQueue(qref, buyer, _) =>
      if b == buyer && Leaves(s, qref, buyer) then AfterQueueCancel(p, a.now - s.queue[qref].createdAt < 60) else p
    case Reconcile(_, _) => Penalised(p, |LapsedOf(s.pay, b, a.now)|, a.now)
    case Override(w, clear, v) => if b == w then AfterOverride(p, clear, v) else p
    case _ => p
  }

  lemma AdmitProfiles(s: Sys, buyer: Address, units: U128, ok: bool, now: Time, b: Address)
    ensures ProfileOf(Admit(s, buyer, units, ok, now).0, b) == ProfileOf(s, b)
  {
    hide Eligibility;
  }

  lemma RegisterProfiles(s: Sys, tid: TradeId, seller: Address, buyer: Address, units: U128, rateMinor: U128,
                         currency: string, ok: bool, now: Time, b: Address)
    ensures ProfileOf(Register(s, tid, seller, buyer, units, rateMinor, currency, ok, now).0, b) == ProfileOf(s, b)
  {
    hide Admit, NewAwaitingPayment;
    AdmitProfiles(s, buyer, units, ok, now, b);
  }

  lemma OrderProfiles(s: Sys, l: ListingRef, buyer: Address, units: U128, child: TradeId, qref: QueueRef, ok: bool,
                      now: Time, b: Address)
    ensures ProfileOf(Order(s, l, buyer, units, child, qref, ok, now).0, b) == ProfileOf(s, b)
  {
    hide Admit, NewAwaitingPayment, Convert, Conserves, HasActiveSlot, Seat, Reserve, WaitingKeys;
    AdmitProfiles(s, buyer, units, ok, now, b);
  }

  lemma ActivateProfiles(s: Sys, qref: QueueRef, buyer: Address, child: TradeId, now: Time, b: Address)
    ensures ProfileOf(Activate(s, qref, buyer, child, now).0, b) == ProfileOf(s, b)
  {
    hide NewAwaitingPayment, Conserves, HasActiveSlot, SeatReserved, AtFront;
  }

  lemma ResolveProfiles(s: Sys, tid: TradeId, completed: bool, hint: Visit, now: Time)
    ensures Resolve(s, tid, completed, hint, now).profiles == s.profiles
  {
    hide FreeSlot, SettleEntries, Promote;
  }

  lemma RefundProfiles(s: Sys, tid: TradeId, status: string, hint: Visit, now: Time, b: Address)
    ensures ProfileOf(ApproveRefund(s, tid, status, hint, now).0, b) == ProfileOf(s, b)
  {
    hide Resolve, RefundStatusOf;
    var (p1, r) := RefundCancel(s.pay, tid, status);
    ResolveProfiles(s.(pay := p1), tid, false, hint, now);
  }

  lemma ConfirmProfiles(s: Sys, tid: TradeId, txHash: Option<Hash>, hint: Visit, now: Time, b: Address)
    ensures ProfileOf(ConfirmRelease(s, tid, txHash, hint, now).0, b)
         == if Completes(s.pay, tid, txHash) && s.pay.trades[tid].buyer == Some(b)
            then AfterCompletion(ProfileOf(s, b), s.pay.trades[tid].units) else ProfileOf(s, b)
  {
    hide Resolve, AfterCompletion;
    var (p1, r) := ReleaseComplete(s.pay, tid, txHash);
    if r == Done { ResolveProfiles(Credit(s.(pay := p1), p1.trades[tid]), tid, true, hint, now); }
  }

  lemma LeaveProfiles(s: Sys, qref: QueueRef, buyer: Address, hint: seq<QueueRef>, now: Time, b: Address)
    ensures ProfileOf(CancelQueued(s, qref, buyer, hint, now).0, b)
         == if b == buyer && Leaves(s, qref, buyer)
            then AfterQueueCancel(ProfileOf(s, b), now - s.queue[qref].createdAt < 60) else ProfileOf(s, b)
  {
    hide AfterQueueCancel, ReturnReserved, Renumbered, HasActiveSlot, WaitingKeys;
  }

  lemma PassProfilesOf(s: Sys, a: Timed, b: Address)
    requires Inv(s) && Possible(s, a.act) && a.act.Reconcile?
    ensures ProfileOf(Step(s, a), b) == Penalised(ProfileOf(s, b), |LapsedOf(s.pay, b, a.now)|, a.now)
  {
    hide Inv, Evolves, ReconcilePass, PassTrades, PassAttempts, PassListings, Penalised, LapsedOf, ProfileOf;
    PassIsExact(s, a.act.order, a.act.hints, a.now);
  }

  /** Every buyer's profile after every possible action. */
  lemma StepProfiles(s: Sys, a: Timed, b: Address)
    requires Inv(s) && Possible(s, a.act)
    ensures ProfileOf(Step(s, a), b) == ProfileAfter(s, a, b)
  {
    hide Inv, Register, Order, Activate, ApproveRefund, ConfirmRelease, CancelQueued, ReconcilePass, InitCheckout,
         VerifyPayment, Webhook, PayoutInitiate, PayoutConfirm, PayoutHold, RefundRequest, RequestRelease, HoldRelease,
         AfterOverride, AfterCompletion, AfterQueueCancel, Penalised, LapsedOf, Covers, Completes, Leaves;
    match a.act
    case RegisterTrade(tid, seller, buyer, units, rate, currency, ok) =>
      RegisterProfiles(s, tid, seller, buyer, units, rate, currency, ok, a.now, b);
    case PlaceOrder(l, buyer, units, child, qref, ok) => OrderProfiles(s, l, buyer, units, child, qref, ok, a.now, b);
    case TakeSlot(qref, buyer, child) => ActivateProfiles(s, qref, buyer, child, a.now, b);
    case SettleRefund(tid, status, hint) => RefundProfiles(s, tid, status, hint, a.now, b);
    case ConfirmOnChain(tid, txHash, hint) => ConfirmProfiles(s, tid, txHash, hint, a.now, b);
    case LeaveQueue(qref, buyer, hint) => LeaveProfiles(s, qref, buyer, hint, a.now, b);
    case Reconcile(_, _) => PassProfilesOf(s, a, b);
    case PublishListing(l, seller, total, rate, currency) => PublishSpares(s, l, seller, total, rate, currency);
    case _ =>
  }

  /** The owner of a waiting entry who leaves the queue pays for it in score. */
  lemma LeavingQueueCosts(s: Sys, a: Timed)
    requires Inv(s) && Possible(s, a.act) && a.act.LeaveQueue? && Leaves(s, a.act.qref, a.act.buyer)
    requires var c := ProfileOf(s, a.act.buyer).counters;
             NoWrap(c) && NoWrap(CountQueueCancel(c, a.now - s.queue[a.act.qref].createdAt < 60))
    ensures var p, q := ProfileOf(s, a.act.buyer).policy, ProfileOf(Step(s, a), a.act.buyer).policy;
            var cost := QueueCancelCost(a.now - s.queue[a.act.qref].createdAt < 60);
            && q.score == Clamp(p.score - cost, 0, 1000)
            && (q.score == p.score <==> p.score == 0)
            && (q.tier == p.tier <==> q.score >= ScoreNeededFor(p.tier))
  {
    hide TablesOkExcept, Inventory.LedgerOk, Step, Possible, ProfileOf, AfterQueueCancel, Consistent, NoWrap;
    StepProfiles(s, a, a.act.buyer);
    ProfilesStayConsistent(s, a.act.buyer);
    QueueCancelCostsExactly(ProfileOf(s, a.act.buyer), a.now - s.queue[a.act.qref].createdAt < 60);
  }

  // ---- The queue's part of the count ---------------------------------------------------------------------

  /** The same entries, of the same buyers, wait. */
  ghost predicate SameWaiting(q: Queue, r: Queue) {
    && r.Keys == q.Keys
    && forall k :: k in q ==>
         r[k].buyer == q[k].buyer && (r[k].status in {Queued, Eligible} <==> q[k].status in {Queued, Eligible})
  }

  lemma SameWaitingEntries(s: Sys, r: Sys, b: Address)
    requires SameWaiting(s.queue, r.queue)
    ensures WaitingEntries(r, b) == WaitingEntries(s, b)
  {}

  lemma SettlingSameWaiting(q: Queue, tid: TradeId, completed: bool, next: Option<QueueRef>, now: Time)
    requires next.Some? ==> next.value in q && q[next.value].status == Queued
    ensures SameWaiting(q, Promote(SettleEntries(q, tid, completed), next, now))
  {}

  lemma ResolveSameWaiting(s: Sys, tid: TradeId, completed: bool, hint: Visit, now: Time)
    ensures SameWaiting(s.queue, Resolve(s, tid, completed, hint, now).queue)
  {
    hide FreeSlot, SameWaiting, Promote;
    match ServingListing(s.listings, tid, hint.listing)
    case None => WaitingStands(s.queue);
    case Some(l) =>
      var settled := SettleEntries(s.queue, tid, completed);
      var next := NextQueued(settled, l, hint.entry);
      if next.Some? { SettledQueued(s.queue, tid, completed, next.value); }
      SettlingSameWaiting(s.queue, tid, completed, next, now);
  }

  lemma SettledQueued(q: Queue, tid: TradeId, completed: bool, k: QueueRef)
    requires k in SettleEntries(q, tid, completed) && SettleEntries(q, tid, completed)[k].status == Queued
    ensures k in q && q[k].status == Queued
  {}

  lemma WaitingStands(q: Queue)
    ensures SameWaiting(q, q)
  {}

  lemma {:induction false} ExpiringSameWaiting(s: Sys, xs: seq<Expiration>, hints: seq<Visit>, now: Time)
    ensures SameWaiting(s.queue, SettleExpirations(s, xs, hints, now).queue)
  {
    hide Resolve, AfterExpiration;
    if xs == [] {
    } else {
      var n := |xs| - 1;
      ExpiringSameWaiting(s, xs[..n], hints, now);
      ResolveSameWaiting(SettleExpirations(s, xs[..n], hints, now), xs[n].trade, false, HintAt(hints, n), now);
    }
  }

  lemma RenumberedSameWaiting(q: Queue, order: seq<QueueRef>, busy: bool, now: Time)
    ensures SameWaiting(q, Renumbered(q, order, busy, now))
  {}

  /** Leaving the queue takes one waiting entry of its owner away. */
  lemma LeaveCount(s: Sys, qref: QueueRef, buyer: Address, hint: seq<QueueRef>, now: Time, b: Address)
    ensures var r := CancelQueued(s, qref, buyer, hint, now).0;
            |WaitingEntries(r, b)| == |WaitingEntries(s, b)| - if b == buyer && Leaves(s, qref, buyer) then 1 else 0
  {
    hide AfterQueueCancel, ReturnReserved, Renumbered, HasActiveSlot, WaitingEntries;
    var (r, reply) := CancelQueued(s, qref, buyer, hint, now);
    if reply == Done {
      var e := s.queue[qref];
      var m := s.(queue := s.queue[qref := e.(status := CancelledByBuyer)]);
      EntryWritten(s, m, qref, b);
      var busy := e.listing !in r.listings || HasActiveSlot(r.listings[e.listing], now);
      RenumberedSameWaiting(m.queue, OrderOf(m.queue, WaitingKeys(m.queue, e.listing), hint), busy, now);
      SameWaitingEntries(m, r, b);
    }
  }

  // ---- The trades' part of the count -----------------------------------------------------------------------

  predicate CountedColumn(c: Column) { c.waits && Counted(c.payment) }

  lemma UnpaidIsCounted(t: Trade, b: Address)
    ensures UnpaidTrade(t, b) <==> t.buyer == Some(b) && CountedColumn(ColumnOf(t))
  {}

  /** The trade will count for `b` after the action. */
  predicate UnpaidNext(s: Sys, a: Timed, t: TradeId, b: Address)
    requires t in s.pay.trades
  {
    s.pay.trades[t].buyer == Some(b) && CountedColumn(ColumnAfter(s, a, t))
  }

  function UnpaidNexts(s: Sys, a: Timed, b: Address): set<TradeId> {
    set t | t in s.pay.trades && UnpaidNext(s, a, t, b)
  }

  lemma UnpaidAfterStep(s: Sys, a: Timed, b: Address)
    requires Inv(s) && Possible(s, a.act) && !AddsTrades(a.act)
    ensures UnpaidTrades(Step(s, a), b) == UnpaidNexts(s, a, b)
  {
    hide Inv, Step, ColumnAfter, UnpaidTrade, CountedColumn, Possible;
    var r := Step(s, a);
    StepKeeps(s, a);
    SameTradeKeys(s, a, r);
    forall t | t in s.pay.trades
      ensures UnpaidTrade(r.pay.trades[t], b) <==> UnpaidNext(s, a, t, b)
    {
      StepColumns(s, a, t);
      UnpaidIsCounted(r.pay.trades[t], b);
    }
  }

  lemma SameTradeKeys(s: Sys, a: Timed, r: Sys)
    requires GoodStep(s, a, r) && !AddsTrades(a.act)
    ensures r.pay.trades.Keys == s.pay.trades.Keys
  {
    hide Inv, Evolves, EveryMoveCaused;
  }

  /** What a delivery to trade `t` does to the count: a pending one makes the trade count, any other makes
      it stop counting. */
  function DeliveryChange(s: Sys, a: Timed, t: TradeId, b: Address): int {
    if t in s.pay.trades && DeliveredTo(s, a, t).Some?
       && s.pay.trades[t].stage == AwaitingPayment && s.pay.trades[t].buyer == Some(b)
    then (if DeliveredTo(s, a, t).value.outcome.StillPending? then 1 else 0)
         - (if Counted(s.pay.trades[t].payment) then 1 else 0)
    else 0
  }

  /** The counted trades of `b` that the pass would cancel. */
  function LapsedUnpaid(s: Sys, b: Address, now: Time): set<TradeId> {
    set t | t in s.pay.trades && UnpaidTrade(s.pay.trades[t], b) && Lapsed(s.pay, t, now)
  }

  predicate Registrable(s: Sys, tid: TradeId, seller: Address, buyer: Address, units: U128, rateMinor: U128, ok: bool,
                        now: Time) {
    && tid !in s.pay.trades && ok && Eligibility(s, buyer, units, now) == Done
    && seller != buyer && units > 0 && rateMinor > 0
    && Convert(units, rateMinor).Some? && Convert(units, rateMinor).value >= MIN_FIAT_MINOR
  }

  predicate OrderGoesThrough(s: Sys, l: ListingRef, buyer: Address, units: U128, ok: bool, now: Time) {
    ok && Eligibility(s, buyer, units, now) == Done && Orderable(s, l, buyer, units)
  }

  /** The trade to which the action delivers a payment. */
  function Addressee(s: Sys, a: Timed): Option<TradeId> {
    match a.act
    case Verify(tid, _, _, _) => Some(tid)
    case Deliver(_, ref, _) =>
      if ref.Some? && ref.value in s.pay.attempts then Some(s.pay.attempts[ref.value].tradeId) else None
    case _ => None
  }

  /** By how much the action changes `b`'s number of unpaid obligations. */
  function Change(s: Sys, a: Timed, b: Address): int {
    match a.act
    case RegisterTrade(tid, seller, buyer, units, rate, _, ok) =>
      if b == buyer && Registrable(s, tid, seller, buyer, units, rate, ok, a.now) then 1 else 0
    case PlaceOrder(l, buyer, units, _, _, ok) =>
      if b == buyer && OrderGoesThrough(s, l, buyer, units, ok, a.now) then 1 else 0
    case OpenCheckout(tid, caller, _, _) =>
      if b == caller && Opens(s.pay, tid, caller, a.now) && !Counted(s.pay.trades[tid].payment) then 1 else 0
    case Verify(_, _, _, _) => if Addressee(s, a).Some? then DeliveryChange(s, a, Addressee(s, a).value, b) else 0
    case Deliver(_, _, _) => if Addressee(s, a).Some? then DeliveryChange(s, a, Addressee(s, a).value, b) else 0
    case RequestRefund(tid) => if tid in s.pay.trades && UnpaidTrade(s.pay.trades[tid], b) then -1 else 0
    case LeaveQueue(qref, buyer, _) => if b == buyer && Leaves(s, qref, buyer) then -1 else 0
    case Reconcile(_, _) => -|LapsedUnpaid(s, b, a.now)|
    case _ => 0
  }

  /** Only the trade `t` may count differently. */
  lemma OneTradeCounts(s: Sys, a: Timed, b: Address, t: TradeId)
    requires forall u :: u in s.pay.trades && u != t ==> ColumnAfter(s, a, u) == ColumnOf(s.pay.trades[u])
    ensures |UnpaidNexts(s, a, b)| == |UnpaidTrades(s, b)|
              - (if t in s.pay.trades && UnpaidTrade(s.pay.trades[t], b) then 1 else 0)
              + if t in s.pay.trades && UnpaidNext(s, a, t, b) then 1 else 0
  {
    hide ColumnAfter, CountedColumn, UnpaidTrade, ColumnOf;
    forall u | u in s.pay.trades && u != t
      ensures UnpaidTrade(s.pay.trades[u], b) <==> UnpaidNext(s, a, u, b)
    {
      UnpaidIsCounted(s.pay.trades[u], b);
    }
    SizeAfterWrite(UnpaidTrades(s, b), UnpaidNexts(s, a, b), t);
  }

  lemma AddresseeOnly(s: Sys, a: Timed, u: TradeId)
    requires a.act.Verify? || a.act.Deliver?
    ensures DeliveredTo(s, a, u).Some? ==> Addressee(s, a) == Some(u)
  {
    hide EvaluateVerified;
  }

  lemma DeliveryCount(s: Sys, a: Timed, b: Address)
    requires a.act.Verify? || a.act.Deliver?
    ensures |UnpaidNexts(s, a, b)| - |UnpaidTrades(s, b)| == Change(s, a, b)
  {
    hide DeliveredTo, UnpaidNexts, UnpaidTrades;
    forall u | u in s.pay.trades && Some(u) != Addressee(s, a)
      ensures ColumnAfter(s, a, u) == ColumnOf(s.pay.trades[u])
    {
      AddresseeOnly(s, a, u);
    }
    var t: TradeId := if Addressee(s, a).Some? then Addressee(s, a).value else 0;
    OneTradeCounts(s, a, b, t);
    AddresseeOnly(s, a, t);
    if t in s.pay.trades { UnpaidIsCounted(s.pay.trades[t], b); }
  }

  lemma CheckoutCount(s: Sys, a: Timed, b: Address)
    requires a.act.OpenCheckout?
    ensures |UnpaidNexts(s, a, b)| - |UnpaidTrades(s, b)| == Change(s, a, b)
  {
    hide Reusable, UnpaidNexts, UnpaidTrades;
    OneTradeCounts(s, a, b, a.act.tid);
  }

  lemma RefundRequestCount(s: Sys, a: Timed, b: Address)
    requires a.act.RequestRefund?
    ensures |UnpaidNexts(s, a, b)| - |UnpaidTrades(s, b)| == Change(s, a, b)
  {
    hide UnpaidNexts, UnpaidTrades;
    OneTradeCounts(s, a, b, a.act.tid);
  }

  lemma PassCount(s: Sys, a: Timed, b: Address)
    requires a.act.Reconcile?
    ensures |UnpaidNexts(s, a, b)| - |UnpaidTrades(s, b)| == Change(s, a, b)
  {
    hide Lapsed;
    assert UnpaidNexts(s, a, b) == UnpaidTrades(s, b) - LapsedUnpaid(s, b, a.now);
    assert LapsedUnpaid(s, b, a.now) <= UnpaidTrades(s, b);
  }

  lemma QuietCount(s: Sys, a: Timed, b: Address)
    requires forall u :: u in s.pay.trades ==> ColumnAfter(s, a, u) == ColumnOf(s.pay.trades[u])
    ensures UnpaidNexts(s, a, b) == UnpaidTrades(s, b)
  {
    hide ColumnAfter;
    forall u | u in s.pay.trades
      ensures UnpaidTrade(s.pay.trades[u], b) <==> UnpaidNext(s, a, u, b)
    {
      UnpaidIsCounted(s.pay.trades[u], b);
    }
  }

  // ---- The count after any action ----------------------------------------------------------------------------

  lemma RegisterOutcome(
    s: Sys, tid: TradeId, seller: Address, buyer: Address, units: U128, rateMinor: U128, currency: string,
    ok: bool, now: Time)
    ensures var r := Register(s, tid, seller, buyer, units, rateMinor, currency, ok, now).0;
            && r.queue == s.queue
            && if Registrable(s, tid, seller, buyer, units, rateMinor, ok, now)
               then && tid in r.pay.trades && r.pay.trades == s.pay.trades[tid := r.pay.trades[tid]]
                    && UnpaidTrade(r.pay.trades[tid], buyer)
                    && forall b :: b != buyer ==> !UnpaidTrade(r.pay.trades[tid], b)
               else r.pay == s.pay
  {
    hide Eligibility, Convert, WrapMul;
  }

  lemma RegisterCount(s: Sys, a: Timed, b: Address)
    requires a.act.RegisterTrade?
    ensures UnpaidObligations(Step(s, a), b) == UnpaidObligations(s, b) + Change(s, a, b)
  {
    hide Register, Registrable, UnpaidTrades, WaitingEntries, UnpaidTrade;
    var x := a.act;
    RegisterOutcome(s, x.tid, x.seller, x.buyer, x.units, x.rateMinor, x.currency, x.limiterOk, a.now);
    var r := Step(s, a);
    SameQueueSameWaiting(s, r, b);
    if Registrable(s, x.tid, x.seller, x.buyer, x.units, x.rateMinor, x.limiterOk, a.now) {
      NotThere(s, x.tid, x.seller, x.buyer, x.units, x.rateMinor, x.limiterOk, a.now);
      TradeWritten(s, r, x.tid, b);
    } else {
      SameTradesSameUnpaid(s, r, b);
    }
  }

  lemma NotThere(s: Sys, tid: TradeId, seller: Address, buyer: Address, units: U128, rateMinor: U128, ok: bool,
                 now: Time)
    requires Registrable(s, tid, seller, buyer, units, rateMinor, ok, now)
    ensures tid !in s.pay.trades
  {
    hide Eligibility, Convert;
  }

  lemma OrderCount(s: Sys, a: Timed, b: Address)
    requires Inv(s) && Possible(s, a.act) && a.act.PlaceOrder?
    ensures UnpaidObligations(Step(s, a), b) == UnpaidObligations(s, b) + Change(s, a, b)
  {
    hide Inv, Evolves, Order, Eligibility, Orderable, UnpaidObligations, ProfileOf;
    var x := a.act;
    OrderOutcome(s, x.listing, x.buyer, x.units, x.child, x.qref, x.limiterOk, a.now);
    OrderRespectsCap(s, x.listing, x.buyer, x.units, x.child, x.qref, x.limiterOk, a.now);
    var (r, reply) := Order(s, x.listing, x.buyer, x.units, x.child, x.qref, x.limiterOk, a.now);
    if reply != Done { SameTablesSameCount(s, r, b); }
  }

  lemma SameTablesSameCount(s: Sys, r: Sys, b: Address)
    requires r.pay.trades == s.pay.trades && r.queue == s.queue
    ensures UnpaidObligations(r, b) == UnpaidObligations(s, b)
  {
    SameTradesSameUnpaid(s, r, b);
    SameQueueSameWaiting(s, r, b);
  }

  /** The waiting entries after an action that is no order, activation or cancellation. */
  lemma StepSameWaiting(s: Sys, a: Timed)
    requires !AddsTrades(a.act) && !a.act.LeaveQueue?
    ensures SameWaiting(s.queue, Step(s, a).queue)
  {
    hide SameWaiting, Order, CancelQueued, Activate, Register, CreateListing, InitCheckout, VerifyPayment, Webhook,
         PayoutInitiate, PayoutConfirm, PayoutHold, RefundRequest, RequestRelease, HoldRelease, AfterOverride,
         Resolve, RefundStatusOf, SettleExpirations, Sweep, Expirations, ProcessJobs, AfterCompletion;
    WaitingStands(s.queue);
    match a.act
    case SettleRefund(tid, status, hint) =>
      ResolveSameWaiting(s.(pay := RefundCancel(s.pay, tid, status).0), tid, false, hint, a.now);
    case ConfirmOnChain(tid, txHash, hint) =>
      var (p1, reply) := ReleaseComplete(s.pay, tid, txHash);
      if reply == Done { ResolveSameWaiting(Credit(s.(pay := p1), p1.trades[tid]), tid, true, hint, a.now); }
    case Reconcile(order, hints) =>
      ExpiringSameWaiting(s.(pay := Sweep(s.pay, order, a.now)), Expirations(s.pay, order, a.now), hints, a.now);
    case PublishListing(l, seller, total, rate, currency) => PublishSpares(s, l, seller, total, rate, currency);
    case _ =>
  }

  lemma TradePart(s: Sys, a: Timed, b: Address)
    requires !AddsTrades(a.act) && !a.act.LeaveQueue?
    ensures |UnpaidNexts(s, a, b)| - |UnpaidTrades(s, b)| == Change(s, a, b)
  {
    hide UnpaidNexts, UnpaidTrades, DeliveredTo, Opens, LapsedUnpaid;
    match a.act
    case Verify(_, _, _, _) => DeliveryCount(s, a, b);
    case Deliver(_, _, _) => DeliveryCount(s, a, b);
    case OpenCheckout(_, _, _, _) => CheckoutCount(s, a, b);
    case RequestRefund(_) => RefundRequestCount(s, a, b);
    case Reconcile(_, _) => PassCount(s, a, b);
    case _ => QuietCount(s, a, b);
  }

  /** The number of unpaid obligations of every buyer after every possible action. */
  lemma CountChangesExactly(s: Sys, a: Timed, b: Address)
    requires Inv(s) && Possible(s, a.act)
    ensures UnpaidObligations(Step(s, a), b) == UnpaidObligations(s, b) + Change(s, a, b)
  {
    hide Inv, Step, Change, UnpaidTrades, UnpaidNexts, WaitingEntries, SameWaiting, Possible;
    match a.act
    case RegisterTrade(_, _, _, _, _, _, _) => RegisterCount(s, a, b);
    case PlaceOrder(_, _, _, _, _, _) => OrderCount(s, a, b);
    case TakeSlot(_, _, _) => TakeSlotCount(s, a, b);
    case LeaveQueue(_, _, _) => LeaveQueueCount(s, a, b);
    case _ =>
      UnpaidAfterStep(s, a, b);
      TradePart(s, a, b);
      StepSameWaiting(s, a);
      SameWaitingEntries(s, Step(s, a), b);
  }

  lemma TakeSlotCount(s: Sys, a: Timed, b: Address)
    requires Possible(s, a.act) && a.act.TakeSlot?
    ensures UnpaidObligations(Step(s, a), b) == UnpaidObligations(s, b) + Change(s, a, b)
  {
    hide UnpaidObligations, Activate;
    ActivationKeepsCount(s, a.act.qref, a.act.buyer, a.act.child, a.now, b);
  }

  lemma LeaveQueueCount(s: Sys, a: Timed, b: Address)
    requires Inv(s) && Possible(s, a.act) && a.act.LeaveQueue?
    ensures UnpaidObligations(Step(s, a), b) == UnpaidObligations(s, b) + Change(s, a, b)
  {
    hide Inv, CancelQueued, UnpaidTrades, WaitingEntries, Leaves;
    LeavingSparesTrades(s, a.act.qref, a.act.buyer, a.act.orderHint, a.now);
    SameTradesSameUnpaid(s, Step(s, a), b);
    LeaveCount(s, a.act.qref, a.act.buyer, a.act.orderHint, a.now, b);
  }

  // ---- Who raises the count ----------------------------------------------------------------------------------

  /** A pending payment is delivered for a waiting trade of `b` that did not count. */
  predicate DeliversPending(s: Sys, a: Timed, t: TradeId, b: Address) {
    && DeliveredTo(s, a, t).Some? && DeliveredTo(s, a, t).value.outcome.StillPending? && t in s.pay.trades
    && s.pay.trades[t].stage == AwaitingPayment && s.pay.trades[t].buyer == Some(b) && !Counted(s.pay.trades[t].payment)
  }

  /** The guards, in the state before, of the actions that raise `b`'s count. */
  predicate Raises(s: Sys, a: Timed, b: Address) {
    match a.act
    case RegisterTrade(tid, seller, buyer, units, rate, _, ok) =>
      b == buyer && Registrable(s, tid, seller, buyer, units, rate, ok, a.now)
    case PlaceOrder(l, buyer, units, _, _, ok) => b == buyer && OrderGoesThrough(s, l, buyer, units, ok, a.now)
    case OpenCheckout(tid, caller, _, _) =>
      b == caller && Opens(s.pay, tid, caller, a.now) && !Counted(s.pay.trades[tid].payment)
    case Verify(tid, _, _, _) => DeliversPending(s, a, tid, b)
    case Deliver(_, ref, _) =>
      ref.Some? && ref.value in s.pay.attempts && DeliversPending(s, a, s.pay.attempts[ref.value].tradeId, b)
    case _ => false
  }

  /** Exactly which actions raise a buyer's count of unpaid obligations, by one: an accepted registration or
      order, a new checkout for a trade whose payment failed or had the wrong amount, and the news that such
      a payment is pending after all. Nothing else does. */
  lemma CountRisesExactly(s: Sys, a: Timed, b: Address)
    requires Inv(s) && Possible(s, a.act)
    ensures UnpaidObligations(Step(s, a), b) > UnpaidObligations(s, b) <==> Raises(s, a, b)
    ensures Raises(s, a, b) ==> UnpaidObligations(Step(s, a), b) == UnpaidObligations(s, b) + 1
  {
    hide Inv, Step, UnpaidObligations, Possible;
    CountChangesExactly(s, a, b);
    ChangeIsRise(s, a, b);
  }

  lemma ChangeIsRise(s: Sys, a: Timed, b: Address)
    ensures Change(s, a, b) <= 1 && (Change(s, a, b) == 1 <==> Raises(s, a, b))
  {
    hide DeliveredTo, Registrable, OrderGoesThrough, Opens, LapsedUnpaid, Leaves;
  }

  // ---- Past the cap --------------------------------------------------------------------------------------------

  function Cap(s: Sys, b: Address): nat { ProfileOf(s, b).policy.concurrent }

  ghost predicate OverCap(s: Sys, b: Address) { UnpaidObligations(s, b) > Cap(s, b) }

  /** The guards, in the state before, of the actions that take `b` past the cap: a rise that asks no limit
      when the cap is reached, or a change of the buyer's profile that leaves the new cap below the count. */
  predicate PassesCap(s: Sys, a: Timed, b: Address) {
    match a.act
    case OpenCheckout(_, _, _, _) => Raises(s, a, b) && UnpaidObligations(s, b) == Cap(s, b)
    case Verify(_, _, _, _) => Raises(s, a, b) && UnpaidObligations(s, b) == Cap(s, b)
    case Deliver(_, _, _) => Raises(s, a, b) && UnpaidObligations(s, b) == Cap(s, b)
    case LeaveQueue(_, _, _) => CapFallsBelow(s, a, b)
    case Reconcile(_, _) => CapFallsBelow(s, a, b)
    case Override(_, _, _) => CapFallsBelow(s, a, b)
    case ConfirmOnChain(_, _, _) => CapFallsBelow(s, a, b)
    case _ => false
  }

  predicate CapFallsBelow(s: Sys, a: Timed, b: Address) {
    UnpaidObligations(s, b) + Change(s, a, b) > ProfileAfter(s, a, b).policy.concurrent
  }

  /** Whether a buyer is past the cap after an action, from the state before it. */
  lemma OverCapAfter(s: Sys, a: Timed, b: Address)
    requires Inv(s) && Possible(s, a.act)
    ensures OverCap(Step(s, a), b) <==> CapFallsBelow(s, a, b)
  {
    hide Inv, Step, UnpaidObligations, ProfileOf, Possible, Change, ProfileAfter;
    CountChangesExactly(s, a, b);
    StepProfiles(s, a, b);
  }

  /** A buyer within the cap gets past it in exactly these ways; admission is not one of them. */
  lemma CapIsPassedExactly(s: Sys, a: Timed, b: Address)
    requires Inv(s) && Possible(s, a.act) && !OverCap(s, b)
    ensures OverCap(Step(s, a), b) <==> PassesCap(s, a, b)
  {
    hide Inv, Step, UnpaidObligations, ProfileOf, Possible, Change, Registrable, OrderGoesThrough, Opens,
         DeliversPending;
    OverCapAfter(s, a, b);
    ChangeIsRise(s, a, b);
    SameCapOnRise(s, a, b);
    if Raises(s, a, b) && AddsTrades(a.act) { AdmissionAsksCap(s, a, b); }
  }

  lemma SameCapOnRise(s: Sys, a: Timed, b: Address)
    ensures Raises(s, a, b) ==> ProfileAfter(s, a, b) == ProfileOf(s, b)
  {
    hide DeliversPending, Registrable, OrderGoesThrough, Opens;
  }

  lemma AdmissionAsksCap(s: Sys, a: Timed, b: Address)
    requires Raises(s, a, b) && (a.act.RegisterTrade? || a.act.PlaceOrder?)
    ensures UnpaidObligations(s, b) < Cap(s, b)
  {
    hide Eligibility, Orderable, Convert, UnpaidObligations, ProfileOf;
    EligibleBelowCap(s, b, a.act.units, a.now);
  }

  // ---- The same in scores and tiers ------------------------------------------------------------------------------

  /** The score is computed without wrap-around before and after the action, and no counter overflows. */
  predicate InRange(s: Sys, a: Timed, b: Address) {
    var c := ProfileOf(s, b).counters;
    && NoWrap(c) && NoWrap(ProfileAfter(s, a, b).counters)
    && (a.act.Reconcile? ==>
          var n := |LapsedOf(s.pay, b, a.now)|;
          c.expiries + n < 0x1_0000_0000 && c.streak + n < 0x1_0000_0000)
  }

  /** With `m` obligations, which `cap` allows, a buyer needs the score of the tier that allows as many. */
  predicate TooLowFor(cap: nat, m: int, score: int) {
    || (cap == 3 && m == 3 && score < ScoreNeededFor(HighLimit))
    || (m >= 2 && score < ScoreNeededFor(Established))
  }

  /** The guards, in counts and scores of the state before, of the actions that take `b` past the cap.
      Leaving the queue, completing a trade and being admitted never do. */
  predicate PassesCapByGuard(s: Sys, a: Timed, b: Address) {
    var p, m := ProfileOf(s, b), UnpaidObligations(s, b);
    match a.act
    case OpenCheckout(_, _, _, _) => Raises(s, a, b) && m == Cap(s, b)
    case Verify(_, _, _, _) => Raises(s, a, b) && m == Cap(s, b)
    case Deliver(_, _, _) => Raises(s, a, b) && m == Cap(s, b)
    case Reconcile(_, _) =>
      var n := |LapsedOf(s.pay, b, a.now)|;
      n >= 1 && TooLowFor(Cap(s, b), m - |LapsedUnpaid(s, b, a.now)|, ScoreAfterExpiries(p, n))
    case Override(w, clear, v) => b == w && TooLowFor(Cap(s, b), m, p.policy.score + OverrideGain(p.counters, clear, v))
    case _ => false
  }

  lemma CapIsOneToThree(p: Profile)
    requires Consistent(p)
    ensures 1 <= p.policy.concurrent <= 3
  {
    hide Score, TierOf;
  }

  /** Leaving the queue frees an obligation and costs at most one of the cap. */
  lemma LeavingStaysWithin(s: Sys, a: Timed, b: Address)
    requires a.act.LeaveQueue? && InRange(s, a, b) && !OverCap(s, b) && Consistent(ProfileOf(s, b))
    ensures !CapFallsBelow(s, a, b)
  {
    hide NoWrap, UnpaidObligations, ProfileOf, Consistent, AfterQueueCancel;
    if b == a.act.buyer && Leaves(s, a.act.qref, b) {
      LeavingKeepsRange(s, a, b);
      QueueCancelCap(ProfileOf(s, b), a.now - s.queue[a.act.qref].createdAt < 60);
    }
  }

  lemma LeavingKeepsRange(s: Sys, a: Timed, b: Address)
    requires a.act.LeaveQueue? && InRange(s, a, b) && b == a.act.buyer && Leaves(s, a.act.qref, b)
    ensures NoWrap(CountQueueCancel(ProfileOf(s, b).counters, a.now - s.queue[a.act.qref].createdAt < 60))
  {
    hide NoWrap, PolicyOf, ProfileOf;
  }

  /** A completion changes no count and lowers no cap. */
  lemma CompletingStaysWithin(s: Sys, a: Timed, b: Address)
    requires a.act.ConfirmOnChain? && InRange(s, a, b) && !OverCap(s, b) && Consistent(ProfileOf(s, b))
    ensures !CapFallsBelow(s, a, b)
  {
    hide NoWrap, UnpaidObligations, ProfileOf, Consistent, AfterCompletion, AfterExpiration;
    if Completes(s.pay, a.act.tid, a.act.txHash) {
      CompletionHelpsExpiryHurts(ProfileOf(s, b), s.pay.trades[a.act.tid].units, a.now);
    }
  }

  lemma PassWithin(s: Sys, a: Timed, b: Address)
    requires a.act.Reconcile? && InRange(s, a, b) && !OverCap(s, b) && Consistent(ProfileOf(s, b))
    ensures CapFallsBelow(s, a, b) <==> PassesCapByGuard(s, a, b)
  {
    hide NoWrap, UnpaidObligations, ProfileOf, Consistent, LapsedOf, LapsedUnpaid, Penalised, ScoreAfterExpiries;
    var p, n := ProfileOf(s, b), |LapsedOf(s.pay, b, a.now)|;
    CapIsOneToThree(p);
    if n == 0 {
      NoPenalty(p, a.now);
    } else {
      PassKeepsRange(s, a, b);
      PenalisedConsistent(p, n, a.now);
      CapIsOneToThree(Penalised(p, n, a.now));
      if p.policy.concurrent >= 2 { ExpiriesCap(p, n, a.now); }
    }
  }

  lemma NoPenalty(p: Profile, now: Time)
    ensures Penalised(p, 0, now) == p
  {}

  lemma PassKeepsRange(s: Sys, a: Timed, b: Address)
    requires a.act.Reconcile? && InRange(s, a, b)
    ensures var c, n := ProfileOf(s, b).counters, |LapsedOf(s.pay, b, a.now)|;
            && c.expiries + n < 0x1_0000_0000 && c.streak + n < 0x1_0000_0000
            && NoWrap(CountExpiries(c, n))
  {
    hide NoWrap, ProfileOf, LapsedOf, Penalised;
    PenaltiesCount(ProfileOf(s, b), |LapsedOf(s.pay, b, a.now)|, a.now);
  }

  lemma OverrideWithin(s: Sys, a: Timed, b: Address)
    requires a.act.Override? && InRange(s, a, b) && !OverCap(s, b) && Consistent(ProfileOf(s, b))
    ensures CapFallsBelow(s, a, b) <==> PassesCapByGuard(s, a, b)
  {
    hide NoWrap, UnpaidObligations, ProfileOf, Consistent, AfterOverride, OverrideGain;
    var p := ProfileOf(s, b);
    CapIsOneToThree(p);
    if b == a.act.wallet {
      OverrideKeepsRange(p, a.act.clear, a.act.verification);
      CapIsOneToThree(AfterOverride(p, a.act.clear, a.act.verification));
      if p.policy.concurrent >= 2 { OverrideCap(p, a.act.clear, a.act.verification); }
    }
  }

  lemma OverrideKeepsRange(p: Profile, clear: bool, v: Option<Verification>)
    ensures AfterOverride(p, clear, v).counters == Trust.Override(p.counters, clear, v)
    ensures Consistent(AfterOverride(p, clear, v))
  {
    hide PolicyOf;
  }

  /** While scores do not wrap, a buyer within the cap gets past it in exactly these ways: a checkout or the
      news of a pending payment at the cap, a pass that cancels trades and leaves too low a score for the
      obligations that remain, and an override that does so. */
  lemma CapIsPassedByGuard(s: Sys, a: Timed, b: Address)
    requires Inv(s) && Possible(s, a.act) && !OverCap(s, b) && InRange(s, a, b)
    ensures OverCap(Step(s, a), b) <==> PassesCapByGuard(s, a, b)
  {
    hide TablesOkExcept, Inventory.LedgerOk, Step, UnpaidObligations, ProfileOf, Possible, Change, Raises, InRange,
         OverCap, CapFallsBelow, Cap, Consistent, TooLowFor, ScoreAfterExpiries, OverrideGain, LapsedOf, LapsedUnpaid;
    CapIsPassedExactly(s, a, b);
    ProfilesStayConsistent(s, b);
    match a.act
    case LeaveQueue(_, _, _) => LeavingStaysWithin(s, a, b);
    case ConfirmOnChain(_, _, _) => CompletingStaysWithin(s, a, b);
    case Reconcile(_, _) => PassWithin(s, a, b);
    case Override(_, _, _) => OverrideWithin(s, a, b);
    case _ =>
  }

  /** What a pass does to the standing of a buyer with lapsed trades. */
  lemma PassRestrictsExactly(s: Sys, a: Timed, b: Address)
    requires Inv(s) && Possible(s, a.act) && a.act.Reconcile? && InRange(s, a, b) && LapsedOf(s.pay, b, a.now) != {}
    ensures var p, q, n := ProfileOf(s, b), ProfileOf(Step(s, a), b).policy, |LapsedOf(s.pay, b, a.now)|;
            && q.score == Clamp(p.policy.score - EXPIRY_COST * n, 0, 1000)
            && (q.tier == Restricted <==> FallsToRestricted(p, n))
            && (q.tier != Restricted ==> q.tier == TierWithin(p.policy.tier, p.policy.score - EXPIRY_COST * n))
  {
    hide TablesOkExcept, Inventory.LedgerOk, Step, ProfileOf, Possible, InRange, Consistent, LapsedOf, Penalised,
         NoWrap, FallsToRestricted, TierWithin;
    StepProfiles(s, a, b);
    ProfilesStayConsistent(s, b);
    PassKeepsRange(s, a, b);
    RangeBefore(s, a, b);
    ExpiriesCostExactly(ProfileOf(s, b), |LapsedOf(s.pay, b, a.now)|, a.now);
  }

  lemma RangeBefore(s: Sys, a: Timed, b: Address)
    requires InRange(s, a, b)
    ensures NoWrap(ProfileOf(s, b).counters)
  {
    hide NoWrap, ProfileOf, ProfileAfter;
  }

  /** On every run a buyer who is past the cap was taken there by such a step and has been past it since. */
  lemma {:induction false} PastCapHasCause(states: seq<Sys>, acts: seq<Timed>, n: nat, b: Address) returns (i: nat)
    requires IsRun(states, acts) && n <= |acts| && OverCap(states[n], b)
    ensures i < n && !OverCap(states[i], b) && PassesCap(states[i], acts[i], b)
    ensures InRange(states[i], acts[i], b) ==> PassesCapByGuard(states[i], acts[i], b)
    ensures forall j :: i < j <= n ==> OverCap(states[j], b)
    decreases n
  {
    hide Inv, Empty, Step, Possible, OverCap, PassesCap, PassesCapByGuard, InRange;
    if n == 0 {
      WithinCapAtFirst(states[0].pay.config, b);
    } else {
      assert Next(states[n - 1], acts[n - 1], states[n]);
      RunKeeps(states, acts, n - 1);
      if OverCap(states[n - 1], b) {
        i := PastCapHasCause(states, acts, n - 1, b);
      } else {
        i := n - 1;
        CapIsPassedExactly(states[i], acts[i], b);
        if InRange(states[i], acts[i], b) { CapIsPassedByGuard(states[i], acts[i], b); }
      }
    }
  }

  lemma WithinCapAtFirst(config: Config, b: Address)
    ensures !OverCap(Empty(config), b)
  {
    assert UnpaidTrades(Empty(config), b) == {} && WaitingEntries(Empty(config), b) == {};
  }
}
