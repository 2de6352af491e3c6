/** The whole settlement service: every table, the handlers that cross them, and runs of handlers
    (rust/src/payments_api.rs, rust/src/state.rs). */
module System {
  import opened Core
  import opened Lifecycle
  import opened Flutterwave
  import opened Payments
  import opened Ledger
  import opened Trust

  datatype Guarantor = Guarantor(beneficiary: Address, maxBacked: U128, expiresAt: Time)

  datatype Sys = Sys(
    pay: Tables,
    listings: Listings,
    queue: Queue,
    profiles: map<Address, Profile>,
    guarantors: map<nat, Guarantor>)

  function Empty(config: Config): Sys {
    Sys(Tables(config, map[], map[], map[], map[], map[], map[], map[], map[], map[]), map[], map[], map[], map[])
  }

  function ProfileOf(s: Sys, a: Address): Profile {
    if a in s.profiles then s.profiles[a] else NewProfile()
  }

  // ---- Who may order -----------------------------------------------------------------------------

  /** Trades that wait for this buyer's money. */
  predicate UnpaidTrade(t: Trade, buyer: Address) {
    && t.buyer == Some(buyer) && t.stage == AwaitingPayment
    && t.payment in {Unpaid, CheckoutCreated, PendingVerification}
  }

  function UnpaidTrades(s: Sys, buyer: Address): set<TradeId> {
    set t | t in s.pay.trades && UnpaidTrade(s.pay.trades[t], buyer)
  }

  function WaitingEntries(s: Sys, buyer: Address): set<QueueRef> {
    set k | k in s.queue && s.queue[k].buyer == buyer && s.queue[k].status in {Queued, Eligible}
  }

  function UnpaidObligations(s: Sys, buyer: Address): nat {
    |UnpaidTrades(s, buyer)| + |WaitingEntries(s, buyer)|
  }

  predicate Backed(s: Sys, buyer: Address, units: U128, now: Time) {
    exists g :: g in s.guarantors && s.guarantors[g].beneficiary == buyer
      && s.guarantors[g].expiresAt > now && s.guarantors[g].maxBacked >= units
  }

  function EffectiveLimit(s: Sys, p: Profile, buyer: Address, units: U128, now: Time): U128 {
    if Backed(s, buyer, units, now) then HIGH_LIMIT
    else if p.counters.verification == Verification.Verified && p.policy.limit < ESTABLISHED_LIMIT then
      ESTABLISHED_LIMIT
    else p.policy.limit
  }

  function Eligibility(s: Sys, buyer: Address, units: U128, now: Time): Reply {
    var p := ProfileOf(s, buyer);
    if CoolingDown(p, now) then Refused(BuyerCooldown)
    else if UnpaidObligations(s, buyer) >= p.policy.concurrent then Refused(BuyerAtCap)
    else if units > EffectiveLimit(s, p, buyer, units, now) then Refused(TrustLimitExceeded)
    else if && units >= LARGE_TRADE_THRESHOLD && p.policy.tier !in {Established, HighLimit}
            && p.counters.verification != Verification.Verified && !Backed(s, buyer, units, now)
    then Refused(LargeTradeNeedsBacking)
    else Done
  }

  /** The admission step: the rate limiters' verdict is an input; a first-time buyer gets a profile. */
  function Admit(s: Sys, buyer: Address, units: U128, limiterOk: bool, now: Time): (Sys, Reply) {
    if !limiterOk then (s, Refused(TooManyRequests))
    else (s.(profiles := s.profiles[buyer := ProfileOf(s, buyer)]), Eligibility(s, buyer, units, now))
  }

  // ---- Resolution of a child trade -----------------------------------------------------------------

  /** Frees the slot of an ended trade and offers it to the next queued buyer. */
  ghost function Resolve(s: Sys, tid: TradeId, completed: bool, hint: Visit, now: Time): Sys {
    match ServingListing(s.listings, tid, hint.listing)
    case None => s
    case Some(l) =>
      var amount := if tid in s.pay.trades then s.pay.trades[tid].units else 0;
      var settled := SettleEntries(s.queue, tid, completed);
      s.(listings := s.listings[l := FreeSlot(s.listings[l], amount, completed)],
         queue := Promote(settled, NextQueued(settled, l, hint.entry), now))
  }

  // ---- Handlers -------------------------------------------------------------------------------------

  function Register(
    s: Sys, tid: TradeId, seller: Address, buyer: Address, units: U128, rateMinor: U128, currency: string,
    limiterOk: bool, now: Time): (Sys, Reply)
  {
    if tid in s.pay.trades then (s, Done) else
    var (s1, r) := Admit(s, buyer, units, limiterOk, now);
    if r != Done then (s1, r) else
    match NewAwaitingPayment(seller, buyer, units, rateMinor, currency, s.pay.config.timeoutMinutes, now)
    case Err(e) => (s1, Refused(e))
    case Ok(t) => (s1.(pay := s1.pay.(trades := s1.pay.trades[tid := t])), Done)
  }

  function CreateListing(
    s: Sys, l: ListingRef, seller: Address, total: U128, rateMinor: U128, currency: string): (Sys, Reply)
  {
    if total == 0 || rateMinor == 0 then (s, Refused(BadRequest))
    else if l in s.listings then (s, Done)
    else
      var x := Listing(seller, total, total, 0, 0, 0, 0, Text.Upper(currency), rateMinor, Active, None, None, None);
      if !Conserves(x) then (s, Refused(InventoryMismatch)) else (s.(listings := s.listings[l := x]), Done)
  }

  function Order(
    s: Sys, l: ListingRef, buyer: Address, units: U128, child: TradeId, qref: QueueRef, limiterOk: bool, now: Time)
    : (Sys, Reply)
  {
    if units == 0 then (s, Refused(BadRequest)) else
    var (s1, r) := Admit(s, buyer, units, limiterOk, now);
    if r != Done then (s1, r)
    else if l !in s1.listings then (s1, Refused(ListingNotFound)) else
    var x := s1.listings[l];
    if x.status != Active then (s1, Refused(ListingNotActive))
    else if x.seller == buyer then (s1, Refused(OwnListing))
    else if units > x.available then (s1, Refused(ExceedsAvailable)) else
    match Convert(units, x.rateMinor)
    case None => (s1, Refused(BadRequest))
    case Some(quoted) =>
      if quoted < MIN_FIAT_MINOR then (s1, Refused(BadRequest))
      else if !HasActiveSlot(x, now) then
        match NewAwaitingPayment(x.seller, buyer, units, x.rateMinor, x.currency, s1.pay.config.timeoutMinutes, now)
        case Err(e) => (s1, Refused(e))
        case Ok(t) =>
          var seated := Seat(x, units, child, buyer, t.deadline);
          var s2 := s1.(listings := s1.listings[l := seated]);
          if !Conserves(seated) then (s2, Refused(InventoryMismatch))
          else
            (s2.(pay := s2.pay.(trades := s2.pay.trades[child := t]),
                 queue := s2.queue[qref :=
                   Entry(l, buyer, units, quoted, x.rateMinor, 0, ActiveSlot, Some(child), None, now)]),
             Done)
      else
        var reserved := Reserve(x, units);
        var s2 := s1.(listings := s1.listings[l := reserved]);
        if !Conserves(reserved) then (s2, Refused(InventoryMismatch))
        else
          (s2.(queue := s2.queue[qref :=
             Entry(l, buyer, units, quoted, x.rateMinor, |WaitingKeys(s2.queue, l)| + 1, Queued, None, None, now)]),
           Done)
  }

  ghost function CancelQueued(s: Sys, qref: QueueRef, buyer: Address, hint: seq<QueueRef>, now: Time): (Sys, Reply) {
    if qref !in s.queue then (s, Refused(EntryNotFound)) else
    var e := s.queue[qref];
    if e.buyer != buyer then (s, Refused(NotEntryOwner))
    else if e.status !in {Queued, Eligible} then (s, Refused(EntryNotCancellable))
    else
      var q1 := s.queue[qref := e.(status := CancelledByBuyer)];
      var ls1 := if e.listing in s.listings
                 then s.listings[e.listing := ReturnReserved(s.listings[e.listing], e.units)] else s.listings;
      var busy := e.listing !in ls1 || HasActiveSlot(ls1[e.listing], now);
      var order := OrderOf(q1, WaitingKeys(q1, e.listing), hint);
      (s.(queue := Renumbered(q1, order, busy, now),
          listings := ls1,
          profiles := s.profiles[buyer := AfterQueueCancel(ProfileOf(s, buyer), now - e.createdAt < 60)]),
       Done)
  }

  predicate AtFront(e: Entry) { e.status == Eligible || (e.status == Queued && e.position == 1) }

  function Activate(s: Sys, qref: QueueRef, buyer: Address, child: TradeId, now: Time): (Sys, Reply) {
    if qref !in s.queue then (s, Refused(EntryNotFound)) else
    var e := s.queue[qref];
    if e.buyer != buyer then (s, Refused(NotEntryOwner))
    else if !AtFront(e) then (s, Refused(EntryNotAtFront))
    else if e.listing !in s.listings then (s, Refused(ListingNotFound)) else
    var x := s.listings[e.listing];
    if HasActiveSlot(x, now) then (s, Refused(SlotBusy))
    else if x.reserved < e.units then (s, Refused(InsufficientReserve)) else
    match NewAwaitingPayment(x.seller, buyer, e.units, x.rateMinor, x.currency, s.pay.config.timeoutMinutes, now)
    case Err(err) => (s, Refused(err))
    case Ok(t) =>
      var seated := SeatReserved(x, e.units, child, buyer, t.deadline);
      var s1 := s.(listings := s.listings[e.listing := seated]);
      if !Conserves(seated) then (s1, Refused(InventoryMismatch))
      else
        (s1.(queue := s.queue[qref := e.(status := ActiveSlot, position := 0, tradeId := Some(child))],
             pay := s.pay.(trades := s.pay.trades[child := t])),
         Done)
  }

  ghost function ApproveRefund(s: Sys, tid: TradeId, status: string, hint: Visit, now: Time): (Sys, Reply) {
    var (p1, r) := RefundCancel(s.pay, tid, status);
    if r != Done then (s, r) else
    var s1 := Resolve(s.(pay := p1), tid, false, hint, now);
    var (p2, r2) := RefundClose(s1.pay, tid);
    (s1.(pay := p2), r2)
  }

  /** Credits the buyer of a completed trade. */
  function Credit(s: Sys, t: Trade): Sys {
    if t.buyer.None? then s
    else s.(profiles := s.profiles[t.buyer.value := AfterCompletion(ProfileOf(s, t.buyer.value), t.units)])
  }

  ghost function ConfirmRelease(s: Sys, tid: TradeId, txHash: Option<Hash>, hint: Visit, now: Time): (Sys, Reply) {
    var (p1, r) := ReleaseComplete(s.pay, tid, txHash);
    if r != Done then (s, r) else
    var s1 := Resolve(Credit(s.(pay := p1), p1.trades[tid]), tid, true, hint, now);
    (s1.(pay := ReleaseClose(s1.pay, tid)), Done)
  }

  // ---- The reconciliation pass -------------------------------------------------------------------------

  datatype Expiration = Expiration(trade: TradeId, buyer: Address, outage: bool)

  /** The tables after sweeping the listed trades, in that order. */
  function Sweep(p: Tables, order: seq<TradeId>, now: Time): Tables {
    if order == [] then p
    else SweepTrade(Sweep(p, order[..|order| - 1], now), order[|order| - 1], now)
  }

  /** The trades the sweep cancels, in order, with the buyer to penalise. */
  function Expirations(p: Tables, order: seq<TradeId>, now: Time): seq<Expiration> {
    if order == [] then [] else
    var before, tid := order[..|order| - 1], order[|order| - 1];
    var v := VerdictOn(Sweep(p, before, now), tid, now);
    Expirations(p, before, now)
    + (if v.Expired? && v.buyer.Some? then [Expiration(tid, v.buyer.value, v.outage)] else [])
  }

  function Penalise(s: Sys, x: Expiration, now: Time): Sys {
    s.(profiles := s.profiles[x.buyer := AfterExpiration(ProfileOf(s, x.buyer), x.outage, now)])
  }

  function HintAt(hints: seq<Visit>, n: nat): Visit { if n < |hints| then hints[n] else Visit(0, 0) }

  /** Frees the slot of each cancelled trade and penalises its buyer. */
  ghost function SettleExpirations(s: Sys, xs: seq<Expiration>, hints: seq<Visit>, now: Time): Sys {
    if xs == [] then s else
    var n := |xs| - 1;
    var s1 := SettleExpirations(s, xs[..n], hints, now);
    Penalise(Resolve(s1, xs[n].trade, false, HintAt(hints, n), now), xs[n], now)
  }

  ghost function ReconcilePass(s: Sys, order: seq<TradeId>, hints: seq<Visit>, now: Time): Sys {
    var s1 := s.(pay := Sweep(s.pay, order, now));
    var s2 := SettleExpirations(s1, Expirations(s.pay, order, now), hints, now);
    s2.(pay := ProcessJobs(s2.pay, now))
  }

  // ---- Actions -------------------------------------------------------------------------------------------

  datatype Action =
    | RegisterTrade(tid: TradeId, seller: Address, buyer: Address, units: U128, rateMinor: U128, currency: string,
                    limiterOk: bool)
    | OpenCheckout(tid: TradeId, caller: Address, ref: TxRef, reply: CheckoutReply)
    | Verify(tid: TradeId, ref: TxRef, who: Option<Address>, fetch: Fetch)
    | Deliver(event: EventId, eventRef: Option<TxRef>, parsed: Option<Verified>)
    | InitiatePayout(tid: TradeId)
    | ConfirmPayout(tid: TradeId, providerStatus: string)
    | HoldPayout(tid: TradeId)
    | RequestRefund(tid: TradeId)
    | SettleRefund(tid: TradeId, providerStatus: string, hint: Visit)
    | SubmitRelease(tid: TradeId, txHash: Option<Hash>, proof: Option<Hash>)
    | ConfirmOnChain(tid: TradeId, txHash: Option<Hash>, hint: Visit)
    | RevertRelease(tid: TradeId, txHash: Option<Hash>)
    | Reconcile(order: seq<TradeId>, hints: seq<Visit>)
    | PublishListing(listing: ListingRef, seller: Address, total: U128, rateMinor: U128, currency: string)
    | PlaceOrder(listing: ListingRef, buyer: Address, units: U128, child: TradeId, qref: QueueRef, limiterOk: bool)
    | LeaveQueue(qref: QueueRef, buyer: Address, orderHint: seq<QueueRef>)
    | TakeSlot(qref: QueueRef, buyer: Address, child: TradeId)
    | Override(wallet: Address, clear: bool, verification: Option<Verification>)
    | PledgeGuarantee(pledge: nat, guarantor: Guarantor)

  /** An action and the moment it happens. */
  datatype Timed = Timed(act: Action, now: Time)

  ghost function Step(s: Sys, a: Timed): Sys {
    match a.act
    case RegisterTrade(tid, seller, buyer, units, rate, currency, ok) =>
      Register(s, tid, seller, buyer, units, rate, currency, ok, a.now).0
    case OpenCheckout(tid, caller, ref, reply) => s.(pay := InitCheckout(s.pay, tid, caller, ref, reply, a.now).0)
    case Verify(tid, ref, who, fetch) => s.(pay := VerifyPayment(s.pay, tid, ref, who, fetch, a.now).0)
    case Deliver(event, ref, parsed) => s.(pay := Webhook(s.pay, event, ref, parsed, a.now).0)
    case InitiatePayout(tid) => s.(pay := PayoutInitiate(s.pay, tid).0)
    case ConfirmPayout(tid, status) => s.(pay := PayoutConfirm(s.pay, tid, status, a.now).0)
    case HoldPayout(tid) => s.(pay := PayoutHold(s.pay, tid).0)
    case RequestRefund(tid) => s.(pay := RefundRequest(s.pay, tid).0)
    case SettleRefund(tid, status, hint) => ApproveRefund(s, tid, status, hint, a.now).0
    case SubmitRelease(tid, txHash, proof) => s.(pay := RequestRelease(s.pay, tid, txHash, proof).0)
    case ConfirmOnChain(tid, txHash, hint) => ConfirmRelease(s, tid, txHash, hint, a.now).0
    case RevertRelease(tid, txHash) => s.(pay := HoldRelease(s.pay, tid, txHash).0)
    case Reconcile(order, hints) => ReconcilePass(s, order, hints, a.now)
    case PublishListing(l, seller, total, rate, currency) => CreateListing(s, l, seller, total, rate, currency).0
    case PlaceOrder(l, buyer, units, child, qref, ok) => Order(s, l, buyer, units, child, qref, ok, a.now).0
    case LeaveQueue(qref, buyer, hint) => CancelQueued(s, qref, buyer, hint, a.now).0
    case TakeSlot(qref, buyer, child) => Activate(s, qref, buyer, child, a.now).0
    case Override(w, clear, v) => s.(profiles := s.profiles[w := AfterOverride(ProfileOf(s, w), clear, v)])
    case PledgeGuarantee(g, guarantor) => s.(guarantors := s.guarantors[g := guarantor])
  }

  /** The identifiers an action brings along are new: the code inserts without looking. */
  predicate Fresh(s: Sys, a: Action) {
    match a
    case OpenCheckout(_, _, ref, _) => ref !in s.pay.attempts
    case PlaceOrder(_, _, _, child, qref, _) => child !in s.pay.trades && qref !in s.queue
    case TakeSlot(_, _, child) => child !in s.pay.trades
    case _ => true
  }

  /** A pass visits every trade once; the table's iteration decides the order. */
  predicate Covers(s: Sys, a: Action) {
    a.Reconcile? ==>
      && (forall i :: 0 <= i < |a.order| ==> a.order[i] in s.pay.trades)
      && (forall t :: t in s.pay.trades ==> t in a.order)
      && (forall i, j :: 0 <= i < j < |a.order| ==> a.order[i] != a.order[j])
  }

  predicate Possible(s: Sys, a: Action) { Fresh(s, a) && Covers(s, a) }
}
