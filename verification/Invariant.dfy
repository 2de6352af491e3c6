/** Every action of the service keeps its invariant: consistent settlement tables, a ledger whose
    buckets are sums over the queue, and trust policies determined by their counters. */
module Invariant {
  import opened Core
  import opened Lifecycle
  import opened Flutterwave
  import opened Payments
  import opened Settlement
  import opened Ledger
  import opened Inventory
  import opened Trust
  import opened System

  ghost predicate ProfilesOk(s: Sys) {
    forall a :: a in s.profiles ==> Consistent(s.profiles[a])
  }

  ghost predicate Inv(s: Sys) {
    TablesOk(s.pay) && LedgerOk(s.listings, s.queue, s.pay.trades, {}) && ProfilesOk(s)
  }

  /** Some listing's slot is taken by this trade. */
  ghost predicate Serves(ls: Listings, t: TradeId) {
    exists l :: l in ls && ls[l].active == Some(t)
  }

  /** No slot is given to a trade that already exists. */
  ghost predicate NoOldTradeSeated(s: Sys, r: Sys) {
    forall t :: t in s.pay.trades && !Serves(s.listings, t) ==> !Serves(r.listings, t)
  }

  predicate SameOffer(x: Listing, y: Listing) {
    y.seller == x.seller && y.total == x.total && y.rateMinor == x.rateMinor && y.currency == x.currency
  }

  /** No listing disappears and none changes its seller, total, rate or currency. */
  ghost predicate SameOffers(ls: Listings, ms: Listings) {
    forall l :: l in ls ==> l in ms && SameOffer(ls[l], ms[l])
  }

  /** What any step does to the records that exist: trades move along handler edges with their terms
      unchanged, spent transaction ids, processed events and jobs stay, no old trade gets a slot, and
      listings keep what they offer. */
  ghost predicate Evolves(s: Sys, r: Sys) {
    && (forall t :: t in s.pay.trades ==> t in r.pay.trades && Moves(s.pay.trades[t], r.pay.trades[t]))
    && RecordsKept(s.pay, r.pay)
    && NoOldTradeSeated(s, r)
    && SameOffers(s.listings, r.listings)
    && r.pay.config == s.pay.config
  }

  lemma EmptyIsGood(config: Config)
    ensures Inv(Empty(config))
  {
    assert forall t: TradeId :: PayoutJob(t) !in Empty(config).pay.jobs;
  }

  // ---- Steps on the settlement tables alone ------------------------------------------------------

  ghost predicate EndsNothing(p: Tables, q: Tables) {
    forall t :: t in p.trades && t in q.trades && Ended(q.trades[t].stage) ==> Ended(p.trades[t].stage)
  }

  lemma PayStep(s: Sys, q: Tables)
    requires Inv(s) && TablesOk(q) && AllMove(s.pay, q) && RecordsKept(s.pay, q) && EndsNothing(s.pay, q)
    ensures Inv(s.(pay := q)) && Evolves(s, s.(pay := q))
  {
    hide TablesOkExcept, LedgerOk, Moves, RecordsKept, Consistent;
    TradesMove(s.listings, s.queue, s.pay.trades, q.trades, {}, {});
  }

  lemma JudgedEndsNothing(t: Trade, j: Judgement)
    ensures Ended(JudgedTrade(t, j).stage) ==> Ended(t.stage)
  {}

  lemma ApplyEndsNothing(p: Tables, tid: TradeId, ref: TxRef, parsed: Option<Verified>, now: Time)
    ensures EndsNothing(p, ApplyVerified(p, tid, ref, parsed, now).0)
  {
    hide EvaluateVerified, JudgedAttempt, JudgedTrade, Ended;
    if parsed.Some? && ref in p.attempts && tid in p.trades {
      ApplyVerifiedEffect(p, tid, ref, parsed.value, now);
      var r := EvaluateVerified(p.attempts[ref], parsed.value, p.trades[tid].deadline, now);
      if r.Ok? { JudgedEndsNothing(p.trades[tid], r.value); }
    } else {
      IgnoredDelivery(p, tid, ref, parsed, now);
    }
  }

  lemma VerifyEndsNothing(p: Tables, tid: TradeId, ref: TxRef, who: Option<Address>, fetch: Fetch, now: Time)
    ensures EndsNothing(p, VerifyPayment(p, tid, ref, who, fetch, now).0)
  {
    hide ApplyVerified, Ended;
    if fetch.Payload? { ApplyEndsNothing(p, tid, ref, fetch.parsed, now); }
  }

  lemma WebhookEndsNothing(p: Tables, event: EventId, ref: Option<TxRef>, parsed: Option<Verified>, now: Time)
    ensures EndsNothing(p, Webhook(p, event, ref, parsed, now).0)
  {
    hide ApplyVerified, Ended;
    if ref.Some? && ref.value in p.attempts {
      ApplyEndsNothing(p, p.attempts[ref.value].tradeId, ref.value, parsed, now);
    }
  }

  /** The handler wrote at most one trade, moved it nowhere but to `to`, and left its payment column
      alone unless it opened a checkout. */
  ghost predicate MovesOnly(p: Tables, q: Tables, tid: TradeId, to: Stage) {
    q.trades == p.trades
    || (&& tid in p.trades && tid in q.trades && q.trades == p.trades[tid := q.trades[tid]]
        && q.trades[tid].stage in {p.trades[tid].stage, to}
        && (to != AwaitingPayment ==> q.trades[tid].payment == p.trades[tid].payment))
  }

  lemma OpenMoveEndsNothing(p: Tables, q: Tables, tid: TradeId, to: Stage)
    requires MovesOnly(p, q, tid, to) && !Ended(to)
    ensures EndsNothing(p, q)
  {}

  lemma CheckoutMoves(p: Tables, tid: TradeId, caller: Address, ref: TxRef, reply: CheckoutReply, now: Time)
    requires tid in p.trades && TermsOk(p.trades[tid])
    ensures MovesOnly(p, InitCheckout(p, tid, caller, ref, reply, now).0, tid, AwaitingPayment)
  {
    hide InitCheckout, Convert;
    InitCheckoutSameTerms(p, tid, caller, ref, reply, now);
  }

  lemma PayoutInitiateMoves(p: Tables, tid: TradeId)
    ensures MovesOnly(p, PayoutInitiate(p, tid).0, tid, SellerPayoutPending)
  {
    hide WrapAdd32;
    var (q, r) := PayoutInitiate(p, tid);
    if r == Done {
      assert q.trades[tid].stage == SellerPayoutPending;
      assert q.trades == p.trades[tid := q.trades[tid]];
    }
  }

  lemma PayoutConfirmMoves(p: Tables, tid: TradeId, status: string, now: Time)
    ensures MovesOnly(p, PayoutConfirm(p, tid, status, now).0, tid, SellerPayoutConfirmed)
    ensures PayoutStatusOf(status) != PayoutConfirmed ==> PayoutConfirm(p, tid, status, now).0 == p
  {
    hide PayoutStatusOf, WrapAdd32, EnqueueOnce;
    var (q, r) := PayoutConfirm(p, tid, status, now);
    if r == Done {
      assert q.trades[tid].stage == SellerPayoutConfirmed;
      assert q.trades == p.trades[tid := q.trades[tid]];
    }
  }

  lemma PayoutHoldMoves(p: Tables, tid: TradeId)
    ensures MovesOnly(p, PayoutHold(p, tid).0, tid, PayoutOnHold)
  {
    hide CanTransitionTo, WrapAdd32;
    var (q, r) := PayoutHold(p, tid);
    if r == Done {
      assert q.trades[tid].stage == PayoutOnHold;
      assert q.trades == p.trades[tid := q.trades[tid]];
    }
  }

  lemma RefundRequestMoves(p: Tables, tid: TradeId)
    ensures MovesOnly(p, RefundRequest(p, tid).0, tid, RefundPending)
  {
    hide WrapAdd32;
    var (q, r) := RefundRequest(p, tid);
    if r == Done {
      assert q.trades[tid].stage == RefundPending;
      assert q.trades == p.trades[tid := q.trades[tid]];
    }
  }

  lemma RequestReleaseMoves(p: Tables, tid: TradeId, txHash: Option<Hash>, proof: Option<Hash>)
    ensures MovesOnly(p, RequestRelease(p, tid, txHash, proof).0, tid, ReleasePending)
    ensures tid in p.trades && !ReleaseEligible(p.trades[tid]) ==> RequestRelease(p, tid, txHash, proof).0 == p
  {
    hide ReleaseEligible, WrapAdd32;
    var (q, r) := RequestRelease(p, tid, txHash, proof);
    if r == Done {
      assert q.trades[tid].stage == ReleasePending;
      assert q.trades == p.trades[tid := q.trades[tid]];
    }
  }

  lemma HoldReleaseMoves(p: Tables, tid: TradeId, txHash: Option<Hash>)
    ensures MovesOnly(p, HoldRelease(p, tid, txHash).0, tid, ReleaseOnHold)
  {
    hide WrapAdd32;
    var (q, r) := HoldRelease(p, tid, txHash);
    if r == Done {
      assert q.trades[tid].stage == ReleaseOnHold;
      assert q.trades == p.trades[tid := q.trades[tid]];
    }
  }

  // ---- Admission -----------------------------------------------------------------------------------

  lemma ProfilesStayConsistent(s: Sys, a: Address)
    requires ProfilesOk(s)
    ensures Consistent(ProfileOf(s, a))
  {
    hide PolicyOf;
    NewProfileConsistent();
  }

  lemma TradesStand(ts: Trades, us: Trades)
    requires forall t :: t in ts ==> t in us && us[t] == ts[t]
    ensures forall t :: t in ts ==> t in us && Moves(ts[t], us[t])
  {
    hide Moves;
    forall t | t in ts
      ensures Moves(ts[t], us[t])
    {
      StayIsMove(ts[t]);
    }
  }

  /** A step that leaves payments alone, or only adds a trade, and gives no old trade a slot. */
  lemma Stands(s: Sys, r: Sys)
    requires r.pay == s.pay.(trades := r.pay.trades)
    requires forall t :: t in s.pay.trades ==> t in r.pay.trades && r.pay.trades[t] == s.pay.trades[t]
    requires NoOldTradeSeated(s, r) && SameOffers(s.listings, r.listings)
    ensures Evolves(s, r)
  {
    hide Moves, Serves;
    TradesStand(s.pay.trades, r.pay.trades);
  }

  lemma WithProfile(s: Sys, r: Sys, a: Address, p: Profile)
    requires Inv(s) && Consistent(p)
    requires r == s.(profiles := s.profiles[a := p])
    ensures Inv(r) && Evolves(s, r)
  {
    hide TablesOkExcept, LedgerOk, Consistent, Evolves, Serves;
    Stands(s, r);
  }

  lemma ConsistentLimit(p: Profile)
    requires Consistent(p)
    ensures p.policy.limit <= HIGH_LIMIT
  {
    hide Score, TierOf;
  }

  /** Whoever is admitted, no accepted request exceeds 10,000 USDC. */
  lemma AdmittedUnits(s: Sys, buyer: Address, units: U128, now: Time)
    requires ProfilesOk(s) && Eligibility(s, buyer, units, now) == Done
    ensures units <= HIGH_LIMIT
  {
    hide Consistent, Backed, UnpaidObligations;
    ProfilesStayConsistent(s, buyer);
    ConsistentLimit(ProfileOf(s, buyer));
  }

  lemma AdmitKeeps(s: Sys, buyer: Address, units: U128, ok: bool, now: Time)
    requires Inv(s)
    ensures var (r, reply) := Admit(s, buyer, units, ok, now);
            && Inv(r) && Evolves(s, r) && r == s.(profiles := r.profiles)
            && (reply == Done ==> units <= HIGH_LIMIT)
  {
    hide TablesOkExcept, LedgerOk, Consistent, Eligibility, Evolves;
    NothingHappens(s);
    ProfilesStayConsistent(s, buyer);
    var (r, reply) := Admit(s, buyer, units, ok, now);
    if ok { WithProfile(s, r, buyer, ProfileOf(s, buyer)); }
    if reply == Done { AdmittedUnits(s, buyer, units, now); }
  }

  // ---- New trades ------------------------------------------------------------------------------------

  lemma NewTradeGood(
    seller: Address, buyer: Address, units: U128, rateMinor: U128, currency: string, timeoutMinutes: nat, now: Time)
    requires units <= HIGH_LIMIT
    ensures var r := NewAwaitingPayment(seller, buyer, units, rateMinor, currency, timeoutMinutes, now);
            r.Ok? ==>
              var t := r.value;
              && TermsOk(t) && ColumnsOk(t) && t.stage == AwaitingPayment && t.payment == Unpaid
              && t.units == units && t.rateMinor == rateMinor && t.buyer == Some(buyer) && t.seller == seller
              && Convert(units, rateMinor) == Some(t.fiatMinor)
  {
    hide Convert;
    FeeIsOnePercent(seller, buyer, units, rateMinor, currency, timeoutMinutes, now);
  }

  /** Creation succeeds for every amount whose quote was accepted. */
  lemma NewTradeSucceeds(
    seller: Address, buyer: Address, units: U128, rateMinor: U128, currency: string, timeoutMinutes: nat, now: Time)
    requires seller != buyer && units > 0 && rateMinor > 0
    requires Convert(units, rateMinor).Some? && Convert(units, rateMinor).value >= MIN_FIAT_MINOR
    ensures NewAwaitingPayment(seller, buyer, units, rateMinor, currency, timeoutMinutes, now).Ok?
  {
    hide Convert;
  }

  lemma AddTrade(s: Sys, r: Sys, tid: TradeId, t: Trade)
    requires Inv(s) && tid !in s.pay.trades && TermsOk(t) && ColumnsOk(t) && t.stage == AwaitingPayment
    requires r == s.(pay := s.pay.(trades := s.pay.trades[tid := t]))
    ensures Inv(r) && Evolves(s, r)
  {
    hide TablesOkExcept, TermsOk, ColumnsOk, LedgerOk, Consistent, Moves, Serves, Evolves;
    NewTradeKeeps(s.pay, tid, t);
    TradesStand(s.pay.trades, r.pay.trades);
    Stands(s, r);
    TradesMove(s.listings, s.queue, s.pay.trades, r.pay.trades, {}, {});
  }

  lemma RegisterKeeps(
    s: Sys, tid: TradeId, seller: Address, buyer: Address, units: U128, rateMinor: U128, currency: string,
    ok: bool, now: Time)
    requires Inv(s)
    ensures var r := Register(s, tid, seller, buyer, units, rateMinor, currency, ok, now).0; Inv(r) && Evolves(s, r)
  {
    hide Inv, Evolves, TermsOk, ColumnsOk, Admit, NewAwaitingPayment;
    NothingHappens(s);
    if tid !in s.pay.trades {
      AdmitKeeps(s, buyer, units, ok, now);
      var (s1, reply) := Admit(s, buyer, units, ok, now);
      var t := NewAwaitingPayment(seller, buyer, units, rateMinor, currency, s.pay.config.timeoutMinutes, now);
      if reply == Done && t.Ok? {
        var r := Register(s, tid, seller, buyer, units, rateMinor, currency, ok, now).0;
        NewTradeGood(seller, buyer, units, rateMinor, currency, s.pay.config.timeoutMinutes, now);
        AddTrade(s1, r, tid, t.value);
        ProfilesApart(s, s1, r);
      }
    }
  }

  /** `Evolves` does not look at profiles. */
  lemma ProfilesApart(s: Sys, m: Sys, r: Sys)
    requires Evolves(m, r) && m == s.(profiles := m.profiles)
    ensures Evolves(s, r)
  {
    hide Moves, Serves, RecordsKept;
  }

  lemma NothingHappens(s: Sys)
    ensures Evolves(s, s)
  {}

  // ---- Listings and the queue ---------------------------------------------------------------------

  lemma PublishKeeps(s: Sys, l: ListingRef, seller: Address, total: U128, rateMinor: U128, currency: string)
    requires Inv(s)
    ensures var (r, reply) := CreateListing(s, l, seller, total, rateMinor, currency);
            Inv(r) && Evolves(s, r) && reply != Refused(InventoryMismatch)
  {
    hide TablesOkExcept, LedgerOk, Consistent, Evolves;
    NothingHappens(s);
    var r := CreateListing(s, l, seller, total, rateMinor, currency).0;
    if r != s {
      NewListingKeeps(s.listings, s.queue, s.pay.trades, {}, l, r.listings[l]);
      assert NoOldTradeSeated(s, r);
      Stands(s, r);
    }
  }

  lemma PublishSpares(s: Sys, l: ListingRef, seller: Address, total: U128, rateMinor: U128, currency: string)
    ensures var r := CreateListing(s, l, seller, total, rateMinor, currency).0; r == s.(listings := r.listings)
  {
    hide Conserves;
  }

  /** The checks an admitted order has to pass. */
  predicate Orderable(s: Sys, l: ListingRef, buyer: Address, units: U128) {
    && l in s.listings && units > 0
    && var x := s.listings[l];
       && x.status == Active && x.seller != buyer && units <= x.available
       && Convert(units, x.rateMinor).Some? && Convert(units, x.rateMinor).value >= MIN_FIAT_MINOR
  }

  lemma RateIsPositive(ls: Listings, q: Queue, ts: Trades, pending: set<TradeId>, l: ListingRef)
    requires LedgerOk(ls, q, ts, pending) && l in ls
    ensures ls[l].rateMinor > 0
  {
    hide EntryOk, EntryTradeOk, Sum;
    assert ListingOk(ls[l], q, l);
  }

  /** An admitted order on a free slot is seated at once, with a trade on the quoted terms. */
  lemma SeatOrder(s: Sys, l: ListingRef, buyer: Address, units: U128, child: TradeId, qref: QueueRef, now: Time)
    requires Inv(s) && child !in s.pay.trades && qref !in s.queue
    requires Orderable(s, l, buyer, units) && units <= HIGH_LIMIT && s.listings[l].active.None?
    ensures var x := s.listings[l];
            var t := NewAwaitingPayment(x.seller, buyer, units, x.rateMinor, x.currency, s.pay.config.timeoutMinutes,
                                        now);
            && t.Ok?
            && var y := Seat(x, units, child, buyer, t.value.deadline);
               var e := Entry(l, buyer, units, Convert(units, x.rateMinor).value, x.rateMinor, 0, ActiveSlot,
                              Some(child), None, now);
               var r := s.(listings := s.listings[l := y], queue := s.queue[qref := e],
                           pay := s.pay.(trades := s.pay.trades[child := t.value]));
               Conserves(y) && Inv(r) && Evolves(s, r) && t.value.fiatMinor == e.quoted
  {
    hide TablesOkExcept, LedgerOk, Consistent, Evolves, TermsOk, ColumnsOk, Convert, NewAwaitingPayment, Conserves;
    var x := s.listings[l];
    RateIsPositive(s.listings, s.queue, s.pay.trades, {}, l);
    NewTradeSucceeds(x.seller, buyer, units, x.rateMinor, x.currency, s.pay.config.timeoutMinutes, now);
    NewTradeGood(x.seller, buyer, units, x.rateMinor, x.currency, s.pay.config.timeoutMinutes, now);
    var t := NewAwaitingPayment(x.seller, buyer, units, x.rateMinor, x.currency, s.pay.config.timeoutMinutes,
                                now).value;
    var y := Seat(x, units, child, buyer, t.deadline);
    var e := Entry(l, buyer, units, t.fiatMinor, x.rateMinor, 0, ActiveSlot, Some(child), None, now);
    var r := s.(listings := s.listings[l := y], queue := s.queue[qref := e],
                pay := s.pay.(trades := s.pay.trades[child := t]));
    NewTradeKeeps(s.pay, child, t);
    HasDeadline(t);
    SeatKeeps(s.listings, s.queue, s.pay.trades, {}, l, qref, e, child, t, t.deadline.value);
    assert NoOldTradeSeated(s, r);
    Stands(s, r);
  }

  lemma HasDeadline(t: Trade)
    requires TermsOk(t)
    ensures t.deadline.Some?
  {}

  /** An admitted order on a busy slot is queued and its units are reserved. */
  lemma QueueOrder(s: Sys, l: ListingRef, buyer: Address, units: U128, qref: QueueRef, position: nat, now: Time)
    requires Inv(s) && qref !in s.queue
    requires Orderable(s, l, buyer, units) && units <= HIGH_LIMIT
    ensures var x := s.listings[l];
            var y := Reserve(x, units);
            var e := Entry(l, buyer, units, Convert(units, x.rateMinor).value, x.rateMinor, position, Queued, None,
                           None, now);
            var r := s.(listings := s.listings[l := y], queue := s.queue[qref := e]);
            Conserves(y) && Inv(r) && Evolves(s, r)
  {
    hide TablesOkExcept, LedgerOk, Consistent, Evolves, Convert, Conserves;
    var x := s.listings[l];
    var y := Reserve(x, units);
    var e := Entry(l, buyer, units, Convert(units, x.rateMinor).value, x.rateMinor, position, Queued, None, None, now);
    var r := s.(listings := s.listings[l := y], queue := s.queue[qref := e]);
    EnqueueKeeps(s.listings, s.queue, s.pay.trades, {}, l, qref, e);
    assert NoOldTradeSeated(s, r);
    Stands(s, r);
  }

  lemma SlotIgnoresClock(s: Sys, l: ListingRef, now: Time)
    requires Inv(s) && l in s.listings
    ensures HasActiveSlot(s.listings[l], now) <==> s.listings[l].active.Some?
  {
    hide TablesOkExcept, ProfilesOk, EntryOk, EntryTradeOk, Sum;
    ListingConsequences(s.listings[l], s.queue, l, now);
  }

  lemma EligibilityIgnoresInventory(s: Sys, buyer: Address, units: U128, now: Time)
    ensures Eligibility(s, buyer, units, now) != Refused(InventoryMismatch)
  {
    hide EffectiveLimit, UnpaidObligations, Backed;
  }

  /** An order succeeds exactly when the buyer is admitted and the listing can serve the amount; the
      run-time conservation check never fails. */
  lemma OrderOutcome(
    s: Sys, l: ListingRef, buyer: Address, units: U128, child: TradeId, qref: QueueRef, ok: bool, now: Time)
    requires Inv(s) && child !in s.pay.trades && qref !in s.queue
    ensures var (r, reply) := Order(s, l, buyer, units, child, qref, ok, now);
            && Inv(r) && Evolves(s, r)
            && reply != Refused(InventoryMismatch)
            && (reply == Done <==>
                  ok && Eligibility(s, buyer, units, now) == Done && Orderable(s, l, buyer, units))
            && (reply != Done ==> r == s.(profiles := r.profiles))
  {
    hide Inv, Evolves, Eligibility, NewAwaitingPayment, Convert, Conserves, HasActiveSlot;
    NothingHappens(s);
    EligibilityIgnoresInventory(s, buyer, units, now);
    if units > 0 {
      AdmitKeeps(s, buyer, units, ok, now);
      var (s1, admitted) := Admit(s, buyer, units, ok, now);
      if admitted == Done && Orderable(s, l, buyer, units) {
        SlotIgnoresClock(s1, l, now);
        if s1.listings[l].active.None? {
          SeatOrder(s1, l, buyer, units, child, qref, now);
        } else {
          QueueOrder(s1, l, buyer, units, qref, |WaitingKeys(s1.queue, l)| + 1, now);
        }
        ProfilesApart(s, s1, Order(s, l, buyer, units, child, qref, ok, now).0);
      }
    }
  }

  lemma WithdrawListingFrame(s: Sys, r: Sys, l: ListingRef, units: U128)
    requires l in s.listings && r.listings == s.listings[l := ReturnReserved(s.listings[l], units)]
    ensures NoOldTradeSeated(s, r) && SameOffers(s.listings, r.listings)
  {
    forall t: TradeId | Serves(r.listings, t)
      ensures Serves(s.listings, t)
    {
      var m :| m in r.listings && r.listings[m].active == Some(t);
      assert s.listings[m].active == Some(t);
    }
  }

  lemma LeaveQueueKeeps(s: Sys, qref: QueueRef, buyer: Address, hint: seq<QueueRef>, now: Time)
    requires Inv(s)
    ensures var r := CancelQueued(s, qref, buyer, hint, now).0; Inv(r) && Evolves(s, r)
  {
    hide TablesOkExcept, LedgerOk, Consistent, Evolves, ReturnReserved, Renumbered, PolicyOf, NoOldTradeSeated;
    NothingHappens(s);
    var (r, reply) := CancelQueued(s, qref, buyer, hint, now);
    if reply == Done {
      var e := s.queue[qref];
      var q1 := s.queue[qref := e.(status := CancelledByBuyer)];
      WithdrawKeeps(s.listings, s.queue, s.pay.trades, {}, qref);
      RenumberedKeys(q1, OrderOf(q1, WaitingKeys(q1, e.listing), hint), HasActiveSlot(r.listings[e.listing], now), now);
      forall k | k in q1
        ensures k in r.queue && SamePlaceApart(q1[k], r.queue[k])
      {
        RenumberedSame(q1, OrderOf(q1, WaitingKeys(q1, e.listing), hint),
                       HasActiveSlot(r.listings[e.listing], now), now, k);
      }
      RearrangeKeeps(r.listings, q1, r.queue, s.pay.trades, {});
      ProfilesStayConsistent(s, buyer);
      QueueCancelConsistent(ProfileOf(s, buyer), now - e.createdAt < 60);
      WithdrawListingFrame(s, r, e.listing, e.units);
      Stands(s, r);
    }
  }

  lemma RenumberedKeys(q: Queue, order: seq<QueueRef>, busy: bool, now: Time)
    ensures Renumbered(q, order, busy, now).Keys == q.Keys
  {}

  lemma QueueCancelConsistent(p: Profile, rapid: bool)
    ensures Consistent(AfterQueueCancel(p, rapid))
  {
    hide PolicyOf;
  }

  /** The trade `child` asks for what entry `qref` was quoted, and the entry's units moved from
      reserved to allocated with the other buckets unchanged. */
  predicate SeatedFrom(s: Sys, r: Sys, qref: QueueRef, child: TradeId) {
    && qref in s.queue && child in r.pay.trades
    && s.queue[qref].listing in s.listings && s.queue[qref].listing in r.listings
    && var e, t := s.queue[qref], r.pay.trades[child];
       var x, y := s.listings[e.listing], r.listings[e.listing];
       && t.fiatMinor == e.quoted && t.units == e.units && t.buyer == Some(e.buyer) && t.seller == x.seller
       && y.reserved == x.reserved - e.units && y.allotted == x.allotted + e.units
       && y.available == x.available && y.filled == x.filled && y.active == Some(child)
  }

  /** Activation by its owner of an entry at the front of a free slot always succeeds, and only then. */
  lemma ActivationOutcome(s: Sys, qref: QueueRef, buyer: Address, child: TradeId, now: Time)
    requires Inv(s) && child !in s.pay.trades
    ensures var (r, reply) := Activate(s, qref, buyer, child, now);
            && Inv(r) && Evolves(s, r)
            && (reply == Done <==>
                  && qref in s.queue && s.queue[qref].buyer == buyer && AtFront(s.queue[qref])
                  && s.queue[qref].listing in s.listings && s.listings[s.queue[qref].listing].active.None?)
            && (reply != Done ==> r == s)
            && (reply == Done ==> SeatedFrom(s, r, qref, child))
  {
    hide TablesOkExcept, LedgerOk, Consistent, Evolves, TermsOk, ColumnsOk, Convert, NewAwaitingPayment, Conserves,
         HasActiveSlot;
    NothingHappens(s);
    if qref in s.queue && s.queue[qref].buyer == buyer && AtFront(s.queue[qref]) {
      var e := s.queue[qref];
      EntryFacts(s, qref);
      SlotIgnoresClock(s, e.listing, now);
      var x := s.listings[e.listing];
      if x.active.None? {
        NewTradeSucceeds(x.seller, buyer, e.units, x.rateMinor, x.currency, s.pay.config.timeoutMinutes, now);
        NewTradeGood(x.seller, buyer, e.units, x.rateMinor, x.currency, s.pay.config.timeoutMinutes, now);
        var t := NewAwaitingPayment(x.seller, buyer, e.units, x.rateMinor, x.currency, s.pay.config.timeoutMinutes,
                                    now).value;
        var e' := e.(status := ActiveSlot, position := 0, tradeId := Some(child));
        HasDeadline(t);
        ActivateKeeps(s.listings, s.queue, s.pay.trades, {}, e.listing, qref, e', child, t, t.deadline.value);
        NewTradeKeeps(s.pay, child, t);
        AllottedFits(s, e.listing, e.units);
        var r := Activate(s, qref, buyer, child, now).0;
        assert NoOldTradeSeated(s, r);
        Stands(s, r);
      }
    }
  }

  lemma EntryFacts(s: Sys, k: QueueRef)
    requires Inv(s) && k in s.queue
    ensures var e := s.queue[k];
            && e.listing in s.listings
            && var x := s.listings[e.listing];
               && 0 < e.units <= HIGH_LIMIT && e.rateMinor == x.rateMinor && x.rateMinor > 0 && e.buyer != x.seller
               && Convert(e.units, x.rateMinor) == Some(e.quoted) && e.quoted >= MIN_FIAT_MINOR
  {
    hide TablesOkExcept, ProfilesOk, EntryTradeOk, Convert, Sum;
    assert EntryOk(s.listings, s.queue[k]);
    assert ListingOk(s.listings[s.queue[k].listing], s.queue, s.queue[k].listing);
  }

  lemma AllottedFits(s: Sys, l: ListingRef, units: U128)
    requires Inv(s) && l in s.listings && units <= s.listings[l].reserved
    ensures s.listings[l].allotted + units < U128_SIZE
  {
    hide TablesOkExcept, ProfilesOk, EntryOk, EntryTradeOk, Sum;
    assert ListingOk(s.listings[l], s.queue, l);
  }

  // ---- Ending a trade ------------------------------------------------------------------------------

  /** Resolution frees the slot of an ended trade and gives no trade a slot. */
  lemma ResolveKeeps(s: Sys, tid: TradeId, completed: bool, hint: Visit, now: Time, pending: set<TradeId>)
    requires LedgerOk(s.listings, s.queue, s.pay.trades, pending)
    requires tid in s.pay.trades && s.pay.trades[tid].stage == (if completed then Completed else Cancelled)
    ensures var r := Resolve(s, tid, completed, hint, now);
            && r == s.(listings := r.listings, queue := r.queue)
            && LedgerOk(r.listings, r.queue, r.pay.trades, pending - {tid})
            && !Serves(r.listings, tid)
            && (forall t :: Serves(r.listings, t) ==> Serves(s.listings, t))
            && SameOffers(s.listings, r.listings)
  {
    hide LedgerOk, FreeSlot, SettleEntries, Promote, HandlerEdge;
    var r := Resolve(s, tid, completed, hint, now);
    match ServingListing(s.listings, tid, hint.listing)
    case None => NotServing(s.listings, s.queue, s.pay.trades, pending, tid);
    case Some(l) =>
      var settled := SettleEntries(s.queue, tid, completed);
      FreeKeeps(s.listings, s.queue, s.pay.trades, pending, l, tid, completed);
      PromoteKeeps(r.listings, settled, s.pay.trades, pending - {tid}, NextQueued(settled, l, hint.entry), now);
      SlotCleared(s.listings[l], s.pay.trades[tid].units, completed);
      forall m | m in r.listings && r.listings[m].active.Some?
        ensures m != l && s.listings[m].active == r.listings[m].active && r.listings[m].active != Some(tid)
      {
        if m != l && s.listings[m].active == Some(tid) {
          ServedOnce(s.listings, s.queue, s.pay.trades, pending, l, m, tid);
        }
      }
  }

  lemma SlotCleared(x: Listing, amount: U128, completed: bool)
    ensures FreeSlot(x, amount, completed).active.None?
    ensures SameOffer(x, FreeSlot(x, amount, completed))
  {}

  lemma EndOneTrade(s: Sys, p1: Tables, tid: TradeId)
    requires Inv(s) && tid in p1.trades && AllMove(s.pay, p1)
    requires p1 == s.pay.(trades := s.pay.trades[tid := p1.trades[tid]])
    ensures LedgerOk(s.listings, s.queue, p1.trades, {tid})
  {
    hide TablesOkExcept, LedgerOk, ProfilesOk, Moves;
    TradesMove(s.listings, s.queue, s.pay.trades, p1.trades, {}, {tid});
  }

  /** A resolution that leaves payments and listings in order evolves the whole service. */
  lemma Resolved(s: Sys, r: Sys)
    requires TablesOk(r.pay) && AllMove(s.pay, r.pay) && RecordsKept(s.pay, r.pay)
    requires LedgerOk(r.listings, r.queue, r.pay.trades, {}) && ProfilesOk(r)
    requires forall t :: Serves(r.listings, t) ==> Serves(s.listings, t)
    requires SameOffers(s.listings, r.listings)
    ensures Inv(r) && Evolves(s, r)
  {
    hide TablesOkExcept, LedgerOk, ProfilesOk, Moves, RecordsKept, Serves;
  }

  lemma ApproveRefundKeeps(s: Sys, tid: TradeId, status: string, hint: Visit, now: Time)
    requires Inv(s)
    ensures var (r, reply) := ApproveRefund(s, tid, status, hint, now);
            && Inv(r) && Evolves(s, r)
            && reply != Refused(RefundRecordMissing) && (reply != Done ==> r == s)
            && (reply == Done ==> !Serves(r.listings, tid))
  {
    hide TablesOkExcept, LedgerOk, Consistent, Evolves, Resolve, Serves, AllMove, RecordsKept, ColumnsOk, RowsOk,
         Changes;
    NothingHappens(s);
    RefundCancelKeeps(s.pay, tid, status);
    var (p1, reply) := RefundCancel(s.pay, tid, status);
    if reply == Done {
      TradeFacts(s.pay, tid);
      RefundCancelChanges(s.pay, tid, status);
      RefundCloseChanges(s.pay, tid, status);
      EndOneTrade(s, p1, tid);
      ResolveKeeps(s.(pay := p1), tid, false, hint, now, {tid});
      assert {tid} - {tid} == {};
      OneTrade(p1, RefundClose(p1, tid).0, tid, {tid}, {});
      ThenSameTrades(s.pay, p1, RefundClose(p1, tid).0);
      Resolved(s, ApproveRefund(s, tid, status, hint, now).0);
    }
  }

  lemma TradeFacts(p: Tables, tid: TradeId)
    requires TablesOk(p) && tid in p.trades
    ensures RowsOk(p, tid) && ColumnsOk(p.trades[tid]) && TermsOk(p.trades[tid])
  {}

  lemma CompletionConsistent(p: Profile, units: U128)
    ensures Consistent(AfterCompletion(p, units))
  {
    hide PolicyOf;
  }

  lemma ConfirmReleaseKeeps(s: Sys, tid: TradeId, txHash: Option<Hash>, hint: Visit, now: Time)
    requires Inv(s)
    ensures var (r, reply) := ConfirmRelease(s, tid, txHash, hint, now);
            && Inv(r) && Evolves(s, r) && (reply != Done ==> r == s)
            && (reply == Done ==> !Serves(r.listings, tid))
  {
    hide TablesOkExcept, LedgerOk, Consistent, Evolves, Resolve, Serves, AllMove, RecordsKept, ColumnsOk, RowsOk,
         Changes, AfterCompletion;
    NothingHappens(s);
    ReleaseCompleteKeeps(s.pay, tid, txHash);
    var (p1, reply) := ReleaseComplete(s.pay, tid, txHash);
    if reply == Done {
      TradeFacts(s.pay, tid);
      ReleaseCompleteChanges(s.pay, tid, txHash);
      ReleaseCloseChanges(s.pay, tid, txHash);
      EndOneTrade(s, p1, tid);
      var t := p1.trades[tid];
      var credited := Credit(s.(pay := p1), t);
      if t.buyer.Some? { CompletionConsistent(ProfileOf(s, t.buyer.value), t.units); }
      assert ProfilesOk(credited);
      ResolveKeeps(credited, tid, true, hint, now, {tid});
      assert {tid} - {tid} == {};
      OneTrade(p1, ReleaseClose(p1, tid), tid, {tid}, {});
      ThenSameTrades(s.pay, p1, ReleaseClose(p1, tid));
      Resolved(s, ConfirmRelease(s, tid, txHash, hint, now).0);
    }
  }
}
