/** What happens when an order or an activation names a child trade id that is already taken: the code
    stores the new trade without looking. */
module Reuse {
  import opened Core
  import opened Lifecycle
  import opened Payments
  import opened Settlement
  import opened Ledger
  import opened Inventory
  import opened System
  import opened Invariant

  ghost predicate TradesStay(s: Sys, r: Sys) {
    forall t :: t in s.pay.trades ==> t in r.pay.trades && r.pay.trades[t] == s.pay.trades[t]
  }

  ghost predicate TermsStay(s: Sys, r: Sys) {
    forall t :: t in s.pay.trades ==> t in r.pay.trades && SameTerms(s.pay.trades[t], r.pay.trades[t])
  }

  ghost predicate StagesStay(s: Sys, r: Sys) {
    forall t :: t in s.pay.trades ==> t in r.pay.trades && r.pay.trades[t].stage == s.pay.trades[t].stage
  }

  /** The trade already has the terms on which listing `x` would serve `units` to `buyer` now. */
  predicate AlreadyOnTerms(t: Trade, x: Listing, buyer: Address, units: U128, config: Config, now: Time) {
    && t.seller == x.seller && t.buyer == Some(buyer) && t.units == units && t.rateMinor == x.rateMinor
    && t.currency == Text.Upper(x.currency) && t.deadline == Some(now + 60 * config.timeoutMinutes)
  }

  /** Nothing has happened to the trade since it was created. */
  predicate Pristine(t: Trade) {
    t.stage == AwaitingPayment && t.payment == Unpaid && t.version == 1 && t.releaseHash.None? && t.proofId.None?
  }

  /** The new trade, whether or not its id is taken. */
  lemma FreshTrade(x: Listing, buyer: Address, units: U128, config: Config, now: Time)
    requires units <= Trust.HIGH_LIMIT
    ensures var r := NewAwaitingPayment(x.seller, buyer, units, x.rateMinor, x.currency, config.timeoutMinutes, now);
            r.Ok? ==> Pristine(r.value) && r.value.stage == AwaitingPayment
                      && AlreadyOnTerms(r.value, x, buyer, units, config, now)
                      && TermsOk(r.value) && ColumnsOk(r.value)
  {
    hide Convert;
    NewTradeGood(x.seller, buyer, units, x.rateMinor, x.currency, config.timeoutMinutes, now);
  }

  /** Terms and history determine a waiting trade. */
  lemma OneTradeOnTerms(t: Trade, u: Trade, x: Listing, buyer: Address, units: U128, config: Config, now: Time)
    requires TermsOk(t) && ColumnsOk(t) && TermsOk(u) && ColumnsOk(u)
    requires AlreadyOnTerms(u, x, buyer, units, config, now) && Pristine(u)
    ensures SameTerms(t, u) <==> AlreadyOnTerms(t, x, buyer, units, config, now)
    ensures t == u <==> AlreadyOnTerms(t, x, buyer, units, config, now) && Pristine(t)
  {
    hide Convert;
  }

  /** The trades and the ledger after the child has been stored. */
  ghost predicate Stored(s: Sys, r: Sys, l: ListingRef, child: TradeId, qref: QueueRef, t: Trade) {
    && r.pay == s.pay.(trades := s.pay.trades[child := t])
    && qref in r.queue && r.queue == s.queue[qref := r.queue[qref]] && r.queue[qref].tradeId == Some(child)
  }

  lemma StoredAltersExactly(s: Sys, r: Sys, l: ListingRef, child: TradeId, qref: QueueRef, t: Trade,
                            buyer: Address, units: U128, now: Time)
    requires Inv(s) && l in s.listings && Stored(s, r, l, child, qref, t)
    requires TermsOk(t) && ColumnsOk(t) && Pristine(t) && t.stage == AwaitingPayment
    requires AlreadyOnTerms(t, s.listings[l], buyer, units, s.pay.config, now)
    ensures TradesStay(s, r) <==>
              (child in s.pay.trades ==>
                 && AlreadyOnTerms(s.pay.trades[child], s.listings[l], buyer, units, s.pay.config, now)
                 && Pristine(s.pay.trades[child]))
    ensures TermsStay(s, r) <==>
              (child in s.pay.trades ==>
                 AlreadyOnTerms(s.pay.trades[child], s.listings[l], buyer, units, s.pay.config, now))
    ensures StagesStay(s, r) <==> (child in s.pay.trades ==> s.pay.trades[child].stage == AwaitingPayment)
  {
    hide LedgerOk, ProfilesOk, TermsOk, ColumnsOk, RowsOk, AttemptOk, AlreadyOnTerms, Pristine, SameTerms;
    if child in s.pay.trades {
      TradeFacts(s.pay, child);
      OneTradeOnTerms(s.pay.trades[child], t, s.listings[l], buyer, units, s.pay.config, now);
    }
    forall u | u in s.pay.trades && u != child
      ensures SameTerms(s.pay.trades[u], r.pay.trades[u])
    {
      OwnTerms(s.pay.trades[u]);
    }
  }

  lemma OwnTerms(t: Trade)
    ensures SameTerms(t, t)
  {}

  // ---- The ledger --------------------------------------------------------------------------------------

  predicate Claimed(q: Queue, child: TradeId) { exists k :: k in q && q[k].tradeId == Some(child) }

  /** A trade that no entry claims can be left out of the ledger's account. */
  lemma LedgerWithout(ls: Listings, q: Queue, ts: Trades, child: TradeId)
    requires LedgerOk(ls, q, ts, {}) && !Claimed(q, child)
    ensures LedgerOk(ls, q, ts - {child}, {})
  {
    hide EntryOk, ListingOk;
    forall k | k in q
      ensures EntryTradeOk(ts - {child}, {}, q[k])
    {
      assert EntryTradeOk(ts, {}, q[k]);
    }
  }

  lemma SharedChildBreaksLedger(ls: Listings, q: Queue, ts: Trades, child: TradeId, j: QueueRef, k: QueueRef)
    requires j in q && k in q && j != k && q[j].tradeId == Some(child) == q[k].tradeId
    ensures !LedgerOk(ls, q, ts, {})
  {
    hide EntryOk, EntryTradeOk, ListingOk;
  }

  lemma SeatLedger(s: Sys, l: ListingRef, child: TradeId, qref: QueueRef, e: Entry, t: Trade, lease: Time)
    requires Inv(s) && l in s.listings && qref !in s.queue && s.listings[l].active.None?
    requires e.units <= s.listings[l].available
    requires e.listing == l && e.status == ActiveSlot && e.tradeId == Some(child)
    requires var y := Seat(s.listings[l], e.units, child, e.buyer, Some(lease)); EntryOk(s.listings[l := y], e)
    requires EntryTradeOk(map[child := t], {}, e)
    ensures var y := Seat(s.listings[l], e.units, child, e.buyer, Some(lease));
            LedgerOk(s.listings[l := y], s.queue[qref := e], s.pay.trades[child := t], {}) <==> !Claimed(s.queue, child)
  {
    hide TablesOkExcept, ProfilesOk, LedgerOk, EntryOk, Seat, Conserves;
    var y := Seat(s.listings[l], e.units, child, e.buyer, Some(lease));
    if Claimed(s.queue, child) {
      var k :| k in s.queue && s.queue[k].tradeId == Some(child);
      SharedChildBreaksLedger(s.listings[l := y], s.queue[qref := e], s.pay.trades[child := t], child, k, qref);
    } else {
      var rest := s.pay.trades - {child};
      LedgerWithout(s.listings, s.queue, s.pay.trades, child);
      SeatKeeps(s.listings, s.queue, rest, {}, l, qref, e, child, t, lease);
      assert rest[child := t] == s.pay.trades[child := t];
    }
  }

  lemma ActivationLedger(s: Sys, qref: QueueRef, child: TradeId, e: Entry, t: Trade, lease: Time)
    requires Inv(s) && qref in s.queue && s.queue[qref].status in {Queued, Eligible}
    requires s.queue[qref].listing in s.listings && s.listings[s.queue[qref].listing].active.None?
    requires e == s.queue[qref].(position := 0, status := ActiveSlot, tradeId := Some(child))
    requires t.units == e.units && t.fiatMinor == e.quoted && t.rateMinor == e.rateMinor && t.buyer == Some(e.buyer)
    requires !Ended(t.stage) && e.units <= s.listings[e.listing].reserved
    ensures var y := SeatReserved(s.listings[e.listing], e.units, child, e.buyer, Some(lease));
            LedgerOk(s.listings[e.listing := y], s.queue[qref := e], s.pay.trades[child := t], {})
            <==> !Claimed(s.queue, child)
  {
    hide TablesOkExcept, ProfilesOk, LedgerOk, EntryOk, SeatReserved, Conserves;
    var y := SeatReserved(s.listings[e.listing], e.units, child, e.buyer, Some(lease));
    WaitingUnclaimed(s, qref);
    if Claimed(s.queue, child) {
      var k :| k in s.queue && s.queue[k].tradeId == Some(child);
      SharedChildBreaksLedger(s.listings[e.listing := y], s.queue[qref := e], s.pay.trades[child := t], child, k, qref);
    } else {
      var rest := s.pay.trades - {child};
      LedgerWithout(s.listings, s.queue, s.pay.trades, child);
      ActivateKeeps(s.listings, s.queue, rest, {}, e.listing, qref, e, child, t, lease);
      assert rest[child := t] == s.pay.trades[child := t];
    }
  }

  lemma WaitingUnclaimed(s: Sys, k: QueueRef)
    requires Inv(s) && k in s.queue && s.queue[k].status in {Queued, Eligible}
    ensures s.queue[k].tradeId.None?
  {
    hide TablesOkExcept, ProfilesOk, ListingOk, Convert;
    assert EntryOk(s.listings, s.queue[k]);
  }

  // ---- Orders and activations ----------------------------------------------------------------------------

  /** An order that is accepted on a free slot, on any child id, as it changes the tables. */
  lemma SeatedOrder(
    s: Sys, l: ListingRef, buyer: Address, units: U128, child: TradeId, qref: QueueRef, ok: bool, now: Time)
    requires Inv(s) && ok && Eligibility(s, buyer, units, now) == Done && Orderable(s, l, buyer, units)
    requires s.listings[l].active.None?
    ensures var (r, reply) := Order(s, l, buyer, units, child, qref, ok, now);
            var x := s.listings[l];
            var t := NewAwaitingPayment(x.seller, buyer, units, x.rateMinor, x.currency, s.pay.config.timeoutMinutes,
                                        now);
            && reply == Done && t.Ok? && units <= Trust.HIGH_LIMIT && x.rateMinor > 0
            && r.listings == s.listings[l := Seat(x, units, child, buyer, t.value.deadline)]
            && r.queue == s.queue[qref := Entry(l, buyer, units, t.value.fiatMinor, x.rateMinor, 0, ActiveSlot,
                                                Some(child), None, now)]
            && r.pay == s.pay.(trades := s.pay.trades[child := t.value])
            && r.profiles == s.profiles[buyer := ProfileOf(s, buyer)] && r.guarantors == s.guarantors
  {
    hide Inv, Eligibility, NewAwaitingPayment, Convert, Conserves, HasActiveSlot, ProfileOf;
    var x := s.listings[l];
    AdmittedHere(s, buyer, units, now);
    RateHere(s, l);
    SlotIgnoresClock(s, l, now);
    NewTradeSucceeds(x.seller, buyer, units, x.rateMinor, x.currency, s.pay.config.timeoutMinutes, now);
    NewTradeGood(x.seller, buyer, units, x.rateMinor, x.currency, s.pay.config.timeoutMinutes, now);
    var t := NewAwaitingPayment(x.seller, buyer, units, x.rateMinor, x.currency, s.pay.config.timeoutMinutes,
                                now).value;
    SeatConserves(s, l, units, child, buyer, t.deadline);
  }

  lemma AdmittedHere(s: Sys, buyer: Address, units: U128, now: Time)
    requires Inv(s) && Eligibility(s, buyer, units, now) == Done
    ensures units <= Trust.HIGH_LIMIT
  {
    hide TablesOkExcept, LedgerOk, Trust.Consistent, Eligibility;
    AdmittedUnits(s, buyer, units, now);
  }

  lemma RateHere(s: Sys, l: ListingRef)
    requires Inv(s) && l in s.listings
    ensures s.listings[l].rateMinor > 0
  {
    hide TablesOkExcept, LedgerOk, ProfilesOk;
    RateIsPositive(s.listings, s.queue, s.pay.trades, {}, l);
  }

  lemma SeatConserves(s: Sys, l: ListingRef, units: U128, child: TradeId, buyer: Address, lease: Option<Time>)
    requires Inv(s) && l in s.listings && units <= s.listings[l].available
    ensures Conserves(Seat(s.listings[l], units, child, buyer, lease))
  {
    hide TablesOkExcept, ProfilesOk, EntryOk, EntryTradeOk, Sum;
    assert ListingOk(s.listings[l], s.queue, l);
  }

  /** A seated order leaves every existing trade as it was exactly when its child id is unused, or belongs to
      an untouched trade on the very same terms; it keeps all agreed terms exactly when the id is unused or
      its trade has the very same terms, and all stages exactly when the id is unused or its trade waits. */
  lemma SeatedOrderAltersExactly(
    s: Sys, l: ListingRef, buyer: Address, units: U128, child: TradeId, qref: QueueRef, ok: bool, now: Time)
    requires Inv(s) && ok && Eligibility(s, buyer, units, now) == Done && Orderable(s, l, buyer, units)
    requires s.listings[l].active.None?
    ensures var r := Order(s, l, buyer, units, child, qref, ok, now).0;
            var same := child in s.pay.trades ==>
                          AlreadyOnTerms(s.pay.trades[child], s.listings[l], buyer, units, s.pay.config, now);
            && (StagesStay(s, r) <==> (child in s.pay.trades ==> s.pay.trades[child].stage == AwaitingPayment))
            && (TermsStay(s, r) <==> same)
            && (TradesStay(s, r) <==> same && (child in s.pay.trades ==> Pristine(s.pay.trades[child])))
  {
    hide Inv, Eligibility, Orderable, NewAwaitingPayment, Order, Seat, TradesStay, TermsStay, StagesStay, TermsOk,
         ColumnsOk, AlreadyOnTerms, Pristine;
    SeatedOrder(s, l, buyer, units, child, qref, ok, now);
    OrderableListing(s, l, buyer, units);
    var x := s.listings[l];
    FreshTrade(x, buyer, units, s.pay.config, now);
    var t := NewAwaitingPayment(x.seller, buyer, units, x.rateMinor, x.currency, s.pay.config.timeoutMinutes,
                                now).value;
    StoredAltersExactly(s, Order(s, l, buyer, units, child, qref, ok, now).0, l, child, qref, t, buyer, units, now);
  }

  lemma OrderableListing(s: Sys, l: ListingRef, buyer: Address, units: U128)
    requires Orderable(s, l, buyer, units)
    ensures l in s.listings && units <= s.listings[l].available && units > 0 && s.listings[l].seller != buyer
  {
    hide Convert;
  }

  /** It keeps the listing ledger in order exactly when no queue entry claims the child id. */
  lemma SeatedOrderLedgerExactly(
    s: Sys, l: ListingRef, buyer: Address, units: U128, child: TradeId, qref: QueueRef, ok: bool, now: Time)
    requires Inv(s) && ok && Eligibility(s, buyer, units, now) == Done && Orderable(s, l, buyer, units)
    requires s.listings[l].active.None? && qref !in s.queue
    ensures var r := Order(s, l, buyer, units, child, qref, ok, now).0;
            LedgerOk(r.listings, r.queue, r.pay.trades, {}) <==> !Claimed(s.queue, child)
  {
    hide Inv, Eligibility, Orderable, NewAwaitingPayment, Order, LedgerOk, TermsOk, ColumnsOk, Convert;
    SeatedOrder(s, l, buyer, units, child, qref, ok, now);
    OrderableListing(s, l, buyer, units);
    var x := s.listings[l];
    NewTradeGood(x.seller, buyer, units, x.rateMinor, x.currency, s.pay.config.timeoutMinutes, now);
    var t := NewAwaitingPayment(x.seller, buyer, units, x.rateMinor, x.currency, s.pay.config.timeoutMinutes,
                                now).value;
    var e := Entry(l, buyer, units, t.fiatMinor, x.rateMinor, 0, ActiveSlot, Some(child), None, now);
    HasDeadline(t);
    QuoteIsEnough(t);
    SeatLedger(s, l, child, qref, e, t, t.deadline.value);
  }

  lemma QuoteIsEnough(t: Trade)
    requires TermsOk(t)
    ensures t.fiatMinor >= MIN_FIAT_MINOR
  {
    hide Convert;
  }

  /** The conditions under which an activation goes through, on any child id. */
  predicate Activatable(s: Sys, qref: QueueRef, buyer: Address) {
    && qref in s.queue && s.queue[qref].buyer == buyer && AtFront(s.queue[qref])
    && s.queue[qref].listing in s.listings && s.listings[s.queue[qref].listing].active.None?
  }

  lemma ActivatedEntry(s: Sys, qref: QueueRef, buyer: Address, child: TradeId, now: Time)
    requires Inv(s) && Activatable(s, qref, buyer)
    ensures var (r, reply) := Activate(s, qref, buyer, child, now);
            var e, x := s.queue[qref], s.listings[s.queue[qref].listing];
            var t := NewAwaitingPayment(x.seller, buyer, e.units, x.rateMinor, x.currency, s.pay.config.timeoutMinutes,
                                        now);
            && reply == Done && t.Ok? && e.units <= x.reserved && e.units <= Trust.HIGH_LIMIT
            && t.value.fiatMinor == e.quoted
            && r.listings == s.listings[e.listing := SeatReserved(x, e.units, child, buyer, t.value.deadline)]
            && r.queue == s.queue[qref := e.(position := 0, status := ActiveSlot, tradeId := Some(child))]
            && r.pay == s.pay.(trades := s.pay.trades[child := t.value])
            && r.profiles == s.profiles && r.guarantors == s.guarantors
  {
    hide Inv, NewAwaitingPayment, Convert, Conserves, HasActiveSlot;
    var e, x := s.queue[qref], s.listings[s.queue[qref].listing];
    EntryFacts(s, qref);
    SlotIgnoresClock(s, e.listing, now);
    ReservedSuffices(s, qref);
    NewTradeSucceeds(x.seller, buyer, e.units, x.rateMinor, x.currency, s.pay.config.timeoutMinutes, now);
    NewTradeGood(x.seller, buyer, e.units, x.rateMinor, x.currency, s.pay.config.timeoutMinutes, now);
    var t := NewAwaitingPayment(x.seller, buyer, e.units, x.rateMinor, x.currency, s.pay.config.timeoutMinutes,
                                now).value;
    SeatReservedConserves(s, e.listing, e.units, child, buyer, t.deadline);
  }

  lemma ReservedSuffices(s: Sys, k: QueueRef)
    requires Inv(s) && k in s.queue && s.queue[k].status in {Queued, Eligible} && s.queue[k].listing in s.listings
    ensures s.queue[k].units <= s.listings[s.queue[k].listing].reserved
  {
    hide TablesOkExcept, ProfilesOk, EntryOk, EntryTradeOk, Sum;
    var l := s.queue[k].listing;
    assert ListingOk(s.listings[l], s.queue, l);
    SumContains(s.queue, k, l, InReserve);
  }

  lemma SeatReservedConserves(s: Sys, l: ListingRef, units: U128, child: TradeId, buyer: Address, lease: Option<Time>)
    requires Inv(s) && l in s.listings && units <= s.listings[l].reserved
    ensures Conserves(SeatReserved(s.listings[l], units, child, buyer, lease))
  {
    hide TablesOkExcept, ProfilesOk, EntryOk, EntryTradeOk, Sum;
    assert ListingOk(s.listings[l], s.queue, l);
  }

  /** The same for activation. */
  lemma ActivationAltersExactly(s: Sys, qref: QueueRef, buyer: Address, child: TradeId, now: Time)
    requires Inv(s) && Activatable(s, qref, buyer)
    ensures var r := Activate(s, qref, buyer, child, now).0;
            var e := s.queue[qref];
            var same := child in s.pay.trades ==>
                          AlreadyOnTerms(s.pay.trades[child], s.listings[e.listing], buyer, e.units, s.pay.config, now);
            && (StagesStay(s, r) <==> (child in s.pay.trades ==> s.pay.trades[child].stage == AwaitingPayment))
            && (TermsStay(s, r) <==> same)
            && (TradesStay(s, r) <==> same && (child in s.pay.trades ==> Pristine(s.pay.trades[child])))
  {
    hide Inv, NewAwaitingPayment, Activate, SeatReserved, TradesStay, TermsStay, StagesStay, TermsOk, ColumnsOk,
         AlreadyOnTerms, Pristine, AtFront;
    ActivatedEntry(s, qref, buyer, child, now);
    var e, x := s.queue[qref], s.listings[s.queue[qref].listing];
    FreshTrade(x, buyer, e.units, s.pay.config, now);
    var t := NewAwaitingPayment(x.seller, buyer, e.units, x.rateMinor, x.currency, s.pay.config.timeoutMinutes,
                                now).value;
    StoredAltersExactly(s, Activate(s, qref, buyer, child, now).0, e.listing, child, qref, t, buyer, e.units, now);
  }

  lemma ActivationLedgerExactly(s: Sys, qref: QueueRef, buyer: Address, child: TradeId, now: Time)
    requires Inv(s) && Activatable(s, qref, buyer)
    ensures var r := Activate(s, qref, buyer, child, now).0;
            LedgerOk(r.listings, r.queue, r.pay.trades, {}) <==> !Claimed(s.queue, child)
  {
    hide Inv, NewAwaitingPayment, Activate, SeatReserved, LedgerOk, TermsOk, ColumnsOk, Convert;
    ActivatedEntry(s, qref, buyer, child, now);
    EntryFacts(s, qref);
    var e, x := s.queue[qref], s.listings[s.queue[qref].listing];
    NewTradeGood(x.seller, buyer, e.units, x.rateMinor, x.currency, s.pay.config.timeoutMinutes, now);
    var t := NewAwaitingPayment(x.seller, buyer, e.units, x.rateMinor, x.currency, s.pay.config.timeoutMinutes,
                                now).value;
    HasDeadline(t);
    ActivationLedger(s, qref, child, e.(position := 0, status := ActiveSlot, tradeId := Some(child)), t,
                     t.deadline.value);
  }

  // ---- A shared child ------------------------------------------------------------------------------------

  /** Once two listings' slots are held by the same trade, resolving it closes every entry of that trade but
      frees one of the two slots only: the other stays taken, with units allocated to nobody. */
  lemma SharedChildStrandsSlot(s: Sys, l: ListingRef, m: ListingRef, child: TradeId, completed: bool, hint: Visit,
                               now: Time)
    requires l in s.listings && m in s.listings && l != m
    requires s.listings[l].active == Some(child) == s.listings[m].active
    ensures var r := Resolve(s, child, completed, hint, now);
            && (forall k :: k in r.queue && r.queue[k].tradeId == Some(child) ==> r.queue[k].status != ActiveSlot)
            && ((r.listings[l] == s.listings[l] && r.listings[m].active.None?)
                || (r.listings[m] == s.listings[m] && r.listings[l].active.None?)
                || (r.listings[l] == s.listings[l] && r.listings[m] == s.listings[m]))
  {
    hide FreeSlot;
    var served := ServingListing(s.listings, child, hint.listing);
    if served.Some? {
      var amount := if child in s.pay.trades then s.pay.trades[child].units else 0;
      SlotCleared(s.listings[served.value], amount, completed);
    }
  }
}
