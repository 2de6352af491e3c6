/** What the seller-listing steps keep: the five buckets are cached sums over the queue table, one
    entry at most holds the slot, and every entry agrees with its child trade. */
module Inventory {
  import opened Core
  import opened Lifecycle
  import opened Ledger
  import Settlement
  import Trust

  type Trades = map<TradeId, Trade>

  // ---- Invariant -----------------------------------------------------------------------------

  predicate Ended(s: Stage) { s == Completed || s == Cancelled }

  /** An entry against its own listing. */
  predicate EntryOk(ls: Listings, e: Entry) {
    && e.listing in ls
    && var x := ls[e.listing];
       && 0 < e.units <= Trust.HIGH_LIMIT && e.rateMinor == x.rateMinor && e.buyer != x.seller
       && Convert(e.units, x.rateMinor) == Some(e.quoted) && e.quoted >= MIN_FIAT_MINOR
       && e.status != EntryRejected
       && (e.tradeId.Some? <==> e.status in {ActiveSlot, EntryCompleted, EntryExpired})
       && (e.status == ActiveSlot ==> x.active == e.tradeId)
  }

  /** An entry against its child trade: same terms, and a status that matches the trade's stage.
      Trades in `pending` have ended but their slot is still to be freed, later in the same handler. */
  predicate EntryTradeOk(ts: Trades, pending: set<TradeId>, e: Entry) {
    e.tradeId.Some? ==>
      && e.tradeId.value in ts
      && var t := ts[e.tradeId.value];
         && t.units == e.units && t.fiatMinor == e.quoted && t.rateMinor == e.rateMinor && t.buyer == Some(e.buyer)
         && (e.status == ActiveSlot ==> !Ended(t.stage) || e.tradeId.value in pending)
         && (e.status == EntryCompleted ==> t.stage == Completed)
         && (e.status == EntryExpired ==> Settlement.Refunding(t.stage))
  }

  predicate Holds(q: Queue, l: ListingRef, t: TradeId, k: QueueRef) {
    k in q && q[k].listing == l && q[k].status == ActiveSlot && q[k].tradeId == Some(t)
  }

  ghost predicate ListingOk(x: Listing, q: Queue, l: ListingRef) {
    && x.reserved == Sum(q, l, InReserve)
    && x.allotted == Sum(q, l, InSlot)
    && x.filled == Sum(q, l, Sold)
    && x.withdrawn == 0 && x.total > 0 && x.rateMinor > 0
    && x.available + x.allotted + x.reserved + x.filled == x.total
    && x.status in {Active, Depleted}
    && (x.status == Depleted <==> x.filled == x.total)
    && (x.active.Some? <==> x.leaseOwner.Some?)
    && (x.active.Some? <==> x.leaseExpires.Some?)
    && (x.active.Some? ==> exists k :: Holds(q, l, x.active.value, k))
  }

  /** No two entries share a child trade. */
  predicate OwnTrades(q: Queue) {
    forall j, k :: j in q && k in q && j != k && q[j].tradeId.Some? ==> q[j].tradeId != q[k].tradeId
  }

  ghost predicate LedgerOk(ls: Listings, q: Queue, ts: Trades, pending: set<TradeId>) {
    && (forall k :: k in q ==> EntryOk(ls, q[k]))
    && (forall k :: k in q ==> EntryTradeOk(ts, pending, q[k]))
    && OwnTrades(q)
    && (forall l :: l in ls ==> ListingOk(ls[l], q, l))
  }

  // ---- Consequences ----------------------------------------------------------------------------

  /** In every good state the conservation check passes and a listing is depleted exactly when
      everything has been sold; the slot never depends on the clock. */
  lemma ListingConsequences(x: Listing, q: Queue, l: ListingRef, now: Time)
    requires ListingOk(x, q, l)
    ensures Conserves(x)
    ensures HasActiveSlot(x, now) <==> x.active.Some?
    ensures x.status == Depleted <==> x.available == 0 && x.allotted == 0 && x.reserved == 0
  {}

  /** At most one entry holds a listing's slot, and one does exactly when active_trade_id is set. */
  lemma OneSlot(ls: Listings, q: Queue, ts: Trades, pending: set<TradeId>, l: ListingRef)
    requires LedgerOk(ls, q, ts, pending) && l in ls
    ensures forall j, k :: (j in q && k in q && q[j].listing == l && q[k].listing == l
                            && q[j].status == ActiveSlot && q[k].status == ActiveSlot) ==> j == k
    ensures ls[l].active.Some? <==> exists k :: k in q && q[k].listing == l && q[k].status == ActiveSlot
  {
    hide Convert, Sum;
    forall j, k | j in q && k in q && q[j].listing == l && q[k].listing == l
                  && q[j].status == ActiveSlot && q[k].status == ActiveSlot
      ensures j == k
    {
      assert EntryOk(ls, q[j]) && EntryOk(ls, q[k]);
    }
    forall k | k in q && q[k].listing == l && q[k].status == ActiveSlot
      ensures ls[l].active.Some?
    {
      assert EntryOk(ls, q[k]);
    }
    if ls[l].active.Some? {
      var k :| Holds(q, l, ls[l].active.value, k);
    }
  }

  /** A trade serves at most one listing, through the one entry that holds its slot. */
  lemma ServedOnce(ls: Listings, q: Queue, ts: Trades, pending: set<TradeId>, l: ListingRef, m: ListingRef, t: TradeId)
    requires LedgerOk(ls, q, ts, pending) && l in ls && m in ls
    requires ls[l].active == Some(t) && ls[m].active == Some(t)
    ensures l == m
  {
    hide Convert, Sum, EntryOk, EntryTradeOk;
    var j :| Holds(q, l, t, j);
    var k :| Holds(q, m, t, k);
  }

  // ---- Frames ------------------------------------------------------------------------------------

  /** Trades moving along handler edges never disturb the ledger; those that end become pending. */
  lemma TradesMove(ls: Listings, q: Queue, ts: Trades, us: Trades, pending: set<TradeId>, pending': set<TradeId>)
    requires LedgerOk(ls, q, ts, pending) && pending <= pending'
    requires forall t :: t in ts ==> t in us && Settlement.Moves(ts[t], us[t])
    requires forall t :: t in ts && Ended(us[t].stage) ==> Ended(ts[t].stage) || t in pending'
    ensures LedgerOk(ls, q, us, pending')
  {
    hide EntryOk, ListingOk;
    forall k | k in q
      ensures EntryTradeOk(us, pending', q[k])
    {
      assert EntryTradeOk(ts, pending, q[k]);
      if q[k].tradeId.Some? {
        EntryTradeMoves(ts, us, pending, pending', q[k]);
      }
    }
  }

  lemma EntryTradeMoves(ts: Trades, us: Trades, pending: set<TradeId>, pending': set<TradeId>, e: Entry)
    requires e.tradeId.Some? && EntryTradeOk(ts, pending, e) && pending <= pending'
    requires e.tradeId.value in us && Settlement.Moves(ts[e.tradeId.value], us[e.tradeId.value])
    requires Ended(us[e.tradeId.value].stage) ==> Ended(ts[e.tradeId.value].stage) || e.tradeId.value in pending'
    ensures EntryTradeOk(us, pending', e)
  {}

  /** A listing is untouched by a write to an entry of another listing. */
  lemma ListingFrame(x: Listing, q: Queue, k: QueueRef, e: Entry, l: ListingRef)
    requires ListingOk(x, q, l) && e.listing != l && (k in q ==> q[k].listing != l)
    ensures ListingOk(x, q[k := e], l)
  {
    SumWrite(q, k, e, l, InReserve);
    SumWrite(q, k, e, l, InSlot);
    SumWrite(q, k, e, l, Sold);
    if x.active.Some? {
      var h :| Holds(q, l, x.active.value, h);
      assert Holds(q[k := e], l, x.active.value, h);
    }
  }

  /** The listings and entries that a write to one listing and one of its entries leaves alone. */
  lemma OneWrite(
    ls: Listings, q: Queue, ts: Trades, us: Trades, pending: set<TradeId>,
    l: ListingRef, y: Listing, k: QueueRef, e: Entry)
    requires LedgerOk(ls, q, ts, pending) && l in ls
    requires (forall t :: t in ts ==> t in us && us[t] == ts[t])
    requires e.listing == l && (k in q ==> q[k].listing == l)
    requires y.rateMinor == ls[l].rateMinor && y.seller == ls[l].seller
    requires y.active == ls[l].active || ls[l].active.None?
    requires EntryOk(ls[l := y], e) && EntryTradeOk(us, pending, e) && ListingOk(y, q[k := e], l)
    requires e.tradeId.Some? ==> forall j :: j in q && j != k ==> q[j].tradeId != e.tradeId
    ensures LedgerOk(ls[l := y], q[k := e], us, pending)
  {
    hide Convert, ListingOk, Sum;
    var ls', q' := ls[l := y], q[k := e];
    forall j | j in q'
      ensures EntryOk(ls', q'[j]) && EntryTradeOk(us, pending, q'[j])
    {
      if j != k {
        assert EntryOk(ls, q[j]) && EntryTradeOk(ts, pending, q[j]);
      }
    }
    forall m | m in ls'
      ensures ListingOk(ls'[m], q', m)
    {
      if m != l { ListingFrame(ls[m], q, k, e, m); }
    }
  }

  // ---- Steps ---------------------------------------------------------------------------------------

  lemma {:induction false} SumOfNothing(q: Queue, l: ListingRef, b: Bucket)
    requires forall k :: k in q ==> q[k].listing != l
    ensures Sum(q, l, b) == 0
    decreases |q|
  {
    if q == map[] {
      assert Sum(map[], l, b) == 0;
    } else {
      var k :| k in q;
      SumRemove(q, k, l, b);
      SumOfNothing(q - {k}, l, b);
    }
  }

  lemma NewListingKeeps(ls: Listings, q: Queue, ts: Trades, pending: set<TradeId>, l: ListingRef, x: Listing)
    requires LedgerOk(ls, q, ts, pending) && l !in ls
    requires x.total > 0 && x.rateMinor > 0 && x.available == x.total && x.status == Active
    requires x.allotted == x.reserved == x.filled == x.withdrawn == 0
    requires x.active.None? && x.leaseOwner.None? && x.leaseExpires.None?
    ensures LedgerOk(ls[l := x], q, ts, pending)
  {
    hide Convert;
    forall k | k in q
      ensures EntryOk(ls[l := x], q[k]) && q[k].listing != l
    {
      assert EntryOk(ls, q[k]);
    }
    SumOfNothing(q, l, InReserve);
    SumOfNothing(q, l, InSlot);
    SumOfNothing(q, l, Sold);
  }

  /** Putting a new buyer in the queue. */
  lemma EnqueueKeeps(
    ls: Listings, q: Queue, ts: Trades, pending: set<TradeId>, l: ListingRef, k: QueueRef, e: Entry)
    requires LedgerOk(ls, q, ts, pending) && l in ls && k !in q
    requires e.listing == l && e.status == Queued && e.tradeId.None? && EntryOk(ls, e)
    requires e.units <= ls[l].available
    ensures Conserves(Reserve(ls[l], e.units))
    ensures LedgerOk(ls[l := Reserve(ls[l], e.units)], q[k := e], ts, pending)
  {
    hide EntryOk, EntryTradeOk, ListingOk, Sum, Conserves;
    var y := Reserve(ls[l], e.units);
    EnqueueEntryOk(ls, ts, pending, l, e);
    EnqueueListing(ls[l], q, l, k, e);
    ListingConsequences(y, q[k := e], l, 0);
    OneWrite(ls, q, ts, ts, pending, l, y, k, e);
  }

  lemma EnqueueEntryOk(ls: Listings, ts: Trades, pending: set<TradeId>, l: ListingRef, e: Entry)
    requires l in ls && e.listing == l && e.tradeId.None? && e.status == Queued && EntryOk(ls, e)
    requires e.units <= ls[l].available
    ensures e.units > 0 && EntryTradeOk(ts, pending, e)
    ensures EntryOk(ls[l := Reserve(ls[l], e.units)], e)
  {
    hide Convert;
  }

  lemma EnqueueListing(x: Listing, q: Queue, l: ListingRef, k: QueueRef, e: Entry)
    requires ListingOk(x, q, l) && k !in q && e.listing == l && e.status == Queued && 0 < e.units <= x.available
    ensures ListingOk(Reserve(x, e.units), q[k := e], l)
  {
    SumWrite(q, k, e, l, InReserve);
    SumWrite(q, k, e, l, InSlot);
    SumWrite(q, k, e, l, Sold);
    if x.active.Some? {
      var h :| Holds(q, l, x.active.value, h);
      assert Holds(q[k := e], l, x.active.value, h);
    }
  }

  /** Seating a new buyer directly in a free slot. */
  lemma SeatKeeps(
    ls: Listings, q: Queue, ts: Trades, pending: set<TradeId>, l: ListingRef, k: QueueRef, e: Entry,
    tid: TradeId, t: Trade, lease: Time)
    requires LedgerOk(ls, q, ts, pending) && l in ls && k !in q && tid !in ts
    requires ls[l].active.None? && e.units <= ls[l].available
    requires e.listing == l && e.status == ActiveSlot && e.tradeId == Some(tid)
    requires var y := Seat(ls[l], e.units, tid, e.buyer, Some(lease)); EntryOk(ls[l := y], e)
    requires EntryTradeOk(ts[tid := t], pending, e)
    ensures var y := Seat(ls[l], e.units, tid, e.buyer, Some(lease));
            Conserves(y) && LedgerOk(ls[l := y], q[k := e], ts[tid := t], pending)
  {
    hide EntryOk, EntryTradeOk, ListingOk, Sum, Conserves;
    var y := Seat(ls[l], e.units, tid, e.buyer, Some(lease));
    EntryHasUnits(ls[l := y], e);
    SeatListing(ls[l], q, l, k, e, tid, lease);
    ListingConsequences(y, q[k := e], l, lease);
    OldTradesOnly(ls, q, ts, pending, tid);
    OneWrite(ls, q, ts, ts[tid := t], pending, l, y, k, e);
  }

  lemma EntryHasUnits(ls: Listings, e: Entry)
    requires EntryOk(ls, e)
    ensures e.units > 0
  {
    hide Convert;
  }

  lemma SeatListing(x: Listing, q: Queue, l: ListingRef, k: QueueRef, e: Entry, tid: TradeId, lease: Time)
    requires ListingOk(x, q, l) && k !in q && 0 < e.units <= x.available
    requires e.listing == l && e.status == ActiveSlot && e.tradeId == Some(tid)
    ensures ListingOk(Seat(x, e.units, tid, e.buyer, Some(lease)), q[k := e], l)
  {
    SumWrite(q, k, e, l, InReserve);
    SumWrite(q, k, e, l, InSlot);
    SumWrite(q, k, e, l, Sold);
    assert Holds(q[k := e], l, tid, k);
  }

  lemma OldTradesOnly(ls: Listings, q: Queue, ts: Trades, pending: set<TradeId>, tid: TradeId)
    requires LedgerOk(ls, q, ts, pending) && tid !in ts
    ensures forall j :: j in q ==> q[j].tradeId != Some(tid)
  {
    forall j | j in q
      ensures q[j].tradeId != Some(tid)
    {
      assert EntryTradeOk(ts, pending, q[j]);
    }
  }

  /** Seating a waiting entry: its reservation becomes the allocation. */
  lemma ActivateKeeps(
    ls: Listings, q: Queue, ts: Trades, pending: set<TradeId>, l: ListingRef, k: QueueRef, e: Entry,
    tid: TradeId, t: Trade, lease: Time)
    requires LedgerOk(ls, q, ts, pending) && l in ls && k in q && tid !in ts
    requires ls[l].active.None? && IsWaiting(q[k], l)
    requires e == q[k].(position := e.position, status := ActiveSlot, tradeId := Some(tid),
                        consentDeadline := e.consentDeadline)
    requires t.units == e.units && t.fiatMinor == e.quoted && t.rateMinor == e.rateMinor && t.buyer == Some(e.buyer)
    requires !Ended(t.stage)
    ensures e.units <= ls[l].reserved
    ensures var y := SeatReserved(ls[l], e.units, tid, e.buyer, Some(lease));
            Conserves(y) && LedgerOk(ls[l := y], q[k := e], ts[tid := t], pending)
  {
    hide EntryOk, EntryTradeOk, ListingOk, Sum;
    assert EntryOk(ls, q[k]);
    ActivateListing(ls[l], q, l, k, e, tid, lease);
    var y := SeatReserved(ls[l], e.units, tid, e.buyer, Some(lease));
    ActivateEntryOk(ls, q[k], e, tid, lease);
    ListingConsequences(y, q[k := e], l, lease);
    assert EntryTradeOk(ts[tid := t], pending, e) by { FreshEntryTrade(ts, pending, e, tid, t); }
    OldTradesOnly(ls, q, ts, pending, tid);
    OneWrite(ls, q, ts, ts[tid := t], pending, l, y, k, e);
  }

  lemma ActivateEntryOk(ls: Listings, w: Entry, e: Entry, tid: TradeId, lease: Time)
    requires EntryOk(ls, w) && w.status in {Queued, Eligible}
    requires e == w.(position := e.position, status := ActiveSlot, tradeId := Some(tid),
                     consentDeadline := e.consentDeadline)
    requires e.units <= ls[e.listing].reserved
    ensures var y := SeatReserved(ls[e.listing], e.units, tid, e.buyer, Some(lease)); EntryOk(ls[e.listing := y], e)
  {
    hide Convert;
  }

  lemma FreshEntryTrade(ts: Trades, pending: set<TradeId>, e: Entry, tid: TradeId, t: Trade)
    requires e.tradeId == Some(tid) && e.status == ActiveSlot && !Ended(t.stage)
    requires t.units == e.units && t.fiatMinor == e.quoted && t.rateMinor == e.rateMinor && t.buyer == Some(e.buyer)
    ensures EntryTradeOk(ts[tid := t], pending, e)
  {}

  lemma ActivateListing(x: Listing, q: Queue, l: ListingRef, k: QueueRef, e: Entry, tid: TradeId, lease: Time)
    requires ListingOk(x, q, l) && k in q && IsWaiting(q[k], l) && e.units == q[k].units
    requires e.listing == l && e.status == ActiveSlot && e.tradeId == Some(tid)
    ensures e.units <= x.reserved
    ensures ListingOk(SeatReserved(x, e.units, tid, e.buyer, Some(lease)), q[k := e], l)
  {
    SumContains(q, k, l, InReserve);
    SumWrite(q, k, e, l, InReserve);
    SumWrite(q, k, e, l, InSlot);
    SumWrite(q, k, e, l, Sold);
    assert Holds(q[k := e], l, tid, k);
  }

  /** Taking a waiting entry out of the queue returns its reservation. */
  lemma WithdrawKeeps(ls: Listings, q: Queue, ts: Trades, pending: set<TradeId>, k: QueueRef)
    requires LedgerOk(ls, q, ts, pending) && k in q && q[k].status in {Queued, Eligible}
    ensures var l := q[k].listing;
            && l in ls && q[k].units <= ls[l].reserved
            && LedgerOk(ls[l := ReturnReserved(ls[l], q[k].units)], q[k := q[k].(status := CancelledByBuyer)], ts,
                        pending)
  {
    hide Convert;
    assert EntryOk(ls, q[k]);
    var l, e := q[k].listing, q[k].(status := CancelledByBuyer);
    var y := ReturnReserved(ls[l], q[k].units);
    assert ListingOk(y, q[k := e], l) && q[k].units <= ls[l].reserved by { WithdrawListing(ls[l], q, l, k); }
    OneWrite(ls, q, ts, ts, pending, l, y, k, e);
  }

  lemma WithdrawListing(x: Listing, q: Queue, l: ListingRef, k: QueueRef)
    requires ListingOk(x, q, l) && k in q && IsWaiting(q[k], l) && q[k].units > 0
    ensures q[k].units <= x.reserved
    ensures ListingOk(ReturnReserved(x, q[k].units), q[k := q[k].(status := CancelledByBuyer)], l)
  {
    var e := q[k].(status := CancelledByBuyer);
    SumContains(q, k, l, InReserve);
    SumWrite(q, k, e, l, InReserve);
    SumWrite(q, k, e, l, InSlot);
    SumWrite(q, k, e, l, Sold);
    if x.active.Some? {
      var h :| Holds(q, l, x.active.value, h);
      assert Holds(q[k := e], l, x.active.value, h);
    }
  }

  /** `f` is `e` up to its place in the queue. */
  predicate SamePlaceApart(e: Entry, f: Entry) {
    && f == e.(position := f.position, status := f.status, consentDeadline := f.consentDeadline)
    && (f.status == e.status || (e.status == Queued && f.status == Eligible))
  }

  /** Renumbering, or making a queued entry eligible, moves no inventory. */
  lemma RearrangeKeeps(ls: Listings, q: Queue, r: Queue, ts: Trades, pending: set<TradeId>)
    requires LedgerOk(ls, q, ts, pending) && r.Keys == q.Keys
    requires forall k :: k in q ==> SamePlaceApart(q[k], r[k])
    ensures LedgerOk(ls, r, ts, pending)
  {
    hide Convert, Sum;
    forall k | k in r
      ensures EntryOk(ls, r[k]) && EntryTradeOk(ts, pending, r[k])
    {
      assert SamePlaceApart(q[k], r[k]);
      assert EntryOk(ls, q[k]) && EntryTradeOk(ts, pending, q[k]);
    }
    hide EntryOk, EntryTradeOk, ListingOk;
    forall l | l in ls
      ensures ListingOk(ls[l], r, l)
    {
      RearrangeListing(ls[l], q, r, l);
    }
  }

  lemma RearrangeListing(x: Listing, q: Queue, r: Queue, l: ListingRef)
    requires ListingOk(x, q, l) && r.Keys == q.Keys
    requires forall k :: k in q ==> SamePlaceApart(q[k], r[k])
    ensures ListingOk(x, r, l)
  {
    hide Sum;
    SumSame(q, r, l, InReserve);
    SumSame(q, r, l, InSlot);
    SumSame(q, r, l, Sold);
    if x.active.Some? {
      var h :| Holds(q, l, x.active.value, h);
      assert SamePlaceApart(q[h], r[h]);
      assert Holds(r, l, x.active.value, h);
    }
  }

  // ---- Resolution ------------------------------------------------------------------------------------

  /** Only the holder of the slot is closed when its trade is resolved. */
  lemma SettleIsOneWrite(q: Queue, l: ListingRef, t: TradeId, completed: bool, h: QueueRef)
    requires Holds(q, l, t, h) && OwnTrades(q)
    ensures SettleEntries(q, t, completed) == q[h := SettledEntry(q[h], t, completed)]
  {
    forall k | k in q && k != h
      ensures SettledEntry(q[k], t, completed) == q[k]
    {
      assert q[h].tradeId != q[k].tradeId;
    }
  }

  /** The holder's entry, once closed. */
  lemma FreedEntryOk(ls: Listings, ts: Trades, pending: set<TradeId>, e: Entry, t: TradeId, completed: bool)
    requires EntryOk(ls, e) && EntryTradeOk(ts, pending, e) && e.tradeId == Some(t) && e.status == ActiveSlot
    requires t in ts && (if completed then ts[t].stage == Completed else ts[t].stage == Cancelled)
    ensures e.units > 0 && ts[t].units == e.units
    ensures var y := FreeSlot(ls[e.listing], ts[t].units, completed);
            EntryOk(ls[e.listing := y], SettledEntry(e, t, completed))
    ensures EntryTradeOk(ts, pending - {t}, SettledEntry(e, t, completed))
  {
    hide Convert;
  }

  /** Any other entry, of this listing or another. */
  lemma OtherEntryOk(ls: Listings, ts: Trades, pending: set<TradeId>, e: Entry, l: ListingRef, t: TradeId, y: Listing)
    requires EntryOk(ls, e) && EntryTradeOk(ts, pending, e) && e.tradeId != Some(t)
    requires l in ls && ls[l].active == Some(t) && y.rateMinor == ls[l].rateMinor && y.seller == ls[l].seller
    ensures EntryOk(ls[l := y], e) && EntryTradeOk(ts, pending - {t}, e)
  {
    hide Convert;
  }

  lemma FreeListing(x: Listing, q: Queue, l: ListingRef, h: QueueRef, t: TradeId, completed: bool)
    requires ListingOk(x, q, l) && Holds(q, l, t, h) && q[h].units > 0
    ensures q[h].units <= x.allotted
    ensures ListingOk(FreeSlot(x, q[h].units, completed), q[h := SettledEntry(q[h], t, completed)], l)
  {
    var e := SettledEntry(q[h], t, completed);
    SumContains(q, h, l, InSlot);
    SumWrite(q, h, e, l, InReserve);
    SumWrite(q, h, e, l, InSlot);
    SumWrite(q, h, e, l, Sold);
  }

  /** Freeing the slot of an ended trade: its units are returned or sold, its entry closed. */
  lemma FreeKeeps(ls: Listings, q: Queue, ts: Trades, pending: set<TradeId>, l: ListingRef, t: TradeId, completed: bool)
    requires LedgerOk(ls, q, ts, pending) && l in ls && ls[l].active == Some(t)
    requires t in ts && (if completed then ts[t].stage == Completed else ts[t].stage == Cancelled)
    ensures ts[t].units <= ls[l].allotted
    ensures LedgerOk(ls[l := FreeSlot(ls[l], ts[t].units, completed)], SettleEntries(q, t, completed), ts,
                     pending - {t})
  {
    hide EntryOk, EntryTradeOk, Sum;
    var h :| Holds(q, l, t, h);
    assert EntryOk(ls, q[h]) && EntryTradeOk(ts, pending, q[h]);
    FreedEntryOk(ls, ts, pending, q[h], t, completed);
    SettleIsOneWrite(q, l, t, completed, h);
    FreeListing(ls[l], q, l, h, t, completed);
    var e, y := SettledEntry(q[h], t, completed), FreeSlot(ls[l], ts[t].units, completed);
    var ls', q' := ls[l := y], q[h := e];
    assert y.rateMinor == ls[l].rateMinor && y.seller == ls[l].seller;
    hide ListingOk, FreeSlot;
    forall k | k in q'
      ensures EntryOk(ls', q'[k]) && EntryTradeOk(ts, pending - {t}, q'[k])
    {
      if k != h {
        assert EntryOk(ls, q[k]) && EntryTradeOk(ts, pending, q[k]);
        assert q[h].tradeId != q[k].tradeId;
        OtherEntryOk(ls, ts, pending, q[k], l, t, y);
      }
    }
    forall m | m in ls'
      ensures ListingOk(ls'[m], q', m)
    {
      if m != l { ListingFrame(ls[m], q, h, e, m); }
    }
  }

  lemma PromoteKeeps(ls: Listings, q: Queue, ts: Trades, pending: set<TradeId>, next: Option<QueueRef>, now: Time)
    requires LedgerOk(ls, q, ts, pending)
    requires next.Some? ==> next.value in q && q[next.value].status == Queued
    ensures LedgerOk(ls, Promote(q, next, now), ts, pending)
  {
    RearrangeKeeps(ls, q, Promote(q, next, now), ts, pending);
  }

  /** A trade that serves no listing is in nobody's way. */
  lemma NotServing(ls: Listings, q: Queue, ts: Trades, pending: set<TradeId>, t: TradeId)
    requires LedgerOk(ls, q, ts, pending)
    requires forall l :: l in ls ==> ls[l].active != Some(t)
    ensures LedgerOk(ls, q, ts, pending - {t})
  {
    hide Convert, ListingOk;
    forall k | k in q
      ensures EntryTradeOk(ts, pending - {t}, q[k])
    {
      assert EntryOk(ls, q[k]) && EntryTradeOk(ts, pending, q[k]);
    }
  }
}
