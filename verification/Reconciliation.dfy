/** The deadline pass: which trades it cancels, what it returns to the sellers' listings and whom it
    penalises, over every order in which the table may be visited. */
module Reconciliation {
  import opened Core
  import opened Lifecycle
  import opened Flutterwave
  import opened Payments
  import opened Settlement
  import opened Ledger
  import opened Inventory
  import opened Trust
  import opened System
  import opened Invariant

  predicate Distinct(order: seq<TradeId>) {
    forall i, j :: 0 <= i < j < |order| ==> order[i] != order[j]
  }

  // ---- Sweeping the trades -----------------------------------------------------------------------

  /** The pass cancels a trade that waits for payment past its deadline, was never paid, and has no
      payment under way. */
  predicate Lapsed(p: Tables, tid: TradeId, now: Time) {
    tid in p.trades && Overdue(p.trades[tid], now) && NeverPaid(p.trades[tid].payment) && !InFlight(p, tid)
  }

  /** No attempt carries the outage code, so no expiry is ever exempt. */
  lemma LapsedVerdict(p: Tables, tid: TradeId, now: Time)
    requires TablesOk(p)
    ensures VerdictOn(p, tid, now).Expired? <==> Lapsed(p, tid, now)
    ensures Lapsed(p, tid, now) ==>
              p.trades[tid].buyer.Some? && VerdictOn(p, tid, now) == Expired(p.trades[tid].buyer, false)
  {
    hide ColumnsOk, RowsOk, Overdue, NeverPaid, InFlight, Convert;
    if tid in p.checkout { assert AttemptOk(p, p.checkout[tid]); }
    if tid in p.trades { assert TermsOk(p.trades[tid]); }
  }

  /** The attempt is its trade's current one and the trade lapses. */
  predicate LapsedAttempt(p: Tables, ref: TxRef, now: Time)
    requires ref in p.attempts
  {
    var tid := p.attempts[ref].tradeId;
    tid in p.checkout && p.checkout[tid] == ref && Lapsed(p, tid, now)
  }

  function LapsedTrade(p: Tables, tid: TradeId, gone: seq<TradeId>, now: Time): Trade
    requires tid in p.trades
  {
    if tid in gone && Lapsed(p, tid, now) then ExpiredTrade(p.trades[tid]) else p.trades[tid]
  }

  function SweptAttempt(p: Tables, ref: TxRef, gone: seq<TradeId>, now: Time): Attempt
    requires ref in p.attempts
  {
    var a := p.attempts[ref];
    if a.tradeId in gone && LapsedAttempt(p, ref, now) then a.(status := AttemptExpired) else a
  }

  /** `q` is `p` with exactly the lapsed trades among `gone` cancelled and their attempts expired. */
  ghost predicate Swept(p: Tables, q: Tables, gone: seq<TradeId>, now: Time) {
    && q == p.(trades := q.trades, attempts := q.attempts)
    && q.trades.Keys == p.trades.Keys && q.attempts.Keys == p.attempts.Keys
    && (forall t :: t in p.trades ==> q.trades[t] == LapsedTrade(p, t, gone, now))
    && (forall r :: r in p.attempts ==> q.attempts[r] == SweptAttempt(p, r, gone, now))
  }

  /** A sweep that has not reached a trade has not changed what it will do to it. */
  lemma SweptApart(p: Tables, q: Tables, gone: seq<TradeId>, tid: TradeId, now: Time)
    requires TablesOk(p) && Swept(p, q, gone, now) && tid !in gone
    ensures Lapsed(q, tid, now) <==> Lapsed(p, tid, now)
  {
    hide TermsOk, ColumnsOk, RowsOk, ExpiredTrade, Overdue, NeverPaid, LapsedAttempt;
  }

  predicate CurrentAttempt(p: Tables, tid: TradeId, ref: TxRef) { tid in p.checkout && p.checkout[tid] == ref }

  /** The sweep's work on one trade, seen from each row. */
  lemma SweepTradeEffect(q: Tables, tid: TradeId, now: Time)
    requires TablesOk(q)
    ensures var r := SweepTrade(q, tid, now);
            var lapsed := Lapsed(q, tid, now);
            && r == q.(trades := r.trades, attempts := r.attempts)
            && r.trades.Keys == q.trades.Keys && r.attempts.Keys == q.attempts.Keys
            && (forall t :: t in q.trades ==>
                  r.trades[t] == if lapsed && t == tid then ExpiredTrade(q.trades[t]) else q.trades[t])
            && (forall ref :: ref in q.attempts ==>
                  r.attempts[ref] == if lapsed && CurrentAttempt(q, tid, ref)
                                     then q.attempts[ref].(status := AttemptExpired) else q.attempts[ref])
  {
    hide TermsOk, ColumnsOk, RowsOk, AttemptOk, ExpiredTrade, Lapsed, VerdictOn;
    LapsedVerdict(q, tid, now);
    if VerdictOn(q, tid, now).Expired? { VerdictKnows(q, tid, now); }
  }

  lemma VerdictKnows(q: Tables, tid: TradeId, now: Time)
    requires VerdictOn(q, tid, now) != Untouched
    ensures tid in q.trades
  {}

  lemma CurrentIsOwn(p: Tables, q: Tables, tid: TradeId, ref: TxRef)
    requires TablesOk(p) && q.checkout == p.checkout && ref in p.attempts && CurrentAttempt(q, tid, ref)
    ensures p.attempts[ref].tradeId == tid
  {}

  lemma SweepOne(p: Tables, q: Tables, gone: seq<TradeId>, tid: TradeId, now: Time)
    requires TablesOk(p) && TablesOk(q) && Swept(p, q, gone, now) && tid !in gone
    ensures Swept(p, SweepTrade(q, tid, now), gone + [tid], now)
  {
    hide TablesOkExcept, ExpiredTrade, Lapsed, SweepTrade, CurrentAttempt, SweptAttempt, LapsedTrade;
    SweptApart(p, q, gone, tid, now);
    SweepTradeEffect(q, tid, now);
    var r := SweepTrade(q, tid, now);
    forall t | t in p.trades
      ensures r.trades[t] == LapsedTrade(p, t, gone + [tid], now)
    {
      TradeSwept(p, q, r, gone, tid, t, now);
    }
    forall ref | ref in p.attempts
      ensures r.attempts[ref] == SweptAttempt(p, ref, gone + [tid], now)
    {
      AttemptSwept(p, q, r, gone, tid, ref, now);
    }
  }

  lemma TradeSwept(p: Tables, q: Tables, r: Tables, gone: seq<TradeId>, tid: TradeId, t: TradeId, now: Time)
    requires t in p.trades && t in q.trades && t in r.trades && tid !in gone
    requires q.trades[t] == LapsedTrade(p, t, gone, now)
    requires r.trades[t] == if Lapsed(p, tid, now) && t == tid then ExpiredTrade(q.trades[t]) else q.trades[t]
    ensures r.trades[t] == LapsedTrade(p, t, gone + [tid], now)
  {
    hide Lapsed, ExpiredTrade;
  }

  lemma AttemptSwept(p: Tables, q: Tables, r: Tables, gone: seq<TradeId>, tid: TradeId, ref: TxRef, now: Time)
    requires TablesOk(p) && q.checkout == p.checkout && tid !in gone
    requires ref in p.attempts && ref in q.attempts && ref in r.attempts
    requires q.attempts[ref] == SweptAttempt(p, ref, gone, now)
    requires r.attempts[ref] == if Lapsed(p, tid, now) && CurrentAttempt(q, tid, ref)
                                then q.attempts[ref].(status := AttemptExpired) else q.attempts[ref]
    ensures r.attempts[ref] == SweptAttempt(p, ref, gone + [tid], now)
  {
    hide TablesOkExcept, Lapsed;
    if CurrentAttempt(q, tid, ref) { CurrentIsOwn(p, q, tid, ref); }
  }

  /** Whatever the order, a sweep cancels exactly the trades that have lapsed. */
  lemma {:induction false} SweepIsExact(p: Tables, order: seq<TradeId>, now: Time)
    requires TablesOk(p) && Distinct(order)
    ensures var q := Sweep(p, order, now); TablesOk(q) && RecordsKept(p, q) && Swept(p, q, order, now)
  {
    hide TablesOkExcept, SweepTrade, RecordsKept, AllMove, Lapsed, LapsedAttempt, ExpiredTrade;
    if order == [] {
      NothingMoves(p);
    } else {
      var before, tid := order[..|order| - 1], order[|order| - 1];
      SweepIsExact(p, before, now);
      var q := Sweep(p, before, now);
      SweepTradeKeeps(q, tid, now);
      SweepOne(p, q, before, tid, now);
      assert before + [tid] == order;
      RecordsStillKept(p, q, SweepTrade(q, tid, now));
    }
  }

  lemma RecordsStillKept(p: Tables, q: Tables, r: Tables)
    requires RecordsKept(p, q) && RecordsKept(q, r)
    ensures RecordsKept(p, r)
  {}

  // ---- Whom the pass penalises -------------------------------------------------------------------

  function TradesOf(xs: seq<Expiration>): set<TradeId> { set i | 0 <= i < |xs| :: xs[i].trade }

  ghost predicate ExactList(p: Tables, order: seq<TradeId>, xs: seq<Expiration>, now: Time) {
    && (forall i :: 0 <= i < |xs| ==>
          xs[i].trade in order && Lapsed(p, xs[i].trade, now)
          && p.trades[xs[i].trade].buyer == Some(xs[i].buyer) && !xs[i].outage)
    && (forall i, j :: 0 <= i < j < |xs| ==> xs[i].trade != xs[j].trade)
    && (forall t :: t in order && Lapsed(p, t, now) ==> t in TradesOf(xs))
  }

  lemma {:induction false} ExpirationsAreExact(p: Tables, order: seq<TradeId>, now: Time)
    requires TablesOk(p) && Distinct(order)
    ensures ExactList(p, order, Expirations(p, order, now), now)
  {
    hide TablesOkExcept, Sweep, VerdictOn, Lapsed, Swept, RecordsKept;
    if order == [] {
    } else {
      var before, tid := order[..|order| - 1], order[|order| - 1];
      assert order == before + [tid];
      ExpirationsAreExact(p, before, now);
      SweepIsExact(p, before, now);
      var q := Sweep(p, before, now);
      SweptApart(p, q, before, tid, now);
      LapsedVerdict(p, tid, now);
      LapsedVerdict(q, tid, now);
      if Lapsed(p, tid, now) { SameBuyer(p, q, before, tid, now); }
      var xs, ys := Expirations(p, before, now), Expirations(p, order, now);
      if Lapsed(p, tid, now) {
        var x := Expiration(tid, p.trades[tid].buyer.value, false);
        assert ys == xs + [x];
        ListExtends(xs, x);
      } else {
        assert ys == xs;
      }
    }
  }

  lemma ListExtends(xs: seq<Expiration>, x: Expiration)
    ensures TradesOf(xs + [x]) == TradesOf(xs) + {x.trade}
  {
    var ys := xs + [x];
    forall t | t in TradesOf(xs) + {x.trade}
      ensures t in TradesOf(ys)
    {
      if t == x.trade {
        assert ys[|xs|].trade == t;
      } else {
        var i :| 0 <= i < |xs| && xs[i].trade == t;
        assert ys[i].trade == t;
      }
    }
  }

  lemma SameBuyer(p: Tables, q: Tables, gone: seq<TradeId>, tid: TradeId, now: Time)
    requires Swept(p, q, gone, now) && Lapsed(p, tid, now)
    ensures tid in p.trades && tid in q.trades && q.trades[tid].buyer == p.trades[tid].buyer
  {}

  // ---- Freeing slots and penalising buyers -----------------------------------------------------------

  /** The listing once the trades in `gone` have given up their slots. */
  function FreedListing(ls: Listings, ts: Trades, gone: set<TradeId>, l: ListingRef): Listing
    requires l in ls
  {
    var x := ls[l];
    if x.active.Some? && x.active.value in gone && x.active.value in ts
    then FreeSlot(x, ts[x.active.value].units, false) else x
  }

  function CountFor(xs: seq<Expiration>, b: Address): nat {
    if xs == [] then 0
    else CountFor(xs[..|xs| - 1], b) + if xs[|xs| - 1].buyer == b then 1 else 0
  }

  /** The state after settling the expirations `xs` found by a sweep. */
  ghost predicate Settled(s: Sys, r: Sys, xs: seq<Expiration>, pending: set<TradeId>, now: Time) {
    && r == s.(listings := r.listings, queue := r.queue, profiles := r.profiles)
    && LedgerOk(r.listings, r.queue, r.pay.trades, pending - TradesOf(xs))
    && r.listings.Keys == s.listings.Keys
    && (forall l :: l in s.listings ==> r.listings[l] == FreedListing(s.listings, s.pay.trades, TradesOf(xs), l))
    && (forall b: Address :: ProfileOf(r, b) == Penalised(ProfileOf(s, b), CountFor(xs, b), now))
    && ProfilesOk(r)
  }

  /** One resolution, listing by listing. */
  lemma ResolveEffect(m: Sys, tid: TradeId, hint: Visit, now: Time, pending: set<TradeId>)
    requires LedgerOk(m.listings, m.queue, m.pay.trades, pending)
    requires tid in m.pay.trades && m.pay.trades[tid].stage == Cancelled
    ensures var r := Resolve(m, tid, false, hint, now);
            && r.listings.Keys == m.listings.Keys
            && forall l :: l in m.listings ==> r.listings[l] == FreedListing(m.listings, m.pay.trades, {tid}, l)
  {
    hide LedgerOk, FreeSlot, SettleEntries, Promote;
    forall l | l in m.listings && ServingListing(m.listings, tid, hint.listing).Some?
        && m.listings[l].active == Some(tid)
      ensures ServingListing(m.listings, tid, hint.listing) == Some(l)
    {
      ServedOnce(m.listings, m.queue, m.pay.trades, pending, l, ServingListing(m.listings, tid, hint.listing).value,
                 tid);
    }
  }

  lemma FreedTwice(ls: Listings, ms: Listings, ts: Trades, gone: set<TradeId>, tid: TradeId, l: ListingRef)
    requires l in ls && l in ms && tid !in gone && tid in ts
    requires ms[l] == FreedListing(ls, ts, gone, l)
    ensures FreedListing(ms, ts, {tid}, l) == FreedListing(ls, ts, gone + {tid}, l)
  {}

  lemma ExpiryConsistent(p: Profile, now: Time)
    ensures Consistent(AfterExpiration(p, false, now))
  {
    hide PolicyOf, CooldownSeconds;
  }

  lemma PenaliseEffect(m: Sys, x: Expiration, now: Time)
    requires ProfilesOk(m) && !x.outage
    ensures var r := Penalise(m, x, now);
            && r == m.(profiles := r.profiles) && ProfilesOk(r)
            && forall b: Address ::
                 ProfileOf(r, b)
                 == if b == x.buyer then AfterExpiration(ProfileOf(m, b), false, now) else ProfileOf(m, b)
  {
    hide AfterExpiration, Consistent;
    ExpiryConsistent(ProfileOf(m, x.buyer), now);
  }

  lemma {:induction false} SettlingIsExact(
    s: Sys, xs: seq<Expiration>, hints: seq<Visit>, now: Time, pending: set<TradeId>)
    requires LedgerOk(s.listings, s.queue, s.pay.trades, pending) && ProfilesOk(s)
    requires forall i, j :: 0 <= i < j < |xs| ==> xs[i].trade != xs[j].trade
    requires forall i :: 0 <= i < |xs| ==>
               xs[i].trade in s.pay.trades && s.pay.trades[xs[i].trade].stage == Cancelled && !xs[i].outage
    ensures Settled(s, SettleExpirations(s, xs, hints, now), xs, pending, now)
  {
    hide LedgerOk, Consistent, AfterExpiration, Resolve, Penalise, ProfileOf, FreedListing, ProfilesOk, TradesOf,
         Settled;
    if xs == [] {
      SettledNothing(s, pending, now);
    } else {
      var n := |xs| - 1;
      var x, before := xs[n], xs[..n];
      SettlingIsExact(s, before, hints, now, pending);
      var m := SettleExpirations(s, before, hints, now);
      LastIsNew(xs);
      SettleStep(s, m, before, x, pending, HintAt(hints, n), now);
      assert before + [x] == xs;
    }
  }

  lemma LastIsNew(xs: seq<Expiration>)
    requires xs != [] && forall i, j :: 0 <= i < j < |xs| ==> xs[i].trade != xs[j].trade
    ensures xs[|xs| - 1].trade !in TradesOf(xs[..|xs| - 1])
  {}

  lemma SettledNothing(s: Sys, pending: set<TradeId>, now: Time)
    requires LedgerOk(s.listings, s.queue, s.pay.trades, pending) && ProfilesOk(s)
    ensures Settled(s, s, [], pending, now)
  {
    hide LedgerOk, Consistent;
    assert pending - TradesOf([]) == pending;
  }

  lemma SettleStep(s: Sys, m: Sys, before: seq<Expiration>, x: Expiration, pending: set<TradeId>, hint: Visit,
                   now: Time)
    requires Settled(s, m, before, pending, now) && x.trade !in TradesOf(before) && !x.outage
    requires x.trade in s.pay.trades && s.pay.trades[x.trade].stage == Cancelled
    ensures Settled(s, Penalise(Resolve(m, x.trade, false, hint, now), x, now), before + [x], pending, now)
  {
    hide LedgerOk, Consistent, AfterExpiration, Resolve, Penalise, FreedListing, TradesOf;
    var xs, left := before + [x], pending - TradesOf(before);
    assert xs[..|xs| - 1] == before;
    ListExtends(before, x);
    ResolveKeeps(m, x.trade, false, hint, now, left);
    ResolveEffect(m, x.trade, hint, now, left);
    var freed := Resolve(m, x.trade, false, hint, now);
    PenaliseEffect(freed, x, now);
    assert left - {x.trade} == pending - TradesOf(xs);
    forall l | l in s.listings
      ensures freed.listings[l] == FreedListing(s.listings, s.pay.trades, TradesOf(xs), l)
    {
      FreedTwice(s.listings, m.listings, s.pay.trades, TradesOf(before), x.trade, l);
    }
  }

  // ---- Counting -----------------------------------------------------------------------------------------

  /** The lapsed trades of one buyer. */
  function LapsedOf(p: Tables, b: Address, now: Time): set<TradeId> {
    set t | t in p.trades && Lapsed(p, t, now) && p.trades[t].buyer == Some(b)
  }

  function TradesFor(xs: seq<Expiration>, b: Address): set<TradeId> {
    set i | 0 <= i < |xs| && xs[i].buyer == b :: xs[i].trade
  }

  lemma {:induction false} CountIsSize(xs: seq<Expiration>, b: Address)
    requires forall i, j :: 0 <= i < j < |xs| ==> xs[i].trade != xs[j].trade
    ensures CountFor(xs, b) == |TradesFor(xs, b)|
  {
    if xs == [] {
    } else {
      var before, x := xs[..|xs| - 1], xs[|xs| - 1];
      CountIsSize(before, b);
      if x.buyer == b {
        assert TradesFor(xs, b) == TradesFor(before, b) + {x.trade};
        assert x.trade !in TradesFor(before, b);
      } else {
        assert TradesFor(xs, b) == TradesFor(before, b);
      }
    }
  }

  lemma ListCounts(p: Tables, order: seq<TradeId>, xs: seq<Expiration>, b: Address, now: Time)
    requires ExactList(p, order, xs, now) && forall t :: t in p.trades ==> t in order
    ensures CountFor(xs, b) == |LapsedOf(p, b, now)|
  {
    hide Overdue, NeverPaid, InFlight;
    CountIsSize(xs, b);
    forall t | t in LapsedOf(p, b, now)
      ensures t in TradesFor(xs, b)
    {
      assert t in TradesOf(xs);
      var i :| 0 <= i < |xs| && xs[i].trade == t;
    }
    assert TradesFor(xs, b) == LapsedOf(p, b, now);
  }

  // ---- The pass -------------------------------------------------------------------------------------------

  /** The units went back to the listing and its slot is free. */
  predicate SlotReturned(x: Listing, y: Listing, units: nat) {
    && y.available == x.available + units && y.allotted == x.allotted - units
    && y.reserved == x.reserved && y.filled == x.filled && y.total == x.total
    && y.active.None? && y.leaseOwner.None? && y.leaseExpires.None?
  }

  /** The listing's slot is held by a trade that lapses. */
  predicate LosesSlot(s: Sys, l: ListingRef, now: Time)
    requires l in s.listings
  {
    s.listings[l].active.Some? && Lapsed(s.pay, s.listings[l].active.value, now)
  }

  ghost predicate PassTrades(s: Sys, r: Sys, now: Time) {
    && r.pay.trades.Keys == s.pay.trades.Keys
    && forall t :: t in s.pay.trades ==>
         r.pay.trades[t] == if Lapsed(s.pay, t, now) then ExpiredTrade(s.pay.trades[t]) else s.pay.trades[t]
  }

  ghost predicate PassAttempts(s: Sys, r: Sys, now: Time) {
    && r.pay.attempts.Keys == s.pay.attempts.Keys
    && forall ref :: ref in s.pay.attempts ==>
         r.pay.attempts[ref] == if LapsedAttempt(s.pay, ref, now)
                                then s.pay.attempts[ref].(status := AttemptExpired) else s.pay.attempts[ref]
  }

  predicate PassListing(s: Sys, r: Sys, l: ListingRef, now: Time)
    requires l in s.listings && l in r.listings
  {
    if LosesSlot(s, l, now)
    then s.listings[l].active.value in s.pay.trades
         && SlotReturned(s.listings[l], r.listings[l], s.pay.trades[s.listings[l].active.value].units)
    else r.listings[l] == s.listings[l]
  }

  ghost predicate PassListings(s: Sys, r: Sys, now: Time) {
    r.listings.Keys == s.listings.Keys && forall l :: l in s.listings ==> PassListing(s, r, l, now)
  }

  ghost predicate PassProfiles(s: Sys, r: Sys, now: Time) {
    forall b: Address :: ProfileOf(r, b) == Penalised(ProfileOf(s, b), |LapsedOf(s.pay, b, now)|, now)
  }

  /** What one pass does, over every order of visiting the trades. */
  ghost predicate PassEffect(s: Sys, r: Sys, now: Time) {
    && PassTrades(s, r, now) && PassAttempts(s, r, now) && PassListings(s, r, now) && PassProfiles(s, r, now)
    && r.guarantors == s.guarantors
  }

  lemma PassPayments(s: Sys, r: Sys, q: Tables, order: seq<TradeId>, now: Time)
    requires Inv(s) && Swept(s.pay, q, order, now) && forall t :: t in s.pay.trades <==> t in order
    requires r.pay == q.(jobs := r.pay.jobs)
    ensures PassTrades(s, r, now) && PassAttempts(s, r, now)
  {
    hide Lapsed, ExpiredTrade, LedgerOk, ProfilesOk, TermsOk, ColumnsOk, RowsOk;
    forall ref | ref in s.pay.attempts
      ensures s.pay.attempts[ref].tradeId in order
    {
      AttemptTrade(s.pay, ref);
    }
  }

  lemma PassBuyers(s: Sys, s1: Sys, r: Sys, order: seq<TradeId>, xs: seq<Expiration>, pending: set<TradeId>, now: Time)
    requires ExactList(s.pay, order, xs, now) && forall t :: t in s.pay.trades <==> t in order
    requires Settled(s1, r, xs, pending, now) && s1.profiles == s.profiles
    ensures PassProfiles(s, r, now)
  {
    hide Penalised, Lapsed, CountFor, LedgerOk, FreedListing, Consistent, LapsedOf;
    forall b: Address
      ensures ProfileOf(r, b) == Penalised(ProfileOf(s, b), |LapsedOf(s.pay, b, now)|, now)
    {
      ListCounts(s.pay, order, xs, b, now);
      assert ProfileOf(r, b) == Penalised(ProfileOf(s1, b), CountFor(xs, b), now);
    }
  }

  lemma SweptLedger(s: Sys, q: Tables, order: seq<TradeId>, xs: seq<Expiration>, now: Time)
    requires Inv(s) && Swept(s.pay, q, order, now) && ExactList(s.pay, order, xs, now)
    ensures LedgerOk(s.listings, s.queue, q.trades, TradesOf(xs))
    ensures forall t :: t in s.pay.trades ==> Moves(s.pay.trades[t], q.trades[t])
    ensures forall i :: 0 <= i < |xs| ==> xs[i].trade in q.trades && q.trades[xs[i].trade].stage == Cancelled
  {
    hide TablesOkExcept, LedgerOk, Consistent, NeverPaid, InFlight, SweptAttempt, TradesOf;
    TradesMove(s.listings, s.queue, s.pay.trades, q.trades, {}, TradesOf(xs));
  }

  lemma FreedIsReturned(s: Sys, ts: Trades, l: ListingRef, t: TradeId, now: Time)
    requires LedgerOk(s.listings, s.queue, ts, {}) && l in s.listings && s.listings[l].active == Some(t) && t in ts
    ensures SlotReturned(s.listings[l], FreeSlot(s.listings[l], ts[t].units, false), ts[t].units)
  {
    hide Convert, Sum;
    var x := s.listings[l];
    assert ListingOk(x, s.queue, l);
    var h :| Holds(s.queue, l, t, h);
    assert EntryTradeOk(ts, {}, s.queue[h]);
    SumContains(s.queue, h, l, InSlot);
  }

  lemma PassKeepsPayments(p: Tables, q: Tables, now: Time)
    requires TablesOk(p) && TablesOk(q) && RecordsKept(p, q)
    ensures var r := ProcessJobs(q, now); TablesOk(r) && RecordsKept(p, r) && r == q.(jobs := r.jobs)
  {
    hide TablesOkExcept;
    ProcessJobsKeeps(q, now);
    RecordsStillKept(p, q, ProcessJobs(q, now));
  }

  lemma ProfilesUntouched(s: Sys, r: Sys)
    requires ProfilesOk(s) && r.profiles == s.profiles
    ensures ProfilesOk(r)
  {
    hide Consistent;
  }

  lemma PassSlots(s: Sys, s1: Sys, r: Sys, q: Tables, order: seq<TradeId>, xs: seq<Expiration>, now: Time)
    requires Inv(s) && Swept(s.pay, q, order, now) && ExactList(s.pay, order, xs, now)
    requires (forall t :: t in s.pay.trades ==> t in order)
    requires s1 == s.(pay := q) && Settled(s1, r, xs, TradesOf(xs), now)
    ensures PassListings(s, r, now)
  {
    hide TablesOkExcept, LedgerOk, ProfilesOk, FreeSlot, Lapsed, SweptAttempt, SlotReturned, ProfileOf, Penalised;
    forall l | l in s.listings
      ensures PassListing(s, r, l, now)
    {
      var x := s.listings[l];
      if x.active.Some? {
        SlotTrade(s, l);
        FreedIsReturned(s, s.pay.trades, l, x.active.value, now);
        UnitsStay(s.pay, q, order, x.active.value, now);
      }
    }
  }

  lemma SlotTrade(s: Sys, l: ListingRef)
    requires Inv(s) && l in s.listings && s.listings[l].active.Some?
    ensures s.listings[l].active.value in s.pay.trades
  {
    hide TablesOkExcept, ProfilesOk, EntryOk, Sum;
    assert ListingOk(s.listings[l], s.queue, l);
    var h :| Holds(s.queue, l, s.listings[l].active.value, h);
    assert EntryTradeOk(s.pay.trades, {}, s.queue[h]);
  }

  lemma UnitsStay(p: Tables, q: Tables, order: seq<TradeId>, t: TradeId, now: Time)
    requires Swept(p, q, order, now) && t in p.trades
    ensures t in q.trades && q.trades[t].units == p.trades[t].units
  {}

  lemma FreedActive(ls: Listings, ts: Trades, gone: set<TradeId>, l: ListingRef)
    requires l in ls
    ensures FreedListing(ls, ts, gone, l).active in {None, ls[l].active}
    ensures SameOffer(ls[l], FreedListing(ls, ts, gone, l))
  {
    if ls[l].active.Some? && ls[l].active.value in ts { SlotCleared(ls[l], ts[ls[l].active.value].units, false); }
  }

  lemma PassEvolves(s: Sys, r: Sys, ts: Trades, gone: set<TradeId>)
    requires TablesOk(r.pay) && LedgerOk(r.listings, r.queue, r.pay.trades, {}) && ProfilesOk(r)
    requires RecordsKept(s.pay, r.pay) && r.pay.config == s.pay.config
    requires forall t :: t in s.pay.trades ==> t in r.pay.trades && Moves(s.pay.trades[t], r.pay.trades[t])
    requires r.listings.Keys == s.listings.Keys
    requires forall l :: l in s.listings ==> r.listings[l] == FreedListing(s.listings, ts, gone, l)
    ensures Inv(r) && Evolves(s, r)
  {
    hide TablesOkExcept, LedgerOk, ProfilesOk, Moves, RecordsKept, FreedListing;
    forall t: TradeId | Serves(r.listings, t)
      ensures Serves(s.listings, t)
    {
      var l :| l in r.listings && r.listings[l].active == Some(t);
      FreedActive(s.listings, ts, gone, l);
      assert s.listings[l].active == Some(t);
    }
    forall l | l in s.listings
      ensures SameOffer(s.listings[l], r.listings[l])
    {
      FreedActive(s.listings, ts, gone, l);
    }
  }

  /** One pass, in any order of visiting: it cancels exactly the lapsed trades and leaves every other
      trade as it was; each cancelled child gives its units and its slot back to its listing, no other
      listing changes; and each buyer is penalised once for each of their lapsed trades. */
  lemma PassIsExact(s: Sys, order: seq<TradeId>, hints: seq<Visit>, now: Time)
    requires Inv(s) && Distinct(order) && forall t :: t in s.pay.trades <==> t in order
    ensures var r := ReconcilePass(s, order, hints, now);
            Inv(r) && Evolves(s, r) && PassEffect(s, r, now)
  {
    hide Inv, TablesOkExcept, LedgerOk, Sweep, Expirations, SettleExpirations, RecordsKept, Lapsed, ProcessJobs,
         Evolves, ProfilesOk, Moves, ExactList, Swept, PassTrades, PassAttempts, PassListings, PassProfiles, TradesOf,
             FreedListing, ProfileOf;
    var q, xs := Sweep(s.pay, order, now), Expirations(s.pay, order, now);
    InvParts(s);
    SweepIsExact(s.pay, order, now);
    ExpirationsAreExact(s.pay, order, now);
    SweptLedger(s, q, order, xs, now);
    var s1 := s.(pay := q);
    ProfilesUntouched(s, s1);
    ExactCancelled(s.pay, q, order, xs, now);
    SettlingIsExact(s1, xs, hints, now, TradesOf(xs));
    var s2 := SettleExpirations(s1, xs, hints, now);
    assert TradesOf(xs) - TradesOf(xs) == {};
    PassKeepsPayments(s.pay, q, now);
    var r := ReconcilePass(s, order, hints, now);
    ProfilesUntouched(s2, r);
    SweptConfig(s.pay, q, order, now);
    PassEvolves(s, r, s1.pay.trades, TradesOf(xs));
    PassPayments(s, r, q, order, now);
    PassBuyers(s, s1, s2, order, xs, TradesOf(xs), now);
    PassSlots(s, s1, s2, q, order, xs, now);
    SamePassColumns(s, s2, r, now);
  }

  lemma InvParts(s: Sys)
    requires Inv(s)
    ensures TablesOk(s.pay) && ProfilesOk(s)
  {}

  lemma SweptConfig(p: Tables, q: Tables, order: seq<TradeId>, now: Time)
    requires Swept(p, q, order, now)
    ensures q.config == p.config && q.trades.Keys == p.trades.Keys
  {}

  lemma ExactCancelled(p: Tables, q: Tables, order: seq<TradeId>, xs: seq<Expiration>, now: Time)
    requires ExactList(p, order, xs, now) && Swept(p, q, order, now)
    ensures forall i, j :: 0 <= i < j < |xs| ==> xs[i].trade != xs[j].trade
    ensures forall i :: 0 <= i < |xs| ==> !xs[i].outage
  {}

  lemma SamePassColumns(s: Sys, m: Sys, r: Sys, now: Time)
    requires PassListings(s, m, now) && PassProfiles(s, m, now)
    requires r == m.(pay := r.pay)
    ensures PassListings(s, r, now) && PassProfiles(s, r, now)
  {
    hide Lapsed, SlotReturned, Penalised, LapsedOf;
    forall b: Address
      ensures ProfileOf(r, b) == ProfileOf(m, b)
    {}
    forall l | l in s.listings
      ensures PassListing(s, r, l, now)
    {
      assert PassListing(s, m, l, now);
    }
  }

  /** In numbers: below the 32-bit limit a buyer's expiry counter and streak grow by exactly the number
      of their lapsed trades. */
  lemma PassCounts(s: Sys, order: seq<TradeId>, hints: seq<Visit>, b: Address, now: Time)
    requires Inv(s) && Distinct(order) && forall t :: t in s.pay.trades <==> t in order
    requires var c, n := ProfileOf(s, b).counters, |LapsedOf(s.pay, b, now)|;
             c.expiries + n < 0x1_0000_0000 && c.streak + n < 0x1_0000_0000
    ensures var c, n := ProfileOf(s, b).counters, |LapsedOf(s.pay, b, now)|;
            var d := ProfileOf(ReconcilePass(s, order, hints, now), b).counters;
            d.expiries == c.expiries + n && d.streak == c.streak + n && d.completed == c.completed
  {
    hide Inv, Evolves, ReconcilePass, Penalised, LapsedOf;
    PassIsExact(s, order, hints, now);
    PenaltiesCount(ProfileOf(s, b), |LapsedOf(s.pay, b, now)|, now);
  }
}
