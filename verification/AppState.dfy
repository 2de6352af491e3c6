/** The service's shared state and its handlers, updated in place as the source does. Each method is
    proved to do exactly what the corresponding function of the system model describes
    (rust/src/payments_api.rs, rust/src/state.rs). */
module AppState {
  import opened Core
  import opened Text
  import opened Lifecycle
  import opened Flutterwave
  import opened Payments
  import opened Ledger
  import opened Trust
  import opened System

  lemma SameReusable(p: Tables, q: Tables, tid: TradeId, now: Time)
    requires q == p.(trades := q.trades)
    ensures Reusable(p, tid, now) == Reusable(q, tid, now)
  {}

  /** The attempt overwrites whatever the checkout has already written to the trade. */
  lemma StartAttemptAgain(
    p: Tables, tid: TradeId, t: Trade, caller: Address, ref: TxRef, deadline: Time, answer: CheckoutReply, now: Time)
    ensures StartAttempt(p.(trades := p.trades[tid := t]), tid, t, caller, ref, deadline, answer, now)
         == StartAttempt(p, tid, t, caller, ref, deadline, answer, now)
  {
    assert p.trades[tid := t][tid := t.(payment := CheckoutCreated)] == p.trades[tid := t.(payment := CheckoutCreated)];
  }

  lemma SameCounts(s: Sys, r: Sys, buyer: Address, units: U128, now: Time)
    requires r == s.(profiles := r.profiles)
    ensures UnpaidTrades(r, buyer) == UnpaidTrades(s, buyer) && WaitingEntries(r, buyer) == WaitingEntries(s, buyer)
    ensures Backed(r, buyer, units, now) == Backed(s, buyer, units, now)
  {}

  lemma ResolveSparesPayments(s: Sys, tid: TradeId, completed: bool, hint: Visit, now: Time)
    ensures var r := Resolve(s, tid, completed, hint, now);
            r == s.(listings := r.listings, queue := r.queue)
  {
    hide FreeSlot, SettleEntries, Promote;
  }

  /** Settling looks at no more hints than there are expirations. */
  lemma {:induction false} HintsBeyondIgnored(s: Sys, xs: seq<Expiration>, hints: seq<Visit>, hint: Visit, now: Time)
    requires |hints| >= |xs|
    ensures SettleExpirations(s, xs, hints + [hint], now) == SettleExpirations(s, xs, hints, now)
  {
    hide Resolve, Penalise;
    if xs == [] {
    } else {
      HintsBeyondIgnored(s, xs[..|xs| - 1], hints, hint, now);
    }
  }

  lemma SettleOneMore(s: Sys, xs: seq<Expiration>, hints: seq<Visit>, hint: Visit, now: Time)
    requires |xs| == |hints| + 1
    ensures var n := |hints|;
            SettleExpirations(s, xs, hints + [hint], now)
            == Penalise(Resolve(SettleExpirations(s, xs[..n], hints, now), xs[n].trade, false, hint, now), xs[n], now)
  {
    hide Resolve, Penalise;
    HintsBeyondIgnored(s, xs[..|hints|], hints, hint, now);
  }

  lemma {:induction false} SettlingSparesPayments(s: Sys, xs: seq<Expiration>, hints: seq<Visit>, now: Time)
    ensures var r := SettleExpirations(s, xs, hints, now); r.pay == s.pay && r.guarantors == s.guarantors
  {
    hide Resolve, AfterExpiration;
    if xs == [] {
    } else {
      var n := |xs| - 1;
      SettlingSparesPayments(s, xs[..n], hints, now);
      ResolveSparesPayments(SettleExpirations(s, xs[..n], hints, now), xs[n].trade, false, HintAt(hints, n), now);
    }
  }

  lemma RenumberNothing(q: Queue, order: seq<QueueRef>, busy: bool, now: Time)
    ensures Renumbered(q, order[..0], busy, now) == q
  {}

  class AppState {
    const config: Config
    var trades: map<TradeId, Trade>
    var attempts: map<TxRef, Attempt>
    var checkout: map<TradeId, TxRef>
    var consumed: map<FlwTxId, TradeId>
    var inbox: map<EventId, InboxStatus>
    var jobs: map<JobKey, Job>
    var payouts: map<TradeId, PayoutRow>
    var refunds: map<TradeId, RefundRow>
    var releases: map<TradeId, ReleaseRow>
    var listings: Listings
    var queue: Queue
    var profiles: map<Address, Profile>
    var guarantors: map<nat, Guarantor>

    ghost function Pay(): Tables
      reads this
    {
      Tables(config, trades, attempts, checkout, consumed, inbox, jobs, payouts, refunds, releases)
    }

    ghost function Model(): Sys
      reads this
    {
      Sys(Pay(), listings, queue, profiles, guarantors)
    }

    constructor (config: Config)
      ensures Model() == Empty(config)
    {
      this.config := config;
      trades, attempts, checkout, consumed, inbox := map[], map[], map[], map[], map[];
      jobs, payouts, refunds, releases := map[], map[], map[], map[];
      listings, queue, profiles, guarantors := map[], map[], map[], map[];
    }

    // ---- Outbox --------------------------------------------------------------------------------------

    method EnqueueOutboxJob(key: JobKey, now: Time)
      modifies this`jobs
      ensures jobs == EnqueueOnce(old(jobs), key, config.maxRetries, now)
    {
      if key !in jobs {
        jobs := jobs[key := Job(JobPending, 0, config.maxRetries, now)];
      }
    }

    // ---- Checkout and verification ---------------------------------------------------------------------

    /** Stores a fresh attempt before asking the provider for a hosted page, and its link afterwards. */
    method OpenAttempt(
      tid: TradeId, t: Trade, caller: Address, ref: TxRef, deadline: Time, answer: CheckoutReply, now: Time)
      returns (reply: Reply)
      modifies this`trades, this`attempts, this`checkout, this`jobs
      ensures (Pay(), reply) == StartAttempt(old(Pay()), tid, t, caller, ref, deadline, answer, now)
    {
      var attempt := Attempt(tid, caller, ref, None, t.fiatMinor, t.currency, None, None, false, Initiated, None,
                             deadline, None);
      attempts := attempts[ref := attempt];
      checkout := checkout[tid := ref];
      trades := trades[tid := t.(payment := CheckoutCreated)];
      match answer {
        case HostedLink =>
          attempts := attempts[ref := attempt.(hasUrl := true, status := RedirectReady)];
          assert attempts == old(attempts)[ref := attempts[ref]];
          reply := Done;
        case NoLink =>
          reply := Refused(ProviderUnavailable);
        case ProviderTimeout =>
          EnqueueOutboxJob(VerifyTimeoutJob(ref), now);
          reply := Refused(ProviderUnavailable);
      }
    }

    method HasReusableAttempt(tid: TradeId, now: Time) returns (b: bool)
      ensures b == Reusable(Pay(), tid, now)
    {
      if tid !in checkout || checkout[tid] !in attempts { return false; }
      var existing := attempts[checkout[tid]];
      b := existing.expiresAt > now && existing.status in {Initiated, RedirectReady, AttemptPending} && existing.hasUrl;
    }

    method InitFlutterwaveCheckout(tid: TradeId, caller: Address, ref: TxRef, answer: CheckoutReply, now: Time)
      returns (reply: Reply)
      modifies this`trades, this`attempts, this`checkout, this`jobs
      ensures (Pay(), reply) == InitCheckout(old(Pay()), tid, caller, ref, answer, now)
    {
      if tid !in trades { return Refused(TradeNotFound); }
      hide Reusable, StartAttempt;
      var t := trades[tid];
      if t.seller == caller { return Refused(SellerCannotPay); }
      if t.buyer.Some? && t.buyer.value != caller { return Refused(NotTradeBuyer); }
      t := t.(buyer := Some(caller));
      trades := trades[tid := t];
      if t.stage != AwaitingPayment { return Refused(NotAwaitingPayment); }
      var deadline := OrElse(t.deadline, now + 60 * config.timeoutMinutes);
      if now >= deadline { return Refused(DeadlineExpired); }
      t := t.(deadline := Some(deadline));
      trades := trades[tid := t];
      assert trades == old(trades)[tid := t];
      var reusable := HasReusableAttempt(tid, now);
      assert reusable == Reusable(old(Pay()), tid, now) by { SameReusable(old(Pay()), Pay(), tid, now); }
      if reusable { return Done; }
      reply := OpenAttempt(tid, t, caller, ref, deadline, answer, now);
      StartAttemptAgain(old(Pay()), tid, t, caller, ref, deadline, answer, now);
    }

    /** Writes the outcome of a verification to the trade, the attempt and the spent transactions. */
    method RecordOutcome(tid: TradeId, t0: Trade, a0: Attempt, v: Verified, j: Judgement, now: Time)
      returns (t: Trade, a: Attempt)
      modifies this`consumed, this`jobs
      ensures t == JudgedTrade(t0, j) && a == JudgedAttempt(a0, v, j, now)
      ensures consumed == if Spends(j.outcome) then old(consumed)[v.flwTxId := tid] else old(consumed)
      ensures jobs == if ConfirmsInTime(j.outcome) && t0.stage == AwaitingPayment
                      then EnqueueOnce(old(jobs), PayoutJob(tid), config.maxRetries, now) else old(jobs)
    {
      t := t0;
      a := a0.(
        flwTxId := Some(v.flwTxId),
        settledMinor := Some(OrElse(v.settledMinor, v.amountMinor)),
        feeMinor := v.feeMinor,
        status := j.attempt);
      match j.outcome {
        case PaidInFull(_, _, _, false) =>
          consumed := consumed[v.flwTxId := tid];
          a := a.(verifiedAt := Some(now));
          t := t.(payment := Confirmed);
          if t.stage == AwaitingPayment {
            t := t.(stage := PaymentConfirmed, version := WrapAdd32(t.version, 1));
            EnqueueOutboxJob(PayoutJob(tid), now);
          }
        case PaidInFull(_, _, _, true) =>
          consumed := consumed[v.flwTxId := tid];
          a := a.(verifiedAt := Some(now));
          t := t.(payment := LateConfirmed);
          if t.stage == AwaitingPayment || t.stage == Cancelled {
            t := t.(stage := LatePaymentReview, version := WrapAdd32(t.version, 1));
          }
        case TooLittle(_, _, _) =>
          consumed := consumed[v.flwTxId := tid];
          t := t.(payment := Underpaid);
          a := a.(failure := Some(UnderpaidCode));
        case TooMuch(_, _, _) =>
          consumed := consumed[v.flwTxId := tid];
          t := t.(payment := Overpaid);
          a := a.(failure := Some(OverpaidCode));
        case StillPending(_) =>
          t := t.(payment := j.payment);
        case NotPaid =>
          t := t.(payment := PaymentFailed);
          a := a.(failure := Some(ProviderFailedCode));
      }
    }

    method ApplyVerifiedPaymentToTrade(tid: TradeId, ref: TxRef, parsed: Option<Verified>, now: Time)
        returns (reply: Reply)
      modifies this`trades, this`attempts, this`consumed, this`jobs
      ensures (Pay(), reply) == ApplyVerified(old(Pay()), tid, ref, parsed, now)
    {
      hide EvaluateVerified, JudgedTrade, JudgedAttempt;
      if parsed.None? { return Refused(ProviderRejected); }
      var v := parsed.value;
      if v.flwTxId in consumed && consumed[v.flwTxId] != tid { return Refused(TransactionAlreadyUsed); }
      if ref !in attempts { return Refused(AttemptNotFound); }
      var a := attempts[ref];
      if a.tradeId != tid { return Refused(CrossTradeReference); }
      if tid !in trades { return Refused(TradeNotFound); }
      var t := trades[tid];
      if a.status == AttemptVerified && t.payment == Confirmed && a.flwTxId == Some(v.flwTxId) { return Done; }
      var judged := EvaluateVerified(a, v, t.deadline, now);
      if judged.Err? { return Refused(judged.error); }
      t, a := RecordOutcome(tid, t, a, v, judged.value, now);
      attempts := attempts[ref := a];
      trades := trades[tid := t];
      reply := Done;
    }

    method VerifyFlutterwavePayment(tid: TradeId, ref: TxRef, caller: Option<Address>, fetch: Fetch, now: Time)
      returns (reply: Reply)
      modifies this`trades, this`attempts, this`consumed, this`jobs
      ensures (Pay(), reply) == VerifyPayment(old(Pay()), tid, ref, caller, fetch, now)
    {
      if ref !in attempts { return Refused(AttemptNotFound); }
      if attempts[ref].tradeId != tid { return Refused(CrossTradeReference); }
      if caller.Some? {
        if tid !in trades { return Refused(TradeNotFound); }
        if trades[tid].buyer != caller && trades[tid].seller != caller.value { return Refused(NotTradeParticipant); }
      }
      match fetch {
        case Payload(parsed) =>
          reply := ApplyVerifiedPaymentToTrade(tid, ref, parsed, now);
        case Unavailable =>
          EnqueueOutboxJob(RetryVerifyJob(ref), now);
          reply := Refused(ProviderUnavailable);
        case NotVerifiable =>
          reply := Refused(ProviderRejected);
        case NotConfigured =>
          reply := Refused(ProviderUnavailable);
      }
    }

    method HandleFlutterwaveWebhook(event: EventId, ref: Option<TxRef>, parsed: Option<Verified>, now: Time)
      returns (reply: Reply)
      modifies this`trades, this`attempts, this`consumed, this`jobs, this`inbox
      ensures (Pay(), reply) == Webhook(old(Pay()), event, ref, parsed, now)
    {
      if event in inbox { return Done; }
      if ref.Some? && ref.value in attempts {
        reply := ApplyVerifiedPaymentToTrade(attempts[ref.value].tradeId, ref.value, parsed, now);
        inbox := inbox[event := if reply.Done? then EventProcessed else EventFailed];
        return;
      }
      inbox := inbox[event := EventIgnored];
      reply := Done;
    }

    // ---- Payout, refund, release -------------------------------------------------------------------------

    method InitiateSellerPayout(tid: TradeId) returns (reply: Reply)
      modifies this`trades, this`payouts
      ensures (Pay(), reply) == PayoutInitiate(old(Pay()), tid)
    {
      if tid !in trades { return Refused(TradeNotFound); }
      var t := trades[tid];
      if t.payment != Confirmed { return Refused(PaymentNotConfirmed); }
      if t.stage !in {PaymentConfirmed, PayoutOnHold, SellerPayoutPending} { return Refused(InvalidStateForPayout); }
      var attempt := 1;
      if tid in payouts { attempt := WrapAdd32(payouts[tid].attempts, 1); }
      if t.stage != SellerPayoutPending {
        t := t.(stage := SellerPayoutPending, version := WrapAdd32(t.version, 1));
      }
      t := t.(payout := PayoutProcessing);
      trades := trades[tid := t];
      payouts := payouts[tid := PayoutRow(PayoutProcessing, attempt, t.fiatMinor)];
      reply := Done;
    }

    method ConfirmSellerPayout(tid: TradeId, status: string, now: Time) returns (reply: Reply)
      modifies this`trades, this`payouts, this`jobs
      ensures (Pay(), reply) == PayoutConfirm(old(Pay()), tid, status, now)
    {
      if tid !in trades { return Refused(TradeNotFound); }
      var t := trades[tid];
      if t.stage !in {SellerPayoutPending, PaymentConfirmed, PayoutOnHold} { return Refused(InvalidStateForPayout); }
      if PayoutStatusOf(status) != PayoutConfirmed { return Refused(ProviderRejected); }
      if t.stage == PaymentConfirmed {
        t := t.(stage := SellerPayoutPending, version := WrapAdd32(t.version, 1));
      }
      t := t.(stage := SellerPayoutConfirmed, version := WrapAdd32(t.version, 1));
      t := t.(payout := PayoutConfirmed);
      trades := trades[tid := t];
      if tid !in payouts {
        payouts := payouts[tid := PayoutRow(PayoutConfirmed, 1, t.fiatMinor)];
      }
      payouts := payouts[tid := payouts[tid].(status := PayoutConfirmed)];
      assert payouts == old(payouts)[tid := payouts[tid]];
      EnqueueOutboxJob(ReleaseJob(tid), now);
      reply := Done;
    }

    method HoldSellerPayout(tid: TradeId) returns (reply: Reply)
      modifies this`trades, this`payouts
      ensures (Pay(), reply) == PayoutHold(old(Pay()), tid)
    {
      if tid !in trades { return Refused(TradeNotFound); }
      var t := trades[tid];
      if !CanTransitionTo(t.stage, PayoutOnHold) { return Refused(IllegalTransition); }
      t := t.(stage := PayoutOnHold, version := WrapAdd32(t.version, 1));
      t := t.(payout := PayoutHeld);
      trades := trades[tid := t];
      if tid !in payouts {
        payouts := payouts[tid := PayoutRow(PayoutHeld, 1, t.fiatMinor)];
      }
      payouts := payouts[tid := payouts[tid].(status := PayoutHeld)];
      assert payouts == old(payouts)[tid := payouts[tid]];
      reply := Done;
    }

    method RequestTradeRefund(tid: TradeId) returns (reply: Reply)
      modifies this`trades, this`refunds
      ensures (Pay(), reply) == RefundRequest(old(Pay()), tid)
    {
      if tid !in trades { return Refused(TradeNotFound); }
      var t := trades[tid];
      if t.stage !in {PayoutOnHold, LatePaymentReview, PaymentConfirmed, AwaitingPayment} {
        return Refused(InvalidStateForRefund);
      }
      t := t.(stage := RefundPending, version := WrapAdd32(t.version, 1));
      t := t.(refund := RefundRequested);
      trades := trades[tid := t];
      refunds := refunds[tid := RefundRow(RefundRequested, t.fiatMinor)];
      reply := Done;
    }

    method RequestEscrowRelease(tid: TradeId, txHash: Option<Hash>, proof: Option<Hash>) returns (reply: Reply)
      modifies this`trades, this`releases
      ensures (Pay(), reply) == RequestRelease(old(Pay()), tid, txHash, proof)
    {
      if tid !in trades { return Refused(TradeNotFound); }
      var t := trades[tid];
      if !ReleaseEligible(t) { return Refused(ReleaseGateClosed); }
      t := t.(stage := ReleasePending, version := WrapAdd32(t.version, 1));
      t := t.(escrow := EscrowReleasePending);
      t := t.(releaseHash := txHash);
      t := t.(proofId := proof);
      trades := trades[tid := t];
      releases := releases[tid := ReleaseRow(Submitted, txHash)];
      reply := Done;
    }

    method HoldEscrowRelease(tid: TradeId, txHash: Option<Hash>) returns (reply: Reply)
      modifies this`trades, this`releases
      ensures (Pay(), reply) == HoldRelease(old(Pay()), tid, txHash)
    {
      if tid !in trades { return Refused(TradeNotFound); }
      var t := trades[tid];
      if t.stage !in {ReleasePending, SellerPayoutConfirmed, ReleaseOnHold} { return Refused(InvalidStateForHold); }
      t := t.(stage := ReleaseOnHold, version := WrapAdd32(t.version, 1));
      t := t.(escrow := EscrowOnHold);
      trades := trades[tid := t];
      if tid !in releases {
        releases := releases[tid := ReleaseRow(UncertainOnHold, txHash)];
      }
      releases := releases[tid := releases[tid].(status := UncertainOnHold)];
      assert releases == old(releases)[tid := releases[tid]];
      reply := Done;
    }

    // ---- Admission -------------------------------------------------------------------------------------------

    method GetOrInitTrustProfile(a: Address) returns (p: Profile)
      modifies this`profiles
      ensures p == ProfileOf(old(Model()), a) && profiles == old(profiles)[a := p]
    {
      if a !in profiles {
        profiles := profiles[a := NewProfile()];
      }
      p := profiles[a];
      assert profiles == old(profiles)[a := p];
    }

    method CountUnpaidTrades(buyer: Address) returns (n: nat)
      ensures n == |UnpaidTrades(Model(), buyer)|
    {
      var left := trades.Keys;
      ghost var seen: set<TradeId> := {};
      n := 0;
      while left != {}
        invariant left <= trades.Keys
        invariant seen == (set t | t in trades && t !in left && UnpaidTrade(trades[t], buyer))
        invariant n == |seen|
        decreases |left|
      {
        var t :| t in left;
        left := left - {t};
        if UnpaidTrade(trades[t], buyer) {
          n := n + 1;
          seen := seen + {t};
        }
      }
      assert seen == UnpaidTrades(Model(), buyer);
    }

    method CountWaitingEntries(buyer: Address) returns (n: nat)
      ensures n == |WaitingEntries(Model(), buyer)|
    {
      var left := queue.Keys;
      ghost var seen: set<QueueRef> := {};
      n := 0;
      while left != {}
        invariant left <= queue.Keys
        invariant seen == (set k | k in queue && k !in left && queue[k].buyer == buyer
                           && queue[k].status in {Queued, Eligible})
        invariant n == |seen|
        decreases |left|
      {
        var k :| k in left;
        left := left - {k};
        if queue[k].buyer == buyer && queue[k].status in {Queued, Eligible} {
          n := n + 1;
          seen := seen + {k};
        }
      }
      assert seen == WaitingEntries(Model(), buyer);
    }

    method HasActiveGuarantor(buyer: Address, units: U128, now: Time) returns (found: bool)
      ensures found == Backed(Model(), buyer, units, now)
    {
      var left := guarantors.Keys;
      while left != {}
        invariant left <= guarantors.Keys
        invariant forall g :: g in guarantors && g !in left ==>
                    !(guarantors[g].beneficiary == buyer && guarantors[g].expiresAt > now
                      && guarantors[g].maxBacked >= units)
        decreases |left|
      {
        var g :| g in left;
        left := left - {g};
        if guarantors[g].beneficiary == buyer && guarantors[g].expiresAt > now && guarantors[g].maxBacked >= units {
          return true;
        }
      }
      found := false;
    }

    /** The rate limiters' verdict comes from the caller. */
    method ValidateBuyerEligibility(buyer: Address, units: U128, limiterOk: bool, now: Time) returns (reply: Reply)
      modifies this`profiles
      ensures (Model(), reply) == Admit(old(Model()), buyer, units, limiterOk, now)
    {
      hide UnpaidTrades, WaitingEntries, Backed;
      if !limiterOk { return Refused(TooManyRequests); }
      var profile := GetOrInitTrustProfile(buyer);
      SameCounts(old(Model()), Model(), buyer, units, now);
      if CoolingDown(profile, now) { return Refused(BuyerCooldown); }
      var unpaid := CountUnpaidTrades(buyer);
      var waiting := CountWaitingEntries(buyer);
      if unpaid + waiting >= profile.policy.concurrent { return Refused(BuyerAtCap); }
      var backed := HasActiveGuarantor(buyer, units, now);
      var limit := profile.policy.limit;
      if backed {
        limit := HIGH_LIMIT;
      } else if profile.counters.verification == Verification.Verified {
        limit := if limit < ESTABLISHED_LIMIT then ESTABLISHED_LIMIT else limit;
      }
      if units > limit { return Refused(TrustLimitExceeded); }
      if && units >= LARGE_TRADE_THRESHOLD && profile.policy.tier !in {Established, HighLimit}
         && profile.counters.verification != Verification.Verified && !backed
      {
        return Refused(LargeTradeNeedsBacking);
      }
      reply := Done;
    }

    method CreateOrRegisterTrade(
      tid: TradeId, seller: Address, buyer: Address, units: U128, rateMinor: U128, currency: string,
      limiterOk: bool, now: Time)
      returns (reply: Reply)
      modifies this`profiles, this`trades
      ensures (Model(), reply) == Register(old(Model()), tid, seller, buyer, units, rateMinor, currency, limiterOk, now)
    {
      hide Eligibility, NewAwaitingPayment;
      if tid in trades { return Done; }
      reply := ValidateBuyerEligibility(buyer, units, limiterOk, now);
      if reply != Done { return; }
      var created := NewAwaitingPayment(seller, buyer, units, rateMinor, currency, config.timeoutMinutes, now);
      if created.Err? { return Refused(created.error); }
      trades := trades[tid := created.value];
    }

    // ---- Listings and the queue --------------------------------------------------------------------------------

    method CreateSellerListing(l: ListingRef, seller: Address, total: U128, rateMinor: U128, currency: string)
      returns (reply: Reply)
      modifies this`listings
      ensures (Model(), reply) == CreateListing(old(Model()), l, seller, total, rateMinor, currency)
    {
      if total == 0 || rateMinor == 0 { return Refused(BadRequest); }
      if l in listings { return Done; }
      var x := Listing(seller, total, total, 0, 0, 0, 0, Upper(currency), rateMinor, Active, None, None, None);
      if !Conserves(x) { return Refused(InventoryMismatch); }
      listings := listings[l := x];
      reply := Done;
    }

    method CountWaiting(l: ListingRef) returns (n: nat)
      ensures n == |WaitingKeys(queue, l)|
    {
      var left := queue.Keys;
      ghost var seen: set<QueueRef> := {};
      n := 0;
      while left != {}
        invariant left <= queue.Keys
        invariant seen == (set k | k in queue && k !in left && IsWaiting(queue[k], l))
        invariant n == |seen|
        decreases |left|
      {
        var k :| k in left;
        left := left - {k};
        if IsWaiting(queue[k], l) {
          n := n + 1;
          seen := seen + {k};
        }
      }
      assert seen == WaitingKeys(queue, l);
    }

    method RequestListingOrder(
      l: ListingRef, buyer: Address, units: U128, child: TradeId, qref: QueueRef, limiterOk: bool, now: Time)
      returns (reply: Reply)
      modifies this`profiles, this`listings, this`queue, this`trades
      ensures (Model(), reply) == Order(old(Model()), l, buyer, units, child, qref, limiterOk, now)
    {
      hide Eligibility, NewAwaitingPayment, Convert, Conserves, HasActiveSlot, WaitingKeys;
      if units == 0 { return Refused(BadRequest); }
      reply := ValidateBuyerEligibility(buyer, units, limiterOk, now);
      if reply != Done { return; }
      if l !in listings { return Refused(ListingNotFound); }
      var x := listings[l];
      if x.status != Active { return Refused(ListingNotActive); }
      if x.seller == buyer { return Refused(OwnListing); }
      if units > x.available { return Refused(ExceedsAvailable); }
      var quoted := Convert(units, x.rateMinor);
      if quoted.None? || quoted.value < MIN_FIAT_MINOR { return Refused(BadRequest); }
      if !HasActiveSlot(x, now) {
        var created :=
          NewAwaitingPayment(x.seller, buyer, units, x.rateMinor, x.currency, config.timeoutMinutes, now);
        if created.Err? { return Refused(created.error); }
        x := x.(available := x.available - units);
        x := x.(allotted := WrapAdd(x.allotted, units));
        x := x.(active := Some(child));
        x := x.(leaseOwner := Some(buyer));
        x := x.(leaseExpires := created.value.deadline);
        listings := listings[l := x];
        if !Conserves(x) { return Refused(InventoryMismatch); }
        trades := trades[child := created.value];
        queue := queue[qref :=
          Entry(l, buyer, units, quoted.value, x.rateMinor, 0, ActiveSlot, Some(child), None, now)];
      } else {
        x := x.(available := x.available - units);
        x := x.(reserved := WrapAdd(x.reserved, units));
        listings := listings[l := x];
        if !Conserves(x) { return Refused(InventoryMismatch); }
        var waiting := CountWaiting(l);
        queue := queue[qref :=
          Entry(l, buyer, units, quoted.value, x.rateMinor, waiting + 1, Queued, None, None, now)];
      }
    }

    /** The first of a set of entries in (position, creation time) order. */
    method FirstOf(keys: set<QueueRef>) returns (first: QueueRef)
      requires keys != {} && keys <= queue.Keys
      ensures IsFirst(queue, keys, first)
    {
      first :| first in keys;
      var left := keys - {first};
      while left != {}
        invariant left <= keys && first in keys && first !in left
        invariant forall k :: k in keys && k !in left ==> Precedes(queue[first], queue[k])
        decreases |left|
      {
        var k :| k in left;
        left := left - {k};
        if !Precedes(queue[first], queue[k]) {
          first := k;
        }
      }
    }

    /** The waiting entries of a listing, sorted. */
    method SortedWaiting(l: ListingRef) returns (order: seq<QueueRef>)
      ensures IsOrder(queue, WaitingKeys(queue, l), order)
      ensures forall i :: 0 <= i < |order| ==> order[i] in queue
    {
      var keys := set k | k in queue && IsWaiting(queue[k], l);
      var left := keys;
      order := [];
      while left != {}
        invariant left <= keys
        invariant forall k :: k in order <==> k in keys - left
        invariant forall i :: 0 <= i < |order| ==> order[i] in queue
        invariant forall i, j :: 0 <= i < j < |order| ==> order[i] != order[j]
        invariant forall i, j :: 0 <= i < j < |order| ==> Precedes(queue[order[i]], queue[order[j]])
        invariant forall i, k :: 0 <= i < |order| && k in left ==> Precedes(queue[order[i]], queue[k])
        decreases |left|
      {
        var k := FirstOf(left);
        assert k !in order;
        left := left - {k};
        order := order + [k];
      }
    }

    /** Numbers the listed entries from 1; the first becomes eligible if the slot is free. */
    method Renumber(order: seq<QueueRef>, busy: bool, now: Time)
      requires forall i :: 0 <= i < |order| ==> order[i] in queue
      requires forall i, j :: 0 <= i < j < |order| ==> order[i] != order[j]
      modifies this`queue
      ensures queue == Renumbered(old(queue), order, busy, now)
    {
      hide Renumbered;
      ghost var q0 := queue;
      RenumberNothing(q0, order, busy, now);
      for i := 0 to |order|
        invariant queue == Renumbered(q0, order[..i], busy, now)
        invariant queue.Keys == q0.Keys
        invariant forall j :: i <= j < |order| ==> queue[order[j]] == q0[order[j]]
      {
        RenumberStep(q0, order, i, busy, now);
        var e := queue[order[i]];
        e := e.(position := i + 1);
        if i == 0 && e.status == Queued && !busy {
          e := e.(status := Eligible);
          e := e.(consentDeadline := Some(now + CONSENT_WINDOW));
        }
        queue := queue[order[i] := e];
      }
      assert order[..|order|] == order;
    }

    /** Renumbers a listing's waiting entries in the order in which they stand. */
    method RenumberWaiting(l: ListingRef, busy: bool, now: Time) returns (ghost order: seq<QueueRef>)
      modifies this`queue
      ensures queue == Renumbered(old(queue), OrderOf(old(queue), WaitingKeys(old(queue), l), order), busy, now)
    {
      hide Renumbered, WaitingKeys;
      var remaining := SortedWaiting(l);
      order := remaining;
      Renumber(remaining, busy, now);
    }

    method ReturnReservation(l: ListingRef, units: U128)
      modifies this`listings
      ensures listings == if l in old(listings) then old(listings)[l := ReturnReserved(old(listings)[l], units)]
                          else old(listings)
    {
      if l !in listings { return; }
      var x := listings[l];
      if x.reserved >= units {
        x := x.(reserved := x.reserved - units);
        x := x.(available := WrapAdd(x.available, units));
        if x.status == Depleted && x.available > 0 {
          x := x.(status := Active);
        }
      }
      listings := listings[l := x];
    }

    method CountQueueCancellation(buyer: Address, rapid: bool)
      modifies this`profiles
      ensures profiles == old(profiles)[buyer := AfterQueueCancel(ProfileOf(old(Model()), buyer), rapid)]
    {
      var profile := GetOrInitTrustProfile(buyer);
      profiles := profiles[buyer := AfterQueueCancel(profile, rapid)];
    }

    method CancelQueuedOrder(qref: QueueRef, buyer: Address, now: Time)
      returns (reply: Reply, ghost order: seq<QueueRef>)
      modifies this`queue, this`listings, this`profiles
      ensures (Model(), reply) == CancelQueued(old(Model()), qref, buyer, order, now)
    {
      hide Renumbered, WaitingKeys, HasActiveSlot, AfterQueueCancel, ReturnReserved, OrderOf, Conserves;
      order := [];
      if qref !in queue { return Refused(EntryNotFound), []; }
      var e := queue[qref];
      if e.buyer != buyer { return Refused(NotEntryOwner), []; }
      if e.status !in {Queued, Eligible} { return Refused(EntryNotCancellable), []; }
      queue := queue[qref := e.(status := CancelledByBuyer)];
      ReturnReservation(e.listing, e.units);
      var busy := e.listing !in listings || HasActiveSlot(listings[e.listing], now);
      order := RenumberWaiting(e.listing, busy, now);
      CountQueueCancellation(buyer, now - e.createdAt < 60);
      reply := Done;
    }

    method ActivateEligibleQueueEntry(qref: QueueRef, buyer: Address, child: TradeId, now: Time) returns (reply: Reply)
      modifies this`listings, this`queue, this`trades
      ensures (Model(), reply) == Activate(old(Model()), qref, buyer, child, now)
    {
      hide NewAwaitingPayment, Conserves, HasActiveSlot;
      if qref !in queue { return Refused(EntryNotFound); }
      var e := queue[qref];
      if e.buyer != buyer { return Refused(NotEntryOwner); }
      if e.status != Eligible && !(e.status == Queued && e.position == 1) { return Refused(EntryNotAtFront); }
      if e.listing !in listings { return Refused(ListingNotFound); }
      var x := listings[e.listing];
      if HasActiveSlot(x, now) { return Refused(SlotBusy); }
      if x.reserved < e.units { return Refused(InsufficientReserve); }
      var created :=
        NewAwaitingPayment(x.seller, buyer, e.units, x.rateMinor, x.currency, config.timeoutMinutes, now);
      if created.Err? { return Refused(created.error); }
      x := x.(reserved := x.reserved - e.units);
      x := x.(allotted := WrapAdd(x.allotted, e.units));
      x := x.(active := Some(child));
      x := x.(leaseOwner := Some(buyer));
      x := x.(leaseExpires := created.value.deadline);
      listings := listings[e.listing := x];
      if !Conserves(x) { return Refused(InventoryMismatch); }
      queue := queue[qref := e.(status := ActiveSlot, position := 0, tradeId := Some(child))];
      trades := trades[child := created.value];
      reply := Done;
    }

    // ---- Resolution of a child trade --------------------------------------------------------------------------

    /** Some listing whose slot the trade holds. */
    method FindServingListing(tid: TradeId) returns (found: Option<ListingRef>)
      ensures found.Some? ==> found.value in listings && listings[found.value].active == Some(tid)
      ensures found.None? ==> forall l :: l in listings ==> listings[l].active != Some(tid)
    {
      var left := listings.Keys;
      while left != {}
        invariant left <= listings.Keys
        invariant forall l :: l in listings && l !in left ==> listings[l].active != Some(tid)
        decreases |left|
      {
        var l :| l in left;
        left := left - {l};
        if listings[l].active == Some(tid) { return Some(l); }
      }
      found := None;
    }

    method FreeListingSlot(l: ListingRef, amount: U128, completed: bool)
      requires l in listings
      modifies this`listings
      ensures listings == old(listings)[l := FreeSlot(old(listings)[l], amount, completed)]
    {
      var x := listings[l];
      if x.allotted >= amount {
        x := x.(allotted := x.allotted - amount);
        if completed {
          x := x.(filled := SaturatingAdd(x.filled, amount));
        } else {
          x := x.(available := SaturatingAdd(x.available, amount));
        }
      }
      x := x.(active := None);
      x := x.(leaseOwner := None);
      x := x.(leaseExpires := None);
      if x.available == 0 && x.allotted == 0 && x.reserved == 0 {
        x := x.(status := Depleted);
      }
      listings := listings[l := x];
    }

    /** Closes the active entry of the resolved trade, visiting the whole queue table. */
    method CloseEntries(tid: TradeId, completed: bool)
      modifies this`queue
      ensures queue == SettleEntries(old(queue), tid, completed)
    {
      ghost var q0 := queue;
      var left := queue.Keys;
      while left != {}
        invariant left <= q0.Keys && queue.Keys == q0.Keys
        invariant forall k :: k in left ==> queue[k] == q0[k]
        invariant forall k :: k in q0 && k !in left ==> queue[k] == SettledEntry(q0[k], tid, completed)
        decreases |left|
      {
        var k :| k in left;
        left := left - {k};
        if queue[k].tradeId == Some(tid) && queue[k].status == ActiveSlot {
          queue := queue[k := queue[k].(status := if completed then EntryCompleted else EntryExpired)];
        }
      }
    }

    method PromoteNextQueued(l: ListingRef, now: Time) returns (ghost hint: QueueRef)
      modifies this`queue
      ensures queue == Promote(old(queue), NextQueued(old(queue), l, hint), now)
    {
      hint := 0;
      var queued := set k | k in queue && IsQueued(queue[k], l);
      assert queued == QueuedKeys(queue, l);
      if queued == {} { return; }
      var next := FirstOf(queued);
      hint := next;
      var e := queue[next];
      e := e.(status := Eligible);
      e := e.(consentDeadline := Some(now + CONSENT_WINDOW));
      e := e.(position := 1);
      queue := queue[next := e];
    }

    method ReconcileSellerListing(tid: TradeId, completed: bool, now: Time) returns (ghost hint: Visit)
      modifies this`listings, this`queue
      ensures Model() == Resolve(old(Model()), tid, completed, hint, now)
    {
      hide FreeSlot, SettleEntries, Promote;
      hint := Visit(0, 0);
      var serving := FindServingListing(tid);
      if serving.None? { return; }
      var l := serving.value;
      var amount: U128 := 0;
      if tid in trades { amount := trades[tid].units; }
      FreeListingSlot(l, amount, completed);
      CloseEntries(tid, completed);
      ghost var entry := PromoteNextQueued(l, now);
      hint := Visit(l, entry);
    }

    method ApproveTradeRefund(tid: TradeId, status: string, now: Time) returns (reply: Reply, ghost hint: Visit)
      modifies this`trades, this`listings, this`queue, this`refunds
      ensures (Model(), reply) == ApproveRefund(old(Model()), tid, status, hint, now)
    {
      hide Resolve;
      if tid !in trades { return Refused(TradeNotFound), Visit(0, 0); }
      var t := trades[tid];
      if t.stage != RefundPending { return Refused(RefundNotPending), Visit(0, 0); }
      if RefundStatusOf(status) != RefundCompleted { return Refused(RefundNotSettled), Visit(0, 0); }
      t := t.(stage := Cancelled, version := WrapAdd32(t.version, 1));
      t := t.(refund := RefundCompleted);
      t := t.(escrow := EscrowCancelled);
      trades := trades[tid := t];
      hint := ReconcileSellerListing(tid, false, now);
      ResolveSparesPayments(old(Model()).(pay := RefundCancel(old(Pay()), tid, status).0), tid, false, hint, now);
      if tid !in refunds { return Refused(RefundRecordMissing), hint; }
      refunds := refunds[tid := refunds[tid].(status := RefundCompleted)];
      reply := Done;
    }

    method CreditBuyer(buyer: Address, units: U128)
      modifies this`profiles
      ensures profiles == old(profiles)[buyer := AfterCompletion(ProfileOf(old(Model()), buyer), units)]
    {
      var profile := GetOrInitTrustProfile(buyer);
      profiles := profiles[buyer := AfterCompletion(profile, units)];
    }

    method ConfirmEscrowRelease(tid: TradeId, txHash: Option<Hash>, now: Time) returns (reply: Reply, ghost hint: Visit)
      modifies this`trades, this`profiles, this`listings, this`queue, this`releases
      ensures (Model(), reply) == ConfirmRelease(old(Model()), tid, txHash, hint, now)
    {
      hide Resolve, AfterCompletion;
      if tid !in trades { return Refused(TradeNotFound), Visit(0, 0); }
      var t := trades[tid];
      if t.stage !in {ReleasePending, ReleaseOnHold} { return Refused(ReleaseNotPending), Visit(0, 0); }
      var hash := txHash;
      if hash.None? { hash := t.releaseHash; }
      if hash.None? { return Refused(MissingTxHash), Visit(0, 0); }
      t := t.(stage := Completed, version := WrapAdd32(t.version, 1));
      t := t.(escrow := EscrowReleased);
      t := t.(releaseHash := hash);
      trades := trades[tid := t];
      if t.buyer.Some? { CreditBuyer(t.buyer.value, t.units); }
      ghost var credited := Model();
      hint := ReconcileSellerListing(tid, true, now);
      ResolveSparesPayments(credited, tid, true, hint, now);
      releases := releases[tid := ReleaseRow(ReleaseConfirmed, hash)];
      reply := Done;
    }

    // ---- The reconciliation pass -------------------------------------------------------------------------------

    /** The pass's work on one trade; answers its buyer and the outage mark if it was cancelled. */
    method ExpireIfOverdue(tid: TradeId, now: Time) returns (expired: Option<Expiration>)
      modifies this`trades, this`attempts
      ensures Pay() == SweepTrade(old(Pay()), tid, now)
      ensures var v := VerdictOn(old(Pay()), tid, now);
              expired == if v.Expired? && v.buyer.Some? then Some(Expiration(tid, v.buyer.value, v.outage)) else None
    {
      if tid !in trades { return None; }
      var t := trades[tid];
      if t.stage != AwaitingPayment || t.deadline.None? || now <= t.deadline.value { return None; }
      if t.payment !in {Unpaid, CheckoutCreated, PaymentFailed, PaymentExpired} { return None; }
      var outage := false;
      if tid in checkout && checkout[tid] in attempts {
        var a := attempts[checkout[tid]];
        outage := a.failure == Some(ProviderOutageCode);
        if a.status in {AttemptPending, AttemptVerified, LateVerified, MismatchHold} { return None; }
        attempts := attempts[checkout[tid] := a.(status := AttemptExpired)];
      }
      t := t.(stage := Cancelled, version := WrapAdd32(t.version, 1));
      t := t.(payment := PaymentExpired);
      t := t.(escrow := EscrowCancelled);
      trades := trades[tid := t];
      expired := if t.buyer.Some? then Some(Expiration(tid, t.buyer.value, outage)) else None;
    }

    method SweepDeadlines(now: Time) returns (ghost order: seq<TradeId>, xs: seq<Expiration>)
      modifies this`trades, this`attempts
      ensures (forall i, j :: 0 <= i < j < |order| ==> order[i] != order[j])
              && (forall t :: t in old(trades) <==> t in order)
      ensures Pay() == Sweep(old(Pay()), order, now) && xs == Expirations(old(Pay()), order, now)
    {
      hide SweepTrade, VerdictOn;
      ghost var p0, keys := Pay(), trades.Keys;
      var left := trades.Keys;
      order, xs := [], [];
      while left != {}
        invariant left <= keys
        invariant forall t :: t in order <==> t in keys - left
        invariant forall i, j :: 0 <= i < j < |order| ==> order[i] != order[j]
        invariant Pay() == Sweep(p0, order, now) && xs == Expirations(p0, order, now)
        decreases |left|
      {
        var tid :| tid in left;
        assert tid !in order;
        left := left - {tid};
        assert (order + [tid])[..|order|] == order;
        order := order + [tid];
        var expired := ExpireIfOverdue(tid, now);
        if expired.Some? {
          xs := xs + [expired.value];
        }
      }
    }

    method PenaliseBuyer(x: Expiration, now: Time)
      modifies this`profiles
      ensures Model() == Penalise(old(Model()), x, now)
    {
      hide AfterExpiration;
      var profile := GetOrInitTrustProfile(x.buyer);
      profiles := profiles[x.buyer := AfterExpiration(profile, x.outage, now)];
      assert profiles == old(profiles)[x.buyer := profiles[x.buyer]];
    }

    method SettleExpired(xs: seq<Expiration>, now: Time) returns (ghost hints: seq<Visit>)
      modifies this`listings, this`queue, this`profiles
      ensures Model() == SettleExpirations(old(Model()), xs, hints, now)
    {
      hide Resolve, Penalise;
      ghost var s0 := Model();
      hints := [];
      for i := 0 to |xs|
        invariant |hints| == i
        invariant Model() == SettleExpirations(s0, xs[..i], hints, now)
      {
        ghost var before := hints;
        ghost var hint := ReconcileSellerListing(xs[i].trade, false, now);
        PenaliseBuyer(xs[i], now);
        hints := hints + [hint];
        SettleOneMore(s0, xs[..i + 1], before, hint, now);
        assert xs[..i + 1][..i] == xs[..i];
      }
      assert xs[..|xs|] == xs;
    }

    method ProcessOutboxJobs(now: Time)
      modifies this`jobs
      ensures Pay() == ProcessJobs(old(Pay()), now)
    {
      ghost var jobs0 := jobs;
      var left := jobs.Keys;
      while left != {}
        invariant left <= jobs0.Keys && jobs.Keys == jobs0.Keys
        invariant forall k :: k in left ==> jobs[k] == jobs0[k]
        invariant forall k :: k in jobs0 && k !in left ==> jobs[k] == ProcessedJob(jobs0[k], now)
        decreases |left|
      {
        var k :| k in left;
        left := left - {k};
        var j := jobs[k];
        if j.status == JobPending && j.nextRun <= now {
          j := j.(attempts := WrapAdd32(j.attempts, 1));
          if j.attempts >= j.maxAttempts {
            j := j.(status := JobDeadLetter);
          } else {
            j := j.(status := JobCompleted);
          }
          jobs := jobs[k := j];
        }
      }
      assert jobs == map k | k in jobs0 :: ProcessedJob(jobs0[k], now);
    }

    method RunReconciliationPass(now: Time) returns (ghost order: seq<TradeId>, ghost hints: seq<Visit>)
      modifies this`trades, this`attempts, this`listings, this`queue, this`profiles, this`jobs
      ensures Covers(old(Model()), Reconcile(order, hints))
      ensures Model() == ReconcilePass(old(Model()), order, hints, now)
    {
      hide Sweep, Expirations, SettleExpirations, ProcessJobs;
      var xs: seq<Expiration>;
      order, xs := SweepDeadlines(now);
      ghost var swept := Model();
      hints := SettleExpired(xs, now);
      SettlingSparesPayments(swept, xs, hints, now);
      ProcessOutboxJobs(now);
    }

    // ---- Administration ------------------------------------------------------------------------------------------

    method AdminRiskOverride(wallet: Address, clear: bool, verification: Option<Verification>)
      modifies this`profiles
      ensures Model() == old(Model()).(profiles :=
                old(profiles)[wallet := AfterOverride(ProfileOf(old(Model()), wallet), clear, verification)])
    {
      hide PolicyOf;
      var p := GetOrInitTrustProfile(wallet);
      if clear {
        p := p.(cooldownUntil := None);
        p := p.(counters := p.counters.(streak := 0));
      }
      if verification.Some? {
        p := p.(counters := p.counters.(verification := verification.value));
      }
      p := p.(policy := PolicyOf(p.counters));
      profiles := profiles[wallet := p];
      assert profiles == old(profiles)[wallet := p];
    }

    method CreateGuarantorCommitment(pledge: nat, guarantor: Guarantor)
      modifies this`guarantors
      ensures guarantors == old(guarantors)[pledge := guarantor]
    {
      guarantors := guarantors[pledge := guarantor];
    }
  }
}
