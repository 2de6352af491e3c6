/** A run on which a buyer earns a cap of two, uses it, and is taken past it by the loss of a tier. */
module Demotion {
  import opened Core
  import opened Text
  import opened Lifecycle
  import opened Flutterwave
  import opened Payments
  import opened Ledger
  import opened Trust
  import opened System
  import opened Reconciliation
  import opened Safety
  import opened Obligations
  import opened Witnesses

  // ---- The buyer's record ----------------------------------------------------------------------------------

  const UNITS: U128 := 100_000_000
  const FIAT: U128 := 16_300_000

  /** The record of buyer 5 after `n` completed purchases of 100 USDC. */
  function Merits(n: nat): Counters
    requires n <= 5
  {
    Counters(n, n * UNITS, 0, 0, 0, 0, 0, Unverified)
  }

  function Record(n: nat): Profile
    requires n <= 5
  {
    Profile(Merits(n), n, PolicyOf(Merits(n)), None)
  }

  lemma MeritedScore(n: nat)
    requires n <= 5
    ensures NoWrap(Merits(n)) && Score(Merits(n)) == 50 + 22 * n
  {
    hide Score;
    assert n * UNITS / VOLUME_STEP == 2 * n;
    NoWrapExactly(Merits(n));
    ScoreIsTrueScore(Merits(n));
  }

  /** Each purchase is within the limit, and five of them allow two unpaid obligations. */
  lemma MeritedPolicy(n: nat)
    requires n <= 5
    ensures var p := PolicyOf(Merits(n));
            && p.score == 50 + 22 * n && p.limit >= UNITS && p.concurrent == if n == 5 then 2 else 1
    ensures n < 5 ==> AfterCompletion(Record(n), UNITS) == Record(n + 1)
    ensures Record(0) == NewProfile()
  {
    hide Score, NoWrap;
    MeritedScore(n);
    if n < 5 { NextRecord(n); }
    NewProfileConsistent();
  }

  lemma NextRecord(n: nat)
    requires n < 5
    ensures AfterCompletion(Record(n), UNITS) == Record(n + 1)
  {
    hide PolicyOf;
  }

  // ---- One purchase ---------------------------------------------------------------------------------------------

  function Purchase(now: Time): Trade {
    Trade(1, Some(5), UNITS, 1_000_000, "NGN", FIAT, 163_000, AwaitingPayment, Unpaid, PayoutNotStarted, NoRefund,
          EscrowFunded, Some(now + 1200), None, None, 1)
  }

  /** Trades 1 to n are completed, their attempts and transactions bear their numbers, and nothing else has
      happened. */
  ghost predicate Bought(s: Sys, n: nat) {
    && n <= 5 && Besides(s, n) && s.pay.trades.Keys == Numbers(n) && s.pay.attempts.Keys == Numbers(n)
  }

  function Numbers(n: nat): (r: set<nat>)
    ensures forall k :: k in r <==> 1 <= k <= n
  {
    if n == 0 then {} else Numbers(n - 1) + {n}
  }

  predicate Identity(m: map<nat, nat>) { forall k :: k in m ==> m[k] == k }

  ghost predicate Besides(s: Sys, n: nat) {
    && n <= 5 && s.pay.config == CONFIG && s.listings == map[] && s.queue == map[] && s.guarantors == map[]
    && ProfileOf(s, 5) == Record(n)
    && Numbers(n) <= s.pay.trades.Keys && (forall k :: 1 <= k <= n ==> s.pay.trades[k].stage == Completed)
    && s.pay.checkout.Keys <= s.pay.attempts.Keys && Identity(s.pay.checkout) && Identity(s.pay.consumed)
  }

  /** The purchase `n + 1` has reached `t`, with the payment attempt `a`. */
  ghost predicate Buying(s: Sys, n: nat, t: Trade, a: Option<Attempt>) {
    && Besides(s, n) && s.pay.trades.Keys == Numbers(n + 1) && n + 1 in s.pay.trades && s.pay.trades[n + 1] == t
    && s.pay.attempts.Keys == Numbers(if a.Some? then n + 1 else n)
    && (a.Some? ==> n + 1 in s.pay.attempts && s.pay.attempts[n + 1] == a.value)
  }

  function Registration(k: TradeId, now: Time): Timed {
    Timed(RegisterTrade(k, 1, 5, UNITS, 163_000, "NGN", true), now)
  }

  lemma NothingUnpaid(s: Sys, n: nat)
    requires Bought(s, n)
    ensures UnpaidObligations(s, 5) == 0
  {
    assert UnpaidTrades(s, 5) == {} && WaitingEntries(s, 5) == {};
  }

  /** Registration of a purchase by buyer 5 below the cap. */
  lemma Registers(s: Sys, n: nat, k: TradeId, now: Time)
    requires n <= 5 && s.pay.config == CONFIG && s.guarantors == map[] && ProfileOf(s, 5) == Record(n)
    requires k !in s.pay.trades && UnpaidObligations(s, 5) < Record(n).policy.concurrent
    ensures Next(s, Registration(k, now), s.(profiles := s.profiles[5 := Record(n)],
                                             pay := s.pay.(trades := s.pay.trades[k := Purchase(now)])))
  {
    hide UnpaidObligations, ProfileOf, PolicyOf;
    MeritedPolicy(n);
    assert Upper("NGN") == "NGN";
    assert Eligibility(s, 5, UNITS, now) == Done;
  }

  lemma Starts(s: Sys, n: nat) returns (r: Sys)
    requires Bought(s, n)
    ensures Next(s, Registration(n + 1, 0), r) && Buying(r, n, Purchase(0), None)
  {
    hide Next, PolicyOf, UnpaidObligations;
    NothingUnpaid(s, n);
    MeritedPolicy(n);
    Registers(s, n, n + 1, 0);
    r := s.(profiles := s.profiles[5 := Record(n)], pay := s.pay.(trades := s.pay.trades[n + 1 := Purchase(0)]));
    assert Numbers(n + 1) == Numbers(n) + {n + 1};
  }

  /** A step that writes purchase `n + 1` and its attempt. */
  lemma Written(s: Sys, r: Sys, n: nat, t: Trade, a: Option<Attempt>, u: Trade, b: Attempt)
    requires Buying(s, n, t, a) && r == s.(pay := r.pay) && r.pay.config == s.pay.config
    requires r.pay.trades == s.pay.trades[n + 1 := u] && r.pay.attempts == s.pay.attempts[n + 1 := b]
    requires r.pay.checkout.Keys <= s.pay.checkout.Keys + {n + 1}
    requires Identity(r.pay.checkout) && Identity(r.pay.consumed)
    ensures Buying(r, n, u, Some(b))
  {
    hide Record;
    assert Numbers(n + 1) == Numbers(n) + {n + 1};
  }

  lemma Opens(s: Sys, n: nat) returns (r: Sys)
    requires Buying(s, n, Purchase(0), None)
    ensures Next(s, Pays(n + 1), r) && Buying(r, n, Purchase(0).(payment := CheckoutCreated), Some(PageFor(n + 1)))
  {
    hide Buying;
    r := Step(s, Pays(n + 1));
    BuyingFacts(s, n, Purchase(0), None);
    Written(s, r, n, Purchase(0), None, Purchase(0).(payment := CheckoutCreated), PageFor(n + 1));
  }

  lemma BuyingFacts(s: Sys, n: nat, t: Trade, a: Option<Attempt>)
    requires Buying(s, n, t, a)
    ensures n + 1 in s.pay.trades && s.pay.trades[n + 1] == t && s.pay.config == CONFIG
    ensures a.None? ==> n + 1 !in s.pay.attempts && n + 1 !in s.pay.checkout
    ensures a.Some? ==> n + 1 in s.pay.attempts && s.pay.attempts[n + 1] == a.value
    ensures Identity(s.pay.checkout) && Identity(s.pay.consumed)
  {
    hide Record, ProfileOf;
  }

  function PageFor(k: TradeId): Attempt {
    Attempt(k, 5, k, None, FIAT, "NGN", None, None, true, RedirectReady, None, 1200, None)
  }

  function Pays(k: TradeId): Timed { Timed(OpenCheckout(k, 5, k, HostedLink), 0) }

  function Report(k: TradeId, status: string): Flutterwave.Verified {
    Flutterwave.Verified.Verified(k, k, status, "NGN", FIAT, None, None, None, None)
  }

  function Told(k: TradeId, status: string): Timed { Timed(Verify(k, k, None, Payload(Some(Report(k, status)))), 0) }

  function PaidPage(k: TradeId): Attempt {
    PageFor(k).(flwTxId := Some(k), settledMinor := Some(FIAT), status := AttemptVerified, verifiedAt := Some(0))
  }

  function FailedPage(k: TradeId): Attempt {
    PageFor(k).(flwTxId := Some(k), settledMinor := Some(FIAT), status := AttemptFailed,
                failure := Some(ProviderFailedCode))
  }

  function PaidPurchase(): Trade { Purchase(0).(stage := PaymentConfirmed, payment := Confirmed, version := 2) }

  lemma Reported(p: Tables, k: TradeId)
    requires k in p.trades && p.trades[k] == Purchase(0).(payment := CheckoutCreated)
    requires k in p.attempts && p.attempts[k] == PageFor(k) && Identity(p.consumed)
    ensures var q := ApplyVerified(p, k, k, Some(Report(k, "successful")), 0).0;
            && q.trades == p.trades[k := PaidPurchase()] && q.attempts == p.attempts[k := PaidPage(k)]
            && q.consumed == p.consumed[k := k] && q.checkout == p.checkout && q.config == p.config
    ensures var q := ApplyVerified(p, k, k, Some(Report(k, "failed")), 0).0;
            && q.trades == p.trades[k := Purchase(0).(payment := PaymentFailed)]
            && q.attempts == p.attempts[k := FailedPage(k)]
            && q.consumed == p.consumed && q.checkout == p.checkout && q.config == p.config
  {
    hide EnqueueOnce;
  }

  lemma Settles(s: Sys, n: nat) returns (r: Sys)
    requires Buying(s, n, Purchase(0).(payment := CheckoutCreated), Some(PageFor(n + 1)))
    ensures Next(s, Told(n + 1, "successful"), r) && Buying(r, n, PaidPurchase(), Some(PaidPage(n + 1)))
  {
    hide Buying, ApplyVerified;
    var t := Purchase(0).(payment := CheckoutCreated);
    r := Step(s, Told(n + 1, "successful"));
    BuyingFacts(s, n, t, Some(PageFor(n + 1)));
    Reported(s.pay, n + 1);
    Written(s, r, n, t, Some(PageFor(n + 1)), PaidPurchase(), PaidPage(n + 1));
  }

  lemma Fails(s: Sys, n: nat) returns (r: Sys)
    requires Buying(s, n, Purchase(0).(payment := CheckoutCreated), Some(PageFor(n + 1)))
    ensures Next(s, Told(n + 1, "failed"), r)
    ensures Buying(r, n, Purchase(0).(payment := PaymentFailed), Some(FailedPage(n + 1)))
  {
    hide Buying, ApplyVerified;
    var t := Purchase(0).(payment := CheckoutCreated);
    r := Step(s, Told(n + 1, "failed"));
    BuyingFacts(s, n, t, Some(PageFor(n + 1)));
    Reported(s.pay, n + 1);
    Written(s, r, n, t, Some(PageFor(n + 1)), Purchase(0).(payment := PaymentFailed), FailedPage(n + 1));
  }

  // ---- Payout and release ------------------------------------------------------------------------------------

  /** A step that writes purchase `n + 1` only. */
  lemma Advanced(s: Sys, r: Sys, n: nat, t: Trade, a: Option<Attempt>, u: Trade)
    requires Buying(s, n, t, a) && r == s.(pay := r.pay) && r.pay.config == s.pay.config
    requires r.pay.trades == s.pay.trades[n + 1 := u] && r.pay.attempts == s.pay.attempts
    requires r.pay.checkout == s.pay.checkout && r.pay.consumed == s.pay.consumed
    ensures Buying(r, n, u, a)
  {
    hide Record;
  }

  function PayOut(k: TradeId): Timed { Timed(ConfirmPayout(k, "SUCCESSFUL"), 0) }

  function PaidOutPurchase(): Trade {
    PaidPurchase().(stage := SellerPayoutConfirmed, payout := PayoutConfirmed, version := 4)
  }

  lemma PaysOut(s: Sys, n: nat, a: Option<Attempt>) returns (r: Sys)
    requires Buying(s, n, PaidPurchase(), a)
    ensures Next(s, PayOut(n + 1), r) && Buying(r, n, PaidOutPurchase(), a)
  {
    hide Buying, EnqueueOnce, PayoutStatusOf;
    SuccessfulStatus();
    BuyingFacts(s, n, PaidPurchase(), a);
    r := Step(s, PayOut(n + 1));
    Advanced(s, r, n, PaidPurchase(), a, PaidOutPurchase());
  }

  lemma SuccessfulStatus()
    ensures PayoutStatusOf("SUCCESSFUL") == PayoutConfirmed
  {
    TrimNothing("SUCCESSFUL");
    assert Upper("SUCCESSFUL") == "SUCCESSFUL";
  }

  function Release(k: TradeId): Timed { Timed(SubmitRelease(k, Some(77), None), 0) }

  function ReleasingPurchase(): Trade {
    PaidOutPurchase().(stage := ReleasePending, escrow := EscrowReleasePending, releaseHash := Some(77), version := 5)
  }

  lemma Releases(s: Sys, n: nat, a: Option<Attempt>) returns (r: Sys)
    requires Buying(s, n, PaidOutPurchase(), a)
    ensures Next(s, Release(n + 1), r) && Buying(r, n, ReleasingPurchase(), a)
  {
    hide Buying;
    BuyingFacts(s, n, PaidOutPurchase(), a);
    r := Step(s, Release(n + 1));
    Advanced(s, r, n, PaidOutPurchase(), a, ReleasingPurchase());
  }

  function Confirm(k: TradeId): Timed { Timed(ConfirmOnChain(k, Some(77), Visit(0, 0)), 0) }

  lemma Credited(s: Sys, k: TradeId) returns (r: Sys)
    requires s.listings == map[] && k in s.pay.trades && s.pay.trades[k] == ReleasingPurchase()
    ensures Next(s, Confirm(k), r) && r == s.(pay := r.pay, profiles := r.profiles)
    ensures r.profiles == s.profiles[5 := AfterCompletion(ProfileOf(s, 5), UNITS)]
    ensures k in r.pay.trades && r.pay.trades[k].stage == Completed
            && r.pay.trades == s.pay.trades[k := r.pay.trades[k]]
    ensures r.pay.attempts == s.pay.attempts && r.pay.checkout == s.pay.checkout && r.pay.consumed == s.pay.consumed
    ensures r.pay.config == s.pay.config
  {
    hide AfterCompletion;
    r := Step(s, Confirm(k));
  }

  lemma Confirms(s: Sys, n: nat, a: Attempt) returns (r: Sys)
    requires n < 5 && Buying(s, n, ReleasingPurchase(), Some(a))
    ensures Next(s, Confirm(n + 1), r) && Bought(r, n + 1)
  {
    hide Next, PolicyOf, AfterCompletion, Record;
    MeritedPolicy(n);
    r := Credited(s, n + 1);
  }

  // ---- Five purchases ----------------------------------------------------------------------------------------------

  /** The actions of one purchase. */
  function OnePurchase(k: TradeId): seq<Timed> {
    [Registration(k, 0), Pays(k), Told(k, "successful"), PayOut(k), Release(k), Confirm(k)]
  }

  function Purchases(n: nat): seq<Timed> { if n == 0 then [] else Purchases(n - 1) + OnePurchase(n) }

  lemma BuysOne(states: seq<Sys>, acts: seq<Timed>, n: nat) returns (states': seq<Sys>, acts': seq<Timed>)
    requires n < 5 && IsRun(states, acts) && Bought(states[|acts|], n)
    ensures IsRun(states', acts') && acts' == acts + OnePurchase(n + 1) && Bought(states'[|acts'|], n + 1)
  {
    hide Next, IsRun, Bought, Buying;
    RunLength(states, acts);
    var k := n + 1;
    var r := Starts(states[|acts|], n);
    states', acts' := Longer(states, acts, Registration(k, 0), r);
    r := Opens(r, n);
    states', acts' := Longer(states', acts', Pays(k), r);
    r := Settles(r, n);
    states', acts' := Longer(states', acts', Told(k, "successful"), r);
    r := PaysOut(r, n, Some(PaidPage(k)));
    states', acts' := Longer(states', acts', PayOut(k), r);
    r := Releases(r, n, Some(PaidPage(k)));
    states', acts' := Longer(states', acts', Release(k), r);
    r := Confirms(r, n, PaidPage(k));
    states', acts' := Longer(states', acts', Confirm(k), r);
  }

  lemma {:induction false} Buys(n: nat) returns (states: seq<Sys>, acts: seq<Timed>)
    requires n <= 5
    ensures IsRun(states, acts) && acts == Purchases(n) && Bought(states[|acts|], n)
  {
    hide IsRun, Bought, OnePurchase;
    if n == 0 {
      states, acts := [Empty(CONFIG)], [];
      NothingBought();
    } else {
      states, acts := Buys(n - 1);
      states, acts := BuysOne(states, acts, n - 1);
    }
  }

  lemma NothingBought()
    ensures IsRun([Empty(CONFIG)], []) && Bought(Empty(CONFIG), 0)
  {
    hide PolicyOf;
    MeritedPolicy(0);
  }

  // ---- The loss of the tier ---------------------------------------------------------------------

  /** Five purchases are completed, the payment of the sixth has failed, and the seventh and the eighth, due
      later, wait for theirs. */
  ghost predicate AtTheCap(s: Sys, later: set<TradeId>) {
    && Besides(s, 5) && s.pay.trades.Keys == Numbers(6) + later && s.pay.attempts.Keys == Numbers(6)
    && 6 in s.pay.trades && s.pay.trades[6] == Purchase(0).(payment := PaymentFailed)
    && 6 in s.pay.attempts && s.pay.attempts[6] == FailedPage(6)
    && later <= {7, 8} && forall t :: t in later ==> t in s.pay.trades && s.pay.trades[t] == Purchase(100)
  }

  lemma LaterUnpaid(s: Sys, later: set<TradeId>)
    requires AtTheCap(s, later)
    ensures UnpaidObligations(s, 5) == |later|
  {
    hide AtTheCap;
    forall t | t in s.pay.trades
      ensures UnpaidTrade(s.pay.trades[t], 5) <==> t in later
    {
      OneUnpaid(s, later, t);
    }
    LaterThere(s, later);
    assert UnpaidTrades(s, 5) == later;
    assert WaitingEntries(s, 5) == {};
  }

  lemma OneUnpaid(s: Sys, later: set<TradeId>, t: TradeId)
    requires AtTheCap(s, later) && t in s.pay.trades
    ensures UnpaidTrade(s.pay.trades[t], 5) <==> t in later
  {
    hide Record, ProfileOf;
    assert t in later || t == 6 || 1 <= t <= 5;
  }

  lemma LaterThere(s: Sys, later: set<TradeId>)
    requires AtTheCap(s, later)
    ensures later <= s.pay.trades.Keys && s.queue == map[]
  {
    hide Record, ProfileOf, Purchase, FailedPage;
  }

  lemma LaterAdded(s: Sys, r: Sys, later: set<TradeId>, k: TradeId)
    requires AtTheCap(s, later) && k !in later && k in {7, 8}
    requires r == s.(profiles := s.profiles[5 := Record(5)], pay := s.pay.(trades := s.pay.trades[k := Purchase(100)]))
    ensures AtTheCap(r, later + {k})
  {
    hide Record;
  }

  lemma CapFacts(s: Sys, later: set<TradeId>)
    requires AtTheCap(s, later)
    ensures s.pay.config == CONFIG && s.guarantors == map[] && ProfileOf(s, 5) == Record(5)
    ensures forall k :: k in {7, 8} && k !in later ==> k !in s.pay.trades
  {
    hide Record, ProfileOf;
  }

  lemma RegistersLater(s: Sys, later: set<TradeId>, k: TradeId) returns (r: Sys)
    requires AtTheCap(s, later) && |later| < 2 && k !in later && k in {7, 8}
    ensures Next(s, Registration(k, 100), r) && AtTheCap(r, later + {k})
  {
    hide Next, PolicyOf, UnpaidObligations, AtTheCap, ProfileOf;
    LaterUnpaid(s, later);
    MeritedPolicy(5);
    CapFacts(s, later);
    Registers(s, 5, k, 100);
    r := s.(profiles := s.profiles[5 := Record(5)], pay := s.pay.(trades := s.pay.trades[k := Purchase(100)]));
    LaterAdded(s, r, later, k);
  }

  const ALL := [1, 2, 3, 4, 5, 6, 7, 8]

  const PASS := Timed(Reconcile(ALL, []), 1250)

  lemma AllCovered(s: Sys)
    requires AtTheCap(s, {7, 8})
    ensures Possible(s, PASS.act)
  {
    hide Besides, Purchase, FailedPage;
    assert forall t :: t in ALL <==> 1 <= t <= 8;
  }

  lemma OneLapses(s: Sys)
    requires AtTheCap(s, {7, 8})
    ensures LapsedOf(s.pay, 5, 1250) == {6} && LapsedUnpaid(s, 5, 1250) == {}
  {
    hide Record, ProfileOf;
    assert Lapsed(s.pay, 6, 1250);
    forall t | t in s.pay.trades && t != 6
      ensures !Lapsed(s.pay, t, 1250)
    {
      assert t in {7, 8} || s.pay.trades[t].stage == Completed;
    }
  }

  lemma PenaltyInRange()
    ensures NoWrap(Merits(5)) && NoWrap(Penalised(Record(5), 1, 1250).counters)
  {
    hide NoWrap, PolicyOf, Penalised;
    MeritedScore(5);
    PenaltiesCount(Record(5), 1, 1250);
    NoWrapExactly(CountExpiries(Merits(5), 1));
  }

  lemma LosesTier(s: Sys)
    requires AtTheCap(s, {7, 8})
    ensures !OverCap(s, 5) && InRange(s, PASS, 5) && PassesCapByGuard(s, PASS, 5)
  {
    hide AtTheCap, UnpaidObligations, ProfileOf, PolicyOf, NoWrap, LapsedOf, LapsedUnpaid, Penalised;
    LaterUnpaid(s, {7, 8});
    OneLapses(s);
    CapFacts(s, {7, 8});
    MeritedPolicy(5);
    PenaltyInRange();
  }

  /** A buyer with five completed purchases may have two unpaid obligations and has them. Then the pass
      cancels a third trade, whose payment had failed and did not count: the score falls from 160 to 115,
      which is too low for the tier, and the buyer has two obligations where one is allowed. */
  lemma LossOfTierPassesCap() returns (states: seq<Sys>, acts: seq<Timed>)
    ensures IsRun(states, acts)
    ensures acts == Purchases(5) + [Registration(6, 0), Pays(6), Told(6, "failed"), Registration(7, 100),
                                    Registration(8, 100), PASS]
    ensures !OverCap(states[|acts| - 1], 5) && OverCap(states[|acts|], 5)
  {
    hide Next, Bought, Buying, AtTheCap, OverCap, PassesCapByGuard, InRange, Purchases, Possible, Step;
    states, acts := Buys(5);
    RunLength(states, acts);
    var r := Starts(states[|acts|], 5);
    states, acts := Longer(states, acts, Registration(6, 0), r);
    r := Opens(r, 5);
    states, acts := Longer(states, acts, Pays(6), r);
    r := Fails(r, 5);
    states, acts := Longer(states, acts, Told(6, "failed"), r);
    NoneLater(r);
    r := RegistersLater(r, {}, 7);
    states, acts := Longer(states, acts, Registration(7, 100), r);
    r := RegistersLater(r, {} + {7}, 8);
    states, acts := Longer(states, acts, Registration(8, 100), r);
    assert {} + {7} + {8} == {7, 8};
    RunKeeps(states, acts, |acts|);
    LosesTier(r);
    AllCovered(r);
    CapIsPassedByGuard(r, PASS, 5);
    PassHappens(r);
    states, acts := Longer(states, acts, PASS, Step(r, PASS));
  }

  lemma NoneLater(s: Sys)
    requires Buying(s, 5, Purchase(0).(payment := PaymentFailed), Some(FailedPage(6)))
    ensures AtTheCap(s, {})
  {
    hide Besides;
  }

  lemma PassHappens(s: Sys)
    requires Possible(s, PASS.act)
    ensures Next(s, PASS, Step(s, PASS))
  {
    hide Possible, Step;
  }
}
