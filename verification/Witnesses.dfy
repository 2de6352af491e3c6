/** Runs from the empty service, action by action, that reach what its documentation rules out. */
module Witnesses {
  import opened Core
  import opened Text
  import opened Lifecycle
  import opened Flutterwave
  import opened Payments
  import opened Ledger
  import opened Trust
  import opened System
  import opened Columns
  import opened Safety
  import opened Obligations
  import opened Releases
  import opened Reuse

  const CONFIG := Config(20, 5)

  // ---- Two attempts for one trade ------------------------------------------------------------------------

  /** One USDC at 1,630 naira, due twenty minutes after the start. */
  function Sale(payment: PaymentState): Trade {
    Trade(1, Some(5), 1_000_000, 10_000, "NGN", 163_000, 163_000, AwaitingPayment, payment, PayoutNotStarted, NoRefund,
          EscrowFunded, Some(1200), None, None, 1)
  }

  function Page(ref: TxRef, hasUrl: bool): Attempt {
    Attempt(1, 5, ref, None, 163_000, "NGN", None, None, hasUrl, if hasUrl then RedirectReady else Initiated, None,
            1200, None)
  }

  /** A service that has seen buyer 5 and nothing but settlement. */
  function Settling(p: Tables): Sys { Sys(p, map[], map[], map[5 := NewProfile()], map[]) }

  function Tried(t: Trade, second: Attempt): Tables {
    Tables(CONFIG, map[1 := t], map[11 := Page(11, false), 12 := second], map[1 := 12], map[], map[], map[], map[],
           map[], map[])
  }

  function Paying(ref: TxRef, id: FlwTxId, status: string): Flutterwave.Verified {
    Flutterwave.Verified.Verified(id, ref, status, "NGN", 163_000, None, None, None, None)
  }

  function NewSale(tid: TradeId): Timed { Timed(RegisterTrade(tid, 1, 5, 1_000_000, 163_000, "NGN", true), 0) }

  function Checkout(ref: TxRef, reply: CheckoutReply): Timed { Timed(OpenCheckout(1, 5, ref, reply), 0) }

  function Report(ref: TxRef, id: FlwTxId, status: string): Timed {
    Timed(Verify(1, ref, None, Payload(Some(Paying(ref, id, status)))), 0)
  }

  /** Registration of another trade of buyer 5, who has no unpaid obligations. */
  lemma SaleAdded(s: Sys, tid: TradeId)
    requires tid !in s.pay.trades && UnpaidObligations(s, 5) == 0
    requires s.pay.config == CONFIG && s.guarantors == map[] && s.profiles[5 := NewProfile()] == map[5 := NewProfile()]
    requires 5 in s.profiles ==> s.profiles[5] == NewProfile()
    ensures Next(s, NewSale(tid), s.(profiles := map[5 := NewProfile()],
                                     pay := s.pay.(trades := s.pay.trades[tid := Sale(Unpaid)])))
  {
    hide UnpaidObligations;
    assert Upper("NGN") == "NGN";
    assert Eligibility(s, 5, 1_000_000, 0) == Done;
  }

  function Opened(): Tables {
    Empty(CONFIG).pay.(trades := map[1 := Sale(CheckoutCreated)], attempts := map[11 := Page(11, false)],
                       checkout := map[1 := 11])
  }

  lemma FirstCheckout(p: Tables)
    requires p == Empty(CONFIG).pay.(trades := map[1 := Sale(Unpaid)])
    ensures Next(Settling(p), Checkout(11, NoLink), Settling(Opened()))
  {
    assert p.trades[1 := Sale(CheckoutCreated)] == map[1 := Sale(CheckoutCreated)];
  }

  lemma SecondCheckout()
    ensures Next(Settling(Opened()), Checkout(12, HostedLink), Settling(Tried(Sale(CheckoutCreated), Page(12, true))))
  {
    var p := Opened();
    assert p.trades[1 := Sale(CheckoutCreated)] == map[1 := Sale(CheckoutCreated)];
    assert p.checkout[1 := 12] == map[1 := 12];
  }

  const OPENING := [NewSale(1), Checkout(11, NoLink), Checkout(12, HostedLink)]

  /** Buyer 5 registers trade 1; a first checkout gets no page from the provider, a second one does. */
  lemma TwoCheckouts() returns (states: seq<Sys>, acts: seq<Timed>)
    ensures IsRun(states, acts) && acts == OPENING
    ensures states[|acts|] == Settling(Tried(Sale(CheckoutCreated), Page(12, true)))
  {
    hide Next, Opened, Tried;
    var s0 := Empty(CONFIG);
    WithinCapAtFirst(CONFIG, 5);
    states, acts := [s0], [];
    SaleAdded(s0, 1);
    var p := s0.pay.(trades := map[1 := Sale(Unpaid)]);
    states, acts := Longer(states, acts, NewSale(1), Settling(p));
    FirstCheckout(p);
    states, acts := Longer(states, acts, Checkout(11, NoLink), Settling(Opened()));
    SecondCheckout();
    states, acts := Longer(states, acts, Checkout(12, HostedLink),
                           Settling(Tried(Sale(CheckoutCreated), Page(12, true))));
  }

  lemma Longer(states: seq<Sys>, acts: seq<Timed>, a: Timed, r: Sys) returns (states': seq<Sys>, acts': seq<Timed>)
    requires IsRun(states, acts) && Next(states[|acts|], a, r)
    ensures IsRun(states', acts') && states' == states + [r] && acts' == acts + [a] && states'[|acts'|] == r
  {
    hide Next;
    ExtendRun(states, acts, a, r);
    states', acts' := states + [r], acts + [a];
  }

  // ---- Past the cap ----------------------------------------------------------------------------------------

  function Failed(ref: TxRef, id: FlwTxId, hasUrl: bool): Attempt {
    Page(ref, hasUrl).(flwTxId := Some(id), settledMinor := Some(163_000), status := AttemptFailed,
                       failure := Some(ProviderFailedCode))
  }

  lemma SecondFails()
    ensures Next(Settling(Tried(Sale(CheckoutCreated), Page(12, true))), Report(12, 912, "failed"),
                 Settling(Tried(Sale(PaymentFailed), Failed(12, 912, true))))
  {
    var p, q := Tried(Sale(CheckoutCreated), Page(12, true)), Tried(Sale(PaymentFailed), Failed(12, 912, true));
    assert p.trades[1 := Sale(PaymentFailed)] == q.trades;
    assert p.attempts[12 := Failed(12, 912, true)] == q.attempts;
  }

  /** Trade 1's payment has failed and trade 2 waits for its payment. */
  function Waiting(): Tables {
    var p := Tried(Sale(PaymentFailed), Failed(12, 912, true));
    p.(trades := p.trades[2 := Sale(Unpaid)])
  }

  lemma NothingUnpaid()
    ensures UnpaidObligations(Settling(Tried(Sale(PaymentFailed), Failed(12, 912, true))), 5) == 0
  {
    var s := Settling(Tried(Sale(PaymentFailed), Failed(12, 912, true)));
    assert UnpaidTrades(s, 5) == {} && WaitingEntries(s, 5) == {};
  }

  /** A new buyer may have one unpaid obligation, and has one. */
  lemma AtTheCap() returns (states: seq<Sys>, acts: seq<Timed>)
    ensures IsRun(states, acts) && states[|acts|] == Settling(Waiting())
    ensures UnpaidObligations(states[|acts|], 5) == 1 == Cap(states[|acts|], 5)
  {
    hide Next, Tried, UnpaidObligations;
    states, acts := TwoCheckouts();
    SecondFails();
    var p := Tried(Sale(PaymentFailed), Failed(12, 912, true));
    states, acts := Longer(states, acts, Report(12, 912, "failed"), Settling(p));
    NothingUnpaid();
    NoNewcomer(p);
    SaleAdded(Settling(p), 2);
    states, acts := Longer(states, acts, NewSale(2), Settling(Waiting()));
    OneUnpaid();
  }

  lemma NoNewcomer(p: Tables)
    requires p == Tried(Sale(PaymentFailed), Failed(12, 912, true))
    ensures 2 !in p.trades && p.config == CONFIG
    ensures var s := Settling(p); s.profiles[5 := NewProfile()] == map[5 := NewProfile()]
  {}

  lemma OneUnpaid()
    ensures UnpaidObligations(Settling(Waiting()), 5) == 1
  {
    var s := Settling(Waiting());
    assert UnpaidTrades(s, 5) == {2} && WaitingEntries(s, 5) == {};
  }

  lemma TwoUnpaid(p: Tables)
    requires p.trades.Keys == {1, 2} && forall t :: t in p.trades ==> UnpaidTrade(p.trades[t], 5)
    ensures OverCap(Settling(p), 5)
  {
    var s := Settling(p);
    assert UnpaidTrades(s, 5) == {1, 2} && WaitingEntries(s, 5) == {};
  }

  /** A new checkout for the trade whose payment failed takes the buyer past the cap. */
  lemma CheckoutPassesCap() returns (states: seq<Sys>, acts: seq<Timed>)
    ensures IsRun(states, acts) && acts != [] && acts[|acts| - 1] == Checkout(13, HostedLink)
    ensures !OverCap(states[|acts| - 1], 5) && OverCap(states[|acts|], 5)
  {
    hide Next, UnpaidObligations, Waiting;
    states, acts := AtTheCap();
    var q := Reopened();
    states, acts := Longer(states, acts, Checkout(13, HostedLink), Settling(q));
  }

  /** So does the news that the first attempt's payment is pending, with no checkout at all. */
  lemma PendingReportPassesCap() returns (states: seq<Sys>, acts: seq<Timed>)
    ensures IsRun(states, acts) && acts != [] && acts[|acts| - 1] == Report(11, 911, "pending")
    ensures !OverCap(states[|acts| - 1], 5) && OverCap(states[|acts|], 5)
  {
    hide Next, UnpaidObligations, Waiting;
    states, acts := AtTheCap();
    var q := ReportedPending();
    states, acts := Longer(states, acts, Report(11, 911, "pending"), Settling(q));
  }

  lemma Reopened() returns (q: Tables)
    ensures Next(Settling(Waiting()), Checkout(13, HostedLink), Settling(q)) && OverCap(Settling(q), 5)
  {
    var p := Waiting();
    q := InitCheckout(p, 1, 5, 13, HostedLink, 0).0;
    assert q.trades == p.trades[1 := Sale(CheckoutCreated)];
    TwoUnpaid(q);
  }

  lemma ReportedPending() returns (q: Tables)
    ensures Next(Settling(Waiting()), Report(11, 911, "pending"), Settling(q)) && OverCap(Settling(q), 5)
  {
    var p := Waiting();
    q := VerifyPayment(p, 1, 11, None, Payload(Some(Paying(11, 911, "pending"))), 0).0;
    assert q.trades == p.trades[1 := Sale(PendingVerification)];
    TwoUnpaid(q);
  }

  // ---- Completed without a confirmed payment column -------------------------------------------------------

  /** The second attempt has paid for trade 1. */
  function Paid(): Tables {
    Tried(Sale(Confirmed).(stage := PaymentConfirmed, version := 2),
          Page(12, true).(flwTxId := Some(912), settledMinor := Some(163_000), status := AttemptVerified,
                          verifiedAt := Some(0)))
    .(consumed := map[912 := 1], jobs := map[PayoutJob(1) := Job(JobPending, 0, 5, 0)])
  }

  lemma SecondPays()
    ensures Next(Settling(Tried(Sale(CheckoutCreated), Page(12, true))), Report(12, 912, "successful"),
                 Settling(Paid()))
  {
    var p, q := Tried(Sale(CheckoutCreated), Page(12, true)), Paid();
    assert p.trades[1 := q.trades[1]] == q.trades;
    assert p.attempts[12 := q.attempts[12]] == q.attempts;
  }

  function Holding(t: Trade): Tables {
    Paid().(trades := map[1 := t], payouts := map[1 := PayoutRow(PayoutConfirmed, 1, 163_000)],
            jobs := map[PayoutJob(1) := Job(JobPending, 0, 5, 0), ReleaseJob(1) := Job(JobPending, 0, 5, 0)])
  }

  function PaidOutSale(): Trade {
    Sale(Confirmed).(stage := SellerPayoutConfirmed, payout := PayoutConfirmed, version := 4)
  }

  const PAY_OUT := Timed(ConfirmPayout(1, "SUCCESSFUL"), 0)

  lemma SellerPaid()
    ensures Next(Settling(Paid()), PAY_OUT, Settling(Holding(PaidOutSale())))
  {
    TrimNothing("SUCCESSFUL");
    assert Upper("SUCCESSFUL") == "SUCCESSFUL";
    assert Paid().trades[1 := PaidOutSale()] == map[1 := PaidOutSale()];
  }

  const UP_TO_PAYOUT := OPENING + [Report(12, 912, "successful"), PAY_OUT]

  lemma UntilPayout() returns (states: seq<Sys>, acts: seq<Timed>)
    ensures IsRun(states, acts) && acts == UP_TO_PAYOUT && states[|acts|] == Settling(Holding(PaidOutSale()))
  {
    hide Next, Tried, Paid, Holding;
    states, acts := TwoCheckouts();
    SecondPays();
    states, acts := Longer(states, acts, Report(12, 912, "successful"), Settling(Paid()));
    SellerPaid();
    states, acts := Longer(states, acts, PAY_OUT, Settling(Holding(PaidOutSale())));
  }

  /** The first attempt is reported failed after the second has paid. */
  predicate Reportable(p: Tables, t: Trade) {
    && p.trades == map[1 := t] && t.payment == Confirmed && t.buyer == Some(5)
    && 11 in p.attempts && p.attempts[11] == Page(11, false) && 911 !in p.consumed
  }

  function Misreported(p: Tables, t: Trade): Tables {
    p.(trades := map[1 := t.(payment := PaymentFailed)], attempts := p.attempts[11 := Failed(11, 911, false)])
  }

  lemma FirstFails(p: Tables, t: Trade)
    requires Reportable(p, t)
    ensures Next(Settling(p), Report(11, 911, "failed"), Settling(Misreported(p, t)))
  {
    assert p.trades[1 := t.(payment := PaymentFailed)] == map[1 := t.(payment := PaymentFailed)];
  }

  const ON_CHAIN := Timed(ConfirmOnChain(1, Some(77), Visit(0, 0)), 0)

  lemma Released(p: Tables) returns (r: Sys)
    requires 1 in p.trades && p.trades[1].stage in {ReleasePending, ReleaseOnHold} && p.trades[1].buyer == Some(5)
    ensures Next(Settling(p), ON_CHAIN, r)
    ensures 1 in r.pay.trades && r.pay.trades[1].stage == Completed && r.pay.trades[1].payment == p.trades[1].payment
    ensures r.listings == map[] && r.queue == map[] && r.guarantors == map[] && r.profiles.Keys == {5}
    ensures r.pay.config == p.config && r.pay.trades.Keys == p.trades.Keys && r.pay.trades[1].buyer == Some(5)
  {
    hide AfterCompletion;
    r := Step(Settling(p), ON_CHAIN);
  }

  const HOLD := Timed(RevertRelease(1, None), 0)

  lemma HeldBack(t: Trade) returns (p: Tables)
    requires t == PaidOutSale().(payment := PaymentFailed)
    ensures var q := Misreported(Holding(PaidOutSale()), PaidOutSale());
            Next(Settling(q), HOLD, Settling(p))
    ensures p.trades == map[1 := Advance(t, ReleaseOnHold).(escrow := EscrowOnHold)] && p.config == CONFIG
  {
    var q := Misreported(Holding(PaidOutSale()), PaidOutSale());
    p := HoldRelease(q, 1, None).0;
  }

  const SUBMIT := Timed(SubmitRelease(1, Some(77), None), 0)

  lemma Requested() returns (p: Tables, t: Trade)
    ensures Next(Settling(Holding(PaidOutSale())), SUBMIT, Settling(p))
    ensures Reportable(p, t) && t.stage == ReleasePending && p.config == CONFIG
  {
    var q := Holding(PaidOutSale());
    p := RequestRelease(q, 1, Some(77), None).0;
    t := Advance(PaidOutSale(), ReleasePending).(escrow := EscrowReleasePending, releaseHash := Some(77),
                                                 proofId := None);
    assert q.trades[1 := t] == map[1 := t];
  }

  /** Trade 1 is completed, alone in an otherwise empty service, with a failed payment on record. */
  predicate DoneUnpaid(s: Sys) {
    && s.pay.trades.Keys == {1} && s.pay.trades[1].stage == Completed && s.pay.trades[1].payment == PaymentFailed
    && s.pay.trades[1].buyer == Some(5) && s.pay.config == CONFIG
    && s.listings == map[] && s.queue == map[] && s.guarantors == map[] && s.profiles.Keys == {5}
  }

  /** Put on hold straight after the payout, the release is confirmed without ever asking for the payment. */
  lemma HoldAvoidsGate() returns (states: seq<Sys>, acts: seq<Timed>)
    ensures IsRun(states, acts) && acts == UP_TO_PAYOUT + [Report(11, 911, "failed"), HOLD, ON_CHAIN]
    ensures DoneUnpaid(states[|acts|])
  {
    hide Next, Tried, Paid, Holding, Reportable, Misreported;
    states, acts := UntilPayout();
    var t := PaidOutSale();
    PaidOutReportable();
    FirstFails(Holding(t), t);
    states, acts := Longer(states, acts, Report(11, 911, "failed"), Settling(Misreported(Holding(t), t)));
    var p := HeldBack(t.(payment := PaymentFailed));
    states, acts := Longer(states, acts, HOLD, Settling(p));
    var r := Released(p);
    states, acts := Longer(states, acts, ON_CHAIN, r);
  }

  lemma PaidOutReportable()
    ensures Reportable(Holding(PaidOutSale()), PaidOutSale())
  {}

  /** Requested while the payment was confirmed, the release is confirmed after a later report denied it. */
  lemma ReportAfterGate() returns (states: seq<Sys>, acts: seq<Timed>)
    ensures IsRun(states, acts) && acts == UP_TO_PAYOUT + [SUBMIT, Report(11, 911, "failed"), ON_CHAIN]
    ensures DoneUnpaid(states[|acts|])
  {
    hide Next, Tried, Paid, Holding, Reportable, Misreported;
    states, acts := UntilPayout();
    var p, t := Requested();
    states, acts := Longer(states, acts, SUBMIT, Settling(p));
    FirstFails(p, t);
    states, acts := Longer(states, acts, Report(11, 911, "failed"), Settling(Misreported(p, t)));
    MisreportedTrade(p, t);
    var r := Released(Misreported(p, t));
    states, acts := Longer(states, acts, ON_CHAIN, r);
  }

  lemma MisreportedTrade(p: Tables, t: Trade)
    requires Reportable(p, t)
    ensures var q := Misreported(p, t);
            q.trades.Keys == {1} && q.trades[1] == t.(payment := PaymentFailed) && q.config == p.config
                && t.buyer == Some(5)
  {}

  // ---- A reused trade id -----------------------------------------------------------------------------------

  const OFFER := Listing(1, 10_000_000, 10_000_000, 0, 0, 0, 0, "NGN", 163_000, Active, None, None, None)

  const PUBLISH := Timed(PublishListing(3, 1, 10_000_000, 163_000, "NGN"), 0)

  lemma Published(s: Sys)
    requires s.listings == map[]
    ensures Next(s, PUBLISH, s.(listings := map[3 := OFFER]))
  {
    assert Upper("NGN") == "NGN";
  }

  /** Buyer 6, a newcomer, names trade 1 as the child of an order. */
  lemma NewcomerTakesTrade(s: Sys)
    requires s.listings == map[3 := OFFER] && s.queue == map[] && s.guarantors == map[] && s.profiles.Keys == {5}
    requires s.pay.trades.Keys == {1} && s.pay.trades[1].buyer == Some(5)
    ensures var (r, reply) := Order(s, 3, 6, 2_000_000, 1, 4, true, 0);
            && reply == Done && 1 in r.pay.trades
            && r.pay.trades[1].stage == AwaitingPayment && r.pay.trades[1].buyer == Some(6)
            && !TermsStay(s, r)
  {
    assert UnpaidTrades(s, 6) == {} && WaitingEntries(s, 6) == {};
    assert Eligibility(s, 6, 2_000_000, 0) == Done;
    assert Conserves(Seat(OFFER, 2_000_000, 1, 6, Some(1200)));
  }

  /** A run completes trade 1 of buyer 5; the next order names its id and puts it back to waiting for the
      payment of another buyer. */
  lemma CompletedTradeReopened() returns (states: seq<Sys>, acts: seq<Timed>)
    ensures IsRun(states, acts) && InStage(states, |acts|, 1, Completed)
    ensures states[|acts|].pay.trades[1].buyer == Some(5)
    ensures var (r, reply) := Order(states[|acts|], 3, 6, 2_000_000, 1, 4, true, 0);
            && reply == Done && 1 in r.pay.trades
            && r.pay.trades[1].stage == AwaitingPayment && r.pay.trades[1].buyer == Some(6)
            && !TermsStay(states[|acts|], r)
  {
    hide Next, Order, TermsStay;
    states, acts := HoldAvoidsGate();
    var s := states[|acts|];
    Published(s);
    states, acts := Longer(states, acts, PUBLISH, s.(listings := map[3 := OFFER]));
    NewcomerTakesTrade(states[|acts|]);
  }

  const SECOND_PUBLISH := Timed(PublishListing(4, 2, 10_000_000, 163_000, "NGN"), 0)

  const FIRST_ORDER := Timed(PlaceOrder(3, 6, 2_000_000, 9, 1, true), 0)

  const SECOND_OFFER := OFFER.(seller := 2)

  function Offering(): Sys { Empty(CONFIG).(listings := map[3 := OFFER, 4 := SECOND_OFFER]) }

  function Child(seller: Address, buyer: Address): Trade {
    Sale(Unpaid).(seller := seller, buyer := Some(buyer), units := 2_000_000, feeUnits := 20_000, fiatMinor := 326_000)
  }

  function Seated(l: ListingRef, buyer: Address): Entry {
    Entry(l, buyer, 2_000_000, 326_000, 163_000, 0, ActiveSlot, Some(9), None, 0)
  }

  function OneSeated(): Sys {
    Offering().(listings := map[3 := Seat(OFFER, 2_000_000, 9, 6, Some(1200)), 4 := SECOND_OFFER],
                pay := Empty(CONFIG).pay.(trades := map[9 := Child(1, 6)]),
                queue := map[1 := Seated(3, 6)], profiles := map[6 := NewProfile()])
  }

  function BothSeated(): Sys {
    var s := OneSeated();
    s.(listings := map[3 := s.listings[3], 4 := Seat(SECOND_OFFER, 2_000_000, 9, 7, Some(1200))],
       pay := s.pay.(trades := map[9 := Child(2, 7)]),
       queue := map[1 := Seated(3, 6), 2 := Seated(4, 7)], profiles := map[6 := NewProfile(), 7 := NewProfile()])
  }

  lemma SecondPublished()
    ensures Next(Empty(CONFIG).(listings := map[3 := OFFER]), SECOND_PUBLISH, Offering())
  {
    assert Upper("NGN") == "NGN";
  }

  lemma FirstSeated()
    ensures Next(Offering(), FIRST_ORDER, OneSeated())
  {
    hide Order;
    FirstOrder();
  }

  lemma FirstOrder()
    ensures Order(Offering(), 3, 6, 2_000_000, 9, 1, true, 0) == (OneSeated(), Done)
  {
    var s := Offering();
    assert Upper("NGN") == "NGN";
    assert UnpaidTrades(s, 6) == {} && WaitingEntries(s, 6) == {};
    assert Eligibility(s, 6, 2_000_000, 0) == Done;
    assert s.listings[3 := Seat(OFFER, 2_000_000, 9, 6, Some(1200))] == OneSeated().listings;
    assert Conserves(Seat(OFFER, 2_000_000, 9, 6, Some(1200)));
  }

  lemma SecondSeated()
    ensures Order(OneSeated(), 4, 7, 2_000_000, 9, 2, true, 0) == (BothSeated(), Done)
  {
    var s := OneSeated();
    assert Upper("NGN") == "NGN";
    assert UnpaidTrades(s, 7) == {} && WaitingEntries(s, 7) == {};
    assert Eligibility(s, 7, 2_000_000, 0) == Done;
    assert s.listings[4 := Seat(SECOND_OFFER, 2_000_000, 9, 7, Some(1200))] == BothSeated().listings;
    assert s.pay.trades[9 := Child(2, 7)] == BothSeated().pay.trades;
    assert Conserves(Seat(SECOND_OFFER, 2_000_000, 9, 7, Some(1200)));
  }

  /** After a run that seats buyer 6 on listing 3 with child 9, an order on listing 4 that names child 9 as
      well gives both slots to one trade; resolving it frees listing 3 and leaves listing 4 taken, with no
      entry active any more. */
  lemma TwoSlotsOneChild() returns (states: seq<Sys>, acts: seq<Timed>)
    ensures IsRun(states, acts) && acts == [PUBLISH, SECOND_PUBLISH, FIRST_ORDER]
    ensures var (both, reply) := Order(states[3], 4, 7, 2_000_000, 9, 2, true, 0);
            var r := Resolve(both, 9, false, Visit(3, 0), 0);
            && reply == Done && both.listings.Keys == {3, 4} == r.listings.Keys
            && both.listings[3].active == Some(9) == both.listings[4].active
            && r.listings[3].active.None? && r.listings[4].active == Some(9) && r.listings[4].allotted == 2_000_000
            && (forall k :: k in r.queue && r.queue[k].tradeId == Some(9) ==> r.queue[k].status != ActiveSlot)
  {
    hide Next, Order;
    states, acts := [Empty(CONFIG)], [];
    Published(Empty(CONFIG));
    states, acts := Longer(states, acts, PUBLISH, Empty(CONFIG).(listings := map[3 := OFFER]));
    SecondPublished();
    states, acts := Longer(states, acts, SECOND_PUBLISH, Offering());
    FirstSeated();
    states, acts := Longer(states, acts, FIRST_ORDER, OneSeated());
    SecondSeated();
    SharedChildStrandsSlot(BothSeated(), 3, 4, 9, false, Visit(3, 0), 0);
  }

  // ---- A late payment on a cancelled trade ----------------------------------------------------------------

  const PASS := Timed(Reconcile([1], []), 1300)

  const LATE := Timed(Verify(1, 12, None, Payload(Some(Paying(12, 912, "successful")))), 1400)

  /** Trade 1 has expired unpaid. */
  function Lapsing(): Tables {
    Tried(ExpiredTrade(Sale(CheckoutCreated)), Page(12, true).(status := AttemptExpired))
  }

  function Penalty(): Sys { Settling(Lapsing()).(profiles := map[5 := AfterExpiration(NewProfile(), false, 1300)]) }

  lemma FirstTradeSwept()
    ensures var p := Tried(Sale(CheckoutCreated), Page(12, true));
            Sweep(p, [1], 1300) == Lapsing() && Expirations(p, [1], 1300) == [Expiration(1, 5, false)]
  {
    var p := Tried(Sale(CheckoutCreated), Page(12, true));
    assert [1][..0] == [];
    assert Sweep(p, [], 1300) == p && Expirations(p, [], 1300) == [];
    assert VerdictOn(p, 1, 1300) == Expired(Some(5), false);
    assert p.trades[1 := Lapsing().trades[1]] == Lapsing().trades;
    assert p.attempts[12 := Lapsing().attempts[12]] == Lapsing().attempts;
  }

  lemma FirstTradeLapses()
    ensures Next(Settling(Tried(Sale(CheckoutCreated), Page(12, true))), PASS, Penalty())
  {
    hide Sweep, Expirations, AfterExpiration, Tried;
    FirstTradeSwept();
    var s := Settling(Tried(Sale(CheckoutCreated), Page(12, true)));
    var s1 := Settling(Lapsing());
    LapsingJobs();
    assert [Expiration(1, 5, false)][..0] == [];
    assert SettleExpirations(s1, [], [], 1300) == s1;
    assert SettleExpirations(s1, [Expiration(1, 5, false)], [], 1300) == Penalty();
    assert ReconcilePass(s, [1], [], 1300) == Penalty();
    OnlyFirstTrade();
  }

  lemma LapsingJobs()
    ensures ProcessJobs(Lapsing(), 1300) == Lapsing()
  {}

  lemma OnlyFirstTrade()
    ensures Tried(Sale(CheckoutCreated), Page(12, true)).trades.Keys == {1}
  {}

  lemma PaidTooLate() returns (r: Sys)
    ensures Next(Penalty(), LATE, r) && 1 in r.pay.trades && r.pay.trades[1].stage == LatePaymentReview
    ensures 1 in Penalty().pay.trades && Penalty().pay.trades[1].stage == Cancelled
  {
    hide AfterExpiration;
    r := Step(Penalty(), LATE);
  }

  /** A new buyer lets the first trade lapse, which makes the buyer Restricted at once, and then pays: the
      cancelled trade goes to review, which is no move of the transition table. */
  lemma LatePaymentLeavesTable() returns (states: seq<Sys>, acts: seq<Timed>)
    ensures IsRun(states, acts) && acts == OPENING + [PASS, LATE]
    ensures InStage(states, 4, 1, Cancelled) && InStage(states, 5, 1, LatePaymentReview)
    ensures OffTable(Cancelled, LatePaymentReview)
    ensures ProfileOf(states[4], 5).policy == Policy(5, Restricted, RESTRICTED_LIMIT, 1)
  {
    hide Next, Tried, AfterExpiration;
    states, acts := TwoCheckouts();
    FirstTradeLapses();
    states, acts := Longer(states, acts, PASS, Penalty());
    FirstExpiryRestricts(1300);
    var r := PaidTooLate();
    states, acts := Longer(states, acts, LATE, r);
  }
}
