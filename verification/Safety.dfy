/** Safety of whole runs: what must have happened before a trade completes, what can never happen
    after its refund begins, and which deliveries count. */
module Safety {
  import opened Core
  import opened Text
  import opened Lifecycle
  import opened Flutterwave
  import opened Payments
  import opened Settlement
  import opened Ledger
  import opened Inventory
  import opened System
  import opened Invariant
  import opened Runs

  ghost predicate Next(s: Sys, a: Timed, r: Sys) { Possible(s, a.act) && r == Step(s, a) }

  /** A run of possible actions, starting with the empty service. */
  ghost predicate IsRun(states: seq<Sys>, acts: seq<Timed>) {
    && |states| == |acts| + 1
    && states[0] == Empty(states[0].pay.config)
    && forall i :: 0 <= i < |acts| ==> Next(states[i], acts[i], states[i + 1])
  }

  lemma {:induction false} RunKeeps(states: seq<Sys>, acts: seq<Timed>, i: nat)
    requires IsRun(states, acts) && i <= |acts|
    ensures Inv(states[i])
  {
    hide Inv, Evolves, EveryMoveCaused, NewTradesWait, Next, Empty;
    if i == 0 {
      EmptyIsGood(states[0].pay.config);
    } else {
      RunKeeps(states, acts, i - 1);
      NextIsGood(states[i - 1], acts[i - 1], states[i]);
    }
  }

  lemma NextIsGood(s: Sys, a: Timed, r: Sys)
    requires Inv(s) && Next(s, a, r)
    ensures GoodStep(s, a, r)
  {
    hide Inv, GoodStep, Step, Possible;
    StepKeeps(s, a);
  }

  lemma RunStep(states: seq<Sys>, acts: seq<Timed>, i: nat)
    requires IsRun(states, acts) && i < |acts|
    ensures Inv(states[i]) && GoodStep(states[i], acts[i], states[i + 1])
  {
    hide Inv, GoodStep, Next, Empty;
    RunKeeps(states, acts, i);
    NextIsGood(states[i], acts[i], states[i + 1]);
  }

  // ---- Stages over a run -----------------------------------------------------------------------------

  /** No handler leads out of these stages. */
  ghost predicate Closed(stages: set<Stage>) {
    forall a, b :: a in stages && HandlerEdge(a, b) ==> b in stages
  }

  lemma StepMoves(s: Sys, a: Timed, r: Sys, t: TradeId)
    requires GoodStep(s, a, r) && t in s.pay.trades
    ensures t in r.pay.trades && Moves(s.pay.trades[t], r.pay.trades[t])
  {
    hide Inv, Moves, RecordsKept;
  }

  /** A trade never disappears, its terms never change, and it stays in any closed set of stages. */
  lemma {:induction false} StaysClosed(
    states: seq<Sys>, acts: seq<Timed>, i: nat, j: nat, t: TradeId, stages: set<Stage>)
    requires IsRun(states, acts) && i <= j <= |acts| && Closed(stages)
    requires t in states[i].pay.trades && states[i].pay.trades[t].stage in stages
    ensures t in states[j].pay.trades && states[j].pay.trades[t].stage in stages
    ensures SameTerms(states[i].pay.trades[t], states[j].pay.trades[t])
    decreases j
  {
    hide IsRun, HandlerEdge, GoodStep;
    if i == j {
    } else {
      StaysClosed(states, acts, i, j - 1, t, stages);
      RunLength(states, acts);
      RunStep(states, acts, j - 1);
      StepMoves(states[j - 1], acts[j - 1], states[j], t);
    }
  }

  lemma RunLength(states: seq<Sys>, acts: seq<Timed>)
    requires IsRun(states, acts)
    ensures |states| == |acts| + 1
  {}

  const ALL_STAGES := {Open, AwaitingPayment, PaymentConfirmed, SellerPayoutPending, SellerPayoutConfirmed,
                       ReleasePending, Completed, PayoutOnHold, RefundPending, ReleaseOnHold, LatePaymentReview,
                       Cancelled, Disputed}

  lemma EveryStage(s: Stage)
    ensures s in ALL_STAGES
  {
    match s case _ => {}
  }

  /** Terms are fixed for the whole run. */
  lemma TermsAreFixed(states: seq<Sys>, acts: seq<Timed>, i: nat, j: nat, t: TradeId)
    requires IsRun(states, acts) && i <= j <= |acts| && t in states[i].pay.trades
    ensures t in states[j].pay.trades && SameTerms(states[i].pay.trades[t], states[j].pay.trades[t])
  {
    hide IsRun, HandlerEdge;
    forall a
      ensures a in ALL_STAGES
    {
      EveryStage(a);
    }
    RunLength(states, acts);
    EveryStage(states[i].pay.trades[t].stage);
    StaysClosed(states, acts, i, j, t, ALL_STAGES);
  }

  /** Refund and release exclude each other: once a refund has begun the trade never leaves the refund
      stages again, whatever handlers run, including the direct move of a cancelled trade to review. */
  lemma RefundExcludesRelease(states: seq<Sys>, acts: seq<Timed>, i: nat, j: nat, t: TradeId)
    requires IsRun(states, acts) && i <= j <= |acts|
    requires t in states[i].pay.trades && Refunding(states[i].pay.trades[t].stage)
    ensures t in states[j].pay.trades && Refunding(states[j].pay.trades[t].stage)
  {
    hide IsRun;
    var refund := {RefundPending, Cancelled, LatePaymentReview};
    assert Closed(refund);
    StaysClosed(states, acts, i, j, t, refund);
  }

  /** A completed trade stays completed. */
  lemma CompletedIsFinal(states: seq<Sys>, acts: seq<Timed>, i: nat, j: nat, t: TradeId)
    requires IsRun(states, acts) && i <= j <= |acts|
    requires t in states[i].pay.trades && states[i].pay.trades[t].stage == Completed
    ensures t in states[j].pay.trades && states[j].pay.trades[t].stage == Completed
  {
    hide IsRun;
    assert Closed({Completed});
    StaysClosed(states, acts, i, j, t, {Completed});
  }

  const LEFT_AWAITING := {PaymentConfirmed, SellerPayoutPending, SellerPayoutConfirmed, ReleasePending, Completed,
                          PayoutOnHold, RefundPending, ReleaseOnHold, LatePaymentReview, Cancelled}

  lemma LeftAwaitingClosed(s: Stage)
    ensures Closed(LEFT_AWAITING)
    ensures s in LEFT_AWAITING <==> s !in {Open, AwaitingPayment, Disputed}
  {
    match s case _ => {}
  }

  /** Having left AwaitingPayment, a trade never returns to it. */
  lemma NeverAwaitsAgain(states: seq<Sys>, acts: seq<Timed>, i: nat, j: nat, t: TradeId)
    requires IsRun(states, acts) && i <= j <= |acts|
    requires t in states[i].pay.trades && states[i].pay.trades[t].stage !in {Open, AwaitingPayment, Disputed}
    ensures t in states[j].pay.trades && states[j].pay.trades[t].stage !in {Open, AwaitingPayment, Disputed}
  {
    hide IsRun, Closed, HandlerEdge;
    RunLength(states, acts);
    LeftAwaitingClosed(states[i].pay.trades[t].stage);
    StaysClosed(states, acts, i, j, t, LEFT_AWAITING);
    LeftAwaitingClosed(states[j].pay.trades[t].stage);
  }

  // ---- What happened before --------------------------------------------------------------------------

  /** Step `i` moved trade `t` to stage `to`. */
  predicate MovedAt(states: seq<Sys>, i: nat, t: TradeId, to: Stage) {
    i + 1 < |states| && Moved(states[i].pay, states[i + 1].pay, t) && states[i + 1].pay.trades[t].stage == to
  }

  /** Any stage but the first was entered by some step. */
  lemma {:induction false} EnteredBy(
    states: seq<Sys>, acts: seq<Timed>, n: nat, t: TradeId, stages: set<Stage>) returns (i: nat)
    requires IsRun(states, acts) && n <= |acts| && AwaitingPayment !in stages
    requires t in states[n].pay.trades && states[n].pay.trades[t].stage in stages
    ensures i < n && t in states[i].pay.trades && states[i].pay.trades[t].stage !in stages
    ensures exists to :: to in stages && MovedAt(states, i, t, to)
    decreases n
  {
    hide Inv, GoodStep, Next, Evolves, EveryMoveCaused;
    if n == 0 {
      assert false;
    } else {
      RunStep(states, acts, n - 1);
      OldOrWaiting(states[n - 1], acts[n - 1], states[n], t);
      if states[n - 1].pay.trades[t].stage in stages {
        i := EnteredBy(states, acts, n - 1, t, stages);
      } else {
        i := n - 1;
        assert MovedAt(states, i, t, states[n].pay.trades[t].stage);
      }
    }
  }

  lemma OldOrWaiting(s: Sys, a: Timed, r: Sys, t: TradeId)
    requires GoodStep(s, a, r) && t in r.pay.trades
    ensures t in s.pay.trades || r.pay.trades[t].stage == AwaitingPayment
  {
    hide Inv, Evolves, EveryMoveCaused;
  }

  lemma MoveHasCause(states: seq<Sys>, acts: seq<Timed>, i: nat, t: TradeId, to: Stage)
    requires IsRun(states, acts) && i < |acts| && MovedAt(states, i, t, to)
    ensures Causes(states[i], acts[i], states[i + 1].pay, t, to)
    ensures HandlerEdge(states[i].pay.trades[t].stage, to)
  {
    hide Inv, Next, Causes, HandlerEdge, RecordsKept, Empty;
    RunStep(states, acts, i);
    StepMoves(states[i], acts[i], states[i + 1], t);
  }

  /** Payment `v`, seen at `when`, pays trade `t`: successful, in its currency, its exact fiat amount,
      by its deadline. */
  predicate PaysExactly(t: Trade, v: Verified, when: Time) {
    && v.status == SUCCESSFUL && v.amountMinor == t.fiatMinor && Upper(v.currency) == Upper(t.currency)
    && t.deadline.Some? && when <= t.deadline.value
  }

  /** Step `i` delivered `v`, which settled trade `t` and confirmed it. */
  ghost predicate PaidAt(states: seq<Sys>, acts: seq<Timed>, i: nat, t: TradeId, v: Verified) {
    && i < |acts| && MovedAt(states, i, t, PaymentConfirmed)
    && states[i].pay.trades[t].stage == AwaitingPayment
    && SettlingAction(states[i], acts[i], t, v)
  }

  lemma SettlingMeansTerms(s: Sys, a: Timed, t: TradeId, v: Verified)
    requires Inv(s) && SettlingAction(s, a, t, v)
    ensures t in s.pay.trades && PaysExactly(s.pay.trades[t], v, a.now)
  {
    hide TablesOkExcept, LedgerOk, ProfilesOk, Settles;
    match a.act
    case Verify(_, ref, _, _) => SettlesTerms(s.pay, t, ref, v, a.now); SettlesHere(s.pay, t, ref, v, a.now);
    case Deliver(_, ref, _) => SettlesTerms(s.pay, t, ref.value, v, a.now); SettlesHere(s.pay, t, ref.value, v, a.now);
  }

  lemma SettlesHere(p: Tables, t: TradeId, ref: TxRef, v: Verified, now: Time)
    requires Settles(p, t, ref, v, now)
    ensures t in p.trades
  {}

  /** No trade is in a paid stage unless an earlier step verified a payment for one of its own attempts
      that matches the trade's terms exactly and arrived by its deadline. */
  lemma PaidBefore(states: seq<Sys>, acts: seq<Timed>, n: nat, t: TradeId) returns (i: nat, v: Verified)
    requires IsRun(states, acts) && n <= |acts|
    requires t in states[n].pay.trades && PostPaid(states[n].pay.trades[t].stage)
    ensures i < n && PaidAt(states, acts, i, t, v)
    ensures PaysExactly(states[n].pay.trades[t], v, acts[i].now)
  {
    hide IsRun, Inv, SettlingAction, HandlerEdge;
    var paid := {PaymentConfirmed, SellerPayoutPending, PayoutOnHold, SellerPayoutConfirmed,
                 ReleasePending, ReleaseOnHold, Completed};
    i := EnteredBy(states, acts, n, t, paid);
    var to :| to in paid && MovedAt(states, i, t, to);
    MoveHasCause(states, acts, i, t, to);
    EntersPaidByConfirming(states[i].pay.trades[t].stage, to);
    v :| SettlingAction(states[i], acts[i], t, v);
    RunKeeps(states, acts, i);
    SettlingMeansTerms(states[i], acts[i], t, v);
    TermsAreFixed(states, acts, i, n, t);
  }

  lemma EntersPaidByConfirming(a: Stage, b: Stage)
    requires HandlerEdge(a, b) && !PostPaid(a) && PostPaid(b)
    ensures a == AwaitingPayment && b == PaymentConfirmed
  {}

  /** The columns of a completed trade. */
  predicate SettledColumns(t: Trade) {
    t.payout == PayoutConfirmed && t.refund == NoRefund && t.escrow == EscrowReleased && t.releaseHash.Some?
  }

  lemma ColumnsOfCompleted(t: Trade)
    requires ColumnsOk(t)
    ensures t.stage == Completed ==> SettledColumns(t)
    ensures t.stage == Completed <==> t.escrow == EscrowReleased
  {}

  /** In every reachable state the escrow is released exactly for the completed trades. */
  lemma ReleasedExactly(states: seq<Sys>, acts: seq<Timed>, n: nat, t: TradeId)
    requires IsRun(states, acts) && n <= |acts| && t in states[n].pay.trades
    ensures states[n].pay.trades[t].stage == Completed <==> states[n].pay.trades[t].escrow == EscrowReleased
    ensures states[n].pay.trades[t].stage == Completed ==> SettledColumns(states[n].pay.trades[t])
  {
    hide IsRun, LedgerOk, ProfilesOk, TermsOk, RowsOk, AttemptOk, ColumnsOk;
    RunKeeps(states, acts, n);
    RunLength(states, acts);
    ColumnsOfCompleted(states[n].pay.trades[t]);
  }

  /** Before a trade is completed, in this order: a payment that matches it exactly was verified by its
      deadline, the provider confirmed the seller's payout, and the release was confirmed on chain. */
  lemma CompletedWasPaid(states: seq<Sys>, acts: seq<Timed>, n: nat, t: TradeId)
    returns (paid: nat, payout: nat, done: nat, v: Verified)
    requires IsRun(states, acts) && n <= |acts|
    requires t in states[n].pay.trades && states[n].pay.trades[t].stage == Completed
    ensures paid < payout < done < n
    ensures PaidAt(states, acts, paid, t, v) && PaysExactly(states[n].pay.trades[t], v, acts[paid].now)
    ensures MovedAt(states, payout, t, SellerPayoutConfirmed)
    ensures && acts[payout].act.ConfirmPayout? && acts[payout].act.tid == t
            && PayoutStatusOf(acts[payout].act.providerStatus) == PayoutConfirmed
    ensures MovedAt(states, done, t, Completed) && acts[done].act.ConfirmOnChain? && acts[done].act.tid == t
    ensures SettledColumns(states[n].pay.trades[t])
  {
    hide IsRun, Inv, SettlingAction, HandlerEdge, PaysExactly, PaidAt;
    done := EnteredBy(states, acts, n, t, {Completed});
    MoveHasCause(states, acts, done, t, Completed);
    BeforeCompleted(states[done].pay.trades[t].stage);
    var paidOut := {SellerPayoutConfirmed, ReleasePending, ReleaseOnHold, Completed};
    payout := EnteredBy(states, acts, done, t, paidOut);
    var to :| to in paidOut && MovedAt(states, payout, t, to);
    MoveHasCause(states, acts, payout, t, to);
    EntersPaidOut(states[payout].pay.trades[t].stage, to);
    paid, v := PaidBefore(states, acts, payout, t);
    PaidAtTerms(states, acts, paid, n, t, v);
    ReleasedExactly(states, acts, n, t);
  }

  lemma BeforeCompleted(a: Stage)
    requires HandlerEdge(a, Completed) && a != Completed
    ensures a in {ReleasePending, ReleaseOnHold}
  {}

  lemma EntersPaidOut(a: Stage, b: Stage)
    requires HandlerEdge(a, b) && !PaidOut(a) && PaidOut(b)
    ensures b == SellerPayoutConfirmed && PostPaid(a)
  {}

  lemma PaidAtTerms(states: seq<Sys>, acts: seq<Timed>, i: nat, n: nat, t: TradeId, v: Verified)
    requires IsRun(states, acts) && i <= n <= |acts| && PaidAt(states, acts, i, t, v)
    ensures t in states[n].pay.trades && PaysExactly(states[n].pay.trades[t], v, acts[i].now)
  {
    hide IsRun, Inv, SettlingAction;
    RunKeeps(states, acts, i);
    SettlingMeansTerms(states[i], acts[i], t, v);
    TermsAreFixed(states, acts, i, n, t);
  }

  // ---- Transaction ids ---------------------------------------------------------------------------------

  /** A transaction id, once bound to a trade, is never rebound, and processed events and jobs stay. */
  lemma {:induction false} RecordsStay(states: seq<Sys>, acts: seq<Timed>, i: nat, j: nat)
    requires IsRun(states, acts) && i <= j <= |acts|
    ensures RecordsKept(states[i].pay, states[j].pay)
    decreases j
  {
    hide IsRun, GoodStep, RecordsKept;
    RunLength(states, acts);
    if i < j {
      RecordsStay(states, acts, i, j - 1);
      RunStep(states, acts, j - 1);
      StepRecords(states[j - 1], acts[j - 1], states[j]);
      Reconciliation.RecordsStillKept(states[i].pay, states[j - 1].pay, states[j].pay);
    } else {
      NothingMoves(states[i].pay);
    }
  }

  lemma StepRecords(s: Sys, a: Timed, r: Sys)
    requires GoodStep(s, a, r)
    ensures RecordsKept(s.pay, r.pay)
  {
    hide Inv, RecordsKept, Moves;
  }

  /** Each trade's payment is confirmed at most once. */
  lemma ConfirmedOnce(states: seq<Sys>, acts: seq<Timed>, i: nat, j: nat, t: TradeId)
    requires IsRun(states, acts) && i < |acts| && j < |acts|
    requires MovedAt(states, i, t, PaymentConfirmed) && MovedAt(states, j, t, PaymentConfirmed)
    ensures i == j
  {
    hide IsRun, HandlerEdge;
    if i != j {
      var a, b := if i < j then i else j, if i < j then j else i;
      NeverAwaitsAgain(states, acts, a + 1, b, t);
      MoveHasCause(states, acts, b, t, PaymentConfirmed);
      IntoConfirmed(states[b].pay.trades[t].stage);
    }
  }

  lemma IntoConfirmed(a: Stage)
    requires HandlerEdge(a, PaymentConfirmed) && a != PaymentConfirmed
    ensures a == AwaitingPayment
  {}

  /** Each trade's payout is confirmed at most once. */
  lemma PaidOutOnce(states: seq<Sys>, acts: seq<Timed>, i: nat, j: nat, t: TradeId)
    requires IsRun(states, acts) && i < |acts| && j < |acts|
    requires MovedAt(states, i, t, SellerPayoutConfirmed) && MovedAt(states, j, t, SellerPayoutConfirmed)
    ensures i == j
  {
    hide IsRun;
    if i != j {
      var a, b := if i < j then i else j, if i < j then j else i;
      var from := {SellerPayoutConfirmed, ReleasePending, ReleaseOnHold, Completed};
      assert Closed(from);
      StaysClosed(states, acts, a + 1, b, t, from);
      MoveHasCause(states, acts, b, t, SellerPayoutConfirmed);
    }
  }

  /** Each trade is completed at most once. */
  lemma CompletedOnce(states: seq<Sys>, acts: seq<Timed>, i: nat, j: nat, t: TradeId)
    requires IsRun(states, acts) && i < |acts| && j < |acts|
    requires MovedAt(states, i, t, Completed) && MovedAt(states, j, t, Completed)
    ensures i == j
  {
    hide IsRun;
    if i != j {
      CompletedIsFinal(states, acts, (if i < j then i else j) + 1, if i < j then j else i, t);
    }
  }

  /** Step `i` confirmed trade `t` on the strength of transaction `id`. */
  ghost predicate ConfirmedOn(states: seq<Sys>, acts: seq<Timed>, i: nat, t: TradeId, id: FlwTxId) {
    && i < |acts| && MovedAt(states, i, t, PaymentConfirmed)
    && exists v: Verified ::
         v.flwTxId == id && SettlingAction(states[i], acts[i], t, v) && Bound(states[i + 1].pay.consumed, id, t)
  }

  /** No two confirmations of a run rest on the same transaction id. */
  lemma NoSharedTransaction(
    states: seq<Sys>, acts: seq<Timed>, i: nat, t: TradeId, j: nat, u: TradeId, id: FlwTxId)
    requires IsRun(states, acts) && ConfirmedOn(states, acts, i, t, id) && ConfirmedOn(states, acts, j, u, id)
    ensures i == j && t == u
  {
    hide IsRun, RecordsKept, SettlingAction;
    if i < j {
      LaterMustBeSame(states, acts, i, t, j, u, id);
      ConfirmedOnce(states, acts, i, j, t);
    } else if j < i {
      LaterMustBeSame(states, acts, j, u, i, t, id);
      ConfirmedOnce(states, acts, i, j, t);
    } else {
      assert Bound(states[i + 1].pay.consumed, id, t) && Bound(states[i + 1].pay.consumed, id, u);
    }
  }

  lemma LaterMustBeSame(
    states: seq<Sys>, acts: seq<Timed>, i: nat, t: TradeId, j: nat, u: TradeId, id: FlwTxId)
    requires IsRun(states, acts) && i < j
    requires ConfirmedOn(states, acts, i, t, id) && ConfirmedOn(states, acts, j, u, id)
    ensures t == u
  {
    hide IsRun;
    RecordsStay(states, acts, i + 1, j);
    RunLength(states, acts);
    var v: Verified :| v.flwTxId == id && SettlingAction(states[j], acts[j], u, v);
  }

  // ---- Jobs ----------------------------------------------------------------------------------------------

  /** The outbox records a trade's progress: the payout job comes with the confirmed payment and never
      before it, the release job with the confirmed payout. */
  lemma JobsFollowProgress(states: seq<Sys>, acts: seq<Timed>, n: nat, t: TradeId)
    requires IsRun(states, acts) && n <= |acts| && t in states[n].pay.trades
    ensures var x, jobs := states[n].pay.trades[t].stage, states[n].pay.jobs;
            && (PostPaid(x) ==> PayoutJob(t) in jobs)
            && (x == AwaitingPayment ==> PayoutJob(t) !in jobs)
            && (PaidOut(x) <==> ReleaseJob(t) in jobs)
  {
    hide IsRun, LedgerOk, ProfilesOk, TermsOk, ColumnsOk, AttemptOk;
    RunKeeps(states, acts, n);
    RunLength(states, acts);
    assert RowsOk(states[n].pay, t);
  }

  // ---- Repeated webhooks -----------------------------------------------------------------------------------

  predicate DeliversEvent(a: Timed, e: EventId) { a.act.Deliver? && a.act.event == e }

  lemma DeliveryIsRecorded(s: Sys, a: Timed, r: Sys, e: EventId)
    requires Inv(s) && Next(s, a, r) && DeliversEvent(a, e)
    ensures e in r.pay.inbox
  {
    hide Inv, ApplyVerified, TablesOkExcept;
    assert TablesOk(s.pay) by { Reconciliation.InvParts(s); }
    WebhookKeeps(s.pay, e, a.act.eventRef, a.act.parsed, a.now);
  }

  lemma ReplayIsIgnored(s: Sys, a: Timed, r: Sys, e: EventId)
    requires Next(s, a, r) && DeliversEvent(a, e) && e in s.pay.inbox
    ensures r == s
  {}

  /** A webhook event that was delivered before, even one whose processing failed, changes nothing. */
  lemma DuplicateIsIgnored(states: seq<Sys>, acts: seq<Timed>, i: nat, j: nat, e: EventId)
    requires IsRun(states, acts) && i < j < |acts| && DeliversEvent(acts[i], e) && DeliversEvent(acts[j], e)
    ensures states[j + 1] == states[j]
  {
    hide Inv, Next, DeliversEvent;
    RunKeeps(states, acts, i);
    DeliveryIsRecorded(states[i], acts[i], states[i + 1], e);
    RecordsStay(states, acts, i + 1, j);
    ReplayIsIgnored(states[j], acts[j], states[j + 1], e);
  }

  predicate Delivered(acts: seq<Timed>, e: EventId) { exists i :: 0 <= i < |acts| && DeliversEvent(acts[i], e) }

  /** The actions without the repeated deliveries. */
  function Deduplicated(acts: seq<Timed>): seq<Timed> {
    if acts == [] then [] else
    var before, last := acts[..|acts| - 1], acts[|acts| - 1];
    Deduplicated(before)
    + if last.act.Deliver? && Delivered(before, last.act.event) then [] else [last]
  }

  /** Removing every repeated delivery from a run gives a run that ends in the same state. */
  lemma {:induction false} DuplicatesDoNotMatter(states: seq<Sys>, acts: seq<Timed>) returns (fewer: seq<Sys>)
    requires IsRun(states, acts)
    ensures IsRun(fewer, Deduplicated(acts))
    ensures fewer[0] == states[0] && fewer[|Deduplicated(acts)|] == states[|acts|]
    decreases |acts|
  {
    hide Next, Inv, Empty;
    if acts == [] {
      fewer := states;
    } else {
      var n := |acts| - 1;
      PrefixOfRun(states, acts);
      var shorter := DuplicatesDoNotMatter(states[..n + 1], acts[..n]);
      var last := acts[n];
      if last.act.Deliver? && Delivered(acts[..n], last.act.event) {
        var i :| 0 <= i < n && DeliversEvent(acts[..n][i], last.act.event);
        DuplicateIsIgnored(states, acts, i, n, last.act.event);
        fewer := shorter;
      } else {
        ExtendRun(shorter, Deduplicated(acts[..n]), last, states[n + 1]);
        fewer := shorter + [states[n + 1]];
      }
    }
  }

  lemma PrefixOfRun(states: seq<Sys>, acts: seq<Timed>)
    requires IsRun(states, acts) && acts != []
    ensures IsRun(states[..|acts|], acts[..|acts| - 1])
  {
    hide Next, Empty;
  }

  lemma ExtendRun(states: seq<Sys>, acts: seq<Timed>, a: Timed, r: Sys)
    requires IsRun(states, acts) && Next(states[|acts|], a, r)
    ensures IsRun(states + [r], acts + [a])
  {
    hide Next, Empty;
    var states', acts' := states + [r], acts + [a];
    forall i | 0 <= i < |acts'|
      ensures Next(states'[i], acts'[i], states'[i + 1])
    {
      if i < |acts| { assert Next(states[i], acts[i], states[i + 1]); }
    }
  }

  // ---- Repeated resolution ----------------------------------------------------------------------------------

  lemma EndedServesNothing(s: Sys, t: TradeId)
    requires Inv(s) && t in s.pay.trades && Ended(s.pay.trades[t].stage)
    ensures !Serves(s.listings, t)
  {
    hide TablesOkExcept, ProfilesOk, EntryOk, Sum, HandlerEdge;
    forall l | l in s.listings
      ensures s.listings[l].active != Some(t)
    {
      assert ListingOk(s.listings[l], s.queue, l);
    }
  }

  lemma {:induction false} NeverServesAgain(states: seq<Sys>, acts: seq<Timed>, i: nat, j: nat, t: TradeId)
    requires IsRun(states, acts) && i <= j <= |acts|
    requires t in states[i].pay.trades && !Serves(states[i].listings, t)
    ensures t in states[j].pay.trades && !Serves(states[j].listings, t)
    decreases j
  {
    hide IsRun, GoodStep, Serves;
    RunLength(states, acts);
    if i == j {
    } else {
      NeverServesAgain(states, acts, i, j - 1, t);
      RunStep(states, acts, j - 1);
      StepSeatsNoOld(states[j - 1], acts[j - 1], states[j], t);
    }
  }

  lemma StepSeatsNoOld(s: Sys, a: Timed, r: Sys, t: TradeId)
    requires GoodStep(s, a, r) && t in s.pay.trades && !Serves(s.listings, t)
    ensures t in r.pay.trades && !Serves(r.listings, t)
  {
    hide Inv, RecordsKept, Moves, Serves;
  }

  /** Once a trade has been completed or cancelled, resolving it again at any later moment of the run
      changes nothing, even after a late payment and a second refund. */
  lemma ResolvedForGood(
    states: seq<Sys>, acts: seq<Timed>, i: nat, j: nat, t: TradeId, completed: bool, hint: Visit, now: Time)
    requires IsRun(states, acts) && i <= j <= |acts|
    requires t in states[i].pay.trades && Ended(states[i].pay.trades[t].stage)
    ensures Resolve(states[j], t, completed, hint, now) == states[j]
  {
    hide IsRun, Inv, FreeSlot, SettleEntries, Promote;
    RunKeeps(states, acts, i);
    RunLength(states, acts);
    EndedServesNothing(states[i], t);
    NeverServesAgain(states, acts, i, j, t);
  }

  predicate InSlotOf(q: Queue, l: ListingRef, k: QueueRef) {
    k in q && q[k].listing == l && q[k].status == ActiveSlot
  }

  /** Between handlers the trade that holds a slot has neither completed nor been cancelled, and it is
      the only one: a listing's slot is taken exactly when one entry of its queue is active. */
  lemma SlotHolderIsLive(states: seq<Sys>, acts: seq<Timed>, n: nat, l: ListingRef, now: Time)
    requires IsRun(states, acts) && n <= |acts| && l in states[n].listings
    ensures var s, x := states[n], states[n].listings[l];
            && (x.active.Some? ==> x.active.value in s.pay.trades && !Ended(s.pay.trades[x.active.value].stage))
            && (x.active.Some? <==> x.leaseExpires.Some?) && (x.active.Some? <==> x.leaseOwner.Some?)
            && (HasActiveSlot(x, now) <==> x.active.Some?)
            && (x.active.Some? <==> exists k :: InSlotOf(s.queue, l, k))
            && (forall j, k :: InSlotOf(s.queue, l, j) && InSlotOf(s.queue, l, k) ==> j == k)
  {
    hide IsRun, TablesOkExcept, ProfilesOk, EntryOk, EntryTradeOk, Sum, Ended;
    RunKeeps(states, acts, n);
    RunLength(states, acts);
    var s := states[n];
    OneSlot(s.listings, s.queue, s.pay.trades, {}, l);
    ListingConsequences(s.listings[l], s.queue, l, now);
    assert forall k :: InSlotOf(s.queue, l, k) <==>
             k in s.queue && s.queue[k].listing == l && s.queue[k].status == ActiveSlot;
    if s.listings[l].active.Some? {
      Reconciliation.SlotTrade(s, l);
      var t := s.listings[l].active.value;
      if Ended(s.pay.trades[t].stage) {
        EndedServesNothing(s, t);
      }
    }
  }

  lemma StepOffers(s: Sys, a: Timed, r: Sys, l: ListingRef)
    requires GoodStep(s, a, r) && l in s.listings
    ensures l in r.listings && SameOffer(s.listings[l], r.listings[l])
  {
    hide Inv, RecordsKept, Moves, NoOldTradeSeated, EveryMoveCaused;
  }

  /** A listing never disappears, and its seller, total, rate and currency never change. */
  lemma {:induction false} OfferIsFixed(states: seq<Sys>, acts: seq<Timed>, i: nat, j: nat, l: ListingRef)
    requires IsRun(states, acts) && i <= j <= |acts| && l in states[i].listings
    ensures l in states[j].listings && SameOffer(states[i].listings[l], states[j].listings[l])
    decreases j
  {
    hide IsRun, GoodStep;
    RunLength(states, acts);
    if i == j {
    } else {
      OfferIsFixed(states, acts, i, j - 1, l);
      RunStep(states, acts, j - 1);
      StepOffers(states[j - 1], acts[j - 1], states[j], l);
    }
  }

  /** From its publication on, in every state of a run, a listing's buckets are the sums over the queue
      table and add up to the total it was published with, so the run-time check passes, and it is depleted
      exactly when all of that total was sold. */
  lemma BucketsAreSums(states: seq<Sys>, acts: seq<Timed>, i: nat, n: nat, l: ListingRef)
    requires IsRun(states, acts) && i <= n <= |acts| && l in states[i].listings
    ensures l in states[n].listings
    ensures var q, x, total := states[n].queue, states[n].listings[l], states[i].listings[l].total;
            && x.reserved == Sum(q, l, InReserve) && x.allotted == Sum(q, l, InSlot) && x.filled == Sum(q, l, Sold)
            && x.available + x.reserved + x.allotted + x.filled == x.total == total
            && Conserves(x) && (x.status == Depleted <==> x.filled == total)
  {
    hide IsRun, TablesOkExcept, ProfilesOk, EntryOk, EntryTradeOk, Sum;
    RunKeeps(states, acts, n);
    RunLength(states, acts);
    OfferIsFixed(states, acts, i, n, l);
    ListingConsequences(states[n].listings[l], states[n].queue, l, 0);
  }
}
