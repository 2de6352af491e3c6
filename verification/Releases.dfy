/** How a completed trade got through the release, and what its payment column says by then. */
module Releases {
  import opened Core
  import opened Lifecycle
  import opened Flutterwave
  import opened Payments
  import opened Settlement
  import opened System
  import opened Invariant
  import opened Reconciliation
  import opened Safety
  import opened Columns

  // ---- The gate ----------------------------------------------------------------------------------------

  /** Step `i` submitted the trade's release through the open gate. */
  predicate GatePassedAt(states: seq<Sys>, acts: seq<Timed>, i: nat, t: TradeId) {
    && i < |acts| && i < |states| && acts[i].act.SubmitRelease? && acts[i].act.tid == t
    && t in states[i].pay.trades && ReleaseEligible(states[i].pay.trades[t])
  }

  /** Step `i` put the trade on release hold. */
  predicate HeldAt(states: seq<Sys>, acts: seq<Timed>, i: nat, t: TradeId) {
    i < |acts| && MovedAt(states, i, t, ReleaseOnHold) && acts[i].act.RevertRelease? && acts[i].act.tid == t
  }

  predicate InStage(states: seq<Sys>, i: nat, t: TradeId, s: Stage) {
    i < |states| && t in states[i].pay.trades && states[i].pay.trades[t].stage == s
  }

  /** Every trade in the release stages or completed left SellerPayoutConfirmed either through the gate,
      which was open, or straight into a hold. */
  lemma ReleaseCarriedBy(states: seq<Sys>, acts: seq<Timed>, n: nat, t: TradeId) returns (i: nat)
    requires IsRun(states, acts) && n <= |acts|
    requires t in states[n].pay.trades && states[n].pay.trades[t].stage in {ReleasePending, ReleaseOnHold, Completed}
    ensures i < n && InStage(states, i, t, SellerPayoutConfirmed)
    ensures (GatePassedAt(states, acts, i, t) && MovedAt(states, i, t, ReleasePending)) || HeldAt(states, acts, i, t)
  {
    hide IsRun, HandlerEdge, ReleaseEligible;
    var release := {ReleasePending, ReleaseOnHold, Completed};
    i := EnteredBy(states, acts, n, t, release);
    var to :| to in release && MovedAt(states, i, t, to);
    MoveHasCause(states, acts, i, t, to);
    IntoRelease(states[i].pay.trades[t].stage, to);
  }

  lemma IntoRelease(a: Stage, b: Stage)
    requires HandlerEdge(a, b) && a !in {ReleasePending, ReleaseOnHold, Completed}
    requires b in {ReleasePending, ReleaseOnHold, Completed}
    ensures a == SellerPayoutConfirmed && b != Completed
  {}

  /** A trade has passed the gate exactly when it has been in ReleasePending; one that never was has been
      carried by holds alone. */
  lemma GatePassedExactly(states: seq<Sys>, acts: seq<Timed>, n: nat, t: TradeId)
    requires IsRun(states, acts) && n <= |acts|
    ensures (exists i :: 0 <= i < n && GatePassedAt(states, acts, i, t))
        <==> (exists j :: 0 <= j <= n && InStage(states, j, t, ReleasePending))
  {
    hide IsRun, ReleaseEligible;
    RunLength(states, acts);
    if i :| 0 <= i < n && GatePassedAt(states, acts, i, t) {
      SubmissionMoves(states, acts, i, t);
      assert InStage(states, i + 1, t, ReleasePending);
    }
    if j :| 0 <= j <= n && InStage(states, j, t, ReleasePending) {
      var i := EnteredBy(states, acts, j, t, {ReleasePending});
      MoveHasCause(states, acts, i, t, ReleasePending);
      assert GatePassedAt(states, acts, i, t);
    }
  }

  lemma SubmissionMoves(states: seq<Sys>, acts: seq<Timed>, i: nat, t: TradeId)
    requires IsRun(states, acts) && GatePassedAt(states, acts, i, t)
    ensures InStage(states, i + 1, t, ReleasePending)
  {
    hide RequestRelease, ReleaseEligible, Empty, Possible;
    assert Next(states[i], acts[i], states[i + 1]);
    EligibleMoves(states[i].pay, t, acts[i].act.txHash, acts[i].act.proof);
  }

  lemma EligibleMoves(p: Tables, t: TradeId, txHash: Option<Hash>, proof: Option<Hash>)
    requires t in p.trades && ReleaseEligible(p.trades[t])
    ensures var q := RequestRelease(p, t, txHash, proof).0; t in q.trades && q.trades[t].stage == ReleasePending
  {}

  /** The gate guards the request only: a release put on hold straight after the payout can be confirmed
      whatever the payment column says by then, while the request is refused unless it says Confirmed. */
  lemma HoldThenConfirmSkipsGate(p: Tables, tid: TradeId, txHash: Hash, proof: Option<Hash>)
    requires tid in p.trades && p.trades[tid].stage == SellerPayoutConfirmed
    ensures var held := HoldRelease(p, tid, None).0;
            var done := ReleaseComplete(held, tid, Some(txHash)).0;
            && tid in done.trades && done.trades[tid].stage == Completed
            && done.trades[tid].payment == p.trades[tid].payment
            && (p.trades[tid].payment != Confirmed ==>
                  RequestRelease(p, tid, Some(txHash), proof) == (p, Refused(ReleaseGateClosed)))
  {
    hide WrapAdd32;
    var held := HoldRelease(p, tid, None).0;
    assert held.trades[tid].stage == ReleaseOnHold;
  }

  // ---- The payment column --------------------------------------------------------------------------------

  /** Step `j` delivers a payment to the trade, and it takes effect. */
  predicate DeliveredAt(states: seq<Sys>, acts: seq<Timed>, j: nat, t: TradeId) {
    j < |acts| && j < |states| && DeliveredTo(states[j], acts[j], t).Some?
  }

  /** Of the deliveries after step `i` the last one, at step `j`, was no full payment in time. */
  predicate LastDenies(states: seq<Sys>, acts: seq<Timed>, i: nat, n: nat, t: TradeId, j: nat) {
    && i < j < n && DeliveredAt(states, acts, j, t)
    && !ConfirmsInTime(DeliveredTo(states[j], acts[j], t).value.outcome)
    && forall k :: j < k < n ==> !DeliveredAt(states, acts, k, t)
  }

  ghost predicate Denied(states: seq<Sys>, acts: seq<Timed>, i: nat, n: nat, t: TradeId) {
    exists j :: LastDenies(states, acts, i, n, t, j)
  }

  lemma PaymentAfterStep(states: seq<Sys>, acts: seq<Timed>, n: nat, t: TradeId)
    requires IsRun(states, acts) && n < |acts|
    requires t in states[n].pay.trades && states[n].pay.trades[t].stage != AwaitingPayment
    ensures t in states[n + 1].pay.trades
    ensures states[n + 1].pay.trades[t].payment
         == if DeliveredAt(states, acts, n, t) then JudgedPayment(DeliveredTo(states[n], acts[n], t).value)
            else states[n].pay.trades[t].payment
  {
    hide Inv, Empty, Step, Possible, DeliveredTo, Opens, Lapsed, JudgedPayment;
    assert Next(states[n], acts[n], states[n + 1]);
    RunKeeps(states, acts, n);
    StepColumns(states[n], acts[n], t);
    NotWaiting(states[n], acts[n], t);
  }

  /** A trade that does not wait is out of reach of checkouts and of the pass. */
  lemma NotWaiting(s: Sys, a: Timed, t: TradeId)
    requires t in s.pay.trades && s.pay.trades[t].stage != AwaitingPayment
    ensures ColumnAfter(s, a, t).payment
         == if DeliveredTo(s, a, t).Some? then JudgedPayment(DeliveredTo(s, a, t).value) else s.pay.trades[t].payment
  {
    hide Accepted, Reusable, InFlight;
  }

  lemma ConfirmingWrites(states: seq<Sys>, acts: seq<Timed>, i: nat, t: TradeId)
    requires IsRun(states, acts) && i < |acts| && MovedAt(states, i, t, PaymentConfirmed)
    ensures states[i + 1].pay.trades[t].payment == Confirmed
  {
    hide Inv, Empty, Step, Possible, DeliveredTo, JudgedTrade;
    assert Next(states[i], acts[i], states[i + 1]);
    MoveHasCause(states, acts, i, t, PaymentConfirmed);
    DeliveryExact(states[i], acts[i], t);
    if DeliveredTo(states[i], acts[i], t).Some? {
      ConfirmedColumn(states[i].pay.trades[t], DeliveredTo(states[i], acts[i], t).value);
    }
  }

  lemma ConfirmedColumn(t: Trade, j: Judgement)
    requires t.stage != PaymentConfirmed && JudgedTrade(t, j).stage == PaymentConfirmed
    ensures JudgedTrade(t, j).payment == Confirmed
  {}

  lemma ConfirmsExactly(j: Judgement)
    ensures JudgedPayment(j) == Confirmed <==> ConfirmsInTime(j.outcome)
  {}

  /** From the step that confirmed a trade on, its payment column differs from Confirmed exactly when the
      last delivery since then that took effect was something other than a full payment in time. */
  lemma {:induction false} PaymentColumnExactly(states: seq<Sys>, acts: seq<Timed>, i: nat, n: nat, t: TradeId)
    requires IsRun(states, acts) && i < n <= |acts| && MovedAt(states, i, t, PaymentConfirmed)
    ensures t in states[n].pay.trades
    ensures states[n].pay.trades[t].payment != Confirmed <==> Denied(states, acts, i, n, t)
    decreases n
  {
    hide IsRun, DeliveredTo, JudgedPayment, ConfirmsInTime;
    RunLength(states, acts);
    if n == i + 1 {
      ConfirmingWrites(states, acts, i, t);
    } else {
      PaymentColumnExactly(states, acts, i, n - 1, t);
      NeverAwaitsAgain(states, acts, i + 1, n - 1, t);
      PaymentAfterStep(states, acts, n - 1, t);
      if DeliveredAt(states, acts, n - 1, t) {
        var j := DeliveredTo(states[n - 1], acts[n - 1], t).value;
        ConfirmsExactly(j);
        if !ConfirmsInTime(j.outcome) { assert LastDenies(states, acts, i, n, t, n - 1); }
      } else {
        if Denied(states, acts, i, n - 1, t) {
          var k :| LastDenies(states, acts, i, n - 1, t, k);
          assert LastDenies(states, acts, i, n, t, k);
        }
        if Denied(states, acts, i, n, t) {
          var k :| LastDenies(states, acts, i, n, t, k);
          assert LastDenies(states, acts, i, n - 1, t, k);
        }
      }
    }
  }

  /** For a completed trade: the one step that confirmed its payment, the step that carried it into the
      release, and exactly when its payment column does not say Confirmed in the end. */
  lemma CompletedPaymentExactly(states: seq<Sys>, acts: seq<Timed>, n: nat, t: TradeId)
    returns (paid: nat, carried: nat)
    requires IsRun(states, acts) && n <= |acts| && InStage(states, n, t, Completed)
    ensures paid < carried < n && MovedAt(states, paid, t, PaymentConfirmed)
    ensures InStage(states, carried, t, SellerPayoutConfirmed)
    ensures GatePassedAt(states, acts, carried, t) || HeldAt(states, acts, carried, t)
    ensures states[n].pay.trades[t].payment != Confirmed <==> Denied(states, acts, paid, n, t)
  {
    hide IsRun, Denied, GatePassedAt, HeldAt, PaysExactly;
    carried := ReleaseCarriedBy(states, acts, n, t);
    var v: Verified;
    paid, v := PaidBefore(states, acts, carried, t);
    PaymentColumnExactly(states, acts, paid, n, t);
  }
}
