/** The trade record: states, the transition table, creation and versioned transitions
    (rust/src/lifecycle.rs). */
module Lifecycle {
  import opened Core
  import opened Text

  datatype Stage =
    | Open
    | AwaitingPayment
    | PaymentConfirmed
    | SellerPayoutPending
    | SellerPayoutConfirmed
    | ReleasePending
    | Completed
    | PayoutOnHold
    | RefundPending
    | ReleaseOnHold
    | LatePaymentReview
    | Cancelled
    | Disputed

  datatype PaymentState =
    | Unpaid | CheckoutCreated | PendingVerification | Confirmed | LateConfirmed
    | Underpaid | Overpaid | PaymentFailed | PaymentExpired

  datatype PayoutState =
    PayoutNotStarted | PayoutQueued | PayoutProcessing | PayoutConfirmed | PayoutHeld | PayoutFailed

  datatype RefundState =
    NoRefund | RefundRequested | RefundApproved | RefundProcessing | RefundCompleted | RefundFailed | RefundRejected

  datatype EscrowState =
    | EscrowCreated | EscrowFunded | FiatSent | EscrowReleasePending
    | EscrowReleased | EscrowOnHold | EscrowCancelled | EscrowDisputed

  datatype Trade = Trade(
    seller: Address,
    buyer: Option<Address>,
    units: U128,
    feeUnits: U128,
    currency: string,
    fiatMinor: U128,
    rateMinor: U128,
    stage: Stage,
    payment: PaymentState,
    payout: PayoutState,
    refund: RefundState,
    escrow: EscrowState,
    deadline: Option<Time>,
    releaseHash: Option<Hash>,
    proofId: Option<Hash>,
    version: U32)

  predicate CanTransitionTo(from: Stage, to: Stage) {
    from == to ||
    match (from, to)
    case (Open, AwaitingPayment) => true
    case (Open, Cancelled) => true
    case (AwaitingPayment, PaymentConfirmed) => true
    case (AwaitingPayment, LatePaymentReview) => true
    case (AwaitingPayment, RefundPending) => true
    case (AwaitingPayment, Cancelled) => true
    case (AwaitingPayment, Disputed) => true
    case (PaymentConfirmed, SellerPayoutPending) => true
    case (PaymentConfirmed, PayoutOnHold) => true
    case (PaymentConfirmed, RefundPending) => true
    case (PaymentConfirmed, Disputed) => true
    case (SellerPayoutPending, SellerPayoutConfirmed) => true
    case (SellerPayoutPending, PayoutOnHold) => true
    case (SellerPayoutPending, Disputed) => true
    case (PayoutOnHold, SellerPayoutPending) => true
    case (PayoutOnHold, SellerPayoutConfirmed) => true
    case (PayoutOnHold, RefundPending) => true
    case (PayoutOnHold, Disputed) => true
    case (SellerPayoutConfirmed, ReleasePending) => true
    case (SellerPayoutConfirmed, ReleaseOnHold) => true
    case (SellerPayoutConfirmed, Disputed) => true
    case (ReleasePending, Completed) => true
    case (ReleasePending, ReleaseOnHold) => true
    case (ReleasePending, Disputed) => true
    case (ReleaseOnHold, ReleasePending) => true
    case (ReleaseOnHold, Completed) => true
    case (ReleaseOnHold, Disputed) => true
    case (LatePaymentReview, PaymentConfirmed) => true
    case (LatePaymentReview, RefundPending) => true
    case (LatePaymentReview, Disputed) => true
    case (RefundPending, Cancelled) => true
    case (RefundPending, Disputed) => true
    case _ => false
  }

  // ---- Creation ------------------------------------------------------------------------------

  /** Minor fiat units for an amount of micro-USDC, or nothing if the product overflows. */
  function Convert(units: U128, rateMinor: U128): Option<U128> {
    if units * rateMinor < U128_SIZE then Some(units * rateMinor / 1_000_000) else None
  }

  const MIN_FIAT_MINOR := 100

  function NewAwaitingPayment(
    seller: Address, buyer: Address, units: U128, rateMinor: U128, currency: string, timeoutMinutes: nat, now: Time)
    : Result<Trade>
  {
    if seller == buyer || units == 0 || rateMinor == 0 then Err(BadRequest) else
    match Convert(units, rateMinor)
    case None => Err(BadRequest)
    case Some(fiat) =>
      if fiat < MIN_FIAT_MINOR then Err(BadRequest)
      else Ok(Trade(seller, Some(buyer), units, WrapMul(units, 100) / 10_000, Upper(currency), fiat, rateMinor,
                    AwaitingPayment, Unpaid, PayoutNotStarted, NoRefund, EscrowFunded,
                    Some(now + 60 * timeoutMinutes), None, None, 1))
  }

  /** Up to 10,000 USDC the one-percent platform fee is computed without wrap-around. */
  lemma FeeIsOnePercent(
    seller: Address, buyer: Address, units: U128, rateMinor: U128, currency: string, timeoutMinutes: nat, now: Time)
    requires units <= 10_000_000_000
    ensures var r := NewAwaitingPayment(seller, buyer, units, rateMinor, currency, timeoutMinutes, now);
            r.Ok? ==> r.value.feeUnits * 100 <= units < (r.value.feeUnits + 1) * 100
  {}

  // ---- Versioned transitions -----------------------------------------------------------------

  datatype AuditEvent = AuditEvent(previous: Stage, next: Stage)

  function Advance(t: Trade, next: Stage): Trade {
    t.(stage := next, version := WrapAdd32(t.version, 1))
  }

  /** A transition that names the version it expects to change. */
  function Transitioned(t: Trade, expected: U32, next: Stage): (Trade, Result<AuditEvent>) {
    if t.version != expected then (t, Err(VersionMismatch))
    else if !CanTransitionTo(t.stage, next) then (t, Err(IllegalTransition))
    else (Advance(t, next), Ok(AuditEvent(t.stage, next)))
  }

  class TradeCell {
    var trade: Trade

    constructor (trade: Trade)
      ensures this.trade == trade
    {
      this.trade := trade;
    }

    method Transition(expected: U32, next: Stage) returns (event: Result<AuditEvent>)
      modifies this
      ensures (trade, event) == Transitioned(old(trade), expected, next)
    {
      if trade.version != expected {
        return Err(VersionMismatch);
      }
      if !CanTransitionTo(trade.stage, next) {
        return Err(IllegalTransition);
      }
      event := Ok(AuditEvent(trade.stage, next));
      trade := trade.(stage := next, version := WrapAdd32(trade.version, 1));
    }
  }

  datatype Call = Call(expected: U32, next: Stage)

  /** One audit row: the event together with the version the successful call expected. */
  datatype AuditRow = AuditRow(version: U32, event: AuditEvent)

  /** The record and the audit trail after a series of calls, oldest first. */
  function RunCalls(t: Trade, calls: seq<Call>): (Trade, seq<AuditRow>) {
    if calls == [] then (t, []) else
    var (u, trail) := RunCalls(t, calls[..|calls| - 1]);
    var c := calls[|calls| - 1];
    var (v, r) := Transitioned(u, c.expected, c.next);
    if r.Ok? then (v, trail + [AuditRow(c.expected, r.value)]) else (u, trail)
  }

  /** Consecutive versions, each event starting where the one before ended, all of them legal. */
  predicate IsChain(t: Trade, trail: seq<AuditRow>) {
    forall i :: 0 <= i < |trail| ==>
      && trail[i].version == t.version + i
      && trail[i].event.previous == (if i == 0 then t.stage else trail[i - 1].event.next)
      && CanTransitionTo(trail[i].event.previous, trail[i].event.next)
  }

  /** Whatever versions the callers expect, refused calls leave no mark, accepted calls carry
      consecutive versions, so no version is used twice, and their events form an unbroken chain
      from the first stage to the current one. */
  lemma {:induction false} TransitionsFormChain(t: Trade, calls: seq<Call>)
    requires t.version + |calls| < 0x1_0000_0000
    ensures var (u, trail) := RunCalls(t, calls);
            && |trail| <= |calls|
            && IsChain(t, trail)
            && u.version == t.version + |trail|
            && u.stage == (if trail == [] then t.stage else trail[|trail| - 1].event.next)
            && u == t.(stage := u.stage, version := u.version)
  {
    if calls == [] {
    } else {
      TransitionsFormChain(t, calls[..|calls| - 1]);
    }
  }

  /** No two accepted calls of a run expected the same version. */
  lemma VersionsUsedOnce(t: Trade, calls: seq<Call>, i: nat, j: nat)
    requires t.version + |calls| < 0x1_0000_0000
    requires i < j < |RunCalls(t, calls).1|
    ensures RunCalls(t, calls).1[i].version != RunCalls(t, calls).1[j].version
  {
    TransitionsFormChain(t, calls);
  }

  // ---- Release gate --------------------------------------------------------------------------

  predicate ReleaseEligible(t: Trade) {
    && t.stage in {SellerPayoutConfirmed, ReleasePending, ReleaseOnHold}
    && t.payment == Confirmed
    && t.payout == PayoutConfirmed
    && t.refund in {NoRefund, RefundRejected}
    && t.buyer.Some?
  }
}
