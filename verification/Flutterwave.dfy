/** Judging a provider transaction against the payment attempt it claims to settle
    (rust/src/flutterwave.rs). */
module Flutterwave {
  import opened Core
  import opened Text
  import opened Lifecycle

  datatype AttemptStatus =
    | Initiated | RedirectReady | AttemptPending | AttemptVerified | LateVerified
    | MismatchHold | AttemptFailed | AttemptExpired | Abandoned

  datatype FailureCode = UnderpaidCode | OverpaidCode | ProviderFailedCode | ProviderOutageCode

  datatype Attempt = Attempt(
    tradeId: TradeId,
    buyer: Address,
    txRef: TxRef,
    flwTxId: Option<FlwTxId>,
    expectedMinor: U128,
    expectedCurrency: string,
    settledMinor: Option<U128>,
    feeMinor: Option<U128>,
    hasUrl: bool,
    status: AttemptStatus,
    failure: Option<FailureCode>,
    expiresAt: Time,
    verifiedAt: Option<Time>)

  /** The fields of a provider verification response. */
  datatype Verified = Verified(
    flwTxId: FlwTxId,
    txRef: TxRef,
    status: string,
    currency: string,
    amountMinor: U128,
    settledMinor: Option<U128>,
    feeMinor: Option<U128>,
    tradeMeta: Option<TradeId>,
    buyerMeta: Option<Address>)

  datatype Outcome =
    | PaidInFull(flwTxId: FlwTxId, settled: U128, fee: U128, late: bool)
    | TooLittle(flwTxId: FlwTxId, expected: U128, received: U128)
    | TooMuch(flwTxId: FlwTxId, expected: U128, received: U128)
    | StillPending(flwTxId: FlwTxId)
    | NotPaid

  datatype Judgement = Judgement(outcome: Outcome, attempt: AttemptStatus, payment: PaymentState)

  const SUCCESSFUL := "successful"

  predicate IsPendingStatus(s: string) { s in {"pending", "processing", "queued"} }

  function OrElse<T>(o: Option<T>, default: T): T {
    if o.Some? then o.value else default
  }

  function EvaluateVerified(a: Attempt, v: Verified, deadline: Option<Time>, now: Time): Result<Judgement> {
    if v.txRef != a.txRef then Err(TxRefMismatch)
    else if v.tradeMeta.Some? && v.tradeMeta.value != a.tradeId then Err(MetaTradeMismatch)
    else if v.buyerMeta.Some? && v.buyerMeta.value != a.buyer then Err(MetaBuyerMismatch)
    else if Upper(v.currency) != Upper(a.expectedCurrency) then Err(CurrencyMismatch)
    else if v.status == SUCCESSFUL then
      if v.amountMinor < a.expectedMinor then
        Ok(Judgement(TooLittle(v.flwTxId, a.expectedMinor, v.amountMinor), MismatchHold, Underpaid))
      else if v.amountMinor > a.expectedMinor then
        Ok(Judgement(TooMuch(v.flwTxId, a.expectedMinor, v.amountMinor), MismatchHold, Overpaid))
      else
        var late := (deadline.Some? && now > deadline.value) || now > a.expiresAt;
        var settled := OrElse(v.settledMinor, v.amountMinor);
        var fee := OrElse(v.feeMinor, 0);
        if late then Ok(Judgement(PaidInFull(v.flwTxId, settled, fee, true), LateVerified, LateConfirmed))
        else Ok(Judgement(PaidInFull(v.flwTxId, settled, fee, false), AttemptVerified, Confirmed))
    else if IsPendingStatus(v.status) then
      Ok(Judgement(StillPending(v.flwTxId), AttemptPending, PendingVerification))
    else Ok(Judgement(NotPaid, AttemptFailed, PaymentFailed))
  }

  /** The payment described by `v` settles attempt `a` exactly and in time. */
  predicate SettlesInTime(a: Attempt, v: Verified, deadline: Option<Time>, now: Time) {
    && v.txRef == a.txRef
    && (v.tradeMeta.Some? ==> v.tradeMeta.value == a.tradeId)
    && (v.buyerMeta.Some? ==> v.buyerMeta.value == a.buyer)
    && Upper(v.currency) == Upper(a.expectedCurrency)
    && v.status == SUCCESSFUL
    && v.amountMinor == a.expectedMinor
    && now <= a.expiresAt
    && (deadline.Some? ==> now <= deadline.value)
  }

  /** A transaction is confirmed on time exactly when it settles the attempt: right reference, right
      currency, successful, the exact amount, not after the deadline. A shortfall or an excess is
      never confirmed (README.md asks only for "at least" the amount). */
  lemma ConfirmedExactly(a: Attempt, v: Verified, deadline: Option<Time>, now: Time)
    ensures var r := EvaluateVerified(a, v, deadline, now);
            (r.Ok? && r.value.outcome.PaidInFull? && !r.value.outcome.late)
            <==> SettlesInTime(a, v, deadline, now)
    ensures var r := EvaluateVerified(a, v, deadline, now);
            r.Ok? ==> (r.value.payment == Confirmed <==> r.value.attempt == AttemptVerified)
                      && (r.value.payment == Confirmed <==> SettlesInTime(a, v, deadline, now))
  {}

  function PayoutStatusOf(status: string): PayoutState {
    var s := Upper(Trim(status));
    if s in {"SUCCESSFUL", "COMPLETED"} then PayoutConfirmed
    else if s in {"NEW", "PENDING", "PROCESSING", "QUEUED"} then PayoutProcessing
    else PayoutHeld
  }

  function RefundStatusOf(status: string): RefundState {
    var s := Lower(Trim(status));
    if s in {"completed", "successful", "refunded"} then RefundCompleted
    else if s in {"pending", "processing", "new"} then RefundProcessing
    else RefundFailed
  }
}
