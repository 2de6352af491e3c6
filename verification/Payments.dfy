/** The settlement tables and the handlers that move one trade through checkout, verification,
    payout, refund and release (rust/src/payments_api.rs). Each handler is one atomic step. */
module Payments {
  import opened Core
  import opened Lifecycle
  import opened Flutterwave

  datatype JobKey =
    | VerifyTimeoutJob(ref: TxRef)
    | RetryVerifyJob(ref: TxRef)
    | PayoutJob(trade: TradeId)
    | ReleaseJob(trade: TradeId)

  datatype JobStatus = JobPending | JobCompleted | JobDeadLetter

  datatype Job = Job(status: JobStatus, attempts: U32, maxAttempts: U32, nextRun: Time)

  datatype PayoutRow = PayoutRow(status: PayoutState, attempts: U32, amountMinor: U128)

  datatype RefundRow = RefundRow(status: RefundState, amountMinor: U128)

  datatype ReleaseStatus = Submitted | ReleaseConfirmed | UncertainOnHold

  datatype ReleaseRow = ReleaseRow(status: ReleaseStatus, txHash: Option<Hash>)

  datatype InboxStatus = EventProcessed | EventFailed | EventIgnored

  datatype Config = Config(timeoutMinutes: nat, maxRetries: U32)

  datatype Tables = Tables(
    config: Config,
    trades: map<TradeId, Trade>,
    attempts: map<TxRef, Attempt>,
    checkout: map<TradeId, TxRef>,
    consumed: map<FlwTxId, TradeId>,
    inbox: map<EventId, InboxStatus>,
    jobs: map<JobKey, Job>,
    payouts: map<TradeId, PayoutRow>,
    refunds: map<TradeId, RefundRow>,
    releases: map<TradeId, ReleaseRow>)

  /** Adds a job unless one with the same key exists. */
  function EnqueueOnce(jobs: map<JobKey, Job>, key: JobKey, maxAttempts: U32, now: Time): map<JobKey, Job> {
    if key in jobs then jobs else jobs[key := Job(JobPending, 0, maxAttempts, now)]
  }

  // ---- Checkout ------------------------------------------------------------------------------

  datatype CheckoutReply = HostedLink | NoLink | ProviderTimeout

  /** The trade's current attempt is still open, unexpired and has a hosted page. */
  predicate Reusable(p: Tables, tid: TradeId, now: Time) {
    && tid in p.checkout && p.checkout[tid] in p.attempts
    && var a := p.attempts[p.checkout[tid]];
       a.expiresAt > now && a.status in {Initiated, RedirectReady, AttemptPending} && a.hasUrl
  }

  /** Stores a new current attempt for the trade and asks the provider for a hosted page. */
  function StartAttempt(
    p: Tables, tid: TradeId, t: Trade, caller: Address, ref: TxRef, deadline: Time, reply: CheckoutReply, now: Time)
    : (Tables, Reply)
  {
    var a := Attempt(tid, caller, ref, None, t.fiatMinor, t.currency, None, None, reply.HostedLink?,
                     if reply.HostedLink? then RedirectReady else Initiated, None, deadline, None);
    var q := p.(
      trades := p.trades[tid := t.(payment := CheckoutCreated)],
      attempts := p.attempts[ref := a],
      checkout := p.checkout[tid := ref]);
    match reply
    case HostedLink => (q, Done)
    case NoLink => (q, Refused(ProviderUnavailable))
    case ProviderTimeout =>
      (q.(jobs := EnqueueOnce(p.jobs, VerifyTimeoutJob(ref), p.config.maxRetries, now)),
       Refused(ProviderUnavailable))
  }

  function InitCheckout(
    p: Tables, tid: TradeId, caller: Address, ref: TxRef, reply: CheckoutReply, now: Time): (Tables, Reply)
  {
    if tid !in p.trades then (p, Refused(TradeNotFound)) else
    var t := p.trades[tid];
    if t.seller == caller then (p, Refused(SellerCannotPay))
    else if t.buyer.Some? && t.buyer.value != caller then (p, Refused(NotTradeBuyer))
    else
      var claimed := t.(buyer := Some(caller));
      var p1 := p.(trades := p.trades[tid := claimed]);
      if t.stage != AwaitingPayment then (p1, Refused(NotAwaitingPayment)) else
      var deadline := OrElse(t.deadline, now + 60 * p.config.timeoutMinutes);
      if now >= deadline then (p1, Refused(DeadlineExpired)) else
      var open := claimed.(deadline := Some(deadline));
      if Reusable(p, tid, now) then (p.(trades := p.trades[tid := open]), Done) else
      StartAttempt(p, tid, open, caller, ref, deadline, reply, now)
  }

  // ---- Provider verification -----------------------------------------------------------------

  function JudgedTrade(t: Trade, j: Judgement): Trade {
    match j.outcome
    case PaidInFull(_, _, _, false) =>
      var paid := t.(payment := Confirmed);
      if t.stage == AwaitingPayment then Advance(paid, PaymentConfirmed) else paid
    case PaidInFull(_, _, _, true) =>
      var paid := t.(payment := LateConfirmed);
      if t.stage == AwaitingPayment || t.stage == Cancelled then Advance(paid, LatePaymentReview) else paid
    case TooLittle(_, _, _) => t.(payment := Underpaid)
    case TooMuch(_, _, _) => t.(payment := Overpaid)
    case StillPending(_) => t.(payment := j.payment)
    case NotPaid => t.(payment := PaymentFailed)
  }

  function JudgedAttempt(a: Attempt, v: Verified, j: Judgement, now: Time): Attempt {
    var b := a.(
      flwTxId := Some(v.flwTxId),
      settledMinor := Some(OrElse(v.settledMinor, v.amountMinor)),
      feeMinor := v.feeMinor,
      status := j.attempt);
    match j.outcome
    case PaidInFull(_, _, _, _) => b.(verifiedAt := Some(now))
    case TooLittle(_, _, _) => b.(failure := Some(UnderpaidCode))
    case TooMuch(_, _, _) => b.(failure := Some(OverpaidCode))
    case StillPending(_) => b
    case NotPaid => b.(failure := Some(ProviderFailedCode))
  }

  /** The transaction id is spent by any full, short or excess payment. */
  predicate Spends(o: Outcome) { o.PaidInFull? || o.TooLittle? || o.TooMuch? }

  predicate ConfirmsInTime(o: Outcome) { o.PaidInFull? && !o.late }

  function ApplyVerified(p: Tables, tid: TradeId, ref: TxRef, parsed: Option<Verified>, now: Time): (Tables, Reply)
  {
    if parsed.None? then (p, Refused(ProviderRejected)) else
    var v := parsed.value;
    if v.flwTxId in p.consumed && p.consumed[v.flwTxId] != tid then (p, Refused(TransactionAlreadyUsed))
    else if ref !in p.attempts then (p, Refused(AttemptNotFound))
    else if p.attempts[ref].tradeId != tid then (p, Refused(CrossTradeReference))
    else if tid !in p.trades then (p, Refused(TradeNotFound))
    else
      var a, t := p.attempts[ref], p.trades[tid];
      if a.status == AttemptVerified && t.payment == Confirmed && a.flwTxId == Some(v.flwTxId) then (p, Done) else
      match EvaluateVerified(a, v, t.deadline, now)
      case Err(e) => (p, Refused(e))
      case Ok(j) =>
        (p.(trades := p.trades[tid := JudgedTrade(t, j)],
            attempts := p.attempts[ref := JudgedAttempt(a, v, j, now)],
            consumed := if Spends(j.outcome) then p.consumed[v.flwTxId := tid] else p.consumed,
            jobs := if ConfirmsInTime(j.outcome) && t.stage == AwaitingPayment
                    then EnqueueOnce(p.jobs, PayoutJob(tid), p.config.maxRetries, now) else p.jobs),
         Done)
  }

  /** What the provider's verification endpoint answered. */
  datatype Fetch = Payload(parsed: Option<Verified>) | Unavailable | NotVerifiable | NotConfigured

  function VerifyPayment(
    p: Tables, tid: TradeId, ref: TxRef, caller: Option<Address>, fetch: Fetch, now: Time): (Tables, Reply)
  {
    if ref !in p.attempts then (p, Refused(AttemptNotFound))
    else if p.attempts[ref].tradeId != tid then (p, Refused(CrossTradeReference))
    else if caller.Some? && tid !in p.trades then (p, Refused(TradeNotFound))
    else if caller.Some? && p.trades[tid].buyer != caller && p.trades[tid].seller != caller.value then
      (p, Refused(NotTradeParticipant))
    else
      match fetch
      case Payload(parsed) => ApplyVerified(p, tid, ref, parsed, now)
      case Unavailable =>
        (p.(jobs := EnqueueOnce(p.jobs, RetryVerifyJob(ref), p.config.maxRetries, now)),
         Refused(ProviderUnavailable))
      case NotVerifiable => (p, Refused(ProviderRejected))
      case NotConfigured => (p, Refused(ProviderUnavailable))
  }

  function Webhook(p: Tables, event: EventId, ref: Option<TxRef>, parsed: Option<Verified>, now: Time): (Tables, Reply)
  {
    if event in p.inbox then (p, Done)
    else if ref.Some? && ref.value in p.attempts then
      var (q, reply) := ApplyVerified(p, p.attempts[ref.value].tradeId, ref.value, parsed, now);
      (q.(inbox := p.inbox[event := if reply.Done? then EventProcessed else EventFailed]), reply)
    else (p.(inbox := p.inbox[event := EventIgnored]), Done)
  }

  // ---- Seller payout -------------------------------------------------------------------------

  function PayoutInitiate(p: Tables, tid: TradeId): (Tables, Reply) {
    if tid !in p.trades then (p, Refused(TradeNotFound)) else
    var t := p.trades[tid];
    if t.payment != Confirmed then (p, Refused(PaymentNotConfirmed))
    else if t.stage !in {PaymentConfirmed, PayoutOnHold, SellerPayoutPending} then (p, Refused(InvalidStateForPayout))
    else
      var attempts := if tid in p.payouts then WrapAdd32(p.payouts[tid].attempts, 1) else 1;
      var moved := if t.stage == SellerPayoutPending then t else Advance(t, SellerPayoutPending);
      (p.(trades := p.trades[tid := moved.(payout := PayoutProcessing)],
          payouts := p.payouts[tid := PayoutRow(PayoutProcessing, attempts, t.fiatMinor)]),
       Done)
  }

  function PayoutConfirm(p: Tables, tid: TradeId, status: string, now: Time): (Tables, Reply) {
    if tid !in p.trades then (p, Refused(TradeNotFound)) else
    var t := p.trades[tid];
    if t.stage !in {SellerPayoutPending, PaymentConfirmed, PayoutOnHold} then (p, Refused(InvalidStateForPayout))
    else if PayoutStatusOf(status) != PayoutConfirmed then (p, Refused(ProviderRejected))
    else
      var pending := if t.stage == PaymentConfirmed then Advance(t, SellerPayoutPending) else t;
      var row := if tid in p.payouts then p.payouts[tid].(status := PayoutConfirmed)
                 else PayoutRow(PayoutConfirmed, 1, t.fiatMinor);
      (p.(trades := p.trades[tid := Advance(pending, SellerPayoutConfirmed).(payout := PayoutConfirmed)],
          payouts := p.payouts[tid := row],
          jobs := EnqueueOnce(p.jobs, ReleaseJob(tid), p.config.maxRetries, now)),
       Done)
  }

  function PayoutHold(p: Tables, tid: TradeId): (Tables, Reply) {
    if tid !in p.trades then (p, Refused(TradeNotFound)) else
    var t := p.trades[tid];
    if !CanTransitionTo(t.stage, PayoutOnHold) then (p, Refused(IllegalTransition))
    else
      var row := if tid in p.payouts then p.payouts[tid].(status := PayoutHeld)
                 else PayoutRow(PayoutHeld, 1, t.fiatMinor);
      (p.(trades := p.trades[tid := Advance(t, PayoutOnHold).(payout := PayoutHeld)],
          payouts := p.payouts[tid := row]),
       Done)
  }

  // ---- Buyer refund --------------------------------------------------------------------------

  function RefundRequest(p: Tables, tid: TradeId): (Tables, Reply) {
    if tid !in p.trades then (p, Refused(TradeNotFound)) else
    var t := p.trades[tid];
    if t.stage !in {PayoutOnHold, LatePaymentReview, PaymentConfirmed, AwaitingPayment} then
      (p, Refused(InvalidStateForRefund))
    else
      (p.(trades := p.trades[tid := Advance(t, RefundPending).(refund := RefundRequested)],
          refunds := p.refunds[tid := RefundRow(RefundRequested, t.fiatMinor)]),
       Done)
  }

  /** The trade's part of settling a refund; its listing is freed and its row closed afterwards. */
  function RefundCancel(p: Tables, tid: TradeId, status: string): (Tables, Reply) {
    if tid !in p.trades then (p, Refused(TradeNotFound)) else
    var t := p.trades[tid];
    if t.stage != RefundPending then (p, Refused(RefundNotPending))
    else if RefundStatusOf(status) != RefundCompleted then (p, Refused(RefundNotSettled))
    else
      (p.(trades := p.trades[tid := Advance(t, Cancelled).(refund := RefundCompleted, escrow := EscrowCancelled)]),
       Done)
  }

  function RefundClose(p: Tables, tid: TradeId): (Tables, Reply) {
    if tid !in p.refunds then (p, Refused(RefundRecordMissing))
    else (p.(refunds := p.refunds[tid := p.refunds[tid].(status := RefundCompleted)]), Done)
  }

  // ---- Escrow release ------------------------------------------------------------------------

  function RequestRelease(p: Tables, tid: TradeId, txHash: Option<Hash>, proof: Option<Hash>): (Tables, Reply) {
    if tid !in p.trades then (p, Refused(TradeNotFound)) else
    var t := p.trades[tid];
    if !ReleaseEligible(t) then (p, Refused(ReleaseGateClosed))
    else
      var moved := Advance(t, ReleasePending).(
        escrow := EscrowReleasePending, releaseHash := txHash, proofId := proof);
      (p.(trades := p.trades[tid := moved], releases := p.releases[tid := ReleaseRow(Submitted, txHash)]), Done)
  }

  /** The trade's part of confirming a release; buyer credit, listing and row follow. */
  function ReleaseComplete(p: Tables, tid: TradeId, txHash: Option<Hash>): (Tables, Reply) {
    if tid !in p.trades then (p, Refused(TradeNotFound)) else
    var t := p.trades[tid];
    if t.stage !in {ReleasePending, ReleaseOnHold} then (p, Refused(ReleaseNotPending))
    else
      var hash := if txHash.Some? then txHash else t.releaseHash;
      if hash.None? then (p, Refused(MissingTxHash))
      else
        (p.(trades := p.trades[tid := Advance(t, Completed).(escrow := EscrowReleased, releaseHash := hash)]), Done)
  }

  function ReleaseClose(p: Tables, tid: TradeId): Tables
    requires tid in p.trades
  {
    p.(releases := p.releases[tid := ReleaseRow(ReleaseConfirmed, p.trades[tid].releaseHash)])
  }

  function HoldRelease(p: Tables, tid: TradeId, txHash: Option<Hash>): (Tables, Reply) {
    if tid !in p.trades then (p, Refused(TradeNotFound)) else
    var t := p.trades[tid];
    if t.stage !in {ReleasePending, SellerPayoutConfirmed, ReleaseOnHold} then (p, Refused(InvalidStateForHold))
    else
      var row := if tid in p.releases then p.releases[tid].(status := UncertainOnHold)
                 else ReleaseRow(UncertainOnHold, txHash);
      (p.(trades := p.trades[tid := Advance(t, ReleaseOnHold).(escrow := EscrowOnHold)],
          releases := p.releases[tid := row]),
       Done)
  }

  // ---- Deadline sweep ------------------------------------------------------------------------

  datatype Verdict = Untouched | Held | Expired(buyer: Option<Address>, outage: bool)

  /** The trade waits for payment and its deadline has passed. */
  predicate Overdue(t: Trade, now: Time) {
    t.stage == AwaitingPayment && t.deadline.Some? && now > t.deadline.value
  }

  predicate NeverPaid(s: PaymentState) { s in {Unpaid, CheckoutCreated, PaymentFailed, PaymentExpired} }

  predicate InFlight(p: Tables, tid: TradeId) {
    && tid in p.checkout && p.checkout[tid] in p.attempts
    && p.attempts[p.checkout[tid]].status in {AttemptPending, AttemptVerified, LateVerified, MismatchHold}
  }

  predicate OutageNoted(p: Tables, tid: TradeId) {
    && tid in p.checkout && p.checkout[tid] in p.attempts
    && p.attempts[p.checkout[tid]].failure == Some(ProviderOutageCode)
  }

  function VerdictOn(p: Tables, tid: TradeId, now: Time): Verdict {
    if tid !in p.trades || !Overdue(p.trades[tid], now) then Untouched
    else if !NeverPaid(p.trades[tid].payment) || InFlight(p, tid) then Held
    else Expired(p.trades[tid].buyer, OutageNoted(p, tid))
  }

  function ExpiredTrade(t: Trade): Trade {
    Advance(t, Cancelled).(payment := PaymentExpired, escrow := EscrowCancelled)
  }

  /** The sweep's work on one trade. */
  function SweepTrade(p: Tables, tid: TradeId, now: Time): Tables {
    if !VerdictOn(p, tid, now).Expired? then p else
    p.(trades := p.trades[tid := ExpiredTrade(p.trades[tid])],
       attempts := if tid in p.checkout && p.checkout[tid] in p.attempts
                   then p.attempts[p.checkout[tid] := p.attempts[p.checkout[tid]].(status := AttemptExpired)]
                   else p.attempts)
  }

  function ProcessedJob(j: Job, now: Time): Job {
    if j.status != JobPending || j.nextRun > now then j else
    var n := WrapAdd32(j.attempts, 1);
    j.(attempts := n, status := if n >= j.maxAttempts then JobDeadLetter else JobCompleted)
  }

  function ProcessJobs(p: Tables, now: Time): Tables {
    p.(jobs := map k | k in p.jobs :: ProcessedJob(p.jobs[k], now))
  }
}
