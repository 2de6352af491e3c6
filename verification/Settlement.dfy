/** What every settlement handler keeps: the tables stay consistent, trades move only along the
    handlers' own edges, and payment is the only way into the paid stages. */
module Settlement {
  import opened Core
  import opened Text
  import opened Lifecycle
  import opened Flutterwave
  import opened Payments
  import Trust

  // ---- Moves of one trade --------------------------------------------------------------------

  /** Stages in which the buyer's payment has been accepted and not sent back. */
  predicate PostPaid(s: Stage) {
    s in {PaymentConfirmed, SellerPayoutPending, PayoutOnHold, SellerPayoutConfirmed,
          ReleasePending, ReleaseOnHold, Completed}
  }

  /** Stages in which the seller has been paid out. */
  predicate PaidOut(s: Stage) { s in {SellerPayoutConfirmed, ReleasePending, ReleaseOnHold, Completed} }

  /** Stages a trade can be in once its refund has begun. */
  predicate Refunding(s: Stage) { s in {RefundPending, Cancelled, LatePaymentReview} }

  /** The stage changes that some handler can make in one step. */
  predicate HandlerEdge(from: Stage, to: Stage) {
    from == to ||
    match from
    case AwaitingPayment => to in {PaymentConfirmed, LatePaymentReview, RefundPending, Cancelled}
    case PaymentConfirmed => to in {SellerPayoutPending, SellerPayoutConfirmed, PayoutOnHold, RefundPending}
    case SellerPayoutPending => to in {SellerPayoutConfirmed, PayoutOnHold}
    case PayoutOnHold => to in {SellerPayoutPending, SellerPayoutConfirmed, RefundPending}
    case SellerPayoutConfirmed => to in {ReleasePending, ReleaseOnHold}
    case ReleasePending => to in {Completed, ReleaseOnHold}
    case ReleaseOnHold => to in {ReleasePending, Completed}
    case RefundPending => to == Cancelled
    case Cancelled => to == LatePaymentReview
    case LatePaymentReview => to == RefundPending
    case _ => false
  }

  /** Every handler edge follows the transition table, at most through SellerPayoutPending, with the
      one exception of a late payment on a cancelled trade. */
  lemma EdgesAreLegal(from: Stage, to: Stage)
    requires HandlerEdge(from, to)
    ensures CanTransitionTo(from, to)
         || (CanTransitionTo(from, SellerPayoutPending) && CanTransitionTo(SellerPayoutPending, to))
         <==> !(from == Cancelled && to == LatePaymentReview)
  {}

  /** The agreed terms of a trade. */
  predicate SameTerms(t: Trade, u: Trade) {
    && u.seller == t.seller && u.buyer == t.buyer && u.units == t.units && u.feeUnits == t.feeUnits
    && u.currency == t.currency && u.fiatMinor == t.fiatMinor && u.rateMinor == t.rateMinor
    && u.deadline == t.deadline
  }

  predicate Moves(t: Trade, u: Trade) { SameTerms(t, u) && HandlerEdge(t.stage, u.stage) }

  /** No trade disappears and every trade moves along an edge, with its terms unchanged. */
  ghost predicate AllMove(p: Tables, q: Tables) {
    && p.config == q.config
    && (forall t :: t in p.trades ==> t in q.trades && Moves(p.trades[t], q.trades[t]))
    && (forall t :: t in q.trades ==> t in p.trades)
  }

  // ---- Invariant -----------------------------------------------------------------------------

  predicate TermsOk(t: Trade) {
    && t.buyer.Some? && t.buyer.value != t.seller && t.deadline.Some?
    && 0 < t.units <= Trust.HIGH_LIMIT
    && Convert(t.units, t.rateMinor) == Some(t.fiatMinor) && t.fiatMinor >= MIN_FIAT_MINOR
    && t.feeUnits * 100 <= t.units < (t.feeUnits + 1) * 100
  }

  /** The payout, refund and escrow columns are determined by the stage, up to what a refund that
      started from different places leaves behind. */
  predicate ColumnsOk(t: Trade) {
    match t.stage
    case AwaitingPayment =>
      && t.payout == PayoutNotStarted && t.refund == NoRefund && t.escrow == EscrowFunded
      && t.payment !in {Confirmed, LateConfirmed, PaymentExpired}
    case PaymentConfirmed => t.payout == PayoutNotStarted && t.refund == NoRefund && t.escrow == EscrowFunded
    case SellerPayoutPending => t.payout == PayoutProcessing && t.refund == NoRefund && t.escrow == EscrowFunded
    case PayoutOnHold => t.payout == PayoutHeld && t.refund == NoRefund && t.escrow == EscrowFunded
    case SellerPayoutConfirmed => t.payout == PayoutConfirmed && t.refund == NoRefund && t.escrow == EscrowFunded
    case ReleasePending => t.payout == PayoutConfirmed && t.refund == NoRefund && t.escrow == EscrowReleasePending
    case ReleaseOnHold => t.payout == PayoutConfirmed && t.refund == NoRefund && t.escrow == EscrowOnHold
    case Completed =>
      t.payout == PayoutConfirmed && t.refund == NoRefund && t.escrow == EscrowReleased && t.releaseHash.Some?
    case RefundPending =>
      && t.payout in {PayoutNotStarted, PayoutHeld} && t.refund == RefundRequested
      && t.escrow in {EscrowFunded, EscrowCancelled}
    case Cancelled =>
      && t.payout in {PayoutNotStarted, PayoutHeld} && t.refund in {NoRefund, RefundCompleted}
      && t.escrow == EscrowCancelled
    case LatePaymentReview =>
      && t.payout in {PayoutNotStarted, PayoutHeld} && t.refund in {NoRefund, RefundCompleted}
      && t.escrow in {EscrowFunded, EscrowCancelled}
    case _ => false
  }

  function ReleaseStatusOf(e: EscrowState): Option<ReleaseStatus> {
    match e
    case EscrowReleasePending => Some(Submitted)
    case EscrowReleased => Some(ReleaseConfirmed)
    case EscrowOnHold => Some(UncertainOnHold)
    case _ => None
  }

  /** The side tables repeat the trade's own columns, and the jobs record its progress. */
  predicate RowsOk(p: Tables, tid: TradeId)
    requires tid in p.trades
  {
    var t := p.trades[tid];
    && (tid in p.payouts <==> t.payout != PayoutNotStarted)
    && (tid in p.payouts ==> p.payouts[tid].status == t.payout && p.payouts[tid].amountMinor == t.fiatMinor)
    && (tid in p.refunds <==> t.refund != NoRefund)
    && (tid in p.refunds ==> p.refunds[tid] == RefundRow(t.refund, t.fiatMinor))
    && (tid in p.releases <==> ReleaseStatusOf(t.escrow).Some?)
    && (tid in p.releases ==> Some(p.releases[tid].status) == ReleaseStatusOf(t.escrow))
    && (tid in p.releases && p.releases[tid].status != UncertainOnHold ==> p.releases[tid].txHash == t.releaseHash)
    && (PostPaid(t.stage) ==> PayoutJob(tid) in p.jobs)
    && (t.stage == AwaitingPayment ==> PayoutJob(tid) !in p.jobs)
    && (ReleaseJob(tid) in p.jobs <==> PaidOut(t.stage))
  }

  predicate AttemptOk(p: Tables, ref: TxRef)
    requires ref in p.attempts
  {
    var a := p.attempts[ref];
    && a.txRef == ref && a.tradeId in p.trades
    && var t := p.trades[a.tradeId];
       && a.expectedMinor == t.fiatMinor && a.expectedCurrency == t.currency
       && t.buyer == Some(a.buyer) && t.deadline == Some(a.expiresAt)
       && a.failure != Some(ProviderOutageCode)
       && (a.status in {AttemptVerified, LateVerified, MismatchHold} ==>
             a.flwTxId.Some? && a.flwTxId.value in p.consumed && p.consumed[a.flwTxId.value] == a.tradeId)
  }

  /** Which trades' side rows are allowed to lag behind, in the middle of a handler. */
  ghost predicate TablesOkExcept(p: Tables, lagging: set<TradeId>) {
    && (forall t :: t in p.trades ==> TermsOk(p.trades[t]) && ColumnsOk(p.trades[t]))
    && (forall t :: t in p.trades && t !in lagging ==> RowsOk(p, t))
    && (forall r :: r in p.attempts ==> AttemptOk(p, r))
    && (forall t :: t in p.checkout ==>
          t in p.trades && p.checkout[t] in p.attempts && p.attempts[p.checkout[t]].tradeId == t)
    && (forall t :: t in p.payouts || t in p.refunds || t in p.releases ==> t in p.trades)
    && (forall t :: PayoutJob(t) in p.jobs || ReleaseJob(t) in p.jobs ==> t in p.trades)
    && (forall x :: x in p.consumed ==> p.consumed[x] in p.trades)
  }

  ghost predicate TablesOk(p: Tables) { TablesOkExcept(p, {}) }

  /** Spent transaction ids stay bound to their trade, processed webhook events stay on record and
      no job is dropped. */
  ghost predicate RecordsKept(p: Tables, q: Tables) {
    && (forall x :: x in p.consumed ==> x in q.consumed && q.consumed[x] == p.consumed[x])
    && (forall e :: e in p.inbox ==> e in q.inbox)
    && (forall k :: k in p.jobs ==> k in q.jobs)
  }

  // ---- Frames --------------------------------------------------------------------------------

  lemma TermsFrame(t: Trade, u: Trade)
    requires TermsOk(t) && SameTerms(t, u)
    ensures TermsOk(u)
  {
    hide Convert;
  }

  /** Nothing recorded about `other` differs between `p` and `q`. */
  predicate SameRows(p: Tables, q: Tables, other: TradeId) {
    && (other in p.payouts <==> other in q.payouts)
    && (other in p.payouts ==> p.payouts[other] == q.payouts[other])
    && (other in p.refunds <==> other in q.refunds)
    && (other in p.refunds ==> p.refunds[other] == q.refunds[other])
    && (other in p.releases <==> other in q.releases)
    && (other in p.releases ==> p.releases[other] == q.releases[other])
    && (PayoutJob(other) in p.jobs <==> PayoutJob(other) in q.jobs)
    && (ReleaseJob(other) in p.jobs <==> ReleaseJob(other) in q.jobs)
  }

  lemma RowsFrame(p: Tables, q: Tables, other: TradeId)
    requires other in p.trades && other in q.trades && q.trades[other] == p.trades[other]
    requires SameRows(p, q, other) && RowsOk(p, other)
    ensures RowsOk(q, other)
  {}

  lemma AttemptFrame(p: Tables, q: Tables, ref: TxRef)
    requires ref in p.attempts && ref in q.attempts && q.attempts[ref] == p.attempts[ref]
    requires AttemptOk(p, ref)
    requires p.attempts[ref].tradeId in q.trades
    requires SameTerms(p.trades[p.attempts[ref].tradeId], q.trades[p.attempts[ref].tradeId])
    requires forall x :: x in p.consumed ==> x in q.consumed && q.consumed[x] == p.consumed[x]
    ensures AttemptOk(q, ref)
  {}

  /** `q` differs from `p` only in trade `tid`, which makes a legal move, and in its own rows. */
  ghost predicate Changes(p: Tables, q: Tables, tid: TradeId) {
    && tid in p.trades && tid in q.trades
    && q == p.(trades := p.trades[tid := q.trades[tid]], payouts := q.payouts, refunds := q.refunds,
               releases := q.releases, jobs := q.jobs)
    && Moves(p.trades[tid], q.trades[tid]) && ColumnsOk(q.trades[tid])
    && (forall o :: o != tid ==> SameRows(p, q, o))
    && (forall k :: k in p.jobs ==> k in q.jobs)
  }

  /** A handler that touches one trade keeps every invariant if it leaves that trade and its rows
      right; in the middle of a handler its rows may lag. */
  lemma OneTrade(p: Tables, q: Tables, tid: TradeId, lagging: set<TradeId>, lagging': set<TradeId>)
    requires TablesOkExcept(p, lagging) && Changes(p, q, tid)
    requires lagging <= lagging' + {tid} && (tid in lagging' || RowsOk(q, tid))
    ensures TablesOkExcept(q, lagging') && AllMove(p, q) && RecordsKept(p, q)
  {
    hide TermsOk, ColumnsOk, RowsOk, AttemptOk, HandlerEdge;
    TermsFrame(p.trades[tid], q.trades[tid]);
    forall o | o in q.trades && o !in lagging'
      ensures RowsOk(q, o)
    {
      if o != tid { RowsFrame(p, q, o); }
    }
    forall r | r in q.attempts
      ensures AttemptOk(q, r)
    {
      AttemptTrade(p, r);
      AttemptFrame(p, q, r);
    }
    forall o | o in q.payouts || o in q.refunds || o in q.releases || PayoutJob(o) in q.jobs || ReleaseJob(o) in q.jobs
      ensures o in q.trades
    {
      assert o == tid || SameRows(p, q, o);
    }
    forall o | o in p.trades
      ensures Moves(p.trades[o], q.trades[o])
    {
      if o != tid { StayIsMove(p.trades[o]); }
    }
  }

  lemma StayIsMove(t: Trade)
    ensures Moves(t, t)
  {}

  lemma AttemptTrade(p: Tables, ref: TxRef)
    requires ref in p.attempts && AttemptOk(p, ref)
    ensures p.attempts[ref].tradeId in p.trades
  {}

  lemma NothingMoves(p: Tables)
    ensures AllMove(p, p) && RecordsKept(p, p)
  {}

  // ---- Handlers, one lemma each ---------------------------------------------------------------
  // First what the handler does to its own trade, then that it keeps the whole invariant.

  lemma PayoutInitiateChanges(p: Tables, tid: TradeId)
    requires tid in p.trades && RowsOk(p, tid) && ColumnsOk(p.trades[tid])
    ensures var (q, r) := PayoutInitiate(p, tid);
            if r == Done then Changes(p, q, tid) && RowsOk(q, tid) else q == p
  {}

  lemma PayoutInitiateKeeps(p: Tables, tid: TradeId)
    requires TablesOk(p)
    ensures var q := PayoutInitiate(p, tid).0; TablesOk(q) && AllMove(p, q) && RecordsKept(p, q)
  {
    hide TermsOk, ColumnsOk, RowsOk, AttemptOk, Changes;
    NothingMoves(p);
    if tid in p.trades {
      PayoutInitiateChanges(p, tid);
      var (q, r) := PayoutInitiate(p, tid);
      if r == Done { OneTrade(p, q, tid, {}, {}); }
    }
  }

  lemma PayoutConfirmChanges(p: Tables, tid: TradeId, status: string, now: Time)
    requires tid in p.trades && RowsOk(p, tid) && ColumnsOk(p.trades[tid])
    ensures var (q, r) := PayoutConfirm(p, tid, status, now);
            if r == Done then Changes(p, q, tid) && RowsOk(q, tid) else q == p
  {
    hide PayoutStatusOf;
  }

  lemma PayoutConfirmKeeps(p: Tables, tid: TradeId, status: string, now: Time)
    requires TablesOk(p)
    ensures var q := PayoutConfirm(p, tid, status, now).0; TablesOk(q) && AllMove(p, q) && RecordsKept(p, q)
  {
    hide TermsOk, ColumnsOk, RowsOk, AttemptOk, Changes;
    NothingMoves(p);
    if tid in p.trades {
      PayoutConfirmChanges(p, tid, status, now);
      var (q, r) := PayoutConfirm(p, tid, status, now);
      if r == Done { OneTrade(p, q, tid, {}, {}); }
    }
  }

  lemma PayoutHoldChanges(p: Tables, tid: TradeId)
    requires tid in p.trades && RowsOk(p, tid) && ColumnsOk(p.trades[tid])
    ensures var (q, r) := PayoutHold(p, tid);
            if r == Done then Changes(p, q, tid) && RowsOk(q, tid) else q == p
  {}

  lemma PayoutHoldKeeps(p: Tables, tid: TradeId)
    requires TablesOk(p)
    ensures var q := PayoutHold(p, tid).0; TablesOk(q) && AllMove(p, q) && RecordsKept(p, q)
  {
    hide TermsOk, ColumnsOk, RowsOk, AttemptOk, Changes;
    NothingMoves(p);
    if tid in p.trades {
      PayoutHoldChanges(p, tid);
      var (q, r) := PayoutHold(p, tid);
      if r == Done { OneTrade(p, q, tid, {}, {}); }
    }
  }

  lemma RefundRequestChanges(p: Tables, tid: TradeId)
    requires tid in p.trades && RowsOk(p, tid) && ColumnsOk(p.trades[tid])
    ensures var (q, r) := RefundRequest(p, tid);
            if r == Done then Changes(p, q, tid) && RowsOk(q, tid) else q == p
  {}

  lemma RefundRequestKeeps(p: Tables, tid: TradeId)
    requires TablesOk(p)
    ensures var q := RefundRequest(p, tid).0; TablesOk(q) && AllMove(p, q) && RecordsKept(p, q)
  {
    hide TermsOk, ColumnsOk, RowsOk, AttemptOk, Changes;
    NothingMoves(p);
    if tid in p.trades {
      RefundRequestChanges(p, tid);
      var (q, r) := RefundRequest(p, tid);
      if r == Done { OneTrade(p, q, tid, {}, {}); }
    }
  }

  lemma RequestReleaseChanges(p: Tables, tid: TradeId, txHash: Option<Hash>, proof: Option<Hash>)
    requires tid in p.trades && RowsOk(p, tid) && ColumnsOk(p.trades[tid])
    ensures var (q, r) := RequestRelease(p, tid, txHash, proof);
            if r == Done then Changes(p, q, tid) && RowsOk(q, tid) else q == p
  {}

  lemma RequestReleaseKeeps(p: Tables, tid: TradeId, txHash: Option<Hash>, proof: Option<Hash>)
    requires TablesOk(p)
    ensures var q := RequestRelease(p, tid, txHash, proof).0; TablesOk(q) && AllMove(p, q) && RecordsKept(p, q)
  {
    hide TermsOk, ColumnsOk, RowsOk, AttemptOk, Changes;
    NothingMoves(p);
    if tid in p.trades {
      RequestReleaseChanges(p, tid, txHash, proof);
      var (q, r) := RequestRelease(p, tid, txHash, proof);
      if r == Done { OneTrade(p, q, tid, {}, {}); }
    }
  }

  lemma HoldReleaseChanges(p: Tables, tid: TradeId, txHash: Option<Hash>)
    requires tid in p.trades && RowsOk(p, tid) && ColumnsOk(p.trades[tid])
    ensures var (q, r) := HoldRelease(p, tid, txHash);
            if r == Done then Changes(p, q, tid) && RowsOk(q, tid) else q == p
  {}

  lemma HoldReleaseKeeps(p: Tables, tid: TradeId, txHash: Option<Hash>)
    requires TablesOk(p)
    ensures var q := HoldRelease(p, tid, txHash).0; TablesOk(q) && AllMove(p, q) && RecordsKept(p, q)
  {
    hide TermsOk, ColumnsOk, RowsOk, AttemptOk, Changes;
    NothingMoves(p);
    if tid in p.trades {
      HoldReleaseChanges(p, tid, txHash);
      var (q, r) := HoldRelease(p, tid, txHash);
      if r == Done { OneTrade(p, q, tid, {}, {}); }
    }
  }

  // The two handlers that also free a seller's slot: the trade first, its row at the end.

  lemma RefundCancelChanges(p: Tables, tid: TradeId, status: string)
    requires tid in p.trades && ColumnsOk(p.trades[tid])
    ensures var (q, r) := RefundCancel(p, tid, status);
            if r == Done then Changes(p, q, tid) && q.trades[tid].stage == Cancelled else q == p
  {
    hide RefundStatusOf;
  }

  lemma RefundCancelKeeps(p: Tables, tid: TradeId, status: string)
    requires TablesOk(p)
    ensures var (q, r) := RefundCancel(p, tid, status);
            if r == Done then TablesOkExcept(q, {tid}) && AllMove(p, q) && RecordsKept(p, q) else q == p
  {
    hide TermsOk, ColumnsOk, RowsOk, AttemptOk, Changes;
    if tid in p.trades {
      RefundCancelChanges(p, tid, status);
      var (q, r) := RefundCancel(p, tid, status);
      if r == Done { OneTrade(p, q, tid, {}, {tid}); }
    }
  }

  /** After the trade's part its refund row still exists, so closing it cannot fail. */
  lemma RefundCloseChanges(p: Tables, tid: TradeId, status: string)
    requires tid in p.trades && RowsOk(p, tid) && ColumnsOk(p.trades[tid])
    ensures var (q, r) := RefundCancel(p, tid, status);
            r == Done ==>
              var (c, r') := RefundClose(q, tid);
              r' == Done && Changes(q, c, tid) && RowsOk(c, tid)
  {
    hide RefundStatusOf, WrapAdd32, HandlerEdge;
    var (q, r) := RefundCancel(p, tid, status);
    if r == Done {
      var c := RefundClose(q, tid).0;
      StayIsMove(q.trades[tid]);
      assert c.trades == q.trades && c.trades[tid].stage == Cancelled;
    }
  }

  lemma ReleaseCompleteChanges(p: Tables, tid: TradeId, txHash: Option<Hash>)
    requires tid in p.trades && ColumnsOk(p.trades[tid])
    ensures var (q, r) := ReleaseComplete(p, tid, txHash);
            if r == Done then Changes(p, q, tid) && q.trades[tid].stage == Completed else q == p
  {}

  lemma ReleaseCompleteKeeps(p: Tables, tid: TradeId, txHash: Option<Hash>)
    requires TablesOk(p)
    ensures var (q, r) := ReleaseComplete(p, tid, txHash);
            if r == Done then TablesOkExcept(q, {tid}) && AllMove(p, q) && RecordsKept(p, q) else q == p
  {
    hide TermsOk, ColumnsOk, RowsOk, AttemptOk, Changes;
    if tid in p.trades {
      ReleaseCompleteChanges(p, tid, txHash);
      var (q, r) := ReleaseComplete(p, tid, txHash);
      if r == Done { OneTrade(p, q, tid, {}, {tid}); }
    }
  }

  lemma ReleaseCloseChanges(p: Tables, tid: TradeId, txHash: Option<Hash>)
    requires tid in p.trades && RowsOk(p, tid) && ColumnsOk(p.trades[tid])
    ensures var (q, r) := ReleaseComplete(p, tid, txHash);
            r == Done ==> var c := ReleaseClose(q, tid); Changes(q, c, tid) && RowsOk(c, tid)
  {
    hide WrapAdd32, CanTransitionTo, HandlerEdge;
    var (q, r) := ReleaseComplete(p, tid, txHash);
    if r == Done {
      var c := ReleaseClose(q, tid);
      StayIsMove(q.trades[tid]);
      assert c.trades == q.trades && c.trades[tid].stage == Completed;
    }
  }

  // ---- Handlers that also write an attempt ------------------------------------------------------

  /** Writing one attempt, making it the current one, or binding a transaction id. */
  lemma OneAttempt(p: Tables, q: Tables, ref: TxRef)
    requires TablesOk(p) && ref in q.attempts
    requires q == p.(attempts := p.attempts[ref := q.attempts[ref]], checkout := q.checkout, consumed := q.consumed)
    requires AttemptOk(q, ref)
    requires ref in p.attempts ==> q.attempts[ref].tradeId == p.attempts[ref].tradeId
    requires forall x :: x in p.consumed ==> x in q.consumed && q.consumed[x] == p.consumed[x]
    requires forall x :: x in q.consumed ==> x in p.consumed || q.consumed[x] in p.trades
    requires forall t :: t in q.checkout ==>
               (t in p.checkout && q.checkout[t] == p.checkout[t])
               || (t in p.trades && q.checkout[t] == ref && q.attempts[ref].tradeId == t)
    ensures TablesOk(q) && RecordsKept(p, q)
  {
    hide TermsOk, ColumnsOk, RowsOk, AttemptOk;
    forall o | o in q.trades
      ensures RowsOk(q, o)
    {
      RowsFrame(p, q, o);
    }
    forall r | r in q.attempts
      ensures AttemptOk(q, r)
    {
      if r != ref {
        AttemptTrade(p, r);
        AttemptFrame(p, q, r);
      }
    }
  }

  /** `q` is `p` after a change of trade `tid` and perhaps a write of one of its attempts. */
  ghost predicate ChangesWithAttempt(p: Tables, q: Tables, tid: TradeId, ref: TxRef) {
    var m := p.(trades := q.trades, jobs := q.jobs);
    Changes(p, m, tid) && RowsOk(m, tid) && WritesAttempt(m, q, tid, ref)
  }

  ghost predicate WritesAttempt(m: Tables, q: Tables, tid: TradeId, ref: TxRef) {
    && ref in q.attempts
    && q == m.(attempts := m.attempts[ref := q.attempts[ref]], checkout := q.checkout, consumed := q.consumed)
    && AttemptOk(q, ref) && q.attempts[ref].tradeId == tid
    && (ref in m.attempts ==> m.attempts[ref].tradeId == tid)
    && (q.checkout == m.checkout || q.checkout == m.checkout[tid := ref])
    && (forall x :: x in m.consumed ==> x in q.consumed && q.consumed[x] == m.consumed[x])
    && (forall x :: x in q.consumed ==> x in m.consumed || q.consumed[x] == tid)
  }

  lemma OneTradeOneAttempt(p: Tables, q: Tables, tid: TradeId, ref: TxRef)
    requires TablesOk(p) && ChangesWithAttempt(p, q, tid, ref)
    ensures TablesOk(q) && AllMove(p, q) && RecordsKept(p, q)
  {
    hide TablesOkExcept, AllMove, RecordsKept, TermsOk, ColumnsOk, RowsOk, AttemptOk, Changes;
    var m := p.(trades := q.trades, jobs := q.jobs);
    ChangesTrade(p, m, tid);
    OneTrade(p, m, tid, {}, {});
    OneAttempt(m, q, ref);
    ThenSameTrades(p, m, q);
  }

  lemma ThenSameTrades(p: Tables, m: Tables, q: Tables)
    requires AllMove(p, m) && RecordsKept(p, m) && RecordsKept(m, q) && q.trades == m.trades && q.config == m.config
    ensures AllMove(p, q) && RecordsKept(p, q)
  {
    hide Moves;
  }

  lemma ChangesTrade(p: Tables, q: Tables, tid: TradeId)
    requires Changes(p, q, tid)
    ensures tid in p.trades && tid in q.trades
  {}

  /** Only the payment column moves while the trade waits for payment. */
  lemma CheckoutTradeChanges(p: Tables, m: Tables, tid: TradeId)
    requires tid in p.trades && ColumnsOk(p.trades[tid]) && RowsOk(p, tid)
    requires p.trades[tid].stage == AwaitingPayment
    requires m == p.(trades := p.trades[tid := p.trades[tid].(payment := CheckoutCreated)], jobs := m.jobs)
    requires forall k :: k in p.jobs ==> k in m.jobs
    requires forall k :: k in m.jobs ==> k in p.jobs || k.VerifyTimeoutJob?
    ensures Changes(p, m, tid) && RowsOk(m, tid)
  {}

  /** A checkout leaves the trade's terms as they were: buyer and deadline were already set. */
  lemma InitCheckoutSameTerms(p: Tables, tid: TradeId, caller: Address, ref: TxRef, reply: CheckoutReply, now: Time)
    requires tid in p.trades && TermsOk(p.trades[tid])
    ensures var q := InitCheckout(p, tid, caller, ref, reply, now).0;
            var t := p.trades[tid];
            q == p || (
              && t.stage == AwaitingPayment && t.buyer == Some(caller) && now < t.deadline.value
              && q == p.(trades := p.trades[tid := t.(payment := CheckoutCreated)], jobs := q.jobs,
                         attempts := p.attempts[ref := q.attempts[ref]], checkout := p.checkout[tid := ref])
              && (forall k :: k in p.jobs ==> k in q.jobs)
              && (forall k :: k in q.jobs ==> k in p.jobs || k.VerifyTimeoutJob?)
              && var a := q.attempts[ref];
                 && a.tradeId == tid && a.buyer == caller && a.txRef == ref && a.expectedMinor == t.fiatMinor
                 && a.expectedCurrency == t.currency && a.expiresAt == t.deadline.value
                 && a.failure.None? && a.status in {Initiated, RedirectReady})
  {
    hide Convert;
    var t := p.trades[tid];
    if t.buyer == Some(caller) {
      assert t.(buyer := Some(caller), deadline := t.deadline) == t;
      assert p.trades[tid := t] == p.trades;
    }
  }

  lemma InitCheckoutChanges(p: Tables, tid: TradeId, caller: Address, ref: TxRef, reply: CheckoutReply, now: Time)
    requires tid in p.trades && TermsOk(p.trades[tid]) && ColumnsOk(p.trades[tid]) && RowsOk(p, tid)
    requires ref !in p.attempts
    ensures var q := InitCheckout(p, tid, caller, ref, reply, now).0;
            q == p || ChangesWithAttempt(p, q, tid, ref)
  {
    hide InitCheckout, ColumnsOk, RowsOk, Changes, Convert;
    InitCheckoutSameTerms(p, tid, caller, ref, reply, now);
    var q := InitCheckout(p, tid, caller, ref, reply, now).0;
    if q != p {
      CheckoutTradeChanges(p, p.(trades := q.trades, jobs := q.jobs), tid);
    }
  }

  lemma InitCheckoutKeeps(p: Tables, tid: TradeId, caller: Address, ref: TxRef, reply: CheckoutReply, now: Time)
    requires TablesOk(p) && ref !in p.attempts
    ensures var q := InitCheckout(p, tid, caller, ref, reply, now).0;
            TablesOk(q) && AllMove(p, q) && RecordsKept(p, q)
  {
    hide TermsOk, ColumnsOk, RowsOk, AttemptOk, ChangesWithAttempt;
    NothingMoves(p);
    if tid in p.trades {
      InitCheckoutChanges(p, tid, caller, ref, reply, now);
      var q := InitCheckout(p, tid, caller, ref, reply, now).0;
      if q != p { OneTradeOneAttempt(p, q, tid, ref); }
    }
  }

  lemma JudgedTradeChanges(p: Tables, m: Tables, tid: TradeId, j: Judgement, now: Time)
    requires tid in p.trades && ColumnsOk(p.trades[tid]) && RowsOk(p, tid)
    requires j.outcome.StillPending? ==> j.payment == PendingVerification
    requires m == p.(
      trades := p.trades[tid := JudgedTrade(p.trades[tid], j)],
      jobs := if ConfirmsInTime(j.outcome) && p.trades[tid].stage == AwaitingPayment
              then EnqueueOnce(p.jobs, PayoutJob(tid), p.config.maxRetries, now) else p.jobs)
    ensures Changes(p, m, tid) && RowsOk(m, tid)
  {
    hide JudgedTrade, ColumnsOk, HandlerEdge;
    JudgedTradeShape(p.trades[tid], j);
  }

  lemma JudgedTradeShape(t: Trade, j: Judgement)
    requires ColumnsOk(t) && (j.outcome.StillPending? ==> j.payment == PendingVerification)
    ensures var u := JudgedTrade(t, j);
            && Moves(t, u) && ColumnsOk(u)
            && u == t.(stage := u.stage, payment := u.payment, version := u.version)
            && u.stage == (if ConfirmsInTime(j.outcome) && t.stage == AwaitingPayment then PaymentConfirmed
                           else if j.outcome.PaidInFull? && j.outcome.late && t.stage in {AwaitingPayment, Cancelled}
                           then LatePaymentReview
                           else t.stage)
  {}

  lemma JudgedAttemptWrites(
    p: Tables, m: Tables, q: Tables, tid: TradeId, ref: TxRef, v: Verified, j: Judgement, now: Time)
    requires ref in p.attempts && p.attempts[ref].tradeId == tid && AttemptOk(p, ref)
    requires m == p.(trades := m.trades, jobs := m.jobs)
    requires tid in m.trades && SameTerms(p.trades[tid], m.trades[tid])
    requires v.flwTxId in p.consumed ==> p.consumed[v.flwTxId] == tid
    requires Spends(j.outcome) <==> j.attempt in {AttemptVerified, LateVerified, MismatchHold}
    requires q == m.(
      attempts := p.attempts[ref := JudgedAttempt(p.attempts[ref], v, j, now)],
      consumed := if Spends(j.outcome) then p.consumed[v.flwTxId := tid] else p.consumed)
    ensures WritesAttempt(m, q, tid, ref)
  {}

  lemma ApplyVerifiedChanges(p: Tables, tid: TradeId, ref: TxRef, parsed: Option<Verified>, now: Time)
    requires tid in p.trades && ColumnsOk(p.trades[tid]) && RowsOk(p, tid)
    requires ref in p.attempts && AttemptOk(p, ref)
    ensures var q := ApplyVerified(p, tid, ref, parsed, now).0;
            q == p || ChangesWithAttempt(p, q, tid, ref)
  {
    hide EvaluateVerified, JudgedTrade, JudgedAttempt, WritesAttempt, ColumnsOk, RowsOk, AttemptOk, HandlerEdge;
    var q := ApplyVerified(p, tid, ref, parsed, now).0;
    if q != p {
      var j := EvaluateVerified(p.attempts[ref], parsed.value, p.trades[tid].deadline, now).value;
      JudgementShape(p.attempts[ref], parsed.value, p.trades[tid].deadline, now);
      var m := p.(trades := q.trades, jobs := q.jobs);
      JudgedTradeChanges(p, m, tid, j, now);
      JudgedAttemptWrites(p, m, q, tid, ref, parsed.value, j, now);
    }
  }

  /** Statuses that hold an attempt in place always come with a spent transaction id. */
  lemma JudgementShape(a: Attempt, v: Verified, deadline: Option<Time>, now: Time)
    ensures var r := EvaluateVerified(a, v, deadline, now);
            r.Ok? ==>
              var j := r.value;
              && (Spends(j.outcome) <==> j.attempt in {AttemptVerified, LateVerified, MismatchHold})
              && (j.outcome.StillPending? ==> j.payment == PendingVerification)
  {}

  lemma ApplyVerifiedKeeps(p: Tables, tid: TradeId, ref: TxRef, parsed: Option<Verified>, now: Time)
    requires TablesOk(p)
    ensures var q := ApplyVerified(p, tid, ref, parsed, now).0;
            TablesOk(q) && AllMove(p, q) && RecordsKept(p, q)
  {
    hide TermsOk, ColumnsOk, RowsOk, AttemptOk, ChangesWithAttempt, EvaluateVerified;
    NothingMoves(p);
    var q := ApplyVerified(p, tid, ref, parsed, now).0;
    if q != p {
      ApplyVerifiedChanges(p, tid, ref, parsed, now);
      OneTradeOneAttempt(p, q, tid, ref);
    }
  }

  lemma SweepTradeKeeps(p: Tables, tid: TradeId, now: Time)
    requires TablesOk(p)
    ensures var q := SweepTrade(p, tid, now); TablesOk(q) && AllMove(p, q) && RecordsKept(p, q)
  {
    hide TermsOk, ColumnsOk, RowsOk, AttemptOk, Changes, ExpiredTrade, InFlight, OutageNoted;
    NothingMoves(p);
    var q := SweepTrade(p, tid, now);
    if VerdictOn(p, tid, now).Expired? {
      var m := p.(trades := q.trades);
      SweepChanges(p, m, tid);
      OneTrade(p, m, tid, {}, {});
      if tid in p.checkout {
        SweepAttempt(m, q, p.checkout[tid]);
        OneAttempt(m, q, p.checkout[tid]);
        ThenSameTrades(p, m, q);
      }
    }
  }

  lemma SweepAttempt(m: Tables, q: Tables, ref: TxRef)
    requires ref in m.attempts && AttemptOk(m, ref)
    requires q == m.(attempts := m.attempts[ref := m.attempts[ref].(status := AttemptExpired)])
    ensures AttemptOk(q, ref)
  {}

  lemma SweepChanges(p: Tables, m: Tables, tid: TradeId)
    requires tid in p.trades && RowsOk(p, tid) && ColumnsOk(p.trades[tid]) && p.trades[tid].stage == AwaitingPayment
    requires m == p.(trades := p.trades[tid := ExpiredTrade(p.trades[tid])])
    ensures Changes(p, m, tid) && RowsOk(m, tid)
  {}

  lemma VerifyPaymentKeeps(
    p: Tables, tid: TradeId, ref: TxRef, caller: Option<Address>, fetch: Fetch, now: Time)
    requires TablesOk(p)
    ensures var q := VerifyPayment(p, tid, ref, caller, fetch, now).0;
            TablesOk(q) && AllMove(p, q) && RecordsKept(p, q)
  {
    hide TablesOkExcept, AllMove, RecordsKept, ApplyVerified;
    NothingMoves(p);
    match fetch
    case Payload(parsed) => ApplyVerifiedKeeps(p, tid, ref, parsed, now);
    case _ =>
      var q := VerifyPayment(p, tid, ref, caller, fetch, now).0;
      OtherColumnsKeep(p, q);
  }

  lemma WebhookKeeps(p: Tables, event: EventId, ref: Option<TxRef>, parsed: Option<Verified>, now: Time)
    requires TablesOk(p)
    ensures var q := Webhook(p, event, ref, parsed, now).0;
            TablesOk(q) && AllMove(p, q) && RecordsKept(p, q) && event in q.inbox
  {
    hide TablesOkExcept, Moves, ApplyVerified;
    NothingMoves(p);
    var q := Webhook(p, event, ref, parsed, now).0;
    if event !in p.inbox && ref.Some? && ref.value in p.attempts {
      var tid := p.attempts[ref.value].tradeId;
      var m := ApplyVerified(p, tid, ref.value, parsed, now).0;
      ApplyVerifiedKeeps(p, tid, ref.value, parsed, now);
      ApplyKeepsInbox(p, tid, ref.value, parsed, now);
      OtherColumnsKeep(m, q);
    } else {
      OtherColumnsKeep(p, q);
    }
  }

  lemma ApplyKeepsInbox(p: Tables, tid: TradeId, ref: TxRef, parsed: Option<Verified>, now: Time)
    ensures ApplyVerified(p, tid, ref, parsed, now).0.inbox == p.inbox
  {}

  /** Adding inbox entries or retry jobs, or processing jobs, disturbs nothing. */
  lemma OtherColumnsKeep(p: Tables, q: Tables)
    requires TablesOk(p)
    requires q == p.(inbox := q.inbox, jobs := q.jobs)
    requires forall e :: e in p.inbox ==> e in q.inbox
    requires forall k :: k in p.jobs ==> k in q.jobs
    requires forall k :: k in q.jobs ==> k in p.jobs || k.VerifyTimeoutJob? || k.RetryVerifyJob?
    ensures TablesOk(q) && AllMove(p, q) && RecordsKept(p, q)
  {
    hide TermsOk, ColumnsOk, RowsOk, AttemptOk;
    forall o | o in q.trades
      ensures RowsOk(q, o)
    {
      RowsFrame(p, q, o);
    }
    forall r | r in q.attempts
      ensures AttemptOk(q, r)
    {
      AttemptTrade(p, r);
      AttemptFrame(p, q, r);
    }
    forall o | o in p.trades
      ensures Moves(p.trades[o], q.trades[o])
    {
      StayIsMove(p.trades[o]);
    }
  }

  lemma ProcessJobsKeeps(p: Tables, now: Time)
    requires TablesOk(p)
    ensures var q := ProcessJobs(p, now); TablesOk(q) && AllMove(p, q) && RecordsKept(p, q)
  {
    OtherColumnsKeep(p, ProcessJobs(p, now));
  }

  /** A new trade joins the tables. */
  lemma NewTradeKeeps(p: Tables, tid: TradeId, t: Trade)
    requires TablesOk(p) && tid !in p.trades && TermsOk(t) && ColumnsOk(t) && t.stage == AwaitingPayment
    ensures TablesOk(p.(trades := p.trades[tid := t]))
  {
    hide TermsOk, ColumnsOk, RowsOk, AttemptOk;
    var q := p.(trades := p.trades[tid := t]);
    FreshTradeRows(p, q, tid);
    forall o | o in q.trades
      ensures RowsOk(q, o)
    {
      if o != tid { RowsFrame(p, q, o); }
    }
    forall r | r in q.attempts
      ensures AttemptOk(q, r)
    {
      AttemptTrade(p, r);
      StayIsMove(p.trades[p.attempts[r].tradeId]);
      AttemptFrame(p, q, r);
    }
  }

  lemma FreshTradeRows(p: Tables, q: Tables, tid: TradeId)
    requires TablesOk(p) && tid !in p.trades && tid in q.trades && q == p.(trades := q.trades)
    requires ColumnsOk(q.trades[tid]) && q.trades[tid].stage == AwaitingPayment
    ensures RowsOk(q, tid)
  {}

  // ---- Payment is the only way in ---------------------------------------------------------------

  /** Delivering `v` for attempt `ref` settles trade `tid` exactly and in time. */
  ghost predicate Settles(p: Tables, tid: TradeId, ref: TxRef, v: Verified, now: Time) {
    && tid in p.trades && ref in p.attempts && p.attempts[ref].tradeId == tid
    && SettlesInTime(p.attempts[ref], v, p.trades[tid].deadline, now)
    && (v.flwTxId in p.consumed ==> p.consumed[v.flwTxId] == tid)
  }

  /** In the trade's own terms: successful, its currency, its exact fiat amount, by its deadline. */
  lemma SettlesTerms(p: Tables, tid: TradeId, ref: TxRef, v: Verified, now: Time)
    requires TablesOk(p) && Settles(p, tid, ref, v, now)
    ensures var t := p.trades[tid];
            && v.status == SUCCESSFUL
            && v.amountMinor == t.fiatMinor
            && Upper(v.currency) == Upper(t.currency)
            && t.deadline.Some? && now <= t.deadline.value
  {
    hide Convert;
    assert AttemptOk(p, ref);
  }

  lemma JudgedTransaction(a: Attempt, v: Verified, deadline: Option<Time>, now: Time)
    ensures var r := EvaluateVerified(a, v, deadline, now);
            (r.Ok? && ConfirmsInTime(r.value.outcome)) <==> SettlesInTime(a, v, deadline, now)
  {}

  /** The verification step in full: which deliveries take effect, and what they do. */
  lemma ApplyVerifiedEffect(p: Tables, tid: TradeId, ref: TxRef, v: Verified, now: Time)
    requires ref in p.attempts && tid in p.trades
    ensures var q := ApplyVerified(p, tid, ref, Some(v), now).0;
            var a, t := p.attempts[ref], p.trades[tid];
            var r := EvaluateVerified(a, v, t.deadline, now);
            if r.Ok? && a.tradeId == tid && (v.flwTxId in p.consumed ==> p.consumed[v.flwTxId] == tid)
               && !(a.status == AttemptVerified && t.payment == Confirmed && a.flwTxId == Some(v.flwTxId))
            then q.trades == p.trades[tid := JudgedTrade(t, r.value)]
                 && (Spends(r.value.outcome) ==> q.consumed == p.consumed[v.flwTxId := tid])
            else q == p
  {
    hide EvaluateVerified, JudgedTrade, JudgedAttempt;
  }

  /** A trade enters the paid stages only from AwaitingPayment, and exactly when a verified payment
      settles it; its transaction id is bound to it in the same step. */
  lemma PaidOnlyBySettling(p: Tables, tid: TradeId, ref: TxRef, parsed: Option<Verified>, now: Time, o: TradeId)
    requires TablesOk(p) && o in p.trades && !PostPaid(p.trades[o].stage)
    ensures var q := ApplyVerified(p, tid, ref, parsed, now).0;
            && o in q.trades
            && (PostPaid(q.trades[o].stage) <==>
                  && o == tid && p.trades[o].stage == AwaitingPayment
                  && parsed.Some? && Settles(p, tid, ref, parsed.value, now))
            && (PostPaid(q.trades[o].stage) ==>
                  && q.trades[o].stage == PaymentConfirmed
                  && parsed.value.flwTxId in q.consumed && q.consumed[parsed.value.flwTxId] == o)
  {
    hide ApplyVerified, EvaluateVerified, SettlesInTime, JudgedTrade, TermsOk, ColumnsOk, RowsOk, AttemptOk;
    if parsed.Some? && ref in p.attempts && tid in p.trades {
      var a, v, t := p.attempts[ref], parsed.value, p.trades[tid];
      ApplyVerifiedEffect(p, tid, ref, v, now);
      JudgedTransaction(a, v, t.deadline, now);
      JudgementShape(a, v, t.deadline, now);
      var r := EvaluateVerified(a, v, t.deadline, now);
      if r.Ok? { JudgedTradeShape(t, r.value); }
      if t.stage == AwaitingPayment { AwaitingNotConfirmed(t); }
    } else {
      IgnoredDelivery(p, tid, ref, parsed, now);
    }
  }

  lemma IgnoredDelivery(p: Tables, tid: TradeId, ref: TxRef, parsed: Option<Verified>, now: Time)
    requires parsed.None? || ref !in p.attempts || tid !in p.trades
    ensures ApplyVerified(p, tid, ref, parsed, now).0 == p
  {}

  lemma AwaitingNotConfirmed(t: Trade)
    requires ColumnsOk(t) && t.stage == AwaitingPayment
    ensures t.payment != Confirmed
  {}

  // ---- Doing it twice ---------------------------------------------------------------------------

  /** Once a hosted page is open, asking again before the deadline hands out the same page and changes
      nothing, whatever the provider would answer now. */
  lemma CheckoutIsIdempotent(
    p: Tables, tid: TradeId, caller: Address, ref: TxRef, ref': TxRef, answer: CheckoutReply, now: Time, later: Time)
    requires TablesOk(p) && tid in p.trades
    requires p.trades[tid].deadline.Some? && later < p.trades[tid].deadline.value
    requires InitCheckout(p, tid, caller, ref, HostedLink, now).1 == Done
    ensures var q := InitCheckout(p, tid, caller, ref, HostedLink, now).0;
            InitCheckout(q, tid, caller, ref', answer, later) == (q, Done)
  {
    hide RowsOk, ColumnsOk, Convert, StartAttempt;
    assert TermsOk(p.trades[tid]);
    var t, q := p.trades[tid], InitCheckout(p, tid, caller, ref, HostedLink, now).0;
    assert t.(buyer := Some(caller), deadline := t.deadline) == t;
    if Reusable(p, tid, now) {
      assert p.trades[tid := t] == p.trades;
      assert AttemptOk(p, p.checkout[tid]);
    } else {
      AttemptStarted(p, tid, t, caller, ref, t.deadline.value, now);
    }
    assert Reusable(q, tid, later);
    assert q.trades[tid := q.trades[tid].(buyer := Some(caller), deadline := t.deadline)] == q.trades;
  }

  lemma AttemptStarted(p: Tables, tid: TradeId, t: Trade, caller: Address, ref: TxRef, deadline: Time, now: Time)
    ensures var (q, r) := StartAttempt(p, tid, t, caller, ref, deadline, HostedLink, now);
            && r == Done && q.trades == p.trades[tid := t.(payment := CheckoutCreated)]
            && tid in q.checkout && q.checkout[tid] == ref && ref in q.attempts && q.attempts[ref].hasUrl
            && q.attempts[ref].expiresAt == deadline && q.attempts[ref].status == RedirectReady
  {}

  /** A payment that settles a trade is applied once: the same verification again changes nothing. */
  lemma SettlingTwiceIsOnce(p: Tables, tid: TradeId, ref: TxRef, v: Verified, now: Time, later: Time)
    requires Settles(p, tid, ref, v, now)
    ensures var q := ApplyVerified(p, tid, ref, Some(v), now).0;
            ApplyVerified(q, tid, ref, Some(v), later) == (q, Done)
  {
    hide EvaluateVerified, SettlesInTime;
    ConfirmedExactly(p.attempts[ref], v, p.trades[tid].deadline, now);
    JudgedTransaction(p.attempts[ref], v, p.trades[tid].deadline, now);
  }
}
