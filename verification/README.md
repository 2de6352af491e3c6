# A verified model of the settlement engine

The repository runs a peer-to-peer exchange of USDC for naira. Sellers deposit USDC into listings; buyers order
part of a listing, pay through Flutterwave within a deadline, the seller is paid out, and the escrow is released on
chain. This project models the engine that keeps money, inventory and trade state consistent, and proves what its
handlers keep, step by step and over whole runs.

- `Core`, `Text`: fixed-width arithmetic (Rust's wrapping `+` on unsigned types is written out), identifiers, decimal
  and case-mapping text functions.
- `Lifecycle`, `Flutterwave`, `Payments`: the trade record and its transition table, the judgement of a provider
  transaction, and one function per settlement handler over the shared tables.
- `Settlement`: what each settlement handler keeps, and that payment is the only way into the paid stages.
- `Ledger`, `Inventory`: listings with their buckets, the queue table, and the proof that the buckets are cached sums
  over that table.
- `Trust`, `RateLimiter`: the buyer's score, tier, limits and cooldowns; the per-minute limiter.
- `System`, `Invariant`, `Reconciliation`, `Runs`, `Safety`: the whole service as a state machine of nineteen actions,
  its invariant, the deadline pass, and the theorems over every run from the empty service.
- `Columns`, `Limits`, `Obligations`: the exact effect of every action on payment columns, profiles and unpaid
  obligations, and exactly how a buyer gets past the cap.
- `Releases`, `Credits`, `Reuse`: how a completed trade got through the release and what its payment column says, what
  a buyer's counters are worth, and what a reused child trade id does.
- `Fifo`, `Overtaking`: what the queue order is worth, and exactly how a newcomer gets ahead.
- `Witnesses`, `Demotion`: runs from the empty service, action by action, that reach what the documentation rules out.
- `AppState`: the shared state as a class whose methods update it in place, loop by loop as the handlers do, each
  proved to do exactly what the corresponding function of the state machine says.
- `Sessions`: proof sessions with idempotency keys and anti-replay tables.
- `TradeStore`: the second inventory implementation, in the web client.
- `Money`, `Binding`: decimal printing and parsing, and the encodings that are signed or hashed.

Each handler is one atomic step. Time is an input; only the session and rate-limiter results need it not to go back.
Random or caller-supplied identifiers (child trade, queue reference, checkout reference, session, proof) are assumed
new where a statement says so, because the code inserts them without looking; `Reuse` says exactly what a reused child
trade id does to the existing trades and to the listing ledger. Where a hash table's iteration decides between equals,
the choice is an extra argument, so that every statement holds for every choice. Some handlers end a trade before they
free its listing's slot; in between, the invariant of the ledger names that trade as pending, and it is pending for no
trade once the handler is done.

## Where the code and its documentation differ

The model follows the code.

- README.md:109 accepts any amount of at least the expected one; the code accepts the exact amount only and holds the
  rest (rust/src/flutterwave.rs:489-613, `Settlement.SettlesTerms`).
- README.md:306-311 gives tier limits and thresholds other than those of rust/src/lifecycle.rs:699-713 and 829-856.
- README.md:298 restricts a buyer at the fifth expiry. The code does so as soon as the buyer has lost two disputes, has
  four expiries in a row, or scores below 25; an expiry costs 45 points, so it restricts exactly a buyer with three in a
  row already or a score below 70, and a new buyer at the first (`Trust.RestrictedByExpiryExactly`,
  `Trust.ExpiriesCostExactly`, `Trust.FirstExpiryRestricts`, `Obligations.PassRestrictsExactly`).
- README.md:299 exempts provider outages; no handler ever writes the code that would exempt one
  (`Reconciliation.LapsedVerdict`).
- README.md:287 lets a buyer leave the queue without penalty; the code lowers the score by two, and by fifteen more
  within a minute (rust/src/payments_api.rs:2532-2543, `Trust.QueueCancelCostsExactly`, `Obligations.LeavingQueueCosts`).
- README.md:303 speaks of sliding windows; the limiter's windows are fixed, and 60 seconds can contain up to
  2 * max - 1 accepted requests (`RateLimiter.SlidingBoundTight`). At most max in any 60 seconds holds exactly for
  max = 1 (`RateLimiter.SlidingPromiseExactly`).
- README.md:283-288 promises a first-in-first-out queue. The order of two queued entries never changes once both are
  there (`Fifo.RankIsSettled`); what goes wrong is the number a new order gets. It is right from every cancellation, or
  an empty queue, up to the next activation (`Fifo.FifoAfterCancellation`, `Fifo.FifoFromBound`), and
  `Overtaking.NewcomerIsLastExactly` says when it is in general. After activations a newcomer can be numbered before an
  earlier arrival, or tie with one (`Overtaking.NewcomerOvertakes`, `Overtaking.NewcomerWinsTie`), and an order that
  finds the slot free gets it whoever waits (`Overtaking.SeatedAheadExactly`, `Overtaking.NewcomerSeatedAhead`).
- A late payment on a cancelled trade moves it to review outside the transition table
  (rust/src/payments_api.rs:1057-1062), and nothing else leaves the table (`Columns.OffTableExactly`,
  `Witnesses.LatePaymentLeavesTable`).
- The cap on unpaid obligations is checked at admission only. A second checkout, a payment reported pending after it
  had failed, and a loss of tier by a pass or an override pass it (`Obligations.CapIsPassedByGuard`,
  `Witnesses.CheckoutPassesCap`, `Witnesses.PendingReportPassesCap`, `Demotion.LossOfTierPassesCap`); leaving the queue
  and completing a trade never do.
- A completed trade's payment column need not say Confirmed: the release gate is checked when a release is requested
  only, and later deliveries overwrite the column (`Releases.CompletedPaymentExactly`, `Witnesses.HoldAvoidsGate`,
  `Witnesses.ReportAfterGate`). That the trade was paid in full and in time holds all the same
  (`Safety.CompletedWasPaid`).
- The score is computed in 32 bits. Without penalties the volume bonus leaves that range first, after 2,147,484
  trades of the largest size (`Trust.VolumeBonusWraps`).

## Model

| member | source | states |
|---|---|---|
| Safety.CompletedWasPaid | rust/src/payments_api.rs:1687-1894 | On every run a completed trade was, in this order and in earlier steps, settled by a verified payment of its exact amount, in its currency and by its deadline, paid out on the provider's confirmation, and confirmed on chain; its payout, refund, escrow and hash columns say so |
| Safety.PaidBefore | rust/src/payments_api.rs:937-1162 | No trade is in any paid stage unless an earlier step delivered a payment for one of its own attempts that matches its never-changing terms exactly and in time |
| Safety.RefundExcludesRelease | rust/src/payments_api.rs:1558-1674 | Once a refund has begun, no handler ever takes the trade out of RefundPending, Cancelled and LatePaymentReview again, including the direct move of a cancelled trade to review |
| Safety.CompletedIsFinal | rust/src/lifecycle.rs:45-94 | A completed trade stays completed on every run |
| Safety.NeverAwaitsAgain | rust/src/lifecycle.rs:45-94 | A trade that has left AwaitingPayment never returns to it |
| Safety.TermsAreFixed | rust/src/lifecycle.rs:333-416 | Seller, buyer, amounts, currency, rate and deadline of a trade never change after creation |
| Safety.ReleasedExactly | rust/src/payments_api.rs:1687-1894 | In every reachable state the escrow column says Released exactly for the completed trades |
| Safety.ConfirmedOnce | rust/src/payments_api.rs:1002-1043 | Each trade enters PaymentConfirmed in at most one step of a run |
| Safety.PaidOutOnce | rust/src/payments_api.rs:1414-1498 | Each trade enters SellerPayoutConfirmed in at most one step of a run |
| Safety.CompletedOnce | rust/src/payments_api.rs:1751-1840 | Each trade enters Completed in at most one step of a run |
| Safety.NoSharedTransaction | rust/src/payments_api.rs:946-985 | No two confirmations of a run rest on the same provider transaction id |
| Safety.RecordsStay | rust/src/payments_api.rs:1002-1125 | A transaction id once bound to a trade is never rebound; processed events and jobs are never dropped |
| Safety.JobsFollowProgress | rust/src/state.rs:271-275 | The payout job exists from the confirmed payment on and never before, the release job exactly from the confirmed payout on |
| Safety.DuplicateIsIgnored | rust/src/payments_api.rs:1232-1246 | A webhook event delivered before, even one whose processing failed, changes nothing |
| Safety.DuplicatesDoNotMatter | rust/src/payments_api.rs:1166-1323 | Removing every repeated delivery from a run gives a run that ends in the same state |
| Safety.ResolvedForGood | rust/src/state.rs:158-241 | After a trade has completed or been cancelled, resolving it again at any later moment changes nothing, even after a late payment and a second refund |
| Safety.SlotHolderIsLive | rust/src/lifecycle.rs:623-631 | Slot, lease owner and lease end are set together and exactly when one queue entry is active; has_active_slot never depends on the clock; the holder has neither completed nor been cancelled |
| Safety.OfferIsFixed | rust/src/lifecycle.rs:579-621 | A listing never disappears, and its seller, total, rate and currency never change |
| Safety.BucketsAreSums | rust/src/lifecycle.rs:609-621 | From its publication on, in every state of a run, a listing's buckets are sums over the queue table and add up to the total it was published with, so the run-time check passes; it is depleted exactly when all of that total is sold |
| Safety.RunKeeps | rust/src/payments_api.rs:1906-2062 | Every reachable state satisfies the invariant over settlement tables, ledger and trust profiles |
| Runs.StepKeeps | rust/src/payments_api.rs:583-2656 | Every action keeps the invariant, moves trades along handler edges only, and each stage is entered only by the action that may cause it; new trades wait for payment |
| Runs.DeliveryConfirms | rust/src/payments_api.rs:937-1162 | A delivery moves a trade only to PaymentConfirmed or review, and confirms exactly the trade it settles, binding the transaction id to it |
| Settlement.PaidOnlyBySettling | rust/src/payments_api.rs:1002-1043 | A trade enters the paid stages exactly when it waits for payment and the delivered payment settles it |
| Settlement.SettlesTerms | rust/src/flutterwave.rs:489-613 | What settles an attempt matches the trade's own amount, currency and deadline |
| Settlement.SettlingTwiceIsOnce | rust/src/payments_api.rs:965-985 | A verification that settles a trade, applied again, changes nothing |
| Settlement.CheckoutIsIdempotent | rust/src/payments_api.rs:635-669 | While a hosted page is open, asking again before the deadline hands it out and changes nothing |
| Settlement.ApplyVerifiedEffect | rust/src/payments_api.rs:937-1162 | Which deliveries take effect, and what they do to trades and spent ids |
| Columns.OffTableExactly | rust/src/payments_api.rs:1045-1085 | Under every action a trade leaves the transition table (counting two moves through SellerPayoutPending as on it) exactly when it is cancelled and a full payment is delivered to it late, and then it goes to review |
| Columns.AcceptedMeans | rust/src/flutterwave.rs:489-613 | When a delivery takes effect at all, and when it counts as a pending or as a late full payment: references, metadata, currency, status, amount and deadlines |
| Witnesses.LatePaymentLeavesTable | rust/src/payments_api.rs:1057-1062 | A run from the empty service in which a first trade lapses, which leaves its new buyer Restricted, and is paid late, which leaves the table |
| Settlement.ApplyVerifiedKeeps | rust/src/payments_api.rs:937-1162 | Verification keeps all settlement tables consistent |
| Settlement.VerifyPaymentKeeps | rust/src/payments_api.rs:831-935 | The verification endpoint, with every provider answer, keeps all settlement tables consistent |
| Settlement.WebhookKeeps | rust/src/payments_api.rs:1166-1323 | Webhook processing keeps all settlement tables consistent and records the event |
| Settlement.InitCheckoutKeeps | rust/src/payments_api.rs:583-809 | Opening or reusing a checkout keeps all settlement tables consistent |
| Settlement.PayoutInitiateKeeps | rust/src/payments_api.rs:1352-1413 | Starting or retrying a payout keeps trade, payout row and jobs consistent |
| Settlement.PayoutConfirmKeeps | rust/src/payments_api.rs:1414-1498 | Confirming a payout keeps trade, payout row and release job consistent |
| Settlement.PayoutHoldKeeps | rust/src/payments_api.rs:1499-1543 | Holding a payout keeps trade and payout row consistent |
| Settlement.RefundRequestKeeps | rust/src/payments_api.rs:1576-1630 | Requesting a refund keeps trade and refund row consistent |
| Settlement.RefundCloseChanges | rust/src/payments_api.rs:1631-1671 | After the trade is cancelled its refund row exists, is closed, and agrees with it |
| Settlement.RequestReleaseKeeps | rust/src/payments_api.rs:1703-1750 | Submitting a release keeps trade and operation row consistent |
| Settlement.ReleaseCloseChanges | rust/src/payments_api.rs:1751-1840 | Confirming a release leaves trade and operation row in agreement |
| Settlement.HoldReleaseKeeps | rust/src/payments_api.rs:1841-1891 | Holding a release keeps trade and operation row consistent |
| Settlement.SweepTradeKeeps | rust/src/payments_api.rs:1920-2009 | The pass's work on one trade keeps all settlement tables consistent |
| Lifecycle.TradeCell.Transition | rust/src/lifecycle.rs:418-453 | A versioned transition either changes stage and version and reports both stages, or changes nothing |
| Lifecycle.TransitionsFormChain | rust/src/lifecycle.rs:418-453 | For any calls with any expected versions, accepted ones carry consecutive versions, refused ones leave no mark, and the audit events form an unbroken legal chain |
| Lifecycle.VersionsUsedOnce | rust/src/lifecycle.rs:418-453 | No two accepted calls of a run expected the same version |
| Lifecycle.FeeIsOnePercent | rust/src/lifecycle.rs:376-377 | Up to 10,000 USDC the fee is exactly one percent, rounded down, with no wrap-around |
| Ledger.RenumberingIsExact | rust/src/payments_api.rs:2495-2530 | Cancelling renumbers the waiting entries to exactly 1..n and keeps their (position, creation time) order |
| Ledger.RenumberStep | rust/src/payments_api.rs:2509-2530 | One turn of the renumbering loop |
| Inventory.ListingConsequences | rust/src/lifecycle.rs:609-631 | Where the buckets are sums over the queue, conservation holds, no checked addition fails and depletion means empty buckets |
| Inventory.OneSlot | rust/src/state.rs:165-199 | At most one entry holds a listing's slot, and one does exactly when active_trade_id is set |
| Inventory.ServedOnce | rust/src/state.rs:165-171 | A trade holds the slot of at most one listing |
| Inventory.EnqueueKeeps | rust/src/payments_api.rs:2375-2416 | Queuing an order moves its units from available to reserved and keeps the ledger |
| Inventory.SeatKeeps | rust/src/payments_api.rs:2297-2361 | Seating an order moves its units from available to allocated and keeps the ledger |
| Inventory.ActivateKeeps | rust/src/payments_api.rs:2588-2647 | Activating an entry finds its units reserved, moves them to allocated and keeps the ledger |
| Inventory.WithdrawKeeps | rust/src/payments_api.rs:2482-2493 | Cancelling an entry finds its units reserved, returns them and keeps the ledger |
| Inventory.FreeKeeps | rust/src/state.rs:173-214 | Resolving a child finds its units allocated, sells or returns them, closes its entry and keeps the ledger |
| Inventory.RearrangeKeeps | rust/src/payments_api.rs:2509-2530 | Renumbering and promotion move no inventory |
| Invariant.OrderOutcome | rust/src/payments_api.rs:2241-2429 | An order succeeds exactly when its buyer is admitted and the listing can serve it; conservation never fails; a refusal changes no more than the buyer's profile |
| Invariant.SeatOrder | rust/src/payments_api.rs:2297-2373 | An accepted order on a free slot always gets a trade, on the quoted amount |
| Invariant.ActivationOutcome | rust/src/payments_api.rs:2554-2656 | Activation succeeds exactly for its owner, at the front, on a free slot; the trade asks for the quoted amount, and only reserved and allocated change |
| Invariant.AdmittedUnits | rust/src/payments_api.rs:370-396 | No admitted request exceeds 10,000,000,000 units |
| Invariant.RegisterKeeps | rust/src/payments_api.rs:412-499 | Registering a trade keeps the invariant |
| Invariant.PublishKeeps | rust/src/payments_api.rs:2080-2169 | A new listing passes its conservation check and keeps the invariant |
| Invariant.LeaveQueueKeeps | rust/src/payments_api.rs:2437-2546 | Cancelling a queued order keeps the invariant |
| Invariant.ResolveKeeps | rust/src/state.rs:158-241 | Resolution frees the slot of an ended trade, gives no trade a slot and keeps the ledger |
| Invariant.ApproveRefundKeeps | rust/src/payments_api.rs:1631-1671 | Settling a refund frees the slot, always finds the refund row and keeps the invariant |
| Invariant.ConfirmReleaseKeeps | rust/src/payments_api.rs:1751-1840 | Confirming a release credits the buyer, frees the slot and keeps the invariant |
| Reconciliation.PassIsExact | rust/src/payments_api.rs:1906-2062 | One pass, in any visiting order, cancels exactly the overdue, never paid trades with no payment in flight, expires their attempts, returns their units and slots, touches no other trade or listing, and penalises each buyer once per such trade |
| Reconciliation.PassCounts | rust/src/payments_api.rs:2014-2028 | A buyer's expiry counter and streak grow by exactly the number of their cancelled trades |
| Reconciliation.SweepIsExact | rust/src/payments_api.rs:1918-2010 | The sweep's result does not depend on the order in which the table is visited |
| Reconciliation.LapsedVerdict | rust/src/payments_api.rs:1950-1981 | No handler writes the outage code, so no expiry of a reachable state is exempt |
| Fifo.FifoFromBound | rust/src/payments_api.rs:2383-2394 | From any moment of a run at which nobody is numbered beyond the number waiting, and up to the next activation on the listing, whoever was there when another was not stands before the other, and entries keep their rank |
| Fifo.FifoAfterCancellation | rust/src/payments_api.rs:2495-2530 | Every cancellation starts such a stretch, whatever activations came before |
| Fifo.RankIsSettled | rust/src/payments_api.rs:2241-2656 | On every run the order of two entries never changes while both are queued, through activations as well |
| Fifo.ActivationKeepsRank | rust/src/payments_api.rs:2639-2645 | An activation moves nobody who stays queued |
| Fifo.OvertakenOnArrival | rust/src/payments_api.rs:2383-2394 | Whoever stands before an earlier arrival was put there by the number their own order got |
| Fifo.FifoWithoutActivation | rust/src/payments_api.rs:2383-2394 | On any stretch of a run without activations on the listing, queued entries stay numbered in arrival order |
| Fifo.ResolutionPromotesEarliest | rust/src/state.rs:216-240 | Resolution then promotes an entry that nobody still queued came before |
| Fifo.EmptyQueueInOrder | rust/src/payments_api.rs:2383-2394 | A listing nobody queues for is in arrival order, so a stretch may start there |
| Fifo.CancellationRestoresBound | rust/src/payments_api.rs:2495-2530 | After a cancellation nobody is numbered beyond the number of waiting entries, whatever activations left behind |
| Fifo.StepKeepsOrder | rust/src/payments_api.rs:2241-2546 | Every action but an activation keeps the order of the queue and puts a newcomer last |
| Overtaking.NewcomerIsLastExactly | rust/src/payments_api.rs:2383-2394 | An order that joins the queue sorts strictly behind everyone queued exactly when each of them has a number below the new one, or the same and an earlier time; and it may be promoted before all of them exactly when none of them has |
| Overtaking.NewcomerWinsTie | rust/src/state.rs:216-240 | A run in which a later order of the same second gets the same number after an activation and is promoted first |
| Overtaking.SeatedAheadExactly | rust/src/payments_api.rs:2293-2361 | An order gets the slot ahead of those who wait exactly when it is admitted, the listing can serve it and the slot happens to be free; those who wait stay where they were |
| Overtaking.NewcomerSeatedAhead | rust/src/payments_api.rs:2293-2361 | A run from the empty service after which three buyers wait and a newcomer's order is seated ahead of them |
| Overtaking.NewcomerOvertakes | rust/src/payments_api.rs:2554-2656 | A run from the empty service in which a buyer who arrived last, after two activations, is promoted while an earlier arrival still waits |
| Limits.OrderRespectsCap | rust/src/payments_api.rs:365-368 | An accepted order adds one obligation, of its buyer only, and does not exceed the tier's cap |
| Limits.ActivationKeepsCount | rust/src/state.rs:122-154 | Activation changes nobody's number of unpaid obligations |
| Columns.DeliveryExact | rust/src/payments_api.rs:937-1162 | A delivery, by the endpoint or a webhook, changes exactly the trade it is accepted for, as its judgement says |
| Columns.StepColumns | rust/src/payments_api.rs:583-2656 | After any action, whether each trade waits for payment and what its payment column says, from the state before |
| Obligations.StepProfiles | rust/src/payments_api.rs:583-2656 | After any action, every buyer's trust profile, from the state before |
| Obligations.CountChangesExactly | rust/src/state.rs:122-154 | By how much any action changes any buyer's number of unpaid obligations, from the state before |
| Obligations.CountRisesExactly | rust/src/state.rs:122-154 | An action raises a buyer's count exactly when its guards in the state before hold: an admitted registration or order, a new checkout on a trade whose payment failed or had the wrong amount, or the delivery of a pending payment for one; by one each |
| Obligations.CapIsPassedExactly | rust/src/payments_api.rs:365-368 | A buyer within the cap gets past it exactly by a checkout or a pending payment at the cap, or by a change of profile after which the count exceeds the new cap; never by admission. Holds with wrap-around too |
| Obligations.CapIsPassedByGuard | rust/src/lifecycle.rs:829-856 | While scores do not wrap, the same in counts and scores before the action: leaving the queue and completing a trade never pass the cap; a pass or an override does exactly when the score it leaves is too low for the tier that the remaining obligations need |
| Demotion.LossOfTierPassesCap | rust/src/payments_api.rs:2014-2028 | A run from the empty service: after five completed purchases a buyer holds the two obligations allowed, a pass cancels a third, uncounted trade, and the lost tier leaves the buyer past the cap |
| Obligations.OverCapAfter | rust/src/payments_api.rs:365-368 | Whether a buyer is past the cap after any action, from the state before |
| Obligations.PastCapHasCause | rust/src/payments_api.rs:365-368 | On every run a buyer past the cap was taken there by such a step and has been past it since |
| Witnesses.CheckoutPassesCap | rust/src/payments_api.rs:635-716 | A run from the empty service in which a second checkout takes a new buyer past the cap of one |
| Witnesses.PendingReportPassesCap | rust/src/payments_api.rs:1141-1143 | A run in which the news of a pending payment does so, without any checkout |
| Limits.CheckoutRaisesExactly | rust/src/payments_api.rs:635-716 | A checkout raises the buyer's count exactly when it opens an attempt (trade waiting, its own buyer, before the deadline, no open page) while the payment column is one that does not count |
| Reuse.SeatedOrderAltersExactly | rust/src/payments_api.rs:2297-2361 | A seated order leaves all existing trades as they were exactly when its child id is unused or belongs to an untouched trade on the very same terms; it keeps all terms exactly when the id is unused or the terms are the same, and all stages exactly when the id is unused or its trade waits |
| Reuse.SeatedOrderLedgerExactly | rust/src/payments_api.rs:2297-2361 | It keeps the listing ledger in order exactly when no queue entry claims the child id |
| Reuse.ActivationAltersExactly | rust/src/payments_api.rs:2554-2656 | The same three conditions for activation |
| Reuse.ActivationLedgerExactly | rust/src/payments_api.rs:2554-2656 | The same for the ledger after an activation |
| Reuse.SharedChildStrandsSlot | rust/src/state.rs:158-241 | When two slots are held by one trade, resolving it closes all its entries but frees one slot at most |
| Witnesses.CompletedTradeReopened | rust/src/payments_api.rs:2297-2361 | A run from the empty service completes a trade; the next order names its id and puts it back to waiting for another buyer's payment |
| Witnesses.TwoSlotsOneChild | rust/src/payments_api.rs:2297-2361 | After a run that seats one buyer, an order on another listing names the same child; resolving that trade frees one listing and leaves the other taken for good |
| Releases.ReleaseCarriedBy | rust/src/payments_api.rs:1687-1894 | On every run a trade in the release stages or completed left SellerPayoutConfirmed either by a request through the open gate or straight into a hold |
| Releases.GatePassedExactly | rust/src/lifecycle.rs:455-498 | A trade has passed the gate exactly when it has been in ReleasePending |
| Releases.PaymentColumnExactly | rust/src/payments_api.rs:1000-1152 | From its confirmation on, a trade's payment column differs from Confirmed exactly when the last delivery that took effect since then was no full payment in time |
| Releases.CompletedPaymentExactly | rust/src/payments_api.rs:1751-1840 | For every completed trade of a run: the step that confirmed its payment, the step that carried it into the release, and exactly when its payment column does not say Confirmed |
| Releases.HoldThenConfirmSkipsGate | rust/src/payments_api.rs:1841-1865 | A release held straight after the payout can be confirmed whatever the payment column says, while the request is refused unless it says Confirmed |
| Witnesses.HoldAvoidsGate | rust/src/payments_api.rs:1841-1865 | A run that completes a trade whose payment column says Failed, by way of a hold |
| Witnesses.ReportAfterGate | rust/src/payments_api.rs:1002-1162 | A run that does so through the gate: the column is overwritten after the release was requested |
| Trust.StepsKeepConsistent | rust/src/lifecycle.rs:804-858 | Score, tier, limit and cap are always the ones the counters determine |
| Trust.NoWrapExactly | rust/src/lifecycle.rs:806-825 | The exact counter ranges in which no 32-bit cast, product or sum of the score wraps |
| Trust.ScoreIsTrueScore | rust/src/lifecycle.rs:806-827 | In those ranges the stored score is the clamped integer sum, and at most 500 |
| Trust.CompletionsStayInRange | rust/src/lifecycle.rs:806-812 | The largest number of full-size completions, 2,147,483, for which the volume stays in range |
| Trust.VolumeBonusWraps | rust/src/lifecycle.rs:808-809 | One completion more makes the volume bonus negative and the buyer restricted |
| Trust.PolicyMonotone | rust/src/lifecycle.rs:829-856 | More completions and volume with fewer penalties never lower score, tier, limit or cap |
| Trust.QueueCancelCostsExactly | rust/src/payments_api.rs:2532-2543 | Leaving the queue lowers the score by exactly 2, or 17 within a minute, clamped at zero; it is unchanged exactly when it was zero, and tier and limit exactly when the rest still suffices for the tier |
| Obligations.LeavingQueueCosts | rust/src/payments_api.rs:2432-2546 | The same at the level of the service, for the owner of any waiting entry |
| Credits.CreditIsEarned | rust/src/lifecycle.rs:922-960 | On every run a buyer's completion counter is the number of their completed trades (in 32 bits) and the volume the sum of those trades' units (saturating); exact below 2^32 trades |
| Trust.CompletionHelpsExpiryHurts | rust/src/lifecycle.rs:860-960 | A completion never lowers tier or limit, an expiry never raises them |
| Trust.StreakMeaning | rust/src/lifecycle.rs:829-960 | The streak is the number of non-exempt expiries since the last completion or clear; the buyer is Restricted exactly while there are four of them or the score is below 25 |
| Trust.ExpiriesCostExactly | rust/src/lifecycle.rs:804-920 | n expiries at once cost 45 points each, clamped at zero; the buyer is Restricted exactly with two lost disputes, a streak of four by then, or a score below 25 + 45 n before; otherwise the tier is the best one, not above the old one, that the rest of the score suffices for |
| Trust.RestrictedByExpiryExactly | rust/src/lifecycle.rs:829-834 | The next expiry leaves a buyer Restricted exactly with two lost disputes, three expiries in a row already, or a score below 70 |
| Trust.FirstExpiryRestricts | rust/src/lifecycle.rs:829-834 | A new buyer is Restricted by the very first expiry, with score 5 |
| Obligations.PassRestrictsExactly | rust/src/payments_api.rs:2014-2028 | The same for a deadline pass that cancels n trades of a buyer |
| Trust.CooldownStep | rust/src/lifecycle.rs:886-896 | The k-th such expiry gives cooldown step min(k, 5) |
| Trust.CooldownsNeverShrink | rust/src/lifecycle.rs:892-896 | Longer streaks never give shorter cooldowns |
| Trust.TrustProfile.ApplyTradeExpiration | rust/src/lifecycle.rs:860-920 | An expiry counts, sets the cooldown and recomputes the policy; an exempt one does nothing |
| Trust.TrustProfile.RecordCompletedTrade | rust/src/lifecycle.rs:922-960 | A completion counts, clears the streak and recomputes the policy |
| Trust.TrustProfile.RecalculatePolicy | rust/src/lifecycle.rs:804-858 | The stored policy becomes the one the counters determine |
| RateLimiter.Limiter.CheckRateLimit | rust/src/state.rs:243-261 | One call of the limiter, per key |
| RateLimiter.WindowMeaning | rust/src/state.rs:243-261 | The stored counter is the number of requests accepted in the window that is open |
| RateLimiter.PerWindowBound | rust/src/state.rs:243-261 | Each opened window accepts at most its maximum |
| RateLimiter.SlidingBound | rust/src/state.rs:243-261 | Any 60 seconds contain at most 2 * max - 1 accepted requests |
| RateLimiter.SlidingBoundTight | rust/src/state.rs:243-261 | That bound is reached |
| RateLimiter.SlidingPromiseExactly | rust/src/state.rs:243-261 | At most max accepted requests in any 60 seconds of any history: true exactly for max = 1 |
| RateLimiter.ZeroLimitLeaks | rust/src/state.rs:249-252 | With a maximum of zero a request is still accepted when a window reopens |
| Money.MinorUnitsRoundTrip | rust/src/flutterwave.rs:166-231 | Printing then parsing minor units returns every u128 unchanged |
| Money.ParseMinorUnitsExact | rust/src/flutterwave.rs:174-231 | A string parses to v exactly when it denotes v hundredths with no rounding |
| Money.UsdcRoundTrip | frontend/lib/web3/arcConfig.ts:86-114 | parseUsdc undoes formatUsdc for every amount and number of decimals, except exactly zero and whole amounts shown with no decimals |
| Money.ShownFractionExact | frontend/lib/web3/arcConfig.ts:86-114 | The shown fraction loses nothing: padded back to six places it is the whole fraction |
| Binding.BindingMessageInjective | rust/src/crypto.rs:67-80 | Signed messages are equal exactly when chain, lower-cased escrow, trade, session, proof and evidence are, for fields without a bar |
| Binding.BarsCollide | rust/src/crypto.rs:67-80 | With a bar in a field two different bindings give the same message |
| Binding.CombineTranscript | rust/src/crypto.rs:306-310 | The combined buffer is the length-prefixed encoding of both directions |
| Binding.TranscriptEncodingInjective | rust/src/crypto.rs:306-311 | The encoding determines both directions if what was sent is shorter than 2^32 bytes |
| Binding.LongTranscriptsCollide | rust/src/crypto.rs:306-311 | Beyond that length two different transcripts share an encoding |
| Sessions.ProofsAreExclusive | rust/src/api.rs:483-638 | Each session yields at most one proof, a digest belongs to at most one proof, a non-empty reference at a server to one trade |
| Sessions.OneLiveSession | rust/src/api.rs:218-295 | At every moment at most one session per idempotency key is live |
| Sessions.NothingIsUndone | rust/src/api.rs:561-638 | Proofs, spent digests and spent references are permanent and no session becomes pending again |
| Sessions.ProofNeedsPending | rust/src/api.rs:483-638 | A proof is made only for a pending, unexpired session, for its own trade and with its own evidence |
| Sessions.NoSecondAttempt | rust/src/api.rs:520-560 | A session that left Pending unverified never yields a proof |
| Sessions.OffTableExactly | rust/src/models.rs:15-29 | A state change outside the table happens exactly when a presentation arrives for an ended session past its deadline |
| Sessions.StepKeeps | rust/src/api.rs:153-682 | Every session operation keeps the invariant |
| Sessions.SessionDesk.CreateSession | rust/src/api.rs:153-316 | Creation reuses the live session of its key or makes a new one |
| Sessions.SessionDesk.GetSession | rust/src/api.rs:318-342 | Reading expires a pending session past its deadline |
| Sessions.SessionDesk.CancelSession | rust/src/api.rs:344-377 | Only a pending session of the caller can be cancelled |
| Sessions.SessionDesk.RecordProof | rust/src/api.rs:561-638 | Replays fail the session; otherwise evidence is spent and, if signing succeeds, the proof stored |
| Sessions.SessionDesk.ProcessProofVerification | rust/src/api.rs:472-682 | The whole verification of a presentation |
| TradeStore.RunConserves | frontend/lib/trades/tradeStore.ts:1226-1586 | Over any run, with releases repeated on any trade, no bucket is negative, the four add up to the deposit and the reservation covers what waits, exactly so without reused references |
| TradeStore.UntouchedIsOk | frontend/lib/trades/tradeStore.ts:1085-1095 | A freshly published listing satisfies the invariant a run starts from |
| TradeStore.ActivationIsDirectMove | frontend/lib/trades/tradeStore.ts:1483-1508 | A successful activation is one direct move from reserved to allocated; the clamp at zero never takes effect |
| TradeStore.ActivationExactly | frontend/lib/trades/tradeStore.ts:1462-1515 | When activation succeeds, and that a refusal by the trust checks leaves the entry active without a trade and its units back in the pool |
| TradeStore.SecondReleaseTakesAnothersUnits | frontend/lib/trades/tradeStore.ts:1544-1562 | A run from a freshly published listing in which a second release empties another trade's allocation, whose completion then fills nothing |
| TradeStore.OverwrittenEntryStrandsUnits | frontend/lib/trades/tradeStore.ts:1252-1288 | A reused queue reference strands exactly the units of the overwritten entry |
| TradeStore.PeerStore.TakePeerOffer | frontend/lib/trades/tradeStore.ts:1193-1407 | Taking an offer seats or queues the buyer, or throws with nothing changed |
| TradeStore.PeerStore.CancelBuyerQueueEntry | frontend/lib/trades/tradeStore.ts:1414-1460 | Cancelling returns the units and renumbers the rest by creation time |
| TradeStore.PeerStore.ActivateBuyerQueueEntry | frontend/lib/trades/tradeStore.ts:1462-1515 | Activation as the source performs it, give-back first |
| TradeStore.PeerStore.ReleaseSellerSlotAndAdvanceQueue | frontend/lib/trades/tradeStore.ts:1544-1586 | Release moves the units, closes the entry and promotes the queued entry with the lowest position |
| AppState.AppState.EnqueueOutboxJob | rust/src/state.rs:271-275 | A job is added unless one with its key exists |
| AppState.AppState.OpenAttempt | rust/src/payments_api.rs:671-770 | The attempt is stored before the provider is asked, and its link after |
| AppState.AppState.HasReusableAttempt | rust/src/payments_api.rs:635-669 | Whether the current attempt is open, unexpired and has a page |
| AppState.AppState.InitFlutterwaveCheckout | rust/src/payments_api.rs:583-809 | The checkout handler, in place, exactly as the model function of the step says |
| AppState.AppState.RecordOutcome | rust/src/payments_api.rs:1000-1152 | The outcome's effect on trade, attempt, spent ids and payout job |
| AppState.AppState.ApplyVerifiedPaymentToTrade | rust/src/payments_api.rs:937-1162 | The verification step, in place, exactly as the model function of the step says |
| AppState.AppState.VerifyFlutterwavePayment | rust/src/payments_api.rs:831-935 | The verification endpoint, for every provider answer, in place, exactly as the model function of the step says |
| AppState.AppState.HandleFlutterwaveWebhook | rust/src/payments_api.rs:1166-1323 | Deduplication and processing of one event, in place, exactly as the model function of the step says |
| AppState.AppState.InitiateSellerPayout | rust/src/payments_api.rs:1352-1413 | The initiate and retry actions, in place, exactly as the model function of the step says |
| AppState.AppState.ConfirmSellerPayout | rust/src/payments_api.rs:1414-1498 | The confirm action, in place, exactly as the model function of the step says |
| AppState.AppState.HoldSellerPayout | rust/src/payments_api.rs:1499-1543 | The hold action, in place, exactly as the model function of the step says |
| AppState.AppState.RequestTradeRefund | rust/src/payments_api.rs:1576-1630 | The request action, in place, exactly as the model function of the step says |
| AppState.AppState.ApproveTradeRefund | rust/src/payments_api.rs:1631-1671 | The approve_and_complete action, in place, exactly as the model function of the step says |
| AppState.AppState.RequestEscrowRelease | rust/src/payments_api.rs:1703-1750 | The request_release action, in place, exactly as the model function of the step says |
| AppState.AppState.ConfirmEscrowRelease | rust/src/payments_api.rs:1751-1840 | The confirm_on_chain action, in place, exactly as the model function of the step says |
| AppState.AppState.HoldEscrowRelease | rust/src/payments_api.rs:1841-1891 | The hold_revert action, in place, exactly as the model function of the step says |
| AppState.AppState.GetOrInitTrustProfile | rust/src/state.rs:108-114 | A wallet's profile, created on first use |
| AppState.AppState.CountUnpaidTrades | rust/src/state.rs:124-140 | The number of a buyer's trades that wait for payment |
| AppState.AppState.CountWaitingEntries | rust/src/state.rs:142-153 | The number of a buyer's waiting queue entries |
| AppState.AppState.HasActiveGuarantor | rust/src/payments_api.rs:370-376 | Whether a running pledge covers the amount |
| AppState.AppState.ValidateBuyerEligibility | rust/src/payments_api.rs:331-410 | Admission of a buyer, in place, exactly as the model function of the step says |
| AppState.AppState.CreateOrRegisterTrade | rust/src/payments_api.rs:412-499 | Registration of a trade, in place, exactly as the model function of the step says |
| AppState.AppState.CreateSellerListing | rust/src/payments_api.rs:2080-2169 | Publication of a listing, in place, exactly as the model function of the step says |
| AppState.AppState.RequestListingOrder | rust/src/payments_api.rs:2241-2429 | Ordering from a listing, in place, exactly as the model function of the step says |
| AppState.AppState.CountWaiting | rust/src/payments_api.rs:2383-2394 | The number of waiting entries |
| AppState.AppState.FirstOf | rust/src/state.rs:217-228 | The first entry in (position, creation time) order |
| AppState.AppState.SortedWaiting | rust/src/payments_api.rs:2495-2509 | The waiting entries in (position, creation time) order |
| AppState.AppState.Renumber | rust/src/payments_api.rs:2510-2530 | The renumbering loop |
| AppState.AppState.ReturnReservation | rust/src/payments_api.rs:2482-2493 | The reservation goes back to the available bucket |
| AppState.AppState.CancelQueuedOrder | rust/src/payments_api.rs:2437-2546 | Leaving the queue, in place, exactly as the model function of the step says |
| AppState.AppState.ActivateEligibleQueueEntry | rust/src/payments_api.rs:2554-2656 | Activation of a waiting entry, in place, exactly as the model function of the step says |
| AppState.AppState.FindServingListing | rust/src/state.rs:164-171 | A listing whose slot the trade holds |
| AppState.AppState.FreeListingSlot | rust/src/state.rs:179-201 | The bucket moves that end a slot |
| AppState.AppState.CloseEntries | rust/src/state.rs:203-214 | The loop that closes the trade's active entry |
| AppState.AppState.PromoteNextQueued | rust/src/state.rs:216-240 | The next queued entry becomes eligible |
| AppState.AppState.ReconcileSellerListing | rust/src/state.rs:158-241 | Resolution of a child trade, in place, exactly as the model function of the step says |
| AppState.AppState.ExpireIfOverdue | rust/src/payments_api.rs:1920-2009 | The pass's work on one trade, in place, exactly as the model function of the step says |
| AppState.AppState.SweepDeadlines | rust/src/payments_api.rs:1918-2010 | The sweep over all trades, each visited once |
| AppState.AppState.SettleExpired | rust/src/payments_api.rs:2014-2028 | The loop that frees slots and penalises buyers |
| AppState.AppState.ProcessOutboxJobs | rust/src/payments_api.rs:2030-2046 | The loop over pending jobs |
| AppState.AppState.RunReconciliationPass | rust/src/payments_api.rs:1906-2062 | The whole pass, in place, exactly as the model function of the step says |
| AppState.AppState.AdminRiskOverride | rust/src/payments_api.rs:2790-2837 | Clearing a cooldown and setting the verification status |

## Left out

- HTTP routing, headers, service authentication, request parsing and validation of identifiers and addresses: handlers
  take parsed, normalized inputs; addresses and identifiers are opaque numbers, in the session model opaque text.
- Provider, chain, Supabase and webhook calls: their answers are inputs, their failures are cases of those inputs.
- Cryptography (TLSNotary presentations, signatures, hashes): a presentation's outcome, the signing outcome and digests
  are inputs; only the encodings that are signed or hashed are modelled.
- Interleavings inside a handler: some handlers drop one table's lock before taking the next; each is one step here.
- Audit events of the whole service: the event chain is proved for the versioned transition itself.
- Descriptive columns (bank data, timestamps of update, failure texts, listing versions): no guard reads them.
- Queue positions and job keys beyond their use: positions are unbounded here and `u32` in the source; outbox keys are
  one constructor per job kind.
- The rate limiters inside admission: their verdict is an input of the system's actions; the limiter has its own model.
- Creation of a guarantor pledge: its signature check and lifetime are left out, a pledge is recorded as given.
- Listings that are paused, closed or withdrawn from: no modelled handler does any of these.
- Restoring tables from Supabase at start, the SQL migrations, the Solidity contract, and the user interface.
- JavaScript's floating-point amounts: the web client's amounts are integers and its rates whole kobo.
- Trust bookkeeping, ledgers and audit entries of the web client: what its trust summary answers is an input.
- TradeStore.PeerStore.CancelBuyerQueueEntry: does not model the estimated waiting time and the consent deadline, which
  nothing reads back.
