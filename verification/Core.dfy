/** Shared vocabulary: fixed-width integers, identifiers and handler replies. */
module Core {

  // ---- Fixed-width integers -------------------------------------------------------------
  // The Rust build leaves overflow checks off, so a plain `+` on an unsigned type wraps.

  type U32 = x: int | 0 <= x < 0x1_0000_0000
  type U128 = x: int | 0 <= x < 0x1_0000_0000_0000_0000_0000_0000_0000_0000
  const U128_SIZE: int := 0x1_0000_0000_0000_0000_0000_0000_0000_0000

  function WrapAdd32(a: U32, b: U32): U32 {
    if a + b < 0x1_0000_0000 then a + b else a + b - 0x1_0000_0000
  }

  function WrapAdd(a: U128, b: U128): U128 {
    if a + b < U128_SIZE then a + b else a + b - U128_SIZE
  }

  function SaturatingAdd(a: U128, b: U128): U128 {
    if a + b < U128_SIZE then a + b else U128_SIZE - 1
  }

  function CheckedAdd(a: U128, b: U128): Option<U128> {
    if a + b < U128_SIZE then Some(a + b) else None
  }

  function WrapMul(a: U128, b: U128): U128 {
    (a * b) % U128_SIZE
  }

  // ---- Identifiers and time ---------------------------------------------------------------

  type Address = nat      // a wallet address in normalized (trimmed, lower-case) form
  type TradeId = nat
  type ListingRef = nat
  type QueueRef = nat
  type TxRef = nat        // provider checkout reference
  type FlwTxId = nat      // provider transaction id
  type EventId = nat      // webhook deduplication key
  type Hash = nat         // opaque digest or transaction hash
  type Time = int         // seconds

  datatype Option<+T> = None | Some(value: T)

  datatype Result<+T> = Ok(value: T) | Err(error: Error)

  /** What a handler answers: success, or the error code of its refusal. */
  datatype Reply = Done | Refused(error: Error)

  datatype Error =
    | BadRequest
    | TooManyRequests
    | VersionMismatch
    | IllegalTransition
    | TradeNotFound
    | AttemptNotFound
    | CrossTradeReference
    | NotTradeParticipant
    | SellerCannotPay
    | NotTradeBuyer
    | NotAwaitingPayment
    | DeadlineExpired
    | ProviderUnavailable
    | ProviderRejected
    | TransactionAlreadyUsed
    | TxRefMismatch
    | MetaTradeMismatch
    | MetaBuyerMismatch
    | CurrencyMismatch
    | PaymentNotConfirmed
    | InvalidStateForPayout
    | InvalidStateForRefund
    | RefundNotPending
    | RefundNotSettled
    | RefundRecordMissing
    | ReleaseGateClosed
    | ReleaseNotPending
    | MissingTxHash
    | InvalidStateForHold
    | BuyerCooldown
    | BuyerAtCap
    | TrustLimitExceeded
    | LargeTradeNeedsBacking
    | ListingNotFound
    | ListingNotActive
    | OwnListing
    | ExceedsAvailable
    | InventoryMismatch
    | EntryNotFound
    | NotEntryOwner
    | EntryNotCancellable
    | EntryNotAtFront
    | SlotBusy
    | InsufficientReserve
}
