/** Entities and pure rules of the payment module
    (`payment/domain/entities.py` and the pure helpers of the two services). */
module PaymentDomain {
  import opened Prelude

  datatype PaymentStatus =
    | Pending | RequiresAction | Processing | Succeeded | Failed | Cancelled
    | PartiallyRefunded | Refunded | Collected | Disputed

  datatype TopupStatus = Pending | RequiresAction | Processing | Succeeded | Failed | Cancelled

  datatype WithdrawalStatus = Reserved | Processing | Succeeded | Failed | Released

  datatype PaymentMethod = Cash | MobileMoney

  datatype Direction = Credit | Debit

  datatype EntryStatus = EntryPending | EntryConfirmed | EntryFailed

  datatype EntryType =
    | RidePayout | PlatformCommission | TopupCredit | Adjustment
    | WithdrawalReserved | WithdrawalSucceeded | WithdrawalReleased | Refund

  /** A business reference such as `diddigo:driver_topup:<id>`; also the
      (reference_type, reference_id) pair of a ledger entry. The rendering is injective. */
  datatype Reference =
    | RideRef(ride: Id) | TopupRef(topup: Id) | WithdrawalRef(withdrawal: Id) | ForeignRef(text: string)

  /** The columns of `uq_payment_driver_ledger_reference`. */
  datatype Key = Key(driver: Id, entryType: EntryType, reference: Reference)

  datatype Entry = Entry(key: Key, amount: int, direction: Direction, status: EntryStatus)

  datatype Topup = Topup(
    id: Id, driver: Id, amount: int, currency: string, status: TopupStatus,
    intentId: Option<Id>, reference: Reference, providerStatus: string, nextAction: Option<Id>,
    paidAt: Option<nat>)

  datatype Payment = Payment(
    id: Id, rideId: Id, amount: int, currency: string, payBy: PaymentMethod, status: PaymentStatus,
    intentId: Option<Id>, reference: Option<Reference>, providerStatus: string, nextAction: Option<Id>,
    paidAt: Option<nat>, collectedAt: Option<nat>, collectedBy: Option<Id>)

  datatype Quote = Quote(
    driver: Id, amount: nat, fees: nat, net: nat, currency: string, expiresAt: nat, consumedAt: Option<nat>)

  datatype Withdrawal = Withdrawal(
    id: Id, driver: Id, quoteId: Id, amount: nat, fees: nat, net: nat, currency: string,
    destination: Option<Id>, status: WithdrawalStatus, payoutId: Option<Id>, reference: Reference,
    providerStatus: Option<string>, reservedAt: nat, succeededAt: Option<nat>, releasedAt: Option<nat>,
    updatedAt: nat)

  /** What the payment module reads of a ride. */
  datatype Ride = Ride(
    id: Id, driver: Option<Id>, completed: bool, payBy: PaymentMethod, currency: string,
    finalFare: Option<int>, estimatedFare: Option<int>,
    commission: Option<int>, payout: Option<int>)

  // ---------------------------------------------------------------- provider payloads

  /** A JSON field expected to be a number. */
  datatype NumberField = Absent | NotANumber | Number(n: int)

  datatype Intent = Intent(
    id: Option<Id>, amount: NumberField, currency: Option<string>, reference: Option<Reference>,
    status: string, nextAction: Option<Id>)

  datatype Payout = Payout(
    id: Option<Id>, amount: NumberField, currency: Option<string>, reference: Option<Reference>, status: string)

  datatype Webhook = Webhook(
    eventId: Id, intentId: Option<Id>, payoutId: Option<Id>, amount: NumberField,
    currency: Option<string>, reference: Option<Reference>, status: string)

  /** Reading one intent: the transport failed, DiddiPay does not know it, or it answered. */
  datatype IntentAnswer = Unreadable | UnknownIntent | IntentFound(intent: Intent)

  /** Reading one payout. Only API errors are caught by the sweep; any other exception escapes. */
  datatype PayoutAnswer = PayoutApiError | PayoutCrash | UnknownPayout | PayoutFound(payout: Payout)

  datatype Error =
    | RowNotFound | IntegrityViolation | QuoteNotFound | QuoteAlreadyUsed | QuoteExpired
    | BalanceInsufficient | InvalidAmount | NotANumberError | StatusInvalid | ReferenceMismatch
    | AmountMismatch | CurrencyMismatch | OperationConflict | IntentNotFound | WithdrawalNotFound
    | CallbackInvalid | RideNotFound | RideNotCompleted | PayoutRejected | ProviderUnavailable
    | VerificationRefused

  // ---------------------------------------------------------------- pure rules

  function LowerChar(c: char): char {
    if 'A' <= c <= 'Z' then c - 'A' + 'a' else c
  }

  function Lower(s: string): string {
    seq(|s|, i requires 0 <= i < |s| => LowerChar(s[i]))
  }

  predicate Blank(c: char) {
    c in {' ', '\t', '\n', '\r'}
  }

  function Strip(s: string): string {
    if |s| > 0 && Blank(s[0]) then Strip(s[1..])
    else if |s| > 0 && Blank(s[|s| - 1]) then Strip(s[..|s| - 1])
    else s
  }

  function ParsePaymentStatus(s: string): Option<PaymentStatus> {
    if s == "pending" then Some(PaymentStatus.Pending)
    else if s == "requires_action" then Some(PaymentStatus.RequiresAction)
    else if s == "processing" then Some(PaymentStatus.Processing)
    else if s == "succeeded" then Some(PaymentStatus.Succeeded)
    else if s == "failed" then Some(PaymentStatus.Failed)
    else if s == "cancelled" then Some(PaymentStatus.Cancelled)
    else if s == "partially_refunded" then Some(PaymentStatus.PartiallyRefunded)
    else if s == "refunded" then Some(PaymentStatus.Refunded)
    else if s == "collected" then Some(PaymentStatus.Collected)
    else if s == "disputed" then Some(PaymentStatus.Disputed)
    else None
  }

  /** Webhook and sweep reading of a provider status: trimmed, lower-cased, with the two
      provider-only words for an abandoned checkout. */
  function ServiceStatus(s: string): Option<PaymentStatus> {
    var normalized := Lower(Strip(s));
    if normalized == "expired" || normalized == "abandoned" then Some(PaymentStatus.Cancelled)
    else ParsePaymentStatus(normalized)
  }

  /** The wallet service's own reading: no normalisation, and an empty status means
      "requires action". */
  function WalletStatus(s: string): Option<PaymentStatus> {
    if s == "" then Some(PaymentStatus.RequiresAction) else ParsePaymentStatus(s)
  }

  function TopupStatusOf(s: PaymentStatus): TopupStatus {
    match s
    case Pending => TopupStatus.Pending
    case RequiresAction => TopupStatus.RequiresAction
    case Processing => TopupStatus.Processing
    case Succeeded => TopupStatus.Succeeded
    case Failed => TopupStatus.Failed
    case Cancelled => TopupStatus.Cancelled
    case _ => TopupStatus.Failed
  }

  function WithdrawalTarget(s: string): Option<WithdrawalStatus> {
    if s == "succeeded" then Some(WithdrawalStatus.Succeeded)
    else if s == "failed" || s == "disputed" then Some(WithdrawalStatus.Failed)
    else if s == "pending" || s == "processing" then Some(WithdrawalStatus.Processing)
    else None
  }

  /** `int(data.get("amount") or -1)`; a non-numeric field raises. */
  function AmountField(f: NumberField): Option<int> {
    match f
    case Absent => Some(-1)
    case NotANumber => None
    case Number(n) => Some(if n == 0 then -1 else n)
  }

  /** `_intent_mismatch_reason(...) is not None`. */
  predicate IntentMismatch(intent: Intent, amount: int, currency: string, reference: Option<Reference>) {
    || !intent.amount.Number?
    || intent.currency.None?
    || intent.amount.n != amount
    || intent.currency.value != currency
    || (reference.Some? && intent.reference.Some? && intent.reference != reference)
  }

  predicate Terminal(s: WithdrawalStatus) {
    s in {WithdrawalStatus.Succeeded, WithdrawalStatus.Released}
  }

  /** The ledger entry a ride in payment status `s` calls for, if any
      (`_record_ride_settlement`). */
  function SettlementEntry(ride: Ride, s: PaymentStatus): Option<Entry> {
    if ride.driver.None? || ride.commission.None? || ride.payout.None? then None
    else if ride.payBy.Cash? && s.Collected? then
      Some(Entry(Key(ride.driver.value, PlatformCommission, RideRef(ride.id)), ride.commission.value, Debit,
          EntryConfirmed))
    else if ride.payBy.MobileMoney? && s.Succeeded? then
      Some(Entry(Key(ride.driver.value, RidePayout, RideRef(ride.id)), ride.payout.value, Credit, EntryConfirmed))
    else None
  }

  function TopupEntry(topup: Topup): Entry {
    Entry(Key(topup.driver, TopupCredit, TopupRef(topup.id)), topup.amount, Credit, EntryConfirmed)
  }

  function WithdrawalEntry(w: Withdrawal, entryType: EntryType, direction: Direction): Entry {
    Entry(Key(w.driver, entryType, WithdrawalRef(w.id)), w.amount, direction, EntryConfirmed)
  }
}
