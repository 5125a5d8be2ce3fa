/** What each payment use case does to the tables, committed or rolled back as a whole
    (`payment/application/services.py` and `wallet_service.py`). `Raised` is a request that
    raises: the session rolls everything back, so it carries no new tables. */
module PaymentFlows {
  import opened Prelude
  import opened PaymentDomain
  import opened PaymentBooks

  /** A provider report that reached a row, in the order reports were applied. */
  datatype Touch =
    | TopupReport(topup: Id, topupStatus: TopupStatus)
    | RideReport(ride: Ride, rideStatus: PaymentStatus)
    | PayoutReport(withdrawal: Id, target: WithdrawalStatus)

  datatype Outcome = Done(books: Books, touches: seq<Touch>) | Raised(error: Error)

  /** What a caller learns of an outcome. */
  function Failure(o: Outcome): Option<Error> {
    if o.Raised? then Some(o.error) else None
  }

  function Lift(r: Result<Books, Error>, touches: seq<Touch>): Outcome {
    match r
    case Ok(b) => Done(b, touches)
    case Err(e) => Raised(e)
  }

  // ---------------------------------------------------------------- applying a report

  function ApplyTopup(
    b: Books, id: Id, status: TopupStatus, providerStatus: string, paidAt: Option<nat>,
    nextAction: Option<Option<Id>>): Outcome
  {
    match MarkTopup(b, id, status, providerStatus, paidAt, nextAction)
    case Err(e) => Raised(e)
    case Ok(marked) =>
      var t := marked.topups[TopupById(b, id).value];
      Done(if status.Succeeded? then RecordOnce(marked, TopupEntry(t)) else marked, [TopupReport(id, status)])
  }

  /** The rides are a snapshot: pricing may change between two calls. */
  function ApplyTransaction(
    b: Books, rides: map<Id, Ride>, id: Id, status: PaymentStatus, providerStatus: string,
    paidAt: Option<nat>, nextAction: Option<Option<Id>>): Outcome
  {
    match PaymentById(b, id)
    case None => Raised(RowNotFound)
    case Some(i) =>
      var p := MarkedExternal(b.payments[i], status, providerStatus, paidAt, nextAction);
      SettleRide(b.(payments := b.payments[i := p]), rides, p.rideId, status)
  }

  function SettleRide(b: Books, rides: map<Id, Ride>, ride: Id, status: PaymentStatus): Outcome {
    if ride in rides then Done(RecordAll(b, SettlementEntry(rides[ride], status)), [RideReport(rides[ride], status)])
    else Done(b, [])
  }

  // ---------------------------------------------------------------- webhook

  function PaidAt(succeeded: bool, now: nat): Option<nat> {
    if succeeded then Some(now) else None
  }

  /** An event id already stored answers "duplicate" and does nothing else. */
  function ApplyWebhook(b: Books, rides: map<Id, Ride>, hook: Webhook, now: nat): Outcome {
    if hook.eventId in b.events then Done(b, [])
    else
      var stored := b.(events := b.events + {hook.eventId});
      if hook.payoutId.Some? then WebhookPayout(stored, hook, now)
      else if hook.intentId.None? then Raised(CallbackInvalid)
      else
        match ServiceStatus(hook.status)
        case None => Raised(StatusInvalid)
        case Some(status) => WebhookIntent(stored, rides, hook, status, now)
  }

  function WebhookPayout(b: Books, hook: Webhook, now: nat): Outcome
    requires hook.payoutId.Some?
  {
    var byPayout := WithdrawalByPayout(b, hook.payoutId.value);
    var found := if byPayout.None? && hook.reference.Some? then WithdrawalByReference(b, hook.reference.value)
        else byPayout;
    match found
    case None => Raised(WithdrawalNotFound)
    case Some(i) =>
      var w := b.withdrawals[i];
      if hook.reference != Some(w.reference) then Raised(ReferenceMismatch)
      else
        match WithdrawalTarget(hook.status)
        case None => Raised(StatusInvalid)
        case Some(target) =>
          Lift(MarkWithdrawal(b, w.id, target, hook.payoutId, hook.status, now), [PayoutReport(w.id, target)])
  }

  predicate SameMoneyField(hook: Webhook, amount: int, currency: string)
    requires AmountField(hook.amount).Some?
  {
    AmountField(hook.amount).value == amount && hook.currency == Some(currency)
  }

  function WebhookIntent(b: Books, rides: map<Id, Ride>, hook: Webhook, status: PaymentStatus, now: nat): Outcome
    requires hook.intentId.Some?
  {
    var paidAt := PaidAt(status.Succeeded?, now);
    match PaymentByIntent(b, hook.intentId.value)
    case Some(i) =>
      var p := b.payments[i];
      if AmountField(hook.amount).None? then Raised(NotANumberError)
      else if !SameMoneyField(hook, p.amount, p.currency) then Raised(OperationConflict)
      else if hook.reference != p.reference then Raised(OperationConflict)
      else ApplyTransaction(b, rides, p.id, status, hook.status, paidAt, None)
    case None =>
      match TopupByIntent(b, hook.intentId.value)
      case None => Raised(IntentNotFound)
      case Some(i) =>
        var t := b.topups[i];
        if AmountField(hook.amount).None? then Raised(NotANumberError)
        else if !SameMoneyField(hook, t.amount, t.currency) then Raised(OperationConflict)
        else if hook.reference != Some(t.reference) then Raised(OperationConflict)
        else ApplyTopup(b, t.id, TopupStatusOf(status), hook.status, paidAt, None)
  }

  // ---------------------------------------------------------------- reconciliation sweep

  datatype Bucket = Updated | Unchanged | Missing | Mismatched | Errored

  datatype Swept = Counted(books: Books, bucket: Bucket, reference: Reference,
      touches: seq<Touch>) | Aborted(error: Error)

  function Count(b: Books, bucket: Bucket, reference: Reference): Swept {
    Counted(b, bucket, reference, [])
  }

  function AsUpdate(o: Outcome, reference: Reference): Swept {
    match o
    case Raised(e) => Aborted(e)
    case Done(b, touches) => Counted(b, Updated, reference, touches)
  }

  function PaymentReference(p: Payment): Reference {
    if p.reference.Some? then p.reference.value else RideRef(p.rideId)
  }

  function ReconcileTransaction(b: Books, rides: map<Id, Ride>, id: Id, answer: IntentAnswer, now: nat): Swept {
    match PaymentById(b, id)
    case None => Aborted(RowNotFound)
    case Some(i) =>
      var p := b.payments[i];
      var reference := PaymentReference(p);
      if p.intentId.None? || answer.UnknownIntent? then Count(b, Missing, reference)
      else if answer.Unreadable? then Count(b, Errored, reference)
      else
        var intent := answer.intent;
        if IntentMismatch(intent, p.amount, p.currency, p.reference) then Count(b, Mismatched, reference)
        else
          match ServiceStatus(intent.status)
          case None => Count(b, Errored, reference)
          case Some(status) =>
            if status == p.status && intent.nextAction == p.nextAction then Count(b, Unchanged, reference)
            else AsUpdate(ApplyTransaction(b, rides, id, status, intent.status, PaidAt(status.Succeeded?, now),
                Some(intent.nextAction)), reference)
  }

  function ReconcileTopup(b: Books, id: Id, answer: IntentAnswer, now: nat): Swept {
    match TopupById(b, id)
    case None => Aborted(RowNotFound)
    case Some(i) =>
      var t := b.topups[i];
      if t.intentId.None? || answer.UnknownIntent? then Count(b, Missing, t.reference)
      else if answer.Unreadable? then Count(b, Errored, t.reference)
      else
        var intent := answer.intent;
        if IntentMismatch(intent, t.amount, t.currency, Some(t.reference)) then Count(b, Mismatched, t.reference)
        else
          match ServiceStatus(intent.status)
          case None => Count(b, Errored, t.reference)
          case Some(paid) =>
            var status := TopupStatusOf(paid);
            if status == t.status && intent.nextAction == t.nextAction then Count(b, Unchanged, t.reference)
            else AsUpdate(ApplyTopup(b, id, status, intent.status, PaidAt(status.Succeeded?, now),
                Some(intent.nextAction)), t.reference)
  }

  predicate PayoutMatches(payout: Payout, w: Withdrawal)
    requires AmountField(payout.amount).Some?
  {
    && AmountField(payout.amount).value == w.net
    && payout.currency == Some(w.currency)
    && payout.reference == Some(w.reference)
  }

  function ReconcileWithdrawal(b: Books, id: Id, answer: PayoutAnswer, now: nat): Swept {
    match WithdrawalById(b, id)
    case None => Aborted(RowNotFound)
    case Some(i) =>
      var w := b.withdrawals[i];
      match answer
      case PayoutApiError => Count(b, Errored, w.reference)
      case PayoutCrash => Aborted(ProviderUnavailable)
      case UnknownPayout => Count(b, Missing, w.reference)
      case PayoutFound(payout) =>
        if AmountField(payout.amount).None? then Aborted(NotANumberError)
        else if !PayoutMatches(payout, w) then Count(b, Mismatched, w.reference)
        else
          match WithdrawalTarget(payout.status)
          case None => Count(b, Errored, w.reference)
          case Some(target) =>
            if payout.id.None? then Aborted(RowNotFound)
            else
              match MarkWithdrawal(b, id, target, payout.id, payout.status, now)
              case Err(e) => Aborted(e)
              case Ok(marked) =>
                Counted(marked, if marked.withdrawals[i].status == w.status then Unchanged else Updated,
                        w.reference, [PayoutReport(id, target)])
  }

  /** `ReconciliationReport`. */
  datatype Report = Report(
    checked: nat, updated: nat, same: nat, missing: nat, mismatched: nat, errors: nat,
    references: seq<Reference>)

  const EMPTY_REPORT := Report(0, 0, 0, 0, 0, 0, [])

  function Tally(r: Report, bucket: Bucket, reference: Reference): Report {
    var seen := r.(checked := r.checked + 1);
    match bucket
    case Updated => seen.(updated := r.updated + 1, references := r.references + [reference])
    case Unchanged => seen.(same := r.same + 1)
    case Missing => seen.(missing := r.missing + 1)
    case Mismatched => seen.(mismatched := r.mismatched + 1)
    case Errored => seen.(errors := r.errors + 1)
  }

  /** One row of the sweep, with what the provider says about it. */
  datatype Job =
    | PaymentJob(payment: Id, intentAnswer: IntentAnswer)
    | TopupJob(topup: Id, topupAnswer: IntentAnswer)
    | WithdrawalJob(withdrawal: Id, payoutAnswer: PayoutAnswer)

  function Reconcile(b: Books, rides: map<Id, Ride>, job: Job, now: nat): Swept {
    match job
    case PaymentJob(id, answer) => ReconcileTransaction(b, rides, id, answer, now)
    case TopupJob(id, answer) => ReconcileTopup(b, id, answer, now)
    case WithdrawalJob(id, answer) => ReconcileWithdrawal(b, id, answer, now)
  }

  datatype SweepState = Sweeping(books: Books, report: Report, touches: seq<Touch>) | SweepRaised(error: Error)

  /** One more row. A row that raises stops the sweep. */
  function SweepOn(s: SweepState, rides: map<Id, Ride>, job: Job, now: nat): SweepState {
    match s
    case SweepRaised(e) => SweepRaised(e)
    case Sweeping(sofar, report, touches) =>
      match Reconcile(sofar, rides, job, now)
      case Aborted(e) => SweepRaised(e)
      case Counted(after, bucket, reference, more) => Sweeping(after, Tally(report, bucket, reference), touches + more)
  }

  /** The sweep after its first `|jobs|` rows. */
  function Sweep(b: Books, rides: map<Id, Ride>, jobs: seq<Job>, now: nat): SweepState {
    if |jobs| == 0 then Sweeping(b, EMPTY_REPORT, [])
    else SweepOn(Sweep(b, rides, jobs[..|jobs| - 1], now), rides, jobs[|jobs| - 1], now)
  }

  // ---------------------------------------------------------------- ride payments

  function NonZero(o: Option<int>): Option<int> {
    if o.Some? && o.value != 0 then o else None
  }

  /** `max(200, 10% of expected)`, without rounding. */
  predicate WithinTolerance(collected: int, expected: int) {
    var gap := if collected < expected then expected - collected else collected - expected;
    gap <= 200 || 10 * gap <= expected
  }

  function ConfirmCash(b: Books, rides: map<Id, Ride>, ride: Id, amount: int, collector: Id, newId: Id,
    now: nat): Outcome {
    if ride !in rides then Raised(RideNotFound)
    else if !rides[ride].completed then Raised(RideNotCompleted)
    else if rides[ride].finalFare.Some? && !WithinTolerance(amount, rides[ride].finalFare.value)
        then Raised(AmountMismatch)
    else
      var existing := PaymentByRide(b, ride);
      var created := Payment(newId, ride, amount, rides[ride].currency, Cash, PaymentStatus.Pending, None, None, "",
          None, None, None, None);
      match if existing.Some? then Ok(b) else SavePayment(b, created)
      case Err(e) => Raised(e)
      case Ok(saved) =>
        var id := if existing.Some? then b.payments[existing.value].id else newId;
        match UpdatePayment(saved, id, (p: Payment) => CollectedInCash(p, collector, amount, now))
        case Err(e) => Raised(e)
        case Ok(collected) => SettleRide(collected, rides, ride, PaymentStatus.Collected)
  }

  /** What `create_payment_intent` answered. */
  datatype NewIntent = IntentFailed | IntentCreated(intent: Intent)

  function ProviderAmount(f: NumberField, amount: int): Option<int> {
    match f
    case Absent => Some(amount)
    case NotANumber => None
    case Number(n) => Some(if n == 0 then amount else n)
  }

  function OrWord(s: string, default: string): string {
    if s == "" then default else s
  }

  /** `prepare_payment` for a passenger who owns the ride. A payment saved here as already
      succeeded is not settled by this call. */
  function PreparePayment(b: Books, rides: map<Id, Ride>, ride: Id, payBy: PaymentMethod, answer: NewIntent, newId: Id,
    now: nat): Outcome {
    if ride !in rides then Raised(RideNotFound)
    else
      var r := rides[ride];
      if !r.completed then Raised(RideNotCompleted)
      else if r.finalFare.None? || r.finalFare.value <= 0 then Raised(OperationConflict)
      else if payBy.Cash? then PrepareCash(b, r, newId)
      else if r.payBy != payBy then Raised(OperationConflict)
      else PrepareDiddiPay(b, r, answer, newId, now)
  }

  function PrepareCash(b: Books, r: Ride, newId: Id): Outcome {
    match PaymentByRide(b, r.id)
    case None =>
      var fare := NonZero(r.finalFare).Or(NonZero(r.estimatedFare));
      var amount := if fare.Some? then fare.value else 0;
      Lift(SavePayment(b, Payment(newId, r.id, amount, r.currency, Cash, PaymentStatus.Pending, None, None, "", None,
          None, None, None)), [])
    case Some(i) =>
      var p := b.payments[i];
      if p.payBy.Cash? then Done(b, [])
      else if p.status !in {PaymentStatus.Failed, PaymentStatus.Cancelled} then Raised(OperationConflict)
      else Lift(UpdatePayment(b, p.id, PreparedForCash), [])
  }

  function PrepareDiddiPay(b: Books, r: Ride, answer: NewIntent, newId: Id, now: nat): Outcome {
    var fare := NonZero(r.finalFare).Or(r.estimatedFare);
    var existing := PaymentByRide(b, r.id);
    var retrying := existing.Some? && b.payments[existing.value].intentId.Some?
                    && b.payments[existing.value].status in {PaymentStatus.Failed, PaymentStatus.Cancelled};
    if fare.None? || fare.value <= 0 then Raised(OperationConflict)
    else if existing.Some? && b.payments[existing.value].intentId.Some? && !retrying then Done(b, [])
    else if existing.Some? && !retrying then Raised(OperationConflict)
    else if answer.IntentFailed? then Raised(ProviderUnavailable)
    else
      var intent := answer.intent;
      match ServiceStatus(OrWord(intent.status, "requires_action"))
      case None => Raised(StatusInvalid)
      case Some(status) =>
        if intent.id.None? then Raised(RowNotFound)
        else if retrying then
          var p := b.payments[existing.value];
          if IntentTaken(b, p.id, intent.id) then Raised(IntegrityViolation)
          else Lift(UpdatePayment(b, p.id, (q: Payment) =>
              WithNewIntent(q, intent.id.value, MobileMoney, status, OrWord(intent.status, "requires_action"),
                  intent.nextAction)), [])
        else
          match ProviderAmount(intent.amount, fare.value)
          case None => Raised(NotANumberError)
          case Some(amount) =>
            var currency := if intent.currency.Some? then OrWord(intent.currency.value, r.currency) else r.currency;
            Lift(SavePayment(b, Payment(newId, r.id, amount, currency, MobileMoney, status, intent.id,
                Some(RideRef(r.id)),
                                        OrWord(intent.status, "requires_action"), intent.nextAction,
                                            PaidAt(status.Succeeded?, now), None, None)), [])
  }

  // ---------------------------------------------------------------- driver wallet

  function CreateTopup(b: Books, id: Id, driver: Id, amount: int, cash: bool, answer: NewIntent, now: nat): Outcome {
    if amount <= 0 || cash then Raised(InvalidAmount)
    else if answer.IntentFailed? then Raised(ProviderUnavailable)
    else
      var intent := answer.intent;
      match WalletStatus(intent.status)
      case None => Raised(StatusInvalid)
      case Some(paid) =>
        var status := TopupStatusOf(paid);
        if intent.id.None? then Raised(RowNotFound)
        else
          match ProviderAmount(intent.amount, amount)
          case None => Raised(NotANumberError)
          case Some(stored) =>
            var t := Topup(id, driver, stored, if intent.currency.Some? then OrWord(intent.currency.value, "XOF")
                else "XOF", status, intent.id,
                           TopupRef(id), OrWord(intent.status, "requires_action"), intent.nextAction,
                               PaidAt(status.Succeeded?, now));
            match SaveTopup(b, t)
            case Err(e) => Raised(e)
            case Ok(saved) =>
              Done(if status.Succeeded? then RecordOnce(saved, TopupEntry(t)) else saved, [TopupReport(id, status)])
  }

  /** Settings bound the minimum below by 1 and the fee by 0. */
  datatype WithdrawalSettings = WithdrawalSettings(minimum: nat, fee: nat, ttl: nat)

  function QuoteWithdrawal(b: Books, id: Id, driver: Id, amount: int, s: WithdrawalSettings, now: nat): Outcome {
    if amount < s.minimum || amount <= s.fee then Raised(InvalidAmount)
    else
      var ready := EnsureWallet(b, driver);
      if ready.wallets[driver] < amount then Raised(BalanceInsufficient)
      else Lift(SaveQuote(ready, id, Quote(driver, amount, s.fee, amount - s.fee, "XOF", now + s.ttl, None)), [])
  }

  /** The part of `request_withdrawal` before its explicit commit. */
  function RequestWithdrawal(b: Books, d: Draft, verified: bool, now: nat): Outcome {
    match WithdrawalByQuote(b, d.quoteId)
    case Some(i) =>
      var w := b.withdrawals[i];
      if w.driver != d.driver || w.destination != d.destination then Raised(QuoteAlreadyUsed) else Done(b, [])
    case None =>
      if !verified then Raised(VerificationRefused) else Lift(Reserve(b, d, now), [])
  }

  /** What `create_payout` answered: refused (4xx), unavailable (5xx), or a payout. */
  datatype NewPayout = PayoutRefused | PayoutUnavailable | PayoutCreated(payout: Payout)

  /** The part after the commit. A refusal commits the release before the error is re-raised. */
  function FinishPayout(b: Books, id: Id, answer: NewPayout, now: nat): Outcome {
    match answer
    case PayoutRefused =>
      Lift(MarkWithdrawal(b, id, WithdrawalStatus.Failed, None, "rejected", now),
          [PayoutReport(id, WithdrawalStatus.Failed)])
    case PayoutUnavailable => Raised(ProviderUnavailable)
    case PayoutCreated(payout) => ApplyPayout(b, id, payout, now)
  }

  /** `apply_withdrawal_provider_payload`. */
  function ApplyPayout(b: Books, id: Id, payout: Payout, now: nat): Outcome {
    match WithdrawalById(b, id)
    case None => Raised(RowNotFound)
    case Some(i) =>
      var w := b.withdrawals[i];
      if AmountField(payout.amount).None? then Raised(NotANumberError)
      else if AmountField(payout.amount).value != w.net then Raised(AmountMismatch)
      else if payout.currency != Some(w.currency) then Raised(CurrencyMismatch)
      else if payout.reference != Some(w.reference) then Raised(ReferenceMismatch)
      else
        match WithdrawalTarget(payout.status)
        case None => Raised(StatusInvalid)
        case Some(target) =>
          if payout.id.None? then Raised(RowNotFound)
          else Lift(MarkWithdrawal(b, id, target, payout.id, payout.status, now), [PayoutReport(id, target)])
  }
}
