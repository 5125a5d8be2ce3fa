/** The payment tables as one value, and what each repository call does to them
    (`payment/infra/repositories.py`). Every repository call is one atomic step. */
module PaymentBooks {
  import opened Prelude
  import opened PaymentDomain

  datatype Books = Books(
    wallets: map<Id, int>,
    ledger: seq<Entry>,
    topups: seq<Topup>,
    payments: seq<Payment>,
    quotes: map<Id, Quote>,
    withdrawals: seq<Withdrawal>,
    events: set<Id>)

  const EMPTY_BOOKS := Books(map[], [], [], [], map[], [], {})

  // ---------------------------------------------------------------- reading

  /** A driver without a wallet row has nothing on it. */
  function Balance(b: Books, driver: Id): int {
    if driver in b.wallets then b.wallets[driver] else 0
  }

  predicate HasEntry(ledger: seq<Entry>, key: Key) {
    exists e | e in ledger :: e.key == key
  }

  function TopupById(b: Books, id: Id): Option<nat> {
    Find(b.topups, (t: Topup) => t.id == id)
  }

  function TopupByIntent(b: Books, intent: Id): Option<nat> {
    Find(b.topups, (t: Topup) => t.intentId == Some(intent))
  }

  function PaymentById(b: Books, id: Id): Option<nat> {
    Find(b.payments, (p: Payment) => p.id == id)
  }

  function PaymentByRide(b: Books, ride: Id): Option<nat> {
    Find(b.payments, (p: Payment) => p.rideId == ride)
  }

  function PaymentByIntent(b: Books, intent: Id): Option<nat> {
    Find(b.payments, (p: Payment) => p.intentId == Some(intent))
  }

  function WithdrawalById(b: Books, id: Id): Option<nat> {
    Find(b.withdrawals, (w: Withdrawal) => w.id == id)
  }

  function WithdrawalByQuote(b: Books, quote: Id): Option<nat> {
    Find(b.withdrawals, (w: Withdrawal) => w.quoteId == quote)
  }

  function WithdrawalByPayout(b: Books, payout: Id): Option<nat> {
    Find(b.withdrawals, (w: Withdrawal) => w.payoutId == Some(payout))
  }

  function WithdrawalByReference(b: Books, reference: Reference): Option<nat> {
    Find(b.withdrawals, (w: Withdrawal) => w.reference == reference)
  }

  /** The withdrawal's driver, if there is one, has a wallet row. */
  predicate HasWallet(b: Books, withdrawal: Id) {
    match WithdrawalById(b, withdrawal)
    case None => true
    case Some(i) => b.withdrawals[i].driver in b.wallets
  }

  /** Amounts of the driver's withdrawals whose status is in `statuses`. */
  function Total(rows: seq<Withdrawal>, driver: Id, statuses: set<WithdrawalStatus>): nat {
    if |rows| == 0 then 0
    else Total(rows[..|rows| - 1], driver, statuses) + Share(rows[|rows| - 1], driver, statuses)
  }

  function Share(w: Withdrawal, driver: Id, statuses: set<WithdrawalStatus>): nat {
    if w.driver == driver && w.status in statuses then w.amount else 0
  }

  const OPEN := {WithdrawalStatus.Reserved, WithdrawalStatus.Processing}
  const PAID := {WithdrawalStatus.Succeeded}

  /** `withdrawal_reserved_total`. */
  function ReservedTotal(b: Books, driver: Id): nat {
    Total(b.withdrawals, driver, OPEN)
  }

  function SucceededTotal(b: Books, driver: Id): nat {
    Total(b.withdrawals, driver, PAID)
  }

  // ---------------------------------------------------------------- wallet and ledger

  function EnsureWallet(b: Books, driver: Id): Books {
    if driver in b.wallets then b else b.(wallets := b.wallets[driver := 0])
  }

  /** What a ledger entry does to the cached balance when `record_ledger_entry_once` inserts it. */
  function Delta(e: Entry): int {
    if !e.status.EntryConfirmed? then 0 else if e.direction.Credit? then e.amount else -e.amount
  }

  function RecordOnce(b: Books, e: Entry): Books {
    var ready := EnsureWallet(b, e.key.driver);
    if HasEntry(b.ledger, e.key) then ready
    else ready.(ledger := b.ledger + [e],
                 wallets := ready.wallets[e.key.driver := ready.wallets[e.key.driver] + Delta(e)])
  }

  function RecordAll(b: Books, e: Option<Entry>): Books {
    if e.None? then b else RecordOnce(b, e.value)
  }

  // ---------------------------------------------------------------- top-ups and payments

  predicate TopupClashes(b: Books, t: Topup) {
    exists u | u in b.topups :: u.id == t.id || (u.intentId.Some? && u.intentId == t.intentId)
  }

  function SaveTopup(b: Books, t: Topup): Result<Books, Error> {
    if TopupClashes(b, t) then Err(IntegrityViolation) else Ok(b.(topups := b.topups + [t]))
  }

  /** `next_action` is only written when the caller supplies it: `None` stands for `KEEP`. */
  function MarkTopup(
    b: Books, id: Id, status: TopupStatus, providerStatus: string, paidAt: Option<nat>,
    nextAction: Option<Option<Id>>): Result<Books, Error>
  {
    match TopupById(b, id)
    case None => Err(RowNotFound)
    case Some(i) =>
      var t := b.topups[i];
      var marked := t.(status := status, providerStatus := providerStatus, paidAt := paidAt.Or(t.paidAt),
                       nextAction := if nextAction.Some? then nextAction.value else t.nextAction);
      Ok(b.(topups := b.topups[i := marked]))
  }

  predicate IntentTaken(b: Books, except: Id, intent: Option<Id>) {
    exists p | p in b.payments :: p.id != except && p.intentId.Some? && p.intentId == intent
  }

  function SavePayment(b: Books, p: Payment): Result<Books, Error> {
    if (exists q | q in b.payments :: q.id == p.id) || IntentTaken(b, p.id, p.intentId) then Err(IntegrityViolation)
    else Ok(b.(payments := b.payments + [p]))
  }

  function UpdatePayment(b: Books, id: Id, change: Payment -> Payment): Result<Books, Error> {
    match PaymentById(b, id)
    case None => Err(RowNotFound)
    case Some(i) => Ok(b.(payments := b.payments[i := change(b.payments[i])]))
  }

  function CollectedInCash(p: Payment, collector: Id, amount: int, at: nat): Payment {
    p.(collectedBy := Some(collector), amount := amount, collectedAt := Some(at), payBy := Cash,
       status := PaymentStatus.Collected)
  }

  function MarkedExternal(
    p: Payment, status: PaymentStatus, providerStatus: string, paidAt: Option<nat>,
    nextAction: Option<Option<Id>>): Payment
  {
    p.(status := status, providerStatus := providerStatus, paidAt := paidAt.Or(p.paidAt),
       collectedAt := paidAt.Or(p.collectedAt),
       nextAction := if nextAction.Some? then nextAction.value else p.nextAction)
  }

  function PreparedForCash(p: Payment): Payment {
    p.(payBy := Cash, status := PaymentStatus.Pending, intentId := None, reference := None,
       providerStatus := "local", nextAction := None, paidAt := None)
  }

  function WithNewIntent(
    p: Payment, intent: Id, payBy: PaymentMethod, status: PaymentStatus, providerStatus: string,
    nextAction: Option<Id>): Payment
  {
    p.(intentId := Some(intent), payBy := payBy, status := status, providerStatus := providerStatus,
       nextAction := nextAction, paidAt := None, collectedAt := None)
  }

  // ---------------------------------------------------------------- withdrawals

  function SaveQuote(b: Books, id: Id, q: Quote): Result<Books, Error> {
    if id in b.quotes then Err(IntegrityViolation) else Ok(b.(quotes := b.quotes[id := q]))
  }

  /** The withdrawal a request brings to the reservation; amounts come from the locked quote. */
  datatype Draft = Draft(id: Id, driver: Id, quoteId: Id, destination: Option<Id>)

  function NewWithdrawal(d: Draft, q: Quote, now: nat): Withdrawal {
    Withdrawal(d.id, d.driver, d.quoteId, q.amount, q.fees, q.net, q.currency, d.destination,
               WithdrawalStatus.Reserved, None, WithdrawalRef(d.id), None, now, None, None, now)
  }

  function Reserve(b: Books, d: Draft, now: nat): Result<Books, Error> {
    if d.quoteId !in b.quotes || b.quotes[d.quoteId].driver != d.driver then Err(QuoteNotFound)
    else
      var q := b.quotes[d.quoteId];
      if q.consumedAt.Some? then
        match WithdrawalByQuote(b, d.quoteId)
        case None => Err(QuoteAlreadyUsed)
        case Some(i) =>
          var w := b.withdrawals[i];
          if w.destination.None? && d.destination.Some? then
            Ok(b.(withdrawals := b.withdrawals[i := w.(destination := d.destination)]))
          else Ok(b)
      else if q.expiresAt <= now then Err(QuoteExpired)
      else
        var ready := EnsureWallet(b, d.driver);
        var w := NewWithdrawal(d, q, now);
        var e := WithdrawalEntry(w, WithdrawalReserved, Debit);
        if ready.wallets[d.driver] < q.amount then Err(BalanceInsufficient)
        else if (exists v | v in b.withdrawals :: v.id == d.id || v.quoteId == d.quoteId)
            || HasEntry(b.ledger, e.key) then
          Err(IntegrityViolation)
        else Ok(ready.(
          withdrawals := b.withdrawals + [w],
          quotes := b.quotes[d.quoteId := q.(consumedAt := Some(now))],
          wallets := ready.wallets[d.driver := ready.wallets[d.driver] - q.amount],
          ledger := b.ledger + [e]))
  }

  predicate PayoutTaken(b: Books, except: Id, payout: Option<Id>) {
    exists v | v in b.withdrawals :: v.id != except && v.payoutId.Some? && v.payoutId == payout
  }

  function Reported(w: Withdrawal, target: WithdrawalStatus, payout: Option<Id>, providerStatus: string,
    now: nat): Withdrawal {
    var seen := w.(payoutId := payout.Or(w.payoutId), providerStatus := Some(providerStatus), updatedAt := now);
    match target
    case Succeeded => seen.(status := WithdrawalStatus.Succeeded, succeededAt := Some(now))
    case Failed => seen.(status := WithdrawalStatus.Released, releasedAt := Some(now))
    case Released => seen.(status := WithdrawalStatus.Released, releasedAt := Some(now))
    case _ => seen.(status := target)
  }

  /** `mark_withdrawal_provider_state`: a terminal row ignores every later report; a success only
      adds its log line, a failure also gives the reserved amount back, once. */
  function MarkWithdrawal(
    b: Books, id: Id, target: WithdrawalStatus, payout: Option<Id>, providerStatus: string, now: nat): Result<Books,
        Error>
  {
    match WithdrawalById(b, id)
    case None => Err(RowNotFound)
    case Some(i) =>
      var w := b.withdrawals[i];
      if Terminal(w.status) then Ok(b)
      else if PayoutTaken(b, id, payout) then Err(IntegrityViolation)
      else
        var marked := b.(withdrawals := b.withdrawals[i := Reported(w, target, payout, providerStatus, now)]);
        var paid := WithdrawalEntry(w, WithdrawalSucceeded, Debit);
        var back := WithdrawalEntry(w, WithdrawalReleased, Credit);
        match target
        case Succeeded =>
          Ok(if HasEntry(b.ledger, paid.key) then marked else marked.(ledger := b.ledger + [paid]))
        case Failed => GiveBack(marked, back)
        case Released => GiveBack(marked, back)
        case _ => Ok(marked)
  }

  function GiveBack(b: Books, back: Entry): Result<Books, Error> {
    if HasEntry(b.ledger, back.key) then Ok(b)
    else if back.key.driver !in b.wallets then Err(RowNotFound)
    else Ok(b.(ledger := b.ledger + [back],
               wallets := b.wallets[back.key.driver := b.wallets[back.key.driver] + back.amount]))
  }

  /** A call that fails is undone. */
  function OrSame(b: Books, r: Result<Books, Error>): Books {
    if r.Ok? then r.value else b
  }
}
