/** What collecting, webhooks and sweeps do to a ride's payment and its driver's money, stated on amounts,
    words and tables alone. */
module RideOutcomes {
  import opened Prelude
  import opened PaymentDomain
  import opened PaymentBooks
  import opened PaymentFlows
  import opened WalletLaws
  import opened PaymentSafety
  import opened PaymentEffects
  import opened ProviderWords
  import opened UnsettledPayments

  /** A cash ride costs its driver the commission: the driver already holds the fare. */
  function ChargeFor(ride: Ride): Option<Entry> {
    if ride.payBy == Cash && ride.driver.Some? && ride.commission.Some? && ride.payout.Some?
    then Some(Entry(
      Key(ride.driver.value, PlatformCommission, RideRef(ride.id)), ride.commission.value, Debit, EntryConfirmed))
    else None
  }

  /** A ride paid digitally earns its driver the payout. */
  function ShareFor(ride: Ride): Option<Entry> {
    if ride.payBy == MobileMoney && ride.driver.Some? && ride.commission.Some? && ride.payout.Some?
    then Some(Entry(Key(ride.driver.value, RidePayout, RideRef(ride.id)), ride.payout.value, Credit, EntryConfirmed))
    else None
  }

  ghost predicate NothingBooked(b: Books, r: Books) {
    r.ledger == b.ledger && forall d: Id :: Balance(r, d) == Balance(b, d)
  }

  /** Exactly the line `e` more, and exactly its driver's balance moved by its amount. */
  ghost predicate Booked(b: Books, r: Books, e: Entry) {
    && r.ledger == b.ledger + [e]
    && forall d: Id :: Balance(r, d) == Balance(b, d)
         + (if d != e.key.driver then 0 else if e.direction == Credit then e.amount else -e.amount)
  }

  ghost predicate BookedOnce(b: Books, r: Books, e: Option<Entry>) {
    if e.Some? && !HasEntry(b.ledger, e.value.key) then Booked(b, r, e.value) else NothingBooked(b, r)
  }

  /** What a status calls for: collected cash the charge, a digital success the share, anything else nothing. */
  function CalledFor(rides: map<Id, Ride>, ride: Id, status: PaymentStatus): Option<Entry> {
    if ride !in rides then None
    else if status == PaymentStatus.Collected then ChargeFor(rides[ride])
    else if status == PaymentStatus.Succeeded then ShareFor(rides[ride])
    else None
  }

  lemma RecordBooksOnce(b: Books, e: Entry)
    requires e.status.EntryConfirmed?
    ensures BookedOnce(b, RecordOnce(b, e), Some(e))
  {
  }

  lemma SettlingBooks(b: Books, rides: map<Id, Ride>, ride: Id, status: PaymentStatus)
    ensures SettleRide(b, rides, ride, status).Done?
    ensures BookedOnce(b, SettleRide(b, rides, ride, status).books, CalledFor(rides, ride, status))
  {
    if CalledFor(rides, ride, status).Some? {
      RecordBooksOnce(b, CalledFor(rides, ride, status).value);
    }
  }

  // ---------------------------------------------------------------- cash

  /** The amount collected may differ from the fare by 200, or by a tenth of the fare if that is more. */
  predicate CloseEnough(collected: int, fare: int) {
    -200 <= collected - fare <= 200 || -fare <= 10 * (collected - fare) <= fare
  }

  /** Confirming cash is accepted exactly for a completed ride with an amount close to its fare. */
  lemma CashAcceptedExactlyWhen(
    b: Books, rides: map<Id, Ride>, ride: Id, amount: int, collector: Id, newId: Id, now: nat)
    requires OnePerRide(b.payments) && PaymentById(b, newId).None?
    ensures ConfirmCash(b, rides, ride, amount, collector, newId, now).Done? <==>
              ride in rides && rides[ride].completed
              && (rides[ride].finalFare.Some? ==> CloseEnough(amount, rides[ride].finalFare.value))
  {
    if PaymentByRide(b, ride).Some? {
      PaymentFound(b, PaymentByRide(b, ride).value);
    } else {
      NewPaymentFits(b, newId);
      forall p: Payment | p.id == newId ensures PaymentById(b.(payments := b.payments + [p]), newId).Some? {
        assert (b.payments + [p])[|b.payments|].id == newId;
      }
    }
  }

  lemma NewPaymentFits(b: Books, newId: Id)
    requires PaymentById(b, newId).None?
    ensures forall p | p in b.payments :: p.id != newId
  {
    forall p | p in b.payments ensures p.id != newId {
      var k :| 0 <= k < |b.payments| && b.payments[k] == p;
    }
  }

  /** The ride's payment after collection. */
  predicate CollectedRow(p: Payment, ride: Id, amount: int, collector: Id, now: nat) {
    && p.rideId == ride && p.status == PaymentStatus.Collected && p.payBy == Cash && p.amount == amount
    && p.collectedBy == Some(collector) && p.collectedAt == Some(now)
  }

  /** What collection leaves of an earlier row, and what a new row starts from. */
  predicate CollectedFrom(p: Payment, b: Books, ride: Ride, newId: Id) {
    match PaymentByRide(b, p.rideId)
    case None => p.id == newId && p.currency == ride.currency && p.intentId == None && p.reference == None
    case Some(i) =>
      var q := b.payments[i];
      p.id == q.id && p.currency == q.currency && p.intentId == q.intentId && p.reference == q.reference
      && p.paidAt == q.paidAt && p.providerStatus == q.providerStatus && p.nextAction == q.nextAction
  }

  /** Accepted cash changes or adds exactly the ride's row. */
  lemma CashStored(b: Books, rides: map<Id, Ride>, ride: Id, amount: int, collector: Id, newId: Id, now: nat)
    requires OnePerRide(b.payments) && ConfirmCash(b, rides, ride, amount, collector, newId, now).Done?
    ensures var o := ConfirmCash(b, rides, ride, amount, collector, newId, now);
            var i := if PaymentByRide(b, ride).Some? then PaymentByRide(b, ride).value else |b.payments|;
            && o.books.payments == (if i < |b.payments| then b.payments[i := o.books.payments[i]]
                                    else b.payments + [o.books.payments[i]])
            && CollectedRow(o.books.payments[i], ride, amount, collector, now)
            && CollectedFrom(o.books.payments[i], b, rides[ride], newId)
            && o == SettleRide(b.(payments := o.books.payments), rides, ride, PaymentStatus.Collected)
  {
    if PaymentByRide(b, ride).Some? {
      PaymentFound(b, PaymentByRide(b, ride).value);
    }
  }

  /** Confirmed cash leaves the ride's one payment collected, and on a cash ride with its shares set charges
      the driver exactly the commission, once; otherwise no line is booked and no balance moves. */
  lemma CashCharges(b: Books, rides: map<Id, Ride>, ride: Id, amount: int, collector: Id, newId: Id, now: nat)
    requires OnePerRide(b.payments) && ConfirmCash(b, rides, ride, amount, collector, newId, now).Done?
    ensures var o := ConfirmCash(b, rides, ride, amount, collector, newId, now);
            && ride in rides && BookedOnce(b, o.books, ChargeFor(rides[ride]))
            && (exists i | 0 <= i < |o.books.payments| ::
                  CollectedRow(o.books.payments[i], ride, amount, collector, now))
  {
    var o := ConfirmCash(b, rides, ride, amount, collector, newId, now);
    CashStored(b, rides, ride, amount, collector, newId, now);
    SettlingBooks(b.(payments := o.books.payments), rides, ride, PaymentStatus.Collected);
  }

  // ---------------------------------------------------------------- provider reports

  /** Row `i` alone changed: its status, the provider's word, and a paid date if it succeeded. */
  predicate RowMarked(b: Books, r: Books, i: nat, status: PaymentStatus, word: string, now: nat) {
    && i < |b.payments| && |r.payments| == |b.payments| && r.payments == b.payments[i := r.payments[i]]
    && var p, q := b.payments[i], r.payments[i];
       && q.id == p.id && q.rideId == p.rideId && q.amount == p.amount && q.currency == p.currency
       && q.intentId == p.intentId && q.reference == p.reference && q.payBy == p.payBy && q.collectedBy == p.collectedBy
       && q.status == status && q.providerStatus == word
       && q.paidAt == (if status == PaymentStatus.Succeeded then Some(now) else p.paidAt)
       && q.collectedAt == (if status == PaymentStatus.Succeeded then Some(now) else p.collectedAt)
  }

  lemma TransactionMeans(
    b: Books, rides: map<Id, Ride>, i: nat, status: PaymentStatus, word: string, next: Option<Option<Id>>, now: nat)
    requires OnePerRide(b.payments) && i < |b.payments|
    ensures var p := b.payments[i];
            var o := ApplyTransaction(b, rides, p.id, status, word, PaidAt(status.Succeeded?, now), next);
            && o.Done? && RowMarked(b, o.books, i, status, word, now)
            && BookedOnce(b, o.books, CalledFor(rides, p.rideId, status))
            && o.books.payments[i].nextAction == (if next.Some? then next.value else p.nextAction)
  {
    PaymentFound(b, i);
    var p := MarkedExternal(b.payments[i], status, word, PaidAt(status.Succeeded?, now), next);
    var marked := b.(payments := b.payments[i := p]);
    SettlingBooks(marked, rides, p.rideId, status);
  }

  /** The hook names the row's intent and repeats its money and reference; the row's amount is not zero. */
  predicate HookFits(p: Payment, hook: Webhook) {
    && hook.payoutId.None? && hook.intentId.Some? && p.intentId == hook.intentId
    && hook.amount == Number(p.amount) && p.amount != 0 && hook.currency == Some(p.currency)
    && hook.reference == p.reference
  }

  /** A first webhook that fits: its word's status is stored and exactly what that calls for is booked;
      a word that spells no status raises. */
  lemma {:induction false} RideWebhookMeans(
    b: Books, i: nat, rides: map<Id, Ride>, hook: Webhook, status: PaymentStatus, now: nat)
    requires OnePerRide(b.payments) && i < |b.payments|
    requires hook.eventId !in b.events && HookFits(b.payments[i], hook)
    ensures var o := ApplyWebhook(b, rides, hook, now); var p := b.payments[i];
            && (o.Done? <==> exists s :: Spells(hook.status, s))
            && (Spells(hook.status, status) ==>
                  && o.Done? && RowMarked(b, o.books, i, status, hook.status, now)
                  && BookedOnce(b, o.books, CalledFor(rides, p.rideId, status)))
  {
    var stored := b.(events := b.events + {hook.eventId});
    IntentFoundAt(b, i);
    assert PaymentByIntent(stored, hook.intentId.value) == Some(i);
    ReadsExactlySpelledWords(hook.status);
    ReadingIsSpelling(hook.status, status);
    if ServiceStatus(hook.status).Some? {
      var s := ServiceStatus(hook.status).value;
      TransactionMeans(stored, rides, i, s, hook.status, None, now);
      assert ApplyWebhook(b, rides, hook, now)
          == ApplyTransaction(stored, rides, b.payments[i].id, s, hook.status, PaidAt(s.Succeeded?, now), None);
      EventsDoNotCount(b, stored, ApplyWebhook(b, rides, hook, now).books, CalledFor(rides, b.payments[i].rideId, s));
    }
  }

  lemma EventsDoNotCount(b: Books, stored: Books, r: Books, e: Option<Entry>)
    requires stored == b.(events := stored.events) && BookedOnce(stored, r, e)
    ensures BookedOnce(b, r, e)
  {
    forall d: Id ensures Balance(stored, d) == Balance(b, d) {}
  }

  /** A webhook whose number, currency or reference differ from the row's raises, and so does one without a
      number when the row's amount is not negative. */
  lemma WrongRideWebhookRaises(b: Books, i: nat, rides: map<Id, Ride>, hook: Webhook, now: nat)
    requires hook.eventId !in b.events && hook.payoutId.None? && hook.intentId.Some?
    requires PaymentByIntent(b, hook.intentId.value) == Some(i)
    requires var p := b.payments[i];
             || (hook.amount.Number? && hook.amount.n != 0 && hook.amount.n != p.amount)
             || (p.amount >= 0 && hook.amount in {Absent, NotANumber, Number(0)})
             || hook.currency != Some(p.currency) || hook.reference != p.reference
    ensures ApplyWebhook(b, rides, hook, now).Raised?
  {
    var stored := b.(events := b.events + {hook.eventId});
    assert PaymentByIntent(stored, hook.intentId.value) == Some(i);
  }

  /** A sweep's answer that fits the row: the same effect, skipped as unchanged when it says nothing new. */
  lemma {:induction false} RideSweepMeans(
    b: Books, i: nat, rides: map<Id, Ride>, intent: Intent, status: PaymentStatus, now: nat)
    requires OnePerRide(b.payments) && i < |b.payments| && b.payments[i].intentId.Some?
    requires var p := b.payments[i];
             intent.amount == Number(p.amount) && intent.currency == Some(p.currency)
             && (intent.reference.None? || intent.reference == p.reference)
    ensures var p := b.payments[i]; var s := ReconcileTransaction(b, rides, p.id, IntentFound(intent), now);
            && s.Counted? && s.reference == (if p.reference.Some? then p.reference.value else RideRef(p.rideId))
            && ((forall x :: !Spells(intent.status, x)) ==> s.bucket.Errored? && s.books == b)
            && (Spells(intent.status, status) ==>
                  if status == p.status && intent.nextAction == p.nextAction then s.bucket.Unchanged? && s.books == b
                  else s.bucket.Updated? && RowMarked(b, s.books, i, status, intent.status, now)
                       && s.books.payments[i].nextAction == intent.nextAction
                       && BookedOnce(b, s.books, CalledFor(rides, p.rideId, status)))
  {
    PaymentFound(b, i);
    ReadsExactlySpelledWords(intent.status);
    ReadingIsSpelling(intent.status, status);
    if Spells(intent.status, status) {
      TransactionMeans(b, rides, i, status, intent.status, Some(intent.nextAction), now);
    }
  }

  // ---------------------------------------------------------------- preparing a payment

  /** The row of a first digital try. */
  predicate FirstTry(p: Payment, newId: Id, r: Ride, intent: Intent, now: nat) {
    && p.id == newId && p.rideId == r.id && p.payBy == MobileMoney && p.intentId == intent.id && intent.id.Some?
    && p.reference == Some(RideRef(r.id)) && p.nextAction == intent.nextAction
    && r.finalFare.Some? && StoredAmount(intent.amount, r.finalFare.value, p.amount)
    && StoredWord(if intent.currency.Some? then intent.currency.value else "", r.currency, p.currency)
    && StoredWord(intent.status, "requires_action", p.providerStatus) && Spells(p.providerStatus, p.status)
    && p.paidAt == (if p.status == PaymentStatus.Succeeded then Some(now) else None)
    && p.collectedAt == None && p.collectedBy == None
  }

  /** The row of a retry: the new intent on the old money and reference. */
  predicate Retried(p: Payment, q: Payment, intent: Intent) {
    && q.id == p.id && q.rideId == p.rideId && q.amount == p.amount && q.currency == p.currency
    && q.reference == p.reference
    && q.payBy == MobileMoney && q.intentId == intent.id && q.nextAction == intent.nextAction
    && StoredWord(intent.status, "requires_action", q.providerStatus) && Spells(q.providerStatus, q.status)
    && q.paidAt == None && q.collectedAt == None
  }

  predicate Billable(rides: map<Id, Ride>, ride: Id) {
    ride in rides && rides[ride].completed && rides[ride].finalFare.Some? && rides[ride].finalFare.value > 0
  }

  /** The provider created a payment that can be stored: a readable status and an id no other payment has. */
  ghost predicate Storable(b: Books, answer: NewIntent, except: Id) {
    && answer.IntentCreated? && answer.intent.id.Some?
    && (answer.intent.status == "" || exists s :: Spells(answer.intent.status, s))
    && forall p | p in b.payments && p.id != except :: p.intentId != answer.intent.id
  }

  const GIVEN_UP: set<PaymentStatus> := {PaymentStatus.Failed, PaymentStatus.Cancelled}

  /** A digital payment is granted exactly for a completed, priced ride paid that way which has none yet, has
      one with an intent that stands, or has one that failed or was cancelled; where the provider is asked,
      its answer must be storable. */
  lemma {:induction false} DigitalPreparationGrantedExactlyWhen(
    b: Books, rides: map<Id, Ride>, ride: Id, answer: NewIntent, newId: Id, now: nat)
    requires OnePerRide(b.payments)
    ensures PreparePayment(b, rides, ride, MobileMoney, answer, newId, now).Done? <==>
              && Billable(rides, ride) && rides[ride].payBy == MobileMoney
              && match PaymentByRide(b, rides[ride].id)
                 case None =>
                   Storable(b, answer, newId) && answer.intent.amount != NotANumber && PaymentById(b, newId).None?
                 case Some(i) =>
                   b.payments[i].intentId.Some?
                   && (b.payments[i].status in GIVEN_UP ==> Storable(b, answer, b.payments[i].id))
  {
    if Billable(rides, ride) {
      if PaymentByRide(b, rides[ride].id).None? {
        FirstTryGrantedExactlyWhen(b, rides[ride], answer, newId, now);
      } else {
        LaterTryGrantedExactlyWhen(b, rides[ride], answer, newId, now);
      }
    }
  }

  lemma FirstTryGrantedExactlyWhen(b: Books, r: Ride, answer: NewIntent, newId: Id, now: nat)
    requires PaymentByRide(b, r.id).None? && r.finalFare.Some? && r.finalFare.value > 0
    ensures PrepareDiddiPay(b, r, answer, newId, now).Done? <==>
              Storable(b, answer, newId) && answer.intent.amount != NotANumber && PaymentById(b, newId).None?
  {
    if PaymentById(b, newId).None? {
      NewPaymentFits(b, newId);
    }
    if answer.IntentCreated? {
      OrWordReads(answer.intent.status);
    }
  }

  lemma LaterTryGrantedExactlyWhen(b: Books, r: Ride, answer: NewIntent, newId: Id, now: nat)
    requires OnePerRide(b.payments) && PaymentByRide(b, r.id).Some? && r.finalFare.Some? && r.finalFare.value > 0
    ensures var p := b.payments[PaymentByRide(b, r.id).value];
            PrepareDiddiPay(b, r, answer, newId, now).Done? <==>
              p.intentId.Some? && (p.status in GIVEN_UP ==> Storable(b, answer, p.id))
  {
    PaymentFound(b, PaymentByRide(b, r.id).value);
    if answer.IntentCreated? {
      OrWordReads(answer.intent.status);
    }
  }

  lemma OrWordReads(word: string)
    ensures ServiceStatus(OrWord(word, "requires_action")).Some? <==> word == "" || exists s :: Spells(word, s)
  {
    ReadsExactlySpelledWords(word);
    assert Strip("requires_action") == "requires_action" && Lower("requires_action") == "requires_action";
  }

  /** A cash payment is granted exactly for a completed, priced ride whose payment, if any, is cash already
      or a digital one given up. */
  lemma CashPreparationGrantedExactlyWhen(
    b: Books, rides: map<Id, Ride>, ride: Id, answer: NewIntent, newId: Id, now: nat)
    requires OnePerRide(b.payments)
    ensures PreparePayment(b, rides, ride, Cash, answer, newId, now).Done? <==>
              && Billable(rides, ride)
              && match PaymentByRide(b, rides[ride].id)
                 case None => PaymentById(b, newId).None?
                 case Some(i) => b.payments[i].payBy == Cash || b.payments[i].status in GIVEN_UP
  {
    if Billable(rides, ride) {
      var found := PaymentByRide(b, rides[ride].id);
      if found.Some? {
        PaymentFound(b, found.value);
      } else if PaymentById(b, newId).None? {
        NewPaymentFits(b, newId);
      }
    }
  }

  /** Preparing a digital payment stores a first try, retries the failed one in place, or leaves the
      payment that stands; log, wallets and every other row stay. */
  lemma DigitalPreparationMeans(
    b: Books, rides: map<Id, Ride>, ride: Id, answer: NewIntent, newId: Id, now: nat)
    requires OnePerRide(b.payments) && PreparePayment(b, rides, ride, MobileMoney, answer, newId, now).Done?
    ensures ride in rides && rides[ride].completed && rides[ride].payBy == MobileMoney
    ensures rides[ride].finalFare.Some? && rides[ride].finalFare.value > 0
    ensures var o := PreparePayment(b, rides, ride, MobileMoney, answer, newId, now); var r := rides[ride];
            && o.books == b.(payments := o.books.payments)
            && (match PaymentByRide(b, r.id)
                case None =>
                  answer.IntentCreated? && |o.books.payments| == |b.payments| + 1 && b.payments <= o.books.payments
                  && FirstTry(o.books.payments[|b.payments|], newId, r, answer.intent, now)
                case Some(i) =>
                  if b.payments[i].status in {PaymentStatus.Failed, PaymentStatus.Cancelled}
                  then answer.IntentCreated? && |o.books.payments| == |b.payments|
                       && o.books.payments == b.payments[i := o.books.payments[i]]
                       && Retried(b.payments[i], o.books.payments[i], answer.intent)
                  else b.payments[i].intentId.Some? && o.books == b)
  {
    var found := PaymentByRide(b, rides[ride].id);
    if found.Some? {
      PaymentFound(b, found.value);
    }
    if answer.IntentCreated? && ServiceStatus(OrWord(answer.intent.status, "requires_action")).Some? {
      var word := OrWord(answer.intent.status, "requires_action");
      ReadingIsSpelling(word, ServiceStatus(word).value);
    }
  }

  /** A row turned to cash keeps its ride and money and nothing of the provider. */
  predicate TurnedToCash(p: Payment, q: Payment) {
    && q.id == p.id && q.rideId == p.rideId && q.amount == p.amount && q.currency == p.currency
    && q.payBy == Cash && q.status == PaymentStatus.Pending && q.intentId == None && q.reference == None
    && q.nextAction == None && q.paidAt == None && q.providerStatus == "local"
  }

  /** Preparing cash stores a pending payment of the final fare, keeps a cash payment that stands, or turns
      a failed digital one to cash; a digital payment still under way refuses. */
  lemma CashPreparationMeans(
    b: Books, rides: map<Id, Ride>, ride: Id, answer: NewIntent, newId: Id, now: nat)
    requires OnePerRide(b.payments) && PreparePayment(b, rides, ride, Cash, answer, newId, now).Done?
    ensures ride in rides && rides[ride].completed && rides[ride].finalFare.Some? && rides[ride].finalFare.value > 0
    ensures var o := PreparePayment(b, rides, ride, Cash, answer, newId, now); var r := rides[ride];
            && o.books == b.(payments := o.books.payments)
            && (match PaymentByRide(b, r.id)
                case None =>
                  && |o.books.payments| == |b.payments| + 1 && b.payments <= o.books.payments
                  && var p := o.books.payments[|b.payments|];
                     p.id == newId && p.rideId == r.id && p.payBy == Cash && p.status == PaymentStatus.Pending
                     && p.amount == r.finalFare.value && p.currency == r.currency && p.intentId == None
                case Some(i) =>
                  if b.payments[i].payBy == Cash then o.books == b
                  else b.payments[i].status in {PaymentStatus.Failed, PaymentStatus.Cancelled}
                       && |o.books.payments| == |b.payments| && o.books.payments == b.payments[i := o.books.payments[i]]
                       && TurnedToCash(b.payments[i], o.books.payments[i]))
  {
    var found := PaymentByRide(b, rides[ride].id);
    if found.Some? {
      PaymentFound(b, found.value);
    }
  }
}
