/** What a top-up request, webhook and sweep store and credit, stated on amounts, words and tables alone. */
module TopupOutcomes {
  import opened Prelude
  import opened PaymentDomain
  import opened PaymentBooks
  import opened PaymentFlows
  import opened WalletLaws
  import opened PaymentRuns
  import opened PaymentTraces
  import opened PaymentEffects
  import opened ProviderWords
  import opened RideOutcomes
  import opened Solvency

  /** The credit of a top-up: its amount, to its driver. */
  function CreditOf(t: Topup): Entry {
    Entry(Key(t.driver, TopupCredit, TopupRef(t.id)), t.amount, Credit, EntryConfirmed)
  }

  predicate RowMarkedTopup(b: Books, r: Books, i: nat, status: TopupStatus, word: string, now: nat) {
    && i < |b.topups| && |r.topups| == |b.topups| && r.topups == b.topups[i := r.topups[i]]
    && var t, u := b.topups[i], r.topups[i];
       && u.id == t.id && u.driver == t.driver && u.amount == t.amount && u.currency == t.currency
       && u.intentId == t.intentId && u.reference == t.reference
       && u.status == status && u.providerStatus == word
       && u.paidAt == (if status == TopupStatus.Succeeded then Some(now) else t.paidAt)
  }

  /** A success is credited once, with the row's amount; nothing else moves money. */
  ghost predicate CreditedOnSuccess(b: Books, r: Books, t: Topup, status: TopupStatus) {
    BookedOnce(b, r, if status == TopupStatus.Succeeded then Some(CreditOf(t)) else None)
  }

  lemma TopupReportMeans(b: Books, i: nat, status: TopupStatus, word: string, next: Option<Option<Id>>, now: nat)
    requires Sound(b) && i < |b.topups|
    ensures var t := b.topups[i]; var o := ApplyTopup(b, t.id, status, word, PaidAt(status.Succeeded?, now), next);
            && o.Done? && RowMarkedTopup(b, o.books, i, status, word, now) && CreditedOnSuccess(b, o.books, t, status)
            && o.books.topups[i].nextAction == (if next.Some? then next.value else t.nextAction)
  {
    TopupFound(b, i);
    var marked := MarkTopup(b, b.topups[i].id, status, word, PaidAt(status.Succeeded?, now), next).value;
    RecordBooksOnce(marked, CreditOf(b.topups[i]));
  }

  predicate HookFitsTopup(t: Topup, hook: Webhook) {
    && hook.payoutId.None? && hook.intentId.Some? && t.intentId == hook.intentId
    && hook.amount == Number(t.amount) && t.amount != 0 && hook.currency == Some(t.currency)
    && hook.reference == Some(t.reference)
  }

  /** A first webhook that fits a top-up: its word's status is stored and a success credits it, once; a word
      that spells no status raises. */
  lemma {:induction false} TopupWebhookMeans(
    b: Books, i: nat, rides: map<Id, Ride>, hook: Webhook, status: TopupStatus, now: nat)
    requires Sound(b) && i < |b.topups| && hook.eventId !in b.events && HookFitsTopup(b.topups[i], hook)
    requires PaymentByIntent(b, hook.intentId.value).None? && TopupByIntent(b, hook.intentId.value) == Some(i)
    ensures var o := ApplyWebhook(b, rides, hook, now); var t := b.topups[i];
            && (o.Done? <==> exists s :: Spells(hook.status, s))
            && (SpellsTopup(hook.status, status) ==>
                  && o.Done? && RowMarkedTopup(b, o.books, i, status, hook.status, now)
                  && CreditedOnSuccess(b, o.books, t, status))
  {
    var stored := b.(events := b.events + {hook.eventId});
    SameTablesSound(b, stored);
    ReadsExactlySpelledWords(hook.status);
    TopupReadingIsSpelling(hook.status, status);
    if ServiceStatus(hook.status).Some? {
      var s := TopupStatusOf(ServiceStatus(hook.status).value);
      TopupReportMeans(stored, i, s, hook.status, None, now);
      TopupHookOutcome(stored, i, rides, hook, ServiceStatus(hook.status).value, now);
      PaidOnSuccess(ServiceStatus(hook.status).value);
      EventsDoNotCount(b, stored, ApplyWebhook(b, rides, hook, now).books,
        if s == TopupStatus.Succeeded then Some(CreditOf(b.topups[i])) else None);
    }
  }

  /** A top-up succeeds exactly on the payment status of that name. */
  lemma PaidOnSuccess(status: PaymentStatus)
    ensures TopupStatusOf(status).Succeeded? <==> status.Succeeded?
  {
  }

  lemma WrongTopupWebhookRaises(b: Books, i: nat, rides: map<Id, Ride>, hook: Webhook, now: nat)
    requires hook.eventId !in b.events && hook.payoutId.None? && hook.intentId.Some?
    requires PaymentByIntent(b, hook.intentId.value).None? && TopupByIntent(b, hook.intentId.value) == Some(i)
    requires var t := b.topups[i];
             || (hook.amount.Number? && hook.amount.n != 0 && hook.amount.n != t.amount)
             || (t.amount >= 0 && hook.amount in {Absent, NotANumber, Number(0)})
             || hook.currency != Some(t.currency) || hook.reference != Some(t.reference)
    ensures ApplyWebhook(b, rides, hook, now).Raised?
  {
    var stored := b.(events := b.events + {hook.eventId});
    assert PaymentByIntent(stored, hook.intentId.value).None? && TopupByIntent(stored, hook.intentId.value) == Some(i);
  }

  /** A sweep's answer that fits the top-up: the same effect, skipped as unchanged when it says nothing new. */
  lemma {:induction false} TopupSweepMeans(b: Books, i: nat, intent: Intent, status: TopupStatus, now: nat)
    requires Sound(b) && i < |b.topups| && b.topups[i].intentId.Some?
    requires var t := b.topups[i];
             intent.amount == Number(t.amount) && intent.currency == Some(t.currency)
             && (intent.reference.None? || intent.reference == Some(t.reference))
    ensures var t := b.topups[i]; var s := ReconcileTopup(b, t.id, IntentFound(intent), now);
            && s.Counted? && s.reference == t.reference
            && ((forall x :: !Spells(intent.status, x)) ==> s.bucket.Errored? && s.books == b)
            && (SpellsTopup(intent.status, status) ==>
                  if status == t.status && intent.nextAction == t.nextAction then s.bucket.Unchanged? && s.books == b
                  else s.bucket.Updated? && RowMarkedTopup(b, s.books, i, status, intent.status, now)
                       && s.books.topups[i].nextAction == intent.nextAction && CreditedOnSuccess(b, s.books, t, status))
  {
    TopupFound(b, i);
    ReadsExactlySpelledWords(intent.status);
    TopupReadingIsSpelling(intent.status, status);
    if SpellsTopup(intent.status, status) {
      TopupReportMeans(b, i, status, intent.status, Some(intent.nextAction), now);
    }
  }

  // ---------------------------------------------------------------- a new top-up

  /** A top-up is granted exactly for a positive amount, not in cash, answered with a readable status and
      amount and an intent, where neither the id nor the intent is another top-up's. */
  lemma TopupGrantedExactlyWhen(
    b: Books, id: Id, driver: Id, asked: int, cash: bool, answer: NewIntent, now: nat)
    ensures CreateTopup(b, id, driver, asked, cash, answer, now).Done? <==>
              && asked > 0 && !cash && answer.IntentCreated? && answer.intent.id.Some?
              && answer.intent.amount != NotANumber && (exists s :: SpellsExactly(answer.intent.status, s))
              && forall t | t in b.topups :: t.id != id && t.intentId != answer.intent.id
  {
    TopupRequestGranted(b, id, driver, asked, cash, answer, now);
    if answer.IntentCreated? {
      forall s { WalletReadingIsSpelling(answer.intent.status, s); }
    }
  }

  /** The row a granted request stores. */
  predicate NewRow(t: Topup, id: Id, driver: Id, asked: int, intent: Intent) {
    && t.id == id && t.driver == driver && t.intentId == intent.id && intent.id.Some?
    && t.reference == TopupRef(id) && t.nextAction == intent.nextAction
    && StoredAmount(intent.amount, asked, t.amount)
    && StoredWord(if intent.currency.Some? then intent.currency.value else "", "XOF", t.currency)
    && StoredWord(intent.status, "requires_action", t.providerStatus)
  }

  lemma RequestStoresNewRow(b: Books, id: Id, driver: Id, asked: int, cash: bool, answer: NewIntent, now: nat)
    requires CreateTopup(b, id, driver, asked, cash, answer, now).Done?
    ensures asked > 0 && !cash && answer.IntentCreated? && WalletStatus(answer.intent.status).Some?
    ensures var r := CreateTopup(b, id, driver, asked, cash, answer, now).books;
            var status := WalletStatus(answer.intent.status).value;
            && |r.topups| == |b.topups| + 1
            && var t := r.topups[|b.topups|];
               && NewRow(t, id, driver, asked, answer.intent) && !TopupClashes(b, t)
               && t.status == TopupStatusOf(status) && t.paidAt == PaidAt(status.Succeeded?, now)
               && r == TopupStored(b, t)
  {
    TopupRequestGranted(b, id, driver, asked, cash, answer, now);
    TopupRequestStores(b, id, driver, asked, cash, answer, now);
  }

  /** A granted request stores one row with the provider's amount, currency (XOF if none) and status, and
      credits it at once exactly if that status is succeeded. */
  lemma {:induction false} TopupRequestMeans(
    b: Books, id: Id, driver: Id, asked: int, cash: bool, answer: NewIntent, status: PaymentStatus, now: nat)
    requires Sound(b) && CreateTopup(b, id, driver, asked, cash, answer, now).Done?
    ensures asked > 0 && !cash && answer.IntentCreated?
    ensures var r := CreateTopup(b, id, driver, asked, cash, answer, now).books;
            && r.topups == b.topups + [r.topups[|b.topups|]]
            && var t := r.topups[|b.topups|];
               && NewRow(t, id, driver, asked, answer.intent)
               && (SpellsExactly(answer.intent.status, status) ==>
                     && t.paidAt == (if status == PaymentStatus.Succeeded then Some(now) else None)
                     && (t.status == TopupStatus.Succeeded <==> status == PaymentStatus.Succeeded)
                     && (if status == PaymentStatus.Succeeded then Booked(b, r, CreditOf(t)) else NothingBooked(b, r)))
  {
    var t := CreateTopup(b, id, driver, asked, cash, answer, now).books.topups[|b.topups|];
    RequestStoresNewRow(b, id, driver, asked, cash, answer, now);
    WalletReadingIsSpelling(answer.intent.status, status);
    NewRowIsCredited(b, t);
  }

  lemma NewRowIsCredited(b: Books, t: Topup)
    requires Sound(b) && !TopupClashes(b, t)
    ensures if t.status == TopupStatus.Succeeded then Booked(b, TopupStored(b, t), CreditOf(t))
            else NothingBooked(b, TopupStored(b, t))
  {
    NewTopupHasNoCredit(b, t);
    RecordBooksOnce(b.(topups := b.topups + [t]), CreditOf(t));
  }
}
