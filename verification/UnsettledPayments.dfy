/** Why ride settlements are "at most once" and not "exactly once": exactly which prepared payments are
    stored as succeeded without paying the driver, and what it takes to pay later. */
module UnsettledPayments {
  import opened Prelude
  import opened PaymentDomain
  import opened PaymentBooks
  import opened PaymentFlows
  import opened PaymentRuns
  import opened PaymentSafety
  import opened PaymentEffects

  /** Preparing the ride's payment asks DiddiPay for an intent: there is no payment yet, or a failed or
      cancelled digital one is retried. */
  predicate ReachesProvider(b: Books, ride: Id) {
    match PaymentByRide(b, ride)
    case None => true
    case Some(i) =>
      b.payments[i].intentId.Some? && b.payments[i].status in {PaymentStatus.Failed, PaymentStatus.Cancelled}
  }

  predicate ReadsSucceeded(answer: NewIntent) {
    answer.IntentCreated? && Lower(Strip(answer.intent.status)) == "succeeded"
  }

  predicate SucceededRow(b: Books, ride: Id) {
    PaymentByRide(b, ride).Some? && b.payments[PaymentByRide(b, ride).value].status.Succeeded?
  }

  lemma SucceededReadsBack(word: string)
    ensures ServiceStatus(OrWord(word, "requires_action")) == Some(PaymentStatus.Succeeded) <==>
              Lower(Strip(word)) == "succeeded"
  {
    assert Strip("requires_action") == "requires_action" && Lower("requires_action") == "requires_action";
    assert "requires_action"[0] != "succeeded"[0];
  }

  /** The ride's payment after an update of its row is that row. */
  lemma SameRowByRide(b: Books, i: nat, p: Payment)
    requires OnePerRide(b.payments) && i < |b.payments| && p.rideId == b.payments[i].rideId
    ensures PaymentByRide(b.(payments := b.payments[i := p]), p.rideId) == Some(i)
  {
    var r := b.(payments := b.payments[i := p]);
    assert r.payments[i].rideId == p.rideId;
    var k := PaymentByRide(r, p.rideId).value;
    PaymentRowsDiffer(b.payments, i, k);
  }

  lemma CashNeverSucceeds(b: Books, r: Ride, newId: Id)
    requires OnePerRide(b.payments) && PrepareCash(b, r, newId).Done?
    ensures var o := PrepareCash(b, r, newId);
            o.books.ledger == b.ledger && o.books.wallets == b.wallets
                && (SucceededRow(o.books, r.id) ==> SucceededRow(b, r.id))
  {
    var o := PrepareCash(b, r, newId);
    var found := PaymentByRide(b, r.id);
    if found.Some? && o.books != b {
      var id := b.payments[found.value].id;
      PaymentFound(b, found.value);
      SameRowByRide(b, found.value, PreparedForCash(b.payments[found.value]));
    } else if found.None? {
      assert o.books.payments[|b.payments|].rideId == r.id;
    }
  }

  lemma DigitalSucceedsExactlyWhen(b: Books, r: Ride, answer: NewIntent, newId: Id, now: nat)
    requires OnePerRide(b.payments) && PrepareDiddiPay(b, r, answer, newId, now).Done?
    ensures var o := PrepareDiddiPay(b, r, answer, newId, now);
            && o.books.ledger == b.ledger && o.books.wallets == b.wallets
            && (SucceededRow(o.books, r.id) && !SucceededRow(b, r.id) <==>
                ReachesProvider(b, r.id) && ReadsSucceeded(answer))
            && (ReachesProvider(b, r.id) ==> AsksProvider(b, o.books, r, answer, now))
  {
    var o := PrepareDiddiPay(b, r, answer, newId, now);
    var found := PaymentByRide(b, r.id);
    if ReachesProvider(b, r.id) {
      SucceededReadsBack(answer.intent.status);
      if found.Some? {
        PaymentFound(b, found.value);
        SameRowByRide(b, found.value, o.books.payments[found.value]);
      } else {
        NewRowByRide(b, o.books, o.books.payments[|b.payments|]);
      }
    }
  }

  lemma NewRowByRide(b: Books, r: Books, p: Payment)
    requires r.payments == b.payments + [p] && PaymentByRide(b, p.rideId).None?
    ensures PaymentByRide(r, p.rideId) == Some(|b.payments|)
  {
    assert r.payments[|b.payments|] == p;
  }

  /** The ride's row now carries the answered intent. */
  predicate AsksProvider(b: Books, r: Books, ride: Ride, answer: NewIntent, now: nat) {
    && answer.IntentCreated? && answer.intent.id.Some? && PaymentByRide(r, ride.id).Some?
    && var p := r.payments[PaymentByRide(r, ride.id).value];
       p.intentId == answer.intent.id && p.nextAction == answer.intent.nextAction && p.payBy.MobileMoney?
       && Some(p.status) == ServiceStatus(OrWord(answer.intent.status, "requires_action"))
  }

  /** A prepared payment newly reads as succeeded, with the log and every balance untouched, exactly when
      the request is digital, reaches the provider, and the answer's status reads "succeeded" in any
      spelling; on a first payment and on a retry alike. */
  lemma PreparedUnpaidExactlyWhen(b: Books, rides: map<Id, Ride>, ride: Id, payBy: PaymentMethod, answer: NewIntent,
    newId: Id, now: nat)
    requires OnePerRide(b.payments) && PreparePayment(b, rides, ride, payBy, answer, newId, now).Done?
    ensures var o := PreparePayment(b, rides, ride, payBy, answer, newId, now); var id := rides[ride].id;
            && o.books.ledger == b.ledger && o.books.wallets == b.wallets
            && (SucceededRow(o.books, id) && !SucceededRow(b, id) <==>
                  payBy.MobileMoney? && ReachesProvider(b, id) && ReadsSucceeded(answer))
  {
    if payBy.Cash? {
      CashNeverSucceeds(b, rides[ride], newId);
    } else {
      DigitalSucceedsExactlyWhen(b, rides[ride], answer, newId, now);
    }
  }

  /** The condition can be met in every reachable state without a payment for the ride: any fresh ids and
      any readable amount will do. */
  lemma SucceededButUnsettled(b: Books, r: Ride, intent: Intent, newId: Id, now: nat)
    requires OnePerRide(b.payments) && PaymentByRide(b, r.id).None?
    requires r.completed && r.payBy.MobileMoney? && r.finalFare.Some? && r.finalFare.value > 0
    requires intent.id.Some? && Lower(Strip(intent.status)) == "succeeded" && !intent.amount.NotANumber?
    requires PaymentById(b, newId).None? && PaymentByIntent(b, intent.id.value).None?
    ensures var o := PreparePayment(b, map[r.id := r], r.id, MobileMoney, IntentCreated(intent), newId, now);
            o.Done? && SucceededRow(o.books, r.id) && o.books.ledger == b.ledger && o.books.wallets == b.wallets
  {
    SucceededReadsBack(intent.status);
    forall p | p in b.payments ensures p.id != newId && p.intentId != intent.id {
      var k :| 0 <= k < |b.payments| && b.payments[k] == p;
    }
    PreparedUnpaidExactlyWhen(b, map[r.id := r], r.id, MobileMoney, IntentCreated(intent), newId, now);
  }

  /** A sweep cannot repair it: any answer that still reads "succeeded" with the same next action leaves
      every table as it is, counted as unchanged, or as mismatched if its money or reference differ. */
  lemma SweepLeavesUnpaid(b: Books, rides: map<Id, Ride>, i: nat, intent: Intent, now: nat)
    requires OnePerRide(b.payments) && i < |b.payments|
    requires var p := b.payments[i];
             p.status.Succeeded? && p.intentId.Some? && ServiceStatus(intent.status) == Some(PaymentStatus.Succeeded)
             && intent.nextAction == p.nextAction
    ensures var p := b.payments[i]; var s := ReconcileTransaction(b, rides, p.id, IntentFound(intent), now);
            && s.Counted? && s.books == b && s.touches == []
            && s.bucket == if IntentMismatch(intent, p.amount, p.currency, p.reference) then Mismatched else Unchanged
  {
    PaymentFound(b, i);
  }

  /** A matching webhook pays it: its first delivery books the driver's share unless it was booked before. */
  lemma WebhookPaysLater(b: Books, rides: map<Id, Ride>, i: nat, hook: Webhook, now: nat)
    requires OnePerRide(b.payments) && i < |b.payments| && b.payments[i].intentId.Some? && b.payments[i].rideId in rides
    requires var p := b.payments[i];
             NewIntentHook(b, hook, p.intentId.value) && AmountField(hook.amount) == Some(p.amount)
             && hook.currency == Some(p.currency) && hook.reference == p.reference
             && ServiceStatus(hook.status) == Some(PaymentStatus.Succeeded)
    ensures var o := ApplyWebhook(b, rides, hook, now); var e :=
        SettlementEntry(rides[b.payments[i].rideId], PaymentStatus.Succeeded);
            o.Done? && SettledBy(b, o.books, e)
  {
    PaymentFound(b, i);
    IntentFoundAt(b, i);
    RideWebhookExactlyWhen(b, i, rides, hook, b.payments[i].intentId.value, now);
  }

  lemma IntentFoundAt(b: Books, i: nat)
    requires OnePerRide(b.payments) && i < |b.payments| && b.payments[i].intentId.Some?
    ensures PaymentByIntent(b, b.payments[i].intentId.value) == Some(i)
  {
    var k := PaymentByIntent(b, b.payments[i].intentId.value).value;
    PaymentRowsDiffer(b.payments, i, k);
  }
}
