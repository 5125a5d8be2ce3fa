/** One payment per ride, and which provider reports may move money. */
module PaymentSafety {
  import opened Prelude
  import opened PaymentDomain
  import opened PaymentBooks
  import opened PaymentFlows
  import opened WalletLaws
  import opened WithdrawalLaws
  import opened PaymentRuns
  import opened PaymentTheorems

  // ---------------------------------------------------------------- one payment per ride

  predicate Apart(p: Payment, q: Payment) {
    p.id != q.id && p.rideId != q.rideId && (p.intentId.None? || p.intentId != q.intentId)
  }

  /** No two payments share an id, a ride or a payment intent. */
  ghost predicate OnePerRide(rows: seq<Payment>) {
    forall i, j | 0 <= i < j < |rows| :: Apart(rows[i], rows[j])
  }

  lemma PaymentEdited(b: Books, i: nat, p: Payment)
    requires OnePerRide(b.payments) && i < |b.payments| && p.id == b.payments[i].id && p.rideId == b.payments[i].rideId
    requires p.intentId.None? || p.intentId == b.payments[i].intentId || !IntentTaken(b, p.id, p.intentId)
    ensures OnePerRide(b.payments[i := p])
  {
    var rows := b.payments[i := p];
    forall j, k | 0 <= j < k < |rows| ensures Apart(rows[j], rows[k]) {
      assert Apart(b.payments[j], b.payments[k]);
      assert b.payments[j] in b.payments && b.payments[k] in b.payments;
    }
  }

  lemma PaymentAdded(b: Books, p: Payment)
    requires OnePerRide(b.payments) && SavePayment(b, p).Ok? && PaymentByRide(b, p.rideId).None?
    ensures OnePerRide(b.payments + [p])
  {
    var rows := b.payments + [p];
    forall j, k | 0 <= j < k < |rows| ensures Apart(rows[j], rows[k]) {
      assert b.payments[j] in b.payments;
      if k < |b.payments| {
        assert Apart(b.payments[j], b.payments[k]);
      }
    }
  }

  ghost predicate KeepsPayments(b: Books, o: Outcome) {
    OnePerRide(b.payments) && o.Done? ==> OnePerRide(o.books.payments)
  }

  predicate SamePayments(b: Books, o: Outcome) {
    o.Done? ==> o.books.payments == b.payments
  }

  lemma TransactionKeepsPayments(
    b: Books, rides: map<Id, Ride>, id: Id, status: PaymentStatus, word: string, paidAt: Option<nat>,
        next: Option<Option<Id>>)
    ensures KeepsPayments(b, ApplyTransaction(b, rides, id, status, word, paidAt, next))
  {
    if OnePerRide(b.payments) && PaymentById(b, id).Some? {
      var i := PaymentById(b, id).value;
      PaymentEdited(b, i, MarkedExternal(b.payments[i], status, word, paidAt, next));
    }
  }

  lemma MarkSamePayments(b: Books, id: Id, target: WithdrawalStatus, payout: Option<Id>, word: string, now: nat)
    ensures var r := MarkWithdrawal(b, id, target, payout, word, now); r.Ok? ==> r.value.payments == b.payments
  {
  }

  lemma TopupSamePayments(b: Books, id: Id, status: TopupStatus, word: string, paidAt: Option<nat>,
    next: Option<Option<Id>>)
    ensures SamePayments(b, ApplyTopup(b, id, status, word, paidAt, next))
  {
  }

  lemma {:induction false} WebhookKeepsPayments(b: Books, rides: map<Id, Ride>, hook: Webhook, now: nat)
    ensures KeepsPayments(b, ApplyWebhook(b, rides, hook, now))
  {
    var stored := b.(events := b.events + {hook.eventId});
    forall id, target { MarkSamePayments(stored, id, target, hook.payoutId, hook.status, now); }
    forall id, status, paidAt { TopupSamePayments(stored, id, status, hook.status, paidAt, None); }
    forall id, status, paidAt { TransactionKeepsPayments(stored, rides, id, status, hook.status, paidAt, None); }
  }

  lemma ReconcileKeepsPayments(b: Books, rides: map<Id, Ride>, job: Job, now: nat)
    requires OnePerRide(b.payments)
    ensures var s := Reconcile(b, rides, job, now); s.Counted? ==> OnePerRide(s.books.payments)
  {
    match job
    case PaymentJob(id, answer) =>
      forall status, word, paidAt, next { TransactionKeepsPayments(b, rides, id, status, word, paidAt, next); }
    case TopupJob(id, answer) =>
      forall status, word, paidAt, next { TopupSamePayments(b, id, status, word, paidAt, next); }
    case WithdrawalJob(id, answer) =>
      forall target, payout, word { MarkSamePayments(b, id, target, payout, word, now); }
  }

  lemma {:induction false} SweepKeepsPayments(b: Books, rides: map<Id, Ride>, jobs: seq<Job>, now: nat)
    ensures KeepsPayments(b, SweepOutcome(Sweep(b, rides, jobs, now)))
  {
    if |jobs| > 0 && OnePerRide(b.payments) {
      SweepKeepsPayments(b, rides, jobs[..|jobs| - 1], now);
      var before := Sweep(b, rides, jobs[..|jobs| - 1], now);
      if before.Sweeping? {
        ReconcileKeepsPayments(before.books, rides, jobs[|jobs| - 1], now);
      }
    }
  }

  lemma {:induction false} CashKeepsPayments(b: Books, rides: map<Id, Ride>, ride: Id, amount: int, collector: Id,
    newId: Id, now: nat)
    ensures KeepsPayments(b, ConfirmCash(b, rides, ride, amount, collector, newId, now))
  {
    if OnePerRide(b.payments) && ConfirmCash(b, rides, ride, amount, collector, newId, now).Done? {
      var existing := PaymentByRide(b, ride);
      var created := Payment(newId, ride, amount, rides[ride].currency, Cash, PaymentStatus.Pending, None, None, "",
          None, None, None, None);
      var saved := if existing.Some? then b else SavePayment(b, created).value;
      var id := if existing.Some? then b.payments[existing.value].id else newId;
      if existing.None? {
        PaymentAdded(b, created);
      }
      var i := PaymentById(saved, id).value;
      PaymentEdited(saved, i, CollectedInCash(saved.payments[i], collector, amount, now));
    }
  }

  lemma PrepareCashKeepsPayments(b: Books, r: Ride, newId: Id)
    ensures KeepsPayments(b, PrepareCash(b, r, newId))
  {
    if OnePerRide(b.payments) && PrepareCash(b, r, newId).Done? {
      if PaymentByRide(b, r.id).None? {
        var fare := NonZero(r.finalFare).Or(NonZero(r.estimatedFare));
        var amount := if fare.Some? then fare.value else 0;
        PaymentAdded(b, Payment(newId, r.id, amount, r.currency, Cash, PaymentStatus.Pending, None, None, "", None,
            None, None, None));
      } else {
        var id := b.payments[PaymentByRide(b, r.id).value].id;
        var i := PaymentById(b, id).value;
        PaymentEdited(b, i, PreparedForCash(b.payments[i]));
      }
    }
  }

  lemma PrepareDigitalKeepsPayments(b: Books, r: Ride, answer: NewIntent, newId: Id, now: nat)
    ensures KeepsPayments(b, PrepareDiddiPay(b, r, answer, newId, now))
  {
    var o := PrepareDiddiPay(b, r, answer, newId, now);
    if OnePerRide(b.payments) && o.Done? && o.books != b {
      var intent := answer.intent;
      var word := OrWord(intent.status, "requires_action");
      var status := ServiceStatus(word).value;
      if PaymentByRide(b, r.id).Some? {
        var id := b.payments[PaymentByRide(b, r.id).value].id;
        var i := PaymentById(b, id).value;
        PaymentEdited(b, i, WithNewIntent(b.payments[i], intent.id.value, MobileMoney, status, word,
            intent.nextAction));
      } else {
        PaymentAdded(b, o.books.payments[|b.payments|]);
      }
    }
  }

  lemma FinishSamePayments(b: Books, id: Id, answer: NewPayout, now: nat)
    ensures SamePayments(b, FinishPayout(b, id, answer, now))
  {
    forall target, payout, word { MarkSamePayments(b, id, target, payout, word, now); }
  }

  lemma {:induction false} PrepareKeepsPayments(
    b: Books, rides: map<Id, Ride>, ride: Id, payBy: PaymentMethod, answer: NewIntent, newId: Id, now: nat)
    ensures KeepsPayments(b, PreparePayment(b, rides, ride, payBy, answer, newId, now))
  {
    if ride in rides {
      PrepareCashKeepsPayments(b, rides[ride], newId);
      PrepareDigitalKeepsPayments(b, rides[ride], answer, newId, now);
    }
  }

  lemma ActKeepsPayments(b: Books, t: Timed)
    ensures KeepsPayments(b, Act(b, t))
  {
    match t.action
    case WebhookReceived(rides, hook) => WebhookKeepsPayments(b, rides, hook, t.now);
    case SweepRun(rides, jobs) => SweepKeepsPayments(b, rides, jobs, t.now);
    case CashConfirmed(rides, ride, amount, collector, id) =>
        CashKeepsPayments(b, rides, ride, amount, collector, id, t.now);
    case PaymentPrepared(rides, ride, payBy, answer, id) =>
        PrepareKeepsPayments(b, rides, ride, payBy, answer, id, t.now);
    case PayoutAnswered(id, answer) => FinishSamePayments(b, id, answer, t.now);
    case PayoutReread(id, payout) => FinishSamePayments(b, id, PayoutCreated(payout), t.now);
    case _ =>
  }

  lemma {:induction false} RidesHaveOnePayment(actions: seq<Timed>)
    ensures OnePerRide(Run(EMPTY_BOOKS, actions).payments)
  {
    if |actions| > 0 {
      RidesHaveOnePayment(actions[..|actions| - 1]);
      ActKeepsPayments(Run(EMPTY_BOOKS, actions[..|actions| - 1]), actions[|actions| - 1]);
    }
  }

  // ---------------------------------------------------------------- only matching reports are applied

  /** The top-up that `intent` pays, with the amount, currency and reference that were reported. */
  predicate IsTopup(t: Topup, id: Id, intent: Option<Id>, amount: int, currency: Option<string>,
    reference: Option<Reference>) {
    t.id == id && intent.Some? && t.intentId == intent
    && t.amount == amount && Some(t.currency) == currency && Some(t.reference) == reference
  }

  predicate IsPayment(p: Payment, ride: Id, intent: Option<Id>, amount: int, currency: Option<string>,
    reference: Option<Reference>) {
    p.rideId == ride && intent.Some? && p.intentId == intent
    && p.amount == amount && Some(p.currency) == currency && p.reference == reference
  }

  /** The withdrawal a payout belongs to: by payout id, or by reference when no row carries the id. */
  predicate IsWithdrawal(b: Books, w: Withdrawal, id: Id, payout: Id, reference: Option<Reference>) {
    w.id == id && Some(w.reference) == reference && (w.payoutId == Some(payout) || WithdrawalByPayout(b, payout).None?)
  }

  ghost predicate FromWebhook(b: Books, rides: map<Id, Ride>, hook: Webhook, x: Touch) {
    match x
    case TopupReport(id, status) =>
      && AmountField(hook.amount).Some?
      && ServiceStatus(hook.status).Some? && status == TopupStatusOf(ServiceStatus(hook.status).value)
      && exists i | 0 <= i < |b.topups| ::
           IsTopup(b.topups[i], id, hook.intentId, AmountField(hook.amount).value, hook.currency, hook.reference)
    case RideReport(ride, status) =>
      && AmountField(hook.amount).Some? && Some(status) == ServiceStatus(hook.status)
      && exists i | 0 <= i < |b.payments| && b.payments[i].rideId in rides ::
           && rides[b.payments[i].rideId] == ride
           && IsPayment(b.payments[i], b.payments[i].rideId, hook.intentId, AmountField(hook.amount).value,
               hook.currency, hook.reference)
    case PayoutReport(id, target) =>
      && hook.payoutId.Some? && Some(target) == WithdrawalTarget(hook.status)
      && exists i | 0 <= i < |b.withdrawals| ::
          IsWithdrawal(b, b.withdrawals[i], id, hook.payoutId.value, hook.reference)
  }

  ghost predicate AllFromWebhook(b: Books, rides: map<Id, Ride>, hook: Webhook, o: Outcome) {
    o.Done? ==> |o.touches| <= 1 && forall k | 0 <= k < |o.touches| :: FromWebhook(b, rides, hook, o.touches[k])
  }

  lemma PayoutHookIsAuthentic(b: Books, rides: map<Id, Ride>, hook: Webhook, now: nat)
    requires hook.payoutId.Some?
    ensures AllFromWebhook(b, rides, hook, WebhookPayout(b, hook, now))
  {
    var byPayout := WithdrawalByPayout(b, hook.payoutId.value);
    var found := if byPayout.None? && hook.reference.Some? then WithdrawalByReference(b, hook.reference.value)
        else byPayout;
    if found.Some? && WebhookPayout(b, hook, now).Done? {
      var w := b.withdrawals[found.value];
      assert IsWithdrawal(b, w, w.id, hook.payoutId.value, hook.reference);
    }
  }

  lemma IntentHookIsAuthentic(b: Books, rides: map<Id, Ride>, hook: Webhook, status: PaymentStatus, now: nat)
    requires hook.intentId.Some? && ServiceStatus(hook.status) == Some(status) && OnePerRide(b.payments)
    ensures AllFromWebhook(b, rides, hook, WebhookIntent(b, rides, hook, status, now))
  {
    var o := WebhookIntent(b, rides, hook, status, now);
    var payment := PaymentByIntent(b, hook.intentId.value);
    var topup := TopupByIntent(b, hook.intentId.value);
    if o.Done? && payment.Some? {
      var p := b.payments[payment.value];
      assert IsPayment(p, p.rideId, hook.intentId, AmountField(hook.amount).value, hook.currency, hook.reference);
      PaymentTouches(b, rides, p.id, status, hook.status, PaidAt(status.Succeeded?, now), None);
      PaymentFound(b, payment.value);
    } else if o.Done? && topup.Some? {
      var t := b.topups[topup.value];
      assert IsTopup(t, t.id, hook.intentId, AmountField(hook.amount).value, hook.currency, hook.reference);
    }
  }

  lemma PaymentFound(b: Books, i: nat)
    requires OnePerRide(b.payments) && i < |b.payments|
    ensures PaymentById(b, b.payments[i].id) == Some(i)
  {
    PaymentRowsDiffer(b.payments, i, PaymentById(b, b.payments[i].id).value);
  }

  lemma PaymentRowsDiffer(rows: seq<Payment>, i: nat, j: nat)
    requires OnePerRide(rows) && i < |rows| && j < |rows|
    ensures i == j || (rows[i].id != rows[j].id && rows[i].rideId != rows[j].rideId)
    ensures i == j || rows[i].intentId.None? || rows[i].intentId != rows[j].intentId
  {
    if i < j {
      assert Apart(rows[i], rows[j]);
    } else if j < i {
      assert Apart(rows[j], rows[i]);
    }
  }

  lemma PaymentTouches(
    b: Books, rides: map<Id, Ride>, id: Id, status: PaymentStatus, word: string, paidAt: Option<nat>,
        next: Option<Option<Id>>)
    ensures var o := ApplyTransaction(b, rides, id, status, word, paidAt, next);
            var row := PaymentById(b, id);
            o.Done? ==>
              && row.Some?
              && o.touches == if b.payments[row.value].rideId in rides
                  then [RideReport(rides[b.payments[row.value].rideId], status)] else []
  {
  }

  /** In every reachable state, a webhook moves at most one row: the one its intent, or its payout id and
      reference, names. For intents the amount, currency and reference must be the stored ones. */
  lemma {:induction false} WebhookReportsAreAuthentic(actions: seq<Timed>, rides: map<Id, Ride>, hook: Webhook,
    now: nat)
    ensures AllFromWebhook(Run(EMPTY_BOOKS, actions), rides, hook,
        ApplyWebhook(Run(EMPTY_BOOKS, actions), rides, hook, now))
  {
    var b := Run(EMPTY_BOOKS, actions);
    RidesHaveOnePayment(actions);
    var stored := b.(events := b.events + {hook.eventId});
    if hook.eventId !in b.events && hook.payoutId.Some? {
      PayoutHookIsAuthentic(stored, rides, hook, now);
      SameRowsSameOrigin(b, stored, rides, hook, WebhookPayout(stored, hook, now));
    } else if hook.eventId !in b.events && hook.intentId.Some? && ServiceStatus(hook.status).Some? {
      var status := ServiceStatus(hook.status).value;
      IntentHookIsAuthentic(stored, rides, hook, status, now);
      SameRowsSameOrigin(b, stored, rides, hook, WebhookIntent(stored, rides, hook, status, now));
    }
  }

  lemma SameRowsSameOrigin(b: Books, stored: Books, rides: map<Id, Ride>, hook: Webhook, o: Outcome)
    requires stored == b.(events := stored.events) && AllFromWebhook(stored, rides, hook, o)
    ensures AllFromWebhook(b, rides, hook, o)
  {
    if o.Done? {
      forall k | 0 <= k < |o.touches| ensures FromWebhook(b, rides, hook, o.touches[k]) {
        assert FromWebhook(stored, rides, hook, o.touches[k]);
      }
    }
  }

  /** A payout webhook is never compared with the withdrawal's amount or currency; the sweep and the
      synchronous answer are. */
  lemma PayoutWebhookIgnoresAmount(
    b: Books, rides: map<Id, Ride>, hook: Webhook, amount: NumberField, currency: Option<string>, now: nat)
    requires hook.payoutId.Some?
    ensures ApplyWebhook(b, rides, hook.(amount := amount, currency := currency), now)
        == ApplyWebhook(b, rides, hook, now)
  {
    var other := hook.(amount := amount, currency := currency);
    assert other.eventId == hook.eventId && other.payoutId == hook.payoutId && other.reference == hook.reference;
  }

  predicate IntentAgrees(intent: Intent, amount: int, currency: string, reference: Option<Reference>) {
    && intent.amount == Number(amount) && intent.currency == Some(currency)
    && (intent.reference.None? || reference.None? || intent.reference == reference)
  }

  predicate PayoutAgrees(payout: Payout, w: Withdrawal) {
    && AmountField(payout.amount) == Some(w.net)
    && payout.currency == Some(w.currency) && payout.reference == Some(w.reference)
  }

  /** What the sweep applies to a row comes from an answer that matches the row. */
  predicate FromAnswer(b: Books, job: Job, x: Touch) {
    match job
    case PaymentJob(id, answer) =>
      && answer.IntentFound? && PaymentById(b, id).Some? && x.RideReport?
      && var p := b.payments[PaymentById(b, id).value];
         IntentAgrees(answer.intent, p.amount, p.currency, p.reference) && Some(x.rideStatus)
             == ServiceStatus(answer.intent.status)
    case TopupJob(id, answer) =>
      && answer.IntentFound? && TopupById(b, id).Some? && x.TopupReport? && x.topup == id
      && var t := b.topups[TopupById(b, id).value];
         IntentAgrees(answer.intent, t.amount, t.currency, Some(t.reference))
    case WithdrawalJob(id, answer) =>
      && answer.PayoutFound? && WithdrawalById(b, id).Some? && x.PayoutReport? && x.withdrawal == id
      && PayoutAgrees(answer.payout, b.withdrawals[WithdrawalById(b, id).value])
      && Some(x.target) == WithdrawalTarget(answer.payout.status)
  }

  lemma SweepReportsAreAuthentic(b: Books, rides: map<Id, Ride>, job: Job, now: nat)
    ensures var s := Reconcile(b, rides, job, now);
            s.Counted? ==> |s.touches| <= 1 && forall k | 0 <= k < |s.touches| :: FromAnswer(b, job, s.touches[k])
    ensures var s := Reconcile(b, rides, job, now);
            s.Counted? && (s.bucket.Missing? || s.bucket.Mismatched? || s.bucket.Errored?) ==>
                s.books == b && s.touches == []
  {
    match job
    case PaymentJob(id, answer) =>
      if answer.IntentFound? && ServiceStatus(answer.intent.status).Some? {
        var status := ServiceStatus(answer.intent.status).value;
        PaymentTouches(b, rides, id, status, answer.intent.status, PaidAt(status.Succeeded?, now),
            Some(answer.intent.nextAction));
      }
    case TopupJob(_, _) =>
    case WithdrawalJob(_, _) =>
  }

  /** A report on a known withdrawal is refused only when another row carries its payout id. */
  lemma ReportRefusedExactlyWhen(b: Books, i: nat, target: WithdrawalStatus, payout: Option<Id>, word: string, now: nat)
    requires Sound(b) && i < |b.withdrawals|
    ensures MarkWithdrawal(b, b.withdrawals[i].id, target, payout, word, now).Ok? <==>
              Terminal(b.withdrawals[i].status) || !PayoutTaken(b, b.withdrawals[i].id, payout)
  {
    FoundAt(b, i);
    assert RowLogged(b.ledger, b.withdrawals[i]);
    if !Terminal(b.withdrawals[i].status) {
      ReportEffect(b, i, target, payout, word, now);
    }
  }

  /** A synchronous payout answer is taken exactly when it matches the withdrawal and can be read. */
  lemma PayoutAnswerTakenExactlyWhen(b: Books, i: nat, payout: Payout, now: nat)
    requires Sound(b) && i < |b.withdrawals|
    ensures ApplyPayout(b, b.withdrawals[i].id, payout, now).Done? <==>
              && PayoutAgrees(payout, b.withdrawals[i]) && WithdrawalTarget(payout.status).Some? && payout.id.Some?
              && (Terminal(b.withdrawals[i].status) || !PayoutTaken(b, b.withdrawals[i].id, payout.id))
  {
    FoundAt(b, i);
    if WithdrawalTarget(payout.status).Some? {
      ReportRefusedExactlyWhen(b, i, WithdrawalTarget(payout.status).value, payout.id, payout.status, now);
    }
  }
}
