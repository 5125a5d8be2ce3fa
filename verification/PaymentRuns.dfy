/** Every run of the payment module: any interleaving of requests, webhooks, payout answers and
    sweeps, with arbitrary provider answers, order, repeats and times. */
module PaymentRuns {
  import opened Prelude
  import opened PaymentDomain
  import opened PaymentBooks
  import opened PaymentFlows
  import opened WalletLaws
  import opened WithdrawalLaws

  datatype Action =
    | OpenWallet(walletDriver: Id)
    | TopupRequest(topup: Id, topupDriver: Id, topupAmount: int, cash: bool, topupIntent: NewIntent)
    | QuoteRequest(quote: Id, quoteDriver: Id, quoteAmount: int, settings: WithdrawalSettings)
    | WithdrawalRequest(draft: Draft, verified: bool)
    | PayoutAnswered(withdrawal: Id, newPayout: NewPayout)
    | PayoutReread(rereadWithdrawal: Id, payout: Payout)
    | CashConfirmed(cashRides: map<Id, Ride>, cashRide: Id, collected: int, collector: Id, cashPayment: Id)
    | PaymentPrepared(preparedRides: map<Id, Ride>, preparedRide: Id, payBy: PaymentMethod, rideIntent: NewIntent,
        newPayment: Id)
    | WebhookReceived(hookRides: map<Id, Ride>, hook: Webhook)
    | SweepRun(sweepRides: map<Id, Ride>, jobs: seq<Job>)

  datatype Timed = Timed(action: Action, now: nat)

  function Act(b: Books, t: Timed): Outcome {
    match t.action
    case OpenWallet(d) => Done(EnsureWallet(b, d), [])
    case TopupRequest(id, d, amount, cash, answer) => CreateTopup(b, id, d, amount, cash, answer, t.now)
    case QuoteRequest(id, d, amount, s) => QuoteWithdrawal(b, id, d, amount, s, t.now)
    case WithdrawalRequest(draft, verified) => RequestWithdrawal(b, draft, verified, t.now)
    case PayoutAnswered(id, answer) => FinishPayout(b, id, answer, t.now)
    case PayoutReread(id, payout) => ApplyPayout(b, id, payout, t.now)
    case CashConfirmed(rides, ride, amount, collector, id) => ConfirmCash(b, rides, ride, amount, collector, id, t.now)
    case PaymentPrepared(rides, ride, payBy, answer, id) => PreparePayment(b, rides, ride, payBy, answer, id, t.now)
    case WebhookReceived(rides, hook) => ApplyWebhook(b, rides, hook, t.now)
    case SweepRun(rides, jobs) => SweepOutcome(Sweep(b, rides, jobs, t.now))
  }

  function SweepOutcome(s: SweepState): Outcome {
    match s
    case SweepRaised(e) => Raised(e)
    case Sweeping(b, _, touches) => Done(b, touches)
  }

  /** A request that raises is rolled back whole. */
  function Committed(b: Books, o: Outcome): Books {
    if o.Done? then o.books else b
  }

  function Applied(o: Outcome): seq<Touch> {
    if o.Done? then o.touches else []
  }

  function Run(b: Books, actions: seq<Timed>): Books {
    if |actions| == 0 then b
    else
      var before := Run(b, actions[..|actions| - 1]);
      Committed(before, Act(before, actions[|actions| - 1]))
  }

  /** The reports applied during the run, oldest first. */
  function Trace(b: Books, actions: seq<Timed>): seq<Touch> {
    if |actions| == 0 then []
    else Trace(b, actions[..|actions| - 1]) + Applied(Act(Run(b, actions[..|actions| - 1]), actions[|actions| - 1]))
  }

  // ---------------------------------------------------------------- every run keeps the laws

  /** Payments, events and unchanged tables carry no wallet law. */
  lemma SameTablesSound(b: Books, r: Books)
    requires Sound(b) && r.(payments := b.payments, events := b.events) == b
    ensures Sound(r)
  {
    forall d: Id ensures Sums(r, d) { assert Sums(b, d); }
  }

  lemma TopupReportSound(b: Books, id: Id, status: TopupStatus, word: string, paidAt: Option<nat>,
    next: Option<Option<Id>>)
    requires Sound(b)
    ensures Sound(Committed(b, ApplyTopup(b, id, status, word, paidAt, next)))
  {
    if TopupById(b, id).Some? {
      var i := TopupById(b, id).value;
      var marked := MarkTopup(b, id, status, word, paidAt, next).value;
      var t := marked.topups[i];
      TopupEdit(b, i, t.(status := TopupStatus.Failed));
      if status.Succeeded? {
        TopupCreditSound(b, i, t);
      } else {
        TopupEdit(b, i, t);
      }
    }
  }

  /** Marking a top-up succeeded and crediting it, once, in one step. */
  lemma TopupCreditSound(b: Books, i: nat, t: Topup)
    requires Sound(b) && i < |b.topups| && TopupEntry(t) == TopupEntry(b.topups[i]) && t.status.Succeeded?
    ensures Sound(RecordOnce(b.(topups := b.topups[i := t]), TopupEntry(t)))
  {
    var early := b.(topups := b.topups[i := t.(status := TopupStatus.Pending)]);
    TopupEdit(b, i, early.topups[i]);
    CreditThenMark(early, i, t);
    assert early.topups[i := t] == b.topups[i := t];
  }

  lemma CreditThenMark(b: Books, i: nat, t: Topup)
    requires Sound(b) && i < |b.topups| && TopupEntry(t) == TopupEntry(b.topups[i])
    ensures Sound(RecordOnce(b.(topups := b.topups[i := t]), TopupEntry(t)))
  {
    var e := TopupEntry(t);
    var credited := RecordOnce(b, e);
    assert CreditOwned(b.topups, e) by { assert e == TopupEntry(b.topups[i]); }
    RecordKeepsSound(b, e);
    CreditPresent(b, i, e);
    TopupEdit(credited, i, t);
    assert RecordOnce(b.(topups := b.topups[i := t]), e) == credited.(topups := credited.topups[i := t]);
  }

  /** After recording row `i`'s credit, the log holds exactly that line. */
  lemma CreditPresent(b: Books, i: nat, e: Entry)
    requires TopupsLogged(b.topups, b.ledger) && i < |b.topups| && e == TopupEntry(b.topups[i])
    ensures e in RecordOnce(b, e).ledger
  {
    if HasEntry(b.ledger, e.key) {
      var f :| f in b.ledger && f.key == e.key;
      assert CreditOwned(b.topups, f);
      var k :| 0 <= k < |b.topups| && f == TopupEntry(b.topups[k]);
      assert b.topups[k].id == b.topups[i].id;
      assert k == i;
    }
  }

  lemma NewTopupSound(b: Books, t: Topup)
    requires Sound(b) && !TopupClashes(b, t)
    ensures t.status.Succeeded? || Sound(b.(topups := b.topups + [t]))
    ensures t.status.Succeeded? ==> Sound(RecordOnce(b.(topups := b.topups + [t]), TopupEntry(t)))
  {
    var unpaid := if t.status.Succeeded? then t.(status := TopupStatus.Pending) else t;
    var r := b.(topups := b.topups + [unpaid]);
    forall d: Id ensures Sums(r, d) { assert Sums(b, d); }
    forall i | 0 <= i < |b.topups| ensures b.topups[i].id != t.id { assert b.topups[i] in b.topups; }
    forall e | e in r.ledger ensures CreditOwned(r.topups, e) {
      assert CreditOwned(b.topups, e);
      if e.key.entryType.TopupCredit? {
        var k :| 0 <= k < |b.topups| && e == TopupEntry(b.topups[k]);
        assert e == TopupEntry(r.topups[k]);
      }
    }
    assert Sound(r);
    if t.status.Succeeded? {
      TopupCreditSound(r, |b.topups|, t);
      assert r.topups[|b.topups| := t] == b.topups + [t];
    }
  }

  lemma {:induction false} SettleRideSound(b: Books, rides: map<Id, Ride>, ride: Id, status: PaymentStatus)
    requires Sound(b)
    ensures Sound(Committed(b, SettleRide(b, rides, ride, status)))
  {
    if ride in rides {
      SettlementKeepsSound(b, rides[ride], status);
    }
  }

  lemma {:induction false} TransactionReportSound(
    b: Books, rides: map<Id, Ride>, id: Id, status: PaymentStatus, word: string, paidAt: Option<nat>,
        next: Option<Option<Id>>)
    requires Sound(b)
    ensures Sound(Committed(b, ApplyTransaction(b, rides, id, status, word, paidAt, next)))
  {
    if PaymentById(b, id).Some? {
      var i := PaymentById(b, id).value;
      var p := MarkedExternal(b.payments[i], status, word, paidAt, next);
      var marked := b.(payments := b.payments[i := p]);
      SameTablesSound(b, marked);
      SettleRideSound(marked, rides, p.rideId, status);
    }
  }

  lemma {:induction false} MarkSound(b: Books, id: Id, target: WithdrawalStatus, payout: Option<Id>, word: string,
    now: nat)
    requires Sound(b)
    ensures var r := MarkWithdrawal(b, id, target, payout, word, now); r.Ok? ==> Sound(r.value)
  {
    if MarkWithdrawal(b, id, target, payout, word, now).Ok? {
      MarkKeepsSound(b, id, target, payout, word, now);
    }
  }

  lemma {:induction false} WebhookSound(b: Books, rides: map<Id, Ride>, hook: Webhook, now: nat)
    requires Sound(b)
    ensures Sound(Committed(b, ApplyWebhook(b, rides, hook, now)))
  {
    var stored := b.(events := b.events + {hook.eventId});
    SameTablesSound(b, stored);
    if hook.eventId !in b.events && hook.payoutId.Some? {
      WebhookPayoutSound(stored, hook, now);
    } else if hook.eventId !in b.events && hook.intentId.Some? && ServiceStatus(hook.status).Some? {
      WebhookIntentSound(stored, rides, hook, ServiceStatus(hook.status).value, now);
    }
  }

  lemma {:induction false} WebhookPayoutSound(b: Books, hook: Webhook, now: nat)
    requires Sound(b) && hook.payoutId.Some?
    ensures Sound(Committed(b, WebhookPayout(b, hook, now)))
  {
    var o := WebhookPayout(b, hook, now);
    if o.Done? {
      var byPayout := WithdrawalByPayout(b, hook.payoutId.value);
      var i := (if byPayout.None? then WithdrawalByReference(b, hook.reference.value) else byPayout).value;
      MarkSound(b, b.withdrawals[i].id, WithdrawalTarget(hook.status).value, hook.payoutId, hook.status, now);
    }
  }

  lemma WebhookIntentSound(b: Books, rides: map<Id, Ride>, hook: Webhook, status: PaymentStatus, now: nat)
    requires Sound(b) && hook.intentId.Some?
    ensures Sound(Committed(b, WebhookIntent(b, rides, hook, status, now)))
  {
    var paidAt := PaidAt(status.Succeeded?, now);
    var payment := PaymentByIntent(b, hook.intentId.value);
    var topup := TopupByIntent(b, hook.intentId.value);
    if payment.Some? {
      TransactionReportSound(b, rides, b.payments[payment.value].id, status, hook.status, paidAt, None);
    } else if topup.Some? {
      TopupReportSound(b, b.topups[topup.value].id, TopupStatusOf(status), hook.status, paidAt, None);
    }
  }

  lemma {:induction false} ReconcileTransactionSound(b: Books, rides: map<Id, Ride>, id: Id, answer: IntentAnswer,
    now: nat)
    requires Sound(b)
    ensures var s := ReconcileTransaction(b, rides, id, answer, now); s.Counted? ==> Sound(s.books)
  {
    if answer.IntentFound? && ServiceStatus(answer.intent.status).Some? {
      var status := ServiceStatus(answer.intent.status).value;
      TransactionReportSound(b, rides, id, status, answer.intent.status, PaidAt(status.Succeeded?, now),
          Some(answer.intent.nextAction));
    }
  }

  lemma {:induction false} ReconcileTopupSound(b: Books, id: Id, answer: IntentAnswer, now: nat)
    requires Sound(b)
    ensures var s := ReconcileTopup(b, id, answer, now); s.Counted? ==> Sound(s.books)
  {
    if answer.IntentFound? && ServiceStatus(answer.intent.status).Some? {
      var status := TopupStatusOf(ServiceStatus(answer.intent.status).value);
      TopupReportSound(b, id, status, answer.intent.status, PaidAt(status.Succeeded?, now),
          Some(answer.intent.nextAction));
    }
  }

  /** A withdrawal row of the sweep is left alone or marked with what the answer says. */
  predicate MarkedByAnswer(b: Books, r: Books, id: Id, answer: PayoutAnswer, now: nat) {
    r == b
    || (answer.PayoutFound? && WithdrawalTarget(answer.payout.status).Some?
        && Ok(r) == MarkWithdrawal(b, id, WithdrawalTarget(answer.payout.status).value, answer.payout.id,
            answer.payout.status, now))
  }

  lemma ReconcileMarks(b: Books, id: Id, answer: PayoutAnswer, now: nat)
    ensures var s := ReconcileWithdrawal(b, id, answer, now); s.Counted? ==> MarkedByAnswer(b, s.books, id, answer, now)
  {
  }

  lemma MarkedSound(b: Books, r: Books, id: Id, answer: PayoutAnswer, now: nat)
    requires Sound(b) && MarkedByAnswer(b, r, id, answer, now)
    ensures Sound(r)
  {
    if r != b {
      MarkSound(b, id, WithdrawalTarget(answer.payout.status).value, answer.payout.id, answer.payout.status, now);
    }
  }

  lemma {:induction false} ReconcileWithdrawalSound(b: Books, id: Id, answer: PayoutAnswer, now: nat)
    requires Sound(b)
    ensures var s := ReconcileWithdrawal(b, id, answer, now); s.Counted? ==> Sound(s.books)
  {
    var s := ReconcileWithdrawal(b, id, answer, now);
    if s.Counted? {
      ReconcileMarks(b, id, answer, now);
      MarkedSound(b, s.books, id, answer, now);
    }
  }

  lemma {:induction false} ReconcileSound(b: Books, rides: map<Id, Ride>, job: Job, now: nat)
    requires Sound(b)
    ensures Reconcile(b, rides, job, now).Counted? ==> Sound(Reconcile(b, rides, job, now).books)
  {
    match job
    case PaymentJob(id, answer) => ReconcileTransactionSound(b, rides, id, answer, now);
    case TopupJob(id, answer) => ReconcileTopupSound(b, id, answer, now);
    case WithdrawalJob(id, answer) => ReconcileWithdrawalSound(b, id, answer, now);
  }

  lemma {:induction false} SweepSound(b: Books, rides: map<Id, Ride>, jobs: seq<Job>, now: nat)
    requires Sound(b)
    ensures Sweep(b, rides, jobs, now).Sweeping? ==> Sound(Sweep(b, rides, jobs, now).books)
  {
    if |jobs| > 0 {
      SweepSound(b, rides, jobs[..|jobs| - 1], now);
      var before := Sweep(b, rides, jobs[..|jobs| - 1], now);
      if before.Sweeping? {
        ReconcileSound(before.books, rides, jobs[|jobs| - 1], now);
      }
    }
  }

  lemma QuoteSound(b: Books, id: Id, q: Quote)
    requires Sound(b) && id !in b.quotes && q.consumedAt.None? && GoodQuote(q)
    ensures Sound(b.(quotes := b.quotes[id := q]))
  {
    var r := b.(quotes := b.quotes[id := q]);
    forall d: Id ensures Sums(r, d) { assert Sums(b, d); }
  }

  lemma {:induction false} CashSound(b: Books, rides: map<Id, Ride>, ride: Id, amount: int, collector: Id, newId: Id,
    now: nat)
    requires Sound(b)
    ensures Sound(Committed(b, ConfirmCash(b, rides, ride, amount, collector, newId, now)))
  {
    var o := ConfirmCash(b, rides, ride, amount, collector, newId, now);
    if o.Done? {
      var existing := PaymentByRide(b, ride);
      var created := Payment(newId, ride, amount, rides[ride].currency, Cash, PaymentStatus.Pending, None, None, "",
          None, None, None, None);
      var saved := if existing.Some? then b else SavePayment(b, created).value;
      var id := if existing.Some? then b.payments[existing.value].id else newId;
      var collected := UpdatePayment(saved, id, (p: Payment) => CollectedInCash(p, collector, amount, now)).value;
      SameTablesSound(b, collected);
      SettleRideSound(collected, rides, ride, PaymentStatus.Collected);
    }
  }

  lemma PrepareSound(b: Books, rides: map<Id, Ride>, ride: Id, payBy: PaymentMethod, answer: NewIntent, newId: Id,
    now: nat)
    requires Sound(b)
    ensures Sound(Committed(b, PreparePayment(b, rides, ride, payBy, answer, newId, now)))
  {
    var r := Committed(b, PreparePayment(b, rides, ride, payBy, answer, newId, now));
    SameTablesSound(b, r);
  }

  lemma {:induction false} PayoutSound(b: Books, id: Id, payout: Payout, now: nat)
    requires Sound(b)
    ensures Sound(Committed(b, ApplyPayout(b, id, payout, now)))
  {
    if WithdrawalTarget(payout.status).Some? {
      MarkSound(b, id, WithdrawalTarget(payout.status).value, payout.id, payout.status, now);
    }
  }

  lemma {:induction false} RequestSound(b: Books, d: Draft, verified: bool, now: nat)
    requires Sound(b)
    ensures Sound(Committed(b, RequestWithdrawal(b, d, verified, now)))
  {
    if Reserve(b, d, now).Ok? {
      ReserveKeepsSound(b, d, now);
    }
  }

  lemma {:induction false} FinishSound(b: Books, id: Id, answer: NewPayout, now: nat)
    requires Sound(b)
    ensures Sound(Committed(b, FinishPayout(b, id, answer, now)))
  {
    match answer
    case PayoutRefused => MarkSound(b, id, WithdrawalStatus.Failed, None, "rejected", now);
    case PayoutUnavailable =>
    case PayoutCreated(payout) => PayoutSound(b, id, payout, now);
  }

  lemma TopupRequestSound(b: Books, id: Id, d: Id, amount: int, cash: bool, answer: NewIntent, now: nat)
    requires Sound(b)
    ensures Sound(Committed(b, CreateTopup(b, id, d, amount, cash, answer, now)))
  {
    if CreateTopup(b, id, d, amount, cash, answer, now).Done? {
      var intent := answer.intent;
      var status := TopupStatusOf(WalletStatus(intent.status).value);
      var stored := ProviderAmount(intent.amount, amount).value;
      var currency := if intent.currency.Some? then OrWord(intent.currency.value, "XOF") else "XOF";
      NewTopupSound(b, Topup(id, d, stored, currency, status, intent.id, TopupRef(id),
          OrWord(intent.status, "requires_action"),
                             intent.nextAction, PaidAt(status.Succeeded?, now)));
    }
  }

  lemma QuoteRequestSound(b: Books, id: Id, d: Id, amount: int, s: WithdrawalSettings, now: nat)
    requires Sound(b)
    ensures Sound(Committed(b, QuoteWithdrawal(b, id, d, amount, s, now)))
  {
    if QuoteWithdrawal(b, id, d, amount, s, now).Done? {
      WalletOpens(b, d);
      QuoteSound(EnsureWallet(b, d), id, Quote(d, amount, s.fee, amount - s.fee, "XOF", now + s.ttl, None));
    }
  }

  lemma {:induction false} ActKeepsSound(b: Books, t: Timed)
    requires Sound(b)
    ensures Sound(Committed(b, Act(b, t)))
  {
    match t.action
    case OpenWallet(d) => WalletOpens(b, d);
    case WebhookReceived(rides, hook) => WebhookSound(b, rides, hook, t.now);
    case SweepRun(rides, jobs) => SweepSound(b, rides, jobs, t.now);
    case CashConfirmed(rides, ride, amount, collector, id) => CashSound(b, rides, ride, amount, collector, id, t.now);
    case PaymentPrepared(rides, ride, payBy, answer, id) => PrepareSound(b, rides, ride, payBy, answer, id, t.now);
    case _ => WalletActKeepsSound(b, t);
  }

  lemma {:induction false} WalletActKeepsSound(b: Books, t: Timed)
    requires Sound(b)
    requires var a := t.action;
            a.TopupRequest? || a.QuoteRequest? || a.WithdrawalRequest? || a.PayoutAnswered? || a.PayoutReread?
    ensures Sound(Committed(b, Act(b, t)))
  {
    match t.action
    case TopupRequest(id, d, amount, cash, answer) => TopupRequestSound(b, id, d, amount, cash, answer, t.now);
    case QuoteRequest(id, d, amount, s) => QuoteRequestSound(b, id, d, amount, s, t.now);
    case WithdrawalRequest(draft, verified) => RequestSound(b, draft, verified, t.now);
    case PayoutAnswered(id, answer) => FinishSound(b, id, answer, t.now);
    case PayoutReread(id, payout) => PayoutSound(b, id, payout, t.now);
  }

  /** Every reachable state of the payment tables is sound. */
  lemma {:induction false} RunsAreSound(actions: seq<Timed>)
    ensures Sound(Run(EMPTY_BOOKS, actions))
  {
    if |actions| == 0 {
      EmptyIsSound();
    } else {
      RunsAreSound(actions[..|actions| - 1]);
      ActKeepsSound(Run(EMPTY_BOOKS, actions[..|actions| - 1]), actions[|actions| - 1]);
    }
  }
}
