/** The payment use cases as they run: repository calls in order, an error half-way leaving the
    session dirty, and the session boundary that commits or rolls back
    (`services.py`, `wallet_service.py`, `core/database.py`). */
module PaymentService {
  import opened Prelude
  import opened PaymentDomain
  import opened PaymentBooks
  import opened PaymentFlows
  import opened PaymentRepository

  /** One more row counted as updated, after it was counted as checked. */
  function Repaired(r: Report, reference: Reference): Report {
    r.(updated := r.updated + 1, references := r.references + [reference])
  }

  class ReconciliationReport {
    var checked: nat
    var updated: nat
    var same: nat
    var missing: nat
    var mismatched: nat
    var errors: nat
    var references: seq<Reference>

    function Value(): Report
      reads this
    {
      Report(checked, updated, same, missing, mismatched, errors, references)
    }

    constructor ()
      ensures Value() == EMPTY_REPORT
    {
      checked, updated, same, missing, mismatched, errors, references := 0, 0, 0, 0, 0, 0, [];
    }
  }

  class Service {
    const repo: Repository

    constructor (repo: Repository)
      ensures this.repo == repo
    {
      this.repo := repo;
    }

    method RecordRideSettlement(ride: Ride, status: PaymentStatus)
      modifies repo
      ensures repo.Tables() == RecordAll(old(repo.Tables()), SettlementEntry(ride, status))
    {
      if ride.driver.None? {
        return;
      }
      if ride.commission.None? || ride.payout.None? {
        return;
      }
      if ride.payBy.Cash? && status.Collected? {
        var _ := repo.RecordLedgerEntryOnce(
          Entry(Key(ride.driver.value, PlatformCommission, RideRef(ride.id)), ride.commission.value, Debit,
              EntryConfirmed));
        return;
      }
      if ride.payBy.MobileMoney? && status.Succeeded? {
        var _ := repo.RecordLedgerEntryOnce(
          Entry(Key(ride.driver.value, RidePayout, RideRef(ride.id)), ride.payout.value, Credit, EntryConfirmed));
      }
    }

    method ApplyTransactionStatus(
      rides: map<Id, Ride>, id: Id, status: PaymentStatus, providerStatus: string, paidAt: Option<nat>,
      nextAction: Option<Option<Id>>) returns (failure: Option<Error>)
      modifies repo
      ensures var o := ApplyTransaction(old(repo.Tables()), rides, id, status, providerStatus, paidAt, nextAction);
              failure == Failure(o) && (o.Done? ==> repo.Tables() == o.books)
    {
      var marked := repo.MarkExternalStatus(id, status, providerStatus, paidAt, nextAction);
      if marked.Err? {
        return Some(marked.error);
      }
      if marked.value.rideId in rides {
        RecordRideSettlement(rides[marked.value.rideId], marked.value.status);
      }
      failure := None;
    }

    method ApplyTopupStatus(
      id: Id, status: TopupStatus, providerStatus: string, paidAt: Option<nat>, nextAction: Option<Option<Id>>)
      returns (failure: Option<Error>)
      modifies repo
      ensures var o := ApplyTopup(old(repo.Tables()), id, status, providerStatus, paidAt, nextAction);
              failure == Failure(o) && (o.Done? ==> repo.Tables() == o.books)
    {
      var topup := repo.MarkTopupStatus(id, status, providerStatus, paidAt, nextAction);
      if topup.Err? {
        return Some(topup.error);
      }
      if topup.value.status.Succeeded? {
        var _ := repo.RecordLedgerEntryOnce(TopupEntry(topup.value));
      }
      failure := None;
    }

    /** Runs inside a session that may be left dirty. */
    method HandleWebhook(rides: map<Id, Ride>, hook: Webhook, now: nat) returns (failure: Option<Error>)
      modifies repo
      ensures var o := ApplyWebhook(old(repo.Tables()), rides, hook, now);
              failure == Failure(o) && (o.Done? ==> repo.Tables() == o.books)
    {
      var stored := repo.RecordWebhookEvent(hook.eventId);
      if !stored {
        assert repo.Tables() == old(repo.Tables());
        return None;
      }
      if hook.payoutId.Some? {
        var found := WithdrawalByPayout(repo.Tables(), hook.payoutId.value);
        if found.None? && hook.reference.Some? {
          found := WithdrawalByReference(repo.Tables(), hook.reference.value);
        }
        if found.None? {
          return Some(WithdrawalNotFound);
        }
        var withdrawal := repo.withdrawals[found.value];
        if hook.reference != Some(withdrawal.reference) {
          return Some(ReferenceMismatch);
        }
        var target := WithdrawalTarget(hook.status);
        if target.None? {
          return Some(StatusInvalid);
        }
        failure := repo.MarkWithdrawalProviderState(withdrawal.id, target.value, hook.payoutId, hook.status, now);
        return;
      }
      if hook.intentId.None? {
        return Some(CallbackInvalid);
      }
      var status := ServiceStatus(hook.status);
      if status.None? {
        return Some(StatusInvalid);
      }
      failure := HandleIntent(rides, hook, status.value, now);
    }

    method HandleIntent(rides: map<Id, Ride>, hook: Webhook, status: PaymentStatus,
      now: nat) returns (failure: Option<Error>)
      requires hook.intentId.Some?
      modifies repo
      ensures var o := WebhookIntent(old(repo.Tables()), rides, hook, status, now);
              failure == Failure(o) && (o.Done? ==> repo.Tables() == o.books)
    {
      var paidAt := if status.Succeeded? then Some(now) else None;
      var payment := PaymentByIntent(repo.Tables(), hook.intentId.value);
      if payment.Some? {
        var row := repo.payments[payment.value];
        var amount := AmountField(hook.amount);
        if amount.None? {
          return Some(NotANumberError);
        }
        if amount.value != row.amount || hook.currency != Some(row.currency) {
          return Some(OperationConflict);
        }
        if hook.reference != row.reference {
          return Some(OperationConflict);
        }
        failure := ApplyTransactionStatus(rides, row.id, status, hook.status, paidAt, None);
        return;
      }
      var topup := TopupByIntent(repo.Tables(), hook.intentId.value);
      if topup.None? {
        return Some(IntentNotFound);
      }
      var row := repo.topups[topup.value];
      var amount := AmountField(hook.amount);
      if amount.None? {
        return Some(NotANumberError);
      }
      if amount.value != row.amount || hook.currency != Some(row.currency) {
        return Some(OperationConflict);
      }
      if hook.reference != Some(row.reference) {
        return Some(OperationConflict);
      }
      failure := ApplyTopupStatus(row.id, TopupStatusOf(status), hook.status, paidAt, None);
    }

    /** The webhook request with its session: a request that raises leaves every table as it was. */
    method ReceiveWebhook(rides: map<Id, Ride>, hook: Webhook, now: nat) returns (failure: Option<Error>)
      modifies repo
      ensures var o := ApplyWebhook(old(repo.Tables()), rides, hook, now);
              && failure == Failure(o)
              && (o.Done? ==> repo.Tables() == o.books)
              && (o.Raised? ==> repo.Tables() == old(repo.Tables()))
    {
      var before := repo.Tables();
      failure := HandleWebhook(rides, hook, now);
      if failure.Some? {
        repo.Rollback(before);
      }
    }

    // -------------------------------------------------------------- ride payments

    method CollectCash(rides: map<Id, Ride>, ride: Id, amount: int, collector: Id, newId: Id,
      now: nat) returns (failure: Option<Error>)
      modifies repo
      ensures var o := ConfirmCash(old(repo.Tables()), rides, ride, amount, collector, newId, now);
              failure == Failure(o) && (o.Done? ==> repo.Tables() == o.books)
      ensures failure.None? ==> repo.withdrawals == old(repo.withdrawals) && old(repo.ledger) <= repo.ledger
      ensures failure.Some? ==> repo.Tables() == old(repo.Tables())
    {
      if ride !in rides {
        return Some(RideNotFound);
      }
      if !rides[ride].completed {
        return Some(RideNotCompleted);
      }
      if rides[ride].finalFare.Some? && !WithinTolerance(amount, rides[ride].finalFare.value) {
        return Some(AmountMismatch);
      }
      var existing := PaymentByRide(repo.Tables(), ride);
      var id := newId;
      if existing.None? {
        failure := repo.InsertPayment(
          Payment(newId, ride, amount, rides[ride].currency, Cash, PaymentStatus.Pending, None, None, "", None, None,
              None, None));
        if failure.Some? {
          return;
        }
        assert repo.payments[|old(repo.payments)|].id == id;
      } else {
        id := repo.payments[existing.value].id;
      }
      failure := repo.UpdateCollected(id, collector, amount, now);
      if failure.None? {
        RecordRideSettlement(rides[ride], PaymentStatus.Collected);
      }
    }

    method PreparePaymentFor(rides: map<Id, Ride>, ride: Id, payBy: PaymentMethod, answer: NewIntent, newId: Id,
      now: nat)
      returns (failure: Option<Error>)
      modifies repo
      ensures var o := PreparePayment(old(repo.Tables()), rides, ride, payBy, answer, newId, now);
              failure == Failure(o) && (o.Done? ==> repo.Tables() == o.books)
      ensures repo.ledger == old(repo.ledger) && repo.wallets == old(repo.wallets) && repo.withdrawals
          == old(repo.withdrawals)
      ensures failure.Some? ==> repo.Tables() == old(repo.Tables())
    {
      if ride !in rides {
        return Some(RideNotFound);
      }
      var r := rides[ride];
      if !r.completed {
        return Some(RideNotCompleted);
      }
      if r.finalFare.None? || r.finalFare.value <= 0 {
        return Some(OperationConflict);
      }
      if payBy.Cash? {
        failure := PrepareCashFor(r, newId);
        return;
      }
      if r.payBy != payBy {
        return Some(OperationConflict);
      }
      failure := PrepareDiddiPayFor(r, answer, newId, now);
    }

    method PrepareCashFor(r: Ride, newId: Id) returns (failure: Option<Error>)
      modifies repo
      ensures var o := PrepareCash(old(repo.Tables()), r, newId);
              failure == Failure(o) && (o.Done? ==> repo.Tables() == o.books)
      ensures repo.ledger == old(repo.ledger) && repo.wallets == old(repo.wallets) && repo.withdrawals
          == old(repo.withdrawals)
      ensures failure.Some? ==> repo.Tables() == old(repo.Tables())
    {
      var existing := PaymentByRide(repo.Tables(), r.id);
      if existing.None? {
        var fare := NonZero(r.finalFare).Or(NonZero(r.estimatedFare));
        var amount := if fare.Some? then fare.value else 0;
        failure := repo.InsertPayment(
          Payment(newId, r.id, amount, r.currency, Cash, PaymentStatus.Pending, None, None, "", None, None, None,
              None));
        return;
      }
      var payment := repo.payments[existing.value];
      if payment.payBy.Cash? {
        return None;
      }
      if payment.status !in {PaymentStatus.Failed, PaymentStatus.Cancelled} {
        return Some(OperationConflict);
      }
      failure := repo.PrepareCashPayment(payment.id);
    }

    method PrepareDiddiPayFor(r: Ride, answer: NewIntent, newId: Id, now: nat) returns (failure: Option<Error>)
      modifies repo
      ensures var o := PrepareDiddiPay(old(repo.Tables()), r, answer, newId, now);
              failure == Failure(o) && (o.Done? ==> repo.Tables() == o.books)
      ensures repo.ledger == old(repo.ledger) && repo.wallets == old(repo.wallets) && repo.withdrawals
          == old(repo.withdrawals)
      ensures failure.Some? ==> repo.Tables() == old(repo.Tables())
    {
      var fare := NonZero(r.finalFare).Or(r.estimatedFare);
      if fare.None? || fare.value <= 0 {
        return Some(OperationConflict);
      }
      var existing := PaymentByRide(repo.Tables(), r.id);
      var retrying := false;
      if existing.Some? {
        var payment := repo.payments[existing.value];
        retrying := payment.intentId.Some? && payment.status in {PaymentStatus.Failed, PaymentStatus.Cancelled};
        if payment.intentId.Some? && !retrying {
          return None;
        }
        if !retrying {
          return Some(OperationConflict);
        }
      }
      if answer.IntentFailed? {
        return Some(ProviderUnavailable);
      }
      var intent := answer.intent;
      var word := OrWord(intent.status, "requires_action");
      var status := ServiceStatus(word);
      if status.None? {
        return Some(StatusInvalid);
      }
      if intent.id.None? {
        return Some(RowNotFound);
      }
      if retrying {
        failure := repo.ReplaceExternalIntent(
          repo.payments[existing.value].id, intent.id.value, MobileMoney, status.value, word, intent.nextAction);
        return;
      }
      var amount := ProviderAmount(intent.amount, fare.value);
      if amount.None? {
        return Some(NotANumberError);
      }
      var currency := if intent.currency.Some? then OrWord(intent.currency.value, r.currency) else r.currency;
      failure := repo.InsertPayment(
        Payment(newId, r.id, amount.value, currency, MobileMoney, status.value, intent.id, Some(RideRef(r.id)), word,
                intent.nextAction, if status.value.Succeeded? then Some(now) else None, None, None));
    }

    // -------------------------------------------------------------- sweep

    /** `None` in `answered` means the row was already counted as missing or unreadable. */
    method ReadIntent(intentId: Option<Id>, answer: IntentAnswer,
      report: ReconciliationReport) returns (intent: Option<Intent>)
      modifies report
      ensures intentId.None? || answer.UnknownIntent? ==>
                intent.None? && report.Value() == old(report.Value()).(missing := old(report.missing) + 1)
      ensures intentId.Some? && answer.Unreadable? ==>
                intent.None? && report.Value() == old(report.Value()).(errors := old(report.errors) + 1)
      ensures intentId.Some? && answer.IntentFound? ==>
                intent == Some(answer.intent) && report.Value() == old(report.Value())
    {
      if intentId.None? {
        report.missing := report.missing + 1;
        return None;
      }
      if answer.Unreadable? {
        report.errors := report.errors + 1;
        return None;
      }
      if answer.UnknownIntent? {
        report.missing := report.missing + 1;
        return None;
      }
      intent := Some(answer.intent);
    }

    method ReconcilePayment(rides: map<Id, Ride>, id: Id, answer: IntentAnswer, now: nat, report: ReconciliationReport)
      returns (failure: Option<Error>)
      requires PaymentById(repo.Tables(), id).Some?
      modifies repo, report
      ensures var s := ReconcileTransaction(old(repo.Tables()), rides, id, answer, now);
              match s
              case Counted(b, bucket, reference, _) =>
                failure.None? && repo.Tables() == b && report.Value() == Tally(old(report.Value()), bucket, reference)
              case Aborted(e) => failure == Some(e)
    {
      var payment := repo.payments[PaymentById(repo.Tables(), id).value];
      var reference := PaymentReference(payment);
      report.checked := report.checked + 1;
      var intent := ReadIntent(payment.intentId, answer, report);
      if intent.None? {
        return None;
      }
      if IntentMismatch(intent.value, payment.amount, payment.currency, payment.reference) {
        report.mismatched := report.mismatched + 1;
        return None;
      }
      var status := ServiceStatus(intent.value.status);
      if status.None? {
        report.errors := report.errors + 1;
        return None;
      }
      if status.value == payment.status && intent.value.nextAction == payment.nextAction {
        report.same := report.same + 1;
        return None;
      }
      failure := RepairPayment(rides, id, status.value, intent.value, reference, now, report);
    }

    /** The update itself, counted once it went through. */
    method RepairPayment(
      rides: map<Id, Ride>, id: Id, status: PaymentStatus, intent: Intent, reference: Reference, now: nat,
          report: ReconciliationReport)
      returns (failure: Option<Error>)
      modifies repo, report
      ensures var o := ApplyTransaction(old(repo.Tables()), rides, id, status, intent.status,
          PaidAt(status.Succeeded?, now), Some(intent.nextAction));
              failure == Failure(o) && (o.Done? ==>
                  repo.Tables() == o.books && report.Value() == Repaired(old(report.Value()), reference))
    {
      failure := ApplyTransactionStatus(
        rides, id, status, intent.status, if status.Succeeded? then Some(now) else None, Some(intent.nextAction));
      if failure.None? {
        report.updated := report.updated + 1;
        report.references := report.references + [reference];
      }
    }

    method ReconcileTopupRow(id: Id, answer: IntentAnswer, now: nat,
      report: ReconciliationReport) returns (failure: Option<Error>)
      requires TopupById(repo.Tables(), id).Some?
      modifies repo, report
      ensures var s := ReconcileTopup(old(repo.Tables()), id, answer, now);
              match s
              case Counted(b, bucket, reference, _) =>
                failure.None? && repo.Tables() == b && report.Value() == Tally(old(report.Value()), bucket, reference)
              case Aborted(e) => failure == Some(e)
    {
      var topup := repo.topups[TopupById(repo.Tables(), id).value];
      report.checked := report.checked + 1;
      var intent := ReadIntent(topup.intentId, answer, report);
      if intent.None? {
        return None;
      }
      if IntentMismatch(intent.value, topup.amount, topup.currency, Some(topup.reference)) {
        report.mismatched := report.mismatched + 1;
        return None;
      }
      var paid := ServiceStatus(intent.value.status);
      if paid.None? {
        report.errors := report.errors + 1;
        return None;
      }
      var status := TopupStatusOf(paid.value);
      if status == topup.status && intent.value.nextAction == topup.nextAction {
        report.same := report.same + 1;
        return None;
      }
      failure := RepairTopup(id, status, intent.value, topup.reference, now, report);
    }

    method RepairTopup(id: Id, status: TopupStatus, intent: Intent, reference: Reference, now: nat,
      report: ReconciliationReport)
      returns (failure: Option<Error>)
      modifies repo, report
      ensures var o := ApplyTopup(old(repo.Tables()), id, status, intent.status, PaidAt(status.Succeeded?, now),
          Some(intent.nextAction));
              failure == Failure(o) && (o.Done? ==>
                  repo.Tables() == o.books && report.Value() == Repaired(old(report.Value()), reference))
    {
      failure := ApplyTopupStatus(
        id, status, intent.status, if status.Succeeded? then Some(now) else None, Some(intent.nextAction));
      if failure.None? {
        report.updated := report.updated + 1;
        report.references := report.references + [reference];
      }
    }

    method ReconcileWithdrawalRow(id: Id, answer: PayoutAnswer, now: nat,
      report: ReconciliationReport) returns (failure: Option<Error>)
      requires WithdrawalById(repo.Tables(), id).Some?
      modifies repo, report
      ensures var s := ReconcileWithdrawal(old(repo.Tables()), id, answer, now);
              match s
              case Counted(b, bucket, reference, _) =>
                failure.None? && repo.Tables() == b && report.Value() == Tally(old(report.Value()), bucket, reference)
              case Aborted(e) => failure == Some(e)
    {
      var i := WithdrawalById(repo.Tables(), id).value;
      var withdrawal := repo.withdrawals[i];
      report.checked := report.checked + 1;
      if answer.PayoutApiError? {
        report.errors := report.errors + 1;
        return None;
      }
      if answer.PayoutCrash? {
        return Some(ProviderUnavailable);
      }
      if answer.UnknownPayout? {
        report.missing := report.missing + 1;
        return None;
      }
      var payout := answer.payout;
      var amount := AmountField(payout.amount);
      if amount.None? {
        return Some(NotANumberError);
      }
      if amount.value != withdrawal.net || payout.currency != Some(withdrawal.currency)
          || payout.reference != Some(withdrawal.reference) {
        report.mismatched := report.mismatched + 1;
        return None;
      }
      var target := WithdrawalTarget(payout.status);
      if target.None? {
        report.errors := report.errors + 1;
        return None;
      }
      if payout.id.None? {
        return Some(RowNotFound);
      }
      failure := repo.MarkWithdrawalProviderState(id, target.value, payout.id, payout.status, now);
      if failure.Some? {
        return;
      }
      if repo.withdrawals[i].status == withdrawal.status {
        report.same := report.same + 1;
      } else {
        report.updated := report.updated + 1;
        report.references := report.references + [withdrawal.reference];
      }
    }

    method ReconcileRow(rides: map<Id, Ride>, job: Job, now: nat,
      report: ReconciliationReport) returns (failure: Option<Error>)
      modifies repo, report
      ensures var s := Reconcile(old(repo.Tables()), rides, job, now);
              match s
              case Counted(b, bucket, reference, _) =>
                failure.None? && repo.Tables() == b && report.Value() == Tally(old(report.Value()), bucket, reference)
              case Aborted(e) => failure == Some(e)
    {
      match job
      case PaymentJob(id, answer) =>
        if PaymentById(repo.Tables(), id).None? {
          return Some(RowNotFound);
        }
        failure := ReconcilePayment(rides, id, answer, now, report);
      case TopupJob(id, answer) =>
        if TopupById(repo.Tables(), id).None? {
          return Some(RowNotFound);
        }
        failure := ReconcileTopupRow(id, answer, now, report);
      case WithdrawalJob(id, answer) =>
        if WithdrawalById(repo.Tables(), id).None? {
          return Some(RowNotFound);
        }
        failure := ReconcileWithdrawalRow(id, answer, now, report);
    }

    method ReconcileNext(
      ghost start: Books, rides: map<Id, Ride>, ghost done: seq<Job>, job: Job, now: nat, report: ReconciliationReport)
      returns (failure: Option<Error>)
      requires Reached(start, rides, done, now, repo.Tables(), report.Value())
      modifies repo, report
      ensures failure.None? ==> Reached(start, rides, done + [job], now, repo.Tables(), report.Value())
      ensures failure.Some? ==> Stopped(start, rides, done + [job], now, failure.value)
    {
      NextRow(start, rides, done, job, now, repo.Tables(), report.Value());
      failure := ReconcileRow(rides, job, now, report);
    }

    /** One of the sweep's three loops, after the rows `done`. */
    method ReconcileRows(
      ghost start: Books, rides: map<Id, Ride>, ghost done: seq<Job>, rows: seq<Job>, now: nat,
        report: ReconciliationReport)
      returns (failure: Option<Error>)
      requires Reached(start, rides, done, now, repo.Tables(), report.Value())
      modifies repo, report
      ensures failure.None? ==> Reached(start, rides, done + rows, now, repo.Tables(), report.Value())
      ensures failure.Some? ==> Stopped(start, rides, done + rows, now, failure.value)
    {
      failure := None;
      ghost var seen := done;
      Prefixes(done, rows, 0);
      for i := 0 to |rows|
        invariant seen == done + rows[..i]
        invariant Reached(start, rides, seen, now, repo.Tables(), report.Value())
        invariant failure.None?
      {
        Prefixes(done, rows, i);
        failure := ReconcileNext(start, rides, seen, rows[i], now, report);
        seen := seen + [rows[i]];
        if failure.Some? {
          SweepStopsEarly(start, rides, seen, done, rows, i + 1, now, failure.value);
          return;
        }
      }
      Prefixes(done, rows, |rows|);
    }

    /** One sweep: stale payments, then top-ups, then withdrawals, whatever rows those lists hold. */
    method ReconcilePending(rides: map<Id, Ride>, payments: seq<Job>, topups: seq<Job>, withdrawals: seq<Job>, now: nat)
      returns (failure: Option<Error>, report: ReconciliationReport)
      modifies repo
      ensures var s := Sweep(old(repo.Tables()), rides, payments + topups + withdrawals, now);
              if failure.None? then s.Sweeping? && s.books == repo.Tables() && s.report == report.Value()
              else s == SweepRaised(failure.value)
    {
      report := new ReconciliationReport();
      ghost var start := repo.Tables();
      failure := ReconcileRows(start, rides, [], payments, now, report);
      assert [] + payments == payments;
      if failure.Some? {
        SweepPrefixStops(start, rides, payments, topups + withdrawals, now, failure.value);
        assert payments + (topups + withdrawals) == payments + topups + withdrawals;
        return;
      }
      failure := ReconcileRows(start, rides, payments, topups, now, report);
      if failure.Some? {
        SweepPrefixStops(start, rides, payments + topups, withdrawals, now, failure.value);
        return;
      }
      failure := ReconcileRows(start, rides, payments + topups, withdrawals, now, report);
    }

    /** The sweep with its session. */
    method RunReconciliationOnce(rides: map<Id, Ride>, payments: seq<Job>, topups: seq<Job>, withdrawals: seq<Job>,
      now: nat)
      returns (failure: Option<Error>, report: ReconciliationReport)
      modifies repo
      ensures var s := Sweep(old(repo.Tables()), rides, payments + topups + withdrawals, now);
              if failure.None? then s.Sweeping? && s.books == repo.Tables() && s.report == report.Value()
              else s == SweepRaised(failure.value) && repo.Tables() == old(repo.Tables())
    {
      var before := repo.Tables();
      failure, report := ReconcilePending(rides, payments, topups, withdrawals, now);
      if failure.Some? {
        repo.Rollback(before);
      }
    }
  }

  /** The sweep that started at `start` and processed `done` stands at these tables and this report. */
  predicate Reached(start: Books, rides: map<Id, Ride>, done: seq<Job>, now: nat, b: Books, r: Report) {
    var s := Sweep(start, rides, done, now);
    s.Sweeping? && s.books == b && s.report == r
  }

  predicate Stopped(start: Books, rides: map<Id, Ride>, done: seq<Job>, now: nat, error: Error) {
    Sweep(start, rides, done, now) == SweepRaised(error)
  }

  lemma NextRow(start: Books, rides: map<Id, Ride>, done: seq<Job>, job: Job, now: nat, b: Books, r: Report)
    requires Reached(start, rides, done, now, b, r)
    ensures match Reconcile(b, rides, job, now)
            case Counted(after, bucket, reference, _) =>
                Reached(start, rides, done + [job], now, after, Tally(r, bucket, reference))
            case Aborted(e) => Stopped(start, rides, done + [job], now, e)
  {
    assert (done + [job])[..|done|] == done;
  }

  lemma Prefixes(done: seq<Job>, rows: seq<Job>, i: nat)
    requires i <= |rows|
    ensures done + rows[..0] == done && done + rows[..|rows|] == done + rows
    ensures i < |rows| ==> done + rows[..i] + [rows[i]] == done + rows[..i + 1]
  {
    assert rows[..|rows|] == rows;
  }

  lemma SweepStopsEarly(
    start: Books, rides: map<Id, Ride>, seen: seq<Job>, done: seq<Job>, rows: seq<Job>, k: nat, now: nat, error: Error)
    requires k <= |rows| && seen == done + rows[..k] && Stopped(start, rides, seen, now, error)
    ensures Stopped(start, rides, done + rows, now, error)
  {
    SweepPrefixStops(start, rides, seen, rows[k..], now, error);
    assert seen + rows[k..] == done + rows;
  }

  lemma SweepPrefixStops(b: Books, rides: map<Id, Ride>, done: seq<Job>, rest: seq<Job>, now: nat, error: Error)
    requires Stopped(b, rides, done, now, error)
    ensures Stopped(b, rides, done + rest, now, error)
  {
    assert (done + rest)[..|done|] == done;
    SweepStops(b, rides, done + rest, |done|, now);
  }

  /** Once a row raises, the whole sweep raises that error. */
  lemma {:induction false} SweepStops(b: Books, rides: map<Id, Ride>, jobs: seq<Job>, k: nat, now: nat)
    requires k <= |jobs| && Sweep(b, rides, jobs[..k], now).SweepRaised?
    ensures Sweep(b, rides, jobs, now) == Sweep(b, rides, jobs[..k], now)
  {
    if k < |jobs| {
      assert jobs[..|jobs| - 1][..k] == jobs[..k];
      SweepStops(b, rides, jobs[..|jobs| - 1], k, now);
    } else {
      assert jobs[..k] == jobs;
    }
  }
}
