/** What holds after every run of the payment module, stated on the run itself. */
module PaymentTheorems {
  import opened Prelude
  import opened PaymentDomain
  import opened PaymentBooks
  import opened PaymentFlows
  import opened WalletLaws
  import opened WithdrawalLaws
  import opened PaymentRuns
  import opened PaymentTraces

  // ---------------------------------------------------------------- every action is explained by its reports

  ghost predicate Told(b: Books, o: Outcome) {
    o.Done? ==> Explained(b, o.touches, o.books)
  }

  lemma QuietFirst(b: Books, m: Books, o: Outcome)
    requires m.ledger == b.ledger && m.topups == b.topups && m.withdrawals == b.withdrawals && Told(m, o)
    ensures Told(b, o)
  {
    if o.Done? {
      QuietExplained(b, m);
      Compose(b, [], m, o.touches, o.books);
      assert [] + o.touches == o.touches;
    }
  }

  lemma WebhookTold(b: Books, rides: map<Id, Ride>, hook: Webhook, now: nat)
    ensures Told(b, ApplyWebhook(b, rides, hook, now))
  {
    var stored := b.(events := b.events + {hook.eventId});
    if hook.eventId in b.events {
      QuietExplained(b, b);
    } else if hook.payoutId.Some? {
      WebhookPayoutTold(stored, hook, now);
      QuietFirst(b, stored, ApplyWebhook(b, rides, hook, now));
    } else if hook.intentId.Some? && ServiceStatus(hook.status).Some? {
      WebhookIntentTold(stored, rides, hook, ServiceStatus(hook.status).value, now);
      QuietFirst(b, stored, ApplyWebhook(b, rides, hook, now));
    }
  }

  lemma WebhookPayoutTold(b: Books, hook: Webhook, now: nat)
    requires hook.payoutId.Some?
    ensures Told(b, WebhookPayout(b, hook, now))
  {
    forall id, target { MarkExplained(b, id, target, hook.payoutId, hook.status, now); }
  }

  lemma WebhookIntentTold(b: Books, rides: map<Id, Ride>, hook: Webhook, status: PaymentStatus, now: nat)
    requires hook.intentId.Some?
    ensures Told(b, WebhookIntent(b, rides, hook, status, now))
  {
    var paidAt := PaidAt(status.Succeeded?, now);
    var payment := PaymentByIntent(b, hook.intentId.value);
    var topup := TopupByIntent(b, hook.intentId.value);
    var o := WebhookIntent(b, rides, hook, status, now);
    if payment.Some? {
      var id := b.payments[payment.value].id;
      TransactionExplained(b, rides, id, status, hook.status, paidAt, None);
      assert o.Raised? || o == ApplyTransaction(b, rides, id, status, hook.status, paidAt, None);
    } else if topup.Some? {
      var id := b.topups[topup.value].id;
      TopupExplained(b, id, TopupStatusOf(status), hook.status, paidAt, None);
      assert o.Raised? || o == ApplyTopup(b, id, TopupStatusOf(status), hook.status, paidAt, None);
    }
  }

  ghost predicate ToldBySweep(b: Books, s: Swept) {
    s.Counted? ==> Explained(b, s.touches, s.books)
  }

  lemma {:induction false} ReconcileTransactionTold(b: Books, rides: map<Id, Ride>, id: Id, answer: IntentAnswer,
    now: nat)
    ensures ToldBySweep(b, ReconcileTransaction(b, rides, id, answer, now))
  {
    QuietExplained(b, b);
    if answer.IntentFound? && ServiceStatus(answer.intent.status).Some? {
      var status := ServiceStatus(answer.intent.status).value;
      TransactionExplained(b, rides, id, status, answer.intent.status, PaidAt(status.Succeeded?, now),
          Some(answer.intent.nextAction));
    }
  }

  lemma ReconcileTopupTold(b: Books, id: Id, answer: IntentAnswer, now: nat)
    ensures ToldBySweep(b, ReconcileTopup(b, id, answer, now))
  {
    QuietExplained(b, b);
    if answer.IntentFound? && ServiceStatus(answer.intent.status).Some? {
      var status := TopupStatusOf(ServiceStatus(answer.intent.status).value);
      TopupExplained(b, id, status, answer.intent.status, PaidAt(status.Succeeded?, now),
          Some(answer.intent.nextAction));
    }
  }

  lemma ReconcileWithdrawalTold(b: Books, id: Id, answer: PayoutAnswer, now: nat)
    ensures ToldBySweep(b, ReconcileWithdrawal(b, id, answer, now))
  {
    QuietExplained(b, b);
    if answer.PayoutFound? && WithdrawalTarget(answer.payout.status).Some? {
      MarkExplained(b, id, WithdrawalTarget(answer.payout.status).value, answer.payout.id, answer.payout.status, now);
    }
  }

  lemma ReconcileTold(b: Books, rides: map<Id, Ride>, job: Job, now: nat)
    ensures ToldBySweep(b, Reconcile(b, rides, job, now))
  {
    match job
    case PaymentJob(id, answer) => ReconcileTransactionTold(b, rides, id, answer, now);
    case TopupJob(id, answer) => ReconcileTopupTold(b, id, answer, now);
    case WithdrawalJob(id, answer) => ReconcileWithdrawalTold(b, id, answer, now);
  }

  lemma {:induction false} SweepTold(b: Books, rides: map<Id, Ride>, jobs: seq<Job>, now: nat)
    ensures Told(b, SweepOutcome(Sweep(b, rides, jobs, now)))
  {
    if |jobs| == 0 {
      QuietExplained(b, b);
    } else {
      SweepTold(b, rides, jobs[..|jobs| - 1], now);
      var before := Sweep(b, rides, jobs[..|jobs| - 1], now);
      if before.Sweeping? {
        var s := Reconcile(before.books, rides, jobs[|jobs| - 1], now);
        ReconcileTold(before.books, rides, jobs[|jobs| - 1], now);
        if s.Counted? {
          Compose(b, before.touches, before.books, s.touches, s.books);
        }
      }
    }
  }

  lemma CashTold(b: Books, rides: map<Id, Ride>, ride: Id, amount: int, collector: Id, newId: Id, now: nat)
    ensures Told(b, ConfirmCash(b, rides, ride, amount, collector, newId, now))
  {
    var o := ConfirmCash(b, rides, ride, amount, collector, newId, now);
    if o.Done? {
      var existing := PaymentByRide(b, ride);
      var created := Payment(newId, ride, amount, rides[ride].currency, Cash, PaymentStatus.Pending, None, None, "",
          None, None, None, None);
      var saved := if existing.Some? then b else SavePayment(b, created).value;
      var id := if existing.Some? then b.payments[existing.value].id else newId;
      var collected := UpdatePayment(saved, id, (p: Payment) => CollectedInCash(p, collector, amount, now)).value;
      SettleExplained(collected, rides, ride, PaymentStatus.Collected);
      QuietFirst(b, collected, o);
    }
  }

  lemma PrepareTold(b: Books, rides: map<Id, Ride>, ride: Id, payBy: PaymentMethod, answer: NewIntent, newId: Id,
    now: nat)
    ensures Told(b, PreparePayment(b, rides, ride, payBy, answer, newId, now))
  {
    var o := PreparePayment(b, rides, ride, payBy, answer, newId, now);
    if o.Done? {
      QuietExplained(b, o.books);
    }
  }

  lemma TopupRequestTold(b: Books, id: Id, d: Id, amount: int, cash: bool, answer: NewIntent, now: nat)
    ensures Told(b, CreateTopup(b, id, d, amount, cash, answer, now))
  {
    if CreateTopup(b, id, d, amount, cash, answer, now).Done? {
      var intent := answer.intent;
      var status := TopupStatusOf(WalletStatus(intent.status).value);
      var stored := ProviderAmount(intent.amount, amount).value;
      var currency := if intent.currency.Some? then OrWord(intent.currency.value, "XOF") else "XOF";
      NewTopupExplained(b, Topup(id, d, stored, currency, status, intent.id, TopupRef(id),
          OrWord(intent.status, "requires_action"),
                                 intent.nextAction, PaidAt(status.Succeeded?, now)));
    }
  }

  lemma QuoteTold(b: Books, id: Id, d: Id, amount: int, s: WithdrawalSettings, now: nat)
    ensures Told(b, QuoteWithdrawal(b, id, d, amount, s, now))
  {
    var o := QuoteWithdrawal(b, id, d, amount, s, now);
    if o.Done? {
      QuietExplained(b, o.books);
    }
  }

  lemma RequestTold(b: Books, d: Draft, verified: bool, now: nat)
    ensures Told(b, RequestWithdrawal(b, d, verified, now))
  {
    QuietExplained(b, b);
    ReserveExplained(b, d, now);
  }

  lemma PayoutTold(b: Books, id: Id, payout: Payout, now: nat)
    ensures Told(b, ApplyPayout(b, id, payout, now))
  {
    if WithdrawalTarget(payout.status).Some? {
      MarkExplained(b, id, WithdrawalTarget(payout.status).value, payout.id, payout.status, now);
    }
  }

  lemma FinishTold(b: Books, id: Id, answer: NewPayout, now: nat)
    ensures Told(b, FinishPayout(b, id, answer, now))
  {
    match answer
    case PayoutRefused => MarkExplained(b, id, WithdrawalStatus.Failed, None, "rejected", now);
    case PayoutUnavailable =>
    case PayoutCreated(payout) => PayoutTold(b, id, payout, now);
  }

  lemma ActTold(b: Books, t: Timed)
    ensures Told(b, Act(b, t))
  {
    match t.action
    case OpenWallet(d) => QuietExplained(b, EnsureWallet(b, d));
    case TopupRequest(id, d, amount, cash, answer) => TopupRequestTold(b, id, d, amount, cash, answer, t.now);
    case QuoteRequest(id, d, amount, s) => QuoteTold(b, id, d, amount, s, t.now);
    case WithdrawalRequest(draft, verified) => RequestTold(b, draft, verified, t.now);
    case PayoutAnswered(id, answer) => FinishTold(b, id, answer, t.now);
    case PayoutReread(id, payout) => PayoutTold(b, id, payout, t.now);
    case CashConfirmed(rides, ride, amount, collector, id) => CashTold(b, rides, ride, amount, collector, id, t.now);
    case PaymentPrepared(rides, ride, payBy, answer, id) => PrepareTold(b, rides, ride, payBy, answer, id, t.now);
    case WebhookReceived(rides, hook) => WebhookTold(b, rides, hook, t.now);
    case SweepRun(rides, jobs) => SweepTold(b, rides, jobs, t.now);
  }

  lemma {:induction false} RunsAreExplained(b: Books, actions: seq<Timed>)
    ensures Explained(b, Trace(b, actions), Run(b, actions))
  {
    if |actions| == 0 {
      QuietExplained(b, b);
    } else {
      var before := Run(b, actions[..|actions| - 1]);
      var o := Act(before, actions[|actions| - 1]);
      RunsAreExplained(b, actions[..|actions| - 1]);
      ActTold(before, actions[|actions| - 1]);
      if !o.Done? {
        QuietExplained(before, before);
      }
      Compose(b, Trace(b, actions[..|actions| - 1]), before, Applied(o), Committed(before, o));
    }
  }

  // ---------------------------------------------------------------- money

  /** After every run and for every driver: the cached balance is the signed sum of the log, money is
      conserved, and, unless a negative amount was booked, what is reserved or paid out never exceeds
      the credits ever received and only commissions make a balance negative. */
  lemma {:induction false} MoneyLaws(actions: seq<Timed>, d: Id)
    ensures var b := Run(EMPTY_BOOKS, actions);
            && Balance(b, d) == SignedSum(b.ledger, d)
            && Balance(b, d) + ReservedTotal(b, d) + SucceededTotal(b, d) == Credits(b, d) - Commissions(b, d)
            && (NonNegative(b.ledger) ==>
                  ReservedTotal(b, d) + SucceededTotal(b, d) <= Credits(b, d) && Balance(b, d) >= -Commissions(b, d))
  {
    RunsAreSound(actions);
    assert Sums(Run(EMPTY_BOOKS, actions), d);
  }

  // ---------------------------------------------------------------- exactly-once credits

  /** In a sound state two log lines never carry the same top-up's credit. */
  lemma OneCreditPerTopup(b: Books, i: nat, j: nat, topup: Id)
    requires Sound(b) && i < |b.ledger| && j < |b.ledger|
    requires b.ledger[i].key.entryType.TopupCredit? && b.ledger[i].key.reference == TopupRef(topup)
    requires b.ledger[j].key.entryType.TopupCredit? && b.ledger[j].key.reference == TopupRef(topup)
    ensures i == j
  {
    assert CreditOwned(b.topups, b.ledger[i]) && CreditOwned(b.topups, b.ledger[j]);
    var x :| 0 <= x < |b.topups| && b.ledger[i] == TopupEntry(b.topups[x]);
    var y :| 0 <= y < |b.topups| && b.ledger[j] == TopupEntry(b.topups[y]);
    assert b.topups[x].id == b.topups[y].id;
    assert x == y;
    assert b.ledger[i].key == b.ledger[j].key;
  }

  /** A top-up is credited iff some applied report said `succeeded`, at most once, whatever later
      reports say; its stored status is the last report. */
  lemma {:induction false} TopupsCreditedExactlyOnce(actions: seq<Timed>, topup: Id)
    ensures var b := Run(EMPTY_BOOKS, actions); var ts := Trace(EMPTY_BOOKS, actions);
            && (Credited(b.ledger, topup) <==> TopupReport(topup, TopupStatus.Succeeded) in ts)
            && StoredTopupStatus(b, topup) == LastReport(ts, topup)
            && forall i, j | 0 <= i < |b.ledger| && 0 <= j < |b.ledger|
                 && b.ledger[i].key.entryType.TopupCredit? && b.ledger[i].key.reference == TopupRef(topup)
                 && b.ledger[j].key.entryType.TopupCredit? && b.ledger[j].key.reference == TopupRef(topup) :: i == j
  {
    RunsAreExplained(EMPTY_BOOKS, actions);
    RunsAreSound(actions);
    var b := Run(EMPTY_BOOKS, actions);
    forall i, j | 0 <= i < |b.ledger| && 0 <= j < |b.ledger|
      && b.ledger[i].key.entryType.TopupCredit? && b.ledger[i].key.reference == TopupRef(topup)
      && b.ledger[j].key.entryType.TopupCredit? && b.ledger[j].key.reference == TopupRef(topup)
      ensures i == j
    {
      OneCreditPerTopup(b, i, j, topup);
    }
    assert TopupsExplained(EMPTY_BOOKS, Trace(EMPTY_BOOKS, actions), b);
    assert TopupById(EMPTY_BOOKS, topup).None?;
  }

  // ---------------------------------------------------------------- ride settlements

  /** The ride kept its driver and payment method in every report about it. */
  ghost predicate Fixed(ts: seq<Touch>, ride: Id, driver: Option<Id>, payBy: PaymentMethod) {
    forall x | x in ts && x.RideReport? && x.ride.id == ride :: x.ride.driver == driver && x.ride.payBy == payBy
  }

  /** A settlement line exists iff an applied report called for it. */
  lemma SettlementsFollowReports(actions: seq<Timed>, k: Key)
    requires k.reference.RideRef?
    ensures HasEntry(Run(EMPTY_BOOKS, actions).ledger, k) <==> Called(Trace(EMPTY_BOOKS, actions), k)
  {
    RunsAreExplained(EMPTY_BOOKS, actions);
    assert RidesExplained(EMPTY_BOOKS, Trace(EMPTY_BOOKS, actions), Run(EMPTY_BOOKS, actions));
  }

  /** A ride with one driver and one payment method has at most one settlement line in total:
      the commission or the payout, never both, never twice. */
  lemma {:induction false} RideSettledAtMostOnce(actions: seq<Timed>, ride: Id, driver: Option<Id>,
    payBy: PaymentMethod, i: nat, j: nat)
    requires Fixed(Trace(EMPTY_BOOKS, actions), ride, driver, payBy)
    requires var l := Run(EMPTY_BOOKS, actions).ledger;
            i < |l| && j < |l| && l[i].key.reference == RideRef(ride) == l[j].key.reference
    ensures i == j
  {
    var b := Run(EMPTY_BOOKS, actions);
    var ts := Trace(EMPTY_BOOKS, actions);
    RunsAreSound(actions);
    SettlementKey(actions, ride, driver, payBy, i);
    SettlementKey(actions, ride, driver, payBy, j);
    assert b.ledger[i].key == b.ledger[j].key;
  }

  lemma {:induction false} SettlementKey(actions: seq<Timed>, ride: Id, driver: Option<Id>, payBy: PaymentMethod,
    i: nat)
    requires Fixed(Trace(EMPTY_BOOKS, actions), ride, driver, payBy)
    requires var l := Run(EMPTY_BOOKS, actions).ledger; i < |l| && l[i].key.reference == RideRef(ride)
    ensures driver.Some? && Run(EMPTY_BOOKS, actions).ledger[i].key
            == Key(driver.value, if payBy.Cash? then PlatformCommission else RidePayout, RideRef(ride))
  {
    var e := Run(EMPTY_BOOKS, actions).ledger[i];
    assert e in Run(EMPTY_BOOKS, actions).ledger;
    SettlementsFollowReports(actions, e.key);
    var x :| x in Trace(EMPTY_BOOKS, actions) && Calls(x, e.key);
  }

  // ---------------------------------------------------------------- withdrawals

  lemma {:induction false} FoldIsVerdict(reports: seq<WithdrawalStatus>)
    ensures Fold(WithdrawalStatus.Reserved, reports) == Verdict(reports)
  {
    if |reports| > 0 {
      var early, last := reports[..|reports| - 1], reports[|reports| - 1];
      FoldIsVerdict(early);
      FirstFinalOfBoth(early, [last]);
      assert reports == early + [last];
      assert [last][1..] == [];
      NoFinalYet(early);
    }
  }

  lemma {:induction false} NoFinalYet(reports: seq<WithdrawalStatus>)
    ensures FirstFinal(reports).None? ==> forall i | 0 <= i < |reports| :: !Final(reports[i])
    ensures FirstFinal(reports).Some? ==> Final(FirstFinal(reports).value)
  {
    if |reports| > 0 {
      NoFinalYet(reports[1..]);
    }
  }

  lemma {:induction false} FirstFinalOfBoth(xs: seq<WithdrawalStatus>, ys: seq<WithdrawalStatus>)
    ensures FirstFinal(xs + ys) == FirstFinal(xs).Or(FirstFinal(ys))
  {
    if |xs| == 0 {
      assert xs + ys == ys;
    } else {
      FirstFinalOfBoth(xs[1..], ys);
      assert (xs + ys)[1..] == xs[1..] + ys;
    }
  }

  /** The first terminal report fixes the status; later ones, in any number and order, are ignored. */
  lemma LaterReportsIgnored(reports: seq<WithdrawalStatus>, more: seq<WithdrawalStatus>)
    requires FirstFinal(reports).Some?
    ensures Verdict(reports + more) == Verdict(reports) && Terminal(Verdict(reports))
  {
    FirstFinalOfBoth(reports, more);
    NoFinalYet(reports);
  }

  lemma FoundAt(b: Books, i: nat)
    requires UniqueRows(b.withdrawals) && i < |b.withdrawals|
    ensures WithdrawalById(b, b.withdrawals[i].id) == Some(i)
  {
    var k := WithdrawalById(b, b.withdrawals[i].id).value;
    RowsDiffer(b.withdrawals, i, k);
  }

  /** After every run, a withdrawal's status is the verdict of the reports applied to it: webhook, sweep
      and synchronous answers commute once one of them is terminal. Its amount was given back (one
      release line) iff that verdict is a failure, and `failed` is never stored. */
  lemma {:induction false} WithdrawalsFollowVerdict(actions: seq<Timed>, i: nat)
    requires i < |Run(EMPTY_BOOKS, actions).withdrawals|
    ensures var b := Run(EMPTY_BOOKS, actions); var w := b.withdrawals[i];
            && w.status == Verdict(ReportsOn(Trace(EMPTY_BOOKS, actions), w.id)) != WithdrawalStatus.Failed
            && (w.status.Released? <==> WithdrawalEntry(w, WithdrawalReleased, Credit) in b.ledger)
            && (w.status.Succeeded? <==> WithdrawalEntry(w, WithdrawalSucceeded, Debit) in b.ledger)
            && WithdrawalEntry(w, WithdrawalReserved, Debit) in b.ledger
            && UniqueKeys(b.ledger)
  {
    var b := Run(EMPTY_BOOKS, actions);
    var w := b.withdrawals[i];
    RunsAreSound(actions);
    RunsAreExplained(EMPTY_BOOKS, actions);
    FoundAt(b, i);
    assert RowLogged(b.ledger, w);
    assert WithdrawalById(EMPTY_BOOKS, w.id).None?;
    assert StoredWithdrawalStatus(b, w.id)
        == Fold(StoredWithdrawalStatus(EMPTY_BOOKS, w.id), ReportsOn(Trace(EMPTY_BOOKS, actions), w.id));
    FoldIsVerdict(ReportsOn(Trace(EMPTY_BOOKS, actions), w.id));
  }

  /** One report as it arrives: from a webhook or sweep with a payout id, or a refusal without one. */
  datatype Notice = Notice(target: WithdrawalStatus, payout: Option<Id>, word: string, now: nat)

  /** A report that fails is rolled back. */
  function DeliverOne(b: Books, withdrawal: Id, n: Notice): Books {
    var r := MarkWithdrawal(b, withdrawal, n.target, n.payout, n.word, n.now);
    if r.Ok? then r.value else b
  }

  function Deliver(b: Books, withdrawal: Id, notices: seq<Notice>): Books {
    if |notices| == 0 then b
    else DeliverOne(Deliver(b, withdrawal, notices[..|notices| - 1]), withdrawal, notices[|notices| - 1])
  }

  /** What the reports say, leaving out those whose payout id another withdrawal carries. */
  function Heard(b: Books, withdrawal: Id, notices: seq<Notice>): seq<WithdrawalStatus> {
    if |notices| == 0 then []
    else
      var last := notices[|notices| - 1];
      Heard(b, withdrawal, notices[..|notices| - 1]) + if PayoutTaken(b, withdrawal, last.payout) then []
          else [last.target]
  }

  /** Only row `i` differs, and it keeps its money and identity. */
  ghost predicate OnlyRow(b: Books, r: Books, i: nat) {
    && i < |b.withdrawals| && |r.withdrawals| == |b.withdrawals|
    && r.withdrawals == b.withdrawals[i := r.withdrawals[i]] && SameMoney(b.withdrawals[i], r.withdrawals[i])
  }

  lemma SameRivals(b: Books, r: Books, i: nat, payout: Option<Id>)
    requires OnlyRow(b, r, i)
    ensures PayoutTaken(r, b.withdrawals[i].id, payout) <==> PayoutTaken(b, b.withdrawals[i].id, payout)
  {
    var id := b.withdrawals[i].id;
    forall k | 0 <= k < |b.withdrawals| && b.withdrawals[k].id != id ensures r.withdrawals[k] == b.withdrawals[k] {}
    forall k | 0 <= k < |r.withdrawals| && r.withdrawals[k].id != id ensures r.withdrawals[k] == b.withdrawals[k] {}
    if PayoutTaken(b, id, payout) {
      var v :| v in b.withdrawals && v.id != id && v.payoutId.Some? && v.payoutId == payout;
      assert v in r.withdrawals;
    }
    if PayoutTaken(r, id, payout) {
      var v :| v in r.withdrawals && v.id != id && v.payoutId.Some? && v.payoutId == payout;
      assert v in b.withdrawals;
    }
  }

  /** Row `i` stands at `status`, and its driver's balance has the amount back exactly if that is a release. */
  ghost predicate Moved(b: Books, r: Books, i: nat, status: WithdrawalStatus, d: Id) {
    && Sound(r) && OnlyRow(b, r, i) && r.withdrawals[i].status == status
    && Balance(r, d) == Balance(b, d) + if d == b.withdrawals[i].driver && status.Released?
        then b.withdrawals[i].amount else 0
  }

  /** From any reachable state, any sequence of reports on a reserved withdrawal, each with its own payout
      id and time, moves the driver's balance by the amount exactly when the first terminal report that
      could be taken is a failure, and by nothing otherwise; nobody else's balance moves. */
  lemma {:induction false} ReportsMoveMoneyOnce(b: Books, i: nat, notices: seq<Notice>, d: Id)
    requires Sound(b) && i < |b.withdrawals| && b.withdrawals[i].status.Reserved?
    ensures var id := b.withdrawals[i].id;
            Moved(b, Deliver(b, id, notices), i, Verdict(Heard(b, id, notices)), d)
  {
    var id := b.withdrawals[i].id;
    FoldIsVerdict(Heard(b, id, notices));
    if |notices| > 0 {
      var early, last := notices[..|notices| - 1], notices[|notices| - 1];
      ReportsMoveMoneyOnce(b, i, early, d);
      FoldIsVerdict(Heard(b, id, early));
      MovedOn(b, Deliver(b, id, early), i, Verdict(Heard(b, id, early)), last, d);
      HeardOneMore(b, id, notices);
    }
  }

  lemma MovedOn(b: Books, m: Books, i: nat, status: WithdrawalStatus, n: Notice, d: Id)
    requires Moved(b, m, i, status, d)
    ensures var id := b.withdrawals[i].id;
            Moved(b, DeliverOne(m, id, n), i, if PayoutTaken(b, id, n.payout) then status
                else NextStatus(status, n.target), d)
  {
    SameRivals(b, m, i, n.payout);
    ReportMovesMoneyOnce(m, i, n, d);
  }

  lemma HeardOneMore(b: Books, id: Id, notices: seq<Notice>)
    requires |notices| > 0
    ensures var early, last := notices[..|notices| - 1], notices[|notices| - 1];
            Fold(WithdrawalStatus.Reserved, Heard(b, id, notices))
            == if PayoutTaken(b, id, last.payout) then Fold(WithdrawalStatus.Reserved, Heard(b, id, early))
               else NextStatus(Fold(WithdrawalStatus.Reserved, Heard(b, id, early)), last.target)
  {
    var early, last := notices[..|notices| - 1], notices[|notices| - 1];
    FoldOfBoth(WithdrawalStatus.Reserved, Heard(b, id, early), [last.target]);
    FoldOne(Fold(WithdrawalStatus.Reserved, Heard(b, id, early)), last.target);
    assert Heard(b, id, early) + [] == Heard(b, id, early);
  }

  lemma FoldOne(s: WithdrawalStatus, target: WithdrawalStatus)
    ensures Fold(s, [target]) == NextStatus(s, target)
  {
    assert [target][..0] == [] && Fold(s, [target][..0]) == s;
  }

  lemma ReportMovesMoneyOnce(b: Books, i: nat, n: Notice, d: Id)
    requires Sound(b) && i < |b.withdrawals|
    ensures var w := b.withdrawals[i]; var r := DeliverOne(b, w.id, n);
            var after := if PayoutTaken(b, w.id, n.payout) then w.status else NextStatus(w.status, n.target);
            && Sound(r) && OnlyRow(b, r, i) && r.withdrawals[i].status == after
            && Balance(r, d) == Balance(b, d) + if d == w.driver && !w.status.Released? && after.Released?
                then w.amount else 0
  {
    var w := b.withdrawals[i];
    FoundAt(b, i);
    assert RowLogged(b.ledger, w);
    if w.status in OPEN {
      OpenReportMovesMoneyOnce(b, i, n, d);
    }
    if MarkWithdrawal(b, w.id, n.target, n.payout, n.word, n.now).Ok? {
      MarkKeepsSound(b, w.id, n.target, n.payout, n.word, n.now);
    }
  }

  lemma OpenReportMovesMoneyOnce(b: Books, i: nat, n: Notice, d: Id)
    requires Sound(b) && i < |b.withdrawals| && b.withdrawals[i].status in OPEN
    ensures var w := b.withdrawals[i]; var r := DeliverOne(b, w.id, n);
            var after := if PayoutTaken(b, w.id, n.payout) then w.status else NextStatus(w.status, n.target);
            && OnlyRow(b, r, i) && r.withdrawals[i].status == after
            && Balance(r, d) == Balance(b, d) + if d == w.driver && after.Released? then w.amount else 0
  {
    var w := b.withdrawals[i];
    FoundAt(b, i);
    ReportEffect(b, i, n.target, n.payout, n.word, n.now);
    var v := Reported(w, n.target, n.payout, n.word, n.now);
    ReportedRow(w, n);
    RowReplaced(b, i, v, d);
    if PayoutTaken(b, w.id, n.payout) {
      assert b.withdrawals[i := w] == b.withdrawals;
    }
  }

  lemma ReportedRow(w: Withdrawal, n: Notice)
    requires w.status in OPEN
    ensures var v := Reported(w, n.target, n.payout, n.word, n.now);
            SameMoney(w, v) && v.status == NextStatus(w.status, n.target) && v.status != WithdrawalStatus.Failed
  {
  }

  /** Replacing one row, settled or still open. */
  lemma RowReplaced(b: Books, i: nat, v: Withdrawal, d: Id)
    requires i < |b.withdrawals| && v.driver in b.wallets && SameMoney(b.withdrawals[i], v)
    ensures OnlyRow(b, b.(withdrawals := b.withdrawals[i := v]), i)
    ensures OnlyRow(b, Settled(b, i, v), i) && Settled(b, i, v).withdrawals[i] == v
    ensures Balance(Settled(b, i, v), d) == Balance(b, d) + if d == v.driver && !v.status.Succeeded? then v.amount
        else 0
  {
  }

  /** A payout id recorded by a report is how the next webhook finds the same withdrawal. */
  lemma PayoutIdSticks(b: Books, i: nat, target: WithdrawalStatus, payout: Id, word: string, now: nat)
    requires Sound(b) && i < |b.withdrawals| && b.withdrawals[i].status in OPEN
    requires MarkWithdrawal(b, b.withdrawals[i].id, target, Some(payout), word, now).Ok?
    ensures WithdrawalByPayout(MarkWithdrawal(b, b.withdrawals[i].id, target, Some(payout), word, now).value, payout)
        == Some(i)
  {
    var id := b.withdrawals[i].id;
    FoundAt(b, i);
    ReportEffect(b, i, target, Some(payout), word, now);
    MarkKeepsSound(b, id, target, Some(payout), word, now);
    var r := MarkWithdrawal(b, id, target, Some(payout), word, now).value;
    assert r.withdrawals[i].payoutId == Some(payout);
    RowsDiffer(r.withdrawals, WithdrawalByPayout(r, payout).value, i);
  }

  // ---------------------------------------------------------------- quotes

  /** After every run, a quote is consumed iff a withdrawal carries it, at most one does, and that one
      copies the quote's money and was reserved before the quote expired. */
  lemma {:induction false} QuoteUsedOnce(actions: seq<Timed>, quote: Id)
    requires quote in Run(EMPTY_BOOKS, actions).quotes
    ensures var b := Run(EMPTY_BOOKS, actions); var q := b.quotes[quote]; var rows := b.withdrawals;
            && (q.consumedAt.Some? <==> exists i | 0 <= i < |rows| :: rows[i].quoteId == quote)
            && (forall i, j | 0 <= i < |rows| && 0 <= j < |rows| && rows[i].quoteId == quote == rows[j].quoteId ::
                i == j)
            && (forall i | 0 <= i < |rows| && rows[i].quoteId == quote ::
                  && rows[i].driver == q.driver && rows[i].amount == q.amount == rows[i].fees + rows[i].net
                  && rows[i].net == q.net > 0 && rows[i].fees == q.fees && rows[i].reservedAt < q.expiresAt)
  {
    RunsAreSound(actions);
    var b := Run(EMPTY_BOOKS, actions);
    var rows := b.withdrawals;
    assert GoodQuote(b.quotes[quote]);
    if b.quotes[quote].consumedAt.Some? {
      assert Carried(rows, quote);
    }
    forall i, j | 0 <= i < |rows| && 0 <= j < |rows| && rows[i].quoteId == quote == rows[j].quoteId ensures i == j {
      RowsDiffer(rows, i, j);
    }
    forall i | 0 <= i < |rows| && rows[i].quoteId == quote ensures Copies(rows[i], b.quotes[quote]) {}
  }

  // ---------------------------------------------------------------- webhook replay

  function Delivered(t: Timed, o: Outcome): set<Id> {
    if t.action.WebhookReceived? && o.Done? then {t.action.hook.eventId} else {}
  }

  predicate SameEvents(b: Books, o: Outcome) {
    o.Done? ==> o.books.events == b.events
  }

  lemma MarkKeepsEvents(b: Books, id: Id, target: WithdrawalStatus, payout: Option<Id>, word: string, now: nat)
    ensures var r := MarkWithdrawal(b, id, target, payout, word, now); r.Ok? ==> r.value.events == b.events
  {}

  lemma TopupKeepsEvents(b: Books, id: Id, status: TopupStatus, word: string, paidAt: Option<nat>,
    next: Option<Option<Id>>)
    ensures SameEvents(b, ApplyTopup(b, id, status, word, paidAt, next))
  {}

  lemma TransactionKeepsEvents(
    b: Books, rides: map<Id, Ride>, id: Id, status: PaymentStatus, word: string, paidAt: Option<nat>,
        next: Option<Option<Id>>)
    ensures SameEvents(b, ApplyTransaction(b, rides, id, status, word, paidAt, next))
  {}

  lemma ReconcileKeepsEvents(b: Books, rides: map<Id, Ride>, job: Job, now: nat)
    ensures var s := Reconcile(b, rides, job, now); s.Counted? ==> s.books.events == b.events
  {
    match job
    case PaymentJob(id, answer) =>
      forall status, word, paidAt, next { TransactionKeepsEvents(b, rides, id, status, word, paidAt, next); }
    case TopupJob(id, answer) =>
      forall status, word, paidAt, next { TopupKeepsEvents(b, id, status, word, paidAt, next); }
    case WithdrawalJob(id, answer) =>
      if answer.PayoutFound? && WithdrawalTarget(answer.payout.status).Some? {
        MarkKeepsEvents(b, id, WithdrawalTarget(answer.payout.status).value, answer.payout.id, answer.payout.status,
            now);
      }
  }

  lemma {:induction false} SweepKeepsEvents(b: Books, rides: map<Id, Ride>, jobs: seq<Job>, now: nat)
    ensures SameEvents(b, SweepOutcome(Sweep(b, rides, jobs, now)))
  {
    if |jobs| > 0 {
      SweepKeepsEvents(b, rides, jobs[..|jobs| - 1], now);
      var before := Sweep(b, rides, jobs[..|jobs| - 1], now);
      if before.Sweeping? {
        ReconcileKeepsEvents(before.books, rides, jobs[|jobs| - 1], now);
      }
    }
  }

  lemma {:induction false} WebhookAddsItsEvent(b: Books, rides: map<Id, Ride>, hook: Webhook, now: nat)
    ensures var o := ApplyWebhook(b, rides, hook, now); o.Done? ==> o.books.events == b.events + {hook.eventId}
  {
    var stored := b.(events := b.events + {hook.eventId});
    forall id, target { MarkKeepsEvents(stored, id, target, hook.payoutId, hook.status, now); }
    forall id, status, paidAt { TopupKeepsEvents(stored, id, status, hook.status, paidAt, None); }
    forall id, status, paidAt { TransactionKeepsEvents(stored, rides, id, status, hook.status, paidAt, None); }
  }

  lemma RequestsKeepEvents(b: Books, t: Timed)
    requires !t.action.WebhookReceived? && !t.action.SweepRun?
    ensures SameEvents(b, Act(b, t))
  {
    match t.action
    case PayoutAnswered(id, answer) => FinishKeepsEvents(b, id, answer, t.now);
    case PayoutReread(id, payout) => FinishKeepsEvents(b, id, PayoutCreated(payout), t.now);
    case CashConfirmed(rides, ride, amount, collector, id) =>
        CashKeepsEvents(b, rides, ride, amount, collector, id, t.now);
    case PaymentPrepared(rides, ride, payBy, answer, id) =>
        PrepareKeepsEvents(b, rides, ride, payBy, answer, id, t.now);
    case _ =>
  }

  lemma CashKeepsEvents(b: Books, rides: map<Id, Ride>, ride: Id, amount: int, collector: Id, newId: Id, now: nat)
    ensures SameEvents(b, ConfirmCash(b, rides, ride, amount, collector, newId, now))
  {}

  lemma PrepareKeepsEvents(
    b: Books, rides: map<Id, Ride>, ride: Id, payBy: PaymentMethod, answer: NewIntent, newId: Id, now: nat)
    ensures SameEvents(b, PreparePayment(b, rides, ride, payBy, answer, newId, now))
  {}

  lemma FinishKeepsEvents(b: Books, id: Id, answer: NewPayout, now: nat)
    ensures SameEvents(b, FinishPayout(b, id, answer, now))
  {
    forall target, payout, word { MarkKeepsEvents(b, id, target, payout, word, now); }
  }

  /** Only a committed webhook records an event id, and it records its own. */
  lemma EventsOfAct(b: Books, t: Timed)
    ensures Committed(b, Act(b, t)).events == b.events + Delivered(t, Act(b, t))
  {
    match t.action
    case SweepRun(rides, jobs) => SweepKeepsEvents(b, rides, jobs, t.now);
    case WebhookReceived(rides, hook) => WebhookAddsItsEvent(b, rides, hook, t.now);
    case _ => RequestsKeepEvents(b, t);
  }

  /** Step `k` is the one that applied event `e`. */
  ghost predicate AppliedAt(actions: seq<Timed>, k: nat, e: Id)
    requires k < |actions|
  {
    var before := Run(EMPTY_BOOKS, actions[..k]);
    e !in before.events && e in Delivered(actions[k], Act(before, actions[k]))
  }

  lemma PrefixStep(actions: seq<Timed>, k: nat, e: Id)
    requires k < |actions| - 1
    ensures AppliedAt(actions[..|actions| - 1], k, e) <==> AppliedAt(actions, k, e)
  {
    assert actions[..|actions| - 1][..k] == actions[..k];
  }

  lemma {:induction false} RecordedWasApplied(actions: seq<Timed>, e: Id) returns (k: nat)
    requires e in Run(EMPTY_BOOKS, actions).events
    ensures k < |actions| && AppliedAt(actions, k, e)
  {
    var n := |actions| - 1;
    var before := Run(EMPTY_BOOKS, actions[..n]);
    EventsOfAct(before, actions[n]);
    if e in before.events {
      k := RecordedWasApplied(actions[..n], e);
      PrefixStep(actions, k, e);
    } else {
      k := n;
    }
  }

  lemma {:induction false} AppliedIsRecorded(actions: seq<Timed>, k: nat, e: Id)
    requires k < |actions| && AppliedAt(actions, k, e)
    ensures e in Run(EMPTY_BOOKS, actions).events
  {
    EventsOfAct(Run(EMPTY_BOOKS, actions[..k]), actions[k]);
    assert actions[..k + 1][..k] == actions[..k];
    EventsStay(actions, k + 1, e);
  }

  lemma {:induction false} EventsStay(actions: seq<Timed>, k: nat, e: Id)
    requires k <= |actions| && e in Run(EMPTY_BOOKS, actions[..k]).events
    ensures e in Run(EMPTY_BOOKS, actions).events
  {
    if k < |actions| {
      var n := |actions| - 1;
      assert actions[..n][..k] == actions[..k];
      EventsStay(actions[..n], k, e);
      EventsOfAct(Run(EMPTY_BOOKS, actions[..n]), actions[n]);
    } else {
      assert actions[..k] == actions;
    }
  }

  /** In every committed state an event id is recorded iff exactly one step applied it; delivering it
      again, with any content and at any time, changes nothing and is not an error. A rejected
      delivery is not recorded, so it can be delivered again. */
  lemma {:induction false} WebhooksApplyOnce(actions: seq<Timed>, e: Id)
    ensures var b := Run(EMPTY_BOOKS, actions);
            && (e in b.events <==> exists k | 0 <= k < |actions| :: AppliedAt(actions, k, e))
            && (forall j, k | 0 <= j < |actions| && 0 <= k < |actions| && AppliedAt(actions, j, e)
                && AppliedAt(actions, k, e) :: j == k)
            && (forall rides, hook: Webhook, now | hook.eventId == e && e in b.events ::
                ApplyWebhook(b, rides, hook, now) == Done(b, []))
            && (forall rides, hook: Webhook, now | hook.eventId == e && ApplyWebhook(b, rides, hook, now).Raised? ::
                  e !in Committed(b, ApplyWebhook(b, rides, hook, now)).events)
  {
    if e in Run(EMPTY_BOOKS, actions).events {
      var k := RecordedWasApplied(actions, e);
    }
    forall k | 0 <= k < |actions| && AppliedAt(actions, k, e) ensures e in Run(EMPTY_BOOKS, actions).events {
      AppliedIsRecorded(actions, k, e);
    }
    forall j, k | 0 <= j < |actions| && 0 <= k < |actions| && AppliedAt(actions, j, e)
        && AppliedAt(actions, k, e) ensures j == k {
      AppliedBefore(actions, j, k, e);
      AppliedBefore(actions, k, j, e);
    }
  }

  lemma AppliedBefore(actions: seq<Timed>, j: nat, k: nat, e: Id)
    requires j < |actions| && k < |actions| && AppliedAt(actions, j, e)
    ensures j < k ==> !AppliedAt(actions, k, e)
  {
    if j < k {
      var before := Run(EMPTY_BOOKS, actions[..j]);
      EventsOfAct(before, actions[j]);
      assert actions[..j + 1][..j] == actions[..j];
      assert e in Run(EMPTY_BOOKS, actions[..j + 1]).events;
      assert actions[..k][..j + 1] == actions[..j + 1];
      EventsStay(actions[..k], j + 1, e);
    }
  }
}
