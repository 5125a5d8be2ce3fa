/** No overdraft: what a balance can never fall below, exactly which booked lines take it below what
    commissions explain, and conditions on the inputs alone under which none does. */
module PaymentAmounts {
  import opened Prelude
  import opened PaymentDomain
  import opened PaymentBooks
  import opened PaymentFlows
  import opened WalletLaws
  import opened PaymentRuns
  import opened PaymentTheorems

  /** Whatever amounts come in: a balance never falls below what the lines outside withdrawals took from
      it, so no withdrawal, at any time, pays out money the driver did not have. */
  lemma {:induction false} WithdrawalsNeverOverdraw(actions: seq<Timed>, d: Id)
    ensures var b := Run(EMPTY_BOOKS, actions); Balance(b, d) >= 0 - Owed(b.ledger, d)
  {
    RunsAreSound(actions);
    assert Sums(Run(EMPTY_BOOKS, actions), d);
  }

  // ---------------------------------------------------------------- the log is only appended to

  ghost predicate LogKept(b: Books, o: Outcome) {
    o.Done? ==> b.ledger <= o.books.ledger
  }

  predicate NotNegative(amount: Option<int>) {
    amount.Some? ==> amount.value >= 0
  }

  ghost predicate FairRides(rides: map<Id, Ride>) {
    forall r | r in rides :: NotNegative(rides[r].commission) && NotNegative(rides[r].payout)
  }

  /** Rides are priced without negative shares, and DiddiPay never answers a new top-up with a negative amount. */
  ghost predicate Fair(a: Action) {
    match a
    case TopupRequest(_, _, _, _, answer) =>
      answer.IntentCreated? && answer.intent.amount.Number? ==> answer.intent.amount.n >= 0
    case CashConfirmed(rides, _, _, _, _) => FairRides(rides)
    case WebhookReceived(rides, _) => FairRides(rides)
    case SweepRun(rides, _) => FairRides(rides)
    case _ => true
  }

  ghost predicate AllFair(actions: seq<Timed>) {
    forall i | 0 <= i < |actions| :: Fair(actions[i].action)
  }

  ghost predicate Priced(b: Books) {
    NonNegative(b.ledger) && forall i | 0 <= i < |b.topups| :: b.topups[i].amount >= 0
  }

  /** The log grows, and with fair amounts every booked and stored amount stays non-negative. */
  ghost predicate Kept(b: Books, o: Outcome, fair: bool) {
    LogKept(b, o) && (fair && Priced(b) && o.Done? ==> Priced(o.books))
  }

  lemma RecordKept(b: Books, e: Entry)
    ensures b.ledger <= RecordOnce(b, e).ledger
    ensures Priced(b) && e.amount >= 0 ==> Priced(RecordOnce(b, e))
  {
  }

  lemma TopupKept(b: Books, id: Id, status: TopupStatus, word: string, paidAt: Option<nat>, next: Option<Option<Id>>)
    ensures Kept(b, ApplyTopup(b, id, status, word, paidAt, next), true)
  {
    if TopupById(b, id).Some? {
      var marked := MarkTopup(b, id, status, word, paidAt, next).value;
      assert Priced(b) ==> Priced(marked);
      RecordKept(marked, TopupEntry(marked.topups[TopupById(b, id).value]));
    }
  }

  lemma SettleKept(b: Books, rides: map<Id, Ride>, ride: Id, status: PaymentStatus)
    ensures Kept(b, SettleRide(b, rides, ride, status), FairRides(rides))
  {
    if ride in rides && SettlementEntry(rides[ride], status).Some? {
      RecordKept(b, SettlementEntry(rides[ride], status).value);
    }
  }

  lemma TransactionKept(
    b: Books, rides: map<Id, Ride>, id: Id, status: PaymentStatus, word: string, paidAt: Option<nat>,
        next: Option<Option<Id>>)
    ensures Kept(b, ApplyTransaction(b, rides, id, status, word, paidAt, next), FairRides(rides))
  {
    if PaymentById(b, id).Some? {
      var i := PaymentById(b, id).value;
      var p := MarkedExternal(b.payments[i], status, word, paidAt, next);
      SettleKept(b.(payments := b.payments[i := p]), rides, p.rideId, status);
    }
  }

  lemma MarkKept(b: Books, id: Id, target: WithdrawalStatus, payout: Option<Id>, word: string, now: nat)
    ensures Kept(b, Lift(MarkWithdrawal(b, id, target, payout, word, now), []), true)
  {
  }

  lemma {:induction false} WebhookKept(b: Books, rides: map<Id, Ride>, hook: Webhook, now: nat)
    ensures Kept(b, ApplyWebhook(b, rides, hook, now), FairRides(rides))
  {
    var stored := b.(events := b.events + {hook.eventId});
    assert Priced(b) ==> Priced(stored);
    if hook.eventId !in b.events && hook.payoutId.Some? {
      WebhookPayoutKept(stored, hook, now);
    } else if hook.eventId !in b.events && hook.intentId.Some? && ServiceStatus(hook.status).Some? {
      WebhookIntentKept(stored, rides, hook, ServiceStatus(hook.status).value, now);
    }
  }

  lemma WebhookPayoutKept(b: Books, hook: Webhook, now: nat)
    requires hook.payoutId.Some?
    ensures Kept(b, WebhookPayout(b, hook, now), true)
  {
    forall id, target { MarkKept(b, id, target, hook.payoutId, hook.status, now); }
  }

  lemma WebhookIntentKept(b: Books, rides: map<Id, Ride>, hook: Webhook, status: PaymentStatus, now: nat)
    requires hook.intentId.Some?
    ensures Kept(b, WebhookIntent(b, rides, hook, status, now), FairRides(rides))
  {
    forall id { TopupKept(b, id, TopupStatusOf(status), hook.status, PaidAt(status.Succeeded?, now), None); }
    forall id { TransactionKept(b, rides, id, status, hook.status, PaidAt(status.Succeeded?, now), None); }
  }

  ghost predicate SweptKept(b: Books, s: Swept, fair: bool) {
    s.Counted? ==> b.ledger <= s.books.ledger && (fair && Priced(b) ==> Priced(s.books))
  }

  lemma ReconcileTransactionKept(b: Books, rides: map<Id, Ride>, id: Id, answer: IntentAnswer, now: nat)
    ensures SweptKept(b, ReconcileTransaction(b, rides, id, answer, now), FairRides(rides))
  {
    if answer.IntentFound? && ServiceStatus(answer.intent.status).Some? {
      var status := ServiceStatus(answer.intent.status).value;
      TransactionKept(b, rides, id, status, answer.intent.status, PaidAt(status.Succeeded?, now),
          Some(answer.intent.nextAction));
    }
  }

  lemma ReconcileTopupKept(b: Books, id: Id, answer: IntentAnswer, now: nat)
    ensures SweptKept(b, ReconcileTopup(b, id, answer, now), true)
  {
    if answer.IntentFound? && ServiceStatus(answer.intent.status).Some? {
      var status := TopupStatusOf(ServiceStatus(answer.intent.status).value);
      TopupKept(b, id, status, answer.intent.status, PaidAt(status.Succeeded?, now), Some(answer.intent.nextAction));
    }
  }

  lemma ReconcileWithdrawalKept(b: Books, id: Id, answer: PayoutAnswer, now: nat)
    ensures SweptKept(b, ReconcileWithdrawal(b, id, answer, now), true)
  {
    if answer.PayoutFound? && WithdrawalTarget(answer.payout.status).Some? {
      MarkKept(b, id, WithdrawalTarget(answer.payout.status).value, answer.payout.id, answer.payout.status, now);
    }
  }

  lemma ReconcileKept(b: Books, rides: map<Id, Ride>, job: Job, now: nat)
    ensures SweptKept(b, Reconcile(b, rides, job, now), FairRides(rides))
  {
    match job
    case PaymentJob(id, answer) => ReconcileTransactionKept(b, rides, id, answer, now);
    case TopupJob(id, answer) => ReconcileTopupKept(b, id, answer, now);
    case WithdrawalJob(id, answer) => ReconcileWithdrawalKept(b, id, answer, now);
  }

  lemma {:induction false} SweepKept(b: Books, rides: map<Id, Ride>, jobs: seq<Job>, now: nat)
    ensures Kept(b, SweepOutcome(Sweep(b, rides, jobs, now)), FairRides(rides))
  {
    if |jobs| > 0 {
      SweepKept(b, rides, jobs[..|jobs| - 1], now);
      var before := Sweep(b, rides, jobs[..|jobs| - 1], now);
      if before.Sweeping? {
        ReconcileKept(before.books, rides, jobs[|jobs| - 1], now);
      }
    }
  }

  lemma CashKept(b: Books, rides: map<Id, Ride>, ride: Id, amount: int, collector: Id, newId: Id, now: nat)
    ensures Kept(b, ConfirmCash(b, rides, ride, amount, collector, newId, now), FairRides(rides))
  {
    forall m: Books { SettleKept(m, rides, ride, PaymentStatus.Collected); }
  }

  lemma TopupRequestKept(b: Books, id: Id, d: Id, amount: int, cash: bool, answer: NewIntent, now: nat)
    ensures Kept(b, CreateTopup(b, id, d, amount, cash, answer, now), Fair(TopupRequest(id, d, amount, cash, answer)))
  {
    var o := CreateTopup(b, id, d, amount, cash, answer, now);
    if o.Done? {
      var t := o.books.topups[|b.topups|];
      RecordKept(b.(topups := b.topups + [t]), TopupEntry(t));
    }
  }

  lemma FinishKept(b: Books, id: Id, answer: NewPayout, now: nat)
    ensures Kept(b, FinishPayout(b, id, answer, now), true)
  {
    forall target, payout, word { MarkKept(b, id, target, payout, word, now); }
  }

  lemma RequestKept(b: Books, d: Draft, verified: bool, now: nat)
    ensures Kept(b, RequestWithdrawal(b, d, verified, now), true)
  {
  }

  lemma PrepareKept(
    b: Books, rides: map<Id, Ride>, ride: Id, payBy: PaymentMethod, answer: NewIntent, newId: Id, now: nat)
    ensures Kept(b, PreparePayment(b, rides, ride, payBy, answer, newId, now), true)
  {
  }

  lemma ActKept(b: Books, t: Timed)
    ensures Kept(b, Act(b, t), Fair(t.action))
  {
    match t.action
    case TopupRequest(id, d, amount, cash, answer) => TopupRequestKept(b, id, d, amount, cash, answer, t.now);
    case WebhookReceived(rides, hook) => WebhookKept(b, rides, hook, t.now);
    case SweepRun(rides, jobs) => SweepKept(b, rides, jobs, t.now);
    case CashConfirmed(rides, ride, amount, collector, id) => CashKept(b, rides, ride, amount, collector, id, t.now);
    case PayoutAnswered(id, answer) => FinishKept(b, id, answer, t.now);
    case PayoutReread(id, payout) => FinishKept(b, id, PayoutCreated(payout), t.now);
    case WithdrawalRequest(draft, verified) => RequestKept(b, draft, verified, t.now);
    case PaymentPrepared(rides, ride, payBy, answer, id) => PrepareKept(b, rides, ride, payBy, answer, id, t.now);
    case _ =>
  }

  // ---------------------------------------------------------------- what moves a driver's margin

  /** How far the balance is above what commissions alone explain. */
  function Margin(b: Books, d: Id): int {
    Balance(b, d) + Commissions(b, d)
  }

  ghost predicate Solvent(b: Books, d: Id) {
    Balance(b, d) >= -Commissions(b, d)
  }

  /** What one line does to the margin: a commission lowers the balance and explains it at once, a success
      line moves nothing. */
  function Push(e: Entry, d: Id): int {
    if e.key.driver != d then 0
    else
      match e.key.entryType
      case TopupCredit => e.amount
      case RidePayout => e.amount
      case WithdrawalReleased => e.amount
      case WithdrawalReserved => -e.amount
      case _ => 0
  }

  function PushSum(lines: seq<Entry>, d: Id): int {
    if |lines| == 0 then 0 else PushSum(lines[..|lines| - 1], d) + Push(lines[|lines| - 1], d)
  }

  lemma {:induction false} PushesAddUp(lines: seq<Entry>, d: Id)
    requires KnownLines(lines)
    ensures PushSum(lines, d) == SignedSum(lines, d) + TypeSum(lines, d, COMMISSION_TYPES)
  {
    if |lines| > 0 {
      var n := |lines| - 1;
      PushesAddUp(lines[..n], d);
      assert KnownLine(lines[n]);
    }
  }

  lemma {:induction false} PushesSplit(early: seq<Entry>, late: seq<Entry>, d: Id)
    ensures PushSum(early + late, d) == PushSum(early, d) + PushSum(late, d)
  {
    if |late| == 0 {
      assert early + late == early;
    } else {
      PushesSplit(early, late[..|late| - 1], d);
      assert (early + late)[..|early + late| - 1] == early + late[..|late| - 1];
    }
  }

  lemma MarginMoves(b: Books, r: Books, d: Id)
    requires Sound(b) && Sound(r) && b.ledger <= r.ledger
    ensures Margin(r, d) == Margin(b, d) + PushSum(r.ledger[|b.ledger|..], d)
  {
    assert Sums(b, d) && Sums(r, d);
    PushesAddUp(b.ledger, d);
    PushesAddUp(r.ledger, d);
    PushesSplit(b.ledger, r.ledger[|b.ledger|..], d);
    assert b.ledger + r.ledger[|b.ledger|..] == r.ledger;
  }

  /** Any action, sweeps included, moves a driver's margin by exactly the lines it books, so it leaves the
      driver solvent exactly when those lines do not take more than the margin there was. */
  lemma {:induction false} SolventAfterExactlyWhen(actions: seq<Timed>, t: Timed, d: Id)
    ensures var b := Run(EMPTY_BOOKS, actions); var r := Committed(b, Act(b, t));
            && b.ledger <= r.ledger
            && Margin(r, d) == Margin(b, d) + PushSum(r.ledger[|b.ledger|..], d)
            && (Solvent(r, d) <==> Margin(b, d) + PushSum(r.ledger[|b.ledger|..], d) >= 0)
  {
    var b := Run(EMPTY_BOOKS, actions);
    RunsAreSound(actions);
    ActKeepsSound(b, t);
    ActKept(b, t);
    MarginMoves(b, Committed(b, Act(b, t)), d);
  }

  /** The two lines that can break solvency: a credit so negative that it eats the margin, and a
      reservation beyond it. */
  predicate Breaks(b: Books, e: Entry, d: Id) {
    e.key.driver == d &&
    match e.key.entryType
    case TopupCredit => e.amount < -Margin(b, d)
    case RidePayout => e.amount < -Margin(b, d)
    case WithdrawalReserved => e.amount > Margin(b, d)
    case _ => false
  }

  lemma {:induction false} LineBreaksSolvencyExactlyWhen(actions: seq<Timed>, t: Timed, d: Id, e: Entry)
    requires var b := Run(EMPTY_BOOKS, actions); Committed(b, Act(b, t)).ledger == b.ledger + [e]
    requires Solvent(Run(EMPTY_BOOKS, actions), d)
    ensures var b := Run(EMPTY_BOOKS, actions); Solvent(Committed(b, Act(b, t)), d) <==> !Breaks(b, e, d)
  {
    var b := Run(EMPTY_BOOKS, actions);
    var r := Committed(b, Act(b, t));
    SolventAfterExactlyWhen(actions, t, d);
    assert r.ledger[|b.ledger|..] == [e];
    assert [e][..0] == [] && PushSum([e], d) == PushSum([e][..0], d) + Push(e, d);
    RunsAreSound(actions);
    ActKeepsSound(b, t);
    assert e in r.ledger && LineOwned(r.withdrawals, e);
  }

  /** A reservation is never beyond the balance, so it can only break solvency while a driver's
      commissions are below zero. */
  lemma ReservationBreaksOnlyNegativeCommissions(b: Books, draft: Draft, verified: bool, now: nat, e: Entry)
    requires Committed(b, RequestWithdrawal(b, draft, verified, now)).ledger == b.ledger + [e]
    ensures e.key.driver == draft.driver && e.key.entryType.WithdrawalReserved? && e.amount <= Balance(b, draft.driver)
    ensures Breaks(b, e, draft.driver) ==> Commissions(b, draft.driver) < 0
  {
    var r := Committed(b, RequestWithdrawal(b, draft, verified, now));
    assert r.ledger[|b.ledger|] == e;
  }

  /** In every reachable state: solvent exactly when what is reserved or paid out was credited. */
  lemma SolventExactlyWhenCovered(actions: seq<Timed>, d: Id)
    ensures var b := Run(EMPTY_BOOKS, actions);
            Solvent(b, d) <==> ReservedTotal(b, d) + SucceededTotal(b, d) <= Credits(b, d)
  {
    MoneyLaws(actions, d);
  }

  // ---------------------------------------------------------------- conditions on the inputs alone

  lemma {:induction false} FairRunsArePriced(actions: seq<Timed>)
    requires AllFair(actions)
    ensures Priced(Run(EMPTY_BOOKS, actions))
  {
    if |actions| > 0 {
      FairRunsArePriced(actions[..|actions| - 1]);
      ActKept(Run(EMPTY_BOOKS, actions[..|actions| - 1]), actions[|actions| - 1]);
    }
  }

  /** A corollary on inputs: when no negative amount comes in, every driver stays solvent. */
  lemma {:induction false} NoOverdraft(actions: seq<Timed>, d: Id)
    requires AllFair(actions)
    ensures var b := Run(EMPTY_BOOKS, actions);
            Solvent(b, d) && ReservedTotal(b, d) + SucceededTotal(b, d) <= Credits(b, d)
  {
    FairRunsArePriced(actions);
    MoneyLaws(actions, d);
  }

  /** An input that breaks solvency: the stored amount of a top-up is the provider's, sign included. */
  lemma NegativeTopupOverdraws(topup: Id, driver: Id, asked: int, intent: Intent, now: nat)
    requires asked > 0 && intent.id.Some? && intent.amount.Number? && intent.amount.n < 0 && intent.status
        == "succeeded"
    ensures var t := Timed(TopupRequest(topup, driver, asked, false, IntentCreated(intent)), now);
            var b := Run(EMPTY_BOOKS, [t]);
            Balance(b, driver) == intent.amount.n && Commissions(b, driver) == 0 && !Solvent(b, driver)
  {
    var t := Timed(TopupRequest(topup, driver, asked, false, IntentCreated(intent)), now);
    assert [t][..0] == [];
    assert Run(EMPTY_BOOKS, [t][..0]) == EMPTY_BOOKS;
    var b := Run(EMPTY_BOOKS, [t]);
    assert WalletStatus("succeeded") == Some(PaymentStatus.Succeeded);
    assert b == Committed(EMPTY_BOOKS, Act(EMPTY_BOOKS, t));
    assert b.topups[0].amount == intent.amount.n;
    assert b.ledger == [TopupEntry(b.topups[0])];
    assert TypeSum(b.ledger[..0], driver, COMMISSION_TYPES) == 0;
  }

  // ---------------------------------------------------------------- the plain sum of the log

  /** Every confirmed line counted, success lines included. */
  function PlainSum(lines: seq<Entry>, d: Id): int {
    if |lines| == 0 then 0
    else PlainSum(lines[..|lines| - 1], d) + if lines[|lines| - 1].key.driver == d then Delta(lines[|lines| - 1]) else 0
  }

  lemma {:induction false} PlainSumSplits(lines: seq<Entry>, d: Id)
    requires KnownLines(lines)
    ensures PlainSum(lines, d) == SignedSum(lines, d) - TypeSum(lines, d, PAID_TYPES)
  {
    if |lines| > 0 {
      PlainSumSplits(lines[..|lines| - 1], d);
      assert KnownLine(lines[|lines| - 1]);
    }
  }

  /** "Balance = sum of all entries" misses by exactly what was paid out, which the success lines take off
      a second time; so it holds exactly for drivers never paid out anything. */
  lemma PlainSumMissesPaidOut(actions: seq<Timed>, d: Id)
    ensures var b := Run(EMPTY_BOOKS, actions);
            && PlainSum(b.ledger, d) == Balance(b, d) - SucceededTotal(b, d)
            && (PlainSum(b.ledger, d) == Balance(b, d) <==> SucceededTotal(b, d) == 0)
  {
    RunsAreSound(actions);
    assert Sums(Run(EMPTY_BOOKS, actions), d);
    PlainSumSplits(Run(EMPTY_BOOKS, actions).ledger, d);
  }
}
