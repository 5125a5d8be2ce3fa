/** What each request, webhook and sweep row does to a driver's margin (balance plus commissions), read off
    the request and the books before it, and so exactly which of them leave a driver insolvent. */
module Solvency {
  import opened Prelude
  import opened PaymentDomain
  import opened PaymentBooks
  import opened PaymentFlows
  import opened WalletLaws
  import opened WithdrawalLaws
  import opened PaymentRuns
  import opened PaymentTheorems
  import opened PaymentAmounts
  import opened PaymentEffects
  import opened PaymentSafety

  // ---------------------------------------------------------------- what one booking moves

  /** A credit or commission to be recorded once. */
  function EntryMove(b: Books, e: Entry, d: Id): int {
    if HasEntry(b.ledger, e.key) then 0 else Push(e, d)
  }

  function TopupMove(b: Books, t: Topup, status: TopupStatus, d: Id): int {
    if status.Succeeded? then EntryMove(b, TopupEntry(t), d) else 0
  }

  function RideMove(b: Books, rides: map<Id, Ride>, ride: Id, status: PaymentStatus, d: Id): int {
    if ride in rides && SettlementEntry(rides[ride], status).Some?
    then EntryMove(b, SettlementEntry(rides[ride], status).value, d)
    else 0
  }

  /** A report gives an open withdrawal's amount back when it is a failure and its payout id is free. */
  function ReportMove(b: Books, w: Withdrawal, target: WithdrawalStatus, payout: Option<Id>, d: Id): int {
    if w.driver == d && w.status in OPEN && target in {WithdrawalStatus.Failed, WithdrawalStatus.Released}
       && !PayoutTaken(b, w.id, payout)
    then w.amount
    else 0
  }

  lemma RecordMargin(b: Books, e: Entry, d: Id)
    requires ServiceEntry(e)
    ensures Margin(RecordOnce(b, e), d) == Margin(b, d) + EntryMove(b, e, d)
  {
    if !HasEntry(b.ledger, e.key) {
      LogGrows(b.ledger, e, d, COMMISSION_TYPES);
      BalanceFollowsLine(b, e, d);
    }
  }

  lemma SettleMargin(b: Books, rides: map<Id, Ride>, ride: Id, status: PaymentStatus, d: Id)
    ensures Margin(Committed(b, SettleRide(b, rides, ride, status)), d) == Margin(b, d)
        + RideMove(b, rides, ride, status, d)
  {
    if ride in rides && SettlementEntry(rides[ride], status).Some? {
      RecordMargin(b, SettlementEntry(rides[ride], status).value, d);
    }
  }

  lemma TransactionMargin(
    b: Books, rides: map<Id, Ride>, i: nat, status: PaymentStatus, word: string, paidAt: Option<nat>,
    next: Option<Option<Id>>, d: Id)
    requires i < |b.payments| && PaymentById(b, b.payments[i].id) == Some(i)
    ensures var p := b.payments[i]; var o := ApplyTransaction(b, rides, p.id, status, word, paidAt, next);
            o.Done? && Margin(o.books, d) == Margin(b, d) + RideMove(b, rides, p.rideId, status, d)
  {
    var p := MarkedExternal(b.payments[i], status, word, paidAt, next);
    SettleMargin(b.(payments := b.payments[i := p]), rides, p.rideId, status, d);
  }

  lemma TopupMargin(
    b: Books, i: nat, status: TopupStatus, word: string, paidAt: Option<nat>, next: Option<Option<Id>>, d: Id)
    requires i < |b.topups| && TopupById(b, b.topups[i].id) == Some(i)
    ensures var t := b.topups[i]; var o := ApplyTopup(b, t.id, status, word, paidAt, next);
            o.Done? && Margin(o.books, d) == Margin(b, d) + TopupMove(b, t, status, d)
  {
    var marked := MarkTopup(b, b.topups[i].id, status, word, paidAt, next).value;
    RecordMargin(marked, TopupEntry(marked.topups[i]), d);
  }

  lemma ReportMargin(b: Books, i: nat, target: WithdrawalStatus, payout: Option<Id>, word: string, now: nat, d: Id)
    requires Sound(b) && i < |b.withdrawals|
    ensures var w := b.withdrawals[i];
            Margin(OrSame(b, MarkWithdrawal(b, w.id, target, payout, word, now)), d)
            == Margin(b, d) + ReportMove(b, w, target, payout, d)
  {
    FoundAt(b, i);
    assert RowLogged(b.ledger, b.withdrawals[i]);
    if b.withdrawals[i].status in OPEN {
      OpenReportMargin(b, i, target, payout, word, now, d);
    }
  }

  lemma OpenReportMargin(b: Books, i: nat, target: WithdrawalStatus, payout: Option<Id>, word: string, now: nat, d: Id)
    requires Sound(b) && i < |b.withdrawals| && b.withdrawals[i].status in OPEN
    ensures var w := b.withdrawals[i];
            Margin(OrSame(b, MarkWithdrawal(b, w.id, target, payout, word, now)), d)
            == Margin(b, d) + ReportMove(b, w, target, payout, d)
  {
    var w := b.withdrawals[i];
    var v := Reported(w, target, payout, word, now);
    FoundAt(b, i);
    ReportEffect(b, i, target, payout, word, now);
    if Terminal(v.status) {
      SettledMargin(b, i, v, d);
    }
  }

  lemma SettledMargin(b: Books, i: nat, v: Withdrawal, d: Id)
    requires Settles(b, i, v)
    ensures Margin(Settled(b, i, v), d) == Margin(b, d) + if d == v.driver && v.status.Released? then v.amount else 0
  {
    LogGrows(b.ledger, FinalLine(v), d, COMMISSION_TYPES);
  }

  // ---------------------------------------------------------------- what one request moves

  predicate Matches(hook: Webhook, amount: int, currency: string, reference: Option<Reference>) {
    AmountField(hook.amount) == Some(amount) && hook.currency == Some(currency) && hook.reference == reference
  }

  /** The row a payout webhook is about. */
  function Addressed(b: Books, hook: Webhook): Option<nat>
    requires hook.payoutId.Some?
  {
    var byPayout := WithdrawalByPayout(b, hook.payoutId.value);
    if byPayout.None? && hook.reference.Some? then WithdrawalByReference(b, hook.reference.value) else byPayout
  }

  function PayoutHookMove(b: Books, hook: Webhook, d: Id): int
    requires hook.payoutId.Some?
  {
    match Addressed(b, hook)
    case None => 0
    case Some(i) =>
      var w := b.withdrawals[i];
      if hook.reference == Some(w.reference) && WithdrawalTarget(hook.status).Some?
      then ReportMove(b, w, WithdrawalTarget(hook.status).value, hook.payoutId, d)
      else 0
  }

  function IntentHookMove(b: Books, rides: map<Id, Ride>, hook: Webhook, status: PaymentStatus, d: Id): int
    requires hook.intentId.Some?
  {
    match PaymentByIntent(b, hook.intentId.value)
    case Some(i) =>
      var p := b.payments[i];
      if Matches(hook, p.amount, p.currency, p.reference) then RideMove(b, rides, p.rideId, status, d) else 0
    case None =>
      match TopupByIntent(b, hook.intentId.value)
      case None => 0
      case Some(i) =>
        var t := b.topups[i];
        if Matches(hook, t.amount, t.currency, Some(t.reference)) then TopupMove(b, t, TopupStatusOf(status), d) else 0
  }

  function HookMove(b: Books, rides: map<Id, Ride>, hook: Webhook, d: Id): int {
    if hook.eventId in b.events then 0
    else if hook.payoutId.Some? then PayoutHookMove(b, hook, d)
    else if hook.intentId.None? || ServiceStatus(hook.status).None? then 0
    else IntentHookMove(b, rides, hook, ServiceStatus(hook.status).value, d)
  }

  /** A new top-up moves money when it is answered as succeeded, with a readable amount, under ids no
      other top-up has. */
  function TopupRequestMove(b: Books, id: Id, driver: Id, amount: int, cash: bool, answer: NewIntent, d: Id): int {
    if d == driver && amount > 0 && !cash && answer.IntentCreated? && answer.intent.id.Some?
       && WalletStatus(answer.intent.status) == Some(PaymentStatus.Succeeded)
       && ProviderAmount(answer.intent.amount, amount).Some?
       && forall t | t in b.topups :: t.id != id && t.intentId != answer.intent.id
    then ProviderAmount(answer.intent.amount, amount).value
    else 0
  }

  /** A request takes its quote's amount when the quote is the driver's, unused, unexpired and covered. */
  function RequestMove(b: Books, draft: Draft, verified: bool, now: nat, d: Id): int {
    if d == draft.driver && verified && draft.quoteId in b.quotes && FreshDraft(b, draft)
       && var q := b.quotes[draft.quoteId];
          q.driver == draft.driver && q.consumedAt.None? && now < q.expiresAt && q.amount <= Balance(b, draft.driver)
    then 0 - b.quotes[draft.quoteId].amount
    else 0
  }

  function PayoutMove(b: Books, id: Id, payout: Payout, d: Id): int {
    match WithdrawalById(b, id)
    case None => 0
    case Some(i) =>
      var w := b.withdrawals[i];
      if AmountField(payout.amount) == Some(w.net) && payout.currency == Some(w.currency)
         && payout.reference == Some(w.reference) && payout.id.Some? && WithdrawalTarget(payout.status).Some?
      then ReportMove(b, w, WithdrawalTarget(payout.status).value, payout.id, d)
      else 0
  }

  function AnswerMove(b: Books, id: Id, answer: NewPayout, d: Id): int {
    match answer
    case PayoutUnavailable => 0
    case PayoutCreated(payout) => PayoutMove(b, id, payout, d)
    case PayoutRefused =>
      match WithdrawalById(b, id)
      case None => 0
      case Some(i) => ReportMove(b, b.withdrawals[i], WithdrawalStatus.Failed, None, d)
  }

  lemma PayoutHookMargin(b: Books, hook: Webhook, now: nat, d: Id)
    requires Sound(b) && hook.payoutId.Some?
    ensures Margin(Committed(b, WebhookPayout(b, hook, now)), d) == Margin(b, d) + PayoutHookMove(b, hook, d)
  {
    if Addressed(b, hook).Some? && WithdrawalTarget(hook.status).Some? {
      ReportMargin(b, Addressed(b, hook).value, WithdrawalTarget(hook.status).value, hook.payoutId, hook.status, now,
          d);
    }
  }

  lemma RideHookMargin(
    b: Books, rides: map<Id, Ride>, hook: Webhook, status: PaymentStatus, now: nat, i: nat, d: Id)
    requires hook.intentId.Some? && PaymentByIntent(b, hook.intentId.value) == Some(i)
    requires PaymentById(b, b.payments[i].id) == Some(i)
    ensures Margin(Committed(b, WebhookIntent(b, rides, hook, status, now)), d)
         == Margin(b, d) + IntentHookMove(b, rides, hook, status, d)
  {
    TransactionMargin(b, rides, i, status, hook.status, PaidAt(status.Succeeded?, now), None, d);
  }

  lemma TopupHookMargin(
    b: Books, rides: map<Id, Ride>, hook: Webhook, status: PaymentStatus, now: nat, i: nat, d: Id)
    requires hook.intentId.Some? && PaymentByIntent(b, hook.intentId.value).None?
    requires TopupByIntent(b, hook.intentId.value) == Some(i) && TopupById(b, b.topups[i].id) == Some(i)
    ensures Margin(Committed(b, WebhookIntent(b, rides, hook, status, now)), d)
         == Margin(b, d) + IntentHookMove(b, rides, hook, status, d)
  {
    TopupMargin(b, i, TopupStatusOf(status), hook.status, PaidAt(status.Succeeded?, now), None, d);
  }

  lemma IntentHookMargin(b: Books, rides: map<Id, Ride>, hook: Webhook, status: PaymentStatus, now: nat, d: Id)
    requires Sound(b) && OnePerRide(b.payments) && hook.intentId.Some?
    ensures Margin(Committed(b, WebhookIntent(b, rides, hook, status, now)), d)
         == Margin(b, d) + IntentHookMove(b, rides, hook, status, d)
  {
    var payment := PaymentByIntent(b, hook.intentId.value);
    var topup := TopupByIntent(b, hook.intentId.value);
    if payment.Some? {
      PaymentFound(b, payment.value);
      RideHookMargin(b, rides, hook, status, now, payment.value, d);
    } else if topup.Some? {
      TopupFound(b, topup.value);
      TopupHookMargin(b, rides, hook, status, now, topup.value, d);
    }
  }

  /** Recording the event id changes none of what a hook moves. */
  lemma StoredHookMove(b: Books, rides: map<Id, Ride>, hook: Webhook, d: Id)
    ensures var stored := b.(events := b.events + {hook.eventId});
            && (hook.payoutId.Some? ==> PayoutHookMove(stored, hook, d) == PayoutHookMove(b, hook, d))
            && (hook.intentId.Some? ==>
                  forall status :: IntentHookMove(stored, rides, hook, status, d)
                      == IntentHookMove(b, rides, hook, status, d))
  {
  }

  lemma NewHookMargin(b: Books, rides: map<Id, Ride>, hook: Webhook, now: nat, d: Id)
    requires Sound(b) && OnePerRide(b.payments) && hook.eventId !in b.events
    ensures Margin(Committed(b, ApplyWebhook(b, rides, hook, now)), d) == Margin(b, d) + HookMove(b, rides, hook, d)
  {
    var stored := b.(events := b.events + {hook.eventId});
    SameTablesSound(b, stored);
    StoredHookMove(b, rides, hook, d);
    if hook.payoutId.Some? {
      PayoutHookMargin(stored, hook, now, d);
    } else if hook.intentId.Some? && ServiceStatus(hook.status).Some? {
      IntentHookMargin(stored, rides, hook, ServiceStatus(hook.status).value, now, d);
    }
  }

  lemma HookMargin(b: Books, rides: map<Id, Ride>, hook: Webhook, now: nat, d: Id)
    requires Sound(b) && OnePerRide(b.payments)
    ensures Margin(Committed(b, ApplyWebhook(b, rides, hook, now)), d) == Margin(b, d) + HookMove(b, rides, hook, d)
  {
    if hook.eventId !in b.events {
      NewHookMargin(b, rides, hook, now, d);
    }
  }

  /** What a granted top-up request stores. */
  lemma TopupRequestStores(b: Books, id: Id, driver: Id, amount: int, cash: bool, answer: NewIntent, now: nat)
    requires CreateTopup(b, id, driver, amount, cash, answer, now).Done?
    ensures var r := CreateTopup(b, id, driver, amount, cash, answer, now).books;
            && |r.topups| == |b.topups| + 1 && !TopupClashes(b, r.topups[|b.topups|])
            && r == TopupStored(b, r.topups[|b.topups|])
            && var t := r.topups[|b.topups|];
               t.id == id && t.driver == driver && t.intentId == answer.intent.id
               && Some(t.amount) == ProviderAmount(answer.intent.amount, amount)
               && (t.status.Succeeded? <==> WalletStatus(answer.intent.status) == Some(PaymentStatus.Succeeded))
  {
  }

  lemma TopupRequestGranted(b: Books, id: Id, driver: Id, amount: int, cash: bool, answer: NewIntent, now: nat)
    ensures CreateTopup(b, id, driver, amount, cash, answer, now).Done? <==>
              && amount > 0 && !cash && answer.IntentCreated? && answer.intent.id.Some?
              && WalletStatus(answer.intent.status).Some? && ProviderAmount(answer.intent.amount, amount).Some?
              && forall t | t in b.topups :: t.id != id && t.intentId != answer.intent.id
  {
  }

  lemma TopupRequestMargin(
    b: Books, id: Id, driver: Id, amount: int, cash: bool, answer: NewIntent, now: nat, d: Id)
    requires Sound(b)
    ensures Margin(Committed(b, CreateTopup(b, id, driver, amount, cash, answer, now)), d)
         == Margin(b, d) + TopupRequestMove(b, id, driver, amount, cash, answer, d)
  {
    TopupRequestGranted(b, id, driver, amount, cash, answer, now);
    if CreateTopup(b, id, driver, amount, cash, answer, now).Done? {
      TopupRequestStores(b, id, driver, amount, cash, answer, now);
      StoredTopupMargin(b, CreateTopup(b, id, driver, amount, cash, answer, now).books.topups[|b.topups|], d);
    }
  }

  /** A new top-up's row, credited at once if it already succeeded. */
  function TopupStored(b: Books, t: Topup): Books {
    var saved := b.(topups := b.topups + [t]);
    if t.status.Succeeded? then RecordOnce(saved, TopupEntry(t)) else saved
  }

  lemma StoredTopupMargin(b: Books, t: Topup, d: Id)
    requires Sound(b) && !TopupClashes(b, t)
    ensures Margin(TopupStored(b, t), d) == Margin(b, d) + if t.status.Succeeded? && d == t.driver then t.amount else 0
  {
    NewTopupHasNoCredit(b, t);
    RecordMargin(b.(topups := b.topups + [t]), TopupEntry(t), d);
  }

  lemma NewTopupHasNoCredit(b: Books, t: Topup)
    requires Sound(b) && !TopupClashes(b, t)
    ensures !HasEntry(b.ledger, TopupEntry(t).key)
  {
    forall e | e in b.ledger ensures e.key != TopupEntry(t).key {
      assert CreditOwned(b.topups, e);
      forall u | u in b.topups ensures u.id != t.id {}
    }
  }

  lemma UsedQuoteMovesNothing(b: Books, draft: Draft, verified: bool, now: nat)
    requires draft.quoteId !in b.quotes || b.quotes[draft.quoteId].consumedAt.Some?
    ensures var r := Committed(b, RequestWithdrawal(b, draft, verified, now));
            r.wallets == b.wallets && r.ledger == b.ledger
  {
  }

  lemma FreshRequestMargin(b: Books, draft: Draft, now: nat, d: Id)
    requires Sound(b) && FreshDraft(b, draft) && draft.quoteId in b.quotes && b.quotes[draft.quoteId].consumedAt.None?
    requires RequestWithdrawal(b, draft, true, now).Done?
    ensures var q := b.quotes[draft.quoteId];
            Margin(RequestWithdrawal(b, draft, true, now).books, d) == Margin(b, d) - if d == draft.driver
                then q.amount else 0
  {
    var r := RequestWithdrawal(b, draft, true, now).books;
    RequestSucceedsExactlyWhen(b, draft, now);
    UnusedQuoteHasNoRow(b, draft.quoteId);
    var e := WithdrawalEntry(NewWithdrawal(draft, b.quotes[draft.quoteId], now), WithdrawalReserved, Debit);
    assert r.ledger == b.ledger + [e];
    LogGrows(b.ledger, e, d, COMMISSION_TYPES);
  }

  lemma GrantedDraftIsFresh(b: Books, draft: Draft, verified: bool, now: nat)
    requires Sound(b) && draft.quoteId in b.quotes && b.quotes[draft.quoteId].consumedAt.None?
    requires RequestWithdrawal(b, draft, verified, now).Done?
    ensures FreshDraft(b, draft) && verified
  {
    UnusedQuoteHasNoRow(b, draft.quoteId);
    forall i | 0 <= i < |b.withdrawals| ensures b.withdrawals[i].id != draft.id {
      assert b.withdrawals[i] in b.withdrawals;
    }
  }

  lemma RequestMargin(b: Books, draft: Draft, verified: bool, now: nat, d: Id)
    requires Sound(b)
    ensures Margin(Committed(b, RequestWithdrawal(b, draft, verified, now)), d)
         == Margin(b, d) + RequestMove(b, draft, verified, now, d)
  {
    if draft.quoteId !in b.quotes || b.quotes[draft.quoteId].consumedAt.Some? {
      UsedQuoteMovesNothing(b, draft, verified, now);
    } else if RequestWithdrawal(b, draft, verified, now).Done? {
      GrantedDraftIsFresh(b, draft, verified, now);
      RequestSucceedsExactlyWhen(b, draft, now);
      FreshRequestMargin(b, draft, now, d);
    } else if FreshDraft(b, draft) && verified {
      RequestSucceedsExactlyWhen(b, draft, now);
    }
  }

  lemma PayoutMargin(b: Books, id: Id, payout: Payout, now: nat, d: Id)
    requires Sound(b)
    ensures Margin(Committed(b, ApplyPayout(b, id, payout, now)), d) == Margin(b, d) + PayoutMove(b, id, payout, d)
  {
    if WithdrawalById(b, id).Some? && WithdrawalTarget(payout.status).Some? {
      ReportMargin(b, WithdrawalById(b, id).value, WithdrawalTarget(payout.status).value, payout.id, payout.status,
          now, d);
    }
  }

  lemma AnswerMargin(b: Books, id: Id, answer: NewPayout, now: nat, d: Id)
    requires Sound(b)
    ensures Margin(Committed(b, FinishPayout(b, id, answer, now)), d) == Margin(b, d) + AnswerMove(b, id, answer, d)
  {
    match answer
    case PayoutUnavailable =>
    case PayoutCreated(payout) => PayoutMargin(b, id, payout, now, d);
    case PayoutRefused =>
      if WithdrawalById(b, id).Some? {
        ReportMargin(b, WithdrawalById(b, id).value, WithdrawalStatus.Failed, None, "rejected", now, d);
      }
  }

  lemma CollectedSettlesNothingElse(b: Books, rides: map<Id, Ride>, ride: Id, d: Id)
    ensures Margin(Committed(b, SettleRide(b, rides, ride, PaymentStatus.Collected)), d) == Margin(b, d)
  {
    SettleMargin(b, rides, ride, PaymentStatus.Collected, d);
  }

  lemma CashShape(b: Books, rides: map<Id, Ride>, ride: Id, amount: int, collector: Id, newId: Id, now: nat)
    ensures var o := ConfirmCash(b, rides, ride, amount, collector, newId, now);
            o.Done? ==> SettleRide(b.(payments := o.books.payments), rides, ride, PaymentStatus.Collected) == o
  {
  }

  /** Cash books a commission at most, which the margin does not feel. */
  lemma CashMargin(b: Books, rides: map<Id, Ride>, ride: Id, amount: int, collector: Id, newId: Id, now: nat, d: Id)
    ensures Margin(Committed(b, ConfirmCash(b, rides, ride, amount, collector, newId, now)), d) == Margin(b, d)
  {
    var o := ConfirmCash(b, rides, ride, amount, collector, newId, now);
    if o.Done? {
      CashShape(b, rides, ride, amount, collector, newId, now);
      CollectedSettlesNothingElse(b.(payments := o.books.payments), rides, ride, d);
    }
  }

  lemma PrepareMargin(
    b: Books, rides: map<Id, Ride>, ride: Id, payBy: PaymentMethod, answer: NewIntent, newId: Id, now: nat, d: Id)
    ensures Margin(Committed(b, PreparePayment(b, rides, ride, payBy, answer, newId, now)), d) == Margin(b, d)
  {
  }

  lemma QuoteMargin(b: Books, id: Id, driver: Id, amount: int, s: WithdrawalSettings, now: nat, d: Id)
    ensures Margin(Committed(b, QuoteWithdrawal(b, id, driver, amount, s, now)), d) == Margin(b, d)
  {
  }

  // ---------------------------------------------------------------- sweeps

  function IntentJobMatches(intent: Intent, amount: int, currency: string, reference: Option<Reference>): bool {
    !IntentMismatch(intent, amount, currency, reference) && ServiceStatus(intent.status).Some?
  }

  /** A row of the sweep moves money when its answer matches, reads, and says something new. */
  function JobMove(b: Books, rides: map<Id, Ride>, job: Job, d: Id): int {
    match job
    case PaymentJob(id, answer) =>
      (match PaymentById(b, id)
       case None => 0
       case Some(i) =>
         var p := b.payments[i];
         if p.intentId.Some? && answer.IntentFound?
             && IntentJobMatches(answer.intent, p.amount, p.currency, p.reference)
            && (ServiceStatus(answer.intent.status).value != p.status || answer.intent.nextAction != p.nextAction)
         then RideMove(b, rides, p.rideId, ServiceStatus(answer.intent.status).value, d)
         else 0)
    case TopupJob(id, answer) =>
      (match TopupById(b, id)
       case None => 0
       case Some(i) =>
         var t := b.topups[i];
         if t.intentId.Some? && answer.IntentFound?
             && IntentJobMatches(answer.intent, t.amount, t.currency, Some(t.reference))
            && (TopupStatusOf(ServiceStatus(answer.intent.status).value) != t.status
                || answer.intent.nextAction != t.nextAction)
         then TopupMove(b, t, TopupStatusOf(ServiceStatus(answer.intent.status).value), d)
         else 0)
    case WithdrawalJob(id, answer) => if answer.PayoutFound? then PayoutMove(b, id, answer.payout, d) else 0
  }

  /** The rows of a sweep, each on the books the rows before it left. */
  function SweepMove(b: Books, rides: map<Id, Ride>, jobs: seq<Job>, now: nat, d: Id): int {
    if |jobs| == 0 then 0
    else
      var before := Sweep(b, rides, jobs[..|jobs| - 1], now);
      SweepMove(b, rides, jobs[..|jobs| - 1], now, d)
      + if before.Sweeping? then JobMove(before.books, rides, jobs[|jobs| - 1], d) else 0
  }

  lemma PaymentJobMargin(b: Books, rides: map<Id, Ride>, id: Id, answer: IntentAnswer, now: nat, d: Id)
    ensures var s := ReconcileTransaction(b, rides, id, answer, now);
            s.Counted? ==> Margin(s.books, d) == Margin(b, d) + JobMove(b, rides, PaymentJob(id, answer), d)
  {
    if PaymentById(b, id).Some? && answer.IntentFound? && ServiceStatus(answer.intent.status).Some? {
      var i := PaymentById(b, id).value;
      var status := ServiceStatus(answer.intent.status).value;
      TransactionMargin(b, rides, i, status, answer.intent.status, PaidAt(status.Succeeded?, now),
          Some(answer.intent.nextAction), d);
    }
  }

  lemma TopupJobMargin(b: Books, rides: map<Id, Ride>, id: Id, answer: IntentAnswer, now: nat, d: Id)
    ensures var s := ReconcileTopup(b, id, answer, now);
            s.Counted? ==> Margin(s.books, d) == Margin(b, d) + JobMove(b, rides, TopupJob(id, answer), d)
  {
    if TopupById(b, id).Some? && answer.IntentFound? && ServiceStatus(answer.intent.status).Some? {
      var i := TopupById(b, id).value;
      var status := TopupStatusOf(ServiceStatus(answer.intent.status).value);
      TopupMargin(b, i, status, answer.intent.status, PaidAt(status.Succeeded?, now), Some(answer.intent.nextAction),
          d);
    }
  }

  lemma WithdrawalJobMargin(b: Books, rides: map<Id, Ride>, id: Id, answer: PayoutAnswer, now: nat, d: Id)
    requires Sound(b)
    ensures var s := ReconcileWithdrawal(b, id, answer, now);
            s.Counted? ==> Margin(s.books, d) == Margin(b, d) + JobMove(b, rides, WithdrawalJob(id, answer), d)
  {
    if answer.PayoutFound? {
      PayoutMargin(b, id, answer.payout, now, d);
      SweepAppliesPayout(b, id, answer.payout, now);
    }
  }

  /** The sweep does to a withdrawal what the synchronous answer would. */
  lemma SweepAppliesPayout(b: Books, id: Id, payout: Payout, now: nat)
    ensures var s := ReconcileWithdrawal(b, id, PayoutFound(payout), now);
            s.Counted? ==> s.books == Committed(b, ApplyPayout(b, id, payout, now))
  {
  }

  lemma JobMargin(b: Books, rides: map<Id, Ride>, job: Job, now: nat, d: Id)
    requires Sound(b)
    ensures var s := Reconcile(b, rides, job, now);
            s.Counted? ==> Margin(s.books, d) == Margin(b, d) + JobMove(b, rides, job, d)
  {
    match job
    case PaymentJob(id, answer) => PaymentJobMargin(b, rides, id, answer, now, d);
    case TopupJob(id, answer) => TopupJobMargin(b, rides, id, answer, now, d);
    case WithdrawalJob(id, answer) => WithdrawalJobMargin(b, rides, id, answer, now, d);
  }

  lemma {:induction false} SweepMargin(b: Books, rides: map<Id, Ride>, jobs: seq<Job>, now: nat, d: Id)
    requires Sound(b)
    ensures var s := Sweep(b, rides, jobs, now);
            s.Sweeping? ==> Margin(s.books, d) == Margin(b, d) + SweepMove(b, rides, jobs, now, d)
  {
    if |jobs| > 0 {
      var n := |jobs| - 1;
      SweepMargin(b, rides, jobs[..n], now, d);
      SweepSound(b, rides, jobs[..n], now);
      RowMargin(Sweep(b, rides, jobs[..n], now), rides, jobs[n], now, d);
    }
  }

  lemma RowMargin(s: SweepState, rides: map<Id, Ride>, job: Job, now: nat, d: Id)
    requires s.Sweeping? ==> Sound(s.books)
    ensures var t := SweepOn(s, rides, job, now);
            t.Sweeping? ==> s.Sweeping? && Margin(t.books, d) == Margin(s.books, d) + JobMove(s.books, rides, job, d)
  {
    if s.Sweeping? {
      JobMargin(s.books, rides, job, now, d);
    }
  }

  // ---------------------------------------------------------------- which actions break solvency

  /** What an action does to `d`'s margin, from the action and the books before it. */
  function ActMove(b: Books, t: Timed, d: Id): int {
    match t.action
    case TopupRequest(id, driver, amount, cash, answer) => TopupRequestMove(b, id, driver, amount, cash, answer, d)
    case WithdrawalRequest(draft, verified) => RequestMove(b, draft, verified, t.now, d)
    case PayoutAnswered(id, answer) => AnswerMove(b, id, answer, d)
    case PayoutReread(id, payout) => PayoutMove(b, id, payout, d)
    case WebhookReceived(rides, hook) => HookMove(b, rides, hook, d)
    case SweepRun(rides, jobs) => if Sweep(b, rides, jobs, t.now).Sweeping? then SweepMove(b, rides, jobs, t.now, d)
        else 0
    case _ => 0
  }

  ghost predicate MovesMargin(b: Books, t: Timed, d: Id) {
    Margin(Committed(b, Act(b, t)), d) == Margin(b, d) + ActMove(b, t, d)
  }

  lemma SweepActMargin(b: Books, t: Timed, d: Id)
    requires Sound(b) && t.action.SweepRun?
    ensures MovesMargin(b, t, d)
  {
    SweepMargin(b, t.action.sweepRides, t.action.jobs, t.now, d);
  }

  lemma HookActMargin(b: Books, t: Timed, d: Id)
    requires Sound(b) && OnePerRide(b.payments) && t.action.WebhookReceived?
    ensures MovesMargin(b, t, d)
  {
    HookMargin(b, t.action.hookRides, t.action.hook, t.now, d);
  }

  lemma RideActMargin(b: Books, t: Timed, d: Id)
    requires t.action.CashConfirmed? || t.action.PaymentPrepared?
    ensures MovesMargin(b, t, d)
  {
    match t.action
    case CashConfirmed(rides, ride, amount, collector, id) =>
        CashMargin(b, rides, ride, amount, collector, id, t.now, d);
    case PaymentPrepared(rides, ride, payBy, answer, id) => PrepareMargin(b, rides, ride, payBy, answer, id, t.now, d);
  }

  lemma ActMargin(b: Books, t: Timed, d: Id)
    requires Sound(b) && OnePerRide(b.payments)
    ensures MovesMargin(b, t, d)
  {
    if t.action.SweepRun? {
      SweepActMargin(b, t, d);
    } else if t.action.WebhookReceived? {
      HookActMargin(b, t, d);
    } else if t.action.CashConfirmed? || t.action.PaymentPrepared? {
      RideActMargin(b, t, d);
    } else {
      DriverActMargin(b, t, d);
    }
  }

  lemma DriverActMargin(b: Books, t: Timed, d: Id)
    requires Sound(b)
    requires !t.action.WebhookReceived? && !t.action.SweepRun? && !t.action.CashConfirmed? && !t.action.PaymentPrepared?
    ensures MovesMargin(b, t, d)
  {
    match t.action
    case TopupRequest(id, driver, amount, cash, answer) =>
        TopupRequestMargin(b, id, driver, amount, cash, answer, t.now, d);
    case WithdrawalRequest(draft, verified) => RequestMargin(b, draft, verified, t.now, d);
    case PayoutAnswered(id, answer) => AnswerMargin(b, id, answer, t.now, d);
    case PayoutReread(id, payout) => PayoutMargin(b, id, payout, t.now, d);
    case QuoteRequest(id, driver, amount, s) => QuoteMargin(b, id, driver, amount, s, t.now, d);
    case OpenWallet(_) =>
  }

  /** In every reachable state, an action leaves a driver with "balance >= -commissions" exactly when what it
      moves, read off its own inputs, is no more than the margin there is. */
  lemma {:induction false} ActKeepsSolventExactlyWhen(actions: seq<Timed>, t: Timed, d: Id)
    ensures var b := Run(EMPTY_BOOKS, actions);
            Solvent(Committed(b, Act(b, t)), d) <==> Margin(b, d) + ActMove(b, t, d) >= 0
  {
    RunsAreSound(actions);
    RidesHaveOnePayment(actions);
    ActMargin(Run(EMPTY_BOOKS, actions), t, d);
  }

  /** The request cases of the same fact. A top-up request breaks solvency exactly when it is answered as
      succeeded, under new ids, with an amount so negative that it eats the margin. */
  lemma {:induction false} TopupRequestBreaksExactlyWhen(
    actions: seq<Timed>, id: Id, driver: Id, amount: int, cash: bool, answer: NewIntent, now: nat)
    requires Solvent(Run(EMPTY_BOOKS, actions), driver)
    ensures var b := Run(EMPTY_BOOKS, actions);
            !Solvent(Committed(b, CreateTopup(b, id, driver, amount, cash, answer, now)), driver) <==>
              && amount > 0 && !cash && answer.IntentCreated? && answer.intent.id.Some?
              && WalletStatus(answer.intent.status) == Some(PaymentStatus.Succeeded)
              && ProviderAmount(answer.intent.amount, amount).Some?
              && ProviderAmount(answer.intent.amount, amount).value < -Margin(b, driver)
              && forall t | t in b.topups :: t.id != id && t.intentId != answer.intent.id
  {
    RunsAreSound(actions);
    TopupRequestMargin(Run(EMPTY_BOOKS, actions), id, driver, amount, cash, answer, now, driver);
  }

  lemma TopupHookMoves(b: Books, i: nat, rides: map<Id, Ride>, hook: Webhook, intent: Id)
    requires NewIntentHook(b, hook, intent) && PaymentByIntent(b, intent).None? && TopupByIntent(b, intent) == Some(i)
    ensures var t := b.topups[i];
            HookMove(b, rides, hook, t.driver)
            == if Matches(hook, t.amount, t.currency, Some(t.reference))
                  && ServiceStatus(hook.status) == Some(PaymentStatus.Succeeded)
                      && !HasEntry(b.ledger, TopupEntry(t).key)
               then t.amount
               else 0
  {
  }

  lemma RideHookMoves(b: Books, i: nat, rides: map<Id, Ride>, hook: Webhook, intent: Id, d: Id)
    requires NewIntentHook(b, hook, intent) && PaymentByIntent(b, intent) == Some(i)
    ensures var p := b.payments[i];
            HookMove(b, rides, hook, d)
            == if Matches(hook, p.amount, p.currency, p.reference)
                  && ServiceStatus(hook.status) == Some(PaymentStatus.Succeeded) && p.rideId in rides
               then ShareMove(b, rides[p.rideId], d)
               else 0
  {
  }

  /** A ride's digital share, if it is still to be booked for `d`. */
  function ShareMove(b: Books, ride: Ride, d: Id): int {
    if ride.driver == Some(d) && ride.payBy.MobileMoney? && ride.commission.Some? && ride.payout.Some?
       && !HasEntry(b.ledger, Key(d, RidePayout, RideRef(ride.id)))
    then ride.payout.value
    else 0
  }

  /** A first webhook on a top-up breaks it exactly when it matches the row, is its first success, and the
      stored amount is that negative. */
  lemma {:induction false} TopupWebhookBreaksExactlyWhen(
    actions: seq<Timed>, i: nat, rides: map<Id, Ride>, hook: Webhook, intent: Id, now: nat)
    requires var b := Run(EMPTY_BOOKS, actions);
             NewIntentHook(b, hook, intent) && PaymentByIntent(b, intent).None? && TopupByIntent(b, intent) == Some(i)
             && Solvent(b, b.topups[i].driver)
    ensures var b := Run(EMPTY_BOOKS, actions); var t := b.topups[i];
            !Solvent(Committed(b, ApplyWebhook(b, rides, hook, now)), t.driver) <==>
              && AmountField(hook.amount) == Some(t.amount) && hook.currency == Some(t.currency)
              && hook.reference == Some(t.reference) && ServiceStatus(hook.status) == Some(PaymentStatus.Succeeded)
              && !HasEntry(b.ledger, TopupEntry(t).key) && t.amount < -Margin(b, t.driver)
  {
    RunsAreSound(actions);
    RidesHaveOnePayment(actions);
    var b := Run(EMPTY_BOOKS, actions);
    TopupHookMoves(b, i, rides, hook, intent);
    HookMargin(b, rides, hook, now, b.topups[i].driver);
  }

  /** A first webhook on a ride payment breaks it exactly when it matches the row and reads succeeded, and
      the ride pays digitally a share that negative that was not booked before. */
  lemma {:induction false} RideWebhookBreaksExactlyWhen(
    actions: seq<Timed>, i: nat, rides: map<Id, Ride>, hook: Webhook, intent: Id, now: nat, d: Id)
    requires var b := Run(EMPTY_BOOKS, actions);
             NewIntentHook(b, hook, intent) && PaymentByIntent(b, intent) == Some(i) && Solvent(b, d)
    ensures var b := Run(EMPTY_BOOKS, actions); var p := b.payments[i];
            !Solvent(Committed(b, ApplyWebhook(b, rides, hook, now)), d) <==>
              && Matches(hook, p.amount, p.currency, p.reference)
              && ServiceStatus(hook.status) == Some(PaymentStatus.Succeeded) && p.rideId in rides
              && ShareMove(b, rides[p.rideId], d) < -Margin(b, d)
  {
    var b := Run(EMPTY_BOOKS, actions);
    RunsAreSound(actions);
    RidesHaveOnePayment(actions);
    RideHookMoves(b, i, rides, hook, intent, d);
    HookMargin(b, rides, hook, now, d);
  }

  /** A withdrawal request breaks it exactly when it is granted for more than the margin; the balance covers
      it, so the driver's commissions are then below zero. */
  lemma {:induction false} RequestBreaksExactlyWhen(actions: seq<Timed>, draft: Draft, verified: bool, now: nat)
    requires Solvent(Run(EMPTY_BOOKS, actions), draft.driver)
    ensures var b := Run(EMPTY_BOOKS, actions);
            && (!Solvent(Committed(b, RequestWithdrawal(b, draft, verified, now)), draft.driver) <==>
                  && verified && draft.quoteId in b.quotes && FreshDraft(b, draft)
                  && var q := b.quotes[draft.quoteId];
                     q.driver == draft.driver && q.consumedAt.None? && now < q.expiresAt
                     && Margin(b, draft.driver) < q.amount <= Balance(b, draft.driver))
            && (!Solvent(Committed(b, RequestWithdrawal(b, draft, verified, now)), draft.driver) ==>
                  Commissions(b, draft.driver) < 0)
  {
    RunsAreSound(actions);
    RequestMargin(Run(EMPTY_BOOKS, actions), draft, verified, now, draft.driver);
  }

  /** A row of a sweep breaks it exactly when what it moves, read off the row and its answer, eats the margin:
      only a success that matches, is new, and books a negative amount can. */
  lemma RowBreaksExactlyWhen(b: Books, rides: map<Id, Ride>, job: Job, now: nat, d: Id)
    requires Sound(b) && Solvent(b, d) && Reconcile(b, rides, job, now).Counted?
    ensures !Solvent(Reconcile(b, rides, job, now).books, d) <==> JobMove(b, rides, job, d) < -Margin(b, d)
    ensures JobMove(b, rides, job, d) < 0 ==> job.PaymentJob? || job.TopupJob?
  {
    JobMargin(b, rides, job, now, d);
  }

  /** Everything else keeps every solvent driver solvent. */
  lemma {:induction false} OthersNeverBreak(actions: seq<Timed>, t: Timed, d: Id)
    requires Solvent(Run(EMPTY_BOOKS, actions), d)
    requires !t.action.TopupRequest? && !t.action.WithdrawalRequest? && !t.action.WebhookReceived?
        && !t.action.SweepRun?
    ensures var b := Run(EMPTY_BOOKS, actions); Solvent(Committed(b, Act(b, t)), d)
  {
    ActKeepsSolventExactlyWhen(actions, t, d);
  }
}
