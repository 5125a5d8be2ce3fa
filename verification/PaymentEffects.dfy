/** What gets through and what it then does: the exact conditions under which quotes, withdrawals and
    webhooks are accepted, and the money each of them moves. */
module PaymentEffects {
  import opened Prelude
  import opened PaymentDomain
  import opened PaymentBooks
  import opened PaymentFlows
  import opened WalletLaws
  import opened WithdrawalLaws
  import opened PaymentRuns
  import opened PaymentTraces
  import opened PaymentTheorems

  // ---------------------------------------------------------------- the life of a withdrawal

  predicate FreshDraft(b: Books, d: Draft) {
    forall i | 0 <= i < |b.withdrawals| :: b.withdrawals[i].id != d.id
  }

  lemma FreshDraftHasNoLine(b: Books, d: Draft, key: Key)
    requires Sound(b) && FreshDraft(b, d) && key.reference == WithdrawalRef(d.id) && key.entryType in WITHDRAWAL_TYPES
    ensures !HasEntry(b.ledger, key)
  {
    forall e | e in b.ledger ensures e.key != key {
      assert LineOwned(b.withdrawals, e);
      if e.key.entryType in WITHDRAWAL_TYPES {
        var i :| 0 <= i < |b.withdrawals| && Owns(b.withdrawals[i], e);
        assert b.withdrawals[i].id != d.id;
      }
    }
  }

  lemma UnusedQuoteHasNoRow(b: Books, quote: Id)
    requires Sound(b) && quote in b.quotes && b.quotes[quote].consumedAt.None?
    ensures forall i | 0 <= i < |b.withdrawals| :: b.withdrawals[i].quoteId != quote
    ensures WithdrawalByQuote(b, quote).None?
  {
    forall i | 0 <= i < |b.withdrawals| ensures b.withdrawals[i].quoteId != quote {
      assert Copies(b.withdrawals[i], b.quotes[b.withdrawals[i].quoteId]);
    }
  }

  /** Money moved from the balance into reservation, for one driver only. */
  ghost predicate MovedToReserve(b: Books, r: Books, driver: Id, amount: nat) {
    forall d: Id ::
      && Balance(r, d) == Balance(b, d) - (if d == driver then amount else 0)
      && ReservedTotal(r, d) == ReservedTotal(b, d) + (if d == driver then amount else 0)
      && SucceededTotal(r, d) == SucceededTotal(b, d)
  }

  lemma ReservedMoves(b: Books, w: Withdrawal, x: Id)
    requires w.driver in b.wallets && w.quoteId in b.quotes && w.status.Reserved?
    ensures Balance(Reservation(b, w), x) == Balance(b, x) - (if x == w.driver then w.amount else 0)
    ensures ReservedTotal(Reservation(b, w), x) == ReservedTotal(b, x) + (if x == w.driver then w.amount else 0)
    ensures SucceededTotal(Reservation(b, w), x) == SucceededTotal(b, x)
  {
    RowsGrow(b.withdrawals, w, x, OPEN);
    RowsGrow(b.withdrawals, w, x, PAID);
  }

  lemma ReserveMoves(b: Books, d: Draft, now: nat)
    requires d.quoteId in b.quotes && b.quotes[d.quoteId].consumedAt.None? && Reserve(b, d, now).Ok?
    ensures MovedToReserve(b, Reserve(b, d, now).value, d.driver, b.quotes[d.quoteId].amount)
  {
    var ready := EnsureWallet(b, d.driver);
    var w := NewWithdrawal(d, b.quotes[d.quoteId], now);
    assert Reserve(b, d, now).value == Reservation(ready, w);
    forall x: Id { ReservedMoves(ready, w, x); }
  }

  /** A verified request on an unused quote goes through exactly when the quote is the driver's, has not
      expired and is still covered; then its amount moves from the balance into reservation. */
  lemma RequestSucceedsExactlyWhen(b: Books, d: Draft, now: nat)
    requires Sound(b) && FreshDraft(b, d) && d.quoteId in b.quotes && b.quotes[d.quoteId].consumedAt.None?
    ensures var q := b.quotes[d.quoteId]; var o := RequestWithdrawal(b, d, true, now);
            && (o.Done? <==> q.driver == d.driver && now < q.expiresAt && q.amount <= Balance(b, d.driver))
            && (o.Done? ==>
                MovedToReserve(b, o.books, d.driver, q.amount) && o.books.quotes[d.quoteId].consumedAt == Some(now))
  {
    UnusedQuoteHasNoRow(b, d.quoteId);
    var w := NewWithdrawal(d, b.quotes[d.quoteId], now);
    FreshDraftHasNoLine(b, d, WithdrawalEntry(w, WithdrawalReserved, Debit).key);
    if Reserve(b, d, now).Ok? {
      ReserveMoves(b, d, now);
    }
  }

  /** A granted quote can be spent, once, by its driver, until it expires. */
  lemma GrantedQuoteCanBeSpent(b: Books, id: Id, driver: Id, amount: int, s: WithdrawalSettings, now: nat, d: Draft,
    later: nat)
    requires Sound(b) && QuoteWithdrawal(b, id, driver, amount, s, now).Done?
    requires FreshDraft(b, d) && d.quoteId == id && d.driver == driver && later < now + s.ttl
    ensures var quoted := QuoteWithdrawal(b, id, driver, amount, s, now).books;
            var o := RequestWithdrawal(quoted, d, true, later);
            && o.Done? && amount > 0 && MovedToReserve(quoted, o.books, driver, amount)
            && (forall x: Id :: Balance(quoted, x) == Balance(b, x))
  {
    var quoted := QuoteWithdrawal(b, id, driver, amount, s, now).books;
    QuoteRequestSound(b, id, driver, amount, s, now);
    RequestSucceedsExactlyWhen(quoted, d, later);
  }

  lemma SettledReturns(b: Books, i: nat, v: Withdrawal, x: Id)
    requires Settles(b, i, v) && v.status.Released?
    ensures Balance(b, x) == Balance(Settled(b, i, v), x) - (if x == v.driver then v.amount else 0)
    ensures ReservedTotal(b, x) == ReservedTotal(Settled(b, i, v), x) + (if x == v.driver then v.amount else 0)
    ensures SucceededTotal(b, x) == SucceededTotal(Settled(b, i, v), x)
  {
    RowChanges(b.withdrawals, i, v, x, OPEN);
    RowChanges(b.withdrawals, i, v, x, PAID);
  }

  /** A failure moves an open withdrawal's amount back from reservation to the balance. */
  lemma FailureReturns(b: Books, i: nat, word: string, now: nat)
    requires Sound(b) && i < |b.withdrawals| && b.withdrawals[i].status in OPEN
    ensures var w := b.withdrawals[i]; var m := MarkWithdrawal(b, w.id, WithdrawalStatus.Failed, None, word, now);
            m.Ok? && MovedToReserve(m.value, b, w.driver, w.amount)
  {
    var w := b.withdrawals[i];
    var v := Reported(w, WithdrawalStatus.Failed, None, word, now);
    FoundAt(b, i);
    ReportEffect(b, i, WithdrawalStatus.Failed, None, word, now);
    forall x: Id { SettledReturns(b, i, v, x); }
  }

  /** Round trip: a request whose payout DiddiPay then refuses leaves every driver's balance, reserved
      total and paid total as before the request. */
  lemma RefusedPayoutRoundTrip(b: Books, d: Draft, now: nat, later: nat)
    requires Sound(b) && FreshDraft(b, d) && d.quoteId in b.quotes && b.quotes[d.quoteId].consumedAt.None?
    requires RequestWithdrawal(b, d, true, now).Done?
    ensures var requested := RequestWithdrawal(b, d, true, now).books;
            var o := FinishPayout(requested, d.id, PayoutRefused, later);
            && o.Done?
            && forall x: Id :: && Balance(o.books, x) == Balance(b, x)
                               && ReservedTotal(o.books, x) == ReservedTotal(b, x)
                               && SucceededTotal(o.books, x) == SucceededTotal(b, x)
  {
    var requested := RequestWithdrawal(b, d, true, now).books;
    RequestSucceedsExactlyWhen(b, d, now);
    RequestSound(b, d, true, now);
    RequestedRow(b, d, now);
    FailureReturns(requested, |b.withdrawals|, "rejected", later);
    MovedThereAndBack(b, requested, FinishPayout(requested, d.id, PayoutRefused, later).books, d.driver,
        b.quotes[d.quoteId].amount);
  }

  lemma RequestedRow(b: Books, d: Draft, now: nat)
    requires Sound(b) && d.quoteId in b.quotes && b.quotes[d.quoteId].consumedAt.None?
    requires RequestWithdrawal(b, d, true, now).Done?
    ensures RequestWithdrawal(b, d, true, now).books.withdrawals == b.withdrawals
        + [NewWithdrawal(d, b.quotes[d.quoteId], now)]
  {
    UnusedQuoteHasNoRow(b, d.quoteId);
  }

  lemma MovedThereAndBack(b: Books, m: Books, r: Books, driver: Id, amount: nat)
    requires MovedToReserve(b, m, driver, amount) && MovedToReserve(r, m, driver, amount)
    ensures forall x: Id :: && Balance(r, x) == Balance(b, x)
                            && ReservedTotal(r, x) == ReservedTotal(b, x)
                            && SucceededTotal(r, x) == SucceededTotal(b, x)
  {
  }

  // ---------------------------------------------------------------- webhooks that get through

  /** A webhook seen for the first time, about an intent. */
  predicate NewIntentHook(b: Books, hook: Webhook, intent: Id) {
    hook.eventId !in b.events && hook.payoutId.None? && hook.intentId == Some(intent)
  }

  lemma TopupFound(b: Books, i: nat)
    requires Sound(b) && i < |b.topups|
    ensures TopupById(b, b.topups[i].id) == Some(i)
    ensures HasEntry(b.ledger, TopupEntry(b.topups[i]).key) <==> Credited(b.ledger, b.topups[i].id)
  {
    TopupIdsDiffer(b.topups, i, TopupById(b, b.topups[i].id).value);
    if Credited(b.ledger, b.topups[i].id) {
      var e :| e in b.ledger && e.key.entryType.TopupCredit? && e.key.reference == TopupRef(b.topups[i].id);
      assert CreditOwned(b.topups, e);
      var k :| 0 <= k < |b.topups| && e == TopupEntry(b.topups[k]);
      TopupIdsDiffer(b.topups, i, k);
    }
  }

  lemma TopupIdsDiffer(rows: seq<Topup>, i: nat, j: nat)
    requires forall x, y | 0 <= x < y < |rows| :: rows[x].id != rows[y].id
    requires i < |rows| && j < |rows|
    ensures i == j || rows[i].id != rows[j].id
  {
  }

  /** One report on a top-up: the stored status is the report, and the driver's balance moves by the
      amount exactly when this is the first success. */
  lemma TopupReportEffect(b: Books, i: nat, status: TopupStatus, word: string, paidAt: Option<nat>,
    next: Option<Option<Id>>, d: Id)
    requires Sound(b) && i < |b.topups|
    ensures var t := b.topups[i]; var o := ApplyTopup(b, t.id, status, word, paidAt, next);
            && o.Done? && |o.books.topups| == |b.topups| && o.books.topups[i].status == status
            && Balance(o.books, d) == Balance(b, d)
                 + (if d == t.driver && status.Succeeded? && !Credited(b.ledger, t.id) then t.amount else 0)
  {
    TopupFound(b, i);
  }

  /** A first webhook on a top-up gets through exactly when amount, currency, reference and status read as
      the row's; the credit is booked then, unless it already was. */
  lemma TopupWebhookExactlyWhen(b: Books, i: nat, rides: map<Id, Ride>, hook: Webhook, intent: Id, now: nat, d: Id)
    requires Sound(b) && NewIntentHook(b, hook, intent)
    requires PaymentByIntent(b, intent).None? && TopupByIntent(b, intent) == Some(i)
    ensures var t := b.topups[i]; var o := ApplyWebhook(b, rides, hook, now); var status := ServiceStatus(hook.status);
            && (o.Done? <==> AmountField(hook.amount) == Some(t.amount) && hook.currency == Some(t.currency)
                             && hook.reference == Some(t.reference) && status.Some?)
            && (o.Done? ==>
                  && |o.books.topups| == |b.topups| && o.books.topups[i].status == TopupStatusOf(status.value)
                  && Balance(o.books, d) == Balance(b, d)
                       + (if d == t.driver && status.value.Succeeded? && !Credited(b.ledger, t.id) then t.amount
                           else 0))
  {
    var stored := b.(events := b.events + {hook.eventId});
    SameTablesSound(b, stored);
    if ServiceStatus(hook.status).Some? {
      var status := ServiceStatus(hook.status).value;
      TopupReportEffect(stored, i, TopupStatusOf(status), hook.status, PaidAt(status.Succeeded?, now), None, d);
      assert TopupByIntent(stored, intent) == Some(i) && PaymentByIntent(stored, intent).None?;
      TopupHookOutcome(stored, i, rides, hook, status, now);
    }
  }

  lemma TopupHookOutcome(b: Books, i: nat, rides: map<Id, Ride>, hook: Webhook, status: PaymentStatus, now: nat)
    requires hook.intentId.Some? && PaymentByIntent(b, hook.intentId.value).None?
        && TopupByIntent(b, hook.intentId.value) == Some(i)
    ensures var t := b.topups[i];
            if AmountField(hook.amount) == Some(t.amount) && hook.currency == Some(t.currency) && hook.reference
                == Some(t.reference)
            then WebhookIntent(b, rides, hook, status, now)
                 == ApplyTopup(b, t.id, TopupStatusOf(status), hook.status, PaidAt(status.Succeeded?, now), None)
            else WebhookIntent(b, rides, hook, status, now).Raised?
  {
  }

  /** A first webhook on a ride payment gets through exactly when it matches the row; the settlement the
      ride calls for is then in the log, and the balance moved by it unless it was there before. */
  lemma RideWebhookExactlyWhen(b: Books, i: nat, rides: map<Id, Ride>, hook: Webhook, intent: Id, now: nat)
    requires NewIntentHook(b, hook, intent)
    requires PaymentByIntent(b, intent) == Some(i) && PaymentById(b, b.payments[i].id) == Some(i)
    ensures var p := b.payments[i]; var o := ApplyWebhook(b, rides, hook, now); var status :=
        ServiceStatus(hook.status);
            && (o.Done? <==> AmountField(hook.amount) == Some(p.amount) && hook.currency == Some(p.currency)
                             && hook.reference == p.reference && status.Some?)
            && (o.Done? ==> |o.books.payments| == |b.payments| && o.books.payments[i].status == status.value)
            && (o.Done? && p.rideId in rides ==> SettledBy(b, o.books, SettlementEntry(rides[p.rideId], status.value)))
            && (o.Done? && p.rideId !in rides ==> o.books.ledger == b.ledger && o.books.wallets == b.wallets)
  {
  }

  /** The entry, if any, is in the log, and balances moved by it exactly when it was not there before. */
  ghost predicate SettledBy(b: Books, r: Books, e: Option<Entry>) {
    if e.None? then r.ledger == b.ledger && r.wallets == b.wallets
    else
      && HasEntry(r.ledger, e.value.key)
      && forall d: Id :: Balance(r, d) == Balance(b, d)
           + (if d == e.value.key.driver && !HasEntry(b.ledger, e.value.key) then Delta(e.value) else 0)
  }

  /** The withdrawal a payout webhook is about: the row carrying the payout id, else the referenced row. */
  predicate Addresses(b: Books, hook: Webhook, i: nat)
    requires hook.payoutId.Some? && i < |b.withdrawals|
  {
    var byPayout := WithdrawalByPayout(b, hook.payoutId.value);
    byPayout == Some(i)
    || (byPayout.None? && hook.reference.Some? && WithdrawalByReference(b, hook.reference.value) == Some(i))
  }

  /** A first payout webhook gets through exactly when its reference is the row's and its status is known:
      it never clashes with another row's payout id. An open withdrawal then follows the report and is
      found by that payout id from then on; a closed one stays. */
  lemma PayoutWebhookExactlyWhen(b: Books, i: nat, rides: map<Id, Ride>, hook: Webhook, now: nat)
    requires Sound(b) && hook.eventId !in b.events && hook.payoutId.Some? && i < |b.withdrawals|
        && Addresses(b, hook, i)
    ensures var w := b.withdrawals[i]; var o := ApplyWebhook(b, rides, hook, now); var target :=
        WithdrawalTarget(hook.status);
            && (o.Done? <==> hook.reference == Some(w.reference) && target.Some?)
            && (o.Done? ==>
                  && |o.books.withdrawals| == |b.withdrawals|
                  && o.books.withdrawals[i].status == NextStatus(w.status, target.value)
                  && (w.status in OPEN ==> WithdrawalByPayout(o.books, hook.payoutId.value) == Some(i)))
  {
    var stored := b.(events := b.events + {hook.eventId});
    SameTablesSound(b, stored);
    assert Addresses(stored, hook, i);
    PayoutHookOutcome(stored, i, hook, now);
  }

  lemma PayoutHookOutcome(b: Books, i: nat, hook: Webhook, now: nat)
    requires Sound(b) && hook.payoutId.Some? && i < |b.withdrawals| && Addresses(b, hook, i)
    ensures var w := b.withdrawals[i]; var o := WebhookPayout(b, hook, now); var target :=
        WithdrawalTarget(hook.status);
            && (o.Done? <==> hook.reference == Some(w.reference) && target.Some?)
            && (o.Done? ==>
                  && |o.books.withdrawals| == |b.withdrawals|
                  && o.books.withdrawals[i].status == NextStatus(w.status, target.value)
                  && (w.status in OPEN ==> WithdrawalByPayout(o.books, hook.payoutId.value) == Some(i)))
  {
    var w := b.withdrawals[i];
    AddressedRowTakesPayout(b, i, hook);
    if WithdrawalTarget(hook.status).Some? {
      var target := WithdrawalTarget(hook.status).value;
      ReportTaken(b, i, target, hook.payoutId.value, hook.status, now);
      assert hook.reference == Some(w.reference) ==>
          WebhookPayout(b, hook, now) == Lift(MarkWithdrawal(b, w.id, target, hook.payoutId, hook.status, now),
              [PayoutReport(w.id, target)]);
    }
  }

  lemma AddressedRowTakesPayout(b: Books, i: nat, hook: Webhook)
    requires Sound(b) && hook.payoutId.Some? && i < |b.withdrawals| && Addresses(b, hook, i)
    ensures !PayoutTaken(b, b.withdrawals[i].id, hook.payoutId)
  {
    forall k | 0 <= k < |b.withdrawals| && b.withdrawals[k].id != b.withdrawals[i].id
      ensures b.withdrawals[k].payoutId != hook.payoutId
    {
      RowsDiffer(b.withdrawals, k, i);
    }
  }

  lemma ReportTaken(b: Books, i: nat, target: WithdrawalStatus, payout: Id, word: string, now: nat)
    requires Sound(b) && i < |b.withdrawals| && !PayoutTaken(b, b.withdrawals[i].id, Some(payout))
    ensures var w := b.withdrawals[i]; var m := MarkWithdrawal(b, w.id, target, Some(payout), word, now);
            && m.Ok? && |m.value.withdrawals| == |b.withdrawals|
            && m.value.withdrawals[i].status == NextStatus(w.status, target)
            && (w.status in OPEN ==> WithdrawalByPayout(m.value, payout) == Some(i))
  {
    var w := b.withdrawals[i];
    FoundAt(b, i);
    assert RowLogged(b.ledger, w);
    if w.status in OPEN {
      ReportEffect(b, i, target, Some(payout), word, now);
      PayoutIdSticks(b, i, target, payout, word, now);
    }
  }
}
