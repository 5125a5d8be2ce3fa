/** What each payout word does to the tables, by webhook, by synchronous answer and by sweep: stated on
    the words and the tables alone. */
module PayoutOutcomes {
  import opened Prelude
  import opened PaymentDomain
  import opened PaymentBooks
  import opened PaymentFlows
  import opened WalletLaws
  import opened WithdrawalLaws
  import opened PaymentRuns
  import opened PaymentTheorems
  import opened PaymentEffects

  const PAID_WORDS: set<string> := {"succeeded"}
  const FAILED_WORDS: set<string> := {"failed", "disputed"}
  const OPEN_WORDS: set<string> := {"pending", "processing"}

  predicate KnownWord(word: string) {
    word in PAID_WORDS || word in FAILED_WORDS || word in OPEN_WORDS
  }

  /** Row `i` alone changed, keeps its money, and carries the payout id and the provider's word. */
  ghost predicate RowReported(b: Books, r: Books, i: nat, payout: Id, word: string) {
    && OnlyRow(b, r, i)
    && r.withdrawals[i].payoutId == Some(payout) && r.withdrawals[i].providerStatus == Some(word)
  }

  ghost predicate TotalsMoved(b: Books, r: Books, driver: Id, balance: int, reserved: int, paid: int) {
    forall d: Id ::
      && Balance(r, d) == Balance(b, d) + (if d == driver then balance else 0)
      && ReservedTotal(r, d) == ReservedTotal(b, d) + (if d == driver then reserved else 0)
      && SucceededTotal(r, d) == SucceededTotal(b, d) + (if d == driver then paid else 0)
  }

  /** The money is gone for good: no balance moves, the reservation becomes a payment. */
  ghost predicate PaidOut(b: Books, r: Books, i: nat, now: nat)
    requires i < |b.withdrawals| && i < |r.withdrawals|
  {
    var w := b.withdrawals[i];
    && r.withdrawals[i].status == WithdrawalStatus.Succeeded && r.withdrawals[i].succeededAt == Some(now)
    && TotalsMoved(b, r, w.driver, 0, -(w.amount as int), w.amount)
    && r.ledger
       == b.ledger + [Entry(Key(w.driver, WithdrawalSucceeded, WithdrawalRef(w.id)), w.amount, Debit, EntryConfirmed)]
  }

  /** The reservation goes back to the driver's balance. */
  ghost predicate GivenBack(b: Books, r: Books, i: nat, now: nat)
    requires i < |b.withdrawals| && i < |r.withdrawals|
  {
    var w := b.withdrawals[i];
    && r.withdrawals[i].status == WithdrawalStatus.Released && r.withdrawals[i].releasedAt == Some(now)
    && TotalsMoved(b, r, w.driver, w.amount, -(w.amount as int), 0)
    && r.ledger
       == b.ledger + [Entry(Key(w.driver, WithdrawalReleased, WithdrawalRef(w.id)), w.amount, Credit, EntryConfirmed)]
  }

  ghost predicate StillOpen(b: Books, r: Books, i: nat)
    requires i < |b.withdrawals| && i < |r.withdrawals|
  {
    && r.withdrawals[i].status == WithdrawalStatus.Processing
    && TotalsMoved(b, r, b.withdrawals[i].driver, 0, 0, 0) && r.ledger == b.ledger
  }

  ghost predicate FollowsWord(b: Books, r: Books, i: nat, payout: Id, word: string, now: nat) {
    && RowReported(b, r, i, payout, word)
    && (word in PAID_WORDS ==> PaidOut(b, r, i, now))
    && (word in FAILED_WORDS ==> GivenBack(b, r, i, now))
    && (word in OPEN_WORDS ==> StillOpen(b, r, i))
  }

  // ---------------------------------------------------------------- one report on an open row

  lemma TargetsMean(word: string)
    ensures WithdrawalTarget(word).Some? <==> KnownWord(word)
    ensures word in PAID_WORDS ==> WithdrawalTarget(word) == Some(WithdrawalStatus.Succeeded)
    ensures word in FAILED_WORDS ==> WithdrawalTarget(word) == Some(WithdrawalStatus.Failed)
    ensures word in OPEN_WORDS ==> WithdrawalTarget(word) == Some(WithdrawalStatus.Processing)
  {
  }

  lemma RowTotals(b: Books, i: nat, v: Withdrawal, d: Id)
    requires i < |b.withdrawals|
    ensures Total(b.withdrawals[i := v], d, OPEN)
         == Total(b.withdrawals, d, OPEN) - Share(b.withdrawals[i], d, OPEN) + Share(v, d, OPEN)
    ensures Total(b.withdrawals[i := v], d, PAID)
         == Total(b.withdrawals, d, PAID) - Share(b.withdrawals[i], d, PAID) + Share(v, d, PAID)
  {
    RowChanges(b.withdrawals, i, v, d, OPEN);
    RowChanges(b.withdrawals, i, v, d, PAID);
  }

  lemma SettledTotals(b: Books, i: nat, v: Withdrawal)
    requires Settles(b, i, v)
    ensures var a := v.amount as int;
            if v.status.Succeeded? then TotalsMoved(b, Settled(b, i, v), v.driver, 0, -a, a)
            else TotalsMoved(b, Settled(b, i, v), v.driver, a, -a, 0)
  {
    forall d: Id { RowTotals(b, i, v, d); }
  }

  lemma OpenTotals(b: Books, i: nat, v: Withdrawal)
    requires i < |b.withdrawals| && SameMoney(b.withdrawals[i], v)
    requires b.withdrawals[i].status in OPEN && v.status in OPEN
    ensures TotalsMoved(b, b.(withdrawals := b.withdrawals[i := v]), v.driver, 0, 0, 0)
  {
    forall d: Id { RowTotals(b, i, v, d); }
  }

  /** The report as the row now reads it. */
  lemma ReportReads(w: Withdrawal, word: string, payout: Id, now: nat)
    requires w.status in OPEN && KnownWord(word)
    ensures var v := Reported(w, WithdrawalTarget(word).value, Some(payout), word, now);
            && SameMoney(w, v) && v.payoutId == Some(payout) && v.providerStatus == Some(word)
            && (word in PAID_WORDS ==> v.status == WithdrawalStatus.Succeeded && v.succeededAt == Some(now))
            && (word in FAILED_WORDS ==> v.status == WithdrawalStatus.Released && v.releasedAt == Some(now))
            && (word in OPEN_WORDS ==> v.status == WithdrawalStatus.Processing)
  {
    TargetsMean(word);
  }

  predicate PayoutFree(b: Books, i: nat, payout: Id)
    requires i < |b.withdrawals|
  {
    forall k | 0 <= k < |b.withdrawals| && k != i :: b.withdrawals[k].payoutId != Some(payout)
  }

  lemma FreeIsNotTaken(b: Books, i: nat, payout: Id)
    requires i < |b.withdrawals| && PayoutFree(b, i, payout)
    ensures !PayoutTaken(b, b.withdrawals[i].id, Some(payout))
  {
  }

  lemma ReportMeans(b: Books, i: nat, word: string, payout: Id, now: nat)
    requires Sound(b) && i < |b.withdrawals| && b.withdrawals[i].status in OPEN
    requires KnownWord(word) && !PayoutTaken(b, b.withdrawals[i].id, Some(payout))
    ensures WithdrawalTarget(word).Some?
    ensures var m := MarkWithdrawal(b, b.withdrawals[i].id, WithdrawalTarget(word).value, Some(payout), word, now);
            m.Ok? && FollowsWord(b, m.value, i, payout, word, now)
  {
    TargetsMean(word);
    var w, target := b.withdrawals[i], WithdrawalTarget(word).value;
    var v := Reported(w, target, Some(payout), word, now);
    FoundAt(b, i);
    ReportEffect(b, i, target, Some(payout), word, now);
    ReportReads(w, word, payout, now);
    RowReplaced(b, i, v, w.driver);
    if word in OPEN_WORDS {
      OpenTotals(b, i, v);
    } else {
      SettledTotals(b, i, v);
    }
  }

  // ---------------------------------------------------------------- the three ways a report comes in

  /** A first payout webhook on an open withdrawal, under its reference: "succeeded" pays it out, "failed"
      and "disputed" give it back, "pending" and "processing" leave it reserved, any other word raises. */
  lemma {:induction false} PayoutWebhookMeans(b: Books, i: nat, rides: map<Id, Ride>, hook: Webhook, now: nat)
    requires Sound(b) && i < |b.withdrawals| && b.withdrawals[i].status in OPEN
    requires hook.eventId !in b.events && hook.payoutId.Some? && Addresses(b, hook, i)
    requires hook.reference == Some(b.withdrawals[i].reference)
    ensures var o := ApplyWebhook(b, rides, hook, now);
            && (o.Done? <==> KnownWord(hook.status))
            && (o.Done? ==> FollowsWord(b, o.books, i, hook.payoutId.value, hook.status, now))
  {
    var stored := b.(events := b.events + {hook.eventId});
    SameTablesSound(b, stored);
    assert Addresses(stored, hook, i);
    AddressedRowTakesPayout(stored, i, hook);
    TargetsMean(hook.status);
    if KnownWord(hook.status) {
      ReportMeans(stored, i, hook.status, hook.payoutId.value, now);
      var r := ApplyWebhook(b, rides, hook, now).books;
      StoredEventIrrelevant(b, stored, r, i, hook.payoutId.value, hook.status, now);
    }
  }

  lemma StoredEventIrrelevant(b: Books, stored: Books, r: Books, i: nat, payout: Id, word: string, now: nat)
    requires stored == b.(events := stored.events) && FollowsWord(stored, r, i, payout, word, now)
    ensures FollowsWord(b, r, i, payout, word, now)
  {
    forall d: Id
      ensures Balance(stored, d) == Balance(b, d) && ReservedTotal(stored, d) == ReservedTotal(b, d)
           && SucceededTotal(stored, d) == SucceededTotal(b, d)
    {}
  }

  /** An answer with the withdrawal's net amount, currency and reference, and a payout id no other row has. */
  predicate AnswersFor(b: Books, i: nat, payout: Payout)
    requires i < |b.withdrawals|
  {
    var w := b.withdrawals[i];
    && payout.amount == Number(w.net) && payout.currency == Some(w.currency) && payout.reference == Some(w.reference)
    && payout.id.Some? && PayoutFree(b, i, payout.id.value)
  }

  lemma NetIsPositive(b: Books, i: nat)
    requires Sound(b) && i < |b.withdrawals|
    ensures b.withdrawals[i].net > 0
  {
    assert Copies(b.withdrawals[i], b.quotes[b.withdrawals[i].quoteId]);
  }

  lemma {:induction false} PayoutAnswerMeans(b: Books, i: nat, payout: Payout, now: nat)
    requires Sound(b) && i < |b.withdrawals| && b.withdrawals[i].status in OPEN && AnswersFor(b, i, payout)
    ensures var o := ApplyPayout(b, b.withdrawals[i].id, payout, now);
            && (o.Done? <==> KnownWord(payout.status))
            && (o.Done? ==> FollowsWord(b, o.books, i, payout.id.value, payout.status, now))
  {
    FoundAt(b, i);
    NetIsPositive(b, i);
    FreeIsNotTaken(b, i, payout.id.value);
    TargetsMean(payout.status);
    if KnownWord(payout.status) {
      ReportMeans(b, i, payout.status, payout.id.value, now);
    }
  }

  /** In a sweep an unknown word is counted as an error and moves nothing. */
  lemma {:induction false} SweepPayoutMeans(b: Books, i: nat, payout: Payout, now: nat)
    requires Sound(b) && i < |b.withdrawals| && b.withdrawals[i].status in OPEN && AnswersFor(b, i, payout)
    ensures var s := ReconcileWithdrawal(b, b.withdrawals[i].id, PayoutFound(payout), now);
            && s.Counted?
            && (if KnownWord(payout.status) then FollowsWord(b, s.books, i, payout.id.value, payout.status, now)
                else s.bucket.Errored? && s.books == b)
            && (KnownWord(payout.status) ==>
                  s.bucket == if s.books.withdrawals[i].status == b.withdrawals[i].status then Unchanged else Updated)
  {
    FoundAt(b, i);
    NetIsPositive(b, i);
    FreeIsNotTaken(b, i, payout.id.value);
    TargetsMean(payout.status);
    if KnownWord(payout.status) {
      ReportMeans(b, i, payout.status, payout.id.value, now);
    }
  }
}
