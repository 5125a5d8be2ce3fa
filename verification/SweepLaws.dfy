/** The reconciliation sweep: its report adds up, and repeating it on the same rows with the same
    provider answers finds nothing left to do. */
module SweepLaws {
  import opened Prelude
  import opened PaymentDomain
  import opened PaymentBooks
  import opened PaymentFlows
  import opened WalletLaws
  import opened WithdrawalLaws
  import opened PaymentRuns
  import opened PaymentTraces
  import opened PaymentTheorems
  import opened PaymentSafety

  predicate Balances(r: Report) {
    r.checked == r.updated + r.same + r.missing + r.mismatched + r.errors && r.updated == |r.references|
  }

  /** Every sweep that returns counted each row exactly once, and named each row it updated. */
  lemma {:induction false} SweepAddsUp(b: Books, rides: map<Id, Ride>, jobs: seq<Job>, now: nat)
    ensures var s := Sweep(b, rides, jobs, now);
            s.Sweeping? ==> Balances(s.report) && s.report.checked == |jobs|
  {
    if |jobs| > 0 && Sweep(b, rides, jobs, now).Sweeping? {
      SweepAddsUp(b, rides, jobs[..|jobs| - 1], now);
      var bucket, reference := LastTally(b, rides, jobs, now);
      TallyBalances(Sweep(b, rides, jobs[..|jobs| - 1], now).report, bucket, reference);
    }
  }

  lemma TallyBalances(r: Report, bucket: Bucket, reference: Reference)
    requires Balances(r)
    ensures Balances(Tally(r, bucket, reference)) && Tally(r, bucket, reference).checked == r.checked + 1
  {
  }

  /** A sweep that returns is a shorter one with one row tallied more. */
  lemma {:induction false} LastTally(b: Books, rides: map<Id, Ride>, jobs: seq<Job>, now: nat) returns (bucket: Bucket,
    reference: Reference)
    requires |jobs| > 0 && Sweep(b, rides, jobs, now).Sweeping?
    ensures var before := Sweep(b, rides, jobs[..|jobs| - 1], now);
            before.Sweeping? && Sweep(b, rides, jobs, now).report == Tally(before.report, bucket, reference)
  {
    var before := Sweep(b, rides, jobs[..|jobs| - 1], now);
    var last := Reconcile(before.books, rides, jobs[|jobs| - 1], now);
    bucket, reference := last.bucket, last.reference;
  }

  // ---------------------------------------------------------------- when a sweep returns

  /** What one row needs for the sweep to go on: it exists, and a withdrawal's payout could be read, has a
      numeric amount and, once it matches with a known status, an id no other withdrawal carries. */
  ghost predicate RowSurvives(b: Books, job: Job) {
    match job
    case PaymentJob(id, _) => PaymentById(b, id).Some?
    case TopupJob(id, _) => TopupById(b, id).Some?
    case WithdrawalJob(id, answer) =>
      && WithdrawalById(b, id).Some? && !answer.PayoutCrash?
      && (answer.PayoutFound? ==> PayoutSurvives(b, b.withdrawals[WithdrawalById(b, id).value], answer.payout))
  }

  ghost predicate PayoutSurvives(b: Books, w: Withdrawal, payout: Payout) {
    && AmountField(payout.amount).Some?
    && (PayoutMatches(payout, w) && WithdrawalTarget(payout.status).Some? ==>
          payout.id.Some? && (Terminal(w.status) || !PayoutTaken(b, w.id, payout.id)))
  }

  lemma RowSurvivesExactlyWhen(b: Books, rides: map<Id, Ride>, job: Job, now: nat)
    requires Sound(b)
    ensures Reconcile(b, rides, job, now).Counted? <==> RowSurvives(b, job)
  {
    if job.WithdrawalJob? && WithdrawalById(b, job.withdrawal).Some? && job.payoutAnswer.PayoutFound? {
      WithdrawalSurvivesExactlyWhen(b, WithdrawalById(b, job.withdrawal).value, job.payoutAnswer.payout, now);
    }
  }

  lemma WithdrawalSurvivesExactlyWhen(b: Books, i: nat, payout: Payout, now: nat)
    requires Sound(b) && i < |b.withdrawals| && WithdrawalById(b, b.withdrawals[i].id) == Some(i)
    ensures ReconcileWithdrawal(b, b.withdrawals[i].id, PayoutFound(payout), now).Counted? <==>
              PayoutSurvives(b, b.withdrawals[i], payout)
  {
    if WithdrawalTarget(payout.status).Some? {
      ReportRefusedExactlyWhen(b, i, WithdrawalTarget(payout.status).value, payout.id, payout.status, now);
    }
  }

  /** The sweep up to row `k` returned, and row `k` survives there. */
  ghost predicate SurvivesAt(b: Books, rides: map<Id, Ride>, jobs: seq<Job>, now: nat, k: nat)
    requires k < |jobs|
  {
    var s := Sweep(b, rides, jobs[..k], now);
    s.Sweeping? && RowSurvives(s.books, jobs[k])
  }

  lemma SurvivesInPrefix(b: Books, rides: map<Id, Ride>, jobs: seq<Job>, now: nat, k: nat)
    requires k < |jobs| - 1
    ensures SurvivesAt(b, rides, jobs[..|jobs| - 1], now, k) <==> SurvivesAt(b, rides, jobs, now, k)
  {
    assert jobs[..|jobs| - 1][..k] == jobs[..k];
  }

  ghost predicate AllSurvive(b: Books, rides: map<Id, Ride>, jobs: seq<Job>, now: nat) {
    forall k | 0 <= k < |jobs| :: SurvivesAt(b, rides, jobs, now, k)
  }

  lemma AllSurviveSplits(b: Books, rides: map<Id, Ride>, jobs: seq<Job>, now: nat)
    requires |jobs| > 0
    ensures AllSurvive(b, rides, jobs, now) <==>
              AllSurvive(b, rides, jobs[..|jobs| - 1], now) && SurvivesAt(b, rides, jobs, now, |jobs| - 1)
  {
    var n := |jobs| - 1;
    forall k | 0 <= k < n ensures SurvivesAt(b, rides, jobs[..n], now, k) <==> SurvivesAt(b, rides, jobs, now, k) {
      SurvivesInPrefix(b, rides, jobs, now, k);
    }
    if AllSurvive(b, rides, jobs, now) {
      forall k | 0 <= k < n ensures SurvivesAt(b, rides, jobs[..n], now, k) {
        assert SurvivesAt(b, rides, jobs, now, k);
      }
    }
    if AllSurvive(b, rides, jobs[..n], now) && SurvivesAt(b, rides, jobs, now, n) {
      forall k | 0 <= k < |jobs| ensures SurvivesAt(b, rides, jobs, now, k) {
        assert k < n ==> SurvivesAt(b, rides, jobs[..n], now, k);
      }
    }
  }

  /** From any sound state a sweep returns exactly when each of its rows survives where the sweep meets it:
      one bad payout answer stops the whole sweep, and the rollback takes the earlier rows with it. */
  lemma {:induction false} SweepReturnsExactlyWhen(b: Books, rides: map<Id, Ride>, jobs: seq<Job>, now: nat)
    requires Sound(b)
    ensures Sweep(b, rides, jobs, now).Sweeping? <==> AllSurvive(b, rides, jobs, now)
  {
    if |jobs| > 0 {
      SweepReturnsExactlyWhen(b, rides, jobs[..|jobs| - 1], now);
      AllSurviveSplits(b, rides, jobs, now);
      SweepGoesOnExactlyWhen(b, rides, jobs, now);
    }
  }

  lemma SweepGoesOnExactlyWhen(b: Books, rides: map<Id, Ride>, jobs: seq<Job>, now: nat)
    requires Sound(b) && |jobs| > 0
    ensures Sweep(b, rides, jobs, now).Sweeping? <==> SurvivesAt(b, rides, jobs, now, |jobs| - 1)
    ensures Sweep(b, rides, jobs, now).Sweeping? ==> Sweep(b, rides, jobs[..|jobs| - 1], now).Sweeping?
  {
    SweepSound(b, rides, jobs[..|jobs| - 1], now);
    OnlySurvivorsGoOn(Sweep(b, rides, jobs[..|jobs| - 1], now), rides, jobs[|jobs| - 1], now);
  }

  lemma OnlySurvivorsGoOn(s: SweepState, rides: map<Id, Ride>, job: Job, now: nat)
    requires s.Sweeping? ==> Sound(s.books)
    ensures SweepOn(s, rides, job, now).Sweeping? <==> s.Sweeping? && RowSurvives(s.books, job)
  {
    if s.Sweeping? {
      RowSurvivesExactlyWhen(s.books, rides, job, now);
    }
  }

  // ---------------------------------------------------------------- repeating a sweep

  /** The provider's answer about a payment-like row leaves that row as it is. */
  predicate SettledAnswer(answer: IntentAnswer, amount: int, currency: string, reference: Option<Reference>) {
    || !answer.IntentFound?
    || IntentMismatch(answer.intent, amount, currency, reference)
    || ServiceStatus(answer.intent.status).None?
  }

  predicate CalmPayment(p: Payment, answer: IntentAnswer) {
    || p.intentId.None?
    || SettledAnswer(answer, p.amount, p.currency, p.reference)
    || (ServiceStatus(answer.intent.status) == Some(p.status) && answer.intent.nextAction == p.nextAction)
  }

  predicate CalmTopup(t: Topup, answer: IntentAnswer) {
    || t.intentId.None?
    || SettledAnswer(answer, t.amount, t.currency, Some(t.reference))
    || (TopupStatusOf(ServiceStatus(answer.intent.status).value) == t.status && answer.intent.nextAction
        == t.nextAction)
  }

  predicate CalmWithdrawal(w: Withdrawal, answer: PayoutAnswer) {
    match answer
    case PayoutApiError => true
    case PayoutCrash => false
    case UnknownPayout => true
    case PayoutFound(payout) =>
      AmountField(payout.amount).Some?
      && (|| !PayoutMatches(payout, w)
          || WithdrawalTarget(payout.status).None?
          || (payout.id.Some?
              && (Terminal(w.status) || (w.payoutId == payout.id && WithdrawalTarget(payout.status)
                  == Some(w.status)))))
  }

  /** Processing this row again would find it already in the state the provider reports. */
  predicate Calm(b: Books, job: Job) {
    match job
    case PaymentJob(id, answer) => PaymentById(b, id).Some? && CalmPayment(b.payments[PaymentById(b, id).value], answer)
    case TopupJob(id, answer) => TopupById(b, id).Some? && CalmTopup(b.topups[TopupById(b, id).value], answer)
    case WithdrawalJob(id, answer) =>
      WithdrawalById(b, id).Some? && CalmWithdrawal(b.withdrawals[WithdrawalById(b, id).value], answer)
  }

  predicate SameRow(x: Job, y: Job) {
    || (x.PaymentJob? && y.PaymentJob? && x.payment == y.payment)
    || (x.TopupJob? && y.TopupJob? && x.topup == y.topup)
    || (x.WithdrawalJob? && y.WithdrawalJob? && x.withdrawal == y.withdrawal)
  }

  /** The provider gives one answer per row. */
  ghost predicate OneAnswer(jobs: seq<Job>) {
    forall i, j | 0 <= i < |jobs| && 0 <= j < |jobs| && SameRow(jobs[i], jobs[j]) :: jobs[i] == jobs[j]
  }

  lemma PaymentIndexStable(b: Books, r: Books, i: nat, p: Payment, id: Id)
    requires i < |b.payments| && p.id == b.payments[i].id && r.payments == b.payments[i := p]
    ensures PaymentById(r, id) == PaymentById(b, id)
  {
    var x, y := PaymentById(b, id), PaymentById(r, id);
    if x.Some? {
      assert r.payments[x.value].id == id;
    }
    if y.Some? {
      assert b.payments[y.value].id == id;
    }
  }

  /** What one sweep step may edit: the row of its own job. */
  ghost predicate EditsOnly(b: Books, r: Books, job: Job) {
    && |r.payments| == |b.payments| && |r.topups| == |b.topups| && |r.withdrawals| == |b.withdrawals|
    && (r.payments == b.payments
        || (job.PaymentJob? && var i := PaymentById(b, job.payment);
            i.Some? && r.payments[i.value].id == job.payment && r.payments
                == b.payments[i.value := r.payments[i.value]]))
    && (r.topups == b.topups
        || (job.TopupJob? && var i := TopupById(b, job.topup);
            i.Some? && r.topups[i.value].id == job.topup && r.topups == b.topups[i.value := r.topups[i.value]]))
    && (r.withdrawals == b.withdrawals
        || (job.WithdrawalJob? && var i := WithdrawalById(b, job.withdrawal);
            i.Some? && r.withdrawals[i.value].id == job.withdrawal && r.withdrawals
                == b.withdrawals[i.value := r.withdrawals[i.value]]))
  }

  lemma TransactionEdits(
    b: Books, rides: map<Id, Ride>, id: Id, status: PaymentStatus, word: string, paidAt: Option<nat>,
        next: Option<Option<Id>>)
    requires PaymentById(b, id).Some?
    ensures var o := ApplyTransaction(b, rides, id, status, word, paidAt, next); var i := PaymentById(b, id).value;
            o.Done? && o.books.topups == b.topups && o.books.withdrawals == b.withdrawals
            && o.books.payments == b.payments[i := MarkedExternal(b.payments[i], status, word, paidAt, next)]
  {
  }

  lemma PaymentStep(b: Books, rides: map<Id, Ride>, id: Id, answer: IntentAnswer, now: nat)
    requires Reconcile(b, rides, PaymentJob(id, answer), now).Counted?
    ensures var s := Reconcile(b, rides, PaymentJob(id, answer), now);
            EditsOnly(b, s.books, PaymentJob(id, answer)) && Calm(s.books, PaymentJob(id, answer))
  {
    var s := Reconcile(b, rides, PaymentJob(id, answer), now);
    var i := PaymentById(b, id).value;
    if s.bucket.Updated? {
      var status := ServiceStatus(answer.intent.status).value;
      TransactionEdits(b, rides, id, status, answer.intent.status, PaidAt(status.Succeeded?, now),
          Some(answer.intent.nextAction));
      PaymentIndexStable(b, s.books, i, s.books.payments[i], id);
    } else {
      assert s.books == b;
    }
  }

  lemma TopupStep(b: Books, rides: map<Id, Ride>, id: Id, answer: IntentAnswer, now: nat)
    requires Reconcile(b, rides, TopupJob(id, answer), now).Counted?
    ensures var s := Reconcile(b, rides, TopupJob(id, answer), now);
            EditsOnly(b, s.books, TopupJob(id, answer)) && Calm(s.books, TopupJob(id, answer))
  {
    var s := Reconcile(b, rides, TopupJob(id, answer), now);
    var i := TopupById(b, id).value;
    if s.bucket.Updated? {
      TopupIndexStable(b, s.books, i, s.books.topups[i], id);
    }
  }

  lemma WithdrawalStep(b: Books, rides: map<Id, Ride>, id: Id, answer: PayoutAnswer, now: nat)
    requires Reconcile(b, rides, WithdrawalJob(id, answer), now).Counted?
    ensures var s := Reconcile(b, rides, WithdrawalJob(id, answer), now);
            EditsOnly(b, s.books, WithdrawalJob(id, answer)) && Calm(s.books, WithdrawalJob(id, answer))
  {
    var s := Reconcile(b, rides, WithdrawalJob(id, answer), now);
    var i := WithdrawalById(b, id).value;
    if answer.PayoutFound? && PayoutMatches(answer.payout, b.withdrawals[i])
        && WithdrawalTarget(answer.payout.status).Some? {
      MarkShape(b, id, WithdrawalTarget(answer.payout.status).value, answer.payout.id, answer.payout.status, now);
      RowIndexStable(b, s.books, i, s.books.withdrawals[i], id);
    }
  }

  /** A processed row is calm, and only that row was edited. */
  lemma {:induction false} StepCalms(b: Books, rides: map<Id, Ride>, job: Job, now: nat)
    requires Reconcile(b, rides, job, now).Counted?
    ensures EditsOnly(b, Reconcile(b, rides, job, now).books, job) && Calm(Reconcile(b, rides, job, now).books, job)
  {
    match job
    case PaymentJob(id, answer) => PaymentStep(b, rides, id, answer, now);
    case TopupJob(id, answer) => TopupStep(b, rides, id, answer, now);
    case WithdrawalJob(id, answer) => WithdrawalStep(b, rides, id, answer, now);
  }

  lemma OthersStayCalm(b: Books, r: Books, job: Job, other: Job)
    requires EditsOnly(b, r, job) && !SameRow(job, other) && Calm(b, other)
    ensures Calm(r, other)
  {
    match other
    case PaymentJob(id, _) =>
      if r.payments != b.payments {
        var i := PaymentById(b, job.payment).value;
        PaymentIndexStable(b, r, i, r.payments[i], id);
      }
    case TopupJob(id, _) =>
      if r.topups != b.topups {
        var i := TopupById(b, job.topup).value;
        TopupIndexStable(b, r, i, r.topups[i], id);
      }
    case WithdrawalJob(id, _) =>
      if r.withdrawals != b.withdrawals {
        var i := WithdrawalById(b, job.withdrawal).value;
        RowIndexStable(b, r, i, r.withdrawals[i], id);
      }
  }

  ghost predicate AllCalm(b: Books, jobs: seq<Job>) {
    forall k | 0 <= k < |jobs| :: Calm(b, jobs[k])
  }

  lemma OneMoreCalm(before: Books, after: Books, jobs: seq<Job>)
    requires OneAnswer(jobs) && |jobs| > 0 && AllCalm(before, jobs[..|jobs| - 1])
    requires EditsOnly(before, after, jobs[|jobs| - 1]) && Calm(after, jobs[|jobs| - 1])
    ensures AllCalm(after, jobs)
  {
    var n := |jobs| - 1;
    forall k | 0 <= k < |jobs| ensures Calm(after, jobs[k]) {
      if k < n && !SameRow(jobs[n], jobs[k]) {
        assert Calm(before, jobs[..n][k]);
        OthersStayCalm(before, after, jobs[n], jobs[k]);
      }
    }
  }

  /** After a sweep that returns, every row it processed is calm. */
  lemma {:induction false} SweepCalms(b: Books, rides: map<Id, Ride>, jobs: seq<Job>, now: nat)
    requires OneAnswer(jobs) && Sweep(b, rides, jobs, now).Sweeping?
    ensures AllCalm(Sweep(b, rides, jobs, now).books, jobs)
  {
    if |jobs| > 0 {
      var early := jobs[..|jobs| - 1];
      assert OneAnswer(early);
      SweepCalms(b, rides, early, now);
      var before := Sweep(b, rides, early, now).books;
      StepCalms(before, rides, jobs[|jobs| - 1], now);
      OneMoreCalm(before, Sweep(b, rides, jobs, now).books, jobs);
    }
  }

  /** Same tables, up to the bookkeeping columns a repeated report may rewrite. */
  predicate SameBooks(b: Books, r: Books) {
    && r.wallets == b.wallets && r.ledger == b.ledger && r.topups == b.topups && r.payments == b.payments
    && r.quotes == b.quotes && r.events == b.events && |r.withdrawals| == |b.withdrawals|
    && forall i | 0 <= i < |b.withdrawals| ::
         b.withdrawals[i].(updatedAt := 0, providerStatus := None)
             == r.withdrawals[i].(updatedAt := 0, providerStatus := None)
  }

  lemma CalmIntentStep(b: Books, rides: map<Id, Ride>, job: Job, now: nat)
    requires Calm(b, job) && !job.WithdrawalJob?
    ensures var s := Reconcile(b, rides, job, now); s.Counted? && !s.bucket.Updated? && s.books == b
  {
  }

  lemma {:induction false} CalmStep(b: Books, rides: map<Id, Ride>, job: Job, now: nat)
    requires Sound(b) && Calm(b, job)
    ensures var s := Reconcile(b, rides, job, now);
            s.Counted? && !s.bucket.Updated? && SameBooks(b, s.books)
  {
    if !job.WithdrawalJob? {
      CalmIntentStep(b, rides, job, now);
    } else if job.payoutAnswer.PayoutFound? {
      CalmWithdrawalStep(b, rides, job.withdrawal, job.payoutAnswer.payout, now);
    }
  }

  lemma CalmWithdrawalStep(b: Books, rides: map<Id, Ride>, id: Id, payout: Payout, now: nat)
    requires Sound(b) && Calm(b, WithdrawalJob(id, PayoutFound(payout)))
    ensures var s := Reconcile(b, rides, WithdrawalJob(id, PayoutFound(payout)), now);
            s.Counted? && !s.bucket.Updated? && SameBooks(b, s.books)
  {
    var i := WithdrawalById(b, id).value;
    var w := b.withdrawals[i];
    assert RowLogged(b.ledger, w);
    if PayoutMatches(payout, w) && WithdrawalTarget(payout.status).Some? && !Terminal(w.status) {
      forall k | 0 <= k < |b.withdrawals| && b.withdrawals[k].id != id ensures b.withdrawals[k].payoutId != payout.id {
        RowsDiffer(b.withdrawals, k, i);
      }
      ReportEffect(b, i, w.status, payout.id, payout.status, now);
    }
  }

  lemma SameBooksCalm(b: Books, r: Books, job: Job)
    requires SameBooks(b, r) && Calm(b, job)
    ensures Calm(r, job)
  {
    if job.WithdrawalJob? {
      var x, y := WithdrawalById(b, job.withdrawal), WithdrawalById(r, job.withdrawal);
      assert r.withdrawals[x.value].id == job.withdrawal;
      assert b.withdrawals[y.value].id == job.withdrawal;
      assert x == y;
    }
  }

  /** The sweep so far changed nothing that counts. */
  ghost predicate Quiet(b: Books, s: SweepState) {
    s.Sweeping? && s.report.updated == 0 && Sound(s.books) && SameBooks(b, s.books)
  }

  lemma {:induction false} CalmSweep(b: Books, rides: map<Id, Ride>, jobs: seq<Job>, now: nat)
    requires Sound(b) && AllCalm(b, jobs)
    ensures Quiet(b, Sweep(b, rides, jobs, now))
  {
    if |jobs| > 0 {
      var early, last := jobs[..|jobs| - 1], jobs[|jobs| - 1];
      assert AllCalm(b, early) && Calm(b, last);
      CalmSweep(b, rides, early, now);
      StaysQuiet(b, Sweep(b, rides, early, now), rides, last, now);
    }
  }

  lemma StaysQuiet(b: Books, s: SweepState, rides: map<Id, Ride>, job: Job, now: nat)
    requires Quiet(b, s) && Calm(b, job)
    ensures Quiet(b, SweepOn(s, rides, job, now))
  {
    SameBooksCalm(b, s.books, job);
    CalmStep(s.books, rides, job, now);
    ReconcileSound(s.books, rides, job, now);
    SameBooksTrans(b, s.books, Reconcile(s.books, rides, job, now).books);
  }

  lemma SameBooksTrans(b: Books, m: Books, r: Books)
    requires SameBooks(b, m) && SameBooks(m, r)
    ensures SameBooks(b, r)
  {}

  /** Re-processing the same rows against the same provider answers, at any later time and whatever
      the rides look like by then, cannot fail, updates nothing and moves no balance. */
  lemma {:induction false} SweepIsStable(b: Books, rides: map<Id, Ride>, laterRides: map<Id, Ride>, jobs: seq<Job>,
    now: nat, later: nat)
    requires Sound(b) && OneAnswer(jobs) && Sweep(b, rides, jobs, now).Sweeping?
    ensures var swept := Sweep(b, rides, jobs, now).books; var again := Sweep(swept, laterRides, jobs, later);
            again.Sweeping? && again.report.updated == 0 && SameBooks(swept, again.books)
  {
    SweepSound(b, rides, jobs, now);
    SweepCalms(b, rides, jobs, now);
    CalmSweep(Sweep(b, rides, jobs, now).books, laterRides, jobs, later);
  }
}
