/** Requests with their sessions (`core/database.py`, `get_session`): a request that returns commits, a
    request that raises is rolled back whole. Serving requests one by one is a run. */
module PaymentSession {
  import opened Prelude
  import opened PaymentDomain
  import opened PaymentBooks
  import opened PaymentFlows
  import opened WalletLaws
  import opened PaymentRuns
  import opened PaymentTheorems
  import opened PaymentEffects
  import opened PaymentRepository
  import opened PaymentService
  import opened WalletService

  class Backend {
    const repo: Repository
    const payments: Service
    const wallets: Wallets

    constructor ()
      ensures Wired() && fresh(repo) && repo.Tables() == EMPTY_BOOKS
    {
      var tables := new Repository();
      var service := new Service(tables);
      repo, payments := tables, service;
      wallets := new Wallets(tables);
    }

    predicate Wired() {
      payments.repo == repo && wallets.repo == repo
    }

    /** One request inside its session, which it may leave dirty when it raises. */
    method Perform(t: Timed) returns (failure: Option<Error>)
      requires Wired()
      modifies repo
      ensures Performed(Act(old(repo.Tables()), t), repo.Tables(), failure)
    {
      match t.action
      case OpenWallet(d) =>
        var _ := repo.GetOrCreateWallet(d);
        failure := None;
      case CashConfirmed(rides, ride, amount, collector, id) =>
        failure := payments.CollectCash(rides, ride, amount, collector, id, t.now);
      case PaymentPrepared(rides, ride, payBy, answer, id) =>
        failure := payments.PreparePaymentFor(rides, ride, payBy, answer, id, t.now);
      case WebhookReceived(rides, hook) => failure := payments.HandleWebhook(rides, hook, t.now);
      case SweepRun(rides, jobs) => failure := PerformSweep(rides, jobs, t.now);
      case _ => failure := PerformForDriver(t);
    }

    predicate ForDriver(a: Action) {
      a.TopupRequest? || a.QuoteRequest? || a.WithdrawalRequest? || a.PayoutAnswered? || a.PayoutReread?
    }

    method PerformForDriver(t: Timed) returns (failure: Option<Error>)
      requires Wired() && ForDriver(t.action)
      modifies repo
      ensures Performed(Act(old(repo.Tables()), t), repo.Tables(), failure)
    {
      match t.action
      case TopupRequest(id, d, amount, cash, answer) => failure :=
          wallets.RequestTopup(id, d, amount, cash, answer, t.now);
      case QuoteRequest(id, d, amount, s) => failure := wallets.RequestQuote(id, d, amount, s, t.now);
      case WithdrawalRequest(draft, verified) => failure := wallets.ReserveForRequest(draft, verified, t.now);
      case PayoutAnswered(id, answer) => failure := wallets.AnswerPayout(id, answer, t.now);
      case PayoutReread(id, payout) => failure := wallets.ApplyProviderPayload(id, payout, t.now);
    }

    method PerformSweep(rides: map<Id, Ride>, jobs: seq<Job>, now: nat) returns (failure: Option<Error>)
      requires Wired()
      modifies repo
      ensures Performed(SweepOutcome(Sweep(old(repo.Tables()), rides, jobs, now)), repo.Tables(), failure)
    {
      var report;
      failure, report := payments.ReconcilePending(rides, jobs, [], [], now);
      assert jobs + [] + [] == jobs;
    }

    /** The request with its session. Whatever it is and however it ends, the tables are those of the
        specified outcome or exactly the old ones, and every law of the books is kept. */
    method Serve(t: Timed) returns (failure: Option<Error>)
      requires Wired()
      modifies repo
      ensures failure == Failure(Act(old(repo.Tables()), t))
      ensures repo.Tables() == Committed(old(repo.Tables()), Act(old(repo.Tables()), t))
      ensures failure.Some? ==> repo.Tables() == old(repo.Tables())
      ensures Sound(old(repo.Tables())) ==> Sound(repo.Tables())
    {
      ghost var start := repo.Tables();
      var before := repo.Tables();
      failure := Perform(t);
      if failure.Some? {
        repo.Rollback(before);
      }
      if Sound(start) {
        ActKeepsSound(start, t);
      }
    }

    /** Serving requests one by one is the run the theorems speak about. */
    method ServeAll(actions: seq<Timed>)
      requires Wired()
      modifies repo
      ensures repo.Tables() == Run(old(repo.Tables()), actions)
    {
      ghost var start := repo.Tables();
      for i := 0 to |actions|
        invariant repo.Tables() == Run(start, actions[..i])
      {
        assert actions[..i + 1][..i] == actions[..i];
        var _ := Serve(actions[i]);
      }
      assert actions[..|actions|] == actions;
    }

    method ServeRequest(d: Draft, verified: bool, now: nat) returns (failure: Option<Error>)
      requires Wired()
      modifies repo
      ensures Served(old(repo.Tables()), RequestWithdrawal(old(repo.Tables()), d, verified, now), repo.Tables(),
          failure)
    {
      failure := Serve(Timed(WithdrawalRequest(d, verified), now));
    }

    method ServeAnswer(id: Id, answer: NewPayout, now: nat) returns (failure: Option<Error>)
      requires Wired()
      modifies repo
      ensures Served(old(repo.Tables()), FinishPayout(old(repo.Tables()), id, answer, now), repo.Tables(), failure)
    {
      failure := Serve(Timed(PayoutAnswered(id, answer), now));
    }

    /** `request_withdrawal` for an unused quote, over its two commits: the reservation first, then what
        DiddiPay answered. An unavailable provider leaves the money reserved; a refusal leaves every
        balance, reserved total and paid total as before the request, and is still raised. */
    method RequestAndPay(d: Draft, verified: bool, answer: NewPayout, now: nat,
      later: nat) returns (failure: Option<Error>)
      requires Wired()
      requires Requestable(repo.Tables(), d)
      modifies repo
      ensures Sound(repo.Tables())
      ensures RequestWithdrawal(old(repo.Tables()), d, verified, now).Raised? ==>
                failure.Some? && repo.Tables() == old(repo.Tables())
      ensures RequestWithdrawal(old(repo.Tables()), d, verified, now).Done? ==>
                PaidAsAnswered(old(repo.Tables()), repo.Tables(), d, answer)
                    && (!answer.PayoutCreated? ==> failure.Some?)
    {
      ghost var start := repo.Tables();
      failure := ServeRequest(d, verified, now);
      if failure.Some? {
        return;
      }
      RequestOutcome(start, d, verified, answer, now, later);
      failure := ServeAnswer(d.id, answer, later);
      if answer.PayoutRefused? && failure.None? {
        failure := Some(PayoutRejected);
      }
    }
  }

  /** A request ended as the outcome says; if it raised, its tables are still to be rolled back. */
  predicate Performed(o: Outcome, r: Books, failure: Option<Error>) {
    failure == Failure(o) && (o.Done? ==> r == o.books)
  }

  /** A request in its session ended as the outcome says. */
  ghost predicate Served(b: Books, o: Outcome, r: Books, failure: Option<Error>) {
    failure == Failure(o) && r == Committed(b, o) && (Sound(b) ==> Sound(r))
  }

  /** A reachable state with an unused quote. */
  ghost predicate Requestable(b: Books, d: Draft) {
    Sound(b) && FreshDraft(b, d) && d.quoteId in b.quotes && b.quotes[d.quoteId].consumedAt.None?
  }

  /** What a granted request leaves, by what DiddiPay answered. */
  ghost predicate PaidAsAnswered(b: Books, r: Books, d: Draft, answer: NewPayout)
    requires d.quoteId in b.quotes
  {
    match answer
    case PayoutUnavailable => MovedToReserve(b, r, d.driver, b.quotes[d.quoteId].amount)
    case PayoutRefused => SameTotals(b, r)
    case PayoutCreated(_) => true
  }

  ghost predicate SameTotals(b: Books, r: Books) {
    forall x: Id ::
      Balance(r, x) == Balance(b, x) && ReservedTotal(r, x) == ReservedTotal(b, x) && SucceededTotal(r, x)
          == SucceededTotal(b, x)
  }

  lemma RequestOutcome(b: Books, d: Draft, verified: bool, answer: NewPayout, now: nat, later: nat)
    requires Sound(b) && FreshDraft(b, d) && d.quoteId in b.quotes && b.quotes[d.quoteId].consumedAt.None?
    requires RequestWithdrawal(b, d, verified, now).Done?
    ensures var requested := RequestWithdrawal(b, d, verified, now).books;
            PaidAsAnswered(b, Committed(requested, FinishPayout(requested, d.id, answer, later)), d, answer)
  {
    RequestVerified(b, d, verified, now);
    RequestSucceedsExactlyWhen(b, d, now);
    RefusedPayoutRoundTrip(b, d, now, later);
  }

  /** An unused quote is only reserved by a verified request. */
  lemma RequestVerified(b: Books, d: Draft, verified: bool, now: nat)
    requires Sound(b) && d.quoteId in b.quotes && b.quotes[d.quoteId].consumedAt.None?
    requires RequestWithdrawal(b, d, verified, now).Done?
    ensures verified
  {
    UnusedQuoteHasNoRow(b, d.quoteId);
  }
}
