/** Driver wallet requests (`payment/application/wallet_service.py`), each with what a failure leaves
    behind before its session is rolled back. */
module WalletService {
  import opened Prelude
  import opened PaymentDomain
  import opened PaymentBooks
  import opened PaymentFlows
  import opened PaymentRepository

  class Wallets {
    const repo: Repository

    constructor (repo: Repository)
      ensures this.repo == repo
    {
      this.repo := repo;
    }

    method RequestTopup(id: Id, driver: Id, amount: int, cash: bool, answer: NewIntent,
      now: nat) returns (failure: Option<Error>)
      modifies repo
      ensures var o := CreateTopup(old(repo.Tables()), id, driver, amount, cash, answer, now);
              failure == Failure(o) && (o.Done? ==> repo.Tables() == o.books)
      ensures failure.None? ==> |repo.topups| == |old(repo.topups)| + 1 && |repo.ledger| <= |old(repo.ledger)| + 1
      ensures failure.Some? ==> repo.Tables() == old(repo.Tables())
    {
      if amount <= 0 || cash {
        return Some(InvalidAmount);
      }
      if answer.IntentFailed? {
        return Some(ProviderUnavailable);
      }
      var intent := answer.intent;
      var paid := WalletStatus(intent.status);
      if paid.None? {
        return Some(StatusInvalid);
      }
      var status := TopupStatusOf(paid.value);
      if intent.id.None? {
        return Some(RowNotFound);
      }
      var stored := ProviderAmount(intent.amount, amount);
      if stored.None? {
        return Some(NotANumberError);
      }
      var currency := if intent.currency.Some? then OrWord(intent.currency.value, "XOF") else "XOF";
      var topup := Topup(id, driver, stored.value, currency, status, intent.id, TopupRef(id),
                         OrWord(intent.status, "requires_action"), intent.nextAction,
                         if status.Succeeded? then Some(now) else None);
      failure := repo.InsertTopup(topup);
      if failure.None? && status.Succeeded? {
        var _ := repo.RecordLedgerEntryOnce(TopupEntry(topup));
      }
    }

    method RequestQuote(id: Id, driver: Id, amount: int, s: WithdrawalSettings,
      now: nat) returns (failure: Option<Error>)
      modifies repo
      ensures var o := QuoteWithdrawal(old(repo.Tables()), id, driver, amount, s, now);
              failure == Failure(o) && (o.Done? ==> repo.Tables() == o.books)
      ensures failure.Some? ==> repo.Tables() in {old(repo.Tables()), EnsureWallet(old(repo.Tables()), driver)}
      ensures forall x: Id :: Balance(repo.Tables(), x) == Balance(old(repo.Tables()), x)
      ensures repo.ledger == old(repo.ledger)
      ensures failure.None? ==>
                id in repo.quotes && repo.quotes[id].net > 0 && repo.quotes[id].amount <= Balance(repo.Tables(), driver)
    {
      if amount < s.minimum {
        return Some(InvalidAmount);
      }
      if amount <= s.fee {
        return Some(InvalidAmount);
      }
      var balance := repo.GetOrCreateWallet(driver);
      if balance < amount {
        return Some(BalanceInsufficient);
      }
      failure := repo.InsertWithdrawalQuote(id, Quote(driver, amount, s.fee, amount - s.fee, "XOF", now + s.ttl, None));
    }

    /** Up to the explicit commit that precedes the payout call. */
    method ReserveForRequest(d: Draft, verified: bool, now: nat) returns (failure: Option<Error>)
      modifies repo
      ensures var o := RequestWithdrawal(old(repo.Tables()), d, verified, now);
              failure == Failure(o) && (o.Done? ==> repo.Tables() == o.books)
      ensures failure.Some? ==> repo.Tables() in {old(repo.Tables()), EnsureWallet(old(repo.Tables()), d.driver)}
    {
      var existing := WithdrawalByQuote(repo.Tables(), d.quoteId);
      if existing.Some? {
        var row := repo.withdrawals[existing.value];
        if row.driver != d.driver || row.destination != d.destination {
          return Some(QuoteAlreadyUsed);
        }
        return None;
      }
      if !verified {
        return Some(VerificationRefused);
      }
      failure := repo.ReserveWithdrawalFromQuote(d, now);
    }

    method ApplyProviderPayload(id: Id, payout: Payout, now: nat) returns (failure: Option<Error>)
      modifies repo
      ensures var o := ApplyPayout(old(repo.Tables()), id, payout, now);
              failure == Failure(o) && (o.Done? ==> repo.Tables() == o.books)
      ensures failure.Some? && HasWallet(old(repo.Tables()), id) ==> repo.Tables() == old(repo.Tables())
    {
      var i := WithdrawalById(repo.Tables(), id);
      if i.None? {
        return Some(RowNotFound);
      }
      var row := repo.withdrawals[i.value];
      var amount := AmountField(payout.amount);
      if amount.None? {
        return Some(NotANumberError);
      }
      if amount.value != row.net {
        return Some(AmountMismatch);
      }
      if payout.currency != Some(row.currency) {
        return Some(CurrencyMismatch);
      }
      if payout.reference != Some(row.reference) {
        return Some(ReferenceMismatch);
      }
      var target := WithdrawalTarget(payout.status);
      if target.None? {
        return Some(StatusInvalid);
      }
      if payout.id.None? {
        return Some(RowNotFound);
      }
      failure := repo.MarkWithdrawalProviderState(id, target.value, payout.id, payout.status, now);
    }

    /** After the commit: whatever the provider answers, the reservation is already durable. */
    method AnswerPayout(id: Id, answer: NewPayout, now: nat) returns (failure: Option<Error>)
      modifies repo
      ensures var o := FinishPayout(old(repo.Tables()), id, answer, now);
              failure == Failure(o) && (o.Done? ==> repo.Tables() == o.books)
      ensures answer.PayoutUnavailable? ==> failure.Some? && repo.Tables() == old(repo.Tables())
      ensures failure.Some? && HasWallet(old(repo.Tables()), id) ==> repo.Tables() == old(repo.Tables())
    {
      match answer
      case PayoutRefused =>
        failure := repo.MarkWithdrawalProviderState(id, WithdrawalStatus.Failed, None, "rejected", now);
      case PayoutUnavailable =>
        failure := Some(ProviderUnavailable);
      case PayoutCreated(payout) =>
        failure := ApplyProviderPayload(id, payout, now);
    }
  }
}
