/** The SQLAlchemy repository as an object whose tables are updated in place. Each method is one
    atomic step, proved against the step function of the same name. */
module PaymentRepository {
  import opened Prelude
  import opened PaymentDomain
  import opened PaymentBooks

  class Repository {
    var wallets: map<Id, int>
    var ledger: seq<Entry>
    var topups: seq<Topup>
    var payments: seq<Payment>
    var quotes: map<Id, Quote>
    var withdrawals: seq<Withdrawal>
    var events: set<Id>

    function Tables(): Books
      reads this
    {
      Books(wallets, ledger, topups, payments, quotes, withdrawals, events)
    }

    constructor ()
      ensures Tables() == EMPTY_BOOKS
    {
      wallets, ledger, topups, payments := map[], [], [], [];
      quotes, withdrawals, events := map[], [], {};
    }

    /** `session.rollback()`. */
    method Rollback(to: Books)
      modifies this
      ensures Tables() == to
    {
      wallets, ledger, topups, payments := to.wallets, to.ledger, to.topups, to.payments;
      quotes, withdrawals, events := to.quotes, to.withdrawals, to.events;
    }

    method GetOrCreateWallet(driver: Id) returns (balance: int)
      modifies this`wallets
      ensures Tables() == EnsureWallet(old(Tables()), driver)
      ensures balance == Balance(old(Tables()), driver)
    {
      if driver !in wallets {
        wallets := wallets[driver := 0];
      }
      balance := wallets[driver];
    }

    method WithdrawalReservedTotal(driver: Id) returns (total: nat)
      ensures total == ReservedTotal(Tables(), driver)
    {
      total := 0;
      for i := 0 to |withdrawals|
        invariant total == Total(withdrawals[..i], driver, OPEN)
      {
        assert withdrawals[..i + 1][..i] == withdrawals[..i];
        var row := withdrawals[i];
        if row.driver == driver && (row.status == WithdrawalStatus.Reserved || row.status
            == WithdrawalStatus.Processing) {
          total := total + row.amount;
        }
      }
      assert withdrawals[..|withdrawals|] == withdrawals;
    }

    method RecordLedgerEntryOnce(e: Entry) returns (inserted: bool)
      modifies this`wallets, this`ledger
      ensures Tables() == RecordOnce(old(Tables()), e)
      ensures inserted <==> !HasEntry(old(ledger), e.key)
    {
      var _ := GetOrCreateWallet(e.key.driver);
      inserted := !HasEntry(ledger, e.key);
      if !inserted {
        return;
      }
      ledger := ledger + [e];
      if e.status.EntryConfirmed? {
        var delta := if e.direction.Credit? then e.amount else -e.amount;
        wallets := wallets[e.key.driver := wallets[e.key.driver] + delta];
      } else {
        assert wallets == wallets[e.key.driver := wallets[e.key.driver]];
      }
    }

    method RecordWebhookEvent(event: Id) returns (stored: bool)
      modifies this`events
      ensures Tables() == old(Tables()).(events := old(events) + {event})
      ensures stored <==> event !in old(events)
    {
      stored := event !in events;
      events := events + {event};
    }

    method InsertTopup(t: Topup) returns (r: Option<Error>)
      modifies this`topups
      ensures match SaveTopup(old(Tables()), t)
              case Ok(b) => r.None? && Tables() == b
              case Err(e) => r == Some(e) && Tables() == old(Tables())
    {
      if TopupClashes(Tables(), t) {
        return Some(IntegrityViolation);
      }
      topups := topups + [t];
      r := None;
    }

    method MarkTopupStatus(
      id: Id, status: TopupStatus, providerStatus: string, paidAt: Option<nat>, nextAction: Option<Option<Id>>)
      returns (r: Result<Topup, Error>)
      modifies this`topups
      ensures match MarkTopup(old(Tables()), id, status, providerStatus, paidAt, nextAction)
              case Ok(b) => Tables() == b && TopupById(old(Tables()), id).Some?
                            && r == Ok(b.topups[TopupById(old(Tables()), id).value])
              case Err(e) => r == Err(e) && Tables() == old(Tables())
    {
      var i := TopupById(Tables(), id);
      if i.None? {
        return Err(RowNotFound);
      }
      var row := topups[i.value];
      row := row.(status := status);
      row := row.(providerStatus := providerStatus);
      if paidAt.Some? {
        row := row.(paidAt := paidAt);
      }
      if nextAction.Some? {
        row := row.(nextAction := nextAction.value);
      }
      topups := topups[i.value := row];
      r := Ok(row);
    }

    method InsertPayment(p: Payment) returns (r: Option<Error>)
      modifies this`payments
      ensures match SavePayment(old(Tables()), p)
              case Ok(b) => r.None? && Tables() == b
              case Err(e) => r == Some(e) && Tables() == old(Tables())
    {
      if (exists q | q in payments :: q.id == p.id) || IntentTaken(Tables(), p.id, p.intentId) {
        return Some(IntegrityViolation);
      }
      payments := payments + [p];
      r := None;
    }

    method UpdateCollected(id: Id, collector: Id, amount: int, now: nat) returns (r: Option<Error>)
      modifies this`payments
      ensures match UpdatePayment(old(Tables()), id, (p: Payment) => CollectedInCash(p, collector, amount, now))
              case Ok(b) => r.None? && Tables() == b
              case Err(e) => r == Some(e) && Tables() == old(Tables())
    {
      var i := PaymentById(Tables(), id);
      if i.None? {
        return Some(RowNotFound);
      }
      var row := payments[i.value];
      row := row.(collectedBy := Some(collector), amount := amount);
      row := row.(collectedAt := Some(now), payBy := Cash);
      row := row.(status := PaymentStatus.Collected);
      payments := payments[i.value := row];
      r := None;
    }

    method PrepareCashPayment(id: Id) returns (r: Option<Error>)
      modifies this`payments
      ensures match UpdatePayment(old(Tables()), id, PreparedForCash)
              case Ok(b) => r.None? && Tables() == b
              case Err(e) => r == Some(e) && Tables() == old(Tables())
    {
      var i := PaymentById(Tables(), id);
      if i.None? {
        return Some(RowNotFound);
      }
      var row := payments[i.value];
      row := row.(payBy := Cash, status := PaymentStatus.Pending);
      row := row.(intentId := None, reference := None);
      row := row.(providerStatus := "local", nextAction := None, paidAt := None);
      payments := payments[i.value := row];
      r := None;
    }

    method ReplaceExternalIntent(
      id: Id, intent: Id, payBy: PaymentMethod, status: PaymentStatus, providerStatus: string, nextAction: Option<Id>)
      returns (r: Option<Error>)
      modifies this`payments
      ensures IntentTaken(old(Tables()), id, Some(intent)) ==>
                r == Some(IntegrityViolation) && Tables() == old(Tables())
      ensures !IntentTaken(old(Tables()), id, Some(intent)) ==>
                match UpdatePayment(old(Tables()), id, (p: Payment) =>
                    WithNewIntent(p, intent, payBy, status, providerStatus, nextAction))
                case Ok(b) => r.None? && Tables() == b
                case Err(e) => r == Some(e) && Tables() == old(Tables())
    {
      if IntentTaken(Tables(), id, Some(intent)) {
        return Some(IntegrityViolation);
      }
      var i := PaymentById(Tables(), id);
      if i.None? {
        return Some(RowNotFound);
      }
      var row := payments[i.value];
      row := row.(intentId := Some(intent), payBy := payBy, status := status);
      row := row.(providerStatus := providerStatus, nextAction := nextAction);
      row := row.(paidAt := None, collectedAt := None);
      payments := payments[i.value := row];
      r := None;
    }

    method MarkExternalStatus(
      id: Id, status: PaymentStatus, providerStatus: string, paidAt: Option<nat>, nextAction: Option<Option<Id>>)
      returns (r: Result<Payment, Error>)
      modifies this`payments
      ensures match PaymentById(old(Tables()), id)
              case None => r == Err(RowNotFound) && Tables() == old(Tables())
              case Some(i) =>
                var p := MarkedExternal(old(payments)[i], status, providerStatus, paidAt, nextAction);
                r == Ok(p) && Tables() == old(Tables()).(payments := old(payments)[i := p])
    {
      var i := PaymentById(Tables(), id);
      if i.None? {
        return Err(RowNotFound);
      }
      var row := payments[i.value];
      row := row.(status := status);
      row := row.(providerStatus := providerStatus);
      if paidAt.Some? {
        row := row.(paidAt := paidAt, collectedAt := paidAt);
      }
      if nextAction.Some? {
        row := row.(nextAction := nextAction.value);
      }
      payments := payments[i.value := row];
      r := Ok(row);
    }

    method InsertWithdrawalQuote(id: Id, q: Quote) returns (r: Option<Error>)
      modifies this`quotes
      ensures match SaveQuote(old(Tables()), id, q)
              case Ok(b) => r.None? && Tables() == b
              case Err(e) => r == Some(e) && Tables() == old(Tables())
    {
      if id in quotes {
        return Some(IntegrityViolation);
      }
      quotes := quotes[id := q];
      r := None;
    }

    /** The reservation. An error leaves at most an empty wallet row behind, which the rollback of the
        request takes away. */
    method ReserveWithdrawalFromQuote(d: Draft, now: nat) returns (r: Option<Error>)
      modifies this
      ensures match Reserve(old(Tables()), d, now)
              case Ok(b) => r.None? && Tables() == b
              case Err(e) => r == Some(e) && Tables() in {old(Tables()), EnsureWallet(old(Tables()), d.driver)}
    {
      if d.quoteId !in quotes || quotes[d.quoteId].driver != d.driver {
        return Some(QuoteNotFound);
      }
      var quote := quotes[d.quoteId];
      if quote.consumedAt.Some? {
        var existing := WithdrawalByQuote(Tables(), d.quoteId);
        if existing.Some? {
          var row := withdrawals[existing.value];
          if row.destination.None? && d.destination.Some? {
            row := row.(destination := d.destination);
            withdrawals := withdrawals[existing.value := row];
          }
          return None;
        }
        return Some(QuoteAlreadyUsed);
      }
      if quote.expiresAt <= now {
        return Some(QuoteExpired);
      }
      var balance := GetOrCreateWallet(d.driver);
      if balance < quote.amount {
        return Some(BalanceInsufficient);
      }
      var row := NewWithdrawal(d, quote, now);
      var line := WithdrawalEntry(row, WithdrawalReserved, Debit);
      if (exists v | v in withdrawals :: v.id == d.id || v.quoteId == d.quoteId) || HasEntry(ledger, line.key) {
        return Some(IntegrityViolation);
      }
      withdrawals := withdrawals + [row];
      quotes := quotes[d.quoteId := quote.(consumedAt := Some(now))];
      wallets := wallets[d.driver := balance - row.amount];
      ledger := ledger + [line];
      r := None;
    }

    method InsertWithdrawalLedgerOnce(row: Withdrawal, entryType: EntryType,
      direction: Direction) returns (inserted: bool)
      modifies this`ledger
      ensures inserted <==> !HasEntry(old(ledger), WithdrawalEntry(row, entryType, direction).key)
      ensures ledger == old(ledger) + if inserted then [WithdrawalEntry(row, entryType, direction)] else []
    {
      var line := WithdrawalEntry(row, entryType, direction);
      inserted := !HasEntry(ledger, line.key);
      if inserted {
        ledger := ledger + [line];
      }
    }

    method MarkWithdrawalProviderState(
      id: Id, target: WithdrawalStatus, payout: Option<Id>, providerStatus: string, now: nat) returns (r: Option<Error>)
      modifies this
      ensures match MarkWithdrawal(old(Tables()), id, target, payout, providerStatus, now)
              case Ok(b) => r.None? && Tables() == b
              case Err(e) => r == Some(e) && (HasWallet(old(Tables()), id) ==> Tables() == old(Tables()))
    {
      var i := WithdrawalById(Tables(), id);
      if i.None? {
        return Some(RowNotFound);
      }
      var row := withdrawals[i.value];
      if Terminal(row.status) {
        return None;
      }
      if PayoutTaken(Tables(), id, payout) {
        return Some(IntegrityViolation);
      }
      row := row.(payoutId := payout.Or(row.payoutId), providerStatus := Some(providerStatus), updatedAt := now);
      if target.Succeeded? {
        row := row.(status := target, succeededAt := Some(now));
        withdrawals := withdrawals[i.value := row];
        var _ := InsertWithdrawalLedgerOnce(row, WithdrawalSucceeded, Debit);
      } else if target.Failed? || target.Released? {
        row := row.(status := WithdrawalStatus.Released, releasedAt := Some(now));
        withdrawals := withdrawals[i.value := row];
        var inserted := InsertWithdrawalLedgerOnce(row, WithdrawalReleased, Credit);
        if inserted {
          if row.driver !in wallets {
            return Some(RowNotFound);
          }
          wallets := wallets[row.driver := wallets[row.driver] + row.amount];
        }
      } else {
        row := row.(status := target);
        withdrawals := withdrawals[i.value := row];
      }
      r := None;
    }
  }
}
