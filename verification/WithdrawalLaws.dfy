/** Reservations, provider reports and top-ups keep every wallet law. */
module WithdrawalLaws {
  import opened Prelude
  import opened PaymentDomain
  import opened PaymentBooks
  import opened WalletLaws

  // ---------------------------------------------------------------- updating one row

  /** A row's identity and money, which no update ever changes. */
  predicate SameMoney(w: Withdrawal, v: Withdrawal) {
    && v.id == w.id && v.driver == w.driver && v.quoteId == w.quoteId && v.amount == w.amount && v.fees == w.fees
    && v.net == w.net && v.currency == w.currency && v.reservedAt == w.reservedAt && v.reference == w.reference
  }

  lemma QuotesKept(quotes: map<Id, Quote>, rows: seq<Withdrawal>, i: nat, v: Withdrawal)
    requires QuotesUsed(quotes, rows) && i < |rows| && SameMoney(rows[i], v)
    ensures QuotesUsed(quotes, rows[i := v])
  {
    forall q | q in quotes && quotes[q].consumedAt.Some? ensures Carried(rows[i := v], q) {
      var k :| 0 <= k < |rows| && rows[k].quoteId == q;
      assert rows[i := v][k].quoteId == q;
    }
  }

  lemma LineStillOwned(rows: seq<Withdrawal>, i: nat, v: Withdrawal, e: Entry)
    requires LineOwned(rows, e) && i < |rows| && SameMoney(rows[i], v)
    ensures LineOwned(rows[i := v], e)
  {
    if e.key.entryType in WITHDRAWAL_TYPES {
      var k :| 0 <= k < |rows| && Owns(rows[k], e);
      assert Owns(rows[i := v][k], e);
    }
  }

  lemma UniqueRowsKept(rows: seq<Withdrawal>, i: nat, v: Withdrawal)
    requires UniqueRows(rows) && i < |rows| && SameMoney(rows[i], v)
    requires v.payoutId == rows[i].payoutId || v.payoutId.None?
          || forall w | w in rows && w.id != v.id :: w.payoutId != v.payoutId
    ensures UniqueRows(rows[i := v])
  {
    forall j | 0 <= j < |rows| && j != i ensures Distinct(rows[j], v) && Distinct(v, rows[j]) {
      assert rows[j] in rows;
      if j < i { assert Distinct(rows[j], rows[i]); } else { assert Distinct(rows[i], rows[j]); }
    }
    var changed := rows[i := v];
    forall j, k | 0 <= j < k < |rows| ensures Distinct(changed[j], changed[k]) {
      assert Distinct(rows[j], rows[k]);
    }
  }

  lemma RowUpdateKeepsSums(b: Books, i: nat, v: Withdrawal, d: Id)
    requires Sums(b, d) && i < |b.withdrawals| && SameMoney(b.withdrawals[i], v)
    requires v.status == b.withdrawals[i].status || (v.status in OPEN && b.withdrawals[i].status in OPEN)
    ensures Sums(b.(withdrawals := b.withdrawals[i := v]), d)
  {
    RowChanges(b.withdrawals, i, v, d, OPEN);
    RowChanges(b.withdrawals, i, v, d, PAID);
  }

  /** Updating a row without settling it (a destination, or a report that leaves it open). */
  lemma {:induction false} RowUpdateKeepsSound(b: Books, i: nat, v: Withdrawal)
    requires Sound(b) && i < |b.withdrawals| && SameMoney(b.withdrawals[i], v)
    requires v.status == b.withdrawals[i].status || (v.status in OPEN && b.withdrawals[i].status in OPEN)
    requires v.payoutId == b.withdrawals[i].payoutId || v.payoutId.None?
          || forall w | w in b.withdrawals && w.id != v.id :: w.payoutId != v.payoutId
    ensures Sound(b.(withdrawals := b.withdrawals[i := v]))
  {
    var r := b.(withdrawals := b.withdrawals[i := v]);
    forall d: Id ensures Sums(r, d) { RowUpdateKeepsSums(b, i, v, d); }
    QuotesKept(b.quotes, b.withdrawals, i, v);
    UniqueRowsKept(b.withdrawals, i, v);
    forall e | e in r.ledger ensures LineOwned(r.withdrawals, e) { LineStillOwned(b.withdrawals, i, v, e); }
    forall k | 0 <= k < |r.withdrawals| ensures RowLogged(r.ledger, r.withdrawals[k]) {
      assert RowLogged(b.ledger, b.withdrawals[k]);
    }
  }

  // ---------------------------------------------------------------- reservation

  /** The fresh part of a reservation: row, quote, balance and log line together. */
  function Reservation(b: Books, w: Withdrawal): Books
    requires w.driver in b.wallets && w.quoteId in b.quotes
  {
    b.(withdrawals := b.withdrawals + [w],
       quotes := b.quotes[w.quoteId := b.quotes[w.quoteId].(consumedAt := Some(w.reservedAt))],
       wallets := b.wallets[w.driver := b.wallets[w.driver] - w.amount],
       ledger := b.ledger + [WithdrawalEntry(w, WithdrawalReserved, Debit)])
  }

  ghost predicate Reservable(b: Books, w: Withdrawal) {
    && w.driver in b.wallets && w.quoteId in b.quotes
    && b.wallets[w.driver] >= w.amount
    && b.quotes[w.quoteId].consumedAt.None?
    && Copies(w, b.quotes[w.quoteId].(consumedAt := Some(w.reservedAt)))
    && w.status.Reserved? && w.payoutId.None? && w.reference == WithdrawalRef(w.id)
    && (forall i | 0 <= i < |b.withdrawals| :: Distinct(b.withdrawals[i], w))
    && !HasEntry(b.ledger, WithdrawalEntry(w, WithdrawalReserved, Debit).key)
  }

  lemma ReservedKeepsSums(b: Books, w: Withdrawal, d: Id)
    requires Sums(b, d) && w.driver in b.wallets && w.quoteId in b.quotes
    requires w.status.Reserved? && b.wallets[w.driver] >= w.amount
    ensures Sums(Reservation(b, w), d)
  {
    var e := WithdrawalEntry(w, WithdrawalReserved, Debit);
    LogGrows(b.ledger, e, d, CREDIT_TYPES);
    LogGrows(b.ledger, e, d, COMMISSION_TYPES);
    LogGrows(b.ledger, e, d, PAID_TYPES);
    RowsGrow(b.withdrawals, w, d, OPEN);
    RowsGrow(b.withdrawals, w, d, PAID);
    if NonNegative(b.ledger) {
      NonNegativeSum(b.ledger, d, COMMISSION_TYPES);
    }
  }

  /** An unknown withdrawal has no log line. */
  lemma NoLineYet(rows: seq<Withdrawal>, w: Withdrawal, e: Entry)
    requires LineOwned(rows, e) && forall i | 0 <= i < |rows| :: Distinct(rows[i], w)
    requires e.key.entryType in WITHDRAWAL_TYPES
    ensures e.key.reference != WithdrawalRef(w.id)
  {}

  lemma ReservedKeepsLines(b: Books, w: Withdrawal)
    requires WithdrawalsLogged(b) && Reservable(b, w)
    ensures WithdrawalsLogged(Reservation(b, w))
  {
    var r := Reservation(b, w);
    var line := WithdrawalEntry(w, WithdrawalReserved, Debit);
    forall e | e in b.ledger && e.key.entryType in WITHDRAWAL_TYPES ensures e.key.reference != WithdrawalRef(w.id) {
      NoLineYet(b.withdrawals, w, e);
    }
    assert RowLogged(r.ledger, w);
    forall i | 0 <= i < |r.withdrawals| ensures RowLogged(r.ledger, r.withdrawals[i]) {
      if i < |b.withdrawals| {
        assert RowLogged(b.ledger, b.withdrawals[i]);
      }
    }
    forall e | e in r.ledger ensures LineOwned(r.withdrawals, e) {
      if e == line {
        assert Owns(r.withdrawals[|b.withdrawals|], e);
      } else {
        assert LineOwned(b.withdrawals, e);
        if e.key.entryType in WITHDRAWAL_TYPES {
          var i :| 0 <= i < |b.withdrawals| && Owns(b.withdrawals[i], e);
          assert Owns(r.withdrawals[i], e);
        }
      }
    }
  }

  lemma ReservedKeepsQuotes(b: Books, w: Withdrawal)
    requires QuotesUsed(b.quotes, b.withdrawals) && Reservable(b, w)
    ensures QuotesUsed(Reservation(b, w).quotes, Reservation(b, w).withdrawals)
  {
    var r := Reservation(b, w);
    forall q | q in r.quotes && r.quotes[q].consumedAt.Some? ensures Carried(r.withdrawals, q) {
      if q == w.quoteId {
        assert r.withdrawals[|b.withdrawals|].quoteId == q;
      } else {
        var i :| 0 <= i < |b.withdrawals| && b.withdrawals[i].quoteId == q;
        assert r.withdrawals[i].quoteId == q;
      }
    }
    forall i | 0 <= i < |b.withdrawals| ensures b.withdrawals[i].quoteId != w.quoteId {
      assert Distinct(b.withdrawals[i], w);
    }
  }

  /** A withdrawal line leaves top-ups and the kinds of line alone. */
  lemma WithdrawalLineFits(topups: seq<Topup>, ledger: seq<Entry>, e: Entry)
    requires TopupsLogged(topups, ledger) && KnownLines(ledger) && KnownLine(e) && e.key.entryType in WITHDRAWAL_TYPES
    ensures TopupsLogged(topups, ledger + [e]) && KnownLines(ledger + [e])
  {
  }

  lemma ReservedRowsDistinct(b: Books, w: Withdrawal)
    requires UniqueRows(b.withdrawals) && Reservable(b, w)
    ensures UniqueRows(b.withdrawals + [w])
  {
  }

  lemma {:induction false} ReservedKeepsSound(b: Books, w: Withdrawal)
    requires Sound(b) && Reservable(b, w)
    ensures Sound(Reservation(b, w))
  {
    var r := Reservation(b, w);
    var line := WithdrawalEntry(w, WithdrawalReserved, Debit);
    forall d: Id ensures Sums(r, d) {
      assert Sums(b, d);
      ReservedKeepsSums(b, w, d);
    }
    ReservedKeepsLines(b, w);
    ReservedKeepsQuotes(b, w);
    ReservedRowsDistinct(b, w);
    WithdrawalLineFits(b.topups, b.ledger, line);
    KeysStayUnique(b.ledger, line);
  }

  /** `reserve_withdrawal_from_quote` keeps every law. */
  lemma {:induction false} ReserveKeepsSound(b: Books, d: Draft, now: nat)
    requires Sound(b) && Reserve(b, d, now).Ok?
    ensures Sound(Reserve(b, d, now).value)
  {
    var q := b.quotes[d.quoteId];
    if q.consumedAt.Some? {
      var i := WithdrawalByQuote(b, d.quoteId).value;
      RowUpdateKeepsSound(b, i, b.withdrawals[i].(destination := d.destination));
    } else {
      var ready := EnsureWallet(b, d.driver);
      var w := NewWithdrawal(d, q, now);
      WalletOpens(b, d.driver);
      forall i | 0 <= i < |b.withdrawals| ensures Distinct(b.withdrawals[i], w) {
        assert b.withdrawals[i] in b.withdrawals;
      }
      ReservedKeepsSound(ready, w);
    }
  }

  /** The branch "consumed quote without a withdrawal" is dead code in every reachable state. */
  lemma ConsumedQuoteHasRow(b: Books, d: Draft, now: nat)
    requires QuotesUsed(b.quotes, b.withdrawals)
    ensures Reserve(b, d, now) != Err(QuoteAlreadyUsed)
  {
    if d.quoteId in b.quotes && b.quotes[d.quoteId].consumedAt.Some? {
      var i :| 0 <= i < |b.withdrawals| && b.withdrawals[i].quoteId == d.quoteId;
      assert WithdrawalByQuote(b, d.quoteId).Some?;
    }
  }

  /** Replaying a consumed quote moves no money and adds no withdrawal. */
  lemma ReplayIsFree(b: Books, d: Draft, now: nat)
    requires Reserve(b, d, now).Ok? && b.quotes[d.quoteId].consumedAt.Some?
    ensures var r := Reserve(b, d, now).value;
            r.wallets == b.wallets && r.ledger == b.ledger && |r.withdrawals| == |b.withdrawals|
            && forall driver: Id :: ReservedTotal(r, driver) == ReservedTotal(b, driver)
  {
    var r := Reserve(b, d, now).value;
    var i := WithdrawalByQuote(b, d.quoteId).value;
    var v := b.withdrawals[i].(destination := d.destination);
    forall driver: Id ensures ReservedTotal(r, driver) == ReservedTotal(b, driver) {
      RowChanges(b.withdrawals, i, v, driver, OPEN);
    }
  }

  // ---------------------------------------------------------------- provider reports

  /** Settling row `i`: the row's status, its log line and, for a failure, the balance. */
  function Settled(b: Books, i: nat, v: Withdrawal): Books
    requires i < |b.withdrawals| && v.driver in b.wallets
  {
    if v.status.Succeeded? then
      b.(withdrawals := b.withdrawals[i := v], ledger := b.ledger + [WithdrawalEntry(v, WithdrawalSucceeded, Debit)])
    else
      b.(withdrawals := b.withdrawals[i := v], ledger := b.ledger + [WithdrawalEntry(v, WithdrawalReleased, Credit)],
         wallets := b.wallets[v.driver := b.wallets[v.driver] + v.amount])
  }

  predicate Settles(b: Books, i: nat, v: Withdrawal) {
    i < |b.withdrawals| && v.driver in b.wallets && SameMoney(b.withdrawals[i], v)
    && b.withdrawals[i].status in OPEN && Terminal(v.status)
  }

  lemma SettledKeepsSums(b: Books, i: nat, v: Withdrawal, d: Id)
    requires Sums(b, d) && Settles(b, i, v)
    ensures Sums(Settled(b, i, v), d)
  {
    var e := if v.status.Succeeded? then WithdrawalEntry(v, WithdrawalSucceeded, Debit)
             else WithdrawalEntry(v, WithdrawalReleased, Credit);
    LogGrows(b.ledger, e, d, CREDIT_TYPES);
    LogGrows(b.ledger, e, d, COMMISSION_TYPES);
    LogGrows(b.ledger, e, d, PAID_TYPES);
    RowChanges(b.withdrawals, i, v, d, OPEN);
    RowChanges(b.withdrawals, i, v, d, PAID);
  }

  lemma SettledKeepsLines(b: Books, i: nat, v: Withdrawal)
    requires WithdrawalsLogged(b) && UniqueRows(b.withdrawals) && Settles(b, i, v)
    ensures WithdrawalsLogged(Settled(b, i, v))
  {
    var r := Settled(b, i, v);
    var line := r.ledger[|b.ledger|];
    forall e | e in r.ledger ensures LineOwned(r.withdrawals, e) {
      if e == line {
        assert Owns(r.withdrawals[i], e);
      } else {
        LineStillOwned(b.withdrawals, i, v, e);
      }
    }
    forall k | 0 <= k < |r.withdrawals| ensures RowLogged(r.ledger, r.withdrawals[k]) {
      assert RowLogged(b.ledger, b.withdrawals[k]);
      if k < i {
        assert Distinct(b.withdrawals[k], b.withdrawals[i]);
      } else if i < k {
        assert Distinct(b.withdrawals[i], b.withdrawals[k]);
      }
    }
  }

  lemma RowsDiffer(rows: seq<Withdrawal>, i: nat, k: nat)
    requires UniqueRows(rows) && i < |rows| && k < |rows|
    ensures i == k || (rows[i].id != rows[k].id && rows[i].quoteId != rows[k].quoteId)
    ensures i == k || rows[i].payoutId.None? || rows[i].payoutId != rows[k].payoutId
  {
    if i < k {
      assert Distinct(rows[i], rows[k]);
    } else if k < i {
      assert Distinct(rows[k], rows[i]);
    }
  }

  /** A withdrawal line naming row `i` is about row `i`. */
  lemma LineIsOfRow(rows: seq<Withdrawal>, i: nat, e: Entry)
    requires UniqueRows(rows) && LineOwned(rows, e) && i < |rows|
    requires e.key.entryType in WITHDRAWAL_TYPES && e.key.reference == WithdrawalRef(rows[i].id)
    ensures Owns(rows[i], e)
  {
    var k :| 0 <= k < |rows| && Owns(rows[k], e);
    RowsDiffer(rows, i, k);
  }

  lemma OpenRowLine(ledger: seq<Entry>, w: Withdrawal, e: Entry)
    requires RowLogged(ledger, w) && w.status in OPEN && e in ledger && Owns(w, e)
    ensures e.key.entryType in WITHDRAWAL_TYPES ==> e.key.entryType.WithdrawalReserved?
  {
    assert e == WithdrawalEntry(w, e.key.entryType, e.direction);
  }

  /** An open withdrawal has neither a success nor a release line, so settling it always inserts
      and, for a failure, always gives the money back. */
  lemma OpenHasNoFinalLine(b: Books, i: nat, key: Key)
    requires WithdrawalsLogged(b) && UniqueRows(b.withdrawals) && i < |b.withdrawals| && b.withdrawals[i].status in OPEN
    requires key.reference == WithdrawalRef(b.withdrawals[i].id)
    requires key.entryType.WithdrawalSucceeded? || key.entryType.WithdrawalReleased?
    ensures !HasEntry(b.ledger, key)
  {
    forall e | e in b.ledger && e.key.entryType in WITHDRAWAL_TYPES && e.key.reference == key.reference
      ensures e.key.entryType.WithdrawalReserved?
    {
      LineIsOfRow(b.withdrawals, i, e);
      OpenRowLine(b.ledger, b.withdrawals[i], e);
    }
  }

  /** The line that settles a row. */
  function FinalLine(v: Withdrawal): Entry {
    if v.status.Succeeded? then WithdrawalEntry(v, WithdrawalSucceeded, Debit)
        else WithdrawalEntry(v, WithdrawalReleased, Credit)
  }

  lemma SettledKeepsSound(b: Books, i: nat, v: Withdrawal)
    requires Sound(b) && Settles(b, i, v)
    requires v.payoutId == b.withdrawals[i].payoutId || v.payoutId.None?
          || forall w | w in b.withdrawals && w.id != v.id :: w.payoutId != v.payoutId
    ensures Sound(Settled(b, i, v))
  {
    var r := Settled(b, i, v);
    assert r.ledger == b.ledger + [FinalLine(v)];
    SettledKeepsLog(b, i, v);
    forall d: Id ensures Sums(r, d) {
      assert Sums(b, d);
      SettledKeepsSums(b, i, v, d);
    }
    SettledKeepsLines(b, i, v);
    QuotesKept(b.quotes, b.withdrawals, i, v);
    UniqueRowsKept(b.withdrawals, i, v);
  }

  lemma SettledKeepsLog(b: Books, i: nat, v: Withdrawal)
    requires Sound(b) && Settles(b, i, v)
    ensures var ledger := b.ledger + [FinalLine(v)];
            TopupsLogged(b.topups, ledger) && KnownLines(ledger) && UniqueKeys(ledger)
  {
    WithdrawalLineFits(b.topups, b.ledger, FinalLine(v));
    OpenHasNoFinalLine(b, i, FinalLine(v).key);
    KeysStayUnique(b.ledger, FinalLine(v));
  }

  /** What a report does to an open row in a reachable state: the inserts never collide and the
      wallet is always there, so the only possible failure is a payout id already in use. */
  lemma {:induction false} ReportEffect(b: Books, i: nat, target: WithdrawalStatus, payout: Option<Id>,
    providerStatus: string, now: nat)
    requires Sound(b) && i < |b.withdrawals| && b.withdrawals[i].status in OPEN
    requires WithdrawalById(b, b.withdrawals[i].id) == Some(i)
    ensures var w := b.withdrawals[i];
            var v := Reported(w, target, payout, providerStatus, now);
            w.driver in b.wallets
            && MarkWithdrawal(b, w.id, target, payout, providerStatus, now)
               == if PayoutTaken(b, w.id, payout) then Err(IntegrityViolation)
                  else if Terminal(v.status) then Ok(Settled(b, i, v))
                  else Ok(b.(withdrawals := b.withdrawals[i := v]))
  {
    var w := b.withdrawals[i];
    OpenHasNoFinalLine(b, i, WithdrawalEntry(w, WithdrawalSucceeded, Debit).key);
    OpenHasNoFinalLine(b, i, WithdrawalEntry(w, WithdrawalReleased, Credit).key);
    assert w.driver in b.wallets;
    MarkAlone(b, i, target, payout, providerStatus, now);
  }

  /** The same on any tables: the row is found, open, and has no final line. */
  lemma MarkAlone(b: Books, i: nat, target: WithdrawalStatus, payout: Option<Id>, providerStatus: string, now: nat)
    requires i < |b.withdrawals| && b.withdrawals[i].status in OPEN && b.withdrawals[i].driver in b.wallets
    requires WithdrawalById(b, b.withdrawals[i].id) == Some(i)
    requires !HasEntry(b.ledger, WithdrawalEntry(b.withdrawals[i], WithdrawalSucceeded, Debit).key)
    requires !HasEntry(b.ledger, WithdrawalEntry(b.withdrawals[i], WithdrawalReleased, Credit).key)
    ensures var w := b.withdrawals[i];
            var v := Reported(w, target, payout, providerStatus, now);
            MarkWithdrawal(b, w.id, target, payout, providerStatus, now)
            == if PayoutTaken(b, w.id, payout) then Err(IntegrityViolation)
               else if Terminal(v.status) then Ok(Settled(b, i, v))
               else Ok(b.(withdrawals := b.withdrawals[i := v]))
  {
  }

  /** `mark_withdrawal_provider_state` keeps every law. */
  lemma {:induction false} MarkKeepsSound(b: Books, id: Id, target: WithdrawalStatus, payout: Option<Id>,
    providerStatus: string, now: nat)
    requires Sound(b) && MarkWithdrawal(b, id, target, payout, providerStatus, now).Ok?
    ensures Sound(MarkWithdrawal(b, id, target, payout, providerStatus, now).value)
  {
    var i := WithdrawalById(b, id).value;
    var w := b.withdrawals[i];
    assert RowLogged(b.ledger, w);
    if !Terminal(w.status) {
      ReportEffect(b, i, target, payout, providerStatus, now);
      var v := Reported(w, target, payout, providerStatus, now);
      if Terminal(v.status) {
        SettledKeepsSound(b, i, v);
      } else {
        RowUpdateKeepsSound(b, i, v);
      }
    }
  }

  // ---------------------------------------------------------------- top-ups

  lemma TopupEdit(b: Books, i: nat, t: Topup)
    requires Sound(b) && i < |b.topups| && TopupEntry(t) == TopupEntry(b.topups[i])
    ensures (forall e | e in b.ledger :: CreditOwned(b.topups[i := t], e))
    ensures CreditOwned(b.topups[i := t], TopupEntry(t))
    ensures !t.status.Succeeded? || TopupEntry(t) in b.ledger ==> Sound(b.(topups := b.topups[i := t]))
  {
    var r := b.(topups := b.topups[i := t]);
    forall e | e in b.ledger ensures CreditOwned(r.topups, e) {
      assert CreditOwned(b.topups, e);
      if e.key.entryType.TopupCredit? {
        var k :| 0 <= k < |b.topups| && e == TopupEntry(b.topups[k]);
        assert e == TopupEntry(r.topups[k]);
      }
    }
    assert r.topups[i] == t;
    forall d: Id ensures Sums(r, d) { assert Sums(b, d); }
    assert WithdrawalsLogged(r);
  }
}
