/** Requests that overlap: the money laws need only that each repository call is one step. Calls of many
    requests, interleaved in any order and with stale rows in hand, keep them; a request that raises
    contributes none of its calls. */
module PaymentCalls {
  import opened Prelude
  import opened PaymentDomain
  import opened PaymentBooks
  import opened PaymentFlows
  import opened WalletLaws
  import opened WithdrawalLaws
  import opened PaymentRuns

  /** `CreditHeld` and `Settle` record what a request decided from a top-up or ride it read at any earlier time.
      Payments and events carry no money: other calls may make of them what they like. */
  datatype Call =
    | OpenWalletCall(walletDriver: Id)
    | StoreTopup(topup: Topup)
    | MarkTopupCall(marked: Id, status: TopupStatus, word: string, paidAt: Option<nat>, next: Option<Option<Id>>)
    | CreditHeld(held: Topup)
    | Settle(ride: Ride, paymentStatus: PaymentStatus)
    | StoreQuote(quoteId: Id, quote: Quote)
    | ReserveCall(draft: Draft, reservedAt: nat)
    | MarkCall(withdrawal: Id, target: WithdrawalStatus, payout: Option<Id>, providerWord: string, reportedAt: nat)
    | OtherTables(payments: seq<Payment>, events: set<Id>)

  /** A top-up in hand is one that was stored: its driver, id and amount never change. */
  predicate Stored(b: Books, t: Topup) {
    exists i | 0 <= i < |b.topups| :: TopupEntry(b.topups[i]) == TopupEntry(t)
  }

  function Do(b: Books, c: Call): Books {
    match c
    case OpenWalletCall(d) => EnsureWallet(b, d)
    case StoreTopup(t) => OrSame(b, SaveTopup(b, t))
    case MarkTopupCall(id, status, word, paidAt, next) => OrSame(b, MarkTopup(b, id, status, word, paidAt, next))
    case CreditHeld(t) => if Stored(b, t) then RecordOnce(b, TopupEntry(t)) else b
    case Settle(ride, status) => RecordAll(b, SettlementEntry(ride, status))
    case StoreQuote(id, q) => if GoodQuote(q) && q.consumedAt.None? then OrSame(b, SaveQuote(b, id, q)) else b
    case ReserveCall(d, now) => OrSame(b, Reserve(b, d, now))
    case MarkCall(id, target, payout, word, now) => Report(b, id, target, payout, word, now)
    case OtherTables(payments, events) => b.(payments := payments, events := events)
  }

  function DoAll(b: Books, calls: seq<Call>): Books {
    if |calls| == 0 then b else Do(DoAll(b, calls[..|calls| - 1]), calls[|calls| - 1])
  }

  // ---------------------------------------------------------------- laws that hold between calls

  function Unmarked(t: Topup): Topup {
    t.(status := TopupStatus.Pending)
  }

  /** The books with every top-up's status forgotten: between marking a top-up and crediting it, only
      "succeeded means credited" may fail. */
  function Masked(b: Books): Books {
    b.(topups := AllUnmarked(b.topups))
  }

  function AllUnmarked(rows: seq<Topup>): seq<Topup> {
    seq(|rows|, i requires 0 <= i < |rows| => Unmarked(rows[i]))
  }

  ghost predicate SoundBetween(b: Books) {
    Sound(Masked(b))
  }

  lemma MaskedRecord(b: Books, e: Entry)
    ensures Masked(RecordOnce(b, e)) == RecordOnce(Masked(b), e)
  {
  }

  lemma CreditSound(b: Books, t: Topup)
    requires SoundBetween(b)
    ensures SoundBetween(Do(b, CreditHeld(t)))
  {
    if Stored(b, t) {
      var i :| 0 <= i < |b.topups| && TopupEntry(b.topups[i]) == TopupEntry(t);
      assert TopupEntry(Masked(b).topups[i]) == TopupEntry(t);
      assert CreditOwned(Masked(b).topups, TopupEntry(t));
      RecordKeepsSound(Masked(b), TopupEntry(t));
      MaskedRecord(b, TopupEntry(t));
    }
  }

  lemma SettleSound(b: Books, ride: Ride, status: PaymentStatus)
    requires SoundBetween(b)
    ensures SoundBetween(Do(b, Settle(ride, status)))
  {
    SettlementKeepsSound(Masked(b), ride, status);
    if SettlementEntry(ride, status).Some? {
      MaskedRecord(b, SettlementEntry(ride, status).value);
    }
  }

  lemma StoreTopupSound(b: Books, t: Topup)
    requires SoundBetween(b)
    ensures SoundBetween(Do(b, StoreTopup(t)))
  {
    if !TopupClashes(b, t) {
      MaskedFits(b, t);
      NewTopupSound(Masked(b), Unmarked(t));
      assert Masked(b.(topups := b.topups + [t])) == Masked(b).(topups := Masked(b).topups + [Unmarked(t)]);
    }
  }

  lemma MaskedFits(b: Books, t: Topup)
    requires !TopupClashes(b, t)
    ensures !TopupClashes(Masked(b), Unmarked(t))
  {
    forall u | u in Masked(b).topups ensures u.id != t.id && (u.intentId.None? || u.intentId != t.intentId) {
      var i :| 0 <= i < |b.topups| && Unmarked(b.topups[i]) == u;
      assert b.topups[i] in b.topups;
    }
  }

  lemma MarkTopupSound(b: Books, id: Id, status: TopupStatus, word: string, paidAt: Option<nat>,
    next: Option<Option<Id>>)
    requires SoundBetween(b)
    ensures SoundBetween(Do(b, MarkTopupCall(id, status, word, paidAt, next)))
  {
    if TopupById(b, id).Some? {
      var i := TopupById(b, id).value;
      var r := MarkTopup(b, id, status, word, paidAt, next).value;
      TopupEdit(Masked(b), i, Unmarked(r.topups[i]));
      assert Masked(r) == Masked(b).(topups := Masked(b).topups[i := Unmarked(r.topups[i])]);
    }
  }

  lemma ReserveSound(b: Books, d: Draft, now: nat)
    requires SoundBetween(b)
    ensures SoundBetween(Do(b, ReserveCall(d, now)))
  {
    if Reserve(b, d, now).Ok? {
      ReserveKeepsSound(Masked(b), d, now);
      MaskedReserve(b, d, now);
    }
  }

  lemma MaskedReserve(b: Books, d: Draft, now: nat)
    requires Reserve(b, d, now).Ok?
    ensures Reserve(Masked(b), d, now) == Ok(Masked(Reserve(b, d, now).value))
  {
  }

  function Report(b: Books, id: Id, target: WithdrawalStatus, payout: Option<Id>, word: string, now: nat): Books {
    OrSame(b, MarkWithdrawal(b, id, target, payout, word, now))
  }

  lemma ReportKeepsSound(b: Books, id: Id, target: WithdrawalStatus, payout: Option<Id>, word: string, now: nat)
    requires Sound(b)
    ensures Sound(Report(b, id, target, payout, word, now))
  {
    MarkSound(b, id, target, payout, word, now);
  }

  lemma GiveBackIgnoresTopups(b: Books, rows: seq<Topup>, back: Entry)
    ensures GiveBack(b.(topups := rows), back).Ok? == GiveBack(b, back).Ok?
    ensures GiveBack(b, back).Ok? ==>
              GiveBack(b.(topups := rows), back).value == GiveBack(b, back).value.(topups := rows)
              && GiveBack(b, back).value.topups == b.topups
  {
  }

  /** A report neither reads nor writes top-ups. */
  lemma ReportIgnoresTopups(
    b: Books, rows: seq<Topup>, id: Id, target: WithdrawalStatus, payout: Option<Id>, word: string, now: nat)
    ensures Report(b.(topups := rows), id, target, payout, word, now)
        == Report(b, id, target, payout, word, now).(topups := rows)
    ensures Report(b, id, target, payout, word, now).topups == b.topups
  {
    var m := b.(topups := rows);
    assert WithdrawalById(m, id) == WithdrawalById(b, id) && PayoutTaken(m, id, payout) == PayoutTaken(b, id, payout);
    if WithdrawalById(b, id).Some? {
      var i := WithdrawalById(b, id).value;
      var w := b.withdrawals[i];
      var marked := b.(withdrawals := b.withdrawals[i := Reported(w, target, payout, word, now)]);
      GiveBackIgnoresTopups(marked, rows, WithdrawalEntry(w, WithdrawalReleased, Direction.Credit));
      assert marked.(topups := rows) == m.(withdrawals := marked.withdrawals);
    }
  }

  lemma MaskedReport(b: Books, id: Id, target: WithdrawalStatus, payout: Option<Id>, word: string, now: nat)
    ensures Masked(Report(b, id, target, payout, word, now)) == Report(Masked(b), id, target, payout, word, now)
  {
    ReportIgnoresTopups(b, AllUnmarked(b.topups), id, target, payout, word, now);
  }

  lemma ReportSound(b: Books, id: Id, target: WithdrawalStatus, payout: Option<Id>, word: string, now: nat)
    requires SoundBetween(b)
    ensures SoundBetween(Report(b, id, target, payout, word, now))
  {
    MaskedReport(b, id, target, payout, word, now);
    ReportKeepsSound(Masked(b), id, target, payout, word, now);
  }

  lemma QuoteCallSound(b: Books, id: Id, q: Quote)
    requires SoundBetween(b)
    ensures SoundBetween(Do(b, StoreQuote(id, q)))
  {
    if GoodQuote(q) && q.consumedAt.None? && id !in b.quotes {
      QuoteSound(Masked(b), id, q);
      assert Masked(b.(quotes := b.quotes[id := q])) == Masked(b).(quotes := b.quotes[id := q]);
    }
  }

  lemma OtherTablesSound(b: Books, payments: seq<Payment>, events: set<Id>)
    requires SoundBetween(b)
    ensures SoundBetween(Do(b, OtherTables(payments, events)))
  {
    SameTablesSound(Masked(b), Masked(Do(b, OtherTables(payments, events))));
  }

  lemma {:induction false} CallKeepsSound(b: Books, c: Call)
    requires SoundBetween(b)
    ensures SoundBetween(Do(b, c))
  {
    match c
    case OpenWalletCall(d) =>
      WalletOpens(Masked(b), d);
      assert Masked(EnsureWallet(b, d)) == EnsureWallet(Masked(b), d);
    case StoreTopup(t) => StoreTopupSound(b, t);
    case MarkTopupCall(id, status, word, paidAt, next) => MarkTopupSound(b, id, status, word, paidAt, next);
    case CreditHeld(t) => CreditSound(b, t);
    case Settle(ride, status) => SettleSound(b, ride, status);
    case StoreQuote(id, q) => QuoteCallSound(b, id, q);
    case ReserveCall(d, now) => ReserveSound(b, d, now);
    case MarkCall(id, target, payout, word, now) => ReportSound(b, id, target, payout, word, now);
    case OtherTables(payments, events) => OtherTablesSound(b, payments, events);
  }

  lemma {:induction false} CallsKeepSound(calls: seq<Call>)
    ensures SoundBetween(DoAll(EMPTY_BOOKS, calls))
  {
    if |calls| == 0 {
      EmptyIsSound();
      assert Masked(EMPTY_BOOKS) == EMPTY_BOOKS;
    } else {
      CallsKeepSound(calls[..|calls| - 1]);
      CallKeepsSound(DoAll(EMPTY_BOOKS, calls[..|calls| - 1]), calls[|calls| - 1]);
    }
  }

  /** Whatever requests overlap and whatever they hold in hand: after every single repository call the
      cached balance is the signed sum of the log, money is conserved, no withdrawal overdraws, a top-up
      or settlement is booked at most once, and withdrawals and quotes agree with their lines. */
  lemma {:induction false} MoneyLawsBetweenCalls(calls: seq<Call>, d: Id)
    ensures var b := DoAll(EMPTY_BOOKS, calls);
            && Balance(b, d) == SignedSum(b.ledger, d)
            && Balance(b, d) + ReservedTotal(b, d) + SucceededTotal(b, d) == Credits(b, d) - Commissions(b, d)
            && Balance(b, d) + Owed(b.ledger, d) >= 0
            && UniqueKeys(b.ledger) && WithdrawalsLogged(b) && QuotesUsed(b.quotes, b.withdrawals)
  {
    var b := DoAll(EMPTY_BOOKS, calls);
    CallsKeepSound(calls);
    assert Sums(Masked(b), d);
    assert WithdrawalsLogged(Masked(b));
  }
}
