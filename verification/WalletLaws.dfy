/** What every reachable state of the payment tables satisfies: the cached balance agrees with
    the log, money is conserved, and withdrawals, quotes and top-ups agree with their ledger entries. */
module WalletLaws {
  import opened Prelude
  import opened PaymentDomain
  import opened PaymentBooks

  // ---------------------------------------------------------------- sums over the log

  const CREDIT_TYPES := {TopupCredit, RidePayout}
  const COMMISSION_TYPES := {PlatformCommission}

  /** Contribution of one log line to the balance. `WithdrawalSucceeded` is a confirmed debit
      that records a payout without moving the balance: the reservation already did. */
  function Signed(e: Entry, driver: Id): int {
    if e.key.driver == driver && !e.key.entryType.WithdrawalSucceeded? then Delta(e) else 0
  }

  function SignedSum(ledger: seq<Entry>, driver: Id): int {
    if |ledger| == 0 then 0
    else SignedSum(ledger[..|ledger| - 1], driver) + Signed(ledger[|ledger| - 1], driver)
  }

  function Counted(e: Entry, driver: Id, types: set<EntryType>): int {
    if e.key.driver == driver && e.key.entryType in types && e.status.EntryConfirmed? then e.amount else 0
  }

  function TypeSum(ledger: seq<Entry>, driver: Id, types: set<EntryType>): int {
    if |ledger| == 0 then 0
    else TypeSum(ledger[..|ledger| - 1], driver, types) + Counted(ledger[|ledger| - 1], driver, types)
  }

  const WITHDRAWAL_TYPES := {WithdrawalReserved, WithdrawalSucceeded, WithdrawalReleased}
  const PAID_TYPES := {WithdrawalSucceeded}

  /** What a log line outside withdrawals took from the driver's balance. */
  function Taken(e: Entry, driver: Id): nat {
    if e.key.driver == driver && e.key.entryType !in WITHDRAWAL_TYPES && Delta(e) < 0 then -Delta(e) else 0
  }

  function Owed(ledger: seq<Entry>, driver: Id): nat {
    if |ledger| == 0 then 0 else Owed(ledger[..|ledger| - 1], driver) + Taken(ledger[|ledger| - 1], driver)
  }

  function Credits(b: Books, driver: Id): int { TypeSum(b.ledger, driver, CREDIT_TYPES) }

  function Commissions(b: Books, driver: Id): int { TypeSum(b.ledger, driver, COMMISSION_TYPES) }

  lemma LogGrows(ledger: seq<Entry>, e: Entry, driver: Id, types: set<EntryType>)
    ensures SignedSum(ledger + [e], driver) == SignedSum(ledger, driver) + Signed(e, driver)
    ensures TypeSum(ledger + [e], driver, types) == TypeSum(ledger, driver, types) + Counted(e, driver, types)
    ensures Owed(ledger + [e], driver) == Owed(ledger, driver) + Taken(e, driver)
    ensures NonNegative(ledger + [e]) ==> NonNegative(ledger) && e.amount >= 0
  {
    assert (ledger + [e])[..|ledger|] == ledger;
    assert (ledger + [e])[|ledger|] == e;
  }

  lemma RowsGrow(rows: seq<Withdrawal>, w: Withdrawal, driver: Id, statuses: set<WithdrawalStatus>)
    ensures Total(rows + [w], driver, statuses) == Total(rows, driver, statuses) + Share(w, driver, statuses)
  {
    assert (rows + [w])[..|rows|] == rows;
  }

  lemma {:induction false} RowChanges(rows: seq<Withdrawal>, i: nat, w: Withdrawal, driver: Id,
    statuses: set<WithdrawalStatus>)
    requires i < |rows|
    ensures Total(rows[i := w], driver, statuses)
         == Total(rows, driver, statuses) - Share(rows[i], driver, statuses) + Share(w, driver, statuses)
  {
    var n := |rows| - 1;
    if i < n {
      RowChanges(rows[..n], i, w, driver, statuses);
      assert rows[i := w][..n] == rows[..n][i := w];
    } else {
      assert rows[i := w][..n] == rows[..n];
    }
  }

  // ---------------------------------------------------------------- the laws

  /** The money laws of one driver.
      1. The cached balance equals the signed sum of the confirmed log lines, leaving out
         `WithdrawalSucceeded`.
      2. Available + reserved + paid out = credited - commissions.
      3. Unless a negative amount was booked, withdrawals never take a balance below what
         commissions alone explain; whatever was booked, never below what the lines outside withdrawals
         took from it.
      4. The success lines add up to what was paid out. */
  ghost predicate Sums(b: Books, d: Id) {
    && Balance(b, d) == SignedSum(b.ledger, d)
    && Balance(b, d) + ReservedTotal(b, d) + SucceededTotal(b, d) == Credits(b, d) - Commissions(b, d)
    && (NonNegative(b.ledger) ==> Balance(b, d) >= -Commissions(b, d))
    && Balance(b, d) + Owed(b.ledger, d) >= 0
    && TypeSum(b.ledger, d, PAID_TYPES) == SucceededTotal(b, d)
  }

  ghost predicate NonNegative(ledger: seq<Entry>) {
    forall e | e in ledger :: e.amount >= 0
  }

  ghost predicate AllSums(b: Books) {
    forall d: Id :: Sums(b, d)
  }

  ghost predicate UniqueKeys(ledger: seq<Entry>) {
    forall i, j | 0 <= i < j < |ledger| :: ledger[i].key != ledger[j].key
  }

  predicate Distinct(w: Withdrawal, v: Withdrawal) {
    w.id != v.id && w.quoteId != v.quoteId && (w.payoutId.Some? ==> w.payoutId != v.payoutId)
  }

  /** One row per id, per quote and per payout. */
  ghost predicate UniqueRows(rows: seq<Withdrawal>) {
    forall i, j | 0 <= i < j < |rows| :: Distinct(rows[i], rows[j])
  }

  /** One reservation line, a success line iff succeeded, a release line iff released;
      `failed` is never stored. */
  predicate RowLogged(ledger: seq<Entry>, w: Withdrawal) {
    && w.status != WithdrawalStatus.Failed
    && w.reference == WithdrawalRef(w.id)
    && WithdrawalEntry(w, WithdrawalReserved, Debit) in ledger
    && (w.status.Succeeded? <==> WithdrawalEntry(w, WithdrawalSucceeded, Debit) in ledger)
    && (w.status.Released? <==> WithdrawalEntry(w, WithdrawalReleased, Credit) in ledger)
  }

  predicate Owns(w: Withdrawal, e: Entry) {
    && e.key.reference == WithdrawalRef(w.id) && e.key.driver == w.driver && e.amount == w.amount
    && e.status.EntryConfirmed? && (e.direction.Credit? <==> e.key.entryType.WithdrawalReleased?)
  }

  /** A withdrawal line belongs to a withdrawal row. */
  ghost predicate LineOwned(rows: seq<Withdrawal>, e: Entry) {
    e.key.entryType in WITHDRAWAL_TYPES ==> exists i | 0 <= i < |rows| :: Owns(rows[i], e)
  }

  ghost predicate WithdrawalsLogged(b: Books) {
    && (forall i | 0 <= i < |b.withdrawals| ::
          RowLogged(b.ledger, b.withdrawals[i]) && b.withdrawals[i].driver in b.wallets)
    && (forall e | e in b.ledger :: LineOwned(b.withdrawals, e))
  }

  predicate Copies(w: Withdrawal, q: Quote) {
    && w.driver == q.driver && w.amount == q.amount && w.fees == q.fees && w.net == q.net && w.currency == q.currency
    && q.consumedAt == Some(w.reservedAt) && w.reservedAt < q.expiresAt
  }

  predicate GoodQuote(q: Quote) {
    q.amount == q.fees + q.net && q.net > 0
  }

  ghost predicate Carried(rows: seq<Withdrawal>, quote: Id) {
    exists i | 0 <= i < |rows| :: rows[i].quoteId == quote
  }

  /** A quote is consumed iff a withdrawal carries it, and that withdrawal copies the quote and was
      reserved before it expired. */
  ghost predicate QuotesUsed(quotes: map<Id, Quote>, rows: seq<Withdrawal>) {
    && (forall q | q in quotes :: GoodQuote(quotes[q]) && (quotes[q].consumedAt.Some? ==> Carried(rows, q)))
    && (forall i | 0 <= i < |rows| :: rows[i].quoteId in quotes && Copies(rows[i], quotes[rows[i].quoteId]))
  }

  ghost predicate CreditOwned(topups: seq<Topup>, e: Entry) {
    e.key.entryType.TopupCredit? ==> exists i | 0 <= i < |topups| :: e == TopupEntry(topups[i])
  }

  /** Top-up credits come from top-up rows, and a top-up now marked succeeded is credited. */
  ghost predicate TopupsLogged(topups: seq<Topup>, ledger: seq<Entry>) {
    && (forall i, j | 0 <= i < j < |topups| :: topups[i].id != topups[j].id)
    && (forall i | 0 <= i < |topups| && topups[i].status.Succeeded? :: TopupEntry(topups[i]) in ledger)
    && (forall e | e in ledger :: CreditOwned(topups, e))
  }

  /** The kinds of line the services write; every other kind is written nowhere. */
  predicate KnownLine(e: Entry) {
    e.status.EntryConfirmed? &&
    match e.key.entryType
    case TopupCredit => e.direction.Credit?
    case RidePayout => e.direction.Credit?
    case WithdrawalReleased => e.direction.Credit?
    case PlatformCommission => e.direction.Debit?
    case WithdrawalReserved => e.direction.Debit?
    case WithdrawalSucceeded => e.direction.Debit?
    case _ => false
  }

  ghost predicate KnownLines(ledger: seq<Entry>) {
    forall e | e in ledger :: KnownLine(e)
  }

  ghost predicate Sound(b: Books) {
    && KnownLines(b.ledger) && AllSums(b) && UniqueKeys(b.ledger) && UniqueRows(b.withdrawals) && WithdrawalsLogged(b)
    && QuotesUsed(b.quotes, b.withdrawals) && TopupsLogged(b.topups, b.ledger)
  }

  lemma {:induction false} NonNegativeSum(ledger: seq<Entry>, driver: Id, types: set<EntryType>)
    requires NonNegative(ledger)
    ensures TypeSum(ledger, driver, types) >= 0
  {
    if |ledger| > 0 {
      NonNegativeSum(ledger[..|ledger| - 1], driver, types);
    }
  }

  lemma EmptyIsSound()
    ensures Sound(EMPTY_BOOKS)
  {}

  // ---------------------------------------------------------------- credits and commissions

  /** The entries `_record_ride_settlement` and `_credit_driver_topup` build. */
  predicate ServiceEntry(e: Entry) {
    KnownLine(e) && e.key.entryType !in WITHDRAWAL_TYPES
  }

  lemma WalletOpens(b: Books, driver: Id)
    requires Sound(b)
    ensures Sound(EnsureWallet(b, driver))
  {
    var r := EnsureWallet(b, driver);
    forall d: Id ensures Sums(r, d) { assert Sums(b, d); }
  }

  lemma RecordKeepsSums(b: Books, e: Entry, d: Id)
    requires Sums(b, d) && ServiceEntry(e)
    ensures Sums(RecordOnce(b, e), d)
  {
    if !HasEntry(b.ledger, e.key) {
      BalanceFollowsLine(b, e, d);
      FreshLineKeepsSums(b, RecordOnce(b, e), e, d);
    }
  }

  lemma BalanceFollowsLine(b: Books, e: Entry, d: Id)
    requires !HasEntry(b.ledger, e.key) && ServiceEntry(e)
    ensures Balance(RecordOnce(b, e), d) == Balance(b, d) + Signed(e, d)
  {
  }

  lemma FreshLineKeepsSums(b: Books, r: Books, e: Entry, d: Id)
    requires Sums(b, d) && ServiceEntry(e) && r.ledger == b.ledger + [e] && r.withdrawals == b.withdrawals
    requires Balance(r, d) == Balance(b, d) + Signed(e, d)
    ensures Sums(r, d)
  {
    LogGrows(b.ledger, e, d, CREDIT_TYPES);
    LogGrows(b.ledger, e, d, COMMISSION_TYPES);
    LogGrows(b.ledger, e, d, PAID_TYPES);
    ServiceLineMoves(e, d);
    assert ReservedTotal(r, d) == ReservedTotal(b, d) && SucceededTotal(r, d) == SucceededTotal(b, d);
  }

  /** What one service line adds to each sum. */
  lemma ServiceLineMoves(e: Entry, d: Id)
    requires ServiceEntry(e)
    ensures Signed(e, d) == Counted(e, d, CREDIT_TYPES) - Counted(e, d, COMMISSION_TYPES)
    ensures Signed(e, d) + Taken(e, d) >= 0 && Counted(e, d, PAID_TYPES) == 0
    ensures e.amount >= 0 ==> Counted(e, d, CREDIT_TYPES) >= 0
  {
  }

  lemma KeysStayUnique(ledger: seq<Entry>, e: Entry)
    requires UniqueKeys(ledger) && !HasEntry(ledger, e.key)
    ensures UniqueKeys(ledger + [e])
  {
    var grown := ledger + [e];
    forall i, j | 0 <= i < j < |grown| ensures grown[i].key != grown[j].key {
      assert grown[i] == ledger[i] && ledger[i] in ledger;
    }
  }

  /** A log line of another kind leaves the withdrawal correspondence alone. */
  lemma OtherLineKeepsWithdrawals(b: Books, r: Books, e: Entry)
    requires WithdrawalsLogged(b) && e.key.entryType !in WITHDRAWAL_TYPES
    requires r.withdrawals == b.withdrawals && r.ledger == b.ledger + [e] && b.wallets.Keys <= r.wallets.Keys
    ensures WithdrawalsLogged(r)
  {
    forall i | 0 <= i < |r.withdrawals| ensures RowLogged(r.ledger, r.withdrawals[i]) {
      assert RowLogged(b.ledger, b.withdrawals[i]);
    }
  }

  lemma RecordKeepsSound(b: Books, e: Entry)
    requires Sound(b) && ServiceEntry(e) && CreditOwned(b.topups, e)
    ensures Sound(RecordOnce(b, e))
  {
    var r := RecordOnce(b, e);
    if HasEntry(b.ledger, e.key) {
      WalletOpens(b, e.key.driver);
    } else {
      forall d: Id ensures Sums(r, d) { RecordKeepsSums(b, e, d); }
      KeysStayUnique(b.ledger, e);
      OtherLineKeepsWithdrawals(b, r, e);
    }
  }

  /** A ride settlement keeps every law, whatever the ride and its payment status. */
  lemma {:induction false} SettlementKeepsSound(b: Books, ride: Ride, s: PaymentStatus)
    requires Sound(b)
    ensures Sound(RecordAll(b, SettlementEntry(ride, s)))
  {
    var e := SettlementEntry(ride, s);
    if e.Some? {
      RecordKeepsSound(b, e.value);
    }
  }
}
