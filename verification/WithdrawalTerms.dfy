/** The terms of a withdrawal, from the quote to the row: what is asked, what it costs, what is paid out. */
module WithdrawalTerms {
  import opened Prelude
  import opened PaymentDomain
  import opened PaymentBooks
  import opened PaymentFlows
  import opened WalletLaws
  import opened WithdrawalLaws
  import opened PaymentRuns
  import opened PaymentEffects

  /** The configured fee comes off the amount asked; the offer stands unused until its time is over. */
  predicate Offers(q: Quote, driver: Id, amount: int, s: WithdrawalSettings, now: nat) {
    && q.driver == driver && q.amount == amount && q.fees == s.fee && q.net == amount - s.fee
    && q.currency == "XOF" && q.expiresAt == now + s.ttl && q.consumedAt == None
  }

  /** A quote is granted exactly for an amount that reaches the minimum, exceeds the fee and is covered by
      the balance, under a new id; it then offers those terms, and no other quote, row, line or balance
      changes. */
  lemma QuoteGrantedExactlyWhen(b: Books, id: Id, driver: Id, amount: int, s: WithdrawalSettings, now: nat)
    ensures var o := QuoteWithdrawal(b, id, driver, amount, s, now);
            && (o.Done? <==> amount >= s.minimum && amount > s.fee && amount <= Balance(b, driver) && id !in b.quotes)
            && (o.Done? ==>
                  && o.books.quotes.Keys == b.quotes.Keys + {id} && Offers(o.books.quotes[id], driver, amount, s, now)
                  && (forall q | q in b.quotes :: o.books.quotes[q] == b.quotes[q])
                  && o.books.withdrawals == b.withdrawals && o.books.ledger == b.ledger
                  && forall d: Id :: Balance(o.books, d) == Balance(b, d))
  {
  }

  /** The row a request stores: the quote's terms, to the requested destination, reserved now. */
  predicate ReservedOn(w: Withdrawal, d: Draft, q: Quote, now: nat) {
    && w.id == d.id && w.driver == d.driver && w.quoteId == d.quoteId && w.destination == d.destination
    && w.amount == q.amount && w.fees == q.fees && w.net == q.net && w.currency == q.currency
    && w.status == WithdrawalStatus.Reserved && w.reservedAt == now && w.reference == WithdrawalRef(d.id)
    && w.payoutId == None && w.succeededAt == None && w.releasedAt == None
  }

  /** A granted request stores exactly one row on the quote's terms, books exactly one reservation of its
      amount, takes that amount off the balance and marks the quote used. */
  lemma {:induction false} RequestReserves(b: Books, d: Draft, verified: bool, now: nat)
    requires Sound(b) && d.quoteId in b.quotes && b.quotes[d.quoteId].consumedAt.None?
    requires RequestWithdrawal(b, d, verified, now).Done?
    ensures var r := RequestWithdrawal(b, d, verified, now).books; var q := b.quotes[d.quoteId];
            && verified
            && r.withdrawals == b.withdrawals + [r.withdrawals[|b.withdrawals|]]
            && ReservedOn(r.withdrawals[|b.withdrawals|], d, q, now)
            && r.ledger == b.ledger
                 + [Entry(Key(d.driver, WithdrawalReserved, WithdrawalRef(d.id)), q.amount, Debit, EntryConfirmed)]
            && Balance(r, d.driver) == Balance(b, d.driver) - q.amount
            && r.quotes == b.quotes[d.quoteId := q.(consumedAt := Some(now))]
  {
    UnusedQuoteHasNoRow(b, d.quoteId);
  }

  /** A request on a used quote is answered from its row, for the same driver and destination only, verified
      or not, and changes nothing. */
  lemma RepeatTakenExactlyWhen(b: Books, i: nat, d: Draft, verified: bool, now: nat)
    requires WithdrawalByQuote(b, d.quoteId) == Some(i)
    ensures var w := b.withdrawals[i]; var o := RequestWithdrawal(b, d, verified, now);
            && (o.Done? <==> d.driver == w.driver && d.destination == w.destination)
            && (o.Done? ==> o.books == b)
  {
  }

  /** Reserving a used quote again fills in a destination the row lacks and changes nothing else. */
  lemma ReplayFillsDestination(b: Books, i: nat, d: Draft, now: nat)
    requires d.quoteId in b.quotes && b.quotes[d.quoteId].driver == d.driver && b.quotes[d.quoteId].consumedAt.Some?
    requires WithdrawalByQuote(b, d.quoteId) == Some(i)
    ensures var r := Reserve(b, d, now); var w := b.withdrawals[i];
            && r.Ok? && r.value == b.(withdrawals := r.value.withdrawals) && |r.value.withdrawals| == |b.withdrawals|
            && (forall k | 0 <= k < |b.withdrawals| && k != i :: r.value.withdrawals[k] == b.withdrawals[k])
            && r.value.withdrawals[i].destination == (if w.destination.Some? then w.destination else d.destination)
            && r.value.withdrawals[i].(destination := w.destination) == w
  {
  }

  /** From quote to row: what a driver asked for is reserved in full, the configured fee is kept, and the
      rest is what is to be paid out. */
  lemma {:induction false} AskedFeesAndNetAreCarried(
    b: Books, id: Id, driver: Id, amount: int, s: WithdrawalSettings, now: nat, d: Draft, verified: bool, later: nat)
    requires Sound(b) && QuoteWithdrawal(b, id, driver, amount, s, now).Done? && d.quoteId == id
    requires RequestWithdrawal(QuoteWithdrawal(b, id, driver, amount, s, now).books, d, verified, later).Done?
    ensures var quoted := QuoteWithdrawal(b, id, driver, amount, s, now).books;
            var r := RequestWithdrawal(quoted, d, verified, later).books;
            && |r.withdrawals| == |b.withdrawals| + 1
            && var w := r.withdrawals[|b.withdrawals|];
               w.driver == driver && w.amount == amount && w.fees == s.fee && w.net == amount - s.fee
               && w.fees + w.net == amount
  {
    QuoteGrantedExactlyWhen(b, id, driver, amount, s, now);
    QuoteRequestSound(b, id, driver, amount, s, now);
    var quoted := QuoteWithdrawal(b, id, driver, amount, s, now).books;
    RequestReserves(quoted, d, verified, later);
    RequestIsByOwner(quoted, d, verified, later);
  }

  lemma RequestIsByOwner(b: Books, d: Draft, verified: bool, now: nat)
    requires Sound(b) && d.quoteId in b.quotes && b.quotes[d.quoteId].consumedAt.None?
    requires RequestWithdrawal(b, d, verified, now).Done?
    ensures b.quotes[d.quoteId].driver == d.driver
  {
    UnusedQuoteHasNoRow(b, d.quoteId);
  }
}
