/** The tables are explained by the reports that were applied: credits, settlements and withdrawal
    statuses are functions of the trace of a run, whatever the interleaving. */
module PaymentTraces {
  import opened Prelude
  import opened PaymentDomain
  import opened PaymentBooks
  import opened PaymentFlows
  import opened PaymentRuns

  // ---------------------------------------------------------------- what a trace says

  /** The driver's credit for this top-up is in the log. */
  ghost predicate Credited(ledger: seq<Entry>, topup: Id) {
    exists e | e in ledger :: e.key.entryType.TopupCredit? && e.key.reference == TopupRef(topup)
  }

  function LastReport(ts: seq<Touch>, topup: Id): Option<TopupStatus> {
    if |ts| == 0 then None
    else
      var x := ts[|ts| - 1];
      if x.TopupReport? && x.topup == topup then Some(x.topupStatus) else LastReport(ts[..|ts| - 1], topup)
  }

  function StoredTopupStatus(b: Books, topup: Id): Option<TopupStatus> {
    match TopupById(b, topup)
    case None => None
    case Some(i) => Some(b.topups[i].status)
  }

  predicate Calls(x: Touch, k: Key) {
    x.RideReport? && SettlementEntry(x.ride, x.rideStatus).Some? && SettlementEntry(x.ride, x.rideStatus).value.key == k
  }

  /** Some applied ride report called for the settlement entry `k`. */
  ghost predicate Called(ts: seq<Touch>, k: Key) {
    exists x | x in ts :: Calls(x, k)
  }

  function Concerns(x: Touch, withdrawal: Id): seq<WithdrawalStatus> {
    if x.PayoutReport? && x.withdrawal == withdrawal then [x.target] else []
  }

  /** The reports about one withdrawal, oldest first. */
  function ReportsOn(ts: seq<Touch>, withdrawal: Id): seq<WithdrawalStatus> {
    if |ts| == 0 then [] else ReportsOn(ts[..|ts| - 1], withdrawal) + Concerns(ts[|ts| - 1], withdrawal)
  }

  predicate Final(target: WithdrawalStatus) {
    target in {WithdrawalStatus.Succeeded, WithdrawalStatus.Failed, WithdrawalStatus.Released}
  }

  function FirstFinal(reports: seq<WithdrawalStatus>): Option<WithdrawalStatus> {
    if |reports| == 0 then None
    else if Final(reports[0]) then Some(reports[0])
    else FirstFinal(reports[1..])
  }

  /** The status a withdrawal must have after these reports: the first terminal one decides, a failure
      is stored as `released`; before that, the latest report counts. */
  function Verdict(reports: seq<WithdrawalStatus>): WithdrawalStatus {
    match FirstFinal(reports)
    case Some(Succeeded) => WithdrawalStatus.Succeeded
    case Some(_) => WithdrawalStatus.Released
    case None => if |reports| == 0 then WithdrawalStatus.Reserved else reports[|reports| - 1]
  }

  /** A withdrawal that does not exist yet counts as reserved. */
  function StoredWithdrawalStatus(b: Books, withdrawal: Id): WithdrawalStatus {
    match WithdrawalById(b, withdrawal)
    case None => WithdrawalStatus.Reserved
    case Some(i) => b.withdrawals[i].status
  }

  function NextStatus(s: WithdrawalStatus, target: WithdrawalStatus): WithdrawalStatus {
    if Terminal(s) then s else if target.Failed? then WithdrawalStatus.Released else target
  }

  function Fold(s: WithdrawalStatus, reports: seq<WithdrawalStatus>): WithdrawalStatus {
    if |reports| == 0 then s else NextStatus(Fold(s, reports[..|reports| - 1]), reports[|reports| - 1])
  }

  // ---------------------------------------------------------------- one step is explained by its reports

  ghost predicate TopupsExplained(b: Books, ts: seq<Touch>, r: Books) {
    && (forall id: Id :: Credited(r.ledger, id) <==>
        Credited(b.ledger, id) || TopupReport(id, TopupStatus.Succeeded) in ts)
    && (forall id: Id :: StoredTopupStatus(r, id) == LastReport(ts, id).Or(StoredTopupStatus(b, id)))
  }

  ghost predicate RidesExplained(b: Books, ts: seq<Touch>, r: Books) {
    forall k: Key | k.reference.RideRef? :: HasEntry(r.ledger, k) <==> HasEntry(b.ledger, k) || Called(ts, k)
  }

  ghost predicate PayoutsExplained(b: Books, ts: seq<Touch>, r: Books) {
    forall id: Id :: StoredWithdrawalStatus(r, id) == Fold(StoredWithdrawalStatus(b, id), ReportsOn(ts, id))
  }

  ghost predicate Explained(b: Books, ts: seq<Touch>, r: Books) {
    TopupsExplained(b, ts, r) && RidesExplained(b, ts, r) && PayoutsExplained(b, ts, r) && b.ledger <= r.ledger
  }

  lemma {:induction false} LastOfBoth(ts: seq<Touch>, us: seq<Touch>, id: Id)
    ensures LastReport(ts + us, id) == LastReport(us, id).Or(LastReport(ts, id))
  {
    if |us| == 0 {
      assert ts + us == ts;
    } else {
      LastOfBoth(ts, us[..|us| - 1], id);
      assert (ts + us)[..|ts + us| - 1] == ts + us[..|us| - 1];
    }
  }

  lemma {:induction false} ReportsOfBoth(ts: seq<Touch>, us: seq<Touch>, id: Id)
    ensures ReportsOn(ts + us, id) == ReportsOn(ts, id) + ReportsOn(us, id)
  {
    if |us| == 0 {
      assert ts + us == ts;
    } else {
      ReportsOfBoth(ts, us[..|us| - 1], id);
      assert (ts + us)[..|ts + us| - 1] == ts + us[..|us| - 1];
    }
  }

  lemma {:induction false} FoldOfBoth(s: WithdrawalStatus, xs: seq<WithdrawalStatus>, ys: seq<WithdrawalStatus>)
    ensures Fold(s, xs + ys) == Fold(Fold(s, xs), ys)
  {
    if |ys| == 0 {
      assert xs + ys == xs;
    } else {
      FoldOfBoth(s, xs, ys[..|ys| - 1]);
      assert (xs + ys)[..|xs + ys| - 1] == xs + ys[..|ys| - 1];
    }
  }

  lemma CalledByEither(ts: seq<Touch>, us: seq<Touch>, k: Key)
    ensures Called(ts + us, k) <==> Called(ts, k) || Called(us, k)
  {
    if Called(ts, k) {
      var x :| x in ts && Calls(x, k);
      assert x in ts + us;
    }
    if Called(us, k) {
      var x :| x in us && Calls(x, k);
      assert x in ts + us;
    }
  }

  lemma Compose(b: Books, ts: seq<Touch>, m: Books, us: seq<Touch>, r: Books)
    requires Explained(b, ts, m) && Explained(m, us, r)
    ensures Explained(b, ts + us, r)
  {
    forall id: Id
      ensures StoredTopupStatus(r, id) == LastReport(ts + us, id).Or(StoredTopupStatus(b, id))
      ensures StoredWithdrawalStatus(r, id) == Fold(StoredWithdrawalStatus(b, id), ReportsOn(ts + us, id))
    {
      LastOfBoth(ts, us, id);
      ReportsOfBoth(ts, us, id);
      FoldOfBoth(StoredWithdrawalStatus(b, id), ReportsOn(ts, id), ReportsOn(us, id));
    }
    forall k: Key | k.reference.RideRef?
      ensures HasEntry(r.ledger, k) <==> HasEntry(b.ledger, k) || Called(ts + us, k)
    {
      CalledByEither(ts, us, k);
    }
  }

  // ---------------------------------------------------------------- primitive steps

  lemma QuietExplained(b: Books, r: Books)
    requires r.ledger == b.ledger && r.topups == b.topups && r.withdrawals == b.withdrawals
    ensures Explained(b, [], r)
  {}

  lemma LogLine(ledger: seq<Entry>, e: Entry)
    ensures forall k: Key :: HasEntry(ledger + [e], k) <==> HasEntry(ledger, k) || k == e.key
    ensures forall id: Id :: Credited(ledger + [e], id) <==>
              Credited(ledger, id) || (e.key.entryType.TopupCredit? && e.key.reference == TopupRef(id))
  {
    assert (ledger + [e])[|ledger|] == e;
    forall k: Key | HasEntry(ledger, k) ensures HasEntry(ledger + [e], k) {
      var f :| f in ledger && f.key == k;
      assert f in ledger + [e];
    }
    forall id: Id | Credited(ledger, id) ensures Credited(ledger + [e], id) {
      var f :| f in ledger && f.key.entryType.TopupCredit? && f.key.reference == TopupRef(id);
      assert f in ledger + [e];
    }
  }

  lemma CalledAlone(x: Touch, k: Key)
    ensures Called([x], k) <==> Calls(x, k)
  {
    assert x in [x];
  }

  lemma RideReportExplained(b: Books, ride: Ride, status: PaymentStatus)
    ensures Explained(b, [RideReport(ride, status)], RecordAll(b, SettlementEntry(ride, status)))
  {
    var e := SettlementEntry(ride, status);
    var r := RecordAll(b, e);
    var x := RideReport(ride, status);
    if e.Some? {
      LogLine(b.ledger, e.value);
    }
    forall k: Key | k.reference.RideRef? ensures HasEntry(r.ledger, k) <==> HasEntry(b.ledger, k) || Called([x], k) {
      CalledAlone(x, k);
    }
    assert TopupsExplained(b, [x], r);
    assert PayoutsExplained(b, [x], r) by {
      assert [x][..0] == [];
    }
  }

  lemma SettleExplained(b: Books, rides: map<Id, Ride>, ride: Id, status: PaymentStatus)
    ensures var o := SettleRide(b, rides, ride, status); o.Done? && Explained(b, o.touches, o.books)
  {
    if ride in rides {
      RideReportExplained(b, rides[ride], status);
    }
  }

  lemma TransactionExplained(
    b: Books, rides: map<Id, Ride>, id: Id, status: PaymentStatus, word: string, paidAt: Option<nat>,
        next: Option<Option<Id>>)
    ensures var o := ApplyTransaction(b, rides, id, status, word, paidAt, next);
            o.Done? ==> Explained(b, o.touches, o.books)
  {
    if PaymentById(b, id).Some? {
      var i := PaymentById(b, id).value;
      var p := MarkedExternal(b.payments[i], status, word, paidAt, next);
      var marked := b.(payments := b.payments[i := p]);
      QuietExplained(b, marked);
      SettleExplained(marked, rides, p.rideId, status);
      var o := SettleRide(marked, rides, p.rideId, status);
      Compose(b, [], marked, o.touches, o.books);
      assert [] + o.touches == o.touches;
    }
  }

  lemma TopupIndexStable(b: Books, r: Books, i: nat, t: Topup, id: Id)
    requires i < |b.topups| && t.id == b.topups[i].id && r.topups == b.topups[i := t]
    ensures TopupById(r, id) == TopupById(b, id)
  {
    var x, y := TopupById(b, id), TopupById(r, id);
    if x.Some? {
      assert r.topups[x.value].id == id;
    }
    if y.Some? {
      assert b.topups[y.value].id == id;
    }
  }

  lemma TopupExplained(b: Books, id: Id, status: TopupStatus, word: string, paidAt: Option<nat>,
    next: Option<Option<Id>>)
    ensures var o := ApplyTopup(b, id, status, word, paidAt, next); o.Done? ==> Explained(b, o.touches, o.books)
  {
    if TopupById(b, id).Some? {
      var i := TopupById(b, id).value;
      var o := ApplyTopup(b, id, status, word, paidAt, next);
      var t := MarkTopup(b, id, status, word, paidAt, next).value.topups[i];
      forall other: Id ensures StoredTopupStatus(o.books, other)
          == LastReport(o.touches, other).Or(StoredTopupStatus(b, other)) {
        TopupIndexStable(b, o.books, i, t, other);
      }
      LogLine(b.ledger, TopupEntry(t));
      assert HasEntry(b.ledger, TopupEntry(t).key) ==> Credited(b.ledger, id);
    }
  }

  lemma NewTopupExplained(b: Books, t: Topup)
    requires !TopupClashes(b, t)
    ensures var saved := b.(topups := b.topups + [t]);
            var r := if t.status.Succeeded? then RecordOnce(saved, TopupEntry(t)) else saved;
            Explained(b, [TopupReport(t.id, t.status)], r)
  {
    var saved := b.(topups := b.topups + [t]);
    var r := if t.status.Succeeded? then RecordOnce(saved, TopupEntry(t)) else saved;
    forall other: Id
      ensures StoredTopupStatus(r, other) == LastReport([TopupReport(t.id, t.status)],
          other).Or(StoredTopupStatus(b, other))
    {
      AppendedTopup(b, r, t, other);
    }
    LogLine(b.ledger, TopupEntry(t));
    assert HasEntry(b.ledger, TopupEntry(t).key) ==> Credited(b.ledger, t.id);
  }

  lemma AppendedTopup(b: Books, r: Books, t: Topup, id: Id)
    requires !TopupClashes(b, t) && r.topups == b.topups + [t]
    ensures TopupById(r, id) == if id == t.id then Some(|b.topups|) else TopupById(b, id)
  {
    forall i | 0 <= i < |b.topups| ensures b.topups[i].id != t.id && r.topups[i] == b.topups[i] {
      assert b.topups[i] in b.topups;
    }
    var x, y := TopupById(b, id), TopupById(r, id);
    assert r.topups[|b.topups|] == t;
    if y.Some? && y.value < |b.topups| {
      assert b.topups[y.value].id == id;
    }
    if x.Some? {
      assert r.topups[x.value].id == id;
    }
  }

  lemma RowIndexStable(b: Books, r: Books, i: nat, w: Withdrawal, id: Id)
    requires i < |b.withdrawals| && w.id == b.withdrawals[i].id && r.withdrawals == b.withdrawals[i := w]
    ensures WithdrawalById(r, id) == WithdrawalById(b, id)
  {
    var x, y := WithdrawalById(b, id), WithdrawalById(r, id);
    if x.Some? {
      assert r.withdrawals[x.value].id == id;
    }
    if y.Some? {
      assert b.withdrawals[y.value].id == id;
    }
  }

  /** What `mark_withdrawal_provider_state` may do, seen from outside: it edits one row's status and
      appends at most one withdrawal line. */
  lemma MarkShape(b: Books, id: Id, target: WithdrawalStatus, payout: Option<Id>, word: string, now: nat)
    requires MarkWithdrawal(b, id, target, payout, word, now).Ok?
    ensures var r := MarkWithdrawal(b, id, target, payout, word, now).value;
            var i := WithdrawalById(b, id);
            && i.Some? && |r.withdrawals| == |b.withdrawals| && r.topups == b.topups
            && r.withdrawals[i.value].id == b.withdrawals[i.value].id
            && r.withdrawals == b.withdrawals[i.value := r.withdrawals[i.value]]
            && r.withdrawals[i.value].status == NextStatus(b.withdrawals[i.value].status, target)
            && (|| r.ledger == b.ledger
                || r.ledger == b.ledger + [WithdrawalEntry(b.withdrawals[i.value], WithdrawalSucceeded, Debit)]
                || r.ledger == b.ledger + [WithdrawalEntry(b.withdrawals[i.value], WithdrawalReleased, Credit)])
  {
    var i := WithdrawalById(b, id).value;
    if Terminal(b.withdrawals[i].status) {
      assert b.withdrawals[i := b.withdrawals[i]] == b.withdrawals;
    }
  }

  lemma SingleReport(id: Id, target: WithdrawalStatus, other: Id)
    ensures ReportsOn([PayoutReport(id, target)], other) == if other == id then [target] else []
    ensures forall s: WithdrawalStatus :: Fold(s, [target]) == NextStatus(s, target)
  {
    assert [PayoutReport(id, target)][..0] == [];
    assert [target][..0] == [];
  }

  lemma MarkExplained(b: Books, id: Id, target: WithdrawalStatus, payout: Option<Id>, word: string, now: nat)
    ensures var r := MarkWithdrawal(b, id, target, payout, word, now);
            r.Ok? ==> Explained(b, [PayoutReport(id, target)], r.value)
  {
    if MarkWithdrawal(b, id, target, payout, word, now).Ok? {
      var r := MarkWithdrawal(b, id, target, payout, word, now).value;
      MarkShape(b, id, target, payout, word, now);
      MarkedExplained(b, r, WithdrawalById(b, id).value, id, target);
    }
  }

  lemma {:induction false} MarkedExplained(b: Books, r: Books, i: nat, id: Id, target: WithdrawalStatus)
    requires WithdrawalById(b, id) == Some(i) && |r.withdrawals| == |b.withdrawals|
    requires r.topups == b.topups && r.withdrawals == b.withdrawals[i := r.withdrawals[i]]
    requires r.withdrawals[i].id == b.withdrawals[i].id
    requires r.withdrawals[i].status == NextStatus(b.withdrawals[i].status, target)
    requires || r.ledger == b.ledger
             || r.ledger == b.ledger + [WithdrawalEntry(b.withdrawals[i], WithdrawalSucceeded, Debit)]
             || r.ledger == b.ledger + [WithdrawalEntry(b.withdrawals[i], WithdrawalReleased, Credit)]
    ensures Explained(b, [PayoutReport(id, target)], r)
  {
    forall other: Id
      ensures StoredWithdrawalStatus(r, other)
          == Fold(StoredWithdrawalStatus(b, other), ReportsOn([PayoutReport(id, target)], other))
    {
      RowIndexStable(b, r, i, r.withdrawals[i], other);
      SingleReport(id, target, other);
    }
    LogLine(b.ledger, WithdrawalEntry(b.withdrawals[i], WithdrawalSucceeded, Debit));
    LogLine(b.ledger, WithdrawalEntry(b.withdrawals[i], WithdrawalReleased, Credit));
  }

  lemma ReserveExplained(b: Books, d: Draft, now: nat)
    ensures var r := Reserve(b, d, now); r.Ok? ==> Explained(b, [], r.value)
  {
    var m := Reserve(b, d, now);
    if m.Ok? {
      var r := m.value;
      var q := b.quotes[d.quoteId];
      if q.consumedAt.Some? {
        var i := WithdrawalByQuote(b, d.quoteId).value;
        forall id: Id ensures StoredWithdrawalStatus(r, id) == StoredWithdrawalStatus(b, id) {
          RowIndexStable(b, r, i, r.withdrawals[i], id);
        }
      } else {
        var w := NewWithdrawal(d, q, now);
        forall id: Id ensures StoredWithdrawalStatus(r, id) == StoredWithdrawalStatus(b, id) {
          AppendedRow(b, r, w, id);
        }
        LogLine(b.ledger, WithdrawalEntry(w, WithdrawalReserved, Debit));
      }
    }
  }

  lemma AppendedRow(b: Books, r: Books, w: Withdrawal, id: Id)
    requires (forall v | v in b.withdrawals :: v.id != w.id) && r.withdrawals == b.withdrawals + [w]
    ensures WithdrawalById(r, id) == if id == w.id then Some(|b.withdrawals|) else WithdrawalById(b, id)
  {
    forall i | 0 <= i < |b.withdrawals| ensures b.withdrawals[i].id != w.id && r.withdrawals[i] == b.withdrawals[i] {
      assert b.withdrawals[i] in b.withdrawals;
    }
    var x, y := WithdrawalById(b, id), WithdrawalById(r, id);
    assert r.withdrawals[|b.withdrawals|] == w;
    if y.Some? && y.value < |b.withdrawals| {
      assert b.withdrawals[y.value].id == id;
    }
    if x.Some? {
      assert r.withdrawals[x.value].id == id;
    }
  }
}
