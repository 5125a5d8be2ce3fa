/** Payment requests for one ride that overlap: each first looks for the ride's payment and only later
    writes (`confirm_cash`, `_prepare_cash` and `_prepare_diddipay` of `payment/application/services.py`).
    `ride_id` is not unique in the table; what is unique is the idempotency key of a first digital try. */
module PaymentRaces {
  import opened Prelude

  datatype Ask = ConfirmCash | PrepareCash | PrepareDigital

  /** A stored payment of the ride: whether it carries a provider intent, is collected in cash, holds the
      key of the first digital try, and stands failed or cancelled. */
  datatype Row = Row(intent: bool, cash: bool, firstKey: bool, failed: bool)

  /** `SawNone` found no payment and is about to insert one; `Saw` found the only one, as it was then. */
  datatype Stage = Idle | SawNone(ask: Ask) | Saw(foundFor: Ask, found: Row) | Refused

  datatype State = State(rows: seq<Row>, stages: map<Id, Stage>) {
    function At(r: Id): Stage {
      if r in stages then stages[r] else Idle
    }

    function To(r: Id, stage: Stage): State {
      this.(stages := stages[r := stage])
    }
  }

  const FRESH := State([], map[])

  /** A look with two rows in the table raises. A webhook may mark any provider row failed at any time. A
      crash, or a rollback, stops a request where it stands. */
  datatype Step =
    | Look(request: Id, wanted: Ask)
    | Write(request: Id)
    | Crash(request: Id)
    | ProviderFails(row: nat)

  function NewRow(ask: Ask): Row {
    if ask.PrepareDigital? then Row(true, false, true, false) else Row(false, true, false, false)
  }

  /** What a request does to the payment it found. A retry and a switch to cash give the first key up. */
  function Rewritten(ask: Ask, found: Row, now: Row): Option<Row> {
    match ask
    case ConfirmCash => Some(now.(cash := true, failed := false))
    case PrepareCash =>
      if found.cash then Some(now)
      else if !found.failed then None
      else Some(Row(false, true, false, false))
    case PrepareDigital =>
      if found.intent && !found.failed then Some(now)
      else if !found.intent then None
      else Some(Row(true, false, false, false))
  }

  predicate KeyTaken(rows: seq<Row>) {
    exists i | 0 <= i < |rows| :: rows[i].firstKey
  }

  function Next(s: State, e: Step): State {
    match e
    case Look(r, ask) =>
      if !s.At(r).Idle? then s
      else if |s.rows| == 0 then s.To(r, SawNone(ask))
      else if |s.rows| == 1 then s.To(r, Saw(ask, s.rows[0]))
      else s.To(r, Refused)
    case Write(r) =>
      (match s.At(r)
       case SawNone(ask) =>
         if ask.PrepareDigital? && KeyTaken(s.rows) then s.To(r, Refused)
         else s.To(r, Idle).(rows := s.rows + [NewRow(ask)])
       case Saw(ask, found) =>
         if |s.rows| == 0 || Rewritten(ask, found, s.rows[0]).None? then s.To(r, Refused)
         else s.To(r, Idle).(rows := s.rows[0 := Rewritten(ask, found, s.rows[0]).value])
       case _ => s)
    case Crash(r) => s.To(r, Idle)
    case ProviderFails(i) =>
      if i < |s.rows| && s.rows[i].intent then s.(rows := s.rows[i := s.rows[i].(failed := true)]) else s
  }

  function Run(s: State, steps: seq<Step>): State {
    if |steps| == 0 then s else Next(Run(s, steps[..|steps| - 1]), steps[|steps| - 1])
  }

  // ---------------------------------------------------------------- how many rows can follow

  predicate CashPending(x: Stage) {
    x.SawNone? && !x.ask.PrepareDigital?
  }

  predicate DigitalPending(x: Stage) {
    x.SawNone? && x.ask.PrepareDigital?
  }

  function Count(s: State, p: Stage -> bool): nat {
    |Where(s.stages, p)|
  }

  /** A row that no request can have found, because it was never the only one, holds the first key. */
  predicate KeyLocked(s: State) {
    exists i | 1 <= i < |s.rows| :: s.rows[i].firstKey
  }

  /** The largest number of rows the ride can still get: those there are, one for each cash request that
      saw none, and one for all digital ones together while the first key can be free. */
  function Limit(s: State): nat {
    |s.rows| + Count(s, CashPending) + Flag(Count(s, DigitalPending) > 0 && !KeyLocked(s))
  }

  lemma StageMoves(s: State, e: Step, p: Stage -> bool)
    requires !e.ProviderFails? && !p(Idle)
    ensures var t := Next(s, e);
            |Where(t.stages, p)| + Flag(p(s.At(e.request))) == |Where(s.stages, p)| + Flag(p(t.At(e.request)))
  {
    var t := Next(s, e);
    WhereMoves(s.stages, p, e.request, t.At(e.request));
    assert t.stages == s.stages || t.stages == s.stages[e.request := t.At(e.request)];
  }

  /** Rows are only added at the end, and only the first is ever rewritten. */
  lemma LaterRowsStay(s: State, e: Step)
    ensures var t := Next(s, e);
            |s.rows| <= |t.rows| && forall i | 1 <= i < |s.rows| :: t.rows[i].firstKey == s.rows[i].firstKey
    ensures KeyLocked(s) ==> KeyLocked(Next(s, e))
  {
    var t := Next(s, e);
    assert forall i | 1 <= i < |s.rows| :: t.rows[i].firstKey == s.rows[i].firstKey;
  }

  /** Once the ride has a payment the limit never rises. */
  lemma StepNeverRaisesLimit(s: State, e: Step)
    requires s.rows != []
    ensures Next(s, e).rows != [] && Limit(Next(s, e)) <= Limit(s)
  {
    LaterRowsStay(s, e);
    if !e.ProviderFails? {
      StageMoves(s, e, CashPending);
      StageMoves(s, e, DigitalPending);
      if e.Write? && DigitalPending(s.At(e.request)) && !KeyTaken(s.rows) {
        DigitalWriteLocks(s, e.request);
      }
    }
  }

  /** A digital insert beside another row takes the key for good. */
  lemma DigitalWriteLocks(s: State, r: Id)
    requires s.rows != [] && DigitalPending(s.At(r)) && !KeyTaken(s.rows)
    ensures KeyLocked(Next(s, Write(r)))
    ensures !KeyLocked(s)
  {
    var t := Next(s, Write(r));
    assert t.rows[|s.rows|].firstKey;
  }

  lemma {:induction false} RunNeverRaisesLimit(s: State, more: seq<Step>)
    requires s.rows != []
    ensures Run(s, more).rows != [] && Limit(Run(s, more)) <= Limit(s)
  {
    if |more| > 0 {
      var n := |more| - 1;
      RunNeverRaisesLimit(s, more[..n]);
      StepNeverRaisesLimit(Run(s, more[..n]), more[n]);
    }
  }

  // ---------------------------------------------------------------- reaching it

  ghost predicate RowsReachable(s: State, n: nat) {
    exists more :: |Run(s, more).rows| >= n
  }

  lemma {:induction false} RunFront(s: State, e: Step, more: seq<Step>)
    ensures Run(s, [e] + more) == Run(Next(s, e), more)
  {
    if |more| == 0 {
      assert [e] + more == [e] && [e][..0] == [];
      assert Run(s, [e]) == Next(Run(s, [e][..0]), e);
    } else {
      assert ([e] + more)[..|more|] == [e] + more[..|more| - 1];
      RunFront(s, e, more[..|more| - 1]);
    }
  }

  lemma StepThenReach(s: State, e: Step, n: nat)
    requires RowsReachable(Next(s, e), n)
    ensures RowsReachable(s, n)
  {
    var more :| |Run(Next(s, e), more).rows| >= n;
    RunFront(s, e, more);
  }

  /** Every cash request that saw none inserts, whatever is there by now. */
  lemma {:induction false} CashRowsReachable(s: State)
    ensures RowsReachable(s, |s.rows| + Count(s, CashPending))
    decreases Count(s, CashPending)
  {
    if r :| r in Where(s.stages, CashPending) {
      StageMoves(s, Write(r), CashPending);
      CashRowsReachable(Next(s, Write(r)));
      StepThenReach(s, Write(r), |s.rows| + Count(s, CashPending));
    } else {
      assert Run(s, []) == s;
    }
  }

  ghost predicate KeysOnIntents(rows: seq<Row>) {
    forall i | 0 <= i < |rows| :: rows[i].firstKey ==> rows[i].intent
  }

  lemma {:induction false} RunKeysOnIntents(steps: seq<Step>)
    ensures KeysOnIntents(Run(FRESH, steps).rows)
  {
    if |steps| > 0 {
      RunKeysOnIntents(steps[..|steps| - 1]);
    }
  }

  /** The only payment fails and is retried: it gives the first key up. */
  function KeyFreed(s: State, r: Id): State {
    Next(Next(Next(s, ProviderFails(0)), Look(r, PrepareDigital)), Write(r))
  }

  lemma FreeKeyThenReach(s: State, r: Id, n: nat)
    requires RowsReachable(KeyFreed(s, r), n)
    ensures RowsReachable(s, n)
  {
    var failed := Next(s, ProviderFails(0));
    StepThenReach(Next(failed, Look(r, PrepareDigital)), Write(r), n);
    StepThenReach(failed, Look(r, PrepareDigital), n);
    StepThenReach(s, ProviderFails(0), n);
  }

  lemma FreedKey(s: State, r: Id)
    requires |s.rows| == 1 && s.rows[0].firstKey && s.rows[0].intent && r !in s.stages
    ensures var t := KeyFreed(s, r);
            |t.rows| == 1 && !KeyTaken(t.rows)
            && Count(t, CashPending) == Count(s, CashPending) && Count(t, DigitalPending) == Count(s, DigitalPending)
  {
    var t := KeyFreed(s, r);
    assert t.rows == [Row(true, false, false, false)];
    assert t.stages == s.stages[r := Idle];
    WhereMoves(s.stages, CashPending, r, Idle);
    WhereMoves(s.stages, DigitalPending, r, Idle);
  }

  /** With one payment and the first key free, a digital request that saw none inserts too. */
  lemma DigitalRowReachable(s: State)
    requires |s.rows| == 1 && !KeyTaken(s.rows) && Count(s, DigitalPending) > 0
    ensures RowsReachable(s, 2 + Count(s, CashPending))
  {
    var r :| r in Where(s.stages, DigitalPending);
    StageMoves(s, Write(r), CashPending);
    CashRowsReachable(Next(s, Write(r)));
    StepThenReach(s, Write(r), 2 + Count(s, CashPending));
  }

  lemma LimitReachable(s: State)
    requires |s.rows| == 1 && KeysOnIntents(s.rows)
    ensures RowsReachable(s, Limit(s))
  {
    if Count(s, DigitalPending) == 0 {
      CashRowsReachable(s);
    } else if !KeyTaken(s.rows) {
      DigitalRowReachable(s);
    } else {
      var r := FreshId(s.stages.Keys);
      FreedKey(s, r);
      DigitalRowReachable(KeyFreed(s, r));
      FreeKeyThenReach(s, r, Limit(s));
    }
  }

  // ---------------------------------------------------------------- one payment per ride, and when not

  /** With one payment stored, overlapping requests can bring the ride to exactly these numbers of rows:
      one more for each cash request that looked before it was there, and one more for all digital ones
      together, since the stored one may fail, be retried and give the first key up. */
  lemma RowsReachExactlyLimit(before: seq<Step>, n: nat)
    requires |Run(FRESH, before).rows| == 1
    ensures var s := Run(FRESH, before);
            RowsReachable(s, n) <==> n <= 1 + Count(s, CashPending) + Flag(Count(s, DigitalPending) > 0)
  {
    var s := Run(FRESH, before);
    RunKeysOnIntents(before);
    LimitReachable(s);
    var best :| |Run(s, best).rows| >= Limit(s);
    if more :| |Run(s, more).rows| >= n {
      RunNeverRaisesLimit(s, more);
    }
  }

  /** A ride with one payment can get a second exactly when some request looked before it was stored and
      has not written yet. */
  lemma SecondRowExactlyWhen(before: seq<Step>)
    requires |Run(FRESH, before).rows| == 1
    ensures var s := Run(FRESH, before); RowsReachable(s, 2) <==> exists r :: s.At(r).SawNone?
  {
    var s := Run(FRESH, before);
    RowsReachExactlyLimit(before, 2);
    if Count(s, CashPending) > 0 {
      var r :| r in Where(s.stages, CashPending);
      assert s.At(r).SawNone?;
    } else if Count(s, DigitalPending) > 0 {
      var r :| r in Where(s.stages, DigitalPending);
      assert s.At(r).SawNone?;
    }
    if r :| s.At(r).SawNone? {
      assert r in Where(s.stages, CashPending) || r in Where(s.stages, DigitalPending);
    }
  }

  /** Without a payment any number of rows can follow: enough cash requests look before the first writes. */
  lemma {:induction false} UnpaidRideTakesAnyNumber(s: State, n: nat)
    requires s.rows == []
    ensures RowsReachable(s, n)
    decreases n - Count(s, CashPending)
  {
    if n <= Count(s, CashPending) {
      CashRowsReachable(s);
      var more :| |Run(s, more).rows| >= |s.rows| + Count(s, CashPending);
    } else {
      var r := FreshId(s.stages.Keys);
      var e := Look(r, ConfirmCash);
      StageMoves(s, e, CashPending);
      UnpaidRideTakesAnyNumber(Next(s, e), n);
      StepThenReach(s, e, n);
    }
  }

  /** No request looks while another that saw no payment is still to write. */
  ghost predicate SerialAt(s: State, e: Step) {
    e.Look? ==> forall r :: !s.At(r).SawNone?
  }

  ghost predicate Serial(steps: seq<Step>) {
    forall i | 0 <= i < |steps| :: SerialAt(Run(FRESH, steps[..i]), steps[i])
  }

  ghost predicate OneAtATime(s: State) {
    && |s.rows| <= 1
    && (s.rows != [] ==> forall r :: !s.At(r).SawNone?)
    && forall r, q :: s.At(r).SawNone? && s.At(q).SawNone? ==> r == q
  }

  lemma StepOneAtATime(s: State, e: Step)
    requires OneAtATime(s) && SerialAt(s, e)
    ensures OneAtATime(Next(s, e))
  {
    var t := Next(s, e);
    forall r ensures t.At(r) == s.At(r) || (!e.ProviderFails? && r == e.request) {}
    if t.rows != [] {
      forall r ensures !t.At(r).SawNone? {
        assert s.rows == [] ==> !e.ProviderFails? && e.Write? && s.At(e.request).SawNone?;
      }
    }
    forall r, q | t.At(r).SawNone? && t.At(q).SawNone? ensures r == q {
      assert !e.ProviderFails? && e.Look? ==> !s.At(r).SawNone? && !s.At(q).SawNone?;
    }
  }

  lemma {:induction false} SerialRunOneAtATime(steps: seq<Step>)
    requires Serial(steps)
    ensures OneAtATime(Run(FRESH, steps))
  {
    if |steps| > 0 {
      var n := |steps| - 1;
      forall i | 0 <= i < n ensures SerialAt(Run(FRESH, steps[..n][..i]), steps[..n][i]) {
        assert steps[..n][..i] == steps[..i];
      }
      SerialRunOneAtATime(steps[..n]);
      StepOneAtATime(Run(FRESH, steps[..n]), steps[n]);
    }
  }

  /** Requests that do not overlap store at most one payment for the ride, and can never store another. */
  lemma {:induction false} SerialRequestsStoreOneRow(steps: seq<Step>)
    requires Serial(steps)
    ensures |Run(FRESH, steps).rows| <= 1
    ensures Run(FRESH, steps).rows != [] ==> !RowsReachable(Run(FRESH, steps), 2)
  {
    SerialRunOneAtATime(steps);
    if Run(FRESH, steps).rows != [] {
      SecondRowExactlyWhen(steps);
    }
  }

  /** With two rows the ride is shut for good: every later request about it raises at its look. */
  lemma {:induction false} TwoRowsShutTheRide(s: State, more: seq<Step>, r: Id, ask: Ask)
    requires |s.rows| >= 2
    ensures var t := Run(s, more); |t.rows| >= 2 && (t.At(r).Idle? ==> Next(t, Look(r, ask)).At(r).Refused?)
  {
    if |more| > 0 {
      TwoRowsShutTheRide(s, more[..|more| - 1], r, ask);
      LaterRowsStay(Run(s, more[..|more| - 1]), more[|more| - 1]);
    }
  }
}
