/** Accepting a ride: many requests, each a chain of separate reads and writes, interleaved in any
    order (`ride/application/matching_service.py`, `ride/infra/offer_store.py`). */
module AcceptProtocol {
  import opened Prelude

  /** `Withdrawn` stands for every way a ride leaves REQUESTED without an accept. */
  datatype RideRow = Requested | MatchedTo(driver: Id) | Withdrawn

  /** How far a request got. `Reading` has loaded the ride as REQUESTED, `Cleared` has also passed the
      holder, profile and vehicle checks, `Holding` owns the claim, `Failing` must still release it,
      `Winning` must still close the offers. */
  datatype Stage = Idle | Reading(who: Id) | Cleared(who: Id) | Holding(who: Id) | Failing(who: Id) | Winning(who: Id)

  {
    function Who(): Id {
      if Idle? then 0 else who
    }
  }

  predicate Owning(x: Stage) {
    x.Holding? || x.Failing?
  }

  predicate BeforeClaim(x: Stage) {
    x.Reading? || x.Cleared?
  }

  /** `wins` lists the requests whose save succeeded, oldest first. */
  datatype State = State(ride: RideRow, offers: set<Id>, claim: Option<Id>, stages: map<Id, Stage>, wins: seq<Id>) {
    function At(r: Id): Stage {
      if r in stages then stages[r] else Idle
    }

    function To(r: Id, stage: Stage): State {
      this.(stages := stages[r := stage])
    }
  }

  const FRESH := State(Requested, {}, None, map[], [])

  /** The first six belong to one request; a crash drops a request where it stands. Offer waves open,
      shrink and expire at any moment. `Clear` deletes everything the offer store knows of the ride. */
  datatype Step =
    | Load(request: Id, driver: Id)
    | Check(request: Id, suitable: bool)
    | Claim(request: Id)
    | Save(request: Id, saved: bool)
    | Release(request: Id)
    | Close(request: Id)
    | Crash(request: Id)
    | OffersBecome(holders: set<Id>)
    | Withdraw
    | Clear

  function Next(s: State, e: Step): State {
    match e
    case Load(r, d) => if s.At(r).Idle? && s.ride.Requested? then s.To(r, Reading(d)) else s
    case Check(r, suitable) =>
      if !s.At(r).Reading? then s
      else if s.At(r).who in s.offers && suitable then s.To(r, Cleared(s.At(r).who))
      else s.To(r, Idle)
    case Claim(r) =>
      if !s.At(r).Cleared? then s
      else if s.claim.None? then s.To(r, Holding(s.At(r).who)).(claim := Some(s.At(r).who))
      else s.To(r, Idle)
    case Save(r, saved) =>
      if !s.At(r).Holding? then s
      else if saved then s.To(r, Winning(s.At(r).who)).(ride := MatchedTo(s.At(r).who), wins := s.wins + [r])
      else s.To(r, Failing(s.At(r).who))
    case Release(r) => if s.At(r).Failing? then s.To(r, Idle).(claim := None) else s
    case Close(r) => if s.At(r).Winning? then s.To(r, Idle).(offers := {}) else s
    case Crash(r) => s.To(r, Idle)
    case OffersBecome(holders) => s.(offers := holders)
    case Withdraw => s.(ride := Withdrawn)
    case Clear => s.(offers := {}, claim := None)
  }

  function Run(s: State, steps: seq<Step>): State {
    if |steps| == 0 then s else Next(Run(s, steps[..|steps| - 1]), steps[|steps| - 1])
  }

  // ---------------------------------------------------------------- how many accepts can succeed

  function Owners(s: State): set<Id> {
    Where(s.stages, Owning)
  }

  function Clears(steps: seq<Step>): nat {
    if |steps| == 0 then 0
    else Clears(steps[..|steps| - 1]) + if steps[|steps| - 1].Clear? then 1 else 0
  }

  /** Wins, requests that own a claim and a free claim are together limited by one more than the clears:
      a claim turns the free slot into an owner, a save turns an owner into a win. */
  ghost predicate Budgeted(s: State, clears: nat) {
    |s.wins| + |Owners(s)| + (if s.claim.None? then 1 else 0) <= 1 + clears
  }

  /** What one request's step does to the number of requests in stages satisfying `p`. */
  lemma StageMoves(s: State, e: Step, p: Stage -> bool)
    requires !e.OffersBecome? && !e.Withdraw? && !e.Clear? && !p(Idle)
    ensures var t := Next(s, e);
            |Where(t.stages, p)| + Flag(p(s.At(e.request))) == |Where(s.stages, p)| + Flag(p(t.At(e.request)))
  {
    var t := Next(s, e);
    WhereMoves(s.stages, p, e.request, t.At(e.request));
    assert t.stages == s.stages || t.stages == s.stages[e.request := t.At(e.request)];
  }

  lemma StepStaysBudgeted(s: State, e: Step, clears: nat)
    requires Budgeted(s, clears)
    ensures Budgeted(Next(s, e), if e.Clear? then clears + 1 else clears)
  {
    if !e.OffersBecome? && !e.Withdraw? && !e.Clear? {
      StageMoves(s, e, Owning);
    }
  }

  lemma {:induction false} RunStaysBudgeted(steps: seq<Step>)
    ensures Budgeted(Run(FRESH, steps), Clears(steps))
  {
    if |steps| > 0 {
      var n := |steps| - 1;
      RunStaysBudgeted(steps[..n]);
      StepStaysBudgeted(Run(FRESH, steps[..n]), steps[n], Clears(steps[..n]));
    }
  }

  /** Accept exclusivity: whatever the interleaving, crashes included, each clear of the offer store
      admits at most one more successful accept; without one, at most one accept succeeds. */
  lemma AcceptsBoundedByClears(steps: seq<Step>)
    ensures |Run(FRESH, steps).wins| <= 1 + Clears(steps)
  {
    RunStaysBudgeted(steps);
  }

  /** Two requests read the ride and pass the checks; one claims and saves. */
  function RaceStart(a: Id, b: Id, x: Id, y: Id): seq<Step> {
    [OffersBecome({x, y}), Load(a, x), Load(b, y), Check(a, true), Check(b, true), Claim(a), Save(a, true)]
  }

  lemma RaceStarts(a: Id, b: Id, x: Id, y: Id)
    requires a != b
    ensures var s := Run(FRESH, RaceStart(a, b, x, y));
            s.wins == [a] && s.ride == MatchedTo(x) && s.At(b) == Cleared(y) && Clears(RaceStart(a, b, x, y)) == 0
  {
    var steps := RaceStart(a, b, x, y);
    Advance(steps, 0);
    Advance(steps, 1);
    Advance(steps, 2);
    var s3 := Run(FRESH, steps[..3]);
    assert s3.At(a) == Reading(x) && s3.At(b) == Reading(y) && s3.offers == {x, y} && s3.claim.None? && s3.wins == [];
    Advance(steps, 3);
    Advance(steps, 4);
    var s5 := Run(FRESH, steps[..5]);
    assert s5.At(a) == Cleared(x) && s5.At(b) == Cleared(y) && s5.claim.None? && s5.wins == [];
    Advance(steps, 5);
    Advance(steps, 6);
    assert steps[..7] == steps;
  }

  /** The bound is met: the request that passed the checks before the clear claims and saves after it. */
  lemma StaleAcceptAfterClear(a: Id, b: Id, x: Id, y: Id)
    requires a != b
    ensures var steps := RaceStart(a, b, x, y) + [Clear, Claim(b), Save(b, true)];
            Run(FRESH, steps).wins == [a, b] && Run(FRESH, steps).ride == MatchedTo(y) && Clears(steps) == 1
  {
    var start := RaceStart(a, b, x, y);
    var steps := start + [Clear, Claim(b), Save(b, true)];
    RaceStarts(a, b, x, y);
    assert steps[..7] == start;
    Advance(steps, 7);
    Advance(steps, 8);
    Advance(steps, 9);
    assert steps[..10] == steps;
  }

  ghost predicate Advances(steps: seq<Step>, n: nat)
    requires n < |steps|
  {
    && Run(FRESH, steps[..n + 1]) == Next(Run(FRESH, steps[..n]), steps[n])
    && Clears(steps[..n + 1]) == Clears(steps[..n]) + if steps[n].Clear? then 1 else 0
  }

  lemma Advance(steps: seq<Step>, n: nat)
    requires n < |steps|
    ensures Advances(steps, n)
  {
    assert steps[..n + 1][..n] == steps[..n];
  }

  // ---------------------------------------------------------------- exactly how many more can succeed

  predicate Holds(x: Stage) {
    x.Holding?
  }

  predicate Fails(x: Stage) {
    x.Failing?
  }

  function Count(s: State, p: Stage -> bool): nat {
    |Where(s.stages, p)|
  }

  /** How often the claim can still be taken without a clear: now if it is free, and once for each request
      that has yet to release it. */
  function Slots(s: State): nat {
    Flag(s.claim.None?) + Count(s, Fails)
  }

  /** The largest number of successful accepts any clear-free continuation can reach: those there are, the
      holders, and one per slot, as long as requests to fill the slots exist or may still be loaded. */
  function Capacity(s: State): nat {
    |s.wins| + Count(s, Holds) + if s.ride.Requested? then Slots(s) else Min(Slots(s), Count(s, BeforeClaim))
  }

  lemma StepNeverRaisesCapacity(s: State, e: Step)
    requires !e.Clear?
    ensures Capacity(Next(s, e)) <= Capacity(s)
  {
    if !e.OffersBecome? && !e.Withdraw? {
      StageMoves(s, e, Holds);
      StageMoves(s, e, Fails);
      StageMoves(s, e, BeforeClaim);
    }
  }

  predicate ClearFree(steps: seq<Step>) {
    forall i | 0 <= i < |steps| :: !steps[i].Clear?
  }

  lemma {:induction false} RunNeverRaisesCapacity(s: State, more: seq<Step>)
    requires ClearFree(more)
    ensures Capacity(Run(s, more)) <= Capacity(s)
  {
    if |more| > 0 {
      var n := |more| - 1;
      RunNeverRaisesCapacity(s, more[..n]);
      StepNeverRaisesCapacity(Run(s, more[..n]), more[n]);
    }
  }

  lemma {:induction false} RunBoth(s: State, a: seq<Step>, b: seq<Step>)
    ensures Run(s, a + b) == Run(Run(s, a), b)
  {
    if |b| == 0 {
      assert a + b == a;
    } else {
      RunBoth(s, a, b[..|b| - 1]);
      assert (a + b)[..|a + b| - 1] == a + b[..|b| - 1];
    }
  }

  lemma RunOne(s: State, e: Step)
    ensures Run(s, [e]) == Next(s, e)
  {
    assert [e][..0] == [];
    assert Run(s, [e][..0]) == s;
  }

  ghost predicate WinsReachable(s: State, n: nat) {
    exists more :: ClearFree(more) && |Run(s, more).wins| >= n
  }

  /** One clear-free step closer. */
  lemma StepThenReach(s: State, e: Step, n: nat)
    requires !e.Clear? && WinsReachable(Next(s, e), n)
    ensures WinsReachable(s, n)
  {
    var more :| ClearFree(more) && |Run(Next(s, e), more).wins| >= n;
    RunOne(s, e);
    RunBoth(s, [e], more);
    assert ClearFree([e] + more);
  }

  /** A request before its claim takes a free claim and wins. */
  function Win(s: State, r: Id): State {
    Next(Next(Next(Next(s, OffersBecome({s.At(r).Who()})), Check(r, true)), Claim(r)), Save(r, true))
  }

  lemma WinThenReach(s: State, r: Id, n: nat)
    requires WinsReachable(Win(s, r), n)
    ensures WinsReachable(s, n)
  {
    var s1 := Next(s, OffersBecome({s.At(r).Who()}));
    var s2 := Next(s1, Check(r, true));
    StepThenReach(Next(s2, Claim(r)), Save(r, true), n);
    StepThenReach(s2, Claim(r), n);
    StepThenReach(s1, Check(r, true), n);
    StepThenReach(s, OffersBecome({s.At(r).Who()}), n);
  }

  lemma WinMoves(s: State, r: Id)
    requires BeforeClaim(s.At(r)) && s.claim.None?
    ensures var t := Win(s, r);
            && t.wins == s.wins + [r] && t.claim.Some?
            && Count(t, Holds) == Count(s, Holds) && Count(t, Fails) == Count(s, Fails)
            && Count(t, BeforeClaim) == Count(s, BeforeClaim) - 1
  {
    var t := Win(s, r);
    assert t.stages == s.stages[r := Winning(s.At(r).Who())];
    WhereMoves(s.stages, Holds, r, t.At(r));
    WhereMoves(s.stages, Fails, r, t.At(r));
    WhereMoves(s.stages, BeforeClaim, r, t.At(r));
  }

  /** A holder saves, or, with no holder, a request that failed releases the claim: nothing is lost. */
  lemma SettlingKeepsRoom(s: State, e: Step)
    requires (e.Save? && e.saved && s.At(e.request).Holding?)
        || (e.Release? && s.At(e.request).Failing? && s.claim.Some?)
    ensures var t := Next(s, e);
            && |t.wins| + Count(t, Holds) == |s.wins| + Count(s, Holds)
            && Slots(t) == Slots(s) && Count(t, BeforeClaim) == Count(s, BeforeClaim)
            && Count(t, Holds) + Count(t, Fails) < Count(s, Holds) + Count(s, Fails)
            && Count(t, Holds) <= Count(s, Holds)
  {
    StageMoves(s, e, Holds);
    StageMoves(s, e, Fails);
    StageMoves(s, e, BeforeClaim);
  }

  /** With the requests at hand, holders save and waiting requests fill the slots one after the other. */
  lemma {:induction false} FillSlots(s: State)
    ensures WinsReachable(s, |s.wins| + Count(s, Holds) + Min(Slots(s), Count(s, BeforeClaim)))
    decreases Count(s, BeforeClaim), Count(s, Holds) + Count(s, Fails)
  {
    var n := |s.wins| + Count(s, Holds) + Min(Slots(s), Count(s, BeforeClaim));
    if h :| h in Where(s.stages, Holds) {
      SettlingKeepsRoom(s, Save(h, true));
      FillSlots(Next(s, Save(h, true)));
      StepThenReach(s, Save(h, true), n);
    } else if Count(s, BeforeClaim) == 0 || Slots(s) == 0 {
      assert ClearFree([]) && Run(s, []) == s;
    } else if s.claim.None? {
      var r :| r in Where(s.stages, BeforeClaim);
      WinMoves(s, r);
      FillSlots(Win(s, r));
      WinThenReach(s, r, n);
    } else {
      var f :| f in Where(s.stages, Fails);
      SettlingKeepsRoom(s, Release(f));
      FillSlots(Next(s, Release(f)));
      StepThenReach(s, Release(f), n);
    }
  }

  /** While the ride is REQUESTED, requests enough for every slot can be loaded first. */
  lemma {:induction false} LoadForSlots(s: State)
    requires s.ride.Requested?
    ensures WinsReachable(s, Capacity(s))
    decreases Slots(s) - Count(s, BeforeClaim)
  {
    if Slots(s) <= Count(s, BeforeClaim) {
      FillSlots(s);
    } else {
      var r := FreshId(s.stages.Keys);
      var e := Load(r, 0);
      StageMoves(s, e, Holds);
      StageMoves(s, e, Fails);
      StageMoves(s, e, BeforeClaim);
      LoadForSlots(Next(s, e));
      StepThenReach(s, e, Capacity(s));
    }
  }

  /** From any state at all, clear-free continuations reach exactly the numbers of successful accepts up
      to the capacity. */
  lemma {:induction false} AcceptsReachExactlyCapacity(s: State, n: nat)
    ensures WinsReachable(s, n) <==> n <= Capacity(s)
  {
    if s.ride.Requested? {
      LoadForSlots(s);
    } else {
      FillSlots(s);
    }
    var best :| ClearFree(best) && |Run(s, best).wins| >= Capacity(s);
    if more :| ClearFree(more) && |Run(s, more).wins| >= n {
      RunNeverRaisesCapacity(s, more);
    }
  }

  // ---------------------------------------------------------------- what a clear gives away

  /** A winner and a request before its claim; an owner while requests may still be loaded; a holder and
      a request before its claim; or a request about to release and two before their claim. */
  predicate ClearIsHarmful(s: State) {
    || (s.wins != [] && Count(s, BeforeClaim) >= 1)
    || (Owners(s) != {} && s.ride.Requested?)
    || (Count(s, Holds) >= 1 && Count(s, BeforeClaim) >= 1)
    || (Count(s, Fails) >= 1 && Count(s, BeforeClaim) >= 2)
  }

  lemma OwnersHoldOrFail(s: State)
    ensures |Owners(s)| == Count(s, Holds) + Count(s, Fails)
  {
    assert Owners(s) == Where(s.stages, Holds) + Where(s.stages, Fails);
    assert Where(s.stages, Holds) !! Where(s.stages, Fails);
  }

  lemma {:induction false} WonRidesAreNotRequested(steps: seq<Step>)
    ensures Run(FRESH, steps).wins != [] ==> !Run(FRESH, steps).ride.Requested?
  {
    if |steps| > 0 {
      WonRidesAreNotRequested(steps[..|steps| - 1]);
    }
  }

  /** "The first to accept wins" survives a first clear exactly when the clear is not harmful: otherwise,
      and only otherwise, some continuation without another clear lets a second accept succeed. */
  lemma {:induction false} SecondAcceptExactlyWhen(before: seq<Step>)
    requires Clears(before) == 0
    ensures WinsReachable(Next(Run(FRESH, before), Clear), 2) <==> ClearIsHarmful(Run(FRESH, before))
  {
    var s := Run(FRESH, before);
    RunStaysBudgeted(before);
    WonRidesAreNotRequested(before);
    OwnersHoldOrFail(s);
    AcceptsReachExactlyCapacity(Next(s, Clear), 2);
  }

  ghost predicate HarmlessAt(s: State, e: Step) {
    e.Clear? ==> Capacity(Next(s, e)) <= 1
  }

  /** Every clear in the run leaves room for at most one accept. */
  ghost predicate Harmless(steps: seq<Step>) {
    forall i | 0 <= i < |steps| :: HarmlessAt(Run(FRESH, steps[..i]), steps[i])
  }

  lemma {:induction false} HarmlessRunHasCapacityOne(steps: seq<Step>)
    requires Harmless(steps)
    ensures Capacity(Run(FRESH, steps)) <= 1
  {
    if |steps| > 0 {
      var n := |steps| - 1;
      forall i | 0 <= i < n ensures HarmlessAt(Run(FRESH, steps[..n][..i]), steps[..n][i]) {
        assert steps[..n][..i] == steps[..i];
      }
      HarmlessRunHasCapacityOne(steps[..n]);
      if !steps[n].Clear? {
        StepNeverRaisesCapacity(Run(FRESH, steps[..n]), steps[n]);
      }
    }
  }

  lemma HarmlessPrefix(steps: seq<Step>, i: nat)
    requires Harmless(steps) && i <= |steps|
    ensures !WinsReachable(Run(FRESH, steps[..i]), 2)
  {
    forall j | 0 <= j < i ensures HarmlessAt(Run(FRESH, steps[..i][..j]), steps[..i][j]) {
      assert steps[..i][..j] == steps[..j];
    }
    HarmlessRunHasCapacityOne(steps[..i]);
    AcceptsReachExactlyCapacity(Run(FRESH, steps[..i]), 2);
  }

  lemma SafePrefixIsHarmless(steps: seq<Step>, i: nat)
    requires i < |steps| && !WinsReachable(Run(FRESH, steps[..i + 1]), 2)
    ensures HarmlessAt(Run(FRESH, steps[..i]), steps[i])
  {
    Advance(steps, i);
    AcceptsReachExactlyCapacity(Run(FRESH, steps[..i + 1]), 2);
  }

  /** Over the whole life of a ride, with any number of clears: no moment of the run can be continued into
      a second accept exactly when every clear is harmless. */
  lemma {:induction false} OneAcceptExactlyWhenClearsAreHarmless(steps: seq<Step>)
    ensures Harmless(steps) <==> forall i | 0 <= i <= |steps| :: !WinsReachable(Run(FRESH, steps[..i]), 2)
  {
    if Harmless(steps) {
      forall i | 0 <= i <= |steps| { HarmlessPrefix(steps, i); }
    }
    if forall i | 0 <= i <= |steps| :: !WinsReachable(Run(FRESH, steps[..i]), 2) {
      forall i | 0 <= i < |steps| ensures HarmlessAt(Run(FRESH, steps[..i]), steps[i]) {
        SafePrefixIsHarmless(steps, i);
      }
    }
  }

  /** The offer store is cleared only once the ride has left REQUESTED, and with no request between its
      read of the ride and its claim. */
  ghost predicate QuietAt(s: State, e: Step) {
    e.Clear? ==> !s.ride.Requested? && Count(s, BeforeClaim) == 0
  }

  ghost predicate Quiet(steps: seq<Step>) {
    forall i | 0 <= i < |steps| :: QuietAt(Run(FRESH, steps[..i]), steps[i])
  }

  lemma {:induction false} QuietRunHasCapacityOne(steps: seq<Step>)
    requires Quiet(steps)
    ensures Capacity(Run(FRESH, steps)) <= 1
  {
    if |steps| > 0 {
      var n := |steps| - 1;
      forall i | 0 <= i < n ensures QuietAt(Run(FRESH, steps[..n][..i]), steps[..n][i]) {
        assert steps[..n][..i] == steps[..i];
      }
      QuietRunHasCapacityOne(steps[..n]);
      if !steps[n].Clear? {
        StepNeverRaisesCapacity(Run(FRESH, steps[..n]), steps[n]);
      }
    }
  }

  /** With quiet clears, at most one accept succeeds over the whole life of a ride. */
  lemma {:induction false} OneAcceptWhenClearsAreQuiet(steps: seq<Step>)
    requires Quiet(steps)
    ensures |Run(FRESH, steps).wins| <= 1
  {
    QuietRunHasCapacityOne(steps);
  }

  // ---------------------------------------------------------------- only drivers the ride was offered to

  /** Step `i` checked the request while its driver held an offer and was found suitable. */
  ghost predicate CheckedAt(steps: seq<Step>, i: nat, r: Id, d: Id) {
    && i < |steps| && steps[i] == Check(r, true)
    && Run(FRESH, steps[..i]).At(r) == Reading(d) && d in Run(FRESH, steps[..i]).offers
  }

  ghost predicate Checked(steps: seq<Step>, r: Id, d: Id) {
    exists i: nat :: CheckedAt(steps, i, r, d)
  }

  predicate PastCheck(x: Stage) {
    x.Cleared? || x.Holding? || x.Failing? || x.Winning?
  }

  ghost predicate ChecksBehind(steps: seq<Step>, s: State) {
    && (forall r | PastCheck(s.At(r)) :: Checked(steps, r, s.At(r).who))
    && (forall r | r in s.wins :: exists d :: Checked(steps, r, d))
  }

  lemma ChecksStay(steps: seq<Step>, r: Id, d: Id)
    requires |steps| > 0 && Checked(steps[..|steps| - 1], r, d)
    ensures Checked(steps, r, d)
  {
    var i: nat :| CheckedAt(steps[..|steps| - 1], i, r, d);
    assert steps[..|steps| - 1][..i] == steps[..i];
    assert CheckedAt(steps, i, r, d);
  }

  lemma {:induction false} ChecksAlwaysBehind(steps: seq<Step>)
    ensures ChecksBehind(steps, Run(FRESH, steps))
  {
    if |steps| > 0 {
      var n := |steps| - 1;
      var s, t := Run(FRESH, steps[..n]), Run(FRESH, steps);
      ChecksAlwaysBehind(steps[..n]);
      forall r | PastCheck(t.At(r)) ensures Checked(steps, r, t.At(r).who) {
        if PastCheck(s.At(r)) {
          ChecksStay(steps, r, s.At(r).who);
        } else {
          assert CheckedAt(steps, n, r, t.At(r).who);
        }
      }
      forall r | r in t.wins ensures exists d :: Checked(steps, r, d) {
        if r in s.wins {
          var d :| Checked(steps[..n], r, d);
          ChecksStay(steps, r, d);
        } else {
          ChecksStay(steps, r, s.At(r).who);
        }
      }
    }
  }

  /** Whoever wins a ride, in any interleaving, once held an offer for it and was found suitable, after
      reading it as requested. */
  lemma {:induction false} WinnersWereOffered(steps: seq<Step>, r: Id)
    requires r in Run(FRESH, steps).wins
    ensures exists d :: Checked(steps, r, d)
  {
    ChecksAlwaysBehind(steps);
  }

  // ---------------------------------------------------------------- rides withdrawn while being accepted

  ghost predicate MatchReachable(s: State) {
    exists more :: ClearFree(more) && Run(s, more).ride.MatchedTo?
  }

  /** A withdrawn ride is only matched by a save, and every save is a win. */
  lemma {:induction false} MatchedByWinning(s: State, more: seq<Step>)
    requires !s.ride.MatchedTo?
    ensures Run(s, more).ride.MatchedTo? ==> |Run(s, more).wins| > |s.wins|
    ensures |Run(s, more).wins| >= |s.wins|
  {
    if |more| > 0 {
      MatchedByWinning(s, more[..|more| - 1]);
    }
  }

  /** At the first win the ride is matched. */
  lemma {:induction false} WonAtSomePoint(s: State, more: seq<Step>)
    requires ClearFree(more) && |Run(s, more).wins| > |s.wins|
    ensures MatchReachable(s)
  {
    var n := |more| - 1;
    if |Run(s, more[..n]).wins| > |s.wins| {
      WonAtSomePoint(s, more[..n]);
    } else {
      assert Run(s, more).ride.MatchedTo?;
    }
  }

  /** A withdrawn ride, cancelled or given up, before or after the offer store was cleared, can still be
      matched exactly when some request holds the claim, or one loaded the ride before and the claim is
      free or about to be released. The save overwrites the withdrawal. */
  lemma WithdrawnRideMatchedExactlyWhen(s: State)
    requires s.ride.Withdrawn?
    ensures MatchReachable(s) <==>
              Count(s, Holds) >= 1 || (Count(s, BeforeClaim) >= 1 && (s.claim.None? || Count(s, Fails) >= 1))
  {
    AcceptsReachExactlyCapacity(s, |s.wins| + 1);
    if MatchReachable(s) {
      var more :| ClearFree(more) && Run(s, more).ride.MatchedTo?;
      MatchedByWinning(s, more);
      assert WinsReachable(s, |s.wins| + 1);
    }
    if WinsReachable(s, |s.wins| + 1) {
      var more :| ClearFree(more) && |Run(s, more).wins| >= |s.wins| + 1;
      WonAtSomePoint(s, more);
    }
  }

  // ---------------------------------------------------------------- who won, and what a failed save leaves

  predicate Undisturbed(steps: seq<Step>) {
    forall i | 0 <= i < |steps| :: !steps[i].Clear? && !steps[i].Withdraw?
  }

  ghost predicate OwnersNamed(s: State) {
    forall r | r in s.stages && Owning(s.stages[r]) :: s.claim == Some(s.stages[r].who)
  }

  /** The ride is matched exactly when an accept succeeded, and then to the driver who holds the claim. */
  ghost predicate WinnerNamed(s: State) {
    && OwnersNamed(s)
    && (s.wins == [] <==> s.ride.Requested?)
    && !s.ride.Withdrawn?
    && (s.ride.MatchedTo? ==> s.claim == Some(s.ride.driver))
  }

  lemma OneOwner(s: State, r: Id, q: Id)
    requires Budgeted(s, 0) && Owning(s.At(r)) && Owning(s.At(q))
    ensures r == q && s.wins == [] && s.claim.Some?
  {
    assert {r, q} <= Owners(s);
    if r != q {
      SubsetSize({r, q}, Owners(s));
    } else {
      SubsetSize({r}, Owners(s));
    }
  }

  lemma StepNamesWinner(s: State, e: Step)
    requires Budgeted(s, 0) && WinnerNamed(s) && !e.Clear? && !e.Withdraw?
    ensures WinnerNamed(Next(s, e))
  {
    var t := Next(s, e);
    match e
    case Release(r) =>
      forall q | q in t.stages && Owning(t.stages[q]) ensures t.claim == Some(t.stages[q].who) {
        if s.At(r).Failing? {
          OneOwner(s, r, q);
        }
      }
      if s.At(r).Failing? {
        OneOwner(s, r, r);
      }
    case _ =>
  }

  lemma {:induction false} UndisturbedRun(steps: seq<Step>)
    requires Undisturbed(steps)
    ensures Clears(steps) == 0 && WinnerNamed(Run(FRESH, steps))
  {
    if |steps| > 0 {
      var n := |steps| - 1;
      UndisturbedRun(steps[..n]);
      RunStaysBudgeted(steps[..n]);
      StepNamesWinner(Run(FRESH, steps[..n]), steps[n]);
    }
  }

  /** While the search is undisturbed, the row and the claim agree on the one winner. */
  lemma WinnerIsTheClaimant(steps: seq<Step>)
    requires Undisturbed(steps)
    ensures var s := Run(FRESH, steps);
            && |s.wins| <= 1
            && (s.wins == [] <==> s.ride == Requested)
            && (s.wins != [] <==> s.claim.Some? && s.ride == MatchedTo(s.claim.value))
  {
    UndisturbedRun(steps);
    AcceptsBoundedByClears(steps);
  }

  /** While a request owns the claim no other gets it. If its save fails, its release leaves the ride, the
      offers and every other request as they were, and any request past its checks can then win. */
  lemma FailedSaveLeavesRideClaimable(steps: seq<Step>, r: Id, q: Id)
    requires Undisturbed(steps) && r != q
    requires Run(FRESH, steps).At(r).Holding? && Run(FRESH, steps).At(q).Cleared?
    ensures var s := Run(FRESH, steps);
            var blocked := Next(s, Claim(q));
            var freed := Next(Next(s, Save(r, false)), Release(r));
            var won := Next(Next(freed, Claim(q)), Save(q, true));
            && blocked == s.To(q, Idle)
            && freed == s.To(r, Idle).(claim := None) && freed.ride == Requested && freed.wins == []
            && won.wins == [q] && won.ride == MatchedTo(s.At(q).who)
  {
    UndisturbedRun(steps);
    RunStaysBudgeted(steps);
    var s := Run(FRESH, steps);
    OneOwner(s, r, r);
    assert s.stages[r := Failing(s.At(r).who)][r := Idle] == s.stages[r := Idle];
  }

  // ---------------------------------------------------------------- the operation itself

  datatype Answer =
    | Accepted | RideAlreadyMatched | RideNotOfferable | OfferExpired | OfferNotYours | NotSuitable | SaveFailed

  /** One request, nothing in between. Steps it never reaches change nothing. */
  function Alone(s: State, r: Id, d: Id, suitable: bool, saved: bool): State {
    Next(Next(Next(Next(Next(Next(s, Load(r, d)), Check(r, suitable)), Claim(r)), Save(r, saved)), Release(r)),
        Close(r))
  }

  class MatchingService {
    var ride: RideRow
    var offers: set<Id>
    var claim: Option<Id>

    constructor ()
      ensures Current() == FRESH
    {
      ride, offers, claim := Requested, {}, None;
    }

    ghost function Current(): State
      reads this
    {
      State(ride, offers, claim, map[], [])
    }

    method ClaimRide(driver: Id) returns (won: bool)
      modifies this`claim
      ensures won <==> old(claim).None?
      ensures claim == if won then Some(driver) else old(claim)
    {
      won := claim.None?;
      if won {
        claim := Some(driver);
      }
    }

    method Accept(request: Id, driver: Id, suitable: bool, saved: bool) returns (answer: Answer)
      modifies this
      ensures var after := Alone(old(Current()), request, driver, suitable, saved);
              && ride == after.ride && offers == after.offers && claim == after.claim
              && (answer == Accepted <==> after.wins == [request])
      ensures answer == Accepted <==>
                old(ride).Requested? && driver in old(offers) && suitable && old(claim).None? && saved
      ensures answer == Accepted ==> ride == MatchedTo(driver) && claim == Some(driver) && offers == {}
      ensures answer != Accepted ==> ride == old(ride) && offers == old(offers) && claim == old(claim)
    {
      match ride {
        case MatchedTo(_) => return RideAlreadyMatched;
        case Withdrawn => return RideNotOfferable;
        case Requested =>
      }
      if offers == {} {
        return OfferExpired;
      }
      if driver !in offers {
        return OfferNotYours;
      }
      if !suitable {
        return NotSuitable;
      }
      var won := ClaimRide(driver);
      if !won {
        return RideAlreadyMatched;
      }
      if !saved {
        claim := None;
        return SaveFailed;
      }
      ride := MatchedTo(driver);
      offers := {};
      return Accepted;
    }
  }
}
