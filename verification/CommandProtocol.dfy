/** Idempotent service commands: many callers of one key, their Redis and database steps interleaved in
    any order (`core/s2s_command_store.py`, `_write` in `partner/presentation/internal_router.py`). */
module CommandProtocol {
  import opened Prelude

  type Response = Id
  type Fingerprint = Id

  /** The value under the key: `None` while pending. */
  datatype Entry = Entry(fingerprint: Fingerprint, response: Option<Response>)

  datatype Answer = Fresh(made: Response) | Replay(stored: Response) | Conflict | InProgress | Raised

  /** `Starting` is about to set the key if absent, `Looking` about to read it, `Running` holds the
      reservation, `Ran` has a result to commit, `Committed` must still store it, `Failing` must still
      release the key. */
  datatype Stage =
    | Absent
    | Starting(fp: Fingerprint)
    | Looking(fp: Fingerprint)
    | Running(fp: Fingerprint)
    | Ran(fp: Fingerprint, result: Response)
    | Committed(fp: Fingerprint, result: Response)
    | Failing(fp: Fingerprint)
    | Answered(fp: Fingerprint, answer: Answer)
    | Crashed

  predicate Owning(x: Stage) {
    x.Running? || x.Ran? || x.Failing?
  }

  datatype Commit = Commit(caller: Id, fp: Fingerprint, result: Response)

  /** `commits` lists the database transactions that went through, oldest first. */
  datatype State = State(slot: Option<Entry>, stages: map<Id, Stage>, commits: seq<Commit>) {
    function At(c: Id): Stage {
      if c in stages then stages[c] else Absent
    }

    function To(c: Id, stage: Stage): State {
      this.(stages := stages[c := stage])
    }
  }

  const FRESH := State(None, map[], [])

  /** `Finish(_, None)` is a command that raised; `Store(_, false)` a Redis failure after the commit.
      A crash, or a cancelled request, stops a caller where it stands. */
  datatype Step =
    | Call(caller: Id, fp: Fingerprint)
    | SetIfAbsent(caller: Id)
    | Get(caller: Id)
    | Finish(caller: Id, result: Option<Response>)
    | CommitWork(caller: Id, committed: bool)
    | Store(caller: Id, stored: bool)
    | Delete(caller: Id)
    | Crash(caller: Id)
    | Expire
  {
    /** What the protocol is not built to survive. */
    predicate Fault() {
      Expire? || (Store? && !stored)
    }
  }

  function Found(entry: Option<Entry>, fp: Fingerprint): Stage {
    match entry
    case None => Starting(fp)
    case Some(Entry(other, response)) =>
      if other != fp then Answered(fp, Conflict)
      else if response.Some? then Answered(fp, Replay(response.value))
      else Answered(fp, InProgress)
  }

  function Next(s: State, e: Step): State {
    match e
    case Call(c, fp) => if s.At(c).Absent? then s.To(c, Starting(fp)) else s
    case SetIfAbsent(c) =>
      if !s.At(c).Starting? then s
      else if s.slot.None? then s.To(c, Running(s.At(c).fp)).(slot := Some(Entry(s.At(c).fp, None)))
      else s.To(c, Looking(s.At(c).fp))
    case Get(c) => if s.At(c).Looking? then s.To(c, Found(s.slot, s.At(c).fp)) else s
    case Finish(c, result) =>
      if !s.At(c).Running? then s
      else s.To(c, if result.Some? then Ran(s.At(c).fp, result.value) else Failing(s.At(c).fp))
    case CommitWork(c, committed) =>
      if !s.At(c).Ran? then s
      else if committed then
        s.To(c, Committed(s.At(c).fp, s.At(c).result)).(commits := s.commits + [Commit(c, s.At(c).fp, s.At(c).result)])
      else s.To(c, Failing(s.At(c).fp))
    case Store(c, stored) =>
      if !s.At(c).Committed? then s
      else if stored then
        s.To(c, Answered(s.At(c).fp, Fresh(s.At(c).result))).(slot := Some(Entry(s.At(c).fp, Some(s.At(c).result))))
      else s.To(c, Failing(s.At(c).fp))
    case Delete(c) => if s.At(c).Failing? then s.To(c, Answered(s.At(c).fp, Raised)).(slot := None) else s
    case Crash(c) => s.To(c, Crashed)
    case Expire => s.(slot := None)
  }

  function Run(s: State, steps: seq<Step>): State {
    if |steps| == 0 then s else Next(Run(s, steps[..|steps| - 1]), steps[|steps| - 1])
  }

  // ---------------------------------------------------------------- how many commits

  function Faults(steps: seq<Step>): nat {
    if |steps| == 0 then 0
    else Faults(steps[..|steps| - 1]) + if steps[|steps| - 1].Fault() then 1 else 0
  }

  function Owners(s: State): set<Id> {
    Where(s.stages, Owning)
  }

  /** The largest number of commits any fault-free continuation can reach: those there are, one for each
      caller that may still commit or free the key, and one for a free key. */
  function Capacity(s: State): nat {
    |s.commits| + |Owners(s)| + Flag(s.slot.None?)
  }

  /** What one caller's step does to the number of callers in stages satisfying `p`. */
  lemma StageMoves(s: State, e: Step, p: Stage -> bool)
    requires !e.Expire? && !p(Absent)
    ensures var t := Next(s, e);
            |Where(t.stages, p)| + Flag(p(s.At(e.caller))) == |Where(s.stages, p)| + Flag(p(t.At(e.caller)))
  {
    var t := Next(s, e);
    WhereMoves(s.stages, p, e.caller, t.At(e.caller));
    assert t.stages == s.stages || t.stages == s.stages[e.caller := t.At(e.caller)];
  }

  lemma StepRaisesCapacityByFaults(s: State, e: Step)
    ensures Capacity(Next(s, e)) <= Capacity(s) + Flag(e.Fault())
  {
    if !e.Expire? {
      StageMoves(s, e, Owning);
    }
  }

  lemma {:induction false} RunRaisesCapacityByFaults(s: State, steps: seq<Step>)
    ensures Capacity(Run(s, steps)) <= Capacity(s) + Faults(steps)
  {
    if |steps| > 0 {
      var n := |steps| - 1;
      RunRaisesCapacityByFaults(s, steps[..n]);
      StepRaisesCapacityByFaults(Run(s, steps[..n]), steps[n]);
    }
  }

  /** At most once: over every interleaving of callers and crashes, commits exceed one only by the number
      of expiries and failed stores. */
  lemma CommitsBoundedByFaults(steps: seq<Step>)
    ensures |Run(FRESH, steps).commits| <= 1 + Faults(steps)
  {
    RunRaisesCapacityByFaults(FRESH, steps);
  }

  ghost predicate Advances(steps: seq<Step>, n: nat)
    requires n < |steps|
  {
    && Run(FRESH, steps[..n + 1]) == Next(Run(FRESH, steps[..n]), steps[n])
    && Faults(steps[..n + 1]) == Faults(steps[..n]) + if steps[n].Fault() then 1 else 0
  }

  lemma Advance(steps: seq<Step>, n: nat)
    requires n < |steps|
    ensures Advances(steps, n)
  {
    assert steps[..n + 1][..n] == steps[..n];
  }

  function LostStore(c: Id, fp: Fingerprint, result: Response): seq<Step> {
    [Call(c, fp), SetIfAbsent(c), Finish(c, Some(result)), CommitWork(c, true), Store(c, false), Delete(c)]
  }

  lemma LostStoreFreesTheKey(c: Id, fp: Fingerprint, result: Response)
    ensures var s := Run(FRESH, LostStore(c, fp, result));
            s.slot == None && s.commits == [Commit(c, fp, result)] && s.At(c) == Answered(fp, Raised)
            && s.stages.Keys == {c} && Faults(LostStore(c, fp, result)) == 1
  {
    var steps := LostStore(c, fp, result);
    Advance(steps, 0);
    Advance(steps, 1);
    Advance(steps, 2);
    assert Run(FRESH, steps[..3]) == State(Some(Entry(fp, None)), map[c := Ran(fp, result)], []);
    Advance(steps, 3);
    Advance(steps, 4);
    Advance(steps, 5);
    assert steps[..6] == steps;
    StoreIsLost(c, fp, result);
  }

  lemma StoreIsLost(c: Id, fp: Fingerprint, result: Response)
    ensures Next(Next(Next(State(Some(Entry(fp, None)), map[c := Ran(fp, result)], []), CommitWork(c, true)),
        Store(c, false)), Delete(c))
         == State(None, map[c := Answered(fp, Raised)], [Commit(c, fp, result)])
  {
  }

  /** The bound is met: a store that fails after the commit releases the key, and a retry commits again. */
  lemma FailedStoreCommitsTwice(c: Id, d: Id, fp: Fingerprint, result: Response)
    requires c != d
    ensures var steps := LostStore(c, fp, result)
        + [Call(d, fp), SetIfAbsent(d), Finish(d, Some(result)), CommitWork(d, true)];
            Run(FRESH, steps).commits == [Commit(c, fp, result), Commit(d, fp, result)] && Faults(steps) == 1
  {
    var start := LostStore(c, fp, result);
    var steps := start + [Call(d, fp), SetIfAbsent(d), Finish(d, Some(result)), CommitWork(d, true)];
    LostStoreFreesTheKey(c, fp, result);
    assert steps[..6] == start;
    Advance(steps, 6);
    Advance(steps, 7);
    Advance(steps, 8);
    Advance(steps, 9);
    assert steps[..10] == steps;
  }

  // ---------------------------------------------------------------- what callers are told

  predicate Reliable(steps: seq<Step>) {
    forall i | 0 <= i < |steps| :: !steps[i].Fault()
  }

  /** What a caller's stage says about the key and the commits. */
  ghost predicate Truthful(s: State, c: Id) {
    match s.At(c)
    case Running(fp) => s.slot == Some(Entry(fp, None)) && s.commits == []
    case Ran(fp, _) => s.slot == Some(Entry(fp, None)) && s.commits == []
    case Failing(fp) => s.slot == Some(Entry(fp, None)) && s.commits == []
    case Committed(fp, result) => s.slot == Some(Entry(fp, None)) && s.commits == [Commit(c, fp, result)]
    case Answered(fp, Fresh(result)) => s.slot == Some(Entry(fp, Some(result))) && s.commits == [Commit(c, fp, result)]
    case Answered(fp, Replay(result)) => s.slot == Some(Entry(fp, Some(result)))
    case Answered(_, _) => s.commits == [] || s.commits[0].caller != c
    case Crashed => true
    case _ => s.commits == [] || s.commits[0].caller != c
  }

  /** A stored response is the one commit's; a committed result is stored or its caller is yet to. */
  ghost predicate Agreed(s: State) {
    && (forall c: Id :: Truthful(s, c))
    && |s.commits| <= 1
    && (s.commits == [] ==> s.slot.None? || s.slot.value.response.None?)
    && (s.commits != [] ==> s.slot.Some? && s.slot.value.fingerprint == s.commits[0].fp)
    && (s.slot.Some? && s.slot.value.response.Some? ==>
        s.commits != [] && s.slot.value.response.value == s.commits[0].result)
  }

  lemma OneOwner(s: State, c: Id, d: Id)
    requires Capacity(s) <= 1 && Owning(s.At(c)) && Owning(s.At(d))
    ensures c == d
  {
    if c != d {
      assert {c, d} <= Owners(s);
      SubsetSize({c, d}, Owners(s));
    }
  }

  /** No one else can own the key while a caller does, or once it has committed. */
  lemma SoleOwner(s: State, c: Id, d: Id)
    requires Agreed(s) && Capacity(s) <= 1 && Owning(s.At(d)) && d != c
    ensures !Owning(s.At(c)) && !s.At(c).Committed?
  {
    assert Truthful(s, c) && Truthful(s, d);
    if Owning(s.At(c)) {
      OneOwner(s, c, d);
    }
  }

  lemma OthersStayTruthful(s: State, e: Step, d: Id)
    requires Agreed(s) && Capacity(s) <= 1 && !e.Fault() && d != e.caller
    ensures Truthful(Next(s, e), d)
  {
    assert Truthful(s, d) && Truthful(s, e.caller);
    assert Next(s, e).At(d) == s.At(d);
    if Owning(s.At(d)) && e.caller != d {
      if Owning(s.At(e.caller)) || s.At(e.caller).Committed? {
        SoleOwner(s, e.caller, d);
      }
    }
  }

  lemma CallerStaysTruthful(s: State, e: Step)
    requires Agreed(s) && Capacity(s) <= 1 && !e.Fault()
    ensures Truthful(Next(s, e), e.caller)
  {
    assert Truthful(s, e.caller);
  }

  lemma SlotStaysAgreed(s: State, e: Step)
    requires Agreed(s) && Capacity(s) <= 1 && !e.Fault()
    ensures var t := Next(s, e);
            && |t.commits| <= 1
            && (t.commits == [] ==> t.slot.None? || t.slot.value.response.None?)
            && (t.commits != [] ==> t.slot.Some? && t.slot.value.fingerprint == t.commits[0].fp)
            && (t.slot.Some? && t.slot.value.response.Some? ==>
                t.commits != [] && t.slot.value.response.value == t.commits[0].result)
  {
    assert Truthful(s, e.caller);
  }

  lemma {:induction false} ReliableRunAgrees(steps: seq<Step>)
    requires Reliable(steps)
    ensures Faults(steps) == 0 && Agreed(Run(FRESH, steps))
  {
    if |steps| > 0 {
      var n := |steps| - 1;
      var s := Run(FRESH, steps[..n]);
      ReliableRunAgrees(steps[..n]);
      RunRaisesCapacityByFaults(FRESH, steps[..n]);
      SlotStaysAgreed(s, steps[n]);
      CallerStaysTruthful(s, steps[n]);
      forall d | d != steps[n].caller ensures Truthful(Next(s, steps[n]), d) {
        OthersStayTruthful(s, steps[n], d);
      }
    }
  }

  /** Whoever is given a response is given the one committed for its own payload; whoever is refused, told
      to wait, or told of a failure has committed nothing. */
  lemma AnswersAreHonest(steps: seq<Step>, c: Id)
    requires Reliable(steps) && Run(FRESH, steps).At(c).Answered?
    ensures var s := Run(FRESH, steps);
            var Answered(fp, answer) := s.At(c);
            && |s.commits| <= 1
            && (answer.Fresh? ==> s.commits == [Commit(c, fp, answer.made)])
            && (answer.Replay? ==> |s.commits| == 1 && s.commits[0].fp == fp && s.commits[0].result == answer.stored)
            && (answer.Conflict? || answer.InProgress? || answer.Raised? ==>
                  forall i | 0 <= i < |s.commits| :: s.commits[i].caller != c)
  {
    ReliableRunAgrees(steps);
    assert Truthful(Run(FRESH, steps), c);
  }

  predicate Asking(stage: Stage) {
    stage.Absent? || stage.Starting? || stage.Looking?
  }

  /** Still asking, gone, or answered as the stored entry demands. */
  predicate Served(stage: Stage, entry: Entry)
    requires entry.response.Some?
  {
    || Asking(stage)
    || stage.Crashed?
    || (stage.Answered? && stage.answer == if stage.fp == entry.fingerprint then Replay(entry.response.value)
        else Conflict)
  }

  ghost predicate Settled(s: State, entry: Entry, commits: seq<Commit>, askers: set<Id>)
    requires entry.response.Some?
  {
    && s.slot == Some(entry) && s.commits == commits && commits != []
    && forall c | c in askers :: Served(s.At(c), entry)
  }

  lemma StepStaysSettled(s: State, e: Step, entry: Entry, commits: seq<Commit>, askers: set<Id>)
    requires entry.response.Some? && Settled(s, entry, commits, askers)
    requires Agreed(s) && !e.Fault()
    ensures Settled(Next(s, e), entry, commits, askers)
  {
    assert Truthful(s, e.caller);
  }

  /** Once a response is stored it stays: no caller commits again, and each one still asking is answered
      with it if its payload matches and with a conflict otherwise. */
  lemma {:induction false} StoredResponseIsFinal(before: seq<Step>, later: seq<Step>, askers: set<Id>)
    requires Reliable(before) && Reliable(later)
    requires Run(FRESH, before).slot.Some? && Run(FRESH, before).slot.value.response.Some?
    requires forall c | c in askers :: Asking(Run(FRESH, before).At(c))
    ensures Settled(Run(FRESH, before + later), Run(FRESH, before).slot.value, Run(FRESH, before).commits, askers)
  {
    var entry, commits := Run(FRESH, before).slot.value, Run(FRESH, before).commits;
    if |later| == 0 {
      assert before + later == before;
      ReliableRunAgrees(before);
    } else {
      var n := |later| - 1;
      StoredResponseIsFinal(before, later[..n], askers);
      assert (before + later)[..|before| + n] == before + later[..n];
      assert Reliable(before + later[..n]);
      ReliableRunAgrees(before + later[..n]);
      StepStaysSettled(Run(FRESH, before + later[..n]), later[n], entry, commits, askers);
    }
  }

  ghost predicate Abandoned(s: State) {
    && s.slot.Some? && s.slot.value.response.None?
    && forall c | c in s.stages :: !Owning(s.stages[c]) && !s.stages[c].Committed?
  }

  /** A reservation whose caller crashed blocks the key: nothing commits any more and every caller that
      still asks is told to wait or refused. */
  lemma {:induction false} AbandonedKeyStaysPending(s: State, later: seq<Step>)
    requires Abandoned(s) && Reliable(later)
    ensures var t := Run(s, later);
            && Abandoned(t) && t.slot == s.slot && t.commits == s.commits
            && forall c | Asking(s.At(c)) :: Asking(t.At(c)) || t.At(c).Crashed?
                 || (t.At(c).Answered? && t.At(c).answer == if t.At(c).fp == s.slot.value.fingerprint then InProgress
                     else Conflict)
  {
    if |later| > 0 {
      AbandonedKeyStaysPending(s, later[..|later| - 1]);
    }
  }

  // ---------------------------------------------------------------- exactly how many commits can follow

  lemma {:induction false} ReliableHasNoFaults(steps: seq<Step>)
    requires Reliable(steps)
    ensures Faults(steps) == 0
  {
    if |steps| > 0 {
      ReliableHasNoFaults(steps[..|steps| - 1]);
    }
  }

  lemma {:induction false} RunBoth(s: State, a: seq<Step>, b: seq<Step>)
    ensures Run(s, a + b) == Run(Run(s, a), b)
  {
    if |b| == 0 {
      assert a + b == a;
    } else {
      RunBoth(s, a, b[..|b| - 1]);
      assert (a + b)[..|a + b| - 1] == a + b[..|b| - 1];
    }
  }

  ghost predicate CommitsReachable(s: State, n: nat) {
    exists more :: Reliable(more) && |Run(s, more).commits| >= n
  }

  /** One fault-free step closer. */
  lemma StepThenReach(s: State, e: Step, n: nat)
    requires !e.Fault() && CommitsReachable(Next(s, e), n)
    ensures CommitsReachable(s, n)
  {
    var more :| Reliable(more) && |Run(Next(s, e), more).commits| >= n;
    assert [e][..0] == [];
    assert Run(s, [e]) == Next(Run(s, [e][..0]), e);
    RunBoth(s, [e], more);
    assert Reliable([e] + more);
  }

  predicate Runs(x: Stage) {
    x.Running?
  }

  predicate HasRun(x: Stage) {
    x.Ran?
  }

  predicate Fails(x: Stage) {
    x.Failing?
  }

  function Count(s: State, p: Stage -> bool): nat {
    |Where(s.stages, p)|
  }

  /** Steps left until everything that can commit has. */
  function Work(s: State): nat {
    4 * Count(s, Fails) + 3 * Flag(s.slot.None?) + 2 * Count(s, Runs) + Count(s, HasRun)
  }

  /** A caller never seen before takes a free key. */
  function Reserved(s: State, c: Id): State {
    Next(Next(s, Call(c, 0)), SetIfAbsent(c))
  }

  lemma ReserveThenReach(s: State, c: Id, n: nat)
    requires CommitsReachable(Reserved(s, c), n)
    ensures CommitsReachable(s, n)
  {
    StepThenReach(Next(s, Call(c, 0)), SetIfAbsent(c), n);
    StepThenReach(s, Call(c, 0), n);
  }

  lemma ReserveKeepsCapacity(s: State, c: Id)
    requires c !in s.stages && s.slot.None?
    ensures Capacity(Reserved(s, c)) == Capacity(s) && Work(Reserved(s, c)) < Work(s)
  {
    var t := Reserved(s, c);
    assert t.stages == s.stages[c := Running(0)];
    WhereMoves(s.stages, Owning, c, Running(0));
    WhereMoves(s.stages, Runs, c, Running(0));
    WhereMoves(s.stages, HasRun, c, Running(0));
    WhereMoves(s.stages, Fails, c, Running(0));
  }

  /** The next step of an owner towards a commit, or towards freeing the key. */
  function Onward(s: State, c: Id): Step {
    match s.At(c)
    case Running(_) => Finish(c, Some(0))
    case Ran(_, _) => CommitWork(c, true)
    case _ => Delete(c)
  }

  lemma OnwardKeepsCapacity(s: State, c: Id)
    requires Owning(s.At(c)) && (s.At(c).Failing? ==> s.slot.Some?)
    ensures Capacity(Next(s, Onward(s, c))) == Capacity(s) && Work(Next(s, Onward(s, c))) < Work(s)
  {
    var e := Onward(s, c);
    StageMoves(s, e, Owning);
    StageMoves(s, e, Runs);
    StageMoves(s, e, HasRun);
    StageMoves(s, e, Fails);
  }

  lemma {:induction false} FillCapacity(s: State)
    ensures CommitsReachable(s, Capacity(s))
    decreases Work(s)
  {
    if s.slot.None? {
      var c := FreshId(s.stages.Keys);
      ReserveKeepsCapacity(s, c);
      FillCapacity(Reserved(s, c));
      ReserveThenReach(s, c, Capacity(s));
    } else if c :| c in Owners(s) {
      OnwardKeepsCapacity(s, c);
      FillCapacity(Next(s, Onward(s, c)));
      StepThenReach(s, Onward(s, c), Capacity(s));
    } else {
      assert Reliable([]) && Run(s, []) == s;
    }
  }

  /** From any state at all, fault-free continuations reach exactly the numbers of commits up to the capacity. */
  lemma {:induction false} CommitsReachExactlyCapacity(s: State, n: nat)
    ensures CommitsReachable(s, n) <==> n <= Capacity(s)
  {
    FillCapacity(s);
    var best :| Reliable(best) && |Run(s, best).commits| >= Capacity(s);
    if more :| Reliable(more) && |Run(s, more).commits| >= n {
      RunRaisesCapacityByFaults(s, more);
      ReliableHasNoFaults(more);
    }
  }

  /** A failed store by a caller that has committed, or an expiry once a commit was made or while a caller
      owns the key. */
  predicate FaultIsHarmful(s: State, e: Step) {
    || (e.Store? && !e.stored && s.At(e.caller).Committed?)
    || (e.Expire? && (s.commits != [] || Owners(s) != {}))
  }

  /** A first fault lets some fault-free continuation commit a second time exactly when it is harmful. */
  lemma {:induction false} SecondCommitExactlyWhen(before: seq<Step>, e: Step)
    requires Reliable(before) && e.Fault()
    ensures CommitsReachable(Next(Run(FRESH, before), e), 2) <==> FaultIsHarmful(Run(FRESH, before), e)
  {
    var s := Run(FRESH, before);
    ReliableRunAgrees(before);
    RunRaisesCapacityByFaults(FRESH, before);
    if e.Store? {
      assert Truthful(s, e.caller);
      StageMoves(s, e, Owning);
    }
    CommitsReachExactlyCapacity(Next(s, e), 2);
  }

  ghost predicate HarmlessAt(s: State, e: Step) {
    e.Fault() ==> Capacity(Next(s, e)) <= 1
  }

  ghost predicate Harmless(steps: seq<Step>) {
    forall i | 0 <= i < |steps| :: HarmlessAt(Run(FRESH, steps[..i]), steps[i])
  }

  lemma {:induction false} HarmlessRunHasCapacityOne(steps: seq<Step>)
    requires Harmless(steps)
    ensures Capacity(Run(FRESH, steps)) <= 1
  {
    if |steps| > 0 {
      var n := |steps| - 1;
      forall i | 0 <= i < n ensures HarmlessAt(Run(FRESH, steps[..n][..i]), steps[..n][i]) {
        assert steps[..n][..i] == steps[..i];
      }
      HarmlessRunHasCapacityOne(steps[..n]);
      StepRaisesCapacityByFaults(Run(FRESH, steps[..n]), steps[n]);
    }
  }

  lemma HarmlessPrefix(steps: seq<Step>, i: nat)
    requires Harmless(steps) && i <= |steps|
    ensures !CommitsReachable(Run(FRESH, steps[..i]), 2)
  {
    forall j | 0 <= j < i ensures HarmlessAt(Run(FRESH, steps[..i][..j]), steps[..i][j]) {
      assert steps[..i][..j] == steps[..j];
    }
    HarmlessRunHasCapacityOne(steps[..i]);
    CommitsReachExactlyCapacity(Run(FRESH, steps[..i]), 2);
  }

  lemma SafePrefixIsHarmless(steps: seq<Step>, i: nat)
    requires i < |steps| && !CommitsReachable(Run(FRESH, steps[..i + 1]), 2)
    ensures HarmlessAt(Run(FRESH, steps[..i]), steps[i])
  {
    Advance(steps, i);
    CommitsReachExactlyCapacity(Run(FRESH, steps[..i + 1]), 2);
  }

  /** Over a key's whole life, with any number of faults: no moment of the run can be continued into a
      second commit exactly when every fault is harmless. */
  lemma {:induction false} OneCommitExactlyWhenFaultsAreHarmless(steps: seq<Step>)
    ensures Harmless(steps) <==> forall i | 0 <= i <= |steps| :: !CommitsReachable(Run(FRESH, steps[..i]), 2)
  {
    if Harmless(steps) {
      forall i | 0 <= i <= |steps| { HarmlessPrefix(steps, i); }
    }
    if forall i | 0 <= i <= |steps| :: !CommitsReachable(Run(FRESH, steps[..i]), 2) {
      forall i | 0 <= i < |steps| ensures HarmlessAt(Run(FRESH, steps[..i]), steps[i]) {
        SafePrefixIsHarmless(steps, i);
      }
    }
  }

  // ---------------------------------------------------------------- the operations themselves

  /** One caller, nothing in between. Steps it never reaches change nothing. */
  function Alone(s: State, c: Id, fp: Fingerprint, result: Option<Response>, committed: bool, stored: bool): State {
    var asked := Next(Next(Next(s, Call(c, fp)), SetIfAbsent(c)), Get(c));
    Next(Next(Next(Next(asked, Finish(c, result)), CommitWork(c, committed)), Store(c, stored)), Delete(c))
  }

  /** A command on a free key commits once and is answered; a retry of it gets the same answer back, any
      other payload a conflict, and neither commits; a command that fails frees the key for the next. */
  lemma CommandThenRetry(c: Id, d: Id, fp: Fingerprint, other: Fingerprint, result: Response,
    retried: Option<Response>, ok: bool, stored: bool)
    requires c != d
    ensures var done := Alone(FRESH, c, fp, Some(result), true, true);
            var again := Alone(done, d, other, retried, ok, stored);
            && done.commits == [Commit(c, fp, result)] && done.At(c) == Answered(fp, Fresh(result))
            && again.commits == done.commits && again.slot == done.slot
            && again.At(d) == Answered(other, if other == fp then Replay(result) else Conflict)
    ensures var failed := Alone(FRESH, c, fp, None, ok, stored);
            var next := Alone(failed, d, other, Some(result), true, true);
            && failed.At(c) == Answered(fp, Raised) && failed.commits == [] && failed.slot == None
            && next.commits == [Commit(d, other, result)] && next.At(d) == Answered(other, Fresh(result))
  {
  }

  /** One key of the store, with the commits its commands made. */
  class CommandStore {
    var slot: Option<Entry>
    var commits: seq<Commit>

    constructor ()
      ensures Current() == FRESH
    {
      slot, commits := None, [];
    }

    ghost function Current(): State
      reads this
    {
      State(slot, map[], commits)
    }

    /** `None` means the key is now reserved for the caller. */
    method Reserve(fp: Fingerprint) returns (answer: Option<Answer>)
      modifies this`slot
      ensures old(slot).None? ==> answer == None && slot == Some(Entry(fp, None))
      ensures old(slot).Some? ==>
                slot == old(slot) && answer.Some? && Found(old(slot), fp) == Answered(fp, answer.value)
    {
      if slot.None? {
        slot := Some(Entry(fp, None));
        return None;
      }
      if slot.value.fingerprint != fp {
        return Some(Conflict);
      }
      if slot.value.response.Some? {
        return Some(Replay(slot.value.response.value));
      }
      return Some(InProgress);
    }

    method Complete(fp: Fingerprint, response: Response)
      modifies this`slot
      ensures slot == Some(Entry(fp, Some(response)))
    {
      slot := Some(Entry(fp, Some(response)));
    }

    method ReleaseKey()
      modifies this`slot
      ensures slot == None
    {
      slot := None;
    }

    /** Reserve, run and audit, commit, then complete; any exception on the way releases the key. */
    method Write(caller: Id, fp: Fingerprint, result: Option<Response>, committed: bool, stored: bool)
      returns (answer: Answer)
      modifies this
      ensures var after := Alone(old(Current()), caller, fp, result, committed, stored);
              slot == after.slot && commits == after.commits && after.At(caller) == Answered(fp, answer)
    {
      var early := Reserve(fp);
      if early.Some? {
        return early.value;
      }
      if result.None? || !committed {
        ReleaseKey();
        return Raised;
      }
      commits := commits + [Commit(caller, fp, result.value)];
      if !stored {
        ReleaseKey();
        return Raised;
      }
      Complete(fp, result.value);
      return Fresh(result.value);
    }
  }
}
