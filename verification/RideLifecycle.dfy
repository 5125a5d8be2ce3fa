/** The ride state machine (`ride/domain/entities.py`). */
module RideLifecycle {
  import opened Prelude

  datatype Status =
    | Requested | Matched | DriverEnRoute | Arrived | InProgress | Waiting
    | Completed | CancelledByPassenger | CancelledByDriver | NoDriverFound
  {
    predicate IsCancelled() {
      CancelledByPassenger? || CancelledByDriver?
    }
  }

  function Allowed(from: Status): set<Status> {
    match from
    case Requested => {Matched, NoDriverFound, CancelledByPassenger, CancelledByDriver}
    case Matched => {DriverEnRoute, CancelledByPassenger, CancelledByDriver}
    case DriverEnRoute => {Arrived, CancelledByPassenger, CancelledByDriver}
    case Arrived => {InProgress, CancelledByPassenger, CancelledByDriver}
    case InProgress => {Waiting, Completed, CancelledByPassenger, CancelledByDriver}
    case Waiting => {InProgress, Completed, CancelledByPassenger, CancelledByDriver}
    case _ => {}
  }

  datatype Entry = Entry(from: Status, to: Status, at: int)

  datatype State = State(
    status: Status, matchedAt: Option<int>, arrivedAt: Option<int>, startedAt: Option<int>, completedAt: Option<int>,
    cancelledAt: Option<int>, estimatedFare: Option<nat>, finalFare: Option<nat>, history: seq<Entry>)
  {
    predicate IsActive() {
      status in {Requested, Matched, DriverEnRoute, Arrived, InProgress, Waiting}
    }
  }

  function Fresh(estimated: Option<nat>, final: Option<nat>): State {
    State(Requested, None, None, None, None, None, estimated, final, [])
  }

  function Stamp(earlier: Option<int>, reached: bool, now: int): Option<int> {
    if reached then earlier.Or(Some(now)) else earlier
  }

  /** `None` is the refused transition. */
  function Moved(s: State, to: Status, now: int): Option<State> {
    if to == s.status then Some(s)
    else if to !in Allowed(s.status) then None
    else
      Some(State(
        to,
        Stamp(s.matchedAt, to == Matched, now),
        Stamp(s.arrivedAt, to == Arrived, now),
        Stamp(s.startedAt, to == InProgress, now),
        Stamp(s.completedAt, to == Completed, now),
        Stamp(s.cancelledAt, to.IsCancelled(), now),
        s.estimatedFare,
        if to == Completed && s.completedAt.None? then s.finalFare.Or(s.estimatedFare) else s.finalFare,
        s.history + [Entry(s.status, to, now)]))
  }

  class Ride {
    var status: Status
    var matchedAt: Option<int>
    var arrivedAt: Option<int>
    var startedAt: Option<int>
    var completedAt: Option<int>
    var cancelledAt: Option<int>
    const estimatedFare: Option<nat>
    var finalFare: Option<nat>
    var history: seq<Entry>

    constructor (estimated: Option<nat>)
      ensures Current() == Fresh(estimated, None)
    {
      status, history := Requested, [];
      matchedAt, arrivedAt, startedAt, completedAt, cancelledAt := None, None, None, None, None;
      estimatedFare, finalFare := estimated, None;
    }

    ghost function Current(): State
      reads this
    {
      State(status, matchedAt, arrivedAt, startedAt, completedAt, cancelledAt, estimatedFare, finalFare, history)
    }

    method Transition(to: Status, now: int) returns (ok: bool)
      modifies this
      ensures ok <==> to == old(status) || to in Allowed(old(status))
      ensures Some(Current()) == if ok then Moved(old(Current()), to, now) else Some(old(Current()))
    {
      if to == status {
        return true;
      }
      if to !in Allowed(status) {
        return false;
      }
      var from := status;
      status := to;
      if to == Matched && matchedAt.None? {
        matchedAt := Some(now);
      }
      if to == Arrived && arrivedAt.None? {
        arrivedAt := Some(now);
      }
      if to == InProgress && startedAt.None? {
        startedAt := Some(now);
      }
      if to == Completed && completedAt.None? {
        completedAt := Some(now);
        if finalFare.None? && estimatedFare.Some? {
          finalFare := estimatedFare;
        }
      }
      if to.IsCancelled() && cancelledAt.None? {
        cancelledAt := Some(now);
      }
      history := history + [Entry(from, to, now)];
      return true;
    }
  }

  // ---------------------------------------------------------------- runs

  datatype Attempt = Attempt(to: Status, at: int)

  /** A refused transition raises and leaves the ride alone. */
  function Step(s: State, a: Attempt): State {
    var moved := Moved(s, a.to, a.at);
    if moved.Some? then moved.value else s
  }

  function Run(s: State, attempts: seq<Attempt>): State {
    if |attempts| == 0 then s else Step(Run(s, attempts[..|attempts| - 1]), attempts[|attempts| - 1])
  }

  predicate InOrder(attempts: seq<Attempt>) {
    forall i, j | 0 <= i < j < |attempts| :: attempts[i].at <= attempts[j].at
  }

  /** The time of the first entry into one of `targets`. */
  function FirstVisit(history: seq<Entry>, targets: set<Status>): (r: Option<int>)
    ensures r.None? <==> forall i | 0 <= i < |history| :: history[i].to !in targets
    ensures r.Some? ==> exists i | 0 <= i < |history| :: history[i].to in targets && history[i].at == r.value
                          && forall j | 0 <= j < i :: history[j].to !in targets
  {
    if |history| == 0 then None
    else
      var n := |history| - 1;
      var early := FirstVisit(history[..n], targets);
      if early.Some? then early else if history[n].to in targets then Some(history[n].at) else None
  }

  /** A connected path from REQUESTED to the current status along allowed moves. */
  ghost predicate Path(history: seq<Entry>, end: Status) {
    && (forall i | 0 <= i < |history| :: history[i].to in Allowed(history[i].from))
    && (forall i | 0 < i < |history| :: history[i].from == history[i - 1].to)
    && (if history == [] then end == Requested else history[0].from == Requested && history[|history| - 1].to == end)
  }

  /** Each timestamp is the time the log gives for the first visit. */
  ghost predicate Stamped(s: State) {
    && s.matchedAt == FirstVisit(s.history, {Matched})
    && s.arrivedAt == FirstVisit(s.history, {Arrived})
    && s.startedAt == FirstVisit(s.history, {InProgress})
    && s.completedAt == FirstVisit(s.history, {Completed})
    && s.cancelledAt == FirstVisit(s.history, {CancelledByPassenger, CancelledByDriver})
  }

  ghost predicate Precedes(earlier: Option<int>, later: Option<int>) {
    later.Some? ==> earlier.Some? && earlier.value <= later.value
  }

  function Rank(status: Status): nat {
    match status
    case Requested => 0
    case Matched => 1
    case DriverEnRoute => 2
    case Arrived => 3
    case InProgress => 4
    case Waiting => 4
    case _ => 5
  }

  ghost predicate Milestones(s: State) {
    && Precedes(s.matchedAt, s.arrivedAt) && Precedes(s.arrivedAt, s.startedAt) && Precedes(s.startedAt, s.completedAt)
    && (1 <= Rank(s.status) <= 4 ==> s.matchedAt.Some?)
    && (3 <= Rank(s.status) <= 4 ==> s.arrivedAt.Some?)
    && (Rank(s.status) == 4 ==> s.startedAt.Some?)
    && (s.completedAt.Some? <==> s.status.Completed?)
    && (s.cancelledAt.Some? <==> s.status.IsCancelled())
  }

  /** No timestamp lies after `now`. */
  ghost predicate NotAfter(s: State, now: int) {
    && (s.matchedAt.Some? ==> s.matchedAt.value <= now)
    && (s.arrivedAt.Some? ==> s.arrivedAt.value <= now)
    && (s.startedAt.Some? ==> s.startedAt.value <= now)
    && forall i | 0 <= i < |s.history| :: s.history[i].at <= now
  }

  /** Only the IN_PROGRESS/WAITING cycle is entered twice. */
  ghost predicate VisitedOnce(s: State) {
    && (forall i | 0 <= i < |s.history| :: Rank(s.history[i].to) <= Rank(s.status))
    && (forall i | 0 <= i < |s.history| - 1 :: s.history[i].to == s.status ==> Rank(s.status) == 4)
    && (forall i, j | 0 <= i < j < |s.history| && s.history[i].to == s.history[j].to :: Rank(s.history[i].to) == 4)
  }

  /** A completed ride has a final fare whenever it had an estimate; the fare changes nowhere else. */
  ghost predicate Priced(s: State, estimated: Option<nat>, final: Option<nat>) {
    && s.estimatedFare == estimated
    && s.finalFare == if s.status.Completed? then final.Or(estimated) else final
  }

  lemma Snoc(history: seq<Entry>, e: Entry, targets: set<Status>)
    ensures FirstVisit(history + [e], targets)
         == FirstVisit(history, targets).Or(if e.to in targets then Some(e.at) else None)
  {
    assert (history + [e])[..|history|] == history;
  }

  lemma StepStamped(s: State, a: Attempt)
    requires Stamped(s)
    ensures Stamped(Step(s, a))
  {
    var e := Entry(s.status, a.to, a.at);
    Snoc(s.history, e, {Matched});
    Snoc(s.history, e, {Arrived});
    Snoc(s.history, e, {InProgress});
    Snoc(s.history, e, {Completed});
    Snoc(s.history, e, {CancelledByPassenger, CancelledByDriver});
  }

  lemma StepMilestones(s: State, a: Attempt)
    requires Milestones(s) && NotAfter(s, a.at)
    ensures Milestones(Step(s, a)) && NotAfter(Step(s, a), a.at)
  {
  }

  lemma StepPath(s: State, a: Attempt)
    requires Path(s.history, s.status)
    ensures Path(Step(s, a).history, Step(s, a).status)
  {
  }

  /** A move raises the rank, except inside the cycle. */
  lemma RankRises(from: Status, to: Status)
    requires to in Allowed(from)
    ensures Rank(from) < Rank(to) || (Rank(from) == Rank(to) == 4 && from != to)
  {
  }

  lemma StepVisitedOnce(s: State, a: Attempt)
    requires VisitedOnce(s)
    ensures VisitedOnce(Step(s, a))
  {
    if a.to in Allowed(s.status) {
      RankRises(s.status, a.to);
    }
  }

  lemma StepPriced(s: State, a: Attempt, estimated: Option<nat>, final: Option<nat>)
    requires Priced(s, estimated, final) && (s.completedAt.Some? <==> s.status.Completed?)
    ensures Priced(Step(s, a), estimated, final)
  {
  }

  lemma {:induction false} RunIsChronicled(estimated: Option<nat>, final: Option<nat>, attempts: seq<Attempt>)
    requires InOrder(attempts)
    ensures var s := Run(Fresh(estimated, final), attempts);
            && Stamped(s) && Milestones(s) && Path(s.history, s.status) && VisitedOnce(s) && Priced(s, estimated, final)
            && (|attempts| > 0 ==> NotAfter(s, attempts[|attempts| - 1].at))
  {
    if |attempts| > 0 {
      var n := |attempts| - 1;
      RunIsChronicled(estimated, final, attempts[..n]);
      var s := Run(Fresh(estimated, final), attempts[..n]);
      if n > 0 {
        LaterStillNotAfter(s, attempts[n - 1].at, attempts[n].at);
      }
      StepStamped(s, attempts[n]);
      StepMilestones(s, attempts[n]);
      StepPath(s, attempts[n]);
      StepVisitedOnce(s, attempts[n]);
      StepPriced(s, attempts[n], estimated, final);
    }
  }

  lemma LaterStillNotAfter(s: State, then_: int, now: int)
    requires NotAfter(s, then_) && then_ <= now
    ensures NotAfter(s, now)
  {
  }

  /** Whatever transitions are attempted, the log is a connected path to the current status, each
      timestamp is the log's first visit across any number of waiting cycles, and every other status is
      entered at most once. */
  lemma {:induction false} HistoryExplainsRide(estimated: Option<nat>, attempts: seq<Attempt>)
    requires InOrder(attempts)
    ensures var s := Run(Fresh(estimated, None), attempts);
            && Path(s.history, s.status) && Stamped(s)
            && forall i, j | 0 <= i < j < |s.history| && s.history[i].to == s.history[j].to ::
                 s.history[i].to == InProgress || s.history[i].to == Waiting
  {
    RunIsChronicled(estimated, None, attempts);
  }

  lemma CompletedRidesAreDated(estimated: Option<nat>, attempts: seq<Attempt>)
    requires InOrder(attempts)
    ensures var s := Run(Fresh(estimated, None), attempts);
            && (s.status.Completed? ==>
                  && s.matchedAt.Some? && s.arrivedAt.Some? && s.startedAt.Some? && s.completedAt.Some?
                  && s.matchedAt.value <= s.arrivedAt.value <= s.startedAt.value <= s.completedAt.value)
            && (s.cancelledAt.Some? <==> s.status.CancelledByPassenger? || s.status.CancelledByDriver?)
            && s.finalFare == if s.status.Completed? then estimated else None
  {
    RunIsChronicled(estimated, None, attempts);
  }

  lemma {:induction false} RunExtendsHistory(s: State, attempts: seq<Attempt>)
    ensures s.history <= Run(s, attempts).history
  {
    if |attempts| > 0 {
      RunExtendsHistory(s, attempts[..|attempts| - 1]);
    }
  }

  lemma {:induction false} TerminalRidesStay(s: State, attempts: seq<Attempt>)
    requires !s.IsActive()
    ensures Run(s, attempts) == s
  {
    if |attempts| > 0 {
      TerminalRidesStay(s, attempts[..|attempts| - 1]);
    }
  }

  function Onward(status: Status): Status {
    match status
    case Requested => Matched
    case Matched => DriverEnRoute
    case DriverEnRoute => Arrived
    case Arrived => InProgress
    case _ => Completed
  }

  function FinishFrom(status: Status, now: int): seq<Attempt>
    decreases 5 - Rank(status)
  {
    if Rank(status) == 5 then [] else [Attempt(Onward(status), now)] + FinishFrom(Onward(status), now)
  }

  lemma {:induction false} RunFront(s: State, a: Attempt, rest: seq<Attempt>)
    ensures Run(s, [a] + rest) == Run(Step(s, a), rest)
  {
    if |rest| == 0 {
      assert [a] + rest == [a];
      assert [a][..0] == [];
      assert Run(s, [a]) == Step(Run(s, []), a);
    } else {
      var n := |rest| - 1;
      assert ([a] + rest)[..|rest|] == [a] + rest[..n];
      RunFront(s, a, rest[..n]);
    }
  }

  /** No active ride is stuck, and a ride is active exactly when it can still be completed. */
  lemma {:induction false} ActiveRidesCanComplete(s: State, now: int)
    ensures s.IsActive() ==> Run(s, FinishFrom(s.status, now)).status.Completed?
    ensures !s.IsActive() ==> forall attempts :: Run(s, attempts).status == s.status
    decreases 5 - Rank(s.status)
  {
    if s.IsActive() {
      var a := Attempt(Onward(s.status), now);
      RunFront(s, a, FinishFrom(a.to, now));
      assert Step(s, a).status == a.to;
      if a.to.Completed? {
        assert FinishFrom(a.to, now) == [];
      } else {
        ActiveRidesCanComplete(Step(s, a), now);
      }
    } else {
      forall attempts ensures Run(s, attempts).status == s.status {
        TerminalRidesStay(s, attempts);
      }
    }
  }

  /** The way forward of a ride, with its waiting cycle. */
  const FORWARD: set<(Status, Status)> :=
    {(Requested, Matched), (Matched, DriverEnRoute), (DriverEnRoute, Arrived), (Arrived, InProgress),
     (InProgress, Waiting), (Waiting, InProgress), (InProgress, Completed), (Waiting, Completed)}

  /** Which transitions are taken: a ride goes forward step by step, passenger and driver may cancel it as
      long as it is active, only a requested ride can find no driver, and asking for the current status
      changes nothing. */
  lemma MovesExactly(s: State, to: Status, now: int)
    ensures Moved(s, to, now).Some? <==>
              || to == s.status
              || (s.status, to) in FORWARD
              || (s.IsActive() && to in {CancelledByPassenger, CancelledByDriver})
              || (s.status == Requested && to == NoDriverFound)
    ensures to == s.status ==> Moved(s, to, now) == Some(s)
    ensures to != s.status && Moved(s, to, now).Some? ==>
              Moved(s, to, now).value.status == to
              && Moved(s, to, now).value.history == s.history + [Entry(s.status, to, now)]
  {
  }
}
