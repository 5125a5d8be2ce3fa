/** The driver-capability outbox tables and what each repository call does to them
    (`ride/infra/capability_projection_repository.py`). */
module Outbox {
  import opened Prelude

  /** A projection as sent to DiddiFreeID. */
  datatype Content = Content(status: string, actions: seq<string>)

  datatype Status = Pending | Retry | Succeeded | Conflict | DeadLetter

  /** The unique pair (user_id, projection_version), which is also inside `event_id`. */
  datatype EventId = EventId(user: Id, version: nat)

  datatype Row = Row(
    content: Content, status: Status, attempts: nat, nextAttemptAt: nat, lastAttemptAt: Option<nat>,
    deliveredAt: Option<nat>, lastError: Option<string>)

  datatype State = State(
    version: nat, desired: Option<Content>, lastEvent: Option<EventId>, sync: Status,
    lastSucceededAt: Option<nat>, lastError: Option<string>)

  datatype Box = Box(states: map<Id, State>, rows: map<EventId, Row>)

  const EMPTY_BOX := Box(map[], map[])
  const NEW_STATE := State(0, None, None, Pending, None, None)

  /** `list(dict.fromkeys(actions))`: first occurrences, in order. */
  function Dedup(actions: seq<string>): seq<string> {
    if |actions| == 0 then []
    else
      var early := Dedup(actions[..|actions| - 1]);
      var last := actions[|actions| - 1];
      if last in early then early else early + [last]
  }

  function StateOf(o: Box, user: Id): State {
    if user in o.states then o.states[user] else NEW_STATE
  }

  predicate Known(s: State, content: Content) {
    s.desired == Some(content) && s.lastEvent.Some?
  }

  /** `enqueue`: nothing new when the desired content is already the latest event. */
  function Enqueue(o: Box, user: Id, status: string, actions: seq<string>, now: nat): Box {
    var s := StateOf(o, user);
    var content := Content(status, Dedup(actions));
    if Known(s, content) then o.(states := o.states[user := s])
    else
      var id := EventId(user, s.version + 1);
      Box(o.states[user := s.(version := s.version + 1, desired := Some(content), lastEvent := Some(id), sync :=
          Pending, lastError := None)],
          o.rows[id := Row(content, Pending, 0, now, None, None, None)])
  }

  predicate Waiting(s: Status) {
    s in {Pending, Retry}
  }

  predicate Due(o: Box, id: EventId, now: nat) {
    id in o.rows && Waiting(o.rows[id].status) && o.rows[id].nextAttemptAt <= now
  }

  /** What the receiver answered to one delivery. */
  datatype Reply = Delivered | ConflictReply(text: string) | NotFoundReply(text: string) | OtherFailure(text: string)

  function ReplyError(r: Reply): Option<string> {
    match r
    case Delivered => None
    case ConflictReply(t) => Some(t)
    case NotFoundReply(t) => Some(t)
    case OtherFailure(t) => Some(t)
  }

  datatype Policy = Policy(base: nat, max: nat)

  function Pow2(n: nat): nat {
    if n == 0 then 1 else 2 * Pow2(n - 1)
  }

  /** Exponential backoff in seconds, doubling at most eight times and capped. */
  function Delay(p: Policy, attempts: nat): nat {
    Min(p.base * Pow2(Min(attempts, 8)), p.max)
  }

  function NewStatus(r: Reply): Status {
    match r
    case Delivered => Succeeded
    case ConflictReply(_) => Conflict
    case NotFoundReply(_) => DeadLetter
    case OtherFailure(_) => Retry
  }

  function Attempted(row: Row, r: Reply, p: Policy, now: nat): Row {
    var tried := row.(status := NewStatus(r), attempts := row.attempts + 1, lastAttemptAt := Some(now), lastError :=
        ReplyError(r));
    match r
    case Delivered => tried.(deliveredAt := Some(now))
    case OtherFailure(_) => tried.(nextAttemptAt := now + Delay(p, row.attempts))
    case _ => tried
  }

  /** `mark_succeeded` / `mark_retry` / `mark_conflict` / `mark_dead_letter`: the row always moves, the
      user's state only when the row is its latest event. */
  function Mark(o: Box, id: EventId, r: Reply, p: Policy, now: nat): Box
    requires id in o.rows && id.user in o.states
  {
    var s := o.states[id.user];
    Box(if s.lastEvent == Some(id) then
          o.states[id.user := s.(sync := NewStatus(r), lastError := ReplyError(r),
                                 lastSucceededAt := if r.Delivered? then Some(now) else s.lastSucceededAt)]
        else o.states,
        o.rows[id := Attempted(o.rows[id], r, p, now)])
  }

  predicate Stale(o: Box, user: Id, before: nat) {
    user in o.states && o.states[user].sync.Succeeded? && o.states[user].lastSucceededAt.Some?
    && o.states[user].lastSucceededAt.value <= before
  }

  predicate Refreshable(o: Box, user: Id) {
    user in o.states && o.states[user].lastEvent.Some? && o.states[user].lastEvent.value in o.rows
  }

  /** One state of `schedule_stale_refresh`. */
  function Refresh(o: Box, user: Id, now: nat): Box {
    if !Refreshable(o, user) then o
    else
      var id := o.states[user].lastEvent.value;
      Box(o.states[user := o.states[user].(sync := Pending)],
          o.rows[id := o.rows[id].(status := Pending, nextAttemptAt := now)])
  }

  /** The whole refresh of a selection of users, with the number refreshed. */
  function RefreshAll(o: Box, users: seq<Id>, now: nat): (Box, nat) {
    if |users| == 0 then (o, 0)
    else
      var (before, n) := RefreshAll(o, users[..|users| - 1], now);
      var user := users[|users| - 1];
      (Refresh(before, user, now), if Refreshable(before, user) then n + 1 else n)
  }

  // ---------------------------------------------------------------- structure

  /** The user's newest row is the last event, holds the desired content, and its status is the
      user's sync status. */
  predicate Latest(o: Box, u: Id)
    requires u in o.states
  {
    var s := o.states[u];
    var id := EventId(u, s.version);
    s.version >= 1 && s.lastEvent == Some(id) && id in o.rows
    && s.desired == Some(o.rows[id].content) && s.sync == o.rows[id].status
  }

  /** The user's rows carry versions exactly 1..version. */
  ghost predicate Versions(o: Box, u: Id)
    requires u in o.states
  {
    forall v: nat :: EventId(u, v) in o.rows <==> 1 <= v <= o.states[u].version
  }

  predicate Differs(o: Box, u: Id, v: nat) {
    EventId(u, v) in o.rows && EventId(u, v + 1) in o.rows ==>
      o.rows[EventId(u, v)].content != o.rows[EventId(u, v + 1)].content
  }

  ghost predicate UserKept(o: Box, u: Id)
    requires u in o.states
  {
    Latest(o, u) && Versions(o, u) && forall v: nat :: Differs(o, u, v)
  }

  /** No row without a state, and for every user: versions exactly 1..version, neighbouring versions
      differ in content, and the state mirrors the newest row. */
  ghost predicate WellKept(o: Box) {
    (forall id | id in o.rows :: id.user in o.states) && forall u | u in o.states :: UserKept(o, u)
  }

  lemma EnqueueKeepsUser(o: Box, user: Id, status: string, actions: seq<string>, now: nat)
    requires user in o.states ==> UserKept(o, user)
    requires user !in o.states ==> forall id | id in o.rows :: id.user != user
    ensures UserKept(Enqueue(o, user, status, actions, now), user)
  {
    var s := StateOf(o, user);
    var content := Content(status, Dedup(actions));
    var r := Enqueue(o, user, status, actions, now);
    if Known(s, content) {
      assert r == o;
    } else {
      forall v: nat ensures Differs(r, user, v) {
        if user in o.states {
          assert Differs(o, user, v);
        }
      }
    }
  }

  lemma OtherUserKept(o: Box, r: Box, u: Id)
    requires u in o.states && u in r.states && UserKept(o, u) && r.states[u] == o.states[u]
    requires forall v: nat :: EventId(u, v) in r.rows <==> EventId(u, v) in o.rows
    requires forall v: nat | EventId(u, v) in o.rows :: r.rows[EventId(u, v)] == o.rows[EventId(u, v)]
    ensures UserKept(r, u)
  {
    forall v: nat ensures Differs(r, u, v) { assert Differs(o, u, v); }
  }

  lemma EnqueueKeeps(o: Box, user: Id, status: string, actions: seq<string>, now: nat)
    requires WellKept(o)
    ensures WellKept(Enqueue(o, user, status, actions, now))
  {
    var r := Enqueue(o, user, status, actions, now);
    forall u | u in r.states ensures UserKept(r, u) {
      if u == user {
        EnqueueKeepsUser(o, user, status, actions, now);
      } else {
        OtherUserKept(o, r, u);
      }
    }
  }

  /** A new version never collides with a stored one. */
  lemma NewVersionIsFree(o: Box, user: Id)
    requires WellKept(o)
    ensures EventId(user, StateOf(o, user).version + 1) !in o.rows
  {
    if user in o.states {
      assert UserKept(o, user);
    }
  }

  /** Changing a row's status, and the state's with it when the row is the latest event. */
  lemma RowMoves(o: Box, r: Box, id: EventId)
    requires WellKept(o) && id in o.rows && r.rows.Keys == o.rows.Keys && r.states.Keys == o.states.Keys
    requires r.rows == o.rows[id := r.rows[id]] && r.rows[id].content == o.rows[id].content
    requires r.states == o.states[id.user := r.states[id.user]]
    requires var s := o.states[id.user];
             r.states[id.user].(sync := s.sync, lastError := s.lastError, lastSucceededAt := s.lastSucceededAt) == s
             && r.states[id.user].sync == if s.lastEvent == Some(id) then r.rows[id].status else s.sync
    ensures WellKept(r)
  {
    forall u | u in r.states ensures UserKept(r, u) {
      assert UserKept(o, u);
      forall v: nat ensures Differs(r, u, v) { assert Differs(o, u, v); }
    }
  }

  lemma MarkKeeps(o: Box, id: EventId, r: Reply, p: Policy, now: nat)
    requires WellKept(o) && id in o.rows
    ensures WellKept(Mark(o, id, r, p, now))
  {
    RowMoves(o, Mark(o, id, r, p, now), id);
  }

  lemma RefreshKeeps(o: Box, user: Id, now: nat)
    requires WellKept(o)
    ensures WellKept(Refresh(o, user, now))
  {
    if Refreshable(o, user) {
      assert UserKept(o, user);
      RowMoves(o, Refresh(o, user, now), o.states[user].lastEvent.value);
    }
  }

  /** A report about an older event leaves the user's state alone. */
  lemma OlderReportsAreSilent(o: Box, id: EventId, r: Reply, p: Policy, now: nat)
    requires WellKept(o) && id in o.rows && id.version < o.states[id.user].version
    ensures Mark(o, id, r, p, now).states == o.states
  {
    assert UserKept(o, id.user);
  }

  predicate Parked(o: Box, id: EventId) {
    id in o.rows && o.rows[id].status in {Conflict, DeadLetter}
  }

  /** In a reachable state only a synchronised user is stale, so refreshing never revives a parked row. */
  lemma RefreshSparesParked(o: Box, user: Id, before: nat, now: nat, id: EventId)
    requires WellKept(o) && Stale(o, user, before) && Parked(o, id)
    ensures Refresh(o, user, now).rows[id] == o.rows[id]
  {
    assert UserKept(o, user);
  }

  // ---------------------------------------------------------------- action lists and backoff

  ghost predicate NoRepeats(s: seq<string>) {
    forall i, j | 0 <= i < j < |s| :: s[i] != s[j]
  }

  /** Normalising keeps exactly the actions asked for, once each, and is idempotent. */
  lemma {:induction false} DedupLaws(actions: seq<string>)
    ensures NoRepeats(Dedup(actions))
    ensures forall a :: a in Dedup(actions) <==> a in actions
    ensures NoRepeats(actions) ==> Dedup(actions) == actions
  {
    if |actions| > 0 {
      var early, last := actions[..|actions| - 1], actions[|actions| - 1];
      DedupLaws(early);
      assert actions == early + [last];
      if NoRepeats(actions) {
        assert forall i | 0 <= i < |early| :: early[i] == actions[i];
      }
    }
  }

  /** `x` is asked for before `y` is first asked for. */
  ghost predicate AskedFirst(actions: seq<string>, x: string, y: string) {
    exists k | 0 <= k < |actions| :: actions[k] == x && y !in actions[..k + 1]
  }

  /** Normalising keeps the order of first mention. */
  lemma {:induction false} DedupKeepsOrder(actions: seq<string>, i: nat, j: nat)
    requires i < j < |Dedup(actions)|
    ensures AskedFirst(actions, Dedup(actions)[i], Dedup(actions)[j])
  {
    var n := |actions| - 1;
    var early, last := actions[..n], actions[n];
    var x, y := Dedup(actions)[i], Dedup(actions)[j];
    DedupLaws(early);
    if j < |Dedup(early)| {
      DedupKeepsOrder(early, i, j);
    } else {
      assert x in Dedup(early);
    }
    var k :| 0 <= k < |early| && early[k] == x && y !in early[..k + 1];
    assert actions[..k + 1] == early[..k + 1];
  }

  lemma {:induction false} Pow2Grows(m: nat, n: nat)
    requires m <= n
    ensures 1 <= Pow2(m) <= Pow2(n)
  {
    if n > 0 {
      if m == n {
        Pow2Grows(m - 1, n - 1);
      } else {
        Pow2Grows(m, n - 1);
      }
    }
  }

  /** Waiting times never shrink from one failure to the next, start at the base, and stop at the cap. */
  lemma BackoffGrows(p: Policy, m: nat, n: nat)
    requires m <= n
    ensures Min(p.base, p.max) == Delay(p, 0) <= Delay(p, m) <= Delay(p, n) <= p.max
    ensures n >= 8 ==> Delay(p, n) == Delay(p, 8)
  {
    Pow2Grows(0, Min(m, 8));
    Pow2Grows(Min(m, 8), Min(n, 8));
    Scale(p.base, Pow2(0), Pow2(Min(m, 8)));
    Scale(p.base, Pow2(Min(m, 8)), Pow2(Min(n, 8)));
  }

  /** The waiting time doubles with each failure until the cap, and no longer after the eighth. */
  lemma DelayDoubles(p: Policy, n: nat)
    ensures Delay(p, 0) == if p.base <= p.max then p.base else p.max
    ensures n < 8 ==> Delay(p, n + 1) == if 2 * Delay(p, n) <= p.max then 2 * Delay(p, n) else p.max
    ensures n >= 8 ==> Delay(p, n + 1) == Delay(p, n)
  {
    if n < 8 {
      assert Pow2(n + 1) == 2 * Pow2(n);
      assert p.base * Pow2(n + 1) == 2 * (p.base * Pow2(n));
    }
  }

  /** A new event is due at once, untried, with the status and the actions asked for. */
  lemma NewEventIsDue(o: Box, user: Id, status: string, actions: seq<string>, now: nat)
    requires !Known(StateOf(o, user), Content(status, Dedup(actions)))
    ensures var r := Enqueue(o, user, status, actions, now); var id := EventId(user, StateOf(o, user).version + 1);
            && Due(r, id, now) && r.rows[id].attempts == 0 && r.rows[id].status == Pending
            && r.rows[id].content == Content(status, Dedup(actions)) && r.states[user].lastEvent == Some(id)
            && r.states[user].lastError == None
  {
  }

  /** What each reply leaves: a delivery succeeds, a conflict and an unknown user are parked each in its
      own way, any other failure waits for its turn again; every reply counts as an attempt. */
  lemma RepliesMean(o: Box, id: EventId, r: Reply, p: Policy, now: nat)
    requires id in o.rows && id.user in o.states
    ensures var before, after := o.rows[id], Mark(o, id, r, p, now).rows[id];
            && after.attempts == before.attempts + 1 && after.lastAttemptAt == Some(now)
            && after.content == before.content
            && (match r
                case Delivered =>
                  after.status == Succeeded && after.deliveredAt == Some(now) && after.lastError == None
                case ConflictReply(text) => after.status == Conflict && after.lastError == Some(text)
                case NotFoundReply(text) => after.status == DeadLetter && after.lastError == Some(text)
                case OtherFailure(text) =>
                  after.status == Retry && after.lastError == Some(text)
                  && after.nextAttemptAt == now + Delay(p, before.attempts))
    ensures forall other | other in o.rows && other != id :: Mark(o, id, r, p, now).rows[other] == o.rows[other]
  {
  }

  /** A refreshed event is pending and due again. */
  lemma RefreshedIsDue(o: Box, user: Id, now: nat)
    requires WellKept(o) && user in o.states
    ensures var id := o.states[user].lastEvent; var r := Refresh(o, user, now);
            id.Some? && Due(r, id.value, now) && r.rows[id.value].status == Pending && r.states[user].sync == Pending
  {
    assert UserKept(o, user);
  }

  /** A user just synchronised is due for a refresh exactly once that success lies behind the cut-off; after
      any other report, or a new event, it is not. */
  lemma StaleExactlyWhen(o: Box, user: Id, r: Reply, p: Policy, now: nat, before: nat)
    requires WellKept(o) && user in o.states
    ensures var m := Mark(o, EventId(user, o.states[user].version), r, p, now);
            Stale(m, user, before) <==> r == Delivered && now <= before
    ensures o.states[user].sync != Succeeded ==> !Stale(o, user, before)
  {
    assert UserKept(o, user);
  }

  /** The user's newest event is due. */
  predicate NewestDue(o: Box, user: Id, now: nat) {
    user in o.states && Due(o, EventId(user, o.states[user].version), now)
  }

  lemma RefreshingMakesDue(o: Box, user: Id, now: nat)
    requires WellKept(o) && user in o.states
    ensures var r := Refresh(o, user, now);
            && Refreshable(o, user) && NewestDue(r, user, now)
            && (forall u | u in o.states :: u in r.states)
            && forall u | NewestDue(o, u, now) :: NewestDue(r, u, now)
  {
    assert UserKept(o, user);
  }

  lemma {:induction false} RefreshAllKeeps(o: Box, users: seq<Id>, now: nat)
    requires WellKept(o)
    ensures var r := RefreshAll(o, users, now).0; WellKept(r) && r.states.Keys == o.states.Keys
  {
    if |users| > 0 {
      var k := |users| - 1;
      RefreshAllKeeps(o, users[..k], now);
      RefreshKeeps(RefreshAll(o, users[..k], now).0, users[k], now);
    }
  }

  /** Refreshing known users counts every one of them, and each one's newest event is due again. */
  lemma {:induction false} AllStaleAreRefreshed(o: Box, users: seq<Id>, now: nat)
    requires WellKept(o) && forall u | u in users :: u in o.states
    ensures RefreshAll(o, users, now).1 == |users|
    ensures forall u | u in users :: NewestDue(RefreshAll(o, users, now).0, u, now)
  {
    if |users| > 0 {
      var k := |users| - 1;
      assert users == users[..k] + [users[k]];
      AllStaleAreRefreshed(o, users[..k], now);
      RefreshAllKeeps(o, users[..k], now);
      RefreshingMakesDue(RefreshAll(o, users[..k], now).0, users[k], now);
    }
  }

  /** A new event is one row more; what is already desired adds none. */
  lemma EnqueueAddsOneRow(o: Box, user: Id, status: string, actions: seq<string>, now: nat)
    requires WellKept(o)
    ensures var r := Enqueue(o, user, status, actions, now);
            && |r.rows| == |o.rows| + Flag(!Known(StateOf(o, user), Content(status, Dedup(actions))))
            && o.rows.Keys <= r.rows.Keys
  {
    NewVersionIsFree(o, user);
    var id := EventId(user, StateOf(o, user).version + 1);
    var r := Enqueue(o, user, status, actions, now);
    assert r.rows == o.rows || r.rows.Keys == o.rows.Keys + {id};
  }

  /** Enqueueing what is already desired changes nothing. */
  lemma EnqueueIsIdempotent(o: Box, user: Id, status: string, actions: seq<string>, now: nat, later: nat)
    ensures var once := Enqueue(o, user, status, actions, now); Enqueue(once, user, status, actions, later) == once
  {}
}
