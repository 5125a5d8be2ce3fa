/** The outbox repository, the delivery loop and the reconciliation loop as they run
    (`capability_projection_repository.py`, `capability_projection.py`), and the two places that
    derive a driver's status. */
module CapabilityProjection {
  import opened Prelude
  import opened Outbox

  // ---------------------------------------------------------------- which status a driver has

  datatype ProfileStatus = PendingVerification | Active | Suspended | Offline
  datatype KycStatus = KycPending | KycApproved | KycRejected
  datatype VehicleStatus = VehiclePending | VehicleActive | VehicleSuspended | VehicleRejected
  datatype Vehicle = Vehicle(status: VehicleStatus, active: bool)

  /** `_operational_status`: published when the profile or the vehicle changes. */
  function OperationalStatus(profile: ProfileStatus, kyc: KycStatus, vehicle: Option<Vehicle>): Content {
    if kyc.KycRejected? then Content("kyc_rejected", ["resubmit_kyc"])
    else if profile.PendingVerification? then Content("pending_verification", ["await_kyc_review"])
    else if profile.Suspended? then Content("suspended", ["contact_support"])
    else if vehicle.None? then Content("vehicle_missing", ["add_vehicle"])
    else if vehicle.value.status.VehiclePending? then Content("vehicle_pending_verification", ["await_vehicle_review"])
    else if vehicle.value.status.VehicleRejected? then Content("vehicle_rejected", ["resubmit_vehicle"])
    else if !vehicle.value.status.VehicleActive? || !vehicle.value.active
        then Content("vehicle_unavailable", ["contact_support"])
    else Content("offline", ["go_online"])
  }

  /** `_candidate_status`: recomputed from a joined row by the reconciliation. */
  function CandidateStatus(profile: ProfileStatus, kyc: KycStatus, vehicleStatus: Option<VehicleStatus>,
    vehicleActive: Option<bool>): Content {
    if kyc.KycRejected? then Content("kyc_rejected", ["resubmit_kyc"])
    else if profile.PendingVerification? then Content("pending_verification", ["await_kyc_review"])
    else if profile.Suspended? then Content("suspended", ["contact_support"])
    else if vehicleStatus.None? then Content("vehicle_missing", ["add_vehicle"])
    else if vehicleStatus.value.VehiclePending? then Content("vehicle_pending_verification", ["await_vehicle_review"])
    else if vehicleStatus.value.VehicleRejected? then Content("vehicle_rejected", ["resubmit_vehicle"])
    else if !vehicleStatus.value.VehicleActive? || vehicleActive != Some(true)
        then Content("vehicle_unavailable", ["contact_support"])
    else Content("offline", ["go_online"])
  }

  /** `find_active_for_driver`, for a driver with at most one active vehicle. */
  function ActiveVehicle(vehicles: seq<Vehicle>): Option<Vehicle> {
    match Find(vehicles, (v: Vehicle) => v.active)
    case None => None
    case Some(i) => Some(vehicles[i])
  }

  /** The lateral join of `list_candidates`: active vehicles first, then the newest. */
  function JoinedVehicle(vehicles: seq<Vehicle>): Option<Vehicle> {
    if ActiveVehicle(vehicles).Some? then ActiveVehicle(vehicles)
    else if |vehicles| == 0 then None
    else Some(vehicles[0])
  }

  function CandidateContent(profile: ProfileStatus, kyc: KycStatus, vehicles: seq<Vehicle>): Content {
    match JoinedVehicle(vehicles)
    case None => CandidateStatus(profile, kyc, None, None)
    case Some(v) => CandidateStatus(profile, kyc, Some(v.status), Some(v.active))
  }

  /** The profile alone decides the status. */
  predicate ProfileDecides(profile: ProfileStatus, kyc: KycStatus) {
    kyc.KycRejected? || profile.PendingVerification? || profile.Suspended?
  }

  /** The publisher and the reconciliation derive the same projection exactly when the profile decides,
      or the driver has an active vehicle, or no vehicle at all. A driver whose vehicles are all
      inactive is "vehicle missing" to one and "pending", "rejected" or "unavailable" to the other. */
  lemma PublisherAndReconciliationAgree(profile: ProfileStatus, kyc: KycStatus, vehicles: seq<Vehicle>)
    ensures OperationalStatus(profile, kyc, ActiveVehicle(vehicles)) == CandidateContent(profile, kyc, vehicles)
            <==> ProfileDecides(profile, kyc) || ActiveVehicle(vehicles).Some? || vehicles == []
  {
    var published := OperationalStatus(profile, kyc, ActiveVehicle(vehicles));
    var joined := CandidateContent(profile, kyc, vehicles);
    if !ProfileDecides(profile, kyc) && ActiveVehicle(vehicles).None? && vehicles != [] {
      assert published.actions == ["add_vehicle"];
      assert joined.actions[0] in {"await_vehicle_review", "resubmit_vehicle", "contact_support"};
      assert "add_vehicle" != "await_vehicle_review" by { assert "add_vehicle"[1] != "await_vehicle_review"[1]; }
      assert "add_vehicle" != "resubmit_vehicle" by { assert "add_vehicle"[0] != "resubmit_vehicle"[0]; }
      assert "add_vehicle" != "contact_support" by { assert "add_vehicle"[0] != "contact_support"[0]; }
    }
  }

  /** What a driver is told, in order of precedence: a rejected dossier, a profile that waits or is
      suspended, a missing vehicle, the vehicle's own review, and only then that the driver may go online. */
  lemma StatusesMean(profile: ProfileStatus, kyc: KycStatus, vehicle: Option<Vehicle>)
    ensures var c := OperationalStatus(profile, kyc, vehicle);
            if kyc == KycRejected then c == Content("kyc_rejected", ["resubmit_kyc"])
            else if profile == PendingVerification then c == Content("pending_verification", ["await_kyc_review"])
            else if profile == Suspended then c == Content("suspended", ["contact_support"])
            else if vehicle == None then c == Content("vehicle_missing", ["add_vehicle"])
            else VehicleTold(vehicle.value, c)
  {
  }

  /** A driver is offered to go online exactly when nothing stands in the way. */
  lemma OnlineOfferedExactlyWhen(profile: ProfileStatus, kyc: KycStatus, vehicle: Option<Vehicle>)
    ensures OperationalStatus(profile, kyc, vehicle) == Content("offline", ["go_online"]) <==>
              && kyc != KycRejected && profile in {Active, Offline}
              && vehicle == Some(Vehicle(VehicleActive, true))
  {
    var c := OperationalStatus(profile, kyc, vehicle);
    assert c.actions == ["go_online"] || c.actions[0][0] != "go_online"[0];
  }

  /** The reconciliation tells a driver what the publisher would about the first active vehicle, or about the
      newest where none is active. */
  lemma ReconciliationReadsNewest(profile: ProfileStatus, kyc: KycStatus, vehicles: seq<Vehicle>, i: nat)
    requires i < |vehicles| ==> vehicles[i].active && forall k | 0 <= k < i :: !vehicles[k].active
    requires i >= |vehicles| ==> forall k | 0 <= k < |vehicles| :: !vehicles[k].active
    ensures CandidateContent(profile, kyc, vehicles)
         == OperationalStatus(profile, kyc,
              if i < |vehicles| then Some(vehicles[i]) else if vehicles != [] then Some(vehicles[0]) else None)
  {
    if ActiveVehicle(vehicles).Some? {
      var k := Find(vehicles, (v: Vehicle) => v.active).value;
      assert vehicles[k].active;
    }
  }

  predicate VehicleTold(v: Vehicle, c: Content) {
    && (v.status == VehiclePending ==> c == Content("vehicle_pending_verification", ["await_vehicle_review"]))
    && (v.status == VehicleRejected ==> c == Content("vehicle_rejected", ["resubmit_vehicle"]))
    && (v.status == VehicleSuspended ==> c == Content("vehicle_unavailable", ["contact_support"]))
    && (v.status == VehicleActive ==>
          c == if v.active then Content("offline", ["go_online"])
               else Content("vehicle_unavailable", ["contact_support"]))
  }

  // ---------------------------------------------------------------- repository

  class Repository {
    var states: map<Id, State>
    var rows: map<EventId, Row>

    function Tables(): Box
      reads this
    {
      Box(states, rows)
    }

    constructor ()
      ensures Tables() == EMPTY_BOX
    {
      states, rows := map[], map[];
    }

    method EnqueueProjection(user: Id, status: string, actions: seq<string>, now: nat) returns (event: Option<EventId>)
      modifies this
      ensures Tables() == Enqueue(old(Tables()), user, status, actions, now)
      ensures event.None? <==> Known(StateOf(old(Tables()), user), Content(status, Dedup(actions)))
      ensures event.Some? ==> states[user].lastEvent == event
    {
      if user !in states {
        states := states[user := NEW_STATE];
      }
      var state := states[user];
      var normalized := Dedup(actions);
      if state.desired == Some(Content(status, normalized)) && state.lastEvent.Some? {
        assert states[user := state] == states;
        return None;
      }
      var version := state.version + 1;
      var id := EventId(user, version);
      rows := rows[id := Row(Content(status, normalized), Pending, 0, now, None, None, None)];
      state := state.(version := version);
      state := state.(desired := Some(Content(status, normalized)));
      state := state.(lastEvent := Some(id));
      state := state.(sync := Pending);
      state := state.(lastError := None);
      states := states[user := state];
      event := Some(id);
    }

    method MarkSucceeded(id: EventId, p: Policy, now: nat)
      requires id in rows && id.user in states
      modifies this
      ensures Tables() == Mark(old(Tables()), id, Delivered, p, now)
    {
      var row := rows[id];
      row := row.(status := Succeeded, attempts := row.attempts + 1);
      row := row.(lastAttemptAt := Some(now), deliveredAt := Some(now), lastError := None);
      rows := rows[id := row];
      var state := states[id.user];
      if state.lastEvent == Some(id) {
        states := states[id.user := state.(sync := Succeeded, lastSucceededAt := Some(now), lastError := None)];
      }
    }

    method MarkRetry(id: EventId, nextAttemptAt: nat, error: string, ghost p: Policy, now: nat)
      requires id in rows && id.user in states && nextAttemptAt == now + Delay(p, rows[id].attempts)
      modifies this
      ensures Tables() == Mark(old(Tables()), id, OtherFailure(error), p, now)
    {
      var row := rows[id];
      row := row.(status := Retry, attempts := row.attempts + 1);
      row := row.(lastAttemptAt := Some(now), nextAttemptAt := nextAttemptAt, lastError := Some(error));
      rows := rows[id := row];
      var state := states[id.user];
      if state.lastEvent == Some(id) {
        states := states[id.user := state.(sync := Retry, lastError := Some(error))];
      }
    }

    method Park(id: EventId, status: Status, error: string, ghost p: Policy, now: nat)
      requires id in rows && id.user in states && status in {Conflict, DeadLetter}
      modifies this
      ensures Tables() == Mark(old(Tables()), id, if status.Conflict? then ConflictReply(error)
          else NotFoundReply(error), p, now)
    {
      var row := rows[id];
      row := row.(status := status, attempts := row.attempts + 1);
      row := row.(lastAttemptAt := Some(now), lastError := Some(error));
      rows := rows[id := row];
      var state := states[id.user];
      if state.lastEvent == Some(id) {
        states := states[id.user := state.(sync := status, lastError := Some(error))];
      }
    }

    /** `users` are the stale states the query selected. */
    method ScheduleStaleRefresh(users: seq<Id>, now: nat) returns (refreshed: nat)
      modifies this
      ensures (Tables(), refreshed) == RefreshAll(old(Tables()), users, now)
    {
      refreshed := 0;
      for i := 0 to |users|
        invariant (Tables(), refreshed) == RefreshAll(old(Tables()), users[..i], now)
      {
        assert users[..i + 1][..i] == users[..i];
        var user := users[i];
        if Refreshable(Tables(), user) {
          var state := states[user];
          var id := state.lastEvent.value;
          rows := rows[id := rows[id].(status := Pending, nextAttemptAt := now)];
          states := states[user := state.(sync := Pending)];
          refreshed := refreshed + 1;
        }
      }
      assert users[..|users|] == users;
    }
  }

  // ---------------------------------------------------------------- delivery loop

  /** What `list_due` may return: due rows, once each, earliest first, the batch filled when it can be. */
  ghost predicate DueBatch(o: Box, batch: seq<EventId>, now: nat, limit: nat) {
    && |batch| <= limit
    && (forall i | 0 <= i < |batch| :: Due(o, batch[i], now))
    && (forall i, j | 0 <= i < j < |batch| ::
        batch[i] != batch[j] && o.rows[batch[i]].nextAttemptAt <= o.rows[batch[j]].nextAttemptAt)
    && (|batch| < limit ==> forall id | Due(o, id, now) :: id in batch)
  }

  /** The tables after the first `|batch|` deliveries were reported. */
  function Deliveries(o: Box, batch: seq<EventId>, replies: map<EventId, Reply>, p: Policy, now: nat): Box {
    if |batch| == 0 then o
    else
      var before := Deliveries(o, batch[..|batch| - 1], replies, p, now);
      var id := batch[|batch| - 1];
      if id in before.rows && id.user in before.states && id in replies then Mark(before, id, replies[id], p, now)
          else before
  }

  method DeliverOne(repo: Repository, id: EventId, reply: Reply, p: Policy, now: nat)
    requires id in repo.rows && id.user in repo.states
    modifies repo
    ensures repo.Tables() == Mark(old(repo.Tables()), id, reply, p, now)
  {
    match reply
    case Delivered =>
      repo.MarkSucceeded(id, p, now);
    case ConflictReply(text) =>
      repo.Park(id, Conflict, text, p, now);
    case NotFoundReply(text) =>
      repo.Park(id, DeadLetter, text, p, now);
    case OtherFailure(text) =>
      var delay := Min(p.base * Pow2(Min(repo.rows[id].attempts, 8)), p.max);
      repo.MarkRetry(id, now + delay, text, p, now);
  }

  /** Every listed row exists, has a state, and got an answer. */
  ghost predicate Answered(o: Box, batch: seq<EventId>, replies: map<EventId, Reply>) {
    forall i | 0 <= i < |batch| :: batch[i] in o.rows && batch[i].user in o.states && batch[i] in replies
  }

  /** Every listed row exists and has a state, which is what the query and its locks give. */
  ghost predicate Listed(o: Box, batch: seq<EventId>) {
    forall i | 0 <= i < |batch| :: batch[i] in o.rows && batch[i].user in o.states
  }

  /** A delivery without a reply is an exception other than the client's own: it escapes the loop, and the
      rows after it are not tried. `None` is that exception. */
  method DeliverDue(repo: Repository, batch: seq<EventId>, replies: map<EventId, Reply>, p: Policy, now: nat)
    returns (delivered: Option<nat>)
    requires Listed(repo.Tables(), batch)
    modifies repo
    ensures delivered.Some? <==> forall i | 0 <= i < |batch| :: batch[i] in replies
    ensures delivered.Some? ==>
              delivered.value == |batch| && repo.Tables() == Deliveries(old(repo.Tables()), batch, replies, p, now)
  {
    ghost var start := repo.Tables();
    for i := 0 to |batch|
      invariant repo.Tables() == Deliveries(start, batch[..i], replies, p, now)
      invariant repo.rows.Keys == start.rows.Keys && repo.states.Keys == start.states.Keys
      invariant forall k | 0 <= k < i :: batch[k] in replies
    {
      assert batch[..i + 1][..i] == batch[..i];
      if batch[i] !in replies {
        return None;
      }
      DeliverOne(repo, batch[i], replies[batch[i]], p, now);
    }
    assert batch[..|batch|] == batch;
    delivered := Some(|batch|);
  }

  /** The worker's pass with its session: an escaping exception undoes every mark of the pass, although the
      events before it were delivered. */
  method DeliverInSession(repo: Repository, batch: seq<EventId>, replies: map<EventId, Reply>, p: Policy, now: nat)
    returns (delivered: Option<nat>)
    requires Listed(repo.Tables(), batch)
    modifies repo
    ensures delivered.Some? <==> forall i | 0 <= i < |batch| :: batch[i] in replies
    ensures repo.Tables() == if delivered.Some? then Deliveries(old(repo.Tables()), batch, replies, p, now)
        else old(repo.Tables())
  {
    var states, rows := repo.states, repo.rows;
    delivered := DeliverDue(repo, batch, replies, p, now);
    if delivered.None? {
      repo.states, repo.rows := states, rows;
    }
  }

  /** A due batch of a reachable outbox only needs the receiver's answers. */
  lemma DueBatchIsAnswered(o: Box, batch: seq<EventId>, replies: map<EventId, Reply>, now: nat, limit: nat)
    requires WellKept(o) && DueBatch(o, batch, now, limit)
    requires forall i | 0 <= i < |batch| :: batch[i] in replies
    ensures Answered(o, batch, replies)
  {
    forall i | 0 <= i < |batch| ensures batch[i] in o.rows && batch[i].user in o.states {
      assert Due(o, batch[i], now);
    }
  }

  /** A delivery pass reports each listed row exactly once, by its own reply and its own attempt count,
      and touches no other row. */
  lemma {:induction false} PassTouchesBatchOnce(o: Box, batch: seq<EventId>, replies: map<EventId, Reply>, p: Policy,
    now: nat, id: EventId)
    requires Answered(o, batch, replies)
    requires forall i, j | 0 <= i < j < |batch| :: batch[i] != batch[j]
    requires id in o.rows
    ensures var r := Deliveries(o, batch, replies, p, now);
            && r.rows.Keys == o.rows.Keys && r.states.Keys == o.states.Keys
            && r.rows[id] == if id in batch then Attempted(o.rows[id], replies[id], p, now) else o.rows[id]
  {
    if |batch| > 0 {
      var early := batch[..|batch| - 1];
      PassTouchesBatchOnce(o, early, replies, p, now, id);
      assert batch == early + [batch[|batch| - 1]];
    }
  }

  /** With a positive backoff, nothing a pass listed is still due at the end of the pass. */
  lemma PassLeavesNothingDue(o: Box, batch: seq<EventId>, replies: map<EventId, Reply>, p: Policy, now: nat,
    limit: nat, id: EventId)
    requires WellKept(o) && DueBatch(o, batch, now, limit) && p.base > 0 && p.max > 0
    requires forall i | 0 <= i < |batch| :: batch[i] in replies
    requires id in batch
    ensures !Due(Deliveries(o, batch, replies, p, now), id, now)
  {
    DueBatchIsAnswered(o, batch, replies, now, limit);
    PassTouchesBatchOnce(o, batch, replies, p, now, id);
    BackoffGrows(p, o.rows[id].attempts, o.rows[id].attempts);
  }

  // ---------------------------------------------------------------- reconciliation loop

  datatype Candidate = Candidate(user: Id, content: Content)

  /** A driver currently online is not reported offline. */
  function Adjusted(c: Candidate, online: set<Id>): Content {
    if c.content.status == "offline" && c.user in online then Content("online", ["go_offline"]) else c.content
  }

  function EnqueueAll(o: Box, candidates: seq<Candidate>, online: set<Id>, now: nat): (Box, nat) {
    if |candidates| == 0 then (o, 0)
    else
      var (before, n) := EnqueueAll(o, candidates[..|candidates| - 1], online, now);
      var c := candidates[|candidates| - 1];
      var content := Adjusted(c, online);
      var known := Known(StateOf(before, c.user), Content(content.status, Dedup(content.actions)));
      (Enqueue(before, c.user, content.status, content.actions, now), if known then n else n + 1)
  }

  method Reconcile(repo: Repository, candidates: seq<Candidate>, online: set<Id>, stale: seq<Id>, now: nat)
    returns (enqueued: nat, refreshed: nat)
    modifies repo
    ensures var (filled, n) := EnqueueAll(old(repo.Tables()), candidates, online, now);
            enqueued == n && (repo.Tables(), refreshed) == RefreshAll(filled, stale, now)
  {
    enqueued := 0;
    for i := 0 to |candidates|
      invariant (repo.Tables(), enqueued) == EnqueueAll(old(repo.Tables()), candidates[..i], online, now)
    {
      assert candidates[..i + 1][..i] == candidates[..i];
      var status, actions := candidates[i].content.status, candidates[i].content.actions;
      if status == "offline" && candidates[i].user in online {
        status, actions := "online", ["go_offline"];
      }
      var event := repo.EnqueueProjection(candidates[i].user, status, actions, now);
      if event.Some? {
        enqueued := enqueued + 1;
      }
    }
    assert candidates[..|candidates|] == candidates;
    refreshed := repo.ScheduleStaleRefresh(stale, now);
  }

  function Wanted(c: Candidate, online: set<Id>): Content {
    Content(Adjusted(c, online).status, Dedup(Adjusted(c, online).actions))
  }

  ghost predicate OneEach(candidates: seq<Candidate>) {
    forall i, j | 0 <= i < j < |candidates| :: candidates[i].user != candidates[j].user
  }

  /** After a reconciliation of distinct drivers, each one's desired projection is its computed status. */
  lemma {:induction false} ReconciliationSetsDesired(o: Box, candidates: seq<Candidate>, online: set<Id>, now: nat,
    k: nat)
    requires OneEach(candidates) && k < |candidates|
    ensures Known(StateOf(EnqueueAll(o, candidates, online, now).0, candidates[k].user), Wanted(candidates[k], online))
  {
    var n := |candidates| - 1;
    if k < n {
      ReconciliationSetsDesired(o, candidates[..n], online, now, k);
      assert candidates[k].user != candidates[n].user;
    }
  }

  lemma {:induction false} KnownCandidatesAreQuiet(o: Box, candidates: seq<Candidate>, online: set<Id>, now: nat)
    requires forall k | 0 <= k < |candidates| ::
              candidates[k].user in o.states && Known(o.states[candidates[k].user], Wanted(candidates[k], online))
    ensures EnqueueAll(o, candidates, online, now) == (o, 0)
  {
    if |candidates| > 0 {
      var n := |candidates| - 1;
      KnownCandidatesAreQuiet(o, candidates[..n], online, now);
      assert Known(o.states[candidates[n].user], Wanted(candidates[n], online));
      assert o.states[candidates[n].user := o.states[candidates[n].user]] == o.states;
    }
  }

  /** After a reconciliation a driver whose status computes to offline is projected online, able to go
      offline, exactly while present; every other status is projected as computed. */
  lemma OnlineDriversStayOnline(o: Box, candidates: seq<Candidate>, online: set<Id>, now: nat, k: nat)
    requires OneEach(candidates) && k < |candidates|
    ensures var c := candidates[k]; var s := StateOf(EnqueueAll(o, candidates, online, now).0, c.user);
            s.desired == Some(
              if c.content.status == "offline" && c.user in online then Content("online", ["go_offline"])
              else Content(c.content.status, Dedup(c.content.actions)))
  {
    ReconciliationSetsDesired(o, candidates, online, now, k);
    DedupLaws(["go_offline"]);
  }

  /** The reconciliation reports exactly the number of events it added. */
  lemma {:induction false} EnqueuedIsCounted(o: Box, candidates: seq<Candidate>, online: set<Id>, now: nat)
    requires WellKept(o)
    ensures var (r, n) := EnqueueAll(o, candidates, online, now);
            WellKept(r) && |r.rows| == |o.rows| + n && o.rows.Keys <= r.rows.Keys
  {
    if |candidates| > 0 {
      var k := |candidates| - 1;
      EnqueuedIsCounted(o, candidates[..k], online, now);
      var before, content := EnqueueAll(o, candidates[..k], online, now).0, Adjusted(candidates[k], online);
      EnqueueKeeps(before, candidates[k].user, content.status, content.actions, now);
      EnqueueAddsOneRow(before, candidates[k].user, content.status, content.actions, now);
    }
  }

  /** Reconciling the same drivers again enqueues nothing. */
  lemma ReconciliationSettles(o: Box, candidates: seq<Candidate>, online: set<Id>, now: nat, later: nat)
    requires OneEach(candidates)
    ensures var once := EnqueueAll(o, candidates, online, now).0;
            EnqueueAll(once, candidates, online, later) == (once, 0)
  {
    var once := EnqueueAll(o, candidates, online, now).0;
    forall k | 0 <= k < |candidates|
      ensures candidates[k].user in once.states && Known(once.states[candidates[k].user], Wanted(candidates[k], online))
    {
      ReconciliationSetsDesired(o, candidates, online, now, k);
    }
    KnownCandidatesAreQuiet(once, candidates, online, later);
  }
}
