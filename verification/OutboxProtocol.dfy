/** The outbox as a distributed protocol: workers read due rows, send, and mark; messages may be
    delivered any number of times, in any order, or never; a worker may crash before its commit. */
module OutboxProtocol {
  import opened Prelude
  import opened Outbox

  /** What the receiver holds for a user. */
  datatype Held = Held(version: nat, content: Content)

  datatype Message = Message(id: EventId, content: Content)

  /** `acked` are the deliveries some worker saw succeed; a crash may leave one without its mark. */
  datatype World = World(box: Box, sent: set<Message>, acked: set<EventId>, receiver: map<Id, Held>)

  const START := World(EMPTY_BOX, {}, {}, map[])

  datatype Step =
    | Publish(user: Id, status: string, actions: seq<string>)
    | Send(id: EventId)
    | Receive(message: Message, accepted: bool)
    | Report(reported: EventId, reply: Reply)
    | RefreshUser(staleUser: Id, before: nat)

  /** Environment assumption: the receiver keeps the content of the highest version it has seen, and a
      delivery it accepts has been seen. It may refuse any delivery. */
  function Kept(receiver: map<Id, Held>, m: Message): map<Id, Held> {
    if m.id.user in receiver && receiver[m.id.user].version >= m.id.version then receiver
    else receiver[m.id.user := Held(m.id.version, m.content)]
  }

  /** A worker holds the row lock from the read of the due list to its commit, so it only marks rows
      that are still waiting, and marks a success only after an accepted delivery. */
  predicate Enabled(w: World, s: Step) {
    match s
    case Publish(_, _, _) => true
    case Send(id) => id in w.box.rows && Waiting(w.box.rows[id].status)
    case Receive(m, _) => m in w.sent
    case Report(id, reply) => id in w.box.rows && Waiting(w.box.rows[id].status) && id.user in w.box.states
                              && (reply.Delivered? ==> id in w.acked)
    case RefreshUser(u, before) => Stale(w.box, u, before)
  }

  function Next(w: World, s: Step, p: Policy, now: nat): World
    requires Enabled(w, s)
  {
    match s
    case Publish(u, status, actions) => w.(box := Enqueue(w.box, u, status, actions, now))
    case Send(id) => w.(sent := w.sent + {Message(id, w.box.rows[id].content)})
    case Receive(m, accepted) =>
      if accepted then w.(receiver := Kept(w.receiver, m), acked := w.acked + {m.id}) else w
    case Report(id, reply) => w.(box := Mark(w.box, id, reply, p, now))
    case RefreshUser(u, _) => w.(box := Refresh(w.box, u, now))
  }

  datatype Event = Event(step: Step, policy: Policy, now: nat)

  /** A step that is not enabled does not happen. */
  function After(w: World, events: seq<Event>): World {
    if |events| == 0 then w
    else
      var before := After(w, events[..|events| - 1]);
      var e := events[|events| - 1];
      if Enabled(before, e.step) then Next(before, e.step, e.policy, e.now) else before
  }

  // ---------------------------------------------------------------- invariant

  predicate Faithful(w: World, m: Message) {
    m.id in w.box.rows && w.box.rows[m.id].content == m.content
  }

  /** The receiver never runs ahead of the outbox and holds a version's own content. */
  predicate HeldIsPublished(w: World, u: Id)
    requires u in w.receiver
  {
    var id := EventId(u, w.receiver[u].version);
    id in w.box.rows && w.box.rows[id].content == w.receiver[u].content
  }

  predicate Reached(w: World, id: EventId) {
    id.user in w.receiver && w.receiver[id.user].version >= id.version
  }

  ghost predicate Linked(w: World) {
    && WellKept(w.box)
    && (forall m | m in w.sent :: Faithful(w, m))
    && (forall u | u in w.receiver :: HeldIsPublished(w, u))
    && (forall id | id in w.acked :: Reached(w, id))
    && Confirmed(w.box, w.acked)
  }

  /** A row marked succeeded was acknowledged. */
  ghost predicate Confirmed(o: Box, acked: set<EventId>) {
    forall id | id in o.rows && o.rows[id].status.Succeeded? :: id in acked
  }

  lemma StartLinked()
    ensures Linked(START)
  {}

  /** Published rows keep their content. */
  ghost predicate Extends(o: Box, r: Box) {
    forall id | id in o.rows :: id in r.rows && r.rows[id].content == o.rows[id].content
  }

  lemma {:induction false} BoxMoves(w: World, r: World)
    requires Linked(w) && WellKept(r.box) && Extends(w.box, r.box)
    requires r.sent == w.sent && r.acked == w.acked && r.receiver == w.receiver
    requires Confirmed(r.box, w.acked)
    ensures Linked(r)
  {
    forall m | m in r.sent ensures Faithful(r, m) { assert Faithful(w, m); }
    forall u | u in r.receiver ensures HeldIsPublished(r, u) { assert HeldIsPublished(w, u); }
    forall id | id in r.acked ensures Reached(r, id) { assert Reached(w, id); }
  }

  lemma EnqueueExtends(o: Box, u: Id, status: string, actions: seq<string>, now: nat, acked: set<EventId>)
    requires EventId(u, StateOf(o, u).version + 1) !in o.rows && Confirmed(o, acked)
    ensures Extends(o, Enqueue(o, u, status, actions, now)) && Confirmed(Enqueue(o, u, status, actions, now), acked)
  {}

  lemma MarkExtends(o: Box, id: EventId, reply: Reply, p: Policy, now: nat, acked: set<EventId>)
    requires id in o.rows && id.user in o.states && Confirmed(o, acked) && (reply.Delivered? ==> id in acked)
    ensures Extends(o, Mark(o, id, reply, p, now)) && Confirmed(Mark(o, id, reply, p, now), acked)
  {}

  lemma RefreshExtends(o: Box, u: Id, now: nat, acked: set<EventId>)
    requires Confirmed(o, acked)
    ensures Extends(o, Refresh(o, u, now)) && Confirmed(Refresh(o, u, now), acked)
  {}

  lemma {:induction false} PublishKeepsLinked(w: World, u: Id, status: string, actions: seq<string>, now: nat)
    requires Linked(w)
    ensures Linked(w.(box := Enqueue(w.box, u, status, actions, now)))
  {
    var r := Enqueue(w.box, u, status, actions, now);
    EnqueueKeeps(w.box, u, status, actions, now);
    NewVersionIsFree(w.box, u);
    EnqueueExtends(w.box, u, status, actions, now, w.acked);
    BoxReplaced(w, r);
  }

  lemma BoxReplaced(w: World, o: Box)
    requires Linked(w) && WellKept(o) && Extends(w.box, o) && Confirmed(o, w.acked)
    ensures Linked(w.(box := o))
  {
    BoxMoves(w, w.(box := o));
  }

  lemma SendKeepsLinked(w: World, id: EventId)
    requires Linked(w) && id in w.box.rows
    ensures Linked(w.(sent := w.sent + {Message(id, w.box.rows[id].content)}))
  {
    var r := w.(sent := w.sent + {Message(id, w.box.rows[id].content)});
    forall m | m in r.sent ensures Faithful(r, m) { assert m in w.sent ==> Faithful(w, m); }
    forall u | u in r.receiver ensures HeldIsPublished(r, u) { assert HeldIsPublished(w, u); }
    forall a | a in r.acked ensures Reached(r, a) { assert Reached(w, a); }
  }

  lemma ReceiveKeepsLinked(w: World, m: Message)
    requires Linked(w) && m in w.sent
    ensures Linked(w.(receiver := Kept(w.receiver, m), acked := w.acked + {m.id}))
  {
    var r := w.(receiver := Kept(w.receiver, m), acked := w.acked + {m.id});
    assert Faithful(w, m);
    forall n | n in r.sent ensures Faithful(r, n) { assert Faithful(w, n); }
    forall u | u in r.receiver ensures HeldIsPublished(r, u) {
      if u in w.receiver { assert HeldIsPublished(w, u); }
    }
    forall a | a in r.acked ensures Reached(r, a) {
      if a in w.acked { assert Reached(w, a); }
    }
  }

  lemma {:induction false} ReportKeepsLinked(w: World, id: EventId, reply: Reply, p: Policy, now: nat)
    requires Linked(w) && id in w.box.rows && id.user in w.box.states && (reply.Delivered? ==> id in w.acked)
    ensures Linked(w.(box := Mark(w.box, id, reply, p, now)))
  {
    MarkKeeps(w.box, id, reply, p, now);
    MarkExtends(w.box, id, reply, p, now, w.acked);
    BoxReplaced(w, Mark(w.box, id, reply, p, now));
  }

  lemma {:induction false} RefreshKeepsLinked(w: World, u: Id, now: nat)
    requires Linked(w)
    ensures Linked(w.(box := Refresh(w.box, u, now)))
  {
    RefreshKeeps(w.box, u, now);
    RefreshExtends(w.box, u, now, w.acked);
    BoxReplaced(w, Refresh(w.box, u, now));
  }

  lemma {:induction false} StepKeepsLinked(w: World, s: Step, p: Policy, now: nat)
    requires Linked(w) && Enabled(w, s)
    ensures Linked(Next(w, s, p, now))
  {
    match s
    case Publish(u, status, actions) => PublishKeepsLinked(w, u, status, actions, now);
    case Send(id) => SendKeepsLinked(w, id);
    case Receive(m, accepted) => if accepted { ReceiveKeepsLinked(w, m); }
    case Report(id, reply) => ReportKeepsLinked(w, id, reply, p, now);
    case RefreshUser(u, before) => RefreshKeepsLinked(w, u, now);
  }

  lemma {:induction false} AlwaysLinked(events: seq<Event>)
    ensures Linked(After(START, events))
  {
    if |events| == 0 {
      StartLinked();
    } else {
      AlwaysLinked(events[..|events| - 1]);
      var before := After(START, events[..|events| - 1]);
      var e := events[|events| - 1];
      if Enabled(before, e.step) {
        StepKeepsLinked(before, e.step, e.policy, e.now);
      }
    }
  }

  // ---------------------------------------------------------------- theorems over every run

  /** Convergence: under repeated, reordered and lost deliveries, retries, refreshes and crashes before
      the commit, whenever a user reads as synchronised the receiver holds exactly the desired
      content, at the newest version. */
  lemma SynchronisedMeansAgreed(events: seq<Event>, u: Id)
    ensures var w := After(START, events);
            u in w.box.states && w.box.states[u].sync.Succeeded? ==>
              u in w.receiver && w.box.states[u].desired == Some(w.receiver[u].content)
              && w.receiver[u].version == w.box.states[u].version
  {
    AlwaysLinked(events);
    var w := After(START, events);
    if u in w.box.states && w.box.states[u].sync.Succeeded? {
      LinkedMeansAgreed(w, u);
    }
  }

  lemma LinkedMeansAgreed(w: World, u: Id)
    requires Linked(w) && u in w.box.states && w.box.states[u].sync.Succeeded?
    ensures u in w.receiver && w.box.states[u].desired == Some(w.receiver[u].content)
            && w.receiver[u].version == w.box.states[u].version
  {
    assert UserKept(w.box, u);
    assert Reached(w, EventId(u, w.box.states[u].version));
    assert HeldIsPublished(w, u);
    assert EventId(u, w.receiver[u].version) in w.box.rows;
  }

  /** In every run: versions are exactly 1..version, neighbours differ, and the state mirrors the
      newest row. */
  lemma {:induction false} StructureAlwaysKept(events: seq<Event>)
    ensures WellKept(After(START, events).box)
  {
    AlwaysLinked(events);
  }

  lemma StepSparesParked(w: World, s: Step, p: Policy, now: nat, id: EventId)
    requires Linked(w) && Enabled(w, s) && Parked(w.box, id)
    ensures Next(w, s, p, now).box.rows.Keys >= w.box.rows.Keys
    ensures id in Next(w, s, p, now).box.rows && Next(w, s, p, now).box.rows[id] == w.box.rows[id]
  {
    match s
    case Publish(u, status, actions) => NewVersionIsFree(w.box, u);
    case RefreshUser(u, before) => RefreshSparesParked(w.box, u, before, now, id);
    case _ =>
  }

  /** A conflict or dead-letter row is never due again, whatever happens next, refresh included. */
  lemma {:induction false} ParkedForever(events: seq<Event>, more: seq<Event>, id: EventId, now: nat)
    requires Parked(After(START, events).box, id)
    ensures var w := After(After(START, events), more);
            id in w.box.rows && w.box.rows[id] == After(START, events).box.rows[id] && !Due(w.box, id, now)
    ensures Linked(After(After(START, events), more))
  {
    if |more| == 0 {
      AlwaysLinked(events);
    } else {
      ParkedForever(events, more[..|more| - 1], id, now);
      var before := After(After(START, events), more[..|more| - 1]);
      var e := more[|more| - 1];
      if Enabled(before, e.step) {
        StepSparesParked(before, e.step, e.policy, e.now, id);
        StepKeepsLinked(before, e.step, e.policy, e.now);
      }
    }
  }

  /** Nothing is lost: from any reachable world, a user whose newest row is still waiting needs only
      one send, one accepted delivery and its report to become synchronised. */
  lemma OneDeliverySuffices(events: seq<Event>, u: Id, p: Policy, now: nat)
    requires var o := After(START, events).box; u in o.states && Waiting(o.states[u].sync)
    ensures var w := After(START, events);
            var id := EventId(u, w.box.states[u].version);
            id in w.box.rows &&
            var m := Message(id, w.box.rows[id].content);
            Enabled(w, Send(id))
            && (var sent := Next(w, Send(id), p, now);
                Enabled(sent, Receive(m, true))
                && (var seen := Next(sent, Receive(m, true), p, now);
                    Enabled(seen, Report(id, Delivered))
                    && Next(seen, Report(id, Delivered), p, now).box.states[u].sync.Succeeded?))
  {
    AlwaysLinked(events);
    assert UserKept(After(START, events).box, u);
  }
}
