/**
 The drone's durable store of status events (plane/src/drone/state_store.rs) and the protocol
 that empties it: events are sent, replayed on every new connection, recorded by the controller
 and acknowledged (plane/src/controller/drone.rs, plane/src/drone/mod.rs).
 */
module StateStore {
  import opened Basics
  import opened BackendStates
  import opened Tables

  /** A row of the event table; the timestamp is kept in milliseconds. */
  datatype EventRow = EventRow(backend: BackendId, state: State, millis: int)

  datatype Message = Message(eventId: nat, backend: BackendId, state: State)

  /** The tables of the store. `nextId` comes from autoincrement, so ids are never used twice. */
  datatype Store = Store(
    backends: map<BackendId, State>,
    events: map<nat, EventRow>,
    nextId: nat,
    listening: bool)

  function MessageOf(id: nat, row: EventRow): Message {
    Message(id, row.backend, row.state)
  }

  function Registered(s: Store, row: EventRow): Store {
    s.(backends := s.backends[row.backend := row.state],
       events := s.events[s.nextId := row],
       nextId := s.nextId + 1)
  }

  /** Everything a replay sends. */
  function Unacked(s: Store): set<Message> {
    set id | id in s.events :: MessageOf(id, s.events[id])
  }

  // ----- The store itself -----

  /** Messages in replay order: by timestamp, each stored event exactly once. */
  ghost predicate ReplayOf(ms: seq<Message>, events: map<nat, EventRow>) {
    && |ms| == |events|
    && (forall i :: 0 <= i < |ms| ==>
          ms[i].eventId in events && ms[i] == MessageOf(ms[i].eventId, events[ms[i].eventId]))
    && (forall i, j :: 0 <= i < j < |ms| ==>
          && ms[i].eventId != ms[j].eventId
          && events[ms[i].eventId].millis <= events[ms[j].eventId].millis)
  }

  predicate Earliest(events: map<nat, EventRow>, ids: set<nat>, id: nat)
    requires ids <= events.Keys
  {
    id in ids && forall o :: o in ids ==> events[id].millis <= events[o].millis
  }

  lemma {:induction false} EarliestExists(events: map<nat, EventRow>, ids: set<nat>) returns (id: nat)
    requires ids != {} && ids <= events.Keys
    ensures Earliest(events, ids, id)
    decreases |ids|
  {
    var x :| x in ids;
    var rest := ids - {x};
    id := x;
    if rest != {} {
      var y := EarliestExists(events, rest);
      if events[y].millis < events[x].millis {
        id := y;
      }
    }
    assert forall o :: o in ids ==> o == x || o in rest;
  }

  class StateStore {
    var backends: map<BackendId, State>
    var events: map<nat, EventRow>
    var nextId: nat
    var listening: bool

    /** Everything handed to a listener so far. */
    var outbox: seq<Message>

    function View(): Store
      reads this
    {
      Store(backends, events, nextId, listening)
    }

    ghost predicate Valid()
      reads this
    {
      forall id :: id in events ==> id < nextId
    }

    constructor ()
      ensures Valid() && View() == Store(map[], map[], 1, false) && outbox == []
    {
      backends, events, nextId, listening, outbox := map[], map[], 1, false, [];
    }

    method RegisterEvent(backend: BackendId, state: State, timestamp: Time)
      requires Valid()
      modifies this
      ensures Valid()
      ensures View() == Registered(old(View()), EventRow(backend, state, timestamp / 1000))
      ensures outbox == old(outbox)
                + (if old(listening) then [Message(old(nextId), backend, state)] else [])
    {
      var id := nextId;
      backends := backends[backend := state];
      events := events[id := EventRow(backend, state, timestamp / 1000)];
      nextId := id + 1;
      if listening {
        outbox := outbox + [Message(id, backend, state)];
      }
    }

    method UnackedEvents() returns (ms: seq<Message>)
      ensures ReplayOf(ms, events)
    {
      ms := [];
      var todo := events.Keys;
      while todo != {}
        invariant todo <= events.Keys && |ms| + |todo| == |events|
        invariant forall i :: 0 <= i < |ms| ==>
                    && ms[i].eventId in events && ms[i].eventId !in todo
                    && ms[i] == MessageOf(ms[i].eventId, events[ms[i].eventId])
        invariant forall i, j :: 0 <= i < j < |ms| ==>
                    && ms[i].eventId != ms[j].eventId
                    && events[ms[i].eventId].millis <= events[ms[j].eventId].millis
        invariant forall i, id :: 0 <= i < |ms| && id in todo ==>
                    events[ms[i].eventId].millis <= events[id].millis
        decreases |todo|
      {
        ghost var first := EarliestExists(events, todo);
        assert first in todo && forall o :: o in todo ==> events[first].millis <= events[o].millis;
        var id :| id in todo && forall o :: o in todo ==> events[id].millis <= events[o].millis;
        ms := ms + [MessageOf(id, events[id])];
        todo := todo - {id};
      }
    }

    /** Replays every stored event to the new listener, then makes it the listener. */
    method RegisterListener()
      requires Valid()
      modifies this
      ensures Valid() && View() == old(View()).(listening := true)
      ensures old(outbox) <= outbox && ReplayOf(outbox[|old(outbox)|..], events)
    {
      var replay := UnackedEvents();
      var i := 0;
      while i < |replay|
        invariant 0 <= i <= |replay| && View() == old(View())
        invariant outbox == old(outbox) + replay[..i]
      {
        outbox := outbox + [replay[i]];
        i := i + 1;
      }
      listening := true;
      assert outbox[|old(outbox)|..] == replay;
    }

    method AckEvent(eventId: nat)
      requires Valid()
      modifies this
      ensures Valid() && View() == old(View()).(events := old(events) - {eventId})
      ensures outbox == old(outbox)
    {
      events := events - {eventId};
    }

    /** The backends to terminate after a restart: all that are not Terminated. */
    method ActiveBackends() returns (active: map<BackendId, State>)
      ensures forall b :: b in active <==> b in backends && !backends[b].InTerminated?
      ensures forall b :: b in active ==> active[b] == backends[b]
    {
      active := map b | b in backends && !backends[b].InTerminated? :: backends[b];
    }
  }

  /** A replay sends exactly the stored events, whatever their order. */
  lemma ReplaySendsUnacked(ms: seq<Message>, s: Store)
    requires ReplayOf(ms, s.events)
    ensures (set m | m in ms) == Unacked(s)
  {
    var ids := set i | 0 <= i < |ms| :: ms[i].eventId;
    DistinctIds(ms, |ms|);
    assert ids <= s.events.Keys && |ids| == |s.events.Keys|;
    SameSizeSubset(ids, s.events.Keys);
    forall m | m in Unacked(s) ensures m in ms {
      var id :| id in s.events && m == MessageOf(id, s.events[id]);
      assert id in ids;
    }
  }

  lemma {:induction false} DistinctIds(ms: seq<Message>, n: nat)
    requires n <= |ms| && forall i, j :: 0 <= i < j < |ms| ==> ms[i].eventId != ms[j].eventId
    ensures |set i | 0 <= i < n :: ms[i].eventId| == n
  {
    var all := set i | 0 <= i < n :: ms[i].eventId;
    if n > 0 {
      DistinctIds(ms, n - 1);
      var fewer := set i | 0 <= i < n - 1 :: ms[i].eventId;
      var last := ms[n - 1].eventId;
      assert last !in fewer;
      assert all == fewer + {last} by {
        forall x | x in all ensures x in fewer + {last} {
          var i :| 0 <= i < n && ms[i].eventId == x;
        }
      }
    }
  }

  lemma {:induction false} SameSizeSubset(a: set<nat>, b: set<nat>)
    requires a <= b && |a| == |b|
    ensures a == b
    decreases |a|
  {
    if a == {} {
      assert |b| == 0;
    } else {
      var x :| x in a;
      SameSizeSubset(a - {x}, b - {x});
      assert a == (a - {x}) + {x} && b == (b - {x}) + {x};
    }
  }

  // ----- The protocol -----

  /**
   A drone's store, the messages and acknowledgements between it and the controllers, and the
   controller's tables. `log` remembers every event ever registered, `created` every backend.
   */
  datatype Link = Link(
    store: Store,
    sent: set<Message>,
    acks: set<nat>,
    db: Db,
    log: map<nat, EventRow>,
    created: set<BackendId>)

  datatype Step =
    | Register(row: EventRow)
    | Listen
    | Restart
    | Handle(m: Message)
    | ReceiveAck(eventId: nat)
    | Controller(x: Txn)

  const FRESH: Link := Link(Store(map[], map[], 1, false), {}, {}, EMPTY, map[], {})

  /** A drone reports on backends that were created for it, and backend ids are not reused. */
  predicate Enabled(l: Link, step: Step) {
    match step
    case Register(row) => row.backend in l.created
    case Listen => true
    case Restart => true
    case Handle(m) => m in l.sent
    case ReceiveAck(id) => id in l.acks
    case Controller(x) => Tables.Enabled(l.db, x) && (x.Create? ==> x.spec.id !in l.created)
  }

  /**
   Messages and acknowledgements may be handled late, repeatedly, in any order or never. An
   acknowledgement goes out once the report has been through `update_state`, taken or not.
   */
  function Apply(l: Link, step: Step): Link {
    match step
    case Register(row) =>
      l.(store := Registered(l.store, row),
         sent := if l.store.listening then l.sent + {MessageOf(l.store.nextId, row)} else l.sent,
         log := l.log[l.store.nextId := row])
    case Listen => l.(store := l.store.(listening := true), sent := l.sent + Unacked(l.store))
    case Restart => l.(store := l.store.(listening := false))
    case Handle(m) =>
      l.(db := Tables.Apply(l.db, UpdateState(m.backend, m.state)), acks := l.acks + {m.eventId})
    case ReceiveAck(id) => l.(store := l.store.(events := l.store.events - {id}))
    case Controller(x) =>
      l.(db := Tables.Apply(l.db, x),
         created := if x.Create? && CanCreate(l.db, x.spec) then l.created + {x.spec.id} else l.created)
  }

  predicate Valid(l: Link, steps: seq<Step>)
    decreases |steps|
  {
    steps == [] || (Enabled(l, steps[0]) && Valid(Apply(l, steps[0]), steps[1..]))
  }

  function Final(l: Link, steps: seq<Step>): Link
    decreases |steps|
  {
    if steps == [] then l else Final(Apply(l, steps[0]), steps[1..])
  }

  /** The controller's row for the backend, if there is one, has come at least this far. */
  ghost predicate Reached(backends: map<BackendId, BackendRow>, row: EventRow) {
    row.backend in backends ==>
      backends[row.backend].statusNumber.Some?
      && row.state.StatusInt() <= backends[row.backend].statusNumber.value
  }

  ghost predicate AcksReached(l: Link) {
    forall id :: id in l.acks ==> id in l.log && Reached(l.db.backends, l.log[id])
  }

  ghost predicate StoredOrAcked(l: Link) {
    forall id :: id in l.log ==> id in l.store.events || id in l.acks
  }

  ghost predicate Logged(l: Link) {
    && (forall id :: id in l.log ==> id < l.store.nextId && l.log[id].backend in l.created)
    && (forall id :: id in l.store.events ==> id in l.log && l.log[id] == l.store.events[id])
    && (forall m :: m in l.sent ==> m.eventId in l.log && m == MessageOf(m.eventId, l.log[m.eventId]))
  }

  ghost predicate RowsCreated(l: Link) {
    forall id :: id in l.db.backends ==> id in l.created
  }

  ghost predicate Inv(l: Link) {
    Consistent(l.db) && AcksReached(l) && StoredOrAcked(l) && Logged(l) && RowsCreated(l)
  }

  /** A row's number never drops, and rows only appear for backends that are being created. */
  ghost predicate NumbersRise(db: Db, x: Txn, d: Db) {
    forall id :: id in d.backends ==>
      if id in db.backends then
        && db.backends[id].statusNumber.Some? && d.backends[id].statusNumber.Some?
        && db.backends[id].statusNumber.value <= d.backends[id].statusNumber.value
      else x.Create? && x.spec.id == id && CanCreate(db, x.spec)
  }

  lemma UpdateRaises(db: Db, id: BackendId, s: State)
    requires Recorded(db.backends, db.history)
    ensures NumbersRise(db, UpdateState(id, s), UpdateStateStep(db, id, s))
    ensures Reached(UpdateStateStep(db, id, s).backends, EventRow(id, s, 0))
  {
    forall b | b in db.backends ensures db.backends[b].statusNumber.Some? {
      assert Columns(db.backends[b]);
    }
  }

  lemma OthersRaise(db: Db, x: Txn)
    requires forall b :: b in db.backends ==> db.backends[b].statusNumber.Some?
    requires !x.UpdateState? && !x.Cleanup?
    ensures NumbersRise(db, x, Tables.Apply(db, x))
  {
  }

  lemma NumbersNeverDrop(db: Db, x: Txn)
    requires Consistent(db) && Tables.Enabled(db, x)
    ensures NumbersRise(db, x, Tables.Apply(db, x))
  {
    assert forall b :: b in db.backends ==> Columns(db.backends[b]);
    if x.UpdateState? {
      UpdateRaises(db, x.backend, x.state);
    } else if x.Cleanup? {
      CleanupNeverBlocked(db, x.minAgeDays, x.batch, x.chosen);
    } else {
      OthersRaise(db, x);
    }
  }

  lemma ReachedStays(l: Link, x: Txn, row: EventRow)
    requires NumbersRise(l.db, x, Tables.Apply(l.db, x))
    requires x.Create? ==> x.spec.id !in l.created
    requires row.backend in l.created && Reached(l.db.backends, row)
    ensures Reached(Tables.Apply(l.db, x).backends, row)
  {
  }

  lemma ControllerKeepsInv(l: Link, x: Txn)
    requires Inv(l) && Enabled(l, Controller(x))
    ensures Inv(Apply(l, Controller(x)))
  {
    ApplyKeepsConsistent(l.db, x);
    NumbersNeverDrop(l.db, x);
    var t := Apply(l, Controller(x));
    forall id | id in t.acks ensures id in t.log && Reached(t.db.backends, t.log[id]) {
      ReachedStays(l, x, l.log[id]);
    }
  }

  lemma HandleKeepsInv(l: Link, m: Message)
    requires Inv(l) && Enabled(l, Handle(m))
    ensures Inv(Apply(l, Handle(m)))
  {
    var x := UpdateState(m.backend, m.state);
    ApplyKeepsConsistent(l.db, x);
    UpdateRaises(l.db, m.backend, m.state);
    var t := Apply(l, Handle(m));
    forall id | id in t.acks ensures id in t.log && Reached(t.db.backends, t.log[id]) {
      if id in l.acks {
        ReachedStays(l, x, l.log[id]);
      }
    }
  }

  lemma StepKeepsInv(l: Link, step: Step)
    requires Inv(l) && Enabled(l, step)
    ensures Inv(Apply(l, step))
  {
    match step
    case Controller(x) => ControllerKeepsInv(l, x);
    case Handle(m) => HandleKeepsInv(l, m);
    case _ =>
  }

  lemma {:induction false} RunKeepsInv(l: Link, steps: seq<Step>)
    requires Inv(l) && Valid(l, steps)
    ensures Inv(Final(l, steps))
    decreases |steps|
  {
    if steps != [] {
      StepKeepsInv(l, steps[0]);
      RunKeepsInv(Apply(l, steps[0]), steps[1..]);
    }
  }

  /**
   In every run, across reconnects, restarts, duplicates and late acknowledgements, an event
   that has left the store is one the controller's row has come up to.
   */
  lemma NoStatusLost(steps: seq<Step>, id: nat)
    requires Valid(FRESH, steps)
    requires id in Final(FRESH, steps).log && id !in Final(FRESH, steps).store.events
    ensures Reached(Final(FRESH, steps).db.backends, Final(FRESH, steps).log[id])
  {
    EmptyIsConsistent();
    RunKeepsInv(FRESH, steps);
  }

  /** When the store is empty the controller has reached the highest status ever registered. */
  lemma EmptyStoreMeansCaughtUp(steps: seq<Step>, b: BackendId)
    requires Valid(FRESH, steps) && Final(FRESH, steps).store.events == map[]
    requires b in Final(FRESH, steps).db.backends
    ensures var l := Final(FRESH, steps);
            && l.db.backends[b].statusNumber.Some?
            && forall id :: id in l.log && l.log[id].backend == b ==>
                 l.log[id].state.StatusInt() <= l.db.backends[b].statusNumber.value
  {
    EmptyIsConsistent();
    RunKeepsInv(FRESH, steps);
    var l := Final(FRESH, steps);
    assert Columns(l.db.backends[b]);
    forall id | id in l.log && l.log[id].backend == b
      ensures l.log[id].state.StatusInt() <= l.db.backends[b].statusNumber.value
    {
      NoStatusLost(steps, id);
    }
  }

  // ----- Reports that get through -----

  lemma Unfold(l: Link, step: Step, rest: seq<Step>)
    requires Enabled(l, step) && Valid(Apply(l, step), rest)
    ensures Valid(l, [step] + rest) && Final(l, [step] + rest) == Final(Apply(l, step), rest)
  {
    assert ([step] + rest)[1..] == rest;
  }

  /** A message that was sent is handled and acknowledged, and its event leaves the store. */
  lemma SentGetsThrough(l: Link, m: Message)
    requires m in l.sent
    ensures var steps := [Handle(m), ReceiveAck(m.eventId)];
            && Valid(l, steps)
            && Final(l, steps).db == Tables.Apply(l.db, UpdateState(m.backend, m.state))
            && Final(l, steps).store == l.store.(events := l.store.events - {m.eventId})
  {
    var handled := Apply(l, Handle(m));
    Unfold(handled, ReceiveAck(m.eventId), []);
    Unfold(l, Handle(m), [ReceiveAck(m.eventId)]);
  }

  /** An event is sent when it is registered, if a listener is there, and else with the next one. */
  lemma RegisteredIsSent(l: Link, row: EventRow)
    requires row.backend in l.created
    ensures var m := Message(l.store.nextId, row.backend, row.state);
            var kept := Apply(l, Register(row));
            && Enabled(l, Register(row)) && Enabled(kept, Listen) && Enabled(l, Restart)
            && l.store.nextId in kept.store.events && kept.store.events[l.store.nextId] == row
            && (l.store.listening ==> m in kept.sent)
            && (!l.store.listening ==> kept.sent == l.sent)
            && m in Apply(kept, Listen).sent
            && m in Apply(Apply(l, Listen), Register(row)).sent
            && Apply(Apply(l, Restart), Register(row)).sent == l.sent
  {
  }

  /** As long as it is stored, an event is sent again to every new listener, restarts or not. */
  lemma StoredIsSentAgain(l: Link, id: nat)
    requires id in l.store.events
    ensures var row := l.store.events[id];
            var again := Apply(Apply(l, Restart), Listen);
            && Message(id, row.backend, row.state) in again.sent
            && again.store.events == l.store.events
  {
  }
}
