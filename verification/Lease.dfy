/**
 The key lease protocol: a controller with one clock, drones with clocks of their own, and a
 network between them that delays, reorders, repeats and loses messages.

 The database clock is the reference; drone `d` reads `now + offset(d)`, whatever `offset` is:
 clocks may be set to anything but run at the same rate. A message once sent stays in its set
 and may be handled at any later moment, any number of times or never.
 */
module Lease {
  import opened Basics
  import opened BackendStates
  import opened Tables

  /** How far the lease in the database outlives any hard deadline handed out under it. */
  const MARGIN: Time := KEY_LEASE_EXPIRATION - KEY_LEASE_HARD_TERMINATE_AFTER

  datatype Stamp = Stamp(drone: DroneId, time: Time)

  datatype Request = Request(id: BackendId, localTime: Time)

  /** A deadline triple handed out for a backend, by its spawn action or by a renewal. */
  datatype Issue = Issue(id: BackendId, deadlines: Deadlines, renewal: bool)

  datatype Grant = Grant(key: Key, drone: DroneId, token: int, at: Time)

  /** How and when a backend's lease row went away. */
  datatype Release = ByExpiry(at: Time) | ByTermination(at: Time)

  datatype System = System(
    db: Db,
    heartbeats: set<Stamp>,
    picks: set<Stamp>,
    requests: set<Request>,
    issued: set<Issue>,
    held: map<BackendId, Deadlines>,
    grants: map<BackendId, Grant>,
    order: seq<BackendId>,
    released: map<BackendId, Release>)

  datatype Step =
    | Transaction(x: Txn)
    | SendHeartbeat(drone: DroneId)
    | HandleHeartbeat(stamp: Stamp)
    | PickDrone(drone: DroneId)
    | Acquire(spec: NewBackend)
    | SendRenew(id: BackendId)
    | HandleRenew(request: Request)
    | ReceiveSpawn(issue: Issue)
    | ReceiveRenewal(issue: Issue)
    | Unregister(id: BackendId)
    | RestartDrone(drone: DroneId)

  type Offsets = DroneId -> int

  const START: System := System(EMPTY, {}, {}, {}, {}, map[], map[], [], map[])

  function Clock(s: System, off: Offsets, d: DroneId): Time {
    s.db.now + off(d)
  }

  /**
   Transactions that have no step of their own: anyone may run them at any time. Spawn actions are
   only stored with the backend they start.
   */
  predicate Free(x: Txn) {
    && !x.Heartbeat? && !x.Create? && !x.RenewKey?
    && !(x.CreateAction? && x.row.action.Spawn?)
  }

  /**
   A drone only renews keys it has registered, and backend ids are not reused. Neither the
   `renew_at` time nor the connection state limits when a request is sent.
   */
  predicate Enabled(s: System, step: Step) {
    match step
    case Transaction(x) => Free(x) && Tables.Enabled(s.db, x)
    case SendHeartbeat(_) => true
    case HandleHeartbeat(stamp) => stamp in s.heartbeats
    case PickDrone(d) => d in s.db.drones && s.db.drones[d].lastLocalTime.Some?
    case Acquire(n) => Stamp(n.drone, n.lastLocalTime) in s.picks && n.id !in s.grants
    case SendRenew(id) => id in s.held && id in s.grants
    case HandleRenew(r) => r in s.requests
    case ReceiveSpawn(i) => i in s.issued && !i.renewal
    case ReceiveRenewal(i) => i in s.issued && i.renewal
    case Unregister(_) => true
    case RestartDrone(_) => true
  }

  /** Notes every lease row that `db` no longer has. */
  function Released(s: System, db: Db, how: Release): map<BackendId, Release> {
    s.released + map id | id in s.db.keys && id !in db.keys :: how
  }

  function Cause(x: Txn, now: Time): Release {
    if x.UpdateState? then ByTermination(now) else ByExpiry(now)
  }

  function AcquireStep(s: System, n: NewBackend): System {
    if !CanCreate(s.db, n) then s
    else
      s.(db := CreateStep(s.db, n),
         issued := s.issued + {Issue(n.id, InitialDeadlines(n.lastLocalTime), false)},
         grants := s.grants[n.id := Grant(n.key, n.drone, FencingToken(s.db.now), s.db.now)],
         order := s.order + [n.id])
  }

  /** The controller answers a renewal only if the lease row was there to be renewed. */
  function RenewStep(s: System, r: Request): System {
    if !Renewable(s.db, r.id) then s
    else
      s.(db := RenewKeyStep(s.db, r.id),
         issued := s.issued + {Issue(r.id, RenewedDeadlines(r.localTime), true)})
  }

  function Apply(s: System, off: Offsets, step: Step): System {
    match step
    case Transaction(x) =>
      var db := Tables.Apply(s.db, x);
      s.(db := db, released := Released(s, db, Cause(x, s.db.now)))
    case SendHeartbeat(d) => s.(heartbeats := s.heartbeats + {Stamp(d, Clock(s, off, d))})
    case HandleHeartbeat(stamp) =>
      s.(db := Tables.Apply(s.db, Heartbeat(stamp.drone, stamp.time)))
    case PickDrone(d) =>
      if d in s.db.drones && s.db.drones[d].lastLocalTime.Some?
      then s.(picks := s.picks + {Stamp(d, s.db.drones[d].lastLocalTime.value)}) else s
    case Acquire(n) => AcquireStep(s, n)
    case SendRenew(id) =>
      if id in s.grants
      then s.(requests := s.requests + {Request(id, Clock(s, off, s.grants[id].drone))}) else s
    case HandleRenew(r) => RenewStep(s, r)
    case ReceiveSpawn(i) =>
      if i.id in s.held then s else s.(held := s.held[i.id := i.deadlines])
    case ReceiveRenewal(i) =>
      if i.id in s.held then s.(held := s.held[i.id := i.deadlines]) else s
    case Unregister(id) => s.(held := s.held - {id})
    case RestartDrone(d) =>
      s.(held := map id | id in s.held && !(id in s.grants && s.grants[id].drone == d) :: s.held[id])
  }

  predicate Valid(s: System, off: Offsets, steps: seq<Step>)
    decreases |steps|
  {
    steps == [] || (Enabled(s, steps[0]) && Valid(Apply(s, off, steps[0]), off, steps[1..]))
  }

  function Final(s: System, off: Offsets, steps: seq<Step>): System
    decreases |steps|
  {
    if steps == [] then s else Final(Apply(s, off, steps[0]), off, steps[1..])
  }

  // ----- The invariant -----

  /** No drone ever reported a time its clock has not reached. */
  ghost predicate StampsPast(stamps: set<Stamp>, now: Time, off: Offsets) {
    forall st :: st in stamps ==> st.time <= now + off(st.drone)
  }

  ghost predicate LocalTimesPast(drones: map<DroneId, DroneRow>, now: Time, off: Offsets) {
    forall d :: d in drones && drones[d].lastLocalTime.Some? ==>
      drones[d].lastLocalTime.value <= now + off(d)
  }

  ghost predicate RequestsPast(requests: set<Request>, grants: map<BackendId, Grant>,
                               now: Time, off: Offsets)
  {
    forall r :: r in requests ==>
      r.id in grants && r.localTime <= now + off(grants[r.id].drone)
  }

  /** Every triple handed out for `id` has its hard deadline `MARGIN` or more before `limit`. */
  ghost predicate Bounded(issued: set<Issue>, id: BackendId, limit: Time) {
    forall i :: i in issued && i.id == id ==> i.deadlines.hardAt + MARGIN <= limit
  }

  ghost predicate IssuesKnown(issued: set<Issue>, grants: map<BackendId, Grant>) {
    forall i :: i in issued ==> i.id in grants
  }

  /** The lease row outlives, in the drone's own time, everything issued under it. */
  ghost predicate LeasesCover(keys: map<BackendId, KeyRow>, issued: set<Issue>,
                              grants: map<BackendId, Grant>, off: Offsets)
  {
    forall id :: id in keys ==>
      id in grants && Bounded(issued, id, keys[id].expiresAt + off(grants[id].drone))
  }

  /** A lease row keeps the key and token it was granted with and lasts at least one term. */
  ghost predicate LeasesFaithful(keys: map<BackendId, KeyRow>, grants: map<BackendId, Grant>) {
    forall id :: id in keys ==>
      && id in grants
      && keys[id].key == grants[id].key
      && keys[id].fencing == grants[id].token
      && grants[id].at + KEY_LEASE_EXPIRATION <= keys[id].expiresAt
  }

  /** A lease is never promised further ahead than one term. */
  ghost predicate LeasesWithinTerm(keys: map<BackendId, KeyRow>, now: Time) {
    forall id :: id in keys ==> keys[id].expiresAt <= now + KEY_LEASE_EXPIRATION
  }

  ghost predicate GrantsPast(grants: map<BackendId, Grant>, now: Time) {
    forall id :: id in grants ==>
      grants[id].at <= now && grants[id].token == FencingToken(grants[id].at)
  }

  /** What holds of a backend whose lease is gone. */
  ghost predicate Over(id: BackendId, r: Release, g: Grant, issued: set<Issue>, now: Time,
                       backends: map<BackendId, BackendRow>, off: Offsets)
  {
    && r.at <= now
    && (r.ByExpiry? ==>
          && Bounded(issued, id, r.at - 1 + off(g.drone))
          && g.at + KEY_LEASE_EXPIRATION < r.at)
    && (r.ByTermination? ==> (id in backends ==> backends[id].status == Terminated))
  }

  ghost predicate ReleasesOver(released: map<BackendId, Release>, grants: map<BackendId, Grant>,
                               issued: set<Issue>, now: Time,
                               backends: map<BackendId, BackendRow>, off: Offsets)
  {
    forall id :: id in released ==>
      id in grants && Over(id, released[id], grants[id], issued, now, backends, off)
  }

  ghost predicate EitherHeldOrReleased(grants: map<BackendId, Grant>,
                                       keys: map<BackendId, KeyRow>,
                                       released: map<BackendId, Release>)
  {
    && (forall id :: id in grants && id !in keys ==> id in released)
    && (forall id :: id in released ==> id !in keys)
  }

  /** Grants are listed once each, in the order in which they happened. */
  ghost predicate Ordered(order: seq<BackendId>, grants: map<BackendId, Grant>) {
    && (forall i :: 0 <= i < |order| ==> order[i] in grants)
    && (forall id :: id in grants ==> id in order)
    && (forall i, j :: 0 <= i < j < |order| ==>
          order[i] != order[j] && grants[order[i]].at <= grants[order[j]].at)
  }

  /** An earlier holder of a key had lost it by the time a later one was granted it. */
  ghost predicate HandedOver(order: seq<BackendId>, grants: map<BackendId, Grant>,
                             released: map<BackendId, Release>)
  {
    forall i, j :: 0 <= i < j < |order| && order[i] in grants && order[j] in grants
                   && grants[order[i]].key == grants[order[j]].key ==>
      order[i] in released && released[order[i]].at <= grants[order[j]].at
  }

  ghost predicate HeldWereIssued(held: map<BackendId, Deadlines>, issued: set<Issue>) {
    forall id :: id in held ==>
      Issue(id, held[id], false) in issued || Issue(id, held[id], true) in issued
  }

  ghost predicate ClocksAgree(s: System, off: Offsets) {
    && StampsPast(s.heartbeats, s.db.now, off)
    && StampsPast(s.picks, s.db.now, off)
    && LocalTimesPast(s.db.drones, s.db.now, off)
    && RequestsPast(s.requests, s.grants, s.db.now, off)
  }

  ghost predicate LeasesSound(s: System, off: Offsets) {
    && LeasesCover(s.db.keys, s.issued, s.grants, off)
    && LeasesFaithful(s.db.keys, s.grants)
    && LeasesWithinTerm(s.db.keys, s.db.now)
    && GrantsPast(s.grants, s.db.now)
  }

  ghost predicate HistorySound(s: System, off: Offsets) {
    && ReleasesOver(s.released, s.grants, s.issued, s.db.now, s.db.backends, off)
    && EitherHeldOrReleased(s.grants, s.db.keys, s.released)
    && Ordered(s.order, s.grants)
    && HandedOver(s.order, s.grants, s.released)
  }

  ghost predicate Inv(s: System, off: Offsets) {
    && Consistent(s.db)
    && IssuesKnown(s.issued, s.grants)
    && HeldWereIssued(s.held, s.issued)
    && ClocksAgree(s, off)
    && LeasesSound(s, off)
    && HistorySound(s, off)
  }

  // ----- Transactions without a step of their own -----

  predicate SameLease(a: KeyRow, b: KeyRow) {
    a.key == b.key && a.fencing == b.fencing && a.expiresAt == b.expiresAt
  }

  ghost predicate LeasesKept(db: Db, d: Db) {
    forall id :: id in d.keys ==> id in db.keys && SameLease(db.keys[id], d.keys[id])
  }

  /** A lease row goes away by expiry, or together with its backend being recorded Terminated. */
  ghost predicate LeasesDropped(db: Db, x: Txn, d: Db) {
    forall id :: id in db.keys && id !in d.keys ==>
      || (!x.UpdateState? && Expired(db, id))
      || (x.UpdateState? && id in d.backends && d.backends[id].status == Terminated)
  }

  ghost predicate LocalTimesKept(db: Db, d: Db) {
    forall dr :: dr in d.drones && d.drones[dr].lastLocalTime.Some? ==>
      dr in db.drones && db.drones[dr].lastLocalTime == d.drones[dr].lastLocalTime
  }

  ghost predicate TerminatedStays(db: Db, d: Db) {
    forall id :: id in d.backends ==>
      id in db.backends && (db.backends[id].status == Terminated ==> d.backends[id].status == Terminated)
  }

  lemma MinorTouchesNoBackend(db: Db, x: Txn)
    requires Minor(x) && Tables.Enabled(db, x)
    ensures Tables.Apply(db, x).keys == db.keys && Tables.Apply(db, x).backends == db.backends
    ensures db.now <= Tables.Apply(db, x).now
    ensures Free(x) ==> LocalTimesKept(db, Tables.Apply(db, x))
  {
  }

  lemma CleanupKeepsLeases(db: Db, days: int, batch: int, chosen: set<BackendId>)
    requires Consistent(db) && Tables.Enabled(db, Cleanup(days, batch, chosen))
    ensures CleanupStep(db, chosen).keys == db.keys
    ensures CleanupStep(db, chosen).backends == db.backends - chosen
    ensures CleanupStep(db, chosen).drones == db.drones && CleanupStep(db, chosen).now == db.now
  {
    CleanupTouchesNoKey(db, days, chosen);
    CleanupNeverBlocked(db, days, batch, chosen);
  }

  lemma SingleRowKeepsLeases(db: Db, x: Txn)
    requires x.UpdateState? || x.RemoveKey? || x.PreventRenew? || x.UpdateKeepalive?
    ensures LeasesKept(db, Tables.Apply(db, x)) && LeasesDropped(db, x, Tables.Apply(db, x))
  {
  }

  lemma FreeKeepsLeases(db: Db, x: Txn)
    requires Consistent(db) && Free(x) && Tables.Enabled(db, x)
    ensures LeasesKept(db, Tables.Apply(db, x)) && LeasesDropped(db, x, Tables.Apply(db, x))
  {
    if Minor(x) {
      MinorTouchesNoBackend(db, x);
    } else if x.Cleanup? {
      CleanupKeepsLeases(db, x.minAgeDays, x.batch, x.chosen);
    } else {
      SingleRowKeepsLeases(db, x);
    }
  }

  lemma UpdateStateKeepsTerminated(db: Db, id: BackendId, st: State)
    requires Recorded(db.backends, db.history)
    ensures TerminatedStays(db, UpdateStateStep(db, id, st))
  {
    if id in db.backends {
      assert Columns(db.backends[id]);
      assert db.backends[id].status == Terminated ==> UpdateStateStep(db, id, st) == db;
    }
  }

  lemma LeaseOrKeepaliveKeepsRest(db: Db, x: Txn)
    requires x.RemoveKey? || x.PreventRenew? || x.UpdateKeepalive?
    ensures db.now == Tables.Apply(db, x).now
    ensures LocalTimesKept(db, Tables.Apply(db, x)) && TerminatedStays(db, Tables.Apply(db, x))
  {
  }

  lemma FreeKeepsRest(db: Db, x: Txn)
    requires Consistent(db) && Free(x) && Tables.Enabled(db, x)
    ensures db.now <= Tables.Apply(db, x).now
    ensures LocalTimesKept(db, Tables.Apply(db, x)) && TerminatedStays(db, Tables.Apply(db, x))
  {
    if Minor(x) {
      MinorTouchesNoBackend(db, x);
    } else if x.Cleanup? {
      CleanupKeepsLeases(db, x.minAgeDays, x.batch, x.chosen);
    } else if x.UpdateState? {
      UpdateStateKeepsTerminated(db, x.backend, x.state);
    } else {
      LeaseOrKeepaliveKeepsRest(db, x);
    }
  }

  lemma TransactionKeepsReleases(s: System, off: Offsets, x: Txn)
    requires HistorySound(s, off) && LeasesSound(s, off)
    requires s.db.now <= Tables.Apply(s.db, x).now
    requires LeasesKept(s.db, Tables.Apply(s.db, x)) && LeasesDropped(s.db, x, Tables.Apply(s.db, x))
    requires TerminatedStays(s.db, Tables.Apply(s.db, x))
    ensures var t := Apply(s, off, Transaction(x));
            ReleasesOver(t.released, t.grants, t.issued, t.db.now, t.db.backends, off)
  {
    var t := Apply(s, off, Transaction(x));
    forall id | id in t.released
      ensures id in t.grants
      ensures Over(id, t.released[id], t.grants[id], t.issued, t.db.now, t.db.backends, off)
    {
      if id in s.db.keys && id !in t.db.keys {
        var g := s.grants[id];
        assert Bounded(s.issued, id, s.db.keys[id].expiresAt + off(g.drone));
        assert t.released[id] == Cause(x, s.db.now);
      } else {
        assert Over(id, s.released[id], s.grants[id], s.issued, s.db.now, s.db.backends, off);
      }
    }
  }

  lemma TransactionKeepsHistory(s: System, off: Offsets, x: Txn)
    requires HistorySound(s, off) && LeasesSound(s, off)
    requires s.db.now <= Tables.Apply(s.db, x).now
    requires LeasesKept(s.db, Tables.Apply(s.db, x)) && LeasesDropped(s.db, x, Tables.Apply(s.db, x))
    requires TerminatedStays(s.db, Tables.Apply(s.db, x))
    ensures HistorySound(Apply(s, off, Transaction(x)), off)
  {
    TransactionKeepsReleases(s, off, x);
    var t := Apply(s, off, Transaction(x));
    forall id | id in s.released ensures id in t.released && t.released[id] == s.released[id] {
      assert id !in s.db.keys;
    }
    assert EitherHeldOrReleased(t.grants, t.db.keys, t.released);
    assert HandedOver(t.order, t.grants, t.released);
  }

  lemma TransactionKeepsClocks(s: System, off: Offsets, d: Db)
    requires ClocksAgree(s, off) && s.db.now <= d.now && LocalTimesKept(s.db, d)
    ensures ClocksAgree(s.(db := d), off)
  {
  }

  lemma TransactionKeepsLeases(s: System, off: Offsets, d: Db)
    requires LeasesSound(s, off) && s.db.now <= d.now && LeasesKept(s.db, d)
    ensures LeasesSound(s.(db := d), off)
  {
    forall id | id in d.keys
      ensures id in s.grants && Bounded(s.issued, id, d.keys[id].expiresAt + off(s.grants[id].drone))
    {
      assert SameLease(s.db.keys[id], d.keys[id]);
    }
  }

  lemma TransactionKeepsInv(s: System, off: Offsets, x: Txn)
    requires Inv(s, off) && Enabled(s, Transaction(x))
    ensures Inv(Apply(s, off, Transaction(x)), off)
  {
    var d := Tables.Apply(s.db, x);
    ApplyKeepsConsistent(s.db, x);
    FreeKeepsLeases(s.db, x);
    FreeKeepsRest(s.db, x);
    TransactionKeepsHistory(s, off, x);
    TransactionKeepsClocks(s, off, d);
    TransactionKeepsLeases(s, off, d);
    var t := Apply(s, off, Transaction(x));
    assert ClocksAgree(t, off) && LeasesSound(t, off);
  }

  // ----- Acquiring -----

  lemma AcquireKeepsGrants(s: System, off: Offsets, n: NewBackend)
    requires LeasesSound(s, off) && Enabled(s, Acquire(n)) && CanCreate(s.db, n)
    ensures var t := AcquireStep(s, n);
            && LeasesFaithful(t.db.keys, t.grants) && LeasesWithinTerm(t.db.keys, t.db.now)
            && GrantsPast(t.grants, t.db.now)
  {
  }

  lemma AcquireKeepsLeases(s: System, off: Offsets, n: NewBackend)
    requires LeasesSound(s, off) && IssuesKnown(s.issued, s.grants)
    requires StampsPast(s.picks, s.db.now, off)
    requires Enabled(s, Acquire(n)) && CanCreate(s.db, n)
    ensures LeasesSound(AcquireStep(s, n), off)
  {
    AcquireKeepsGrants(s, off, n);
    AcquireKeepsCover(s, off, n);
  }

  lemma AcquireKeepsCover(s: System, off: Offsets, n: NewBackend)
    requires LeasesCover(s.db.keys, s.issued, s.grants, off) && IssuesKnown(s.issued, s.grants)
    requires StampsPast(s.picks, s.db.now, off)
    requires Enabled(s, Acquire(n)) && CanCreate(s.db, n)
    ensures var t := AcquireStep(s, n); LeasesCover(t.db.keys, t.issued, t.grants, off)
  {
    var t := AcquireStep(s, n);
    forall id | id in t.db.keys
      ensures Bounded(t.issued, id, t.db.keys[id].expiresAt + off(t.grants[id].drone))
    {
      if id == n.id {
        var st := Stamp(n.drone, n.lastLocalTime);
        assert st in s.picks && st.time <= s.db.now + off(st.drone);
      } else {
        assert Bounded(s.issued, id, s.db.keys[id].expiresAt + off(s.grants[id].drone));
      }
    }
  }

  lemma AcquireKeepsReleases(s: System, off: Offsets, n: NewBackend)
    requires HistorySound(s, off) && Enabled(s, Acquire(n)) && CanCreate(s.db, n)
    ensures var t := AcquireStep(s, n);
            ReleasesOver(t.released, t.grants, t.issued, t.db.now, t.db.backends, off)
  {
    var t := AcquireStep(s, n);
    forall id | id in s.released
      ensures Over(id, s.released[id], s.grants[id], t.issued, t.db.now, t.db.backends, off)
    {
      assert Over(id, s.released[id], s.grants[id], s.issued, s.db.now, s.db.backends, off);
      assert id in s.grants;
    }
  }

  /** Whoever held the key of a lease that can be acquired has lost it by now. */
  lemma FreeKeyWasReleased(s: System, off: Offsets, n: NewBackend, id: BackendId)
    requires HistorySound(s, off) && LeasesFaithful(s.db.keys, s.grants) && CanCreate(s.db, n)
    requires id in s.grants && s.grants[id].key == n.key
    ensures id in s.released && s.released[id].at <= s.db.now
  {
    assert id !in s.db.keys;
    assert Over(id, s.released[id], s.grants[id], s.issued, s.db.now, s.db.backends, off);
  }

  lemma AppendKeepsOrdered(order: seq<BackendId>, grants: map<BackendId, Grant>,
                           id: BackendId, g: Grant)
    requires Ordered(order, grants) && id !in grants && GrantsPast(grants, g.at)
    ensures Ordered(order + [id], grants[id := g])
  {
    forall other | other in grants[id := g] ensures other in order + [id] {
      assert other == id || other in order;
    }
  }

  lemma AppendKeepsHandedOver(order: seq<BackendId>, grants: map<BackendId, Grant>,
                              released: map<BackendId, Release>, id: BackendId, g: Grant)
    requires HandedOver(order, grants, released) && id !in grants
    requires forall i :: 0 <= i < |order| ==> order[i] in grants
    requires forall i :: 0 <= i < |order| && grants[order[i]].key == g.key ==>
               order[i] in released && released[order[i]].at <= g.at
    ensures HandedOver(order + [id], grants[id := g], released)
  {
  }

  lemma AcquireKeepsOrder(s: System, off: Offsets, n: NewBackend)
    requires HistorySound(s, off) && LeasesFaithful(s.db.keys, s.grants)
    requires GrantsPast(s.grants, s.db.now)
    requires Enabled(s, Acquire(n)) && CanCreate(s.db, n)
    ensures Ordered(AcquireStep(s, n).order, AcquireStep(s, n).grants)
    ensures HandedOver(AcquireStep(s, n).order, AcquireStep(s, n).grants, s.released)
  {
    forall i | 0 <= i < |s.order| && s.grants[s.order[i]].key == n.key
      ensures s.order[i] in s.released && s.released[s.order[i]].at <= s.db.now
    {
      FreeKeyWasReleased(s, off, n, s.order[i]);
    }
    var g := AcquireStep(s, n).grants[n.id];
    AppendKeepsOrdered(s.order, s.grants, n.id, g);
    AppendKeepsHandedOver(s.order, s.grants, s.released, n.id, g);
  }

  lemma AcquireKeepsHistory(s: System, off: Offsets, n: NewBackend)
    requires HistorySound(s, off) && LeasesFaithful(s.db.keys, s.grants)
    requires GrantsPast(s.grants, s.db.now)
    requires Enabled(s, Acquire(n)) && CanCreate(s.db, n)
    ensures HistorySound(AcquireStep(s, n), off)
  {
    AcquireKeepsReleases(s, off, n);
    AcquireKeepsOrder(s, off, n);
  }

  lemma MoreIssues(issued: set<Issue>, i: Issue, held: map<BackendId, Deadlines>,
                   grants: map<BackendId, Grant>)
    requires IssuesKnown(issued, grants) && HeldWereIssued(held, issued) && i.id in grants
    ensures IssuesKnown(issued + {i}, grants) && HeldWereIssued(held, issued + {i})
  {
  }

  lemma MoreGrants(s: System, off: Offsets, id: BackendId, g: Grant)
    requires IssuesKnown(s.issued, s.grants) && RequestsPast(s.requests, s.grants, s.db.now, off)
    requires id !in s.grants
    ensures IssuesKnown(s.issued, s.grants[id := g])
    ensures RequestsPast(s.requests, s.grants[id := g], s.db.now, off)
  {
  }

  lemma AcquireKeepsInv(s: System, off: Offsets, n: NewBackend)
    requires Inv(s, off) && Enabled(s, Acquire(n)) && CanCreate(s.db, n)
    ensures Inv(AcquireStep(s, n), off)
  {
    var t := AcquireStep(s, n);
    CreateKeepsConsistent(s.db, n);
    MoreGrants(s, off, n.id, t.grants[n.id]);
    MoreIssues(s.issued, Issue(n.id, InitialDeadlines(n.lastLocalTime), false), s.held, t.grants);
    AcquireKeepsLeases(s, off, n);
    AcquireKeepsHistory(s, off, n);
  }

  // ----- Renewing -----

  lemma RenewKeepsLeases(s: System, off: Offsets, r: Request)
    requires LeasesSound(s, off) && RequestsPast(s.requests, s.grants, s.db.now, off)
    requires r in s.requests && Renewable(s.db, r.id)
    ensures LeasesSound(RenewStep(s, r), off)
  {
    var t := RenewStep(s, r);
    forall id | id in t.db.keys
      ensures Bounded(t.issued, id, t.db.keys[id].expiresAt + off(t.grants[id].drone))
    {
      assert Bounded(s.issued, id, s.db.keys[id].expiresAt + off(s.grants[id].drone));
    }
  }

  lemma RenewKeepsHistory(s: System, off: Offsets, r: Request)
    requires HistorySound(s, off) && Renewable(s.db, r.id)
    ensures HistorySound(RenewStep(s, r), off)
  {
    var t := RenewStep(s, r);
    forall id | id in s.released
      ensures Over(id, s.released[id], s.grants[id], t.issued, t.db.now, t.db.backends, off)
    {
      assert Over(id, s.released[id], s.grants[id], s.issued, s.db.now, s.db.backends, off);
      assert id != r.id;
    }
  }

  lemma RenewKeepsInv(s: System, off: Offsets, r: Request)
    requires Inv(s, off) && r in s.requests && Renewable(s.db, r.id)
    ensures Inv(RenewStep(s, r), off)
  {
    RenewKeepsConsistent(s.db, r.id);
    MoreIssues(s.issued, Issue(r.id, RenewedDeadlines(r.localTime), true), s.held, s.grants);
    RenewKeepsLeases(s, off, r);
    RenewKeepsHistory(s, off, r);
  }

  // ----- Every step, every run -----

  lemma HeartbeatKeepsClocks(s: System, off: Offsets, stamp: Stamp)
    requires ClocksAgree(s, off) && stamp in s.heartbeats
    ensures ClocksAgree(Apply(s, off, HandleHeartbeat(stamp)), off)
  {
  }

  lemma HeartbeatTouchesOnlyDrones(s: System, off: Offsets, stamp: Stamp)
    ensures var t := Apply(s, off, HandleHeartbeat(stamp));
            && t == s.(db := t.db) && t.db == s.db.(drones := t.db.drones)
  {
  }

  lemma HeartbeatKeepsInv(s: System, off: Offsets, stamp: Stamp)
    requires Inv(s, off) && stamp in s.heartbeats
    ensures Inv(Apply(s, off, HandleHeartbeat(stamp)), off)
  {
    ApplyKeepsConsistent(s.db, Heartbeat(stamp.drone, stamp.time));
    HeartbeatKeepsClocks(s, off, stamp);
    HeartbeatTouchesOnlyDrones(s, off, stamp);
  }

  predicate OnlyMessages(step: Step) {
    !step.Transaction? && !step.HandleHeartbeat? && !step.Acquire? && !step.HandleRenew?
  }

  lemma MessageKeepsClocks(s: System, off: Offsets, step: Step)
    requires ClocksAgree(s, off) && Enabled(s, step) && OnlyMessages(step)
    ensures ClocksAgree(Apply(s, off, step), off)
  {
  }

  lemma MessageKeepsHeld(s: System, off: Offsets, step: Step)
    requires HeldWereIssued(s.held, s.issued) && Enabled(s, step) && OnlyMessages(step)
    ensures HeldWereIssued(Apply(s, off, step).held, s.issued)
  {
  }

  lemma MessageTouchesOnlyMessages(s: System, off: Offsets, step: Step)
    requires OnlyMessages(step)
    ensures var t := Apply(s, off, step);
            t.db == s.db && t.issued == s.issued && t.grants == s.grants && t.order == s.order
            && t.released == s.released
  {
  }

  /** The steps that leave the database alone. */
  lemma MessageKeepsInv(s: System, off: Offsets, step: Step)
    requires Inv(s, off) && Enabled(s, step) && OnlyMessages(step)
    ensures Inv(Apply(s, off, step), off)
  {
    MessageKeepsClocks(s, off, step);
    MessageKeepsHeld(s, off, step);
    MessageTouchesOnlyMessages(s, off, step);
  }

  lemma StepKeepsInv(s: System, off: Offsets, step: Step)
    requires Inv(s, off) && Enabled(s, step)
    ensures Inv(Apply(s, off, step), off)
  {
    match step
    case Transaction(x) => TransactionKeepsInv(s, off, x);
    case HandleHeartbeat(stamp) => HeartbeatKeepsInv(s, off, stamp);
    case Acquire(n) => if CanCreate(s.db, n) { AcquireKeepsInv(s, off, n); }
    case HandleRenew(r) => if Renewable(s.db, r.id) { RenewKeepsInv(s, off, r); }
    case _ => MessageKeepsInv(s, off, step);
  }

  lemma {:induction false} RunKeepsInv(s: System, off: Offsets, steps: seq<Step>)
    requires Inv(s, off) && Valid(s, off, steps)
    ensures Inv(Final(s, off, steps), off)
    decreases |steps|
  {
    if steps != [] {
      StepKeepsInv(s, off, steps[0]);
      RunKeepsInv(Apply(s, off, steps[0]), off, steps[1..]);
    }
  }

  lemma StartIsSound(off: Offsets)
    ensures Inv(START, off)
  {
    EmptyIsConsistent();
  }

  lemma ReachableIsSound(off: Offsets, steps: seq<Step>)
    requires Valid(START, off, steps)
    ensures Inv(Final(START, off, steps), off)
  {
    StartIsSound(off);
    RunKeepsInv(START, off, steps);
  }

  // ----- Stored spawn actions -----

  /** What a spawn action carries has been issued with it. */
  ghost predicate SpawnsIssued(actions: map<nat, ActionRow>, issued: set<Issue>) {
    forall a :: a in actions && actions[a].action.Spawn? ==>
      Issue(actions[a].backend, actions[a].action.deadlines, false) in issued
  }

  ghost predicate NoNewSpawns(actions: map<nat, ActionRow>, later: map<nat, ActionRow>) {
    forall a :: a in later && later[a].action.Spawn? ==>
      a in actions && actions[a].action == later[a].action && actions[a].backend == later[a].backend
  }

  lemma FreeStoresNoSpawn(db: Db, x: Txn)
    requires Free(x) || x.Heartbeat? || x.RenewKey?
    ensures NoNewSpawns(db.actions, Tables.Apply(db, x).actions)
  {
  }

  lemma StepKeepsSpawns(s: System, off: Offsets, step: Step)
    requires Enabled(s, step) && SpawnsIssued(s.db.actions, s.issued)
    ensures SpawnsIssued(Apply(s, off, step).db.actions, Apply(s, off, step).issued)
  {
    match step
    case Transaction(x) => FreeStoresNoSpawn(s.db, x);
    case HandleHeartbeat(stamp) => FreeStoresNoSpawn(s.db, Heartbeat(stamp.drone, stamp.time));
    case HandleRenew(r) => FreeStoresNoSpawn(s.db, RenewKey(r.id));
    case Acquire(n) =>
    case _ => MessageTouchesOnlyMessages(s, off, step);
  }

  lemma {:induction false} RunKeepsSpawns(s: System, off: Offsets, steps: seq<Step>)
    requires Valid(s, off, steps) && SpawnsIssued(s.db.actions, s.issued)
    ensures SpawnsIssued(Final(s, off, steps).db.actions, Final(s, off, steps).issued)
    decreases |steps|
  {
    if steps != [] {
      StepKeepsSpawns(s, off, steps[0]);
      RunKeepsSpawns(Apply(s, off, steps[0]), off, steps[1..]);
    }
  }

  /**
   In every run the deadlines of every stored spawn action, delivered or not, are among those
   issued, so hand-over safety covers them.
   */
  lemma StoredSpawnsAreIssued(off: Offsets, steps: seq<Step>)
    requires Valid(START, off, steps)
    ensures var s := Final(START, off, steps); SpawnsIssued(s.db.actions, s.issued)
  {
    RunKeepsSpawns(START, off, steps);
  }

  // ----- Hand-over safety -----

  /**
   By the time `later` was granted the key of `earlier`, either `earlier` had been recorded
   Terminated, or its lease had expired at an instant when every triple ever issued for it, on
   the drone, in flight or stored, had its hard deadline behind it by more than the margin.
   */
  ghost predicate SafelyHandedOver(s: System, off: Offsets, earlier: BackendId, later: BackendId)
    requires earlier in s.grants && later in s.grants
  {
    && earlier !in s.db.keys
    && earlier in s.released
    && s.released[earlier].at <= s.grants[later].at <= s.db.now
    && match s.released[earlier]
       case ByTermination(_) =>
         earlier in s.db.backends ==> s.db.backends[earlier].status == Terminated
       case ByExpiry(at) =>
         && (forall i :: i in s.issued && i.id == earlier ==>
               i.deadlines.hardAt + MARGIN < at + off(s.grants[earlier].drone))
         && (earlier in s.held ==>
               s.held[earlier].hardAt + MARGIN < at + off(s.grants[earlier].drone))
  }

  /** In every run a key only ever passes from one backend to the next safely. */
  lemma HandoverIsSafe(off: Offsets, steps: seq<Step>, i: nat, j: nat)
    requires Valid(START, off, steps)
    requires i < j < |Final(START, off, steps).order|
    requires var s := Final(START, off, steps);
             && s.order[i] in s.grants && s.order[j] in s.grants
             && s.grants[s.order[i]].key == s.grants[s.order[j]].key
    ensures var s := Final(START, off, steps); SafelyHandedOver(s, off, s.order[i], s.order[j])
  {
    ReachableIsSound(off, steps);
    HandoverFromInv(Final(START, off, steps), off, i, j);
  }

  lemma HandoverFromInv(s: System, off: Offsets, i: nat, j: nat)
    requires HistorySound(s, off) && HeldWereIssued(s.held, s.issued) && GrantsPast(s.grants, s.db.now)
    requires i < j < |s.order| && s.order[i] in s.grants && s.order[j] in s.grants
    requires s.grants[s.order[i]].key == s.grants[s.order[j]].key
    ensures SafelyHandedOver(s, off, s.order[i], s.order[j])
  {
    var id := s.order[i];
    assert Over(id, s.released[id], s.grants[id], s.issued, s.db.now, s.db.backends, off);
  }

  /** Not recorded Terminated, and some deadline issued for it is not yet past by the margin. */
  ghost predicate MayRun(s: System, off: Offsets, id: BackendId) {
    && id in s.grants
    && !(id in s.released && s.released[id].ByTermination?)
    && exists i :: i in s.issued && i.id == id
                   && Clock(s, off, s.grants[id].drone) < i.deadlines.hardAt + MARGIN
  }

  lemma EarlierHolderMayNotRun(s: System, off: Offsets, i: nat, j: nat)
    requires HistorySound(s, off) && HeldWereIssued(s.held, s.issued) && GrantsPast(s.grants, s.db.now)
    requires i < j < |s.order| && s.order[i] in s.grants && s.order[j] in s.grants
    requires s.grants[s.order[i]].key == s.grants[s.order[j]].key
    ensures !MayRun(s, off, s.order[i])
  {
    HandoverFromInv(s, off, i, j);
  }

  /** At every moment of every run at most one backend of a key may be running. */
  lemma OneBackendPerKey(off: Offsets, steps: seq<Step>, a: BackendId, b: BackendId)
    requires Valid(START, off, steps) && a != b
    requires var s := Final(START, off, steps);
             a in s.grants && b in s.grants && s.grants[a].key == s.grants[b].key
    ensures var s := Final(START, off, steps); !(MayRun(s, off, a) && MayRun(s, off, b))
  {
    ReachableIsSound(off, steps);
    var s := Final(START, off, steps);
    assert a in s.order && b in s.order;
    var i: nat :| i < |s.order| && s.order[i] == a;
    var j: nat :| j < |s.order| && s.order[j] == b;
    if i < j {
      EarlierHolderMayNotRun(s, off, i, j);
    } else {
      EarlierHolderMayNotRun(s, off, j, i);
    }
  }

  // ----- Nothing more is issued after a lease is gone -----

  lemma StepIssuesNothingFor(s: System, off: Offsets, step: Step, id: BackendId)
    requires Enabled(s, step) && id in s.grants && id !in s.db.keys
    requires step.Transaction? ==> LeasesKept(s.db, Tables.Apply(s.db, step.x))
    ensures var t := Apply(s, off, step);
            && id in t.grants && t.grants[id] == s.grants[id] && id !in t.db.keys
            && forall i: Issue :: i.id == id ==> (i in t.issued <==> i in s.issued)
  {
  }

  /** Once a backend's lease row is gone, no continuation of the run issues it a deadline again. */
  lemma {:induction false} NoFurtherDeadlines(s: System, off: Offsets, steps: seq<Step>, id: BackendId)
    requires Inv(s, off) && Valid(s, off, steps) && id in s.grants && id !in s.db.keys
    ensures id !in Final(s, off, steps).db.keys
    ensures forall i: Issue :: i.id == id ==> (i in Final(s, off, steps).issued <==> i in s.issued)
    decreases |steps|
  {
    if steps != [] {
      StepKeepsInv(s, off, steps[0]);
      if steps[0].Transaction? {
        FreeKeepsLeases(s.db, steps[0].x);
      }
      StepIssuesNothingFor(s, off, steps[0], id);
      NoFurtherDeadlines(Apply(s, off, steps[0]), off, steps[1..], id);
    }
  }

  // ----- Fencing tokens -----

  lemma StepKeepsGrants(s: System, off: Offsets, step: Step, id: BackendId)
    requires Enabled(s, step) && id in s.grants
    ensures id in Apply(s, off, step).grants && Apply(s, off, step).grants[id] == s.grants[id]
  {
  }

  lemma {:induction false} RunKeepsGrants(s: System, off: Offsets, steps: seq<Step>, id: BackendId)
    requires Valid(s, off, steps) && id in s.grants
    ensures id in Final(s, off, steps).grants && Final(s, off, steps).grants[id] == s.grants[id]
    decreases |steps|
  {
    if steps != [] {
      StepKeepsGrants(s, off, steps[0], id);
      RunKeepsGrants(Apply(s, off, steps[0]), off, steps[1..], id);
    }
  }

  /** A lease row has the same token for as long as it exists, through any number of renewals. */
  lemma RenewalsKeepToken(s: System, off: Offsets, steps: seq<Step>, id: BackendId)
    requires Inv(s, off) && Valid(s, off, steps)
    requires id in s.db.keys && id in Final(s, off, steps).db.keys
    ensures Final(s, off, steps).db.keys[id].fencing == s.db.keys[id].fencing
    ensures Final(s, off, steps).db.keys[id].key == s.db.keys[id].key
  {
    RunKeepsInv(s, off, steps);
    RunKeepsGrants(s, off, steps, id);
  }

  /**
   Tokens of later grants are never lower; they are higher exactly when the two grants fall in
   different milliseconds, and by at least one lease term when the earlier lease expired.
   */
  lemma TokensNeverDecrease(off: Offsets, steps: seq<Step>, i: nat, j: nat)
    requires Valid(START, off, steps)
    requires i < j < |Final(START, off, steps).order|
    requires var s := Final(START, off, steps); s.order[i] in s.grants && s.order[j] in s.grants
    ensures var s := Final(START, off, steps);
            var g, h := s.grants[s.order[i]], s.grants[s.order[j]];
            && g.token <= h.token
            && (g.token < h.token <==> (g.at + 500) / 1000 != (h.at + 500) / 1000)
            && (g.key == h.key && s.order[i] in s.released && s.released[s.order[i]].ByExpiry?
                ==> h.token - g.token >= 60_000)
  {
    ReachableIsSound(off, steps);
    var s := Final(START, off, steps);
    var g, h := s.grants[s.order[i]], s.grants[s.order[j]];
    assert g.at <= h.at;
    if g.key == h.key && s.order[i] in s.released && s.released[s.order[i]].ByExpiry? {
      HandoverFromInv(s, off, i, j);
      assert Over(s.order[i], s.released[s.order[i]], g, s.issued, s.db.now, s.db.backends, off);
      assert h.at >= g.at + 60 * SECOND;
    }
  }

  lemma Unfold(s: System, off: Offsets, step: Step, rest: seq<Step>)
    ensures Valid(s, off, [step] + rest) <==> Enabled(s, step) && Valid(Apply(s, off, step), off, rest)
    ensures Final(s, off, [step] + rest) == Final(Apply(s, off, step), off, rest)
  {
    assert ([step] + rest)[1..] == rest;
  }

  lemma ThreeSteps(s: System, off: Offsets, a: Step, b: Step, c: Step)
    ensures var s1 := Apply(s, off, a);
            var s2 := Apply(s1, off, b);
            && (Valid(s, off, [a] + ([b] + ([c] + [])))
                <==> Enabled(s, a) && Enabled(s1, b) && Enabled(s2, c))
            && Final(s, off, [a] + ([b] + ([c] + []))) == Apply(s2, off, c)
  {
    var s1 := Apply(s, off, a);
    Unfold(s, off, a, [b] + ([c] + []));
    Unfold(s1, off, b, [c] + []);
    Unfold(Apply(s1, off, b), off, c, []);
  }

  lemma UpdateLeavesGrants(s: System, off: Offsets, id: BackendId, st: State)
    ensures var t := Apply(s, off, Transaction(UpdateState(id, st)));
            && Enabled(s, Transaction(UpdateState(id, st)))
            && t.db == UpdateStateStep(s.db, id, st) && t.db.now == s.db.now
            && t.picks == s.picks && t.grants == s.grants && t.order == s.order
  {
  }

  lemma EndedFreesTheKey(db: Db, n: NewBackend, m: NewBackend, done: State)
    requires CanCreate(db, n) && CanCreate(db, m)
    requires n.id != m.id && n.action != m.action && n.key == m.key && done.Status() == Terminated
    ensures CanCreate(UpdateStateStep(CreateStep(db, n), n.id, done), m)
  {
  }

  /**
   The documented strict increase fails: from every state in which a key can be taken, a backend
   that ends at once and is replaced in the same millisecond leaves two holders with one token.
   */
  lemma ReplacementTies(s: System, off: Offsets, n: NewBackend, m: NewBackend, done: State)
    requires Enabled(s, Acquire(n)) && CanCreate(s.db, n)
    requires Enabled(s, Acquire(m)) && CanCreate(s.db, m)
    requires n.id != m.id && n.action != m.action && n.key == m.key && done.Status() == Terminated
    ensures var steps := [Acquire(n)] + ([Transaction(UpdateState(n.id, done))] + ([Acquire(m)] + []));
            && Valid(s, off, steps)
            && var t := Final(s, off, steps);
               && t.order == s.order + [n.id, m.id] && n.id in t.grants && m.id in t.grants
               && t.grants[n.id].key == t.grants[m.id].key
               && t.grants[n.id].token == t.grants[m.id].token
  {
    var ended, again := Transaction(UpdateState(n.id, done)), Acquire(m);
    var s1 := AcquireStep(s, n);
    var s2 := Apply(s1, off, ended);
    var s3 := Apply(s2, off, again);
    ThreeSteps(s, off, Acquire(n), ended, again);
    UpdateLeavesGrants(s1, off, n.id, done);
    EndedFreesTheKey(s.db, n, m, done);
    assert s3 == AcquireStep(s2, m);
    assert s3.order == s.order + [n.id, m.id];
  }

  /** One drone that has reported its clock and been picked. */
  function OneDrone(): seq<Step> {
    [Transaction(RegisterDrone(7))] +
    ([SendHeartbeat(7)] + ([HandleHeartbeat(Stamp(7, 0))] + ([PickDrone(7)] + [])))
  }

  /** Such states are reachable. */
  lemma TiesAreReachable(key: Key)
    ensures var off := (d: DroneId) => 0;
            && Valid(START, off, OneDrone())
            && var s := Final(START, off, OneDrone());
               forall id, action :: var n := NewBackend(id, key, "", 7, 0, None, None, None, action);
                 Enabled(s, Acquire(n)) && CanCreate(s.db, n)
  {
    var off := (d: DroneId) => 0;
    var steps := OneDrone();
    var s1 := Apply(START, off, steps[0]);
    Unfold(START, off, steps[0], steps[1..]);
    var s2 := Apply(s1, off, steps[1]);
    Unfold(s1, off, steps[1], steps[2..]);
    var s3 := Apply(s2, off, steps[2]);
    Unfold(s2, off, steps[2], steps[3..]);
    Unfold(s3, off, steps[3], []);
  }

  // ----- Deadlines that reach the drone -----

  /** A spawn brings its drone deadlines 30, 40 and 40 seconds after the drone's last known time. */
  lemma SpawnReachesTheDrone(s: System, off: Offsets, n: NewBackend)
    requires Enabled(s, Acquire(n)) && CanCreate(s.db, n) && n.id !in s.held
    ensures var d := Deadlines(n.lastLocalTime + 30_000_000, n.lastLocalTime + 40_000_000,
                               n.lastLocalTime + 40_000_000);
            var t, i := Apply(s, off, Acquire(n)), Issue(n.id, d, false);
            && Enabled(t, ReceiveSpawn(i))
            && Apply(t, off, ReceiveSpawn(i)).held == s.held[n.id := d]
            && n.id in t.grants && t.grants[n.id].key == n.key && t.grants[n.id].drone == n.drone
  {
  }

  /** A spawn that arrives again does not replace what the drone has. */
  lemma RepeatedSpawnIsIgnored(s: System, off: Offsets, i: Issue)
    requires i.id in s.held
    ensures Apply(s, off, ReceiveSpawn(i)) == s
  {
  }

  /**
   A renewal that is asked for, handled and answered brings the drone deadlines 30, 40 and 50
   seconds after the time at which it asked, and extends the lease by a minute from the handling.
   */
  lemma RenewalReachesTheDrone(s: System, off: Offsets, id: BackendId, dt: Time)
    requires id in s.held && id in s.grants && Renewable(s.db, id) && dt >= 0
    ensures var asked := s.db.now + off(s.grants[id].drone);
            var r := Request(id, asked);
            var d := Deadlines(asked + 30_000_000, asked + 40_000_000, asked + 50_000_000);
            var s1 := Apply(Apply(s, off, SendRenew(id)), off, Transaction(Tick(dt)));
            var s2 := Apply(s1, off, HandleRenew(r));
            var i := Issue(id, d, true);
            && Enabled(s, SendRenew(id)) && Enabled(s1, HandleRenew(r)) && Enabled(s2, ReceiveRenewal(i))
            && id in s2.db.keys && s2.db.keys[id].expiresAt == s.db.now + dt + 60_000_000
            && Apply(s2, off, ReceiveRenewal(i)).held == s.held[id := d]
  {
  }

  /** A renewal that is refused has no answer and no effect. */
  lemma RefusedRenewalIsSilent(s: System, off: Offsets, r: Request)
    requires !(r.id in s.db.keys && s.db.keys[r.id].allowRenew)
    ensures Apply(s, off, HandleRenew(r)) == s
  {
  }

  /** An answer for a backend that the drone no longer holds is dropped; unregistering forgets one. */
  lemma ForgottenStaysForgotten(s: System, off: Offsets, i: Issue)
    requires i.id !in s.held
    ensures Apply(s, off, ReceiveRenewal(i)) == s
    ensures Apply(s, off, Unregister(i.id)) == s && !Enabled(s, SendRenew(i.id))
  {
    assert s.held - {i.id} == s.held;
  }

  /** Unregistering a backend, or restarting its drone, at any time, drops its deadlines and no others. */
  lemma OnlyItsOwnIsForgotten(s: System, off: Offsets, id: BackendId, x: BackendId, drone: DroneId)
    ensures Enabled(s, Unregister(id)) && Enabled(s, RestartDrone(drone))
    ensures x in Apply(s, off, Unregister(id)).held <==> x in s.held && x != id
    ensures x in Apply(s, off, RestartDrone(drone)).held
            <==> x in s.held && !(x in s.grants && s.grants[x].drone == drone)
    ensures x in Apply(s, off, Unregister(id)).held ==>
              Apply(s, off, Unregister(id)).held[x] == s.held[x]
    ensures x in Apply(s, off, RestartDrone(drone)).held ==>
              Apply(s, off, RestartDrone(drone)).held[x] == s.held[x]
  {
  }

  /** What a picked drone is known by is its own clock at the last heartbeat that was handled. */
  lemma HeartbeatReachesThePick(s: System, off: Offsets, drone: DroneId)
    requires drone in s.db.drones
    ensures var stamp := Stamp(drone, s.db.now + off(drone));
            var s1 := Apply(s, off, SendHeartbeat(drone));
            var s2 := Apply(s1, off, HandleHeartbeat(stamp));
            && Enabled(s1, HandleHeartbeat(stamp)) && Enabled(s2, PickDrone(drone))
            && Apply(s2, off, PickDrone(drone)).picks == s.picks + {stamp}
  {
  }
}
