/**
 Connecting to a key (plane/src/database/connect.rs): several transactions with other clients'
 transactions between them, retried up to three times, against an atomic get-or-create.
 */
module Connect {
  import opened Basics
  import opened BackendStates
  import opened Tables
  import opened Database

  const UNHEALTHY: Time := 45 * SECOND

  datatype ConnectError =
    | NoDroneAvailable
    | KeyHeldWithTag(keyTag: string)
    | KeyUnheldNoSpawnConfig
    | FailedToRemoveKey
    | FailedToAcquireKey
    | DatabaseError
    | OtherError
    | NoClusterProvided
  {
    predicate Retryable() {
      FailedToRemoveKey? || FailedToAcquireKey?
    }
  }

  datatype SpawnConfig = SpawnConfig(
    id: Option<BackendId>,
    hasCluster: bool,
    lifetime: Option<Time>,
    maxIdle: Option<int>,
    useStaticToken: bool)

  datatype KeyConfig = KeyConfig(key: Key, tag: string)

  datatype ConnectRequest = ConnectRequest(key: Option<KeyConfig>, spawn: Option<SpawnConfig>)

  datatype Outcome =
    | Connected(id: BackendId, spawned: bool, status: Status, token: string)
    | Failed(error: ConnectError)

  /**
   What one attempt leaves to chance: random names, the order in which the drone query meets the
   drones of the right kind, and the transactions other clients commit before the attempt and
   after each of its own. `bestOf` is the controller's sample size.
   */
  datatype Chance = Chance(
    randomKey: Key,
    randomId: BackendId,
    action: nat,
    token: string,
    shuffle: seq<DroneId>,
    bestOf: nat,
    before: seq<Txn>,
    afterCheck: seq<Txn>,
    afterRemove: seq<Txn>,
    afterPick: seq<Txn>,
    afterCreate: seq<Txn>)

  // ----- The atomic operation -----

  datatype Answer = Existing(id: BackendId, status: Status) | Created(id: BackendId) | Refused(error: ConnectError)

  ghost predicate Holds(db: Db, key: Key, id: BackendId) {
    id in db.keys && db.keys[id].key == key
  }

  ghost function Holder(db: Db, key: Key): (r: Option<BackendId>)
    ensures r.Some? <==> KeyHeld(db, key)
    ensures r.Some? ==> Holds(db, key, r.value)
  {
    if KeyHeld(db, key) then
      assert exists id :: id in db.keys && db.keys[id].key == key && Holds(db, key, id);
      var id :| Holds(db, key, id);
      Some(id)
    else None
  }

  /** Frees the key if its lease has expired, then creates `n` if the key is free. */
  ghost function CreateIfFree(db: Db, n: Option<NewBackend>): (Db, Answer) {
    if n.None? then (db, Refused(KeyUnheldNoSpawnConfig))
    else if CanCreate(db, n.value) then (CreateStep(db, n.value), Created(n.value.id))
    else (db, Refused(FailedToAcquireKey))
  }

  /**
   Get-or-create in one step: the live holder if its tag matches, otherwise a new holder in
   place of an expired one or of none.
   */
  ghost function GetOrCreate(db: Db, want: KeyConfig, n: Option<NewBackend>): (Db, Answer) {
    match Holder(db, want.key)
    case None => CreateIfFree(db, n)
    case Some(id) =>
      if Live(db, id) then
        if db.keys[id].tag == want.tag
        then (db, if id in db.backends then Existing(id, db.backends[id].status) else Refused(DatabaseError))
        else (db, Refused(KeyHeldWithTag(db.keys[id].tag)))
      else if Expired(db, id) then CreateIfFree(Apply(db, RemoveKey(id)), n)
      else (db, Refused(FailedToRemoveKey))
  }

  /** The key's lease ends at this very instant: it is not live any more and not yet removable. */
  ghost predicate AtExpiry(db: Db, key: Key) {
    exists id :: Holds(db, key, id) && db.keys[id].expiresAt == db.now
  }

  /** Get-or-create fails to remove a lease exactly at the instant of its expiry. */
  lemma ExpiryInstantIff(db: Db, want: KeyConfig, n: Option<NewBackend>)
    requires OneHolderPerKey(db.keys)
    ensures GetOrCreate(db, want, n).1 == Refused(FailedToRemoveKey) <==> AtExpiry(db, want.key)
  {
    var holder := Holder(db, want.key);
    if holder.Some? {
      assert Holds(db, want.key, holder.value);
      forall id | Holds(db, want.key, id) ensures id == holder.value {
        HolderIsUnique(db, want.key, id);
      }
    }
  }

  /** That instant comes for every key: one lease term after a backend took it. */
  lemma ExpiryInstantIsReachable(key: Key)
    ensures var n := NewBackend(1, key, "", 7, 0, None, None, None, 1);
            var xs := [RegisterDrone(7), Create(n), Tick(KEY_LEASE_EXPIRATION)];
            Valid(EMPTY, xs) && AtExpiry(Final(EMPTY, xs), key)
  {
    var n := NewBackend(1, key, "", 7, 0, None, None, None, 1);
    var db1 := Apply(EMPTY, RegisterDrone(7));
    var db2 := Apply(db1, Create(n));
    var db3 := Apply(db2, Tick(KEY_LEASE_EXPIRATION));
    assert [RegisterDrone(7), Create(n), Tick(KEY_LEASE_EXPIRATION)][1..]
        == [Create(n), Tick(KEY_LEASE_EXPIRATION)];
    assert [Create(n), Tick(KEY_LEASE_EXPIRATION)][1..] == [Tick(KEY_LEASE_EXPIRATION)];
    assert [Tick(KEY_LEASE_EXPIRATION)][1..] == [];
    assert Valid(db3, []) && Final(db3, []) == db3;
    assert Valid(db2, [Tick(KEY_LEASE_EXPIRATION)]) && Final(db2, [Tick(KEY_LEASE_EXPIRATION)]) == db3;
    assert Valid(db1, [Create(n), Tick(KEY_LEASE_EXPIRATION)]);
    assert Final(db1, [Create(n), Tick(KEY_LEASE_EXPIRATION)]) == db3;
    assert Holds(db3, key, 1);
  }

  lemma HolderIsUnique(db: Db, key: Key, id: BackendId)
    requires OneHolderPerKey(db.keys) && Holds(db, key, id)
    ensures Holder(db, key) == Some(id)
  {
  }

  /** The lease a stale check saw is removed only if it is still there and still expired. */
  lemma StaleCheckRemovesOnlyExpired(db: Db, seen: BackendId, other: BackendId)
    requires other in db.keys && other !in Apply(db, RemoveKey(seen)).keys
    ensures other == seen && !Live(db, other) && db.keys[other].expiresAt < db.now
  {
  }

  // ----- What an outcome means -----

  /** Nobody holds the key with a live lease. */
  ghost predicate Unheld(db: Db, key: Key) {
    forall id :: Holds(db, key, id) ==> !Live(db, id)
  }

  /**
   Where in the run an outcome comes from: the check that led to it, the moment that decided it,
   the backend it would have created and the moment its drone was picked, and the moment its token
   was to be stored for `holder`.
   */
  datatype Evidence = Evidence(
    seen: nat,
    picked: nat,
    decided: nat,
    n: Option<NewBackend>,
    confirmed: nat,
    holder: BackendId)

  function At(seen: nat, decided: nat, n: Option<NewBackend>): Evidence {
    Evidence(seen, seen, decided, n, decided, 0)
  }

  /** The check found no live lease on the key, if the request names one. */
  ghost predicate Cleared(past: seq<Db>, e: Evidence, r: ConnectRequest, want: KeyConfig)
    requires e.seen < |past|
  {
    r.key.Some? ==> r.key == Some(want) && Unheld(past[e.seen], want.key)
  }

  predicate CanSpawn(r: ConnectRequest) {
    r.spawn.Some? && r.spawn.value.hasCluster
  }

  /** The backend that the attempt tries to create is the one that was asked for. */
  predicate Specified(n: NewBackend, r: ConnectRequest, want: KeyConfig, c: Chance)
    requires CanSpawn(r)
  {
    var spawn := r.spawn.value;
    && n.id == NewId(r, c) && n.key == want.key && n.tag == want.tag
    && n.drone in c.shuffle && n.action == c.action
    && n.lifetime == spawn.lifetime && n.allowedIdle == spawn.maxIdle
    && n.staticToken == if spawn.useStaticToken then Some(STATIC_TOKEN_PREFIX + c.token) else None
  }

  /** Its drone, and the local time its deadlines count from, are those of the best of the sample. */
  ghost predicate PickedAt(db: Db, n: NewBackend, c: Chance) {
    && n.drone in Sample(db, c.shuffle, c.bestOf)
    && db.drones[n.drone].lastLocalTime == Some(n.lastLocalTime)
    && forall d :: d in Sample(db, c.shuffle, c.bestOf) ==> Load(db, n.drone) <= Load(db, d)
  }

  /** The backend that was to be created, and where it was to run. */
  ghost predicate Planned(past: seq<Db>, e: Evidence, r: ConnectRequest, want: KeyConfig, c: Chance)
    requires e.seen <= e.picked <= e.decided < |past|
  {
    && Cleared(past, e, r, want) && CanSpawn(r)
    && e.n.Some? && Specified(e.n.value, r, want, c) && PickedAt(past[e.picked], e.n.value, c)
  }

  /** The live holder, with the wanted tag, at the check. */
  ghost predicate FoundAt(db: Db, r: ConnectRequest, want: KeyConfig, b: BackendId) {
    && r.key == Some(want) && b in db.backends
    && GetOrCreate(db, want, None) == (db, Existing(b, db.backends[b].status))
  }

  /** A new backend that took a free key at the insert. */
  ghost predicate SpawnedAt(past: seq<Db>, e: Evidence, r: ConnectRequest, want: KeyConfig,
                            c: Chance, b: BackendId)
    requires e.seen <= e.picked <= e.decided < |past|
  {
    && Planned(past, e, r, want, c) && b == NewId(r, c)
    && !KeyHeld(past[e.decided], want.key)
    && e.decided + 1 < |past|
    && GetOrCreate(past[e.decided], want, e.n) == (past[e.decided + 1], Created(b))
  }

  /** The insert ran into something other than a unique index on the backend or its key. */
  ghost predicate InsertRefused(past: seq<Db>, e: Evidence, r: ConnectRequest, want: KeyConfig, c: Chance)
    requires e.seen <= e.picked <= e.decided < |past|
  {
    Planned(past, e, r, want, c) && !Taken(past[e.decided], NewId(r, c), want.key)
  }

  /** The backend was found or created, but its token could not be stored. */
  ghost predicate TokenBroke(past: seq<Db>, e: Evidence, r: ConnectRequest, want: KeyConfig, c: Chance)
    requires e.seen <= e.picked <= e.decided <= e.confirmed < |past|
  {
    && (FoundAt(past[e.decided], r, want, e.holder) || SpawnedAt(past, e, r, want, c, e.holder))
    && (c.token in past[e.confirmed].tokens || e.holder !in past[e.confirmed].backends)
  }

  /**
   The atomic operation at the deciding moment gives this outcome: a found backend is the live
   holder, with the wanted tag, at the check; a created one took a free key at the insert; every
   failure is due to what the database, at the deciding moment, had standing in the way.
   */
  ghost predicate Explained(past: seq<Db>, e: Evidence, r: ConnectRequest, want: KeyConfig,
                            c: Chance, o: Outcome)
    requires e.seen <= e.picked <= e.decided <= e.confirmed < |past|
  {
    var db := past[e.decided];
    match o
    case Connected(b, false, status, _) => FoundAt(db, r, want, b) && status == db.backends[b].status
    case Connected(b, true, status, _) => SpawnedAt(past, e, r, want, c, b) && status == Scheduled
    case Failed(KeyHeldWithTag(tag)) =>
      && r.key == Some(want) && tag != want.tag
      && GetOrCreate(db, want, None).1 == Refused(KeyHeldWithTag(tag))
    case Failed(KeyUnheldNoSpawnConfig) => r.spawn.None? && Cleared(past, e, r, want)
    case Failed(NoClusterProvided) =>
      r.spawn.Some? && !r.spawn.value.hasCluster && Cleared(past, e, r, want)
    case Failed(NoDroneAvailable) =>
      && CanSpawn(r) && Cleared(past, e, r, want)
      && (c.bestOf == 0 || forall d :: d in c.shuffle ==> !Suitable(db, d))
    case Failed(FailedToRemoveKey) =>
      && r.key == Some(want)
      && exists b :: Holds(past[e.seen], want.key, b) && !Live(past[e.seen], b) && !Expired(db, b)
    case Failed(FailedToAcquireKey) =>
      CanSpawn(r) && Cleared(past, e, r, want) && Taken(db, NewId(r, c), want.key)
    case Failed(DatabaseError) =>
      || (InsertRefused(past, e, r, want, c) && e.n.value.drone !in db.drones)
      || TokenBroke(past, e, r, want, c)
    case Failed(OtherError) =>
      InsertRefused(past, e, r, want, c) && e.n.value.drone in db.drones && c.action in db.actions
  }

  /** A token under which a backend is to be found: its static one, or one stored for it. */
  predicate Opens(db: Db, token: string, id: BackendId) {
    && id in db.backends
    && (db.backends[id].staticToken == Some(token) || (token in db.tokens && db.tokens[token] == id))
  }

  /** What a connected client is handed opened its backend, once that was found or created. */
  ghost predicate Handed(past: seq<Db>, e: Evidence, o: Outcome) {
    o.Connected? ==> exists k :: e.decided <= k < |past| && Opens(past[k], o.token, o.id)
  }

  /** An attempt that began at `from` has its outcome explained, and its client handed a token. */
  ghost predicate Accounted(past: seq<Db>, from: nat, e: Evidence, r: ConnectRequest, c: Chance, o: Outcome) {
    && from <= e.seen <= e.picked <= e.decided <= e.confirmed < |past|
    && Explained(past, e, r, Wanted(r, c), c, o) && Handed(past, e, o)
    && (o.Connected? && o.spawned ==> o.id == NewId(r, c))
  }

  function Wanted(r: ConnectRequest, c: Chance): KeyConfig {
    if r.key.Some? then r.key.value else KeyConfig(c.randomKey, "")
  }

  function NewId(r: ConnectRequest, c: Chance): BackendId {
    if r.spawn.Some? && r.spawn.value.id.Some? then r.spawn.value.id.value else c.randomId
  }

  // ----- The drone query -----

  /** The columns of the drone query that this model has: a known clock and a recent heartbeat. */
  predicate Suitable(db: Db, d: DroneId) {
    && d in db.drones && db.drones[d].lastLocalTime.Some? && db.drones[d].lastHeartbeat.Some?
    && db.now - db.drones[d].lastHeartbeat.value < UNHEALTHY
  }

  /** Backends on a drone that are not terminated. */
  function Running(db: Db, d: DroneId): set<BackendId> {
    set id | id in db.backends && db.backends[id].drone == d && db.backends[id].status != Terminated
  }

  function Load(db: Db, d: DroneId): nat {
    |Running(db, d)|
  }

  /** The first `n` suitable drones of `shuffle`. */
  function Sample(db: Db, shuffle: seq<DroneId>, n: nat): (s: seq<DroneId>)
    ensures forall d :: d in s ==> d in shuffle && Suitable(db, d)
    ensures s == [] <==> n == 0 || forall d :: d in shuffle ==> !Suitable(db, d)
    ensures |s| <= n
    decreases |shuffle|
  {
    if n == 0 || shuffle == [] then []
    else
      assert forall d :: d in shuffle <==> d == shuffle[0] || d in shuffle[1..];
      if Suitable(db, shuffle[0]) then [shuffle[0]] + Sample(db, shuffle[1..], n - 1)
      else Sample(db, shuffle[1..], n)
  }

  /** A drone of the sample with the fewest backends; none exactly if the sample is empty. */
  method PickDroneForSpawn(db: Database, shuffle: seq<DroneId>, bestOf: nat)
    returns (r: Option<(DroneId, Time)>)
    requires db.Valid()
    ensures r.None? <==> bestOf == 0 || forall d :: d in shuffle ==> !Suitable(db.View(), d)
    ensures r.Some? ==>
              && r.value.0 in Sample(db.View(), shuffle, bestOf)
              && db.drones[r.value.0].lastLocalTime == Some(r.value.1)
              && forall d :: d in Sample(db.View(), shuffle, bestOf) ==>
                   Load(db.View(), r.value.0) <= Load(db.View(), d)
  {
    var result := Sample(db.View(), shuffle, bestOf);
    if result == [] {
      return None;
    }
    var best := result[0];
    for i := 1 to |result|
      invariant best in result
      invariant forall k :: 0 <= k < i ==> Load(db.View(), best) <= Load(db.View(), result[k])
    {
      if Load(db.View(), result[i]) < Load(db.View(), best) {
        best := result[i];
      }
    }
    r := Some((best, db.drones[best].lastLocalTime.value));
  }

  lemma LiveHolderIsFound(db: Db, want: KeyConfig, k: KeyResult)
    requires Consistent(db) && Holds(db, want.key, k.id) && db.now < db.keys[k.id].expiresAt
    requires k.tag == db.keys[k.id].tag && k.id in db.backends && k.status == db.backends[k.id].status
    ensures k.tag == want.tag ==> GetOrCreate(db, want, None) == (db, Existing(k.id, k.status))
    ensures k.tag != want.tag ==> GetOrCreate(db, want, None).1 == Refused(KeyHeldWithTag(k.tag))
  {
    HolderIsUnique(db, want.key, k.id);
  }

  lemma FreeKeyIsCreated(db: Db, want: KeyConfig, n: NewBackend)
    requires CanCreate(db, n) && n.key == want.key
    ensures GetOrCreate(db, want, Some(n)) == (CreateStep(db, n), Created(n.id))
  {
  }

  /**
   The check of an attempt: settles it if the lease is live, otherwise clears the way for a new
   holder. `None` means that the attempt goes on to create a backend.
   */
  method SettleHolder(db: Database, r: ConnectRequest, want: KeyConfig, c: Chance)
    returns (o: Option<Outcome>, ghost e: Evidence)
    requires db.Valid() && r.key == Some(want)
    modifies db
    ensures db.Valid() && old(db.past) <= db.past
    ensures |old(db.past)| - 1 <= e.seen <= e.picked <= e.decided <= e.confirmed < |db.past|
    ensures o.Some? ==> Explained(db.past, e, r, want, c, o.value)
    ensures o.None? ==> Unheld(db.past[e.seen], want.key)
    ensures o.Some? ==> Handed(db.past, e, o.value)
    ensures c.afterCheck == [] ==>
              (o == Some(Failed(FailedToRemoveKey)) <==> AtExpiry(old(db.View()), want.key))
  {
    ghost var lo := |db.past| - 1;
    e := At(lo, lo, None);
    RunStatesConsistent(db.past, lo);
    OnlyHolderExpires(db.past[lo], want.key);
    var found := db.CheckKey(want.key);
    if found.None? {
      assert Unheld(db.past[lo], want.key);
      return None, e;
    }
    var k := found.value;
    if k.IsLive() {
      var settled;
      settled, e := TakeHolder(db, r, want, c, k);
      return Some(settled), e;
    }
    LapsedHolderLeavesUnheld(db.past[lo], want.key, k.id);
    o, e := DropHolder(db, r, want, c, k.id);
  }

  /** Answers with a live holder, if its tag is the wanted one. */
  method TakeHolder(db: Database, r: ConnectRequest, want: KeyConfig, c: Chance, k: KeyResult)
    returns (o: Outcome, ghost e: Evidence)
    requires db.Valid() && r.key == Some(want)
    requires Holds(db.View(), want.key, k.id) && Live(db.View(), k.id) && k.id in db.backends
    requires k.tag == db.keys[k.id].tag && k.status == db.backends[k.id].status
    requires k.staticToken == db.backends[k.id].staticToken
    modifies db
    ensures db.Valid() && old(db.past) <= db.past
    ensures |old(db.past)| - 1 <= e.seen <= e.picked <= e.decided <= e.confirmed < |db.past|
    ensures Explained(db.past, e, r, want, c, o) && Handed(db.past, e, o)
    ensures o != Failed(FailedToRemoveKey)
  {
    ghost var lo := |db.past| - 1;
    e := At(lo, lo, None);
    RunStatesConsistent(db.past, lo);
    LiveHolderIsFound(db.past[lo], want, k);
    if k.tag != want.tag {
      o := Failed(KeyHeldWithTag(k.tag));
    } else if k.staticToken.Some? {
      o := Connected(k.id, false, k.status, k.staticToken.value);
      assert Opens(db.past[lo], k.staticToken.value, k.id);
    } else {
      o, e := ConfirmToken(db, r, want, c, Connected(k.id, false, k.status, c.token), e);
    }
  }

  lemma OnlyHolderExpires(db: Db, key: Key)
    requires OneHolderPerKey(db.keys)
    ensures forall id :: Holds(db, key, id) ==> (AtExpiry(db, key) <==> db.keys[id].expiresAt == db.now)
    ensures AtExpiry(db, key) ==> KeyHeld(db, key)
  {
  }

  lemma LapsedHolderLeavesUnheld(db: Db, key: Key, id: BackendId)
    requires OneHolderPerKey(db.keys) && Holds(db, key, id) && !Live(db, id)
    ensures Unheld(db, key)
  {
  }

  /** Removes a lease that a check found not live; it may have changed since. */
  method DropHolder(db: Database, r: ConnectRequest, want: KeyConfig, c: Chance, id: BackendId)
    returns (o: Option<Outcome>, ghost e: Evidence)
    requires db.Valid() && r.key == Some(want)
    requires Holds(db.View(), want.key, id) && !Live(db.View(), id) && Unheld(db.View(), want.key)
    modifies db
    ensures db.Valid() && old(db.past) <= db.past
    ensures |old(db.past)| - 1 <= e.seen <= e.picked <= e.decided <= e.confirmed < |db.past|
    ensures o.Some? ==> Explained(db.past, e, r, want, c, o.value)
    ensures o.None? ==> Unheld(db.past[e.seen], want.key)
    ensures o.Some? ==> o == Some(Failed(FailedToRemoveKey))
    ensures c.afterCheck == [] ==> (o.Some? <==> !Expired(old(db.View()), id))
  {
    ghost var lo := |db.past| - 1;
    db.Others(c.afterCheck);
    ghost var at := |db.past| - 1;
    var removed := db.RemoveKey(id);
    if !removed {
      assert Holds(db.past[lo], want.key, id) && !Expired(db.past[at], id);
      return Some(Failed(FailedToRemoveKey)), At(lo, at, None);
    }
    return None, At(lo, lo, None);
  }

  /** One attempt: settle on a live holder, or create a new one. */
  method AttemptConnect(db: Database, r: ConnectRequest, c: Chance)
    returns (o: Outcome, ghost e: Evidence)
    requires db.Valid()
    modifies db
    ensures db.Valid() && old(db.past) <= db.past
    ensures Accounted(db.past, |old(db.past)| - 1, e, r, c, o)
    ensures c.before == [] && c.afterCheck == [] && r.key.Some? ==>
              (o == Failed(FailedToRemoveKey) <==> AtExpiry(old(db.View()), r.key.value.key))
  {
    db.Others(c.before);
    var want := Wanted(r, c);
    e := At(|db.past| - 1, |db.past| - 1, None);
    if r.key.Some? {
      var settled;
      settled, e := SettleHolder(db, r, want, c);
      if settled.Some? {
        o := settled.value;
        return;
      }
    }
    if r.spawn.None? {
      o := Failed(KeyUnheldNoSpawnConfig);
      return;
    }
    if !r.spawn.value.hasCluster {
      o := Failed(NoClusterProvided);
      return;
    }
    o, e := CreateHolder(db, r, want, c, e);
  }

  /** Picks a drone and tries to create a backend that holds the key. */
  method CreateHolder(db: Database, r: ConnectRequest, want: KeyConfig, c: Chance, ghost check: Evidence)
    returns (o: Outcome, ghost e: Evidence)
    requires db.Valid() && CanSpawn(r)
    requires check.seen < |db.past| && Cleared(db.past, check, r, want)
    modifies db
    ensures db.Valid() && old(db.past) <= db.past
    ensures e.seen == check.seen && e.seen <= e.picked <= e.decided <= e.confirmed < |db.past|
    ensures |old(db.past)| - 1 <= e.decided
    ensures Explained(db.past, e, r, want, c, o) && Handed(db.past, e, o)
    ensures o != Failed(FailedToRemoveKey)
  {
    db.Others(c.afterRemove);
    e := At(check.seen, |db.past| - 1, None);
    var drone := PickDroneForSpawn(db, c.shuffle, c.bestOf);
    if drone.None? {
      assert db.View() == db.past[e.decided];
      o := Failed(NoDroneAvailable);
      return;
    }
    ghost var at := e.decided;
    assert db.View() == db.past[at];
    db.Others(c.afterPick);
    var n := NewBackend(NewId(r, c), want.key, want.tag, drone.value.0, drone.value.1,
                        r.spawn.value.lifetime, r.spawn.value.maxIdle,
                        if r.spawn.value.useStaticToken then Some(STATIC_TOKEN_PREFIX + c.token) else None,
                        c.action);
    o, e := InsertHolder(db, r, want, c, n, check, at);
  }

  /** The insert, and the token for what it created. */
  method InsertHolder(db: Database, r: ConnectRequest, want: KeyConfig, c: Chance, n: NewBackend,
                      ghost check: Evidence, ghost at: nat)
    returns (o: Outcome, ghost e: Evidence)
    requires db.Valid() && CanSpawn(r) && Specified(n, r, want, c)
    requires check.seen <= at < |db.past| && Cleared(db.past, check, r, want)
    requires PickedAt(db.past[at], n, c)
    modifies db
    ensures db.Valid() && old(db.past) <= db.past
    ensures e.seen == check.seen && e.seen <= e.picked <= e.decided <= e.confirmed < |db.past|
    ensures |old(db.past)| - 1 <= e.decided
    ensures Explained(db.past, e, r, want, c, o) && Handed(db.past, e, o)
    ensures o != Failed(FailedToRemoveKey)
  {
    e := At(check.seen, |db.past| - 1, Some(n)).(picked := at);
    ghost var before := db.View();
    var inserted := db.CreateBackendWithKey(n);
    assert db.past[e.decided] == before;
    if inserted.Inserted? {
      FreeKeyIsCreated(before, want, n);
      if n.staticToken.Some? {
        o := Connected(n.id, true, Scheduled, n.staticToken.value);
        assert Opens(db.past[e.decided + 1], n.staticToken.value, n.id);
      } else {
        o, e := ConfirmToken(db, r, want, c, Connected(n.id, true, Scheduled, c.token), e);
      }
    } else {
      o := Failed(match inserted
                  case Conflict => FailedToAcquireKey
                  case NoDrone => DatabaseError
                  case _ => OtherError);
    }
  }

  /** Creates the user's token for the backend that was found or created. */
  method ConfirmToken(db: Database, r: ConnectRequest, want: KeyConfig, c: Chance,
                      found: Outcome, ghost basis: Evidence)
    returns (o: Outcome, ghost e: Evidence)
    requires db.Valid() && found.Connected? && basis.seen <= basis.picked <= basis.decided <= basis.confirmed < |db.past|
    requires Explained(db.past, basis, r, want, c, found) && found.token == c.token
    modifies db
    ensures db.Valid() && old(db.past) <= db.past
    ensures o == found || o == Failed(DatabaseError)
    ensures e.seen == basis.seen <= e.picked == basis.picked <= e.decided == basis.decided
    ensures e.decided <= e.confirmed < |db.past|
    ensures Explained(db.past, e, r, want, c, o) && Handed(db.past, e, o)
  {
    var created;
    ghost var at;
    created, at := StoreToken(db, c, found.id);
    e := basis.(confirmed := at, holder := found.id);
    o := if created then found else Failed(DatabaseError);
    TokenOutcome(old(db.past), db.past, basis, e, r, want, c, found, created);
  }

  method StoreToken(db: Database, c: Chance, b: BackendId) returns (created: bool, ghost at: nat)
    requires db.Valid()
    modifies db
    ensures db.Valid() && old(db.past) <= db.past
    ensures |old(db.past)| - 1 <= at < |db.past|
    ensures created <==> c.token !in db.past[at].tokens && b in db.past[at].backends
    ensures created ==> at + 1 < |db.past| && Opens(db.past[at + 1], c.token, b)
  {
    db.Others(c.afterCreate);
    ghost var before := db.View();
    at := |db.past| - 1;
    created := db.CreateToken(c.token, b);
    assert db.past[at] == before;
  }

  lemma TokenFails(past: seq<Db>, e: Evidence, r: ConnectRequest, want: KeyConfig, c: Chance, found: Outcome)
    requires e.seen <= e.picked <= e.decided <= e.confirmed < |past| && found.Connected? && e.holder == found.id
    requires Explained(past, e, r, want, c, found)
    requires c.token in past[e.confirmed].tokens || found.id !in past[e.confirmed].backends
    ensures Explained(past, e, r, want, c, Failed(DatabaseError))
  {
    assert TokenBroke(past, e, r, want, c);
  }

  /** Stored or not, the attempt to store the token leaves an explained outcome. */
  lemma TokenOutcome(past: seq<Db>, more: seq<Db>, e: Evidence, f: Evidence, r: ConnectRequest,
                     want: KeyConfig, c: Chance, found: Outcome, created: bool)
    requires past <= more && e.seen <= e.picked <= e.decided <= e.confirmed < |past|
    requires found.Connected? && Explained(past, e, r, want, c, found)
    requires f == e.(confirmed := f.confirmed, holder := found.id) && e.decided <= f.confirmed < |more|
    requires !created ==>
               c.token in more[f.confirmed].tokens || found.id !in more[f.confirmed].backends
    ensures Explained(more, f, r, want, c, if created then found else Failed(DatabaseError))
  {
    ExplainedLater(past, more, e, f, r, want, c, found);
    if !created {
      TokenFails(more, f, r, want, c, found);
    }
  }

  /** A connected outcome stays explained as the run goes on and its token is stored. */
  lemma ExplainedLater(past: seq<Db>, more: seq<Db>, e: Evidence, f: Evidence, r: ConnectRequest,
                       want: KeyConfig, c: Chance, o: Outcome)
    requires past <= more && e.seen <= e.picked <= e.decided <= e.confirmed < |past|
    requires o.Connected? && Explained(past, e, r, want, c, o)
    requires f == e.(confirmed := f.confirmed, holder := f.holder) && e.decided <= f.confirmed < |more|
    ensures Explained(more, f, r, want, c, o)
  {
    assert more[e.seen] == past[e.seen] && more[e.decided] == past[e.decided];
    assert more[e.picked] == past[e.picked];
    assert e.decided + 1 < |past| ==> more[e.decided + 1] == past[e.decided + 1];
  }

  /** The two failures that a race explains and another attempt may cure. */
  predicate LostARace(o: Outcome) {
    o == Failed(FailedToRemoveKey) || o == Failed(FailedToAcquireKey)
  }

  /** Tries up to three times, as long as the error is one that a retry may cure. */
  method Connect(db: Database, r: ConnectRequest, chance: nat -> Chance)
    returns (o: Outcome, ghost attempts: seq<Outcome>, ghost began: nat, ghost e: Evidence)
    requires db.Valid()
    modifies db
    ensures db.Valid() && old(db.past) <= db.past
    ensures 1 <= |attempts| <= 3 && o == attempts[|attempts| - 1]
    ensures forall i :: 0 <= i < |attempts| - 1 ==> LostARace(attempts[i])
    ensures LostARace(o) ==> |attempts| == 3
    ensures |old(db.past)| <= began <= |db.past|
    ensures Accounted(db.past, began - 1, e, r, chance(|attempts|), o)
  {
    attempts := [];
    var attempt := 1;
    while true
      invariant db.Valid() && old(db.past) <= db.past && 1 <= attempt <= 3
      invariant |attempts| == attempt - 1 && forall i :: 0 <= i < |attempts| ==> LostARace(attempts[i])
      decreases 3 - attempt
    {
      began := |db.past|;
      o, e := AttemptConnect(db, r, chance(attempt));
      attempts := attempts + [o];
      if o.Connected? || !o.error.Retryable() || attempt >= 3 {
        return;
      }
      attempt := attempt + 1;
    }
  }

  // ----- What a create does to the next connect -----

  /**
   Right after a backend was created, whoever asks for its key finds it: with its tag it is the
   answer, and with another tag the refusal names the stored one.
   */
  lemma CreatedIsFound(db: Db, n: NewBackend, tag: string, m: Option<NewBackend>)
    requires CanCreate(db, n)
    ensures var d := Apply(db, Create(n));
            GetOrCreate(d, KeyConfig(n.key, tag), m)
            == (d, if tag == n.tag then Existing(n.id, Scheduled) else Refused(KeyHeldWithTag(n.tag)))
  {
    var d := Apply(db, Create(n));
    assert Holds(d, n.key, n.id);
    assert !KeyHeld(db, n.key);
  }

  /** A lease that has expired gives way to a new backend, and goes. */
  lemma ExpiredHolderIsReplaced(db: Db, want: KeyConfig, n: NewBackend, id: BackendId)
    requires OneHolderPerKey(db.keys) && Holds(db, want.key, id) && db.keys[id].expiresAt < db.now
    requires n.key == want.key && n.id !in db.backends && n.id !in db.keys && n.id != id
    requires n.drone in db.drones && n.action !in db.actions
    ensures var (d, answer) := GetOrCreate(db, want, Some(n));
            && answer == Created(n.id) && id !in d.keys && Holds(d, want.key, n.id)
            && d == Apply(Apply(db, RemoveKey(id)), Create(n))
  {
    HolderIsUnique(db, want.key, id);
    var freed := Apply(db, RemoveKey(id));
    assert freed.keys == db.keys - {id};
    assert !KeyHeld(freed, n.key);
  }

  /** A key, and an id, that is asked for is the one used; otherwise they are random, with no tag. */
  lemma RequestedNames(r: ConnectRequest, c: Chance)
    ensures r.key.Some? ==> Wanted(r, c) == r.key.value
    ensures r.key.None? ==> Wanted(r, c).key == c.randomKey && Wanted(r, c).tag == ""
    ensures r.spawn.Some? && r.spawn.value.id.Some? ==> NewId(r, c) == r.spawn.value.id.value
    ensures r.spawn.Some? && r.spawn.value.id.None? ==> NewId(r, c) == c.randomId
  {
  }

  /** What was spawned is found by the next request for its key, and is what was asked for. */
  lemma SpawnedIsAsked(past: seq<Db>, e: Evidence, r: ConnectRequest, want: KeyConfig, c: Chance, b: BackendId)
    requires e.seen <= e.picked <= e.decided < |past| && SpawnedAt(past, e, r, want, c, b)
    ensures var d := past[e.decided + 1];
            && GetOrCreate(d, want, None) == (d, Existing(b, Scheduled))
            && b in d.backends && d.backends[b].drone in c.shuffle
            && d.backends[b].allowedIdle == r.spawn.value.maxIdle
            && d.backends[b].expiration
               == (if r.spawn.value.lifetime.None? then None
                   else Some(past[e.decided].now + r.spawn.value.lifetime.value))
            && (d.backends[b].staticToken.Some? <==> r.spawn.value.useStaticToken)
            && (d.backends[b].staticToken.Some? ==> d.backends[b].staticToken == Some("s." + c.token))
            && c.action in d.actions && d.actions[c.action].backend == b
    ensures Suitable(past[e.picked], e.n.value.drone)
  {
    CreatedIsFound(past[e.decided], e.n.value, want.tag, None);
  }

  // ----- Suitable drones and their load -----

  /** A drone is considered up to 45 seconds after a heartbeat that told its clock. */
  lemma SuitableIff(db: Db, drone: DroneId, localTime: Time, dt: Time)
    requires drone in db.drones
    ensures Suitable(Apply(Apply(db, Heartbeat(drone, localTime)), Tick(dt)), drone) <==> dt < 45_000_000
  {
  }

  /** One that has just registered is not, before its first. */
  lemma SilentIsNotSuitable(db: Db, drone: DroneId)
    requires drone !in db.drones
    ensures !Suitable(Apply(db, RegisterDrone(drone)), drone)
  {
  }

  lemma CreateAddsRunning(db: Db, n: NewBackend, d: DroneId)
    requires CanCreate(db, n)
    ensures n.id !in Running(db, d)
    ensures Running(Apply(db, Create(n)), d) == Running(db, d) + if d == n.drone then {n.id} else {}
  {
    var backends := Apply(db, Create(n)).backends;
    assert backends.Keys == db.backends.Keys + {n.id} && n.id !in db.backends;
    assert backends[n.id].drone == n.drone && backends[n.id].status == Scheduled;
    assert forall id :: id in db.backends ==> backends[id] == db.backends[id];
  }

  /** A new backend adds one to the load of its drone only. */
  lemma CreateAddsLoad(db: Db, n: NewBackend, d: DroneId)
    requires CanCreate(db, n)
    ensures Load(Apply(db, Create(n)), d) == Load(db, d) + if d == n.drone then 1 else 0
  {
    CreateAddsRunning(db, n, d);
  }

  /** A report takes one off exactly if it is the one that the backend has terminated. */
  lemma ReportTakesLoad(db: Db, id: BackendId, s: State, d: DroneId)
    requires id in db.backends && Columns(db.backends[id])
    ensures Load(Apply(db, UpdateState(id, s)), d)
            == Load(db, d) - (if d == db.backends[id].drone && s.InTerminated?
                                 && !db.backends[id].state.InTerminated? then 1 else 0)
  {
    var after, row := Apply(db, UpdateState(id, s)), db.backends[id];
    if s.InTerminated? && !row.state.InTerminated? && d == row.drone {
      assert id in Running(db, d);
      assert Running(after, d) == Running(db, d) - {id};
    } else {
      assert Running(after, d) == Running(db, d);
    }
  }

  lemma NoBackendNoLoad(db: Db, d: DroneId)
    requires forall id :: id in db.backends ==> db.backends[id].drone != d
    ensures Load(db, d) == 0
  {
    assert Running(db, d) == {};
  }
}
