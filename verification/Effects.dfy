/**
 What each transaction leaves in the tables, read back column by column and in plain numbers
 (plane/src/database/{backend,backend_key,connect,drone,backend_actions}.rs).
 */
module Effects {
  import opened Basics
  import opened BackendStates
  import opened Tables

  /** The database `dt` later, with nothing else done to it. */
  function Later(db: Db, dt: Time): Db {
    Apply(db, Tick(dt))
  }

  lemma OnlyTimePasses(db: Db, dt: Time)
    ensures Later(db, dt) == db.(now := db.now + dt)
  {
  }

  // ----- Creating a backend -----

  /** The lifetime of a backend is over. */
  predicate Outlived(row: BackendRow, now: Time) {
    row.expiration.Some? && row.expiration.value < now
  }

  /** A new backend is scheduled on its drone, idle from now on, with its limits counted from now. */
  lemma CreatedBackend(db: Db, n: NewBackend, now: Time)
    requires CanCreate(db, n)
    ensures var d := Apply(db, Create(n));
            && n.id in d.backends
            && var row := d.backends[n.id];
               && row.drone == n.drone && row.state == InScheduled && row.status == Scheduled
               && row.statusNumber == Some(10) && row.statusTime == db.now && row.address == None
               && row.lastKeepalive == db.now && row.allowedIdle == n.allowedIdle
               && row.staticToken == n.staticToken
               && (Outlived(row, now) <==> n.lifetime.Some? && db.now + n.lifetime.value < now)
  {
  }

  /** Its lease is on the wanted key and tag, live for a minute, removable after it, and renewable. */
  lemma CreatedLease(db: Db, n: NewBackend, dt: Time)
    requires CanCreate(db, n)
    ensures var d := Apply(db, Create(n));
            && n.id in d.keys && d.keys[n.id].key == n.key && d.keys[n.id].tag == n.tag
            && Renewable(d, n.id)
            && (Live(Later(d, dt), n.id) <==> dt < 60_000_000)
            && (Expired(Later(d, dt), n.id) <==> 60_000_000 < dt)
  {
  }

  /** The fencing token is the time in milliseconds, to the nearest. */
  lemma TokenIsMilliseconds(db: Db, n: NewBackend)
    requires CanCreate(db, n)
    ensures var token := Apply(db, Create(n)).keys[n.id].fencing;
            -500 < 1000 * token - db.now <= 500
  {
  }

  /** The drone has a spawn action to take, with the lease's token and the first deadlines. */
  lemma CreatedAction(db: Db, n: NewBackend)
    requires CanCreate(db, n)
    ensures var d := Apply(db, Create(n));
            && n.action in d.actions
            && var row := d.actions[n.action];
               && row.backend == n.id && row.drone == n.drone && !row.acked
               && row.action.Spawn? && row.action.token == d.keys[n.id].fencing
               && row.action.deadlines.renewAt == n.lastLocalTime + 30_000_000
               && row.action.deadlines.softAt == n.lastLocalTime + 40_000_000
               && row.action.deadlines.hardAt == n.lastLocalTime + 40_000_000
  {
  }

  /** The backend's history begins with that, and nothing else in the database is touched. */
  lemma CreateTouchesNothingElse(db: Db, n: NewBackend)
    requires CanCreate(db, n)
    ensures var d := Apply(db, Create(n));
            && d.backends - {n.id} == db.backends - {n.id} && d.keys - {n.id} == db.keys - {n.id}
            && d.history == db.history[n.id := [HistoryRow(InScheduled, db.now)]]
            && d.actions - {n.action} == db.actions - {n.action}
            && d.tokens == db.tokens && d.drones == db.drones && d.now == db.now
  {
  }

  /** A create that a unique index or a foreign key stands against leaves everything as it was. */
  lemma CreateIsAllOrNothing(db: Db, n: NewBackend)
    ensures Apply(db, Create(n)) != db <==>
              && n.id !in db.backends && n.id !in db.keys
              && (forall id :: id in db.keys ==> db.keys[id].key != n.key)
              && n.drone in db.drones && n.action !in db.actions
  {
    if CanCreate(db, n) {
      assert n.id in Apply(db, Create(n)).backends;
    }
  }

  // ----- Status reports and keepalives -----

  /** A report that is taken sets the five status columns; no other column changes, nor any other row. */
  lemma ReportTouchesOnlyStatus(db: Db, id: BackendId, s: State)
    requires id in db.backends
    ensures var d := Apply(db, UpdateState(id, s));
            && id in d.backends && d.backends - {id} == db.backends - {id}
            && var row, was := d.backends[id], db.backends[id];
               && row.drone == was.drone && row.expiration == was.expiration
               && row.allowedIdle == was.allowedIdle && row.lastKeepalive == was.lastKeepalive
               && row.staticToken == was.staticToken
               && d.tokens == db.tokens && d.actions == db.actions && d.drones == db.drones
               && d.now == db.now && d.keys - {id} == db.keys - {id}
  {
  }

  /** A lease goes with the report that its backend has terminated, and with no other. */
  lemma ReportEndsLeaseIff(db: Db, id: BackendId, s: State)
    requires id in db.backends && Columns(db.backends[id]) && id in db.keys
    ensures id !in Apply(db, UpdateState(id, s)).keys
            <==> s.InTerminated? && !db.backends[id].state.InTerminated?
  {
  }

  /** A keepalive sets the backend's last one to now, unless it has terminated, and nothing else. */
  lemma KeepaliveMarks(db: Db, id: BackendId)
    requires id in db.backends
    ensures Apply(db, UpdateKeepalive(id))
            == if db.backends[id].status == Terminated then db
               else db.(backends := db.backends[id := db.backends[id].(lastKeepalive := db.now)])
  {
  }

  /** From then on it is swept for idleness only once its limit has passed again. */
  lemma KeepaliveSpares(db: Db, id: BackendId, dt: Time)
    requires id in db.backends && dt >= 0
    requires db.backends[id].status != Scheduled && db.backends[id].status != Terminated
    ensures var row := db.backends[id];
            Sweepable(Later(Apply(db, UpdateKeepalive(id)), dt), id)
            <==> || (row.allowedIdle.Some? && row.allowedIdle.value * 1_000_000 < dt)
                 || Outlived(row, db.now + dt)
  {
  }

  // ----- Leases -----

  /** A renewal starts the minute anew and changes nothing else. */
  lemma RenewalExtends(db: Db, id: BackendId, dt: Time)
    requires Renewable(db, id)
    ensures var d := Apply(db, RenewKey(id));
            && id in d.keys && d.keys[id].(expiresAt := db.keys[id].expiresAt) == db.keys[id]
            && (Live(Later(d, dt), id) <==> dt < 60_000_000)
            && d == db.(keys := d.keys) && d.keys - {id} == db.keys - {id}
  {
  }

  /** A lease that may not be renewed, or does not exist, is left alone by a renewal. */
  lemma RenewalNeedsLeave(db: Db, id: BackendId)
    requires !(id in db.keys && db.keys[id].allowRenew)
    ensures Apply(db, RenewKey(id)) == db
  {
  }

  /** Taking the leave to renew away changes nothing else. */
  lemma PreventionMarks(db: Db, id: BackendId)
    requires id in db.keys
    ensures var d := Apply(db, PreventRenew(id));
            && id in d.keys && !d.keys[id].allowRenew
            && d == db.(keys := db.keys[id := db.keys[id].(allowRenew := false)])
  {
    assert !db.keys[id].allowRenew ==> db.keys[id := db.keys[id].(allowRenew := false)] == db.keys;
  }

  predicate NotReused(xs: seq<Txn>, id: BackendId) {
    forall i :: 0 <= i < |xs| && xs[i].Create? ==> xs[i].spec.id != id
  }

  lemma StaysPrevented(db: Db, x: Txn, id: BackendId)
    requires id in db.keys && !db.keys[id].allowRenew && (x.Create? ==> x.spec.id != id)
    ensures id in Apply(db, x).keys ==> Apply(db, x).keys[id] == db.keys[id]
  {
  }

  lemma StaysGone(db: Db, x: Txn, id: BackendId)
    requires id !in db.keys && (x.Create? ==> x.spec.id != id)
    ensures id !in Apply(db, x).keys
  {
  }

  /** Over every run: once prevented, a lease is never extended again, until it goes. */
  lemma {:induction false} PreventedForGood(db: Db, xs: seq<Txn>, id: BackendId)
    requires Valid(db, xs) && NotReused(xs, id)
    requires id in db.keys ==> !db.keys[id].allowRenew
    ensures id in Final(db, xs).keys ==> id in db.keys && Final(db, xs).keys[id] == db.keys[id]
    decreases |xs|
  {
    if xs != [] {
      if id in db.keys {
        StaysPrevented(db, xs[0], id);
      } else {
        StaysGone(db, xs[0], id);
      }
      PreventedForGood(Apply(db, xs[0]), xs[1..], id);
    }
  }

  /** A lease is removed exactly after its expiry, and no other with it. */
  lemma RemovalTakesExpired(db: Db, id: BackendId)
    ensures var d := Apply(db, RemoveKey(id));
            && (id in d.keys <==> id in db.keys && db.now <= db.keys[id].expiresAt)
            && d == db.(keys := d.keys) && d.keys - {id} == db.keys - {id}
  {
  }

  // ----- Drones, tokens and actions -----

  /** A heartbeat of a known drone is noted with both clocks. */
  lemma HeartbeatRecords(db: Db, drone: DroneId, localTime: Time)
    requires drone in db.drones
    ensures Apply(db, Heartbeat(drone, localTime))
            == db.(drones := db.drones[drone := DroneRow(Some(db.now), Some(localTime))])
  {
  }

  /** A drone that registers is known, and one that was known keeps its heartbeat. */
  lemma RegistrationKeeps(db: Db, drone: DroneId)
    ensures var d := Apply(db, RegisterDrone(drone));
            && drone in d.drones && d == db.(drones := d.drones)
            && (forall x :: x in db.drones ==> x in d.drones && d.drones[x] == db.drones[x])
            && (drone !in db.drones ==> d.drones[drone].lastLocalTime == None)
  {
  }

  /** A token leads to the backend it was made for, unless it was in use; no other token changes. */
  lemma TokenLeads(db: Db, token: string, id: BackendId)
    requires id in db.backends
    ensures var d := Apply(db, CreateToken(token, id));
            && token in d.tokens
            && d.tokens[token] == (if token in db.tokens then db.tokens[token] else id)
            && d == db.(tokens := d.tokens) && d.tokens - {token} == db.tokens - {token}
  {
  }

  /** Deleted tokens lead nowhere, and the others where they did. */
  lemma DeletionTakes(db: Db, doomed: set<string>)
    ensures var d := Apply(db, DeleteTokens(doomed));
            && d == db.(tokens := d.tokens)
            && (forall t :: t in d.tokens <==> t in db.tokens && t !in doomed)
            && (forall t :: t in d.tokens ==> d.tokens[t] == db.tokens[t])
  {
  }

  /** An action is stored once, for a backend and a drone that exist. */
  lemma ActionStored(db: Db, a: nat, row: ActionRow)
    ensures var d := Apply(db, CreateAction(a, row));
            && d == db.(actions := d.actions) && d.actions - {a} == db.actions - {a}
            && (a !in db.actions && row.backend in db.backends && row.drone in db.drones ==>
                  a in d.actions && d.actions[a] == row)
            && (a in db.actions ==> a in d.actions && d.actions[a] == db.actions[a])
  {
  }

  /** Only the drone it is for acknowledges an action. */
  lemma ActionAcknowledged(db: Db, a: nat, drone: DroneId)
    requires a in db.actions
    ensures var d := Apply(db, AckAction(a, drone));
            && d == db.(actions := d.actions) && d.actions - {a} == db.actions - {a} && a in d.actions
            && d.actions[a] == if drone == db.actions[a].drone then db.actions[a].(acked := true)
                               else db.actions[a]
  {
  }

  // ----- Cleaning up -----

  /** Nothing goes that was not terminated that many times 24 hours ago. */
  lemma CleanupTakesOnlyOld(db: Db, days: int, batch: int, chosen: set<BackendId>, id: BackendId)
    requires Enabled(db, Cleanup(days, batch, chosen))
    requires id in db.backends && id !in Apply(db, Cleanup(days, batch, chosen)).backends
    ensures db.backends[id].status == Terminated
    ensures db.backends[id].statusTime + days * 86_400_000_000 < db.now
  {
  }

  /** A cleanup can always be run, and takes as many as there are, up to its batch. */
  lemma CleanupIsPossible(db: Db, days: int, batch: nat) returns (chosen: set<BackendId>)
    ensures Enabled(db, Cleanup(days, batch, chosen))
  {
    chosen := SubsetOfSize(Eligible(db, days), Min(batch, |Eligible(db, days)|));
  }

  lemma {:induction false} SubsetOfSize(s: set<BackendId>, n: nat) returns (r: set<BackendId>)
    requires n <= |s|
    ensures r <= s && |r| == n
  {
    if |s| == n {
      r := s;
    } else {
      var x :| x in s;
      r := SubsetOfSize(s - {x}, n);
    }
  }

  /** With room in the batch, everything that old goes. */
  lemma CleanupTakesAllOld(db: Db, days: int, batch: int, chosen: set<BackendId>, id: BackendId)
    requires Consistent(db) && Enabled(db, Cleanup(days, batch, chosen))
    requires |db.backends| <= batch
    requires id in db.backends && db.backends[id].status == Terminated
    requires db.backends[id].statusTime + days * 86_400_000_000 < db.now
    ensures id !in Apply(db, Cleanup(days, batch, chosen)).backends
  {
    CleanupNeverBlocked(db, days, batch, chosen);
    assert Eligible(db, days) <= db.backends.Keys;
    FewerMembers(Eligible(db, days), db.backends.Keys);
    SameMembers(chosen, Eligible(db, days));
  }

  lemma {:induction false} FewerMembers(a: set<BackendId>, b: set<BackendId>)
    requires a <= b
    ensures |a| <= |b|
    decreases |a|
  {
    if a != {} {
      var x :| x in a;
      FewerMembers(a - {x}, b - {x});
    }
  }

  lemma SameMembers(a: set<BackendId>, b: set<BackendId>)
    requires a <= b && |a| == |b|
    ensures a == b
  {
    if a != b {
      var x :| x in b && x !in a;
      FewerMembers(a, b - {x});
    }
  }

  /** What belongs to other backends stays. */
  lemma CleanupSparesOthers(db: Db, days: int, batch: int, chosen: set<BackendId>, id: BackendId)
    requires Consistent(db) && Enabled(db, Cleanup(days, batch, chosen)) && id !in chosen
    ensures var d := Apply(db, Cleanup(days, batch, chosen));
            && (id in d.backends <==> id in db.backends)
            && (id in d.backends ==> d.backends[id] == db.backends[id] && id in d.history
                                     && d.history[id] == db.history[id])
            && (forall t :: t in db.tokens && db.tokens[t] == id ==> t in d.tokens && d.tokens[t] == id)
            && (forall a :: a in db.actions && db.actions[a].backend == id ==>
                  a in d.actions && d.actions[a] == db.actions[a])
            && d.keys == db.keys && d.drones == db.drones && d.now == db.now
  {
    CleanupNeverBlocked(db, days, batch, chosen);
    CleanupTouchesNoKey(db, days, chosen);
  }
}
