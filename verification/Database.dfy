/**
 The database as the controller's code uses it: tables that its methods change in place, one
 transaction at a time, with other transactions running in between
 (plane/src/database/{backend,backend_key,connect,drone}.rs).
 */
module Database {
  import opened Basics
  import opened BackendStates
  import opened Tables

  ghost predicate Next(db: Db, d: Db) {
    exists x :: Enabled(db, x) && d == Apply(db, x)
  }

  /** A run of transactions from the empty database, given by the states it goes through. */
  ghost predicate IsRun(past: seq<Db>) {
    && past != [] && past[0] == EMPTY
    && forall i :: 0 <= i < |past| - 1 ==> Next(past[i], past[i + 1])
  }

  /** Every state of a run is consistent. */
  lemma {:induction false} RunStatesConsistent(past: seq<Db>, i: nat)
    requires IsRun(past) && i < |past|
    ensures Consistent(past[i])
  {
    if i == 0 {
      EmptyIsConsistent();
    } else {
      RunStatesConsistent(past, i - 1);
      assert Next(past[i - 1], past[i - 1 + 1]);
      var x :| Enabled(past[i - 1], x) && past[i] == Apply(past[i - 1], x);
      ApplyKeepsConsistent(past[i - 1], x);
    }
  }

  /** In a state of a run the five deletes of a clean-up go through and spare every lease. */
  lemma CleanupGoesThrough(past: seq<Db>, minAgeDays: int, batch: int, chosen: set<BackendId>)
    requires IsRun(past) && Enabled(past[|past| - 1], Cleanup(minAgeDays, batch, chosen))
    ensures var db := past[|past| - 1];
            && CleanupStep(db, chosen)
                 == CleanupDependents(db, chosen).(backends := db.backends - chosen)
            && CleanupDependents(db, chosen).keys == db.keys
  {
    RunStatesConsistent(past, |past| - 1);
    CleanupNeverBlocked(past[|past| - 1], minAgeDays, batch, chosen);
    CleanupTouchesNoKey(past[|past| - 1], minAgeDays, chosen);
  }

  /** What `check_key` returns for a held key; `asOf` is the clock of that query. */
  datatype KeyResult = KeyResult(id: BackendId, tag: string, status: Status,
                                 staticToken: Option<string>, expiresAt: Time, asOf: Time)
  {
    predicate IsLive() {
      asOf < expiresAt
    }
  }

  /** Inserted, refused by a unique index, for want of the drone, or at the action. */
  datatype Insertion = Inserted | Conflict | NoDrone | ActionTaken

  class Database {
    var now: Time
    var backends: map<BackendId, BackendRow>
    var keys: map<BackendId, KeyRow>
    var history: map<BackendId, seq<HistoryRow>>
    var tokens: map<string, BackendId>
    var actions: map<nat, ActionRow>
    var drones: map<DroneId, DroneRow>

    /** Every state the database has been in, the present one last. */
    ghost var past: seq<Db>

    function View(): Db
      reads this
    {
      Db(now, backends, keys, history, tokens, actions, drones)
    }

    ghost predicate Valid()
      reads this
    {
      IsRun(past) && past[|past| - 1] == View()
    }

    constructor ()
      ensures Valid() && View() == EMPTY && past == [EMPTY]
    {
      now := 0;
      backends, keys, history := map[], map[], map[];
      tokens, actions, drones := map[], map[], map[];
      past := [EMPTY];
    }

    /** Closes the transaction `x` that the caller has just carried out on the tables. */
    ghost method Committed(x: Txn)
      requires IsRun(past) && Enabled(past[|past| - 1], x)
      requires View() == Apply(past[|past| - 1], x)
      modifies this`past
      ensures Valid() && past == old(past) + [View()]
    {
      assert Next(past[|past| - 1], View());
      past := past + [View()];
    }

    /** Time passes, or some other client's transaction commits. */
    method Other(x: Txn)
      requires Valid() && Enabled(View(), x)
      modifies this
      ensures Valid() && View() == Apply(old(View()), x) && past == old(past) + [View()]
    {
      var d := Apply(View(), x);
      now, backends, keys, history := d.now, d.backends, d.keys, d.history;
      tokens, actions, drones := d.tokens, d.actions, d.drones;
      Committed(x);
    }

    /** Whatever other clients do between two transactions of ours. */
    method Others(xs: seq<Txn>)
      requires Valid()
      modifies this
      ensures Valid() && old(past) <= past
      ensures xs == [] ==> past == old(past) && View() == old(View())
    {
      for i := 0 to |xs|
        invariant Valid() && old(past) <= past
        invariant i == 0 ==> past == old(past) && View() == old(View())
      {
        if Enabled(View(), xs[i]) {
          Other(xs[i]);
        }
      }
    }

    method UpdateState(backend: BackendId, newState: State) returns (updated: bool)
      requires Valid()
      modifies this
      ensures Valid() && View() == Apply(old(View()), Txn.UpdateState(backend, newState))
      ensures past == old(past) + [View()]
      ensures updated <==> backend in old(backends) && Accepts(old(backends)[backend], newState)
    {
      if backend in backends && Accepts(backends[backend], newState) {
        backends := backends[backend := WithState(backends[backend], newState, now)];
        if newState.InTerminated? {
          keys := keys - {backend};
        }
        history := history[backend :=
          (if backend in history then history[backend] else []) + [HistoryRow(newState, now)]];
        updated := true;
      } else {
        updated := false;
      }
      Committed(Txn.UpdateState(backend, newState));
    }

    method UpdateKeepalive(backend: BackendId) returns (found: bool)
      requires Valid()
      modifies this
      ensures Valid() && View() == Apply(old(View()), Txn.UpdateKeepalive(backend))
      ensures past == old(past) + [View()]
      ensures found <==> backend in old(backends) && old(backends)[backend].status != Terminated
    {
      found := backend in backends && backends[backend].status != Terminated;
      if found {
        backends := backends[backend := backends[backend].(lastKeepalive := now)];
      }
      Committed(Txn.UpdateKeepalive(backend));
    }

    method RemoveKey(backend: BackendId) returns (removed: bool)
      requires Valid()
      modifies this
      ensures Valid() && View() == Apply(old(View()), Txn.RemoveKey(backend))
      ensures past == old(past) + [View()]
      ensures removed <==> Expired(old(View()), backend)
    {
      removed := backend in keys && keys[backend].expiresAt < now;
      if removed {
        keys := keys - {backend};
      }
      Committed(Txn.RemoveKey(backend));
    }

    method RenewKey(backend: BackendId) returns (found: bool)
      requires Valid()
      modifies this
      ensures Valid() && View() == Apply(old(View()), Txn.RenewKey(backend))
      ensures past == old(past) + [View()]
      ensures found <==> Renewable(old(View()), backend)
    {
      found := backend in keys && keys[backend].allowRenew;
      if found {
        keys := keys[backend := keys[backend].(expiresAt := now + KEY_LEASE_EXPIRATION)];
      }
      Committed(Txn.RenewKey(backend));
    }

    method PreventRenew(backend: BackendId) returns (changed: bool)
      requires Valid()
      modifies this
      ensures Valid() && View() == Apply(old(View()), Txn.PreventRenew(backend))
      ensures past == old(past) + [View()]
      ensures changed <==> Renewable(old(View()), backend)
    {
      changed := backend in keys && keys[backend].allowRenew;
      if changed {
        keys := keys[backend := keys[backend].(allowRenew := false)];
      }
      Committed(Txn.PreventRenew(backend));
    }

    /** The row of a key, if some backend has it, with the clock of the query. */
    method CheckKey(key: Key) returns (r: Option<KeyResult>)
      requires Valid()
      ensures r.None? <==> !KeyHeld(View(), key)
      ensures r.Some? ==>
                && r.value.id in keys && r.value.id in backends
                && keys[r.value.id].key == key
                && r.value == KeyResult(r.value.id, keys[r.value.id].tag,
                                        backends[r.value.id].status,
                                        backends[r.value.id].staticToken,
                                        keys[r.value.id].expiresAt, now)
    {
      if id :| id in keys && keys[id].key == key {
        RunStatesConsistent(past, |past| - 1);
        r := Some(KeyResult(id, keys[id].tag, backends[id].status, backends[id].staticToken,
                            keys[id].expiresAt, now));
      } else {
        r := None;
      }
    }

    /** Inserts backend, key, history and spawn action together, or nothing at all. */
    method CreateBackendWithKey(n: NewBackend) returns (r: Insertion)
      requires Valid()
      modifies this
      ensures Valid() && View() == Apply(old(View()), Create(n))
      ensures past == old(past) + [View()]
      ensures r.Inserted? <==> CanCreate(old(View()), n)
      ensures r.Conflict? <==> Taken(old(View()), n.id, n.key)
      ensures r.NoDrone? <==> !Taken(old(View()), n.id, n.key) && n.drone !in old(drones)
    {
      r := if Taken(View(), n.id, n.key) then Conflict
           else if n.drone !in drones then NoDrone
           else if n.action in actions then ActionTaken else Inserted;
      if r.Inserted? {
        var row, lease := NewBackendRow(View(), n), NewKeyRow(View(), n);
        backends := backends[n.id := row];
        keys := keys[n.id := lease];
        history := history[n.id := [HistoryRow(InScheduled, now)]];
        actions := actions[n.action :=
          ActionRow(n.id, n.drone, Spawn(InitialDeadlines(n.lastLocalTime), lease.fencing), false)];
      }
      Committed(Create(n));
    }

    method CreateToken(token: string, backend: BackendId) returns (created: bool)
      requires Valid()
      modifies this
      ensures Valid() && View() == Apply(old(View()), Txn.CreateToken(token, backend))
      ensures past == old(past) + [View()]
      ensures created <==> backend in old(backends) && token !in old(tokens)
    {
      created := backend in backends && token !in tokens;
      if created {
        tokens := tokens[token := backend];
      }
      Committed(Txn.CreateToken(token, backend));
    }

    /**
     Deletes up to `batch` long-terminated backends. The five deletes run in the order that the
     foreign keys demand, and none of them is refused.
     */
    method Cleanup(minAgeDays: int, batch: int, chosen: set<BackendId>)
      requires Valid() && Enabled(View(), Txn.Cleanup(minAgeDays, batch, chosen))
      modifies this
      ensures Valid() && View() == Apply(old(View()), Txn.Cleanup(minAgeDays, batch, chosen))
      ensures past == old(past) + [View()]
      ensures backends == old(backends) - chosen && keys == old(keys)
    {
      CleanupGoesThrough(past, minAgeDays, batch, chosen);
      tokens := TokensWithout(tokens, chosen);
      actions := ActionsWithout(actions, chosen);
      keys := KeysWithoutExpired(keys, chosen, now);
      history := history - chosen;
      backends := backends - chosen;
      Committed(Txn.Cleanup(minAgeDays, batch, chosen));
    }
  }
}
