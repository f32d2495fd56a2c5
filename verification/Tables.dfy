/**
 The controller's database as a value, and every transaction on it as one atomic step.

 A transaction sees the database clock `now`; between transactions the clock may only move
 forward. The step functions follow plane/src/database/{backend,backend_key,connect,drone}.rs.
 */
module Tables {
  import opened Basics
  import opened BackendStates

  const KEY_LEASE_RENEW_AFTER: Time := 30 * SECOND
  const KEY_LEASE_SOFT_TERMINATE_AFTER: Time := 40 * SECOND
  const KEY_LEASE_HARD_TERMINATE_AFTER: Time := 50 * SECOND
  const KEY_LEASE_EXPIRATION: Time := 60 * SECOND

  const DAY: Time := 86_400 * SECOND

  /** The pair that the unique index on `backend_key` covers. */
  datatype Key = Key(name: string, namespace: string)

  datatype Deadlines = Deadlines(renewAt: Time, softAt: Time, hardAt: Time)

  datatype Action =
    | Spawn(deadlines: Deadlines, token: int)
    | Terminate(kind: TerminationKind, reason: TerminationReason)

  datatype BackendRow = BackendRow(
    drone: DroneId,
    status: Status,
    statusTime: Time,
    statusNumber: Option<int>,
    address: Option<Address>,
    state: State,
    expiration: Option<Time>,
    allowedIdle: Option<int>,
    lastKeepalive: Time,
    staticToken: Option<string>)

  datatype KeyRow = KeyRow(key: Key, tag: string, expiresAt: Time, fencing: int, allowRenew: bool)

  datatype HistoryRow = HistoryRow(state: State, at: Time)

  datatype ActionRow = ActionRow(backend: BackendId, drone: DroneId, action: Action, acked: bool)

  datatype DroneRow = DroneRow(lastHeartbeat: Option<Time>, lastLocalTime: Option<Time>)

  /** `history` groups the `backend_state` rows by backend, each group in id order. */
  datatype Db = Db(
    now: Time,
    backends: map<BackendId, BackendRow>,
    keys: map<BackendId, KeyRow>,
    history: map<BackendId, seq<HistoryRow>>,
    tokens: map<string, BackendId>,
    actions: map<nat, ActionRow>,
    drones: map<DroneId, DroneRow>)

  /** What a connect request supplies for the backend it may create. */
  datatype NewBackend = NewBackend(
    id: BackendId,
    key: Key,
    tag: string,
    drone: DroneId,
    lastLocalTime: Time,
    lifetime: Option<Time>,
    allowedIdle: Option<int>,
    staticToken: Option<string>,
    action: nat)

  datatype Txn =
    | Tick(dt: Time)
    | RegisterDrone(newDrone: DroneId)
    | Heartbeat(drone: DroneId, localTime: Time)
    | Create(spec: NewBackend)
    | RemoveKey(holder: BackendId)
    | RenewKey(holder: BackendId)
    | PreventRenew(holder: BackendId)
    | UpdateState(backend: BackendId, state: State)
    | UpdateKeepalive(backend: BackendId)
    | CreateToken(token: string, backend: BackendId)
    | DeleteTokens(doomed: set<string>)
    | CreateAction(action: nat, row: ActionRow)
    | AckAction(action: nat, acker: DroneId)
    | Cleanup(minAgeDays: int, batch: int, chosen: set<BackendId>)

  // ----- Lease arithmetic -----

  /** `extract(epoch from now()) * 1000` stored in a bigint column: milliseconds, rounded. */
  function FencingToken(now: Time): int {
    (now + 500) / 1000
  }

  /** A renewal answers with deadlines counted from the time the drone put in its request. */
  function RenewedDeadlines(localTime: Time): Deadlines {
    Deadlines(localTime + KEY_LEASE_RENEW_AFTER,
              localTime + KEY_LEASE_SOFT_TERMINATE_AFTER,
              localTime + KEY_LEASE_HARD_TERMINATE_AFTER)
  }

  /** The first lease uses the soft constant for the hard deadline too. */
  function InitialDeadlines(localTime: Time): Deadlines {
    Deadlines(localTime + KEY_LEASE_RENEW_AFTER,
              localTime + KEY_LEASE_SOFT_TERMINATE_AFTER,
              localTime + KEY_LEASE_SOFT_TERMINATE_AFTER)
  }

  // ----- Queries -----

  predicate KeyHeld(db: Db, key: Key) {
    exists id :: id in db.keys && db.keys[id].key == key
  }

  predicate Live(db: Db, id: BackendId) {
    id in db.keys && db.now < db.keys[id].expiresAt
  }

  predicate Expired(db: Db, id: BackendId) {
    id in db.keys && db.keys[id].expiresAt < db.now
  }

  /** A unique index stands in the way of a backend with this id or of a lease on this key. */
  predicate Taken(db: Db, id: BackendId, key: Key) {
    id in db.backends || id in db.keys || KeyHeld(db, key)
  }

  /** The unique indexes and the drone foreign key let all inserts of a spawn through. */
  predicate CanCreate(db: Db, n: NewBackend) {
    !Taken(db, n.id, n.key) && n.drone in db.drones && n.action !in db.actions
  }

  predicate Renewable(db: Db, id: BackendId) {
    id in db.keys && db.keys[id].allowRenew
  }

  /** The `where` clause of the sweep query, for one backend. */
  predicate Sweepable(db: Db, id: BackendId) {
    id in db.backends &&
    var row := db.backends[id];
    row.status != Scheduled && row.status != Terminated &&
    ((row.allowedIdle.Some? && db.now - row.lastKeepalive > row.allowedIdle.value * SECOND)
     || (row.expiration.Some? && db.now > row.expiration.value))
  }

  function Eligible(db: Db, minAgeDays: int): set<BackendId> {
    set id | id in db.backends && db.backends[id].status == Terminated
             && db.now - db.backends[id].statusTime > minAgeDays * DAY
  }

  // ----- One row of the backend table under a status report -----

  predicate Accepts(row: BackendRow, s: State) {
    row.statusNumber.None? || row.statusNumber.value < s.StatusInt()
  }

  function WithState(row: BackendRow, s: State, now: Time): BackendRow {
    row.(status := s.Status(), statusTime := now, statusNumber := Some(s.StatusInt()),
         address := s.AddressOf(), state := s)
  }

  // ----- Transactions -----

  function NewBackendRow(db: Db, n: NewBackend): BackendRow {
    BackendRow(n.drone, Scheduled, db.now, Some(Scheduled.AsInt()), None, InScheduled,
               if n.lifetime.Some? then Some(db.now + n.lifetime.value) else None,
               n.allowedIdle, db.now, n.staticToken)
  }

  function NewKeyRow(db: Db, n: NewBackend): KeyRow {
    KeyRow(n.key, n.tag, db.now + KEY_LEASE_EXPIRATION, FencingToken(db.now), true)
  }

  function SpawnAction(db: Db, n: NewBackend): ActionRow {
    ActionRow(n.id, n.drone, Spawn(InitialDeadlines(n.lastLocalTime), FencingToken(db.now)), false)
  }

  function CreateStep(db: Db, n: NewBackend): Db
    requires CanCreate(db, n)
  {
    db.(backends := db.backends[n.id := NewBackendRow(db, n)],
        keys := db.keys[n.id := NewKeyRow(db, n)],
        history := db.history[n.id := [HistoryRow(InScheduled, db.now)]],
        actions := db.actions[n.action := SpawnAction(db, n)])
  }

  function UpdateStateStep(db: Db, id: BackendId, s: State): Db {
    if id !in db.backends || !Accepts(db.backends[id], s) then db
    else
      var past := if id in db.history then db.history[id] else [];
      db.(backends := db.backends[id := WithState(db.backends[id], s, db.now)],
          history := db.history[id := past + [HistoryRow(s, db.now)]],
          keys := if s.InTerminated? then db.keys - {id} else db.keys)
  }

  function RenewKeyStep(db: Db, id: BackendId): Db {
    if Renewable(db, id)
    then db.(keys := db.keys[id := db.keys[id].(expiresAt := db.now + KEY_LEASE_EXPIRATION)])
    else db
  }

  function KeepaliveStep(db: Db, id: BackendId): Db {
    if id in db.backends && db.backends[id].status != Terminated
    then db.(backends := db.backends[id := db.backends[id].(lastKeepalive := db.now)])
    else db
  }

  function TokensWithout(tokens: map<string, BackendId>, gone: set<BackendId>): map<string, BackendId> {
    map t | t in tokens && tokens[t] !in gone :: tokens[t]
  }

  function ActionsWithout(actions: map<nat, ActionRow>, gone: set<BackendId>): map<nat, ActionRow> {
    map a | a in actions && actions[a].backend !in gone :: actions[a]
  }

  function KeysWithoutExpired(keys: map<BackendId, KeyRow>, gone: set<BackendId>, now: Time)
    : map<BackendId, KeyRow>
  {
    map k | k in keys && !(k in gone && keys[k].expiresAt < now) :: keys[k]
  }

  /** The deletes before the last one of a clean-up; an unexpired key row survives them. */
  function CleanupDependents(db: Db, chosen: set<BackendId>): Db {
    db.(tokens := TokensWithout(db.tokens, chosen),
        actions := ActionsWithout(db.actions, chosen),
        keys := KeysWithoutExpired(db.keys, chosen, db.now),
        history := db.history - chosen)
  }

  /** Whether the last delete would leave a row behind that references a deleted backend. */
  predicate Blocked(db: Db, chosen: set<BackendId>) {
    var d := CleanupDependents(db, chosen);
    || (exists k :: k in d.keys && k in chosen)
    || (exists h :: h in d.history && h in chosen)
    || (exists t :: t in d.tokens && d.tokens[t] in chosen)
    || (exists a :: a in d.actions && d.actions[a].backend in chosen)
  }

  function CleanupStep(db: Db, chosen: set<BackendId>): Db {
    if Blocked(db, chosen) then db
    else
      var d := CleanupDependents(db, chosen);
      d.(backends := d.backends - chosen)
  }

  /** What Postgres itself decides: the clock only advances and `limit` picks that many rows. */
  predicate Enabled(db: Db, x: Txn) {
    match x
    case Tick(dt) => dt >= 0
    case Cleanup(days, batch, chosen) =>
      batch >= 0 && chosen <= Eligible(db, days) && |chosen| == Min(batch, |Eligible(db, days)|)
    case _ => true
  }

  function Apply(db: Db, x: Txn): Db {
    match x
    case Tick(dt) => db.(now := db.now + dt)
    case RegisterDrone(d) =>
      if d in db.drones then db else db.(drones := db.drones[d := DroneRow(None, None)])
    case Heartbeat(d, t) =>
      if d in db.drones then db.(drones := db.drones[d := DroneRow(Some(db.now), Some(t))]) else db
    case Create(n) => if CanCreate(db, n) then CreateStep(db, n) else db
    case RemoveKey(id) => if Expired(db, id) then db.(keys := db.keys - {id}) else db
    case RenewKey(id) => RenewKeyStep(db, id)
    case PreventRenew(id) =>
      if Renewable(db, id) then db.(keys := db.keys[id := db.keys[id].(allowRenew := false)]) else db
    case UpdateState(id, s) => UpdateStateStep(db, id, s)
    case UpdateKeepalive(id) => KeepaliveStep(db, id)
    case CreateToken(t, id) =>
      if id in db.backends && t !in db.tokens then db.(tokens := db.tokens[t := id]) else db
    case DeleteTokens(doomed) => db.(tokens := db.tokens - doomed)
    case CreateAction(a, row) =>
      if a !in db.actions && row.backend in db.backends && row.drone in db.drones
      then db.(actions := db.actions[a := row]) else db
    case AckAction(a, acker) =>
      if a in db.actions && db.actions[a].drone == acker
      then db.(actions := db.actions[a := db.actions[a].(acked := true)]) else db
    case Cleanup(_, _, chosen) => CleanupStep(db, chosen)
  }

  const EMPTY: Db := Db(0, map[], map[], map[], map[], map[], map[])

  // ----- Consistency of the tables -----

  ghost predicate Increasing(h: seq<HistoryRow>) {
    forall i, j :: 0 <= i < j < |h| ==> h[i].state.StatusInt() < h[j].state.StatusInt()
  }

  /** The status, number and address columns are functions of the stored state. */
  ghost predicate Columns(row: BackendRow) {
    row.status == row.state.Status() && row.statusNumber == Some(row.state.StatusInt())
    && row.address == row.state.AddressOf()
  }

  /** A row's history has a row per accepted status and ends in the stored state. */
  ghost predicate RecordOf(row: BackendRow, h: seq<HistoryRow>) {
    h != [] && Increasing(h) && h[|h| - 1] == HistoryRow(row.state, row.statusTime)
  }

  ghost predicate OneHolderPerKey(keys: map<BackendId, KeyRow>) {
    forall a, b :: a in keys && b in keys && keys[a].key == keys[b].key ==> a == b
  }

  ghost predicate KeysBelongToRunning(keys: map<BackendId, KeyRow>, backends: map<BackendId, BackendRow>) {
    forall id :: id in keys ==> id in backends && backends[id].status != Terminated
  }

  ghost predicate TokensRefer(tokens: map<string, BackendId>, ids: map<BackendId, BackendRow>) {
    forall t :: t in tokens ==> tokens[t] in ids
  }

  ghost predicate ActionsRefer(actions: map<nat, ActionRow>, ids: map<BackendId, BackendRow>,
                         drones: map<DroneId, DroneRow>)
  {
    forall a :: a in actions ==> actions[a].backend in ids && actions[a].drone in drones
  }

  ghost predicate Placed(backends: map<BackendId, BackendRow>, drones: map<DroneId, DroneRow>) {
    forall id :: id in backends ==> backends[id].drone in drones
  }

  ghost predicate Recorded(backends: map<BackendId, BackendRow>, history: map<BackendId, seq<HistoryRow>>) {
    && (forall id :: id in history <==> id in backends)
    && (forall id :: id in backends ==>
          Columns(backends[id]) && RecordOf(backends[id], history[id]))
  }

  /** At most one lease per key, leases only for unterminated backends, and no dangling row. */
  ghost predicate Consistent(db: Db) {
    && OneHolderPerKey(db.keys)
    && KeysBelongToRunning(db.keys, db.backends)
    && TokensRefer(db.tokens, db.backends)
    && ActionsRefer(db.actions, db.backends, db.drones)
    && Placed(db.backends, db.drones)
    && Recorded(db.backends, db.history)
  }

  lemma ExtendedRecord(row: BackendRow, h: seq<HistoryRow>, s: State, now: Time)
    requires Columns(row) && RecordOf(row, h) && Accepts(row, s)
    ensures Columns(WithState(row, s, now))
    ensures RecordOf(WithState(row, s, now), h + [HistoryRow(s, now)])
  {
    assert forall i :: 0 <= i < |h| ==> h[i].state.StatusInt() < s.StatusInt();
  }

  lemma PutRecorded(backends: map<BackendId, BackendRow>, history: map<BackendId, seq<HistoryRow>>,
                    id: BackendId, row: BackendRow, h: seq<HistoryRow>)
    requires Recorded(backends, history) && Columns(row) && RecordOf(row, h)
    ensures Recorded(backends[id := row], history[id := h])
  {
  }

  lemma UpdateStateKeepsLeases(db: Db, id: BackendId, s: State)
    requires OneHolderPerKey(db.keys) && KeysBelongToRunning(db.keys, db.backends)
    ensures OneHolderPerKey(UpdateStateStep(db, id, s).keys)
    ensures KeysBelongToRunning(UpdateStateStep(db, id, s).keys, UpdateStateStep(db, id, s).backends)
  {
  }

  lemma UpdateStateKeepsReferences(db: Db, id: BackendId, s: State)
    requires TokensRefer(db.tokens, db.backends) && ActionsRefer(db.actions, db.backends, db.drones)
    requires Placed(db.backends, db.drones)
    ensures TokensRefer(db.tokens, UpdateStateStep(db, id, s).backends)
    ensures ActionsRefer(db.actions, UpdateStateStep(db, id, s).backends, db.drones)
    ensures Placed(UpdateStateStep(db, id, s).backends, db.drones)
  {
  }

  lemma UpdateStateKeepsConsistent(db: Db, id: BackendId, s: State)
    requires Consistent(db)
    ensures Consistent(UpdateStateStep(db, id, s))
  {
    UpdateStateKeepsLeases(db, id, s);
    UpdateStateKeepsReferences(db, id, s);
    if id in db.backends && Accepts(db.backends[id], s) {
      ExtendedRecord(db.backends[id], db.history[id], s, db.now);
      PutRecorded(db.backends, db.history, id, WithState(db.backends[id], s, db.now),
                  db.history[id] + [HistoryRow(s, db.now)]);
    }
  }

  lemma PutFreeKey(keys: map<BackendId, KeyRow>, id: BackendId, row: KeyRow)
    requires OneHolderPerKey(keys)
    requires forall other :: other in keys ==> keys[other].key != row.key
    ensures OneHolderPerKey(keys[id := row])
  {
  }

  lemma CreateKeepsLeases(db: Db, n: NewBackend)
    requires OneHolderPerKey(db.keys) && KeysBelongToRunning(db.keys, db.backends) && CanCreate(db, n)
    ensures OneHolderPerKey(CreateStep(db, n).keys)
    ensures KeysBelongToRunning(CreateStep(db, n).keys, CreateStep(db, n).backends)
  {
    PutFreeKey(db.keys, n.id, NewKeyRow(db, n));
  }

  lemma CreateKeepsReferences(db: Db, n: NewBackend)
    requires TokensRefer(db.tokens, db.backends) && ActionsRefer(db.actions, db.backends, db.drones)
    requires Placed(db.backends, db.drones) && CanCreate(db, n)
    ensures TokensRefer(db.tokens, CreateStep(db, n).backends)
    ensures ActionsRefer(CreateStep(db, n).actions, CreateStep(db, n).backends, db.drones)
    ensures Placed(CreateStep(db, n).backends, db.drones)
  {
  }

  lemma CreateKeepsConsistent(db: Db, n: NewBackend)
    requires Consistent(db) && CanCreate(db, n)
    ensures Consistent(CreateStep(db, n))
  {
    CreateKeepsLeases(db, n);
    CreateKeepsReferences(db, n);
    PutRecorded(db.backends, db.history, n.id,
                NewBackendRow(db, n), [HistoryRow(InScheduled, db.now)]);
  }

  lemma KeepaliveKeepsConsistent(db: Db, id: BackendId)
    requires Consistent(db)
    ensures Consistent(KeepaliveStep(db, id))
  {
    var d := KeepaliveStep(db, id);
    if d != db {
      PutRecorded(db.backends, db.history, id, d.backends[id], db.history[id]);
      assert db.history[id := db.history[id]] == db.history;
    }
  }

  /** No key row names an eligible backend, so a clean-up drops none. */
  lemma CleanupTouchesNoKey(db: Db, days: int, chosen: set<BackendId>)
    requires Consistent(db) && chosen <= Eligible(db, days)
    ensures forall k :: k in db.keys ==> k !in chosen
    ensures CleanupDependents(db, chosen).keys == db.keys
  {
    assert forall k :: k in chosen ==> db.backends[k].status == Terminated;
  }

  /**
   A clean-up of any age and any batch size gets past its last delete: no token, action,
   history or key row is left that names a deleted backend.
   */
  lemma CleanupNeverBlocked(db: Db, days: int, batch: int, chosen: set<BackendId>)
    requires Consistent(db) && Enabled(db, Cleanup(days, batch, chosen))
    ensures !Blocked(db, chosen)
    ensures CleanupStep(db, chosen).backends == db.backends - chosen
    ensures Consistent(CleanupStep(db, chosen))
  {
    CleanupTouchesNoKey(db, days, chosen);
    var d := CleanupStep(db, chosen);
    assert !Blocked(db, chosen);
    assert KeysBelongToRunning(d.keys, d.backends);
    assert Recorded(d.backends, d.history);
  }

  predicate MovesLease(x: Txn) {
    x.RemoveKey? || x.RenewKey? || x.PreventRenew?
  }

  /** The other transactions that leave the backend table alone. */
  predicate Minor(x: Txn) {
    !MovesLease(x) && !x.Create? && !x.UpdateState? && !x.UpdateKeepalive? && !x.Cleanup?
  }

  lemma SubleasesKeep(keys: map<BackendId, KeyRow>, fewer: map<BackendId, KeyRow>,
                      backends: map<BackendId, BackendRow>)
    requires OneHolderPerKey(keys) && KeysBelongToRunning(keys, backends)
    requires forall id :: id in fewer ==> id in keys && fewer[id].key == keys[id].key
    ensures OneHolderPerKey(fewer) && KeysBelongToRunning(fewer, backends)
  {
  }

  lemma LeasesKeep(db: Db, keys: map<BackendId, KeyRow>)
    requires Consistent(db)
    requires forall id :: id in keys ==> id in db.keys && keys[id].key == db.keys[id].key
    ensures Consistent(db.(keys := keys))
  {
    SubleasesKeep(db.keys, keys, db.backends);
  }

  lemma LeaseTxn(db: Db, x: Txn)
    requires MovesLease(x)
    ensures var d := Apply(db, x);
            && d == db.(keys := d.keys)
            && forall id :: id in d.keys ==> id in db.keys && d.keys[id].key == db.keys[id].key
  {
  }

  lemma RenewKeepsConsistent(db: Db, id: BackendId)
    requires Consistent(db)
    ensures Consistent(RenewKeyStep(db, id))
  {
    LeaseTxn(db, RenewKey(id));
    LeasesKeep(db, RenewKeyStep(db, id).keys);
  }

  lemma LeaseMoveKeepsConsistent(db: Db, x: Txn)
    requires Consistent(db) && MovesLease(x)
    ensures Consistent(Apply(db, x))
  {
    LeaseTxn(db, x);
    LeasesKeep(db, Apply(db, x).keys);
  }

  lemma MoreDronesKeep(db: Db, drones: map<DroneId, DroneRow>)
    requires Consistent(db) && forall d :: d in db.drones ==> d in drones
    ensures Consistent(db.(drones := drones))
  {
  }

  lemma TokensKeep(db: Db, tokens: map<string, BackendId>)
    requires Consistent(db) && TokensRefer(tokens, db.backends)
    ensures Consistent(db.(tokens := tokens))
  {
  }

  lemma ActionsKeep(db: Db, actions: map<nat, ActionRow>)
    requires Consistent(db) && ActionsRefer(actions, db.backends, db.drones)
    ensures Consistent(db.(actions := actions))
  {
  }

  lemma DroneTxn(db: Db, x: Txn)
    requires x.RegisterDrone? || x.Heartbeat?
    ensures Apply(db, x) == db.(drones := Apply(db, x).drones)
    ensures forall d :: d in db.drones ==> d in Apply(db, x).drones
  {
  }

  lemma TokenTxn(db: Db, x: Txn)
    requires TokensRefer(db.tokens, db.backends) && (x.CreateToken? || x.DeleteTokens?)
    ensures Apply(db, x) == db.(tokens := Apply(db, x).tokens)
    ensures TokensRefer(Apply(db, x).tokens, db.backends)
  {
  }

  lemma ActionTxn(db: Db, x: Txn)
    requires ActionsRefer(db.actions, db.backends, db.drones) && (x.CreateAction? || x.AckAction?)
    ensures Apply(db, x) == db.(actions := Apply(db, x).actions)
    ensures ActionsRefer(Apply(db, x).actions, db.backends, db.drones)
  {
  }

  lemma MinorKeepsConsistent(db: Db, x: Txn)
    requires Consistent(db) && Minor(x)
    ensures Consistent(Apply(db, x))
  {
    if x.RegisterDrone? || x.Heartbeat? {
      DroneTxn(db, x);
      MoreDronesKeep(db, Apply(db, x).drones);
    } else if x.CreateToken? || x.DeleteTokens? {
      TokenTxn(db, x);
      TokensKeep(db, Apply(db, x).tokens);
    } else if x.CreateAction? || x.AckAction? {
      ActionTxn(db, x);
      ActionsKeep(db, Apply(db, x).actions);
    }
  }

  /** Every transaction keeps the tables consistent. */
  lemma ApplyKeepsConsistent(db: Db, x: Txn)
    requires Consistent(db) && Enabled(db, x)
    ensures Consistent(Apply(db, x))
  {
    if Minor(x) {
      MinorKeepsConsistent(db, x);
    } else if MovesLease(x) {
      LeaseMoveKeepsConsistent(db, x);
    } else {
      match x
      case Create(n) => if CanCreate(db, n) { CreateKeepsConsistent(db, n); }
      case UpdateState(id, s) => UpdateStateKeepsConsistent(db, id, s);
      case UpdateKeepalive(id) => KeepaliveKeepsConsistent(db, id);
      case Cleanup(days, batch, chosen) => CleanupNeverBlocked(db, days, batch, chosen);
    }
  }

  // ----- Runs -----

  ghost predicate Valid(db: Db, xs: seq<Txn>)
    decreases |xs|
  {
    xs == [] || (Enabled(db, xs[0]) && Valid(Apply(db, xs[0]), xs[1..]))
  }

  function Final(db: Db, xs: seq<Txn>): Db
    decreases |xs|
  {
    if xs == [] then db else Final(Apply(db, xs[0]), xs[1..])
  }

  /** The tables are consistent after every run of transactions from the empty database. */
  lemma {:induction false} AlwaysConsistent(db: Db, xs: seq<Txn>)
    requires Consistent(db) && Valid(db, xs)
    ensures Consistent(Final(db, xs))
    decreases |xs|
  {
    if xs != [] {
      ApplyKeepsConsistent(db, xs[0]);
      AlwaysConsistent(Apply(db, xs[0]), xs[1..]);
    }
  }

  lemma EmptyIsConsistent()
    ensures Consistent(EMPTY)
  {
  }
}
