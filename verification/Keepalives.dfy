/**
 A proxy's keepalives and the controller's tables together: a keepalive that arrives is the
 transaction that notes it (plane/src/controller/proxy.rs, plane/src/database/backend.rs), among
 any other transactions.
 */
module Keepalives {
  import opened Basics
  import opened BackendStates
  import opened Tables
  import Monitor = ConnectionMonitor

  datatype World = World(p: Monitor.Proxy, db: Db)

  /** A step of the proxy, or a transaction of somebody else; only the proxy's clock is ticked. */
  datatype Step = Proxied(step: Monitor.Step) | Other(x: Txn)

  predicate Enabled(w: World, step: Step, late: Time, delay: Time) {
    match step
    case Proxied(s) => Monitor.Enabled(w.p, s, late, delay)
    case Other(x) => !x.Tick? && Tables.Enabled(w.db, x)
  }

  /** What a step of the proxy does to the tables. */
  function Noted(db: Db, s: Monitor.Step): Db {
    match s
    case Tick(dt) => Tables.Apply(db, Txn.Tick(dt))
    case Arrive(b) => Tables.Apply(db, UpdateKeepalive(b))
    case _ => db
  }

  function Apply(w: World, step: Step): World {
    match step
    case Proxied(s) => World(Monitor.Apply(w.p, s), Noted(w.db, s))
    case Other(x) => w.(db := Tables.Apply(w.db, x))
  }

  ghost predicate Valid(w: World, steps: seq<Step>, late: Time, delay: Time)
    decreases |steps|
  {
    steps == [] || (Enabled(w, steps[0], late, delay) && Valid(Apply(w, steps[0]), steps[1..], late, delay))
  }

  function Final(w: World, steps: seq<Step>): World
    decreases |steps|
  {
    if steps == [] then w else Final(Apply(w, steps[0]), steps[1..])
  }

  /** What the proxy knows to have arrived, the row of a backend that has not terminated has noted. */
  ghost predicate RowsNote(p: Monitor.Proxy, backends: map<BackendId, BackendRow>) {
    forall b :: b in p.lastKeepalive ==>
      && p.lastKeepalive[b] <= p.now
      && (b in backends && backends[b].status != Terminated ==>
            p.lastKeepalive[b] <= backends[b].lastKeepalive)
  }

  ghost predicate Inv(w: World, late: Time, delay: Time) {
    && Consistent(w.db) && w.db.now == w.p.now && RowsNote(w.p, w.db.backends)
    && Monitor.Inv(w.p, late, delay)
  }

  /** No transaction sets a row's last keepalive back, or revives a terminated backend. */
  ghost predicate KeepalivesKept(db: Db, d: Db) {
    && d.now == db.now
    && forall b :: b in d.backends && d.backends[b].status != Terminated ==>
         if b in db.backends && db.backends[b].status != Terminated
         then db.backends[b].lastKeepalive <= d.backends[b].lastKeepalive
         else d.backends[b].lastKeepalive == db.now
  }

  /** No row's last keepalive lies in the future. */
  ghost predicate NoneAhead(db: Db) {
    forall b :: b in db.backends && db.backends[b].status != Terminated ==>
      db.backends[b].lastKeepalive <= db.now
  }

  /** Rows other than one are as before, and that one keeps its keepalive, or has a new one. */
  lemma OneRowKeeps(db: Db, d: Db, id: BackendId)
    requires NoneAhead(db) && d.now == db.now
    requires forall b :: b in d.backends && b != id ==> b in db.backends && d.backends[b] == db.backends[b]
    requires id in d.backends && d.backends[id].status != Terminated ==>
               || d.backends[id].lastKeepalive == db.now
               || (id in db.backends && db.backends[id].status != Terminated
                   && d.backends[id].lastKeepalive == db.backends[id].lastKeepalive)
    ensures KeepalivesKept(db, d) && NoneAhead(d)
  {
  }

  lemma ReportKeeps(db: Db, id: BackendId, s: State)
    requires Recorded(db.backends, db.history) && NoneAhead(db)
    ensures var d := Tables.Apply(db, UpdateState(id, s)); KeepalivesKept(db, d) && NoneAhead(d)
  {
    var d := Tables.Apply(db, UpdateState(id, s));
    if id in db.backends {
      ReportedRow(db.backends[id], s, db.now);
    }
    OneRowKeeps(db, d, id);
  }

  /** A row that has terminated takes no report, and a report leaves the keepalive alone. */
  lemma ReportedRow(row: BackendRow, s: State, now: Time)
    requires Columns(row)
    ensures row.status == Terminated ==> !Accepts(row, s)
    ensures WithState(row, s, now).lastKeepalive == row.lastKeepalive
  {
  }

  lemma CreateKeeps(db: Db, n: NewBackend)
    requires NoneAhead(db)
    ensures var d := Tables.Apply(db, Create(n)); KeepalivesKept(db, d) && NoneAhead(d)
  {
    OneRowKeeps(db, Tables.Apply(db, Create(n)), n.id);
  }

  lemma CleanupKeeps(db: Db, days: int, batch: int, chosen: set<BackendId>)
    requires NoneAhead(db)
    ensures var d := Tables.Apply(db, Cleanup(days, batch, chosen)); KeepalivesKept(db, d) && NoneAhead(d)
  {
  }

  lemma KeepaliveKeeps(db: Db, id: BackendId)
    requires NoneAhead(db)
    ensures var d := Tables.Apply(db, UpdateKeepalive(id)); KeepalivesKept(db, d) && NoneAhead(d)
  {
    OneRowKeeps(db, Tables.Apply(db, UpdateKeepalive(id)), id);
  }

  lemma OthersKeep(db: Db, x: Txn)
    requires NoneAhead(db)
    requires !x.Tick? && !x.UpdateState? && !x.Create? && !x.Cleanup? && !x.UpdateKeepalive?
    ensures var d := Tables.Apply(db, x); KeepalivesKept(db, d) && NoneAhead(d)
  {
    assert Tables.Apply(db, x).backends == db.backends && Tables.Apply(db, x).now == db.now;
  }

  lemma TransactionKeeps(db: Db, x: Txn)
    requires Consistent(db) && !x.Tick? && NoneAhead(db)
    ensures var d := Tables.Apply(db, x); KeepalivesKept(db, d) && NoneAhead(d)
  {
    if x.UpdateState? {
      ReportKeeps(db, x.backend, x.state);
    } else if x.Create? {
      CreateKeeps(db, x.spec);
    } else if x.Cleanup? {
      CleanupKeeps(db, x.minAgeDays, x.batch, x.chosen);
    } else if x.UpdateKeepalive? {
      KeepaliveKeeps(db, x.backend);
    } else {
      OthersKeep(db, x);
    }
  }

  lemma OtherKeepsInv(w: World, x: Txn, late: Time, delay: Time)
    requires Inv(w, late, delay) && NoneAhead(w.db) && Enabled(w, Other(x), late, delay)
    ensures Inv(Apply(w, Other(x)), late, delay) && NoneAhead(Apply(w, Other(x)).db)
  {
    ApplyKeepsConsistent(w.db, x);
    TransactionKeeps(w.db, x);
  }

  /** A keepalive that arrives is noted in the row, if that is still of use. */
  lemma ArrivalIsNoted(w: World, b: BackendId, late: Time, delay: Time)
    requires w.db.now == w.p.now && RowsNote(w.p, w.db.backends)
    requires Monitor.Enabled(w.p, Monitor.Arrive(b), late, delay)
    ensures var v := Apply(w, Proxied(Monitor.Arrive(b)));
            RowsNote(v.p, v.db.backends) && v.db.now == v.p.now
  {
    var v := Apply(w, Proxied(Monitor.Arrive(b)));
    assert v.p.lastKeepalive == w.p.lastKeepalive[b := w.p.now] && v.p.now == w.p.now;
    NotedRow(w.db, b);
  }

  lemma NotedRow(db: Db, b: BackendId)
    ensures var d := Tables.Apply(db, UpdateKeepalive(b));
            && d.now == db.now
            && (forall x :: x in d.backends <==> x in db.backends)
            && (forall x :: x in d.backends && x != b ==> d.backends[x] == db.backends[x])
            && (b in d.backends && d.backends[b].status != Terminated ==>
                  d.backends[b].lastKeepalive == db.now)
  {
  }

  lemma StepLeavesKeepalives(p: Monitor.Proxy, s: Monitor.Step)
    requires !s.Arrive? && !s.Tick?
    ensures Monitor.Apply(p, s).lastKeepalive == p.lastKeepalive && Monitor.Apply(p, s).now == p.now
  {
  }

  lemma ProxiedKeepsInv(w: World, s: Monitor.Step, late: Time, delay: Time)
    requires late >= 0 && delay >= 0 && Inv(w, late, delay) && NoneAhead(w.db)
    requires Enabled(w, Proxied(s), late, delay)
    ensures Inv(Apply(w, Proxied(s)), late, delay) && NoneAhead(Apply(w, Proxied(s)).db)
  {
    Monitor.StepKeepsInv(w.p, s, late, delay);
    match s
    case Tick(dt) => ApplyKeepsConsistent(w.db, Txn.Tick(dt));
    case Arrive(b) =>
      ApplyKeepsConsistent(w.db, UpdateKeepalive(b));
      TransactionKeeps(w.db, UpdateKeepalive(b));
      ArrivalIsNoted(w, b, late, delay);
    case _ => StepLeavesKeepalives(w.p, s);
  }

  lemma {:induction false} RunKeepsInv(w: World, steps: seq<Step>, late: Time, delay: Time)
    requires late >= 0 && delay >= 0 && Inv(w, late, delay) && NoneAhead(w.db)
    requires Valid(w, steps, late, delay)
    ensures Inv(Final(w, steps), late, delay)
    decreases |steps|
  {
    if steps != [] {
      match steps[0]
      case Proxied(s) => ProxiedKeepsInv(w, s, late, delay);
      case Other(x) => OtherKeepsInv(w, x, late, delay);
    }
    if steps != [] {
      RunKeepsInv(Apply(w, steps[0]), steps[1..], late, delay);
    }
  }

  /** A new proxy next to consistent tables, none of whose keepalives lies in the future. */
  function Start(db: Db): World {
    World(Monitor.Fresh(db.now, map[]), db)
  }

  lemma StartIsSound(db: Db, late: Time, delay: Time)
    requires late >= 0 && delay >= 0 && Consistent(db)
    ensures Inv(Start(db), late, delay)
  {
    Monitor.FreshIsSound(db.now, map[], late, delay);
  }

  /**
   Over every run of the proxy and the tables together: a backend with an open connection and an
   idle limit of at least 7 s and the assumed lateness and delay is taken by the sweep exactly when
   its lifetime is over, or when its row is idle and the first keepalive since the proxy tracks it is
   still on its way.
   */
  lemma SweptIff(db: Db, steps: seq<Step>, late: Time, delay: Time, b: BackendId)
    requires late >= 0 && delay >= 0 && Consistent(db) && NoneAhead(db)
    requires Valid(Start(db), steps, late, delay)
    requires var w := Final(Start(db), steps);
             && b !in w.p.gone && Monitor.Opened(w.p, b) > 0 && b in w.db.backends
             && (w.db.backends[b].allowedIdle.Some? ==>
                   7_000_000 + late + delay <= w.db.backends[b].allowedIdle.value * 1_000_000)
    ensures var w := Final(Start(db), steps);
            var row := w.db.backends[b];
            && b in w.p.reports
            && (Sweepable(w.db, b)
                <==> Monitor.Running(row)
                     && (Monitor.Ended(row, w.db.now)
                         || (Monitor.Idle(row, w.db.now) && w.p.reports[b].arrived.None?)))
  {
    StartIsSound(db, late, delay);
    RunKeepsInv(Start(db), steps, late, delay);
    var w := Final(Start(db), steps);
    Monitor.KeptAlive(w.p, late, delay, b);
  }
}
