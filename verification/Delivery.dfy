/**
 From a transaction to a client: every accepted status is stored in the history and put in the
 event table in one transaction (plane/src/database/backend.rs, emit_state_change), travels over
 the event bus, and reaches the backend's status stream.
 */
module Delivery {
  import opened Basics
  import opened BackendStates
  import opened Tables
  import opened StatusStream
  import EventBus

  /** The status changes a transaction puts in the event table. */
  function Emitted(db: Db, x: Txn): seq<Notice> {
    match x
    case Create(n) => if CanCreate(db, n) then [Notice(n.id, HistoryRow(InScheduled, db.now))] else []
    case UpdateState(id, s) =>
      if id in db.backends && Accepts(db.backends[id], s) then [Notice(id, HistoryRow(s, db.now))] else []
    case _ => []
  }

  function Log(db: Db, xs: seq<Txn>): seq<Notice>
    decreases |xs|
  {
    if xs == [] then [] else Emitted(db, xs[0]) + Log(Apply(db, xs[0]), xs[1..])
  }

  /** The event table holds other kinds of events too. */
  function Statuses(rows: seq<Notice>): seq<Notice>
    decreases |rows|
  {
    if rows == [] then []
    else (if rows[0].Notice? then [rows[0]] else []) + Statuses(rows[1..])
  }

  lemma {:induction false} KeyedStatuses(rows: seq<Notice>, id: BackendId)
    ensures Keyed(Statuses(rows), id) == Keyed(rows, id)
    decreases |rows|
  {
    if rows != [] {
      KeyedStatuses(rows[1..], id);
      if rows[0].Notice? {
        assert ([rows[0]] + Statuses(rows[1..]))[1..] == Statuses(rows[1..]);
      } else {
        assert Statuses(rows) == Statuses(rows[1..]);
      }
    }
  }

  lemma CreateEmits(db: Db, n: NewBackend, id: BackendId)
    requires Recorded(db.backends, db.history) && CanCreate(db, n)
    ensures HistoryOf(CreateStep(db, n), id) == HistoryOf(db, id) + Keyed(Emitted(db, Create(n)), id)
  {
    var row := HistoryRow(InScheduled, db.now);
    assert [Notice(n.id, row)][1..] == [];
  }

  lemma UpdateEmits(db: Db, b: BackendId, s: State, id: BackendId)
    requires Recorded(db.backends, db.history)
    ensures HistoryOf(UpdateStateStep(db, b, s), id)
            == HistoryOf(db, id) + Keyed(Emitted(db, UpdateState(b, s)), id)
  {
    var row := HistoryRow(s, db.now);
    assert [Notice(b, row)][1..] == [];
  }

  /** What a transaction adds to a backend's history is what it emits under that backend's key. */
  lemma StepEmitsHistory(db: Db, x: Txn, id: BackendId)
    requires Recorded(db.backends, db.history) && (x.Cleanup? ==> id !in x.chosen)
    ensures HistoryOf(Apply(db, x), id) == HistoryOf(db, id) + Keyed(Emitted(db, x), id)
  {
    if x.Create? {
      if CanCreate(db, x.spec) {
        CreateEmits(db, x.spec, id);
      }
    } else if x.UpdateState? {
      UpdateEmits(db, x.backend, x.state, id);
    } else {
      OthersKeepHistory(db, x, id);
    }
  }

  /** Over every run, the events keyed by a backend are its history. */
  lemma {:induction false} LogIsHistory(db: Db, xs: seq<Txn>, id: BackendId)
    requires Consistent(db) && Valid(db, xs) && Spares(xs, id)
    ensures HistoryOf(Final(db, xs), id) == HistoryOf(db, id) + Keyed(Log(db, xs), id)
    decreases |xs|
  {
    if xs != [] {
      var next := Apply(db, xs[0]);
      ApplyKeepsConsistent(db, xs[0]);
      StepEmitsHistory(db, xs[0], id);
      LogIsHistory(next, xs[1..], id);
      KeyedConcat(Emitted(db, xs[0]), Log(next, xs[1..]), id);
      Regroup(HistoryOf(db, id), Keyed(Emitted(db, xs[0]), id), Keyed(Log(next, xs[1..]), id));
    }
  }

  /** The event table after a run: its statuses, in order, with other events anywhere between. */
  ghost predicate TableOf(rows: seq<Notice>, xs: seq<Txn>) {
    Statuses(rows) == Log(EMPTY, xs)
  }

  lemma TableCarriesHistory(rows: seq<Notice>, xs: seq<Txn>, id: BackendId)
    requires Valid(EMPTY, xs) && Spares(xs, id) && TableOf(rows, xs)
    ensures Keyed(rows, id) == HistoryOf(Final(EMPTY, xs), id)
    ensures Increasing(Keyed(rows, id))
  {
    EmptyIsConsistent();
    LogIsHistory(EMPTY, xs, id);
    KeyedStatuses(rows, id);
    AlwaysConsistent(EMPTY, xs);
    HistoryIncreases(Final(EMPTY, xs), id);
    assert HistoryOf(EMPTY, id) + Keyed(rows, id) == Keyed(rows, id);
  }

  lemma GrowingPrefixes(rows: seq<Notice>, u: nat, q: nat, v: nat, id: BackendId)
    requires u <= q <= v <= |rows| && Increasing(Keyed(rows, id))
    ensures Keyed(rows[..u], id) <= Keyed(rows[..q], id) <= Keyed(rows[..v], id) <= Keyed(rows, id)
    ensures Increasing(Keyed(rows[..v], id))
    ensures Keyed(rows[u..v], id) == Keyed(rows[..v], id)[|Keyed(rows[..u], id)|..]
  {
    PrefixGrows(rows, u, q, id);
    PrefixGrows(rows, q, v, id);
    PrefixGrows(rows, v, |rows|, id);
    assert rows[..|rows|] == rows;
    GaplessForEveryBackend(rows, u, v, id);
  }

  lemma PrefixGrows(rows: seq<Notice>, u: nat, v: nat, id: BackendId)
    requires u <= v <= |rows|
    ensures Keyed(rows[..u], id) <= Keyed(rows[..v], id)
  {
    assert rows[..v] == rows[..u] + rows[u..v];
    KeyedConcat(rows[..u], rows[u..v], id);
  }

  /**
   A stream whose subscription began with row `u` of the event table or earlier than it read the
   history, and that has received every row up to `v`, is the history as of row `v`.
   */
  lemma StreamOfTable(rows: seq<Notice>, xs: seq<Txn>, u: nat, q: nat, v: nat, k: nat, id: BackendId)
    requires Valid(EMPTY, xs) && Spares(xs, id) && TableOf(rows, xs) && k <= |xs|
    requires u <= q <= v <= |rows| && Valid(EMPTY, xs[..k]) && TableOf(rows[..q], xs[..k])
    ensures var read := HistoryOf(Final(EMPTY, xs[..k]), id);
            Entries(read) + Entries(Beyond(LastStatus(read), Keyed(rows[u..v], id)))
            == Entries(Keyed(rows[..v], id))
  {
    assert Spares(xs[..k], id);
    TableCarriesHistory(rows, xs, id);
    TableCarriesHistory(rows[..q], xs[..k], id);
    GrowingPrefixes(rows, u, q, v, id);
    StreamOfGrowing(Keyed(rows[..u], id), Keyed(rows[..q], id), Keyed(rows[..v], id));
  }

  // ----- With the bus in between -----

  /** What a listener gets that subscribes when the manager has delivered `before`. */
  function LiveIds(before: EventBus.Bus, after: EventBus.Bus): seq<nat>
    requires |before.seen.delivered| <= |after.seen.delivered|
  {
    after.seen.delivered[|before.seen.delivered|..]
  }

  /** The table's rows with these ids. */
  ghost predicate RowsOf(ids: seq<nat>, live: seq<Notice>, table: seq<nat>, rows: seq<Notice>) {
    && |table| == |rows| && |live| == |ids|
    && forall i :: 0 <= i < |ids| ==>
         exists k :: 0 <= k < |table| && table[k] == ids[i] && rows[k] == live[i]
  }

  lemma SliceRows(ids: seq<nat>, live: seq<Notice>, table: seq<nat>, rows: seq<Notice>, u: nat, v: nat)
    requires RowsOf(ids, live, table, rows) && EventBus.Ascending(table)
    requires u <= v <= |table| && ids == table[u..v]
    ensures live == rows[u..v]
  {
    forall i | 0 <= i < |ids| ensures live[i] == rows[u..v][i] {
      var k :| 0 <= k < |table| && table[k] == ids[i] && rows[k] == live[i];
      assert table[k] == table[u + i];
    }
  }

  lemma LiveIsSlice(before: EventBus.Bus, steps: seq<EventBus.Step>, a: nat, upTo: nat)
    returns (u: nat, v: nat)
    requires EventBus.Complete(before, a, upTo) && EventBus.Anchored(before)
    requires EventBus.Valid(before, steps) && EventBus.InIdOrder(before, steps)
    ensures var after := EventBus.Final(before, steps);
            && |before.seen.delivered| <= |after.seen.delivered|
            && u <= v <= |after.table| && u <= |before.table| && EventBus.Ascending(after.table)
            && LiveIds(before, after) == after.table[u..v]
            && (after.seen.last.Some? ==> v > 0 && after.seen.last == Some(after.table[v - 1]))
  {
    var after := EventBus.Final(before, steps);
    DeliveredGrows(before, steps);
    var a';
    a', v := EventBus.AnchoredStays(before, steps, a, upTo, |before.table|);
    if before.seen.last.Some? {
      u := upTo;
      LastStays(before, steps);
      assert after.seen.delivered == after.table[a..v] && |before.seen.delivered| == u - a;
    } else if after.seen.last.Some? {
      u := a';
    } else {
      u, v := 0, 0;
    }
  }

  lemma {:induction false} LastStays(before: EventBus.Bus, steps: seq<EventBus.Step>)
    requires EventBus.Valid(before, steps) && before.seen.last.Some?
    ensures EventBus.Final(before, steps).seen.last.Some?
    decreases |steps|
  {
    if steps != [] {
      LastStays(EventBus.Apply(before, steps[0]), steps[1..]);
    }
  }

  lemma {:induction false} DeliveredGrows(before: EventBus.Bus, steps: seq<EventBus.Step>)
    requires EventBus.Valid(before, steps)
    ensures |before.seen.delivered| <= |EventBus.Final(before, steps).seen.delivered|
    decreases |steps|
  {
    if steps != [] {
      DeliveredGrows(EventBus.Apply(before, steps[0]), steps[1..]);
    }
  }

  lemma FromIdle(steps: seq<EventBus.Step>) returns (a: nat, u: nat)
    requires EventBus.Valid(EventBus.IDLE, steps) && EventBus.InIdOrder(EventBus.IDLE, steps)
    ensures EventBus.Complete(EventBus.Final(EventBus.IDLE, steps), a, u)
  {
    EventBus.IdleIsComplete();
    a, u := EventBus.NothingIsMissed(EventBus.IDLE, steps, 0, 0);
  }

  /** The manager has delivered rows at least up to the `q`-th, or everything there is. */
  predicate HasReached(b: EventBus.Bus, q: nat) {
    q <= |b.table| && (q > 0 ==> b.seen.last.Some? && b.table[q - 1] <= b.seen.last.value)
  }

  /** From a subscription on, with the manager in the state `before`. */
  lemma FollowersAreServed(xs: seq<Txn>, k: nat, rows: seq<Notice>, q: nat, id: BackendId,
                           before: EventBus.Bus, a: nat, upTo: nat, following: seq<EventBus.Step>,
                           live: seq<Notice>)
    returns (v: nat)
    requires Valid(EMPTY, xs) && Spares(xs, id) && TableOf(rows, xs)
    requires k <= |xs| && q <= |rows| && Valid(EMPTY, xs[..k]) && TableOf(rows[..q], xs[..k])
    requires EventBus.Complete(before, a, upTo) && EventBus.Anchored(before) && |before.table| <= q
    requires EventBus.Valid(before, following) && EventBus.InIdOrder(before, following)
    requires var after := EventBus.Final(before, following);
             && |before.seen.delivered| <= |after.seen.delivered|
             && |after.table| == |rows| && HasReached(after, q)
             && RowsOf(LiveIds(before, after), live, after.table, rows)
    ensures var read := HistoryOf(Final(EMPTY, xs[..k]), id);
            && q <= v <= |rows|
            && Entries(read) + Entries(Beyond(LastStatus(read), Keyed(live, id)))
               == Entries(Keyed(rows[..v], id))
    ensures HasReached(EventBus.Final(before, following), |rows|) ==> v == |rows|
  {
    var after := EventBus.Final(before, following);
    var u;
    u, v := LiveIsSlice(before, following, a, upTo);
    SliceRows(LiveIds(before, after), live, after.table, rows, u, v);
    StreamOfTable(rows, xs, u, q, v, k, id);
  }

  /**
   The whole way, for every run of transactions `xs` and every run of the bus in which rows become
   visible in id order: a client subscribes when the manager is anchored, reads the history after
   `k` transactions, when `q` rows are visible, and follows. Once the manager has delivered the last of those rows, the client's stream is the history up to the last delivered
   row; with nothing left to deliver, it is the backend's history.
   */
  lemma StatusesReachTheClient(xs: seq<Txn>, k: nat, rows: seq<Notice>, q: nat, id: BackendId,
                               subscribing: seq<EventBus.Step>, before: EventBus.Bus,
                               following: seq<EventBus.Step>, live: seq<Notice>)
    returns (v: nat)
    requires Valid(EMPTY, xs) && Spares(xs, id) && TableOf(rows, xs)
    requires k <= |xs| && q <= |rows| && Valid(EMPTY, xs[..k]) && TableOf(rows[..q], xs[..k])
    requires EventBus.Valid(EventBus.IDLE, subscribing) && EventBus.InIdOrder(EventBus.IDLE, subscribing)
    requires before == EventBus.Final(EventBus.IDLE, subscribing)
    requires EventBus.Anchored(before) && |before.table| <= q
    requires EventBus.Valid(before, following) && EventBus.InIdOrder(before, following)
    requires var after := EventBus.Final(before, following);
             && |before.seen.delivered| <= |after.seen.delivered|
             && |after.table| == |rows| && HasReached(after, q)
             && RowsOf(LiveIds(before, after), live, after.table, rows)
    ensures var read := HistoryOf(Final(EMPTY, xs[..k]), id);
            var stream := Entries(read) + Entries(Beyond(LastStatus(read), Keyed(live, id)));
            && q <= v <= |rows|
            && stream == Entries(Keyed(rows[..v], id))
            && (HasReached(EventBus.Final(before, following), |rows|)
                ==> stream == Entries(HistoryOf(Final(EMPTY, xs), id)))
  {
    var a, u := FromIdle(subscribing);
    v := FollowersAreServed(xs, k, rows, q, id, before, a, u, following, live);
    TableCarriesHistory(rows, xs, id);
    assert rows[..|rows|] == rows;
  }

  /** The notices of two more statuses of a backend, one after the other. */
  function Two(id: BackendId, s1: State, s2: State): seq<Txn> {
    [UpdateState(id, s1)] + ([UpdateState(id, s2)] + [])
  }

  lemma OneMore(db: Db, id: BackendId, s: State)
    requires id in db.backends && Columns(db.backends[id])
    requires db.backends[id].state.StatusInt() < s.StatusInt()
    ensures var next := Apply(db, UpdateState(id, s));
            && HistoryOf(next, id) == HistoryOf(db, id) + [HistoryRow(s, db.now)]
            && Emitted(db, UpdateState(id, s)) == [Notice(id, HistoryRow(s, db.now))]
            && id in next.backends && Columns(next.backends[id]) && next.backends[id].state == s
            && next.now == db.now
  {
  }

  lemma TwoMore(db: Db, id: BackendId, s1: State, s2: State)
    requires id in db.backends && Columns(db.backends[id])
    requires db.backends[id].state.StatusInt() < s1.StatusInt() < s2.StatusInt()
    ensures var h1, h2 := HistoryRow(s1, db.now), HistoryRow(s2, db.now);
            && Valid(db, Two(id, s1, s2))
            && Log(db, Two(id, s1, s2)) == [Notice(id, h1), Notice(id, h2)]
            && HistoryOf(Final(db, Two(id, s1, s2)), id) == HistoryOf(db, id) + [h1, h2]
  {
    var db1 := Apply(db, UpdateState(id, s1));
    var db2 := Apply(db1, UpdateState(id, s2));
    OneMore(db, id, s1);
    OneMore(db1, id, s2);
    UnfoldTwo(db, UpdateState(id, s1), UpdateState(id, s2));
    assert HistoryOf(db2, id)
        == HistoryOf(db, id) + [HistoryRow(s1, db.now)] + [HistoryRow(s2, db.now)];
  }

  lemma UnfoldTwo(db: Db, x: Txn, y: Txn)
    ensures var db1 := Apply(db, x);
            && (Valid(db, [x] + ([y] + [])) <==> Enabled(db, x) && Enabled(db1, y))
            && Final(db, [x] + ([y] + [])) == Apply(db1, y)
            && Log(db, [x] + ([y] + [])) == Emitted(db, x) + Emitted(db1, y)
  {
    var second, db1 := [y] + [], Apply(db, x);
    assert second[1..] == [] && ([x] + second)[1..] == second;
    assert Valid(Apply(db1, y), []) && Final(Apply(db1, y), []) == Apply(db1, y);
    assert (Valid(db1, second) <==> Enabled(db1, y)) && Final(db1, second) == Final(Apply(db1, y), second[1..]);
    assert Log(db1, second) == Emitted(db1, y) + Log(Apply(db1, y), []);
    assert Emitted(db1, y) + [] == Emitted(db1, y);
  }

  lemma KeyedOne(id: BackendId, row: HistoryRow)
    ensures Keyed([Notice(id, row)], id) == [row]
  {
    assert [Notice(id, row)][1..] == [];
  }

  lemma BeyondOne(rows: seq<HistoryRow>, row: HistoryRow)
    requires rows != [] && rows[|rows| - 1].state.StatusInt() < row.state.StatusInt()
    ensures Beyond(LastStatus(rows), [row]) == [row]
  {
    StatusOrdersAgree(row.state.Status(), rows[|rows| - 1].state.Status());
    assert [row][1..] == [];
  }

  /**
   When the manager is not anchored, whatever has happened so far: a client that subscribes then and
   reads the history of any backend, which goes on to take two more statuses, can be sent the second
   of them and never the first, with rows visible in id order and nothing left to deliver.
   */
  lemma FirstRowsCanPassBy(before: EventBus.Bus, a: nat, upTo: nat, rows: seq<Notice>, db: Db,
                           id: BackendId, s1: State, s2: State, x: nat)
    returns (steps: seq<EventBus.Step>, live: seq<Notice>)
    requires EventBus.Complete(before, a, upTo) && !EventBus.Anchored(before) && |rows| == |before.table|
    requires forall y :: y in before.table ==> y < x
    requires Consistent(db) && id in db.backends
    requires db.backends[id].state.StatusInt() < s1.StatusInt() < s2.StatusInt()
    ensures EventBus.Valid(before, steps) && EventBus.InIdOrder(before, steps)
    ensures var xs := Two(id, s1, s2);
            var after := EventBus.Final(before, steps);
            var read, end := HistoryOf(db, id), HistoryOf(Final(db, xs), id);
            && Valid(db, xs) && |end| == |read| + 2
            && |before.seen.delivered| <= |after.seen.delivered|
            && RowsOf(LiveIds(before, after), live, after.table, rows + Log(db, xs))
            && HasReached(after, |after.table|)
            && Entries(read) + Entries(Beyond(LastStatus(read), Keyed(live, id)))
               == Entries(end[..|read|] + end[|read| + 1..])
  {
    steps := EventBus.Disconnecting(before) + EventBus.Passing(x, x + 1);
    EventBus.UnanchoredPassesBy(before, a, upTo, x, x + 1);
    live := [Notice(id, HistoryRow(s2, db.now))];
    assert Columns(db.backends[id]) && RecordOf(db.backends[id], db.history[id]);
    TwoMore(db, id, s1, s2);
    StreamWithoutTheFirst(HistoryOf(db, id), HistoryRow(s1, db.now), HistoryRow(s2, db.now), id);
    SecondOnly(before, EventBus.Final(before, steps), rows, Log(db, Two(id, s1, s2)), live[0], x);
  }

  lemma StreamWithoutTheFirst(read: seq<HistoryRow>, h1: HistoryRow, h2: HistoryRow, id: BackendId)
    requires read != [] && read[|read| - 1].state.StatusInt() < h2.state.StatusInt()
    ensures var end := read + [h1, h2];
            Entries(read) + Entries(Beyond(LastStatus(read), Keyed([Notice(id, h2)], id)))
            == Entries(end[..|read|] + end[|read| + 1..])
  {
    KeyedOne(id, h2);
    BeyondOne(read, h2);
    var end := read + [h1, h2];
    assert end[..|read|] == read && end[|read| + 1..] == [h2];
    EntriesOfBoth(read, [h2]);
  }

  lemma EntriesOfBoth(a: seq<HistoryRow>, b: seq<HistoryRow>)
    ensures Entries(a) + Entries(b) == Entries(a + b)
  {
  }

  lemma SecondOnly(before: EventBus.Bus, after: EventBus.Bus, rows: seq<Notice>, more: seq<Notice>,
                   second: Notice, x: nat)
    requires |rows| == |before.table| && before.seen.delivered == [] && |more| == 2 && more[1] == second
    requires after.table == before.table + [x, x + 1]
    requires after.seen == EventBus.Seen(Some(x + 1), [x + 1])
    ensures RowsOf(LiveIds(before, after), [second], after.table, rows + more)
    ensures HasReached(after, |after.table|)
  {
    assert LiveIds(before, after) == [x + 1];
    assert after.table[|rows| + 1] == x + 1 && (rows + more)[|rows| + 1] == second;
  }
}
