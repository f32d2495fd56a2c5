/**
 Registration of nodes by the controllers they connect to (plane/src/database/node.rs), and the
 connection handles that mark them offline when they are dropped (plane/src/controller/core.rs).
 */
module Nodes {
  import opened Basics

  type NodeId = nat
  type ControllerId = nat

  datatype Row = Row(cluster: Option<string>, name: string, controller: Option<ControllerId>, start: Time)

  /** The node table and the next id of its sequence. */
  datatype Table = Table(rows: map<NodeId, Row>, nextId: NodeId)

  /**
   A row the unique index on (cluster, name) finds. A null cluster is equal to nothing, so a node
   without a cluster gets a new row each time it registers.
   */
  predicate Conflicts(rows: map<NodeId, Row>, cluster: Option<string>, name: string, id: NodeId) {
    id in rows && cluster.Some? && rows[id].cluster == cluster && rows[id].name == name
  }

  ghost predicate Indexed(t: Table) {
    && (forall id :: id in t.rows ==> id < t.nextId)
    && (forall i, j :: i in t.rows && Conflicts(t.rows, t.rows[i].cluster, t.rows[i].name, j) ==> i == j)
  }

  ghost function IdFor(t: Table, cluster: Option<string>, name: string): (id: NodeId)
    ensures Conflicts(t.rows, cluster, name, id)
            || (id == t.nextId && forall i :: !Conflicts(t.rows, cluster, name, i))
  {
    if i: NodeId :| Conflicts(t.rows, cluster, name, i) then i else t.nextId
  }

  ghost function Register(t: Table, cluster: Option<string>, name: string, c: ControllerId, now: Time): Table {
    var id := IdFor(t, cluster, name);
    Table(t.rows[id := Row(cluster, name, Some(c), now)], Max(t.nextId, id + 1))
  }

  function MarkOffline(t: Table, id: NodeId, c: ControllerId, start: Time): Table {
    if id in t.rows && t.rows[id].controller == Some(c) && t.rows[id].start == start then
      t.(rows := t.rows[id := t.rows[id].(controller := None)])
    else t
  }

  class NodeDatabase {
    var rows: map<NodeId, Row>
    var nextId: NodeId
    /** Notifications: a node, and whether it connected or disconnected. */
    var emitted: seq<(NodeId, bool)>

    function View(): Table
      reads this
    {
      Table(rows, nextId)
    }

    constructor ()
      ensures View() == Table(map[], 0) && emitted == []
    {
      rows, nextId, emitted := map[], 0, [];
    }

    method RegisterNode(cluster: Option<string>, name: string, controller: ControllerId, now: Time)
      returns (id: NodeId, start: Time)
      requires Indexed(View())
      modifies this
      ensures View() == Register(old(View()), cluster, name, controller, now)
      ensures id == IdFor(old(View()), cluster, name) && start == now
      ensures emitted == old(emitted) + [(id, true)]
      ensures Indexed(View())
    {
      RegisterKeepsIndexed(View(), cluster, name, controller, now);
      var existing := set i | i in rows && Conflicts(rows, cluster, name, i);
      if existing != {} {
        id :| id in existing;
        assert Conflicts(rows, cluster, name, id);
        assert id == IdFor(View(), cluster, name);
      } else {
        assert forall i :: Conflicts(rows, cluster, name, i) ==> i in existing;
        id, nextId := nextId, nextId + 1;
      }
      rows := rows[id := Row(cluster, name, Some(controller), now)];
      emitted := emitted + [(id, true)];
      start := now;
    }

    method MarkNodeOffline(id: NodeId, controller: ControllerId, start: Time)
      modifies this
      ensures View() == MarkOffline(old(View()), id, controller, start)
      ensures emitted == old(emitted) + [(id, false)]
    {
      emitted := emitted + [(id, false)];
      if id in rows && rows[id].controller == Some(controller) && rows[id].start == start {
        rows := rows[id := rows[id].(controller := None)];
      }
    }
  }

  lemma RegisterKeepsIndexed(t: Table, cluster: Option<string>, name: string, c: ControllerId, now: Time)
    requires Indexed(t)
    ensures Indexed(Register(t, cluster, name, c, now))
    ensures forall i :: Conflicts(t.rows, cluster, name, i) ==> i == IdFor(t, cluster, name)
  {
    var id := IdFor(t, cluster, name);
    var u := Register(t, cluster, name, c, now);
    forall i | Conflicts(t.rows, cluster, name, i) ensures i == id {
      assert Conflicts(t.rows, cluster, name, id);
      assert Conflicts(t.rows, t.rows[i].cluster, t.rows[i].name, id);
    }
    forall i, j | i in u.rows && Conflicts(u.rows, u.rows[i].cluster, u.rows[i].name, j) ensures i == j {
      if i != id && j != id {
        assert Conflicts(t.rows, t.rows[i].cluster, t.rows[i].name, j);
      } else if i != id {
        assert Conflicts(t.rows, cluster, name, i);
      } else if j != id {
        assert Conflicts(t.rows, cluster, name, j);
      }
    }
  }

  // ----- Connections -----

  /** What happened, in order: a connection registered its node, or the one at a position ended. */
  datatype Entry = Opened(node: NodeId, controller: ControllerId, start: Time) | Closed(k: nat)

  datatype System = System(table: Table, log: seq<Entry>, now: Time)

  const INITIAL: System := System(Table(map[], 0), [], 0)

  datatype Step =
    | Open(cluster: Option<string>, name: string, controller: ControllerId)
    | Close(connection: nat)
    | Tick(later: nat)

  predicate Enabled(s: System, step: Step) {
    step.Close? ==> step.connection < |s.log| && s.log[step.connection].Opened?
  }

  ghost function Apply(s: System, step: Step): System
    requires Enabled(s, step)
  {
    match step
    case Open(cluster, name, c) =>
      var id := IdFor(s.table, cluster, name);
      s.(table := Register(s.table, cluster, name, c, s.now), log := s.log + [Opened(id, c, s.now)])
    case Close(k) =>
      var o := s.log[k];
      s.(table := MarkOffline(s.table, o.node, o.controller, o.start), log := s.log + [Closed(k)])
    case Tick(later) => s.(now := s.now + later)
  }

  ghost predicate Valid(s: System, steps: seq<Step>)
    decreases |steps|
  {
    steps == [] || (Enabled(s, steps[0]) && Valid(Apply(s, steps[0]), steps[1..]))
  }

  ghost function Final(s: System, steps: seq<Step>): System
    requires Valid(s, steps)
    decreases |steps|
  {
    if steps == [] then s else Final(Apply(s, steps[0]), steps[1..])
  }

  predicate Opens(e: Entry, n: NodeId) {
    e.Opened? && e.node == n
  }

  /** Position of the latest registration of a node, or -1. */
  function Latest(log: seq<Entry>, n: NodeId): (i: int)
    ensures -1 <= i < |log|
    ensures 0 <= i ==> Opens(log[i], n)
    ensures forall k :: i < k < |log| ==> !Opens(log[k], n)
  {
    if log == [] then -1
    else if Opens(log[|log| - 1], n) then |log| - 1
    else Latest(log[..|log| - 1], n)
  }

  /** Entry `j` ends a connection that looks like the one opened at `i`. */
  predicate Ends(log: seq<Entry>, j: nat, i: nat)
    requires i < |log|
  {
    j < |log| && log[j].Closed? && log[j].k < |log| && log[log[j].k] == log[i]
  }

  /** Since the latest registration a connection with its controller and start time has ended. */
  ghost predicate Ended(log: seq<Entry>, n: NodeId) {
    var i := Latest(log, n);
    0 <= i && exists j :: i < j && Ends(log, j, i)
  }

  ghost predicate WellFormed(log: seq<Entry>) {
    forall j :: 0 <= j < |log| && log[j].Closed? ==> log[j].k < j && log[log[j].k].Opened?
  }

  ghost predicate RowFollows(s: System, n: NodeId) {
    var i := Latest(s.log, n);
    && (n in s.table.rows <==> 0 <= i)
    && (0 <= i ==>
          && s.table.rows[n].start == s.log[i].start
          && s.table.rows[n].controller == if Ended(s.log, n) then None else Some(s.log[i].controller))
  }

  ghost predicate Inv(s: System) {
    && Indexed(s.table)
    && WellFormed(s.log)
    && forall n :: RowFollows(s, n)
  }

  lemma LatestAfter(log: seq<Entry>, e: Entry, n: NodeId)
    ensures Latest(log + [e], n) == if Opens(e, n) then |log| else Latest(log, n)
  {
    assert (log + [e])[..|log|] == log;
  }

  lemma EndedAfterClose(log: seq<Entry>, k: nat, n: NodeId)
    requires k < |log| && log[k].Opened?
    ensures Ended(log + [Closed(k)], n)
            <==> Ended(log, n) || (0 <= Latest(log, n) && log[k] == log[Latest(log, n)])
  {
    var after := log + [Closed(k)];
    LatestAfter(log, Closed(k), n);
    var i := Latest(log, n);
    if 0 <= i {
      if Ended(log, n) {
        var j :| i < j && Ends(log, j, i);
        assert Ends(after, j, i);
      }
      if log[k] == log[i] {
        assert Ends(after, |log|, i);
      }
      if j :| i < j < |log| && Ends(after, j, i) && after[j].k < |log| {
        assert Ends(log, j, i);
      }
    }
  }

  lemma OpenKeepsRows(s: System, step: Step, n: NodeId)
    requires Inv(s) && step.Open?
    ensures RowFollows(Apply(s, step), n)
  {
    var id := IdFor(s.table, step.cluster, step.name);
    var e := Opened(id, step.controller, s.now);
    LatestAfter(s.log, e, n);
    assert RowFollows(s, n);
    var i, after := Latest(s.log, n), s.log + [e];
    if n != id && 0 <= i {
      if Ended(s.log, n) {
        var j :| i < j && Ends(s.log, j, i);
        assert Ends(after, j, i);
      }
      if Ended(after, n) {
        var j :| i < j && Ends(after, j, i);
        assert after[j] == s.log[j];
        assert Ends(s.log, j, i);
      }
    }
  }

  lemma CloseKeepsRows(s: System, k: nat, n: NodeId)
    requires Inv(s) && Enabled(s, Close(k))
    ensures RowFollows(Apply(s, Close(k)), n)
  {
    LatestAfter(s.log, Closed(k), n);
    EndedAfterClose(s.log, k, n);
    assert RowFollows(s, n);
  }

  lemma StepKeepsInv(s: System, step: Step)
    requires Inv(s) && Enabled(s, step)
    ensures Inv(Apply(s, step))
  {
    var t := Apply(s, step);
    match step
    case Open(cluster, name, c) =>
      RegisterKeepsIndexed(s.table, cluster, name, c, s.now);
      forall n ensures RowFollows(t, n) {
        OpenKeepsRows(s, step, n);
      }
    case Close(k) =>
      OfflineKeepsIndexed(s.table, s.log[k].node, s.log[k].controller, s.log[k].start);
      forall n ensures RowFollows(t, n) {
        CloseKeepsRows(s, k, n);
      }
    case Tick(_) =>
      forall n ensures RowFollows(t, n) {
        assert RowFollows(s, n);
      }
  }

  lemma OfflineKeepsIndexed(t: Table, id: NodeId, c: ControllerId, start: Time)
    requires Indexed(t)
    ensures Indexed(MarkOffline(t, id, c, start))
  {
    var u := MarkOffline(t, id, c, start);
    forall i, j | i in u.rows && Conflicts(u.rows, u.rows[i].cluster, u.rows[i].name, j) ensures i == j {
      assert Conflicts(t.rows, t.rows[i].cluster, t.rows[i].name, j);
    }
  }

  lemma {:induction false} RunKeepsInv(s: System, steps: seq<Step>)
    requires Inv(s) && Valid(s, steps)
    ensures Inv(Final(s, steps))
    decreases |steps|
  {
    if steps != [] {
      StepKeepsInv(s, steps[0]);
      RunKeepsInv(Apply(s, steps[0]), steps[1..]);
    }
  }

  lemma InitialInv()
    ensures Inv(INITIAL)
  {
  }

  // ----- Which connection decides -----

  /** No two registrations of a node by the same controller carry the same start time. */
  ghost predicate Distinct(log: seq<Entry>) {
    forall i, j :: 0 <= i < j < |log| && log[i].Opened? && log[j].Opened? ==> log[i] != log[j]
  }

  /**
   Over every run in which registrations can be told apart, a node has no controller exactly when
   its latest connection has ended, in whatever order the ends of older ones arrive; otherwise it
   has the controller of its latest connection.
   */
  lemma LatestConnectionDecides(steps: seq<Step>, n: NodeId)
    requires Valid(INITIAL, steps)
    requires Distinct(Final(INITIAL, steps).log)
    ensures var s := Final(INITIAL, steps);
            var i := Latest(s.log, n);
            && (n in s.table.rows <==> 0 <= i)
            && (0 <= i ==> (s.table.rows[n].controller == None <==> Closed(i) in s.log))
            && (0 <= i && Closed(i) !in s.log ==>
                  s.table.rows[n].controller == Some(s.log[i].controller))
  {
    InitialInv();
    RunKeepsInv(INITIAL, steps);
    var s := Final(INITIAL, steps);
    var i := Latest(s.log, n);
    assert RowFollows(s, n);
    if 0 <= i {
      if Ended(s.log, n) {
        var j :| i < j && Ends(s.log, j, i);
        assert s.log[j].k == i;
        assert s.log[j] in s.log;
      }
      if Closed(i) in s.log {
        var j :| 0 <= j < |s.log| && s.log[j] == Closed(i);
        assert Ends(s.log, j, i);
      }
    }
  }

  /**
   The end of an older connection takes a connected node offline exactly when the node's latest
   registration has the same controller and start time.
   */
  lemma StaleCloseIff(s: System, k: nat)
    requires Inv(s) && Enabled(s, Close(k))
    requires var i := Latest(s.log, s.log[k].node); k != i && !Ended(s.log, s.log[k].node)
    ensures var n := s.log[k].node;
            && n in s.table.rows && n in Apply(s, Close(k)).table.rows
            && (Apply(s, Close(k)).table.rows[n].controller == None
                <==> s.log[k] == s.log[Latest(s.log, n)])
  {
    var n := s.log[k].node;
    assert Opens(s.log[k], n);
    assert RowFollows(s, n);
    CloseKeepsRows(s, k, n);
    EndedAfterClose(s.log, k, n);
    LatestAfter(s.log, Closed(k), n);
  }

  /**
   From every reachable state: two registrations of a node in the same instant, then the end of the
   first, and the node is offline although its latest connection has not ended.
   */
  lemma TiedStartTimesConfuse(s: System, cluster: string, name: string, c: ControllerId)
    requires Inv(s)
    ensures var open, first := Open(Some(cluster), name, c), |s.log|;
            var both := Apply(Apply(s, open), open);
            var n := IdFor(s.table, Some(cluster), name);
            && Enabled(both, Close(first))
            && var t := Apply(both, Close(first));
               && Latest(t.log, n) == first + 1 && Closed(first + 1) !in t.log
               && n in t.table.rows && t.table.rows[n].controller == None
  {
    var open := Open(Some(cluster), name, c);
    var n := IdFor(s.table, Some(cluster), name);
    var once := Apply(s, open);
    var both := Apply(once, open);
    StepKeepsInv(s, open);
    assert Conflicts(once.table.rows, Some(cluster), name, n);
    RegisterKeepsIndexed(once.table, Some(cluster), name, c, s.now);
    var e := Opened(n, c, s.now);
    assert both.log == s.log + [e] + [e];
    LatestAfter(s.log + [e], e, n);
    LatestAfter(both.log, Closed(|s.log|), n);
  }

  // ----- The order of registrations -----

  /** Registrations carry the times at which they were made, none of them ahead of the clock. */
  ghost predicate InTimeOrder(s: System) {
    && (forall i :: 0 <= i < |s.log| && s.log[i].Opened? ==> s.log[i].start <= s.now)
    && forall i, j :: 0 <= i < j < |s.log| && s.log[i].Opened? && s.log[j].Opened? ==>
         s.log[i].start <= s.log[j].start
  }

  /** In every run, a later registration never has an earlier start time. */
  lemma {:induction false} RunKeepsTimeOrder(s: System, steps: seq<Step>)
    requires InTimeOrder(s) && Valid(s, steps)
    ensures InTimeOrder(Final(s, steps)) && s.now <= Final(s, steps).now
    decreases |steps|
  {
    if steps != [] {
      assert InTimeOrder(Apply(s, steps[0]));
      RunKeepsTimeOrder(Apply(s, steps[0]), steps[1..]);
    }
  }
}
