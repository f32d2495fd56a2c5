/**
 The status stream of a backend: subscribe, read the history, then follow live updates
 (plane/src/database/backend.rs, status_stream), resumable by Last-Event-ID
 (plane/src/controller/backend_state.rs).
 */
module StatusStream {
  import opened Basics
  import opened BackendStates
  import opened Tables

  function Entry(row: HistoryRow): StreamEntry {
    FromState(row.state, row.at)
  }

  function Entries(rows: seq<HistoryRow>): (es: seq<StreamEntry>)
    ensures |es| == |rows|
    ensures forall i :: 0 <= i < |rows| ==> es[i] == Entry(rows[i]) && es[i].status == rows[i].state.Status()
  {
    seq(|rows|, i requires 0 <= i < |rows| => Entry(rows[i]))
  }

  /** Drops what is not beyond `last`, which moves along with what is kept. */
  function Beyond(last: Option<Status>, live: seq<HistoryRow>): seq<HistoryRow>
    decreases |live|
  {
    if live == [] then []
    else if last.Some? && live[0].state.Status().AtMost(last.value) then Beyond(last, live[1..])
    else [live[0]] + Beyond(Some(live[0].state.Status()), live[1..])
  }

  function LastStatus(rows: seq<HistoryRow>): Option<Status> {
    if rows == [] then None else Some(rows[|rows| - 1].state.Status())
  }

  /** `rows` was read after the subscription that yields `live` had begun. */
  method Stream(rows: seq<HistoryRow>, live: seq<HistoryRow>) returns (out: seq<StreamEntry>)
    ensures out == Entries(rows) + Entries(Beyond(LastStatus(rows), live))
  {
    out := [];
    var last: Option<Status> := None;
    for i := 0 to |rows|
      invariant out == Entries(rows[..i]) && last == LastStatus(rows[..i])
    {
      out := out + [Entry(rows[i])];
      last := Some(rows[i].state.Status());
      assert rows[..i + 1] == rows[..i] + [rows[i]];
    }
    assert rows[..|rows|] == rows;
    ghost var kept: seq<HistoryRow> := [];
    var i := 0;
    while i < |live|
      invariant 0 <= i <= |live|
      invariant out == Entries(rows) + Entries(kept)
      invariant Beyond(LastStatus(rows), live) == kept + Beyond(last, live[i..])
    {
      var item := live[i];
      i := i + 1;
      if last.Some? && item.state.Status().AtMost(last.value) {
        continue;
      }
      last := Some(item.state.Status());
      out := out + [Entry(item)];
      kept := kept + [item];
    }
    assert kept == Beyond(LastStatus(rows), live);
  }

  /** The handler's filter: a reconnecting client is sent only what lies beyond its last event. */
  method ResumeAfter(entries: seq<StreamEntry>, last: Option<Status>) returns (out: seq<StreamEntry>)
    ensures out == After(entries, last)
  {
    out := [];
    for i := 0 to |entries|
      invariant out == After(entries[..i], last)
    {
      assert entries[..i + 1][..i] == entries[..i];
      if last.Some? && entries[i].status.AtMost(last.value) {
        continue;
      }
      out := out + [entries[i]];
    }
    assert entries[..|entries|] == entries;
  }

  function After(entries: seq<StreamEntry>, last: Option<Status>): seq<StreamEntry>
    decreases |entries|
  {
    if entries == [] then []
    else
      var n := |entries| - 1;
      After(entries[..n], last)
        + (if last.Some? && entries[n].status.AtMost(last.value) then [] else [entries[n]])
  }

  // ----- Reading a history while it grows -----

  lemma {:induction false} BeyondDropsKnown(h: seq<HistoryRow>, n: nat, m: nat, k: nat)
    requires Increasing(h) && n <= m <= k <= |h| && 0 < m
    ensures Beyond(LastStatus(h[..m]), h[n..k]) == h[m..k]
    decreases k - n
  {
    var last := h[m - 1].state.Status();
    assert LastStatus(h[..m]) == Some(last);
    if n < m {
      assert h[n..k][1..] == h[n + 1..k];
      assert h[n].state.StatusInt() <= h[m - 1].state.StatusInt();
      StatusOrdersAgree(h[n].state.Status(), last);
      BeyondDropsKnown(h, n + 1, m, k);
    } else {
      BeyondKeepsIncreasing(h, m, k, Some(last));
    }
  }

  lemma {:induction false} BeyondKeepsIncreasing(h: seq<HistoryRow>, m: nat, k: nat, last: Option<Status>)
    requires Increasing(h) && m <= k <= |h|
    requires last.Some? && m < k ==> last.value.AsInt() < h[m].state.StatusInt()
    ensures Beyond(last, h[m..k]) == h[m..k]
    decreases k - m
  {
    if m < k {
      var s := h[m].state.Status();
      assert h[m..k][1..] == h[m + 1..k];
      if last.Some? {
        StatusOrdersAgree(s, last.value);
      }
      BeyondKeepsIncreasing(h, m + 1, k, Some(s));
      assert [h[m]] + h[m + 1..k] == h[m..k];
    }
  }

  /**
   A stream that subscribed no later than it read, and has received every update up to `k`, is
   the history up to `k`: each status once, none missed.
   */
  lemma StreamIsHistory(h: seq<HistoryRow>, n: nat, m: nat, k: nat)
    requires Increasing(h) && n <= m <= k <= |h|
    ensures Entries(h[..m]) + Entries(Beyond(LastStatus(h[..m]), h[n..k])) == Entries(h[..k])
  {
    if m == 0 {
      BeyondKeepsIncreasing(h, 0, k, None);
    } else {
      BeyondDropsKnown(h, n, m, k);
    }
    EntriesSplit(h, m, k);
  }

  lemma EntriesSplit(h: seq<HistoryRow>, j: nat, k: nat)
    requires j <= k <= |h|
    ensures Entries(h[..j]) + Entries(h[j..k]) == Entries(h[..k])
  {
    assert h[..k] == h[..j] + h[j..k];
  }

  /** The same, for the history at the subscription, at the read and at the end. */
  lemma StreamOfGrowing(subscribed: seq<HistoryRow>, read: seq<HistoryRow>, end: seq<HistoryRow>)
    requires Increasing(end) && subscribed <= read <= end
    ensures Entries(read) + Entries(Beyond(LastStatus(read), end[|subscribed|..])) == Entries(end)
  {
    var n, m, k := |subscribed|, |read|, |end|;
    StreamIsHistory(end, n, m, k);
    assert end[..m] == read && end[..k] == end && end[n..k] == end[n..];
  }

  /** What the controller stores of a backend's past. */
  function HistoryOf(db: Db, id: BackendId): seq<HistoryRow> {
    if id in db.history then db.history[id] else []
  }

  /** The clean-up of long-terminated backends does not take this one. */
  predicate Spares(xs: seq<Txn>, id: BackendId) {
    forall i :: 0 <= i < |xs| && xs[i].Cleanup? ==> id !in xs[i].chosen
  }

  lemma CreateExtendsHistory(db: Db, n: NewBackend, id: BackendId)
    requires Recorded(db.backends, db.history) && CanCreate(db, n)
    ensures HistoryOf(db, id) <= HistoryOf(CreateStep(db, n), id)
  {
  }

  lemma UpdateExtendsHistory(db: Db, b: BackendId, s: State, id: BackendId)
    ensures HistoryOf(db, id) <= HistoryOf(UpdateStateStep(db, b, s), id)
  {
  }

  lemma OthersKeepHistory(db: Db, x: Txn, id: BackendId)
    requires !x.Create? && !x.UpdateState? && (x.Cleanup? ==> id !in x.chosen)
    ensures HistoryOf(Apply(db, x), id) == HistoryOf(db, id)
  {
  }

  lemma StepExtendsHistory(db: Db, x: Txn, id: BackendId)
    requires Recorded(db.backends, db.history) && (x.Cleanup? ==> id !in x.chosen)
    ensures HistoryOf(db, id) <= HistoryOf(Apply(db, x), id)
  {
    if x.Create? {
      if CanCreate(db, x.spec) {
        CreateExtendsHistory(db, x.spec, id);
      }
    } else if x.UpdateState? {
      UpdateExtendsHistory(db, x.backend, x.state, id);
    } else {
      OthersKeepHistory(db, x, id);
    }
  }

  lemma {:induction false} RunExtendsHistory(db: Db, xs: seq<Txn>, id: BackendId)
    requires Consistent(db) && Valid(db, xs) && Spares(xs, id)
    ensures HistoryOf(db, id) <= HistoryOf(Final(db, xs), id)
    decreases |xs|
  {
    if xs != [] {
      ApplyKeepsConsistent(db, xs[0]);
      StepExtendsHistory(db, xs[0], id);
      RunExtendsHistory(Apply(db, xs[0]), xs[1..], id);
    }
  }

  lemma HistoryIncreases(db: Db, id: BackendId)
    requires Consistent(db)
    ensures Increasing(HistoryOf(db, id))
  {
    if id in db.history {
      assert RecordOf(db.backends[id], db.history[id]);
    }
  }

  /**
   For every interleaving: whatever is committed before the subscription, between it and the
   history read, and afterwards, the stream is exactly the backend's history.
   */
  lemma StreamIsExact(db: Db, between: seq<Txn>, afterwards: seq<Txn>, id: BackendId)
    requires Consistent(db) && Valid(db, between) && Valid(Final(db, between), afterwards)
    requires Spares(between, id) && Spares(afterwards, id)
    ensures var read := Final(db, between);
            var end := Final(read, afterwards);
            var rows := HistoryOf(read, id);
            && HistoryOf(db, id) <= rows <= HistoryOf(end, id)
            && var live := HistoryOf(end, id)[|HistoryOf(db, id)|..];
               Entries(rows) + Entries(Beyond(LastStatus(rows), live)) == Entries(HistoryOf(end, id))
  {
    var read := Final(db, between);
    var end := Final(read, afterwards);
    AlwaysConsistent(db, between);
    AlwaysConsistent(read, afterwards);
    RunExtendsHistory(db, between, id);
    RunExtendsHistory(read, afterwards, id);
    HistoryIncreases(end, id);
    StreamOfGrowing(HistoryOf(db, id), HistoryOf(read, id), HistoryOf(end, id));
  }

  lemma EntriesGrow(h: seq<HistoryRow>, j: nat, k: nat)
    requires j < k <= |h|
    ensures Entries(h[j..k]) == Entries(h[j..k - 1]) + [Entries(h[..k])[k - 1]]
  {
  }

  lemma AfterStep(h: seq<HistoryRow>, k: nat, last: Status)
    requires 0 < k <= |h|
    ensures After(Entries(h[..k]), Some(last))
            == After(Entries(h[..k - 1]), Some(last))
               + (if h[k - 1].state.StatusInt() <= last.AsInt() then [] else [Entries(h[..k])[k - 1]])
  {
    assert Entries(h[..k])[..k - 1] == Entries(h[..k - 1]);
    StatusOrdersAgree(h[k - 1].state.Status(), last);
  }

  lemma {:induction false} AfterSkipsPrefix(h: seq<HistoryRow>, j: nat, k: nat)
    requires Increasing(h) && 0 < j <= k <= |h|
    ensures After(Entries(h[..k]), Some(h[j - 1].state.Status())) == Entries(h[j..k])
    decreases k
  {
    var last := h[j - 1].state.Status();
    if j < k {
      AfterSkipsPrefix(h, j, k - 1);
      AfterStep(h, k, last);
      assert h[j - 1].state.StatusInt() < h[k - 1].state.StatusInt();
      EntriesGrow(h, j, k);
    } else {
      AfterSkipsAll(h, j, last);
      assert h[j..k] == [];
    }
  }

  lemma {:induction false} AfterSkipsAll(h: seq<HistoryRow>, k: nat, last: Status)
    requires k <= |h| && forall i :: 0 <= i < k ==> h[i].state.StatusInt() <= last.AsInt()
    ensures After(Entries(h[..k]), Some(last)) == []
    decreases k
  {
    if k > 0 {
      AfterStep(h, k, last);
      AfterSkipsAll(h, k - 1, last);
    }
  }

  lemma {:induction false} AfterNothingKeepsAll(es: seq<StreamEntry>)
    ensures After(es, None) == es
    decreases |es|
  {
    if es != [] {
      AfterNothingKeepsAll(es[..|es| - 1]);
    }
  }

  lemma ResumedStreamIsTheRest(h: seq<HistoryRow>, j: nat)
    requires Increasing(h) && j <= |h|
    ensures After(Entries(h), LastStatus(h[..j])) == Entries(h[j..])
  {
    assert h[..|h|] == h && h[j..] == h[j..|h|];
    if j == 0 {
      assert h[j..] == h;
      AfterNothingKeepsAll(Entries(h));
    } else {
      assert LastStatus(h[..j]) == Some(h[j - 1].state.Status());
      AfterSkipsPrefix(h, j, |h|);
    }
  }

  /**
   After a reconnect the entries already received, followed by what the new stream sends, are
   the whole history, wherever the old stream broke off.
   */
  lemma ResumedStreamIsComplete(h: seq<HistoryRow>, j: nat)
    requires Increasing(h) && j <= |h|
    ensures Entries(h[..j]) + After(Entries(h), LastStatus(h[..j])) == Entries(h)
  {
    ResumedStreamIsTheRest(h, j);
    EntriesSplit(h, j, |h|);
    assert h[..|h|] == h && h[j..] == h[j..|h|];
  }

  // ----- From the event log to one backend's updates -----

  datatype Notice = Notice(backend: BackendId, row: HistoryRow) | OtherNotice

  /** What a subscription keyed by a backend is passed on from the event log. */
  function Keyed(log: seq<Notice>, id: BackendId): seq<HistoryRow>
    decreases |log|
  {
    if log == [] then []
    else (if log[0].Notice? && log[0].backend == id then [log[0].row] else []) + Keyed(log[1..], id)
  }

  lemma Regroup(a: seq<HistoryRow>, b: seq<HistoryRow>, c: seq<HistoryRow>)
    ensures a + (b + c) == a + b + c
  {
  }

  lemma {:induction false} KeyedConcat(a: seq<Notice>, b: seq<Notice>, id: BackendId)
    ensures Keyed(a + b, id) == Keyed(a, id) + Keyed(b, id)
    decreases |a|
  {
    if a == [] {
      assert a + b == b;
    } else {
      var rest := a[1..];
      KeyedConcat(rest, b, id);
      assert (a + b)[1..] == rest + b && (a + b)[0] == a[0];
      Regroup(if a[0].Notice? && a[0].backend == id then [a[0].row] else [], Keyed(rest, id), Keyed(b, id));
    }
  }

  /** A gapless slice of the log carries a gapless slice of every backend's history. */
  lemma GaplessForEveryBackend(log: seq<Notice>, a: nat, b: nat, id: BackendId)
    requires a <= b <= |log|
    ensures |Keyed(log[..a], id)| <= |Keyed(log[..b], id)|
    ensures Keyed(log[a..b], id) == Keyed(log[..b], id)[|Keyed(log[..a], id)|..]
    ensures Keyed(log[..b], id) <= Keyed(log, id)
  {
    assert log[..b] == log[..a] + log[a..b] && log == log[..b] + log[b..];
    KeyedConcat(log[..a], log[a..b], id);
    KeyedConcat(log[..b], log[b..], id);
  }
}
