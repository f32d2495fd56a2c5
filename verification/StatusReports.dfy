/**
 What a backend's row and history become under any sequence of status reports, repeated,
 reordered or replayed (plane/src/database/backend.rs, update_state).
 */
module StatusReports {
  import opened Basics
  import opened BackendStates
  import opened Tables

  datatype Report = Report(state: State, at: Time)

  /** One backend's row together with its history rows. */
  datatype Record = Record(row: BackendRow, history: seq<HistoryRow>)

  function Receive(rec: Record, r: Report): Record {
    if Accepts(rec.row, r.state)
    then Record(WithState(rec.row, r.state, r.at), rec.history + [HistoryRow(r.state, r.at)])
    else rec
  }

  function Fold(rec: Record, rs: seq<Report>): Record
    decreases |rs|
  {
    if rs == [] then rec else Fold(Receive(rec, rs[0]), rs[1..])
  }

  ghost predicate Sound(rec: Record) {
    Columns(rec.row) && RecordOf(rec.row, rec.history)
  }

  /** The transaction on the whole database does to one backend what `Receive` says. */
  lemma UpdateStateReceives(db: Db, id: BackendId, s: State)
    requires id in db.backends && id in db.history
    ensures var d := UpdateStateStep(db, id, s);
            id in d.backends && id in d.history &&
            Record(d.backends[id], d.history[id])
              == Receive(Record(db.backends[id], db.history[id]), Report(s, db.now))
  {
  }

  /** `n` is the greatest status number among the row's own, if it has one, and the reports'. */
  ghost predicate Greatest(n: int, own: Option<int>, rs: seq<Report>) {
    && (own.Some? ==> own.value <= n)
    && (forall i :: 0 <= i < |rs| ==> rs[i].state.StatusInt() <= n)
    && (own == Some(n) || exists i :: 0 <= i < |rs| && rs[i].state.StatusInt() == n)
  }

  /** Any reports leave the row at the greatest number seen; rows without a number take part. */
  lemma {:induction false} FoldReachesGreatest(rec: Record, rs: seq<Report>)
    requires rec.row.statusNumber.Some? || rs != []
    ensures Fold(rec, rs).row.statusNumber.Some?
    ensures Greatest(Fold(rec, rs).row.statusNumber.value, rec.row.statusNumber, rs)
    decreases |rs|
  {
    if rs != [] {
      var next := Receive(rec, rs[0]);
      FoldReachesGreatest(next, rs[1..]);
      var n := Fold(rec, rs).row.statusNumber.value;
      assert forall i :: 0 < i < |rs| ==> rs[i] == rs[1..][i - 1];
      if next.row.statusNumber == Some(n) {
        assert rec.row.statusNumber == Some(n) || rs[0].state.StatusInt() == n;
      } else {
        var i :| 0 <= i < |rs[1..]| && rs[1..][i].state.StatusInt() == n;
        assert rs[i + 1].state.StatusInt() == n;
      }
    }
  }

  /** The final status depends on which reports arrived, not on their order or repetition. */
  lemma OrderAndRepetitionDoNotMatter(rec: Record, rs: seq<Report>, rs': seq<Report>)
    requires rec.row.statusNumber.Some? || rs != []
    requires forall r :: r in rs <==> r in rs'
    ensures Fold(rec, rs).row.statusNumber == Fold(rec, rs').row.statusNumber
  {
    assert rs != [] ==> rs[0] in rs';
    FoldReachesGreatest(rec, rs);
    FoldReachesGreatest(rec, rs');
    var n, n' := Fold(rec, rs).row.statusNumber.value, Fold(rec, rs').row.statusNumber.value;
    SomeReportReaches(n, rec.row.statusNumber, rs, n', rs');
    SomeReportReaches(n', rec.row.statusNumber, rs', n, rs);
  }

  lemma SomeReportReaches(n: int, own: Option<int>, rs: seq<Report>, n': int, rs': seq<Report>)
    requires Greatest(n, own, rs) && Greatest(n', own, rs')
    requires forall r :: r in rs ==> r in rs'
    ensures n <= n'
  {
    if own != Some(n) {
      var i :| 0 <= i < |rs| && rs[i].state.StatusInt() == n;
      assert rs[i] in rs';
    }
  }

  /** Columns and history stay sound, and the history only ever grows at its end. */
  lemma {:induction false} FoldKeepsSound(rec: Record, rs: seq<Report>)
    requires Sound(rec)
    ensures Sound(Fold(rec, rs))
    ensures rec.history <= Fold(rec, rs).history
    decreases |rs|
  {
    if rs != [] {
      if Accepts(rec.row, rs[0].state) {
        ExtendedRecord(rec.row, rec.history, rs[0].state, rs[0].at);
      }
      FoldKeepsSound(Receive(rec, rs[0]), rs[1..]);
    }
  }

  /** Reports at or below the row's number change nothing. */
  lemma {:induction false} StaleReportsAreIgnored(rec: Record, rs: seq<Report>)
    requires rec.row.statusNumber.Some?
    requires forall r :: r in rs ==> r.state.StatusInt() <= rec.row.statusNumber.value
    ensures Fold(rec, rs) == rec
    decreases |rs|
  {
    if rs != [] {
      assert rs[0] in rs;
      StaleReportsAreIgnored(rec, rs[1..]);
    }
  }

  /** Replaying all or part of what was already received, in any order, is a no-op. */
  lemma ReplayIsIdempotent(rec: Record, rs: seq<Report>, replay: seq<Report>)
    requires forall r :: r in replay ==> r in rs
    ensures Fold(Fold(rec, rs), replay) == Fold(rec, rs)
  {
    assert replay != [] ==> replay[0] in rs;
    if rs != [] {
      FoldReachesGreatest(rec, rs);
      StaleReportsAreIgnored(Fold(rec, rs), replay);
    }
  }

  /** Terminated is absorbing. */
  lemma TerminatedAbsorbs(rec: Record, rs: seq<Report>)
    requires Columns(rec.row) && rec.row.state.InTerminated?
    ensures Fold(rec, rs) == rec
  {
    StaleReportsAreIgnored(rec, rs);
  }

  /** Among reports with the greatest number the first one to arrive is the state that stays. */
  lemma {:induction false} FirstGreatestWins(rec: Record, rs: seq<Report>, k: nat)
    requires k < |rs|
    requires rec.row.statusNumber.Some? ==> rec.row.statusNumber.value < rs[k].state.StatusInt()
    requires forall i :: 0 <= i < k ==> rs[i].state.StatusInt() < rs[k].state.StatusInt()
    requires forall i :: k < i < |rs| ==> rs[i].state.StatusInt() <= rs[k].state.StatusInt()
    ensures Fold(rec, rs).row.state == rs[k].state
    ensures Fold(rec, rs).row.statusTime == rs[k].at
    decreases |rs|
  {
    var next := Receive(rec, rs[0]);
    if k == 0 {
      assert forall r :: r in rs[1..] ==> exists i :: 0 < i < |rs| && rs[i] == r;
      StaleReportsAreIgnored(next, rs[1..]);
    } else {
      FirstGreatestWins(next, rs[1..], k - 1);
    }
  }

  /** A row that says Ready has the address of the Ready report in it. */
  lemma ReadyRowsHaveAnAddress(rec: Record, rs: seq<Report>)
    requires Sound(rec) && Fold(rec, rs).row.status == Ready
    ensures Fold(rec, rs).row.state.InReady?
    ensures Fold(rec, rs).row.address == Some(Fold(rec, rs).row.state.address)
  {
    FoldKeepsSound(rec, rs);
  }
}
