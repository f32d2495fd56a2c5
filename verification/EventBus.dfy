/**
 How a controller follows the event table (plane/src/database/subscribe.rs): it listens for
 notifications, catches up page by page after every reconnect, and drops what it already has.
 */
module EventBus {
  import opened Basics

  /** What the subscription task has sent on, and the id it remembers. */
  datatype Seen = Seen(last: Option<nat>, delivered: seq<nat>)

  function Deliver(v: Seen, id: nat): Seen {
    Seen(Some(id), v.delivered + [id])
  }

  /** A live notification: dropped if its id is not beyond the last one. */
  function Offer(v: Seen, id: nat): Seen {
    if v.last.Some? && id <= v.last.value then v else Deliver(v, id)
  }

  function DeliverAll(v: Seen, ids: seq<nat>): Seen {
    if ids == [] then v else Seen(Some(ids[|ids| - 1]), v.delivered + ids)
  }

  /** The least id in the table above `since`. */
  function LeastAbove(table: seq<nat>, since: nat): (r: Option<nat>)
    ensures r.None? <==> forall id :: id in table ==> id <= since
    ensures r.Some? ==> r.value in table && since < r.value
                        && forall id :: id in table && since < id ==> r.value <= id
  {
    if table == [] then None
    else
      assert forall id :: id in table <==> id == table[0] || id in table[1..];
      assert table[0] in table;
      var r := LeastAbove(table[1..], since);
      if since < table[0] && (r.None? || table[0] < r.value) then Some(table[0]) else r
  }

  /** `select ... where id > since order by id asc limit n`. */
  function Page(table: seq<nat>, since: nat, n: nat): seq<nat>
    decreases n
  {
    if n == 0 then []
    else match LeastAbove(table, since)
      case None => []
      case Some(id) => [id] + Page(table, id, n - 1)
  }

  predicate Ascending(ids: seq<nat>) {
    forall i, j :: 0 <= i < j < |ids| ==> ids[i] < ids[j]
  }

  lemma AscendingCons(x: nat, rest: seq<nat>)
    ensures Ascending([x] + rest) <==> Ascending(rest) && (rest != [] ==> x < rest[0])
  {
    var all := [x] + rest;
    if Ascending(all) {
      forall i, j | 0 <= i < j < |rest| ensures rest[i] < rest[j] {
        assert all[i + 1] < all[j + 1];
      }
      assert rest != [] ==> all[0] < all[1];
    }
  }

  lemma {:induction false} PageAscends(table: seq<nat>, since: nat, n: nat)
    ensures Ascending(Page(table, since, n))
    ensures forall id :: id in Page(table, since, n) ==> since < id && id in table
    decreases n
  {
    if n > 0 {
      match LeastAbove(table, since)
      case None =>
      case Some(id) =>
        PageAscends(table, id, n - 1);
        var rest := Page(table, id, n - 1);
        assert rest != [] ==> rest[0] in rest;
        AscendingCons(id, rest);
    }
  }

  // ----- Runs against a growing table -----

  /**
   A connection has been notified of the table's rows from `from` up to `to`; it is `alive` while
   new rows still reach it, and `live` once the manager has caught up.
   */
  datatype Connection = Connection(from: nat, to: nat, alive: bool, live: bool)

  /** `table` lists the ids in the order in which their rows became visible. */
  datatype Bus = Bus(table: seq<nat>, seen: Seen, conn: Option<Connection>, pageSize: nat)

  datatype Step =
    | Commit(id: nat)
    | Connect
    | Fetch
    | FetchFails
    | Receive
    | Lose(kept: nat)
    | GiveUp

  const IDLE: Bus := Bus([], Seen(None, []), None, 100)

  predicate Enabled(b: Bus, step: Step) {
    match step
    case Commit(id) => id !in b.table
    case Connect => b.conn.None?
    case Fetch => b.conn.Some? && !b.conn.value.live && b.seen.last.Some?
    case FetchFails => b.conn.Some? && !b.conn.value.live
    case Receive =>
      b.conn.Some? && b.conn.value.live && b.conn.value.from < b.conn.value.to <= |b.table|
    case Lose(kept) =>
      b.conn.Some? && b.conn.value.alive && b.conn.value.from <= kept <= b.conn.value.to
    case GiveUp =>
      b.conn.Some? && b.conn.value.live && !b.conn.value.alive && b.conn.value.from == b.conn.value.to
  }

  /** Listening starts before catching up; without a last message there is nothing to catch up on. */
  function Apply(b: Bus, step: Step): Bus
    requires Enabled(b, step)
  {
    match step
    case Commit(id) =>
      b.(table := b.table + [id],
         conn := if b.conn.Some? && b.conn.value.alive
                 then Some(b.conn.value.(to := b.conn.value.to + 1)) else b.conn)
    case Connect => b.(conn := Some(Connection(|b.table|, |b.table|, true, b.seen.last.None?)))
    case Fetch =>
      var page := Page(b.table, b.seen.last.value, b.pageSize);
      if page == [] then b.(conn := Some(b.conn.value.(live := true)))
      else b.(seen := DeliverAll(b.seen, page))
    case FetchFails => b.(conn := None)
    case Receive =>
      b.(seen := Offer(b.seen, b.table[b.conn.value.from]),
         conn := Some(b.conn.value.(from := b.conn.value.from + 1)))
    case Lose(kept) => b.(conn := Some(b.conn.value.(to := kept, alive := false)))
    case GiveUp => b.(conn := None)
  }

  predicate Valid(b: Bus, steps: seq<Step>)
    decreases |steps|
  {
    steps == [] || (Enabled(b, steps[0]) && Valid(Apply(b, steps[0]), steps[1..]))
  }

  function Final(b: Bus, steps: seq<Step>): Bus
    requires Valid(b, steps)
    decreases |steps|
  {
    if steps == [] then b else Final(Apply(b, steps[0]), steps[1..])
  }

  lemma {:induction false} RunConcat(b: Bus, xs: seq<Step>, ys: seq<Step>)
    requires Valid(b, xs) && Valid(Final(b, xs), ys)
    ensures Valid(b, xs + ys) && Final(b, xs + ys) == Final(Final(b, xs), ys)
    decreases |xs|
  {
    if xs == [] {
      assert xs + ys == ys;
    } else {
      RunConcat(Apply(b, xs[0]), xs[1..], ys);
      assert (xs + ys)[1..] == xs[1..] + ys;
    }
  }

  lemma OneStep(b: Bus, step: Step)
    requires Enabled(b, step)
    ensures Valid(b, [step]) && Final(b, [step]) == Apply(b, step)
  {
    assert [step][1..] == [];
    assert Valid(Apply(b, step), []) && Final(Apply(b, step), []) == Apply(b, step);
  }

  // ----- The manager's own loops -----

  /**
   What the manager and its surroundings meet, in order: a row becomes visible, a connection comes
   about, a page is read or fails to be, a notification is awaited, the link is lost.
   */
  datatype Happening =
    | RowVisible(id: nat)
    | LinkUp
    | PageRead(ok: bool)
    | Notified
    | LinkLost(kept: nat)

  predicate CatchingUp(b: Bus) {
    b.conn.Some? && !b.conn.value.live && b.seen.last.Some?
  }

  predicate Following(b: Bus) {
    b.conn.Some? && b.conn.value.live && b.conn.value.from <= b.conn.value.to <= |b.table|
  }

  /** The step a happening stands for; one that finds nobody waiting for it stands for none. */
  function StepFor(b: Bus, h: Happening): Option<Step> {
    match h
    case RowVisible(id) => if id in b.table then None else Some(Commit(id))
    case LinkUp => if b.conn.None? then Some(Step.Connect) else None
    case PageRead(ok) => if !CatchingUp(b) then None else Some(if ok then Fetch else FetchFails)
    case Notified =>
      if !Following(b) then None
      else if b.conn.value.from < b.conn.value.to then Some(Receive)
      else if b.conn.value.alive then None else Some(GiveUp)
    case LinkLost(kept) =>
      if b.conn.Some? && b.conn.value.alive && b.conn.value.from <= kept <= b.conn.value.to
      then Some(Lose(kept)) else None
  }

  function Met(b: Bus, h: Happening): Bus {
    var step := StepFor(b, h);
    if step.Some? then Apply(b, step.value) else b
  }

  function After(b: Bus, hs: seq<Happening>): Bus
    decreases |hs|
  {
    if hs == [] then b else Met(After(b, hs[..|hs| - 1]), hs[|hs| - 1])
  }

  lemma AfterNext(b: Bus, hs: seq<Happening>, i: nat, j: nat)
    requires i <= j < |hs|
    ensures After(b, hs[i..j + 1]) == Met(After(b, hs[i..j]), hs[j])
  {
    assert hs[i..j + 1][..j - i] == hs[i..j];
  }

  lemma {:induction false} AfterConcat(b: Bus, xs: seq<Happening>, ys: seq<Happening>)
    ensures After(b, xs + ys) == After(After(b, xs), ys)
    decreases |ys|
  {
    if ys == [] {
      assert xs + ys == xs;
    } else {
      var n := |ys| - 1;
      AfterConcat(b, xs, ys[..n]);
      assert (xs + ys)[..|xs| + n] == xs + ys[..n];
      assert (xs + ys)[|xs| + n] == ys[n];
      assert After(b, xs + ys) == Met(After(b, xs + ys[..n]), ys[n]);
    }
  }

  /** Whatever happens is a run of the bus. */
  lemma {:induction false} HappeningsAreARun(b: Bus, hs: seq<Happening>) returns (steps: seq<Step>)
    ensures Valid(b, steps) && Final(b, steps) == After(b, hs)
    decreases |hs|
  {
    if hs == [] {
      steps := [];
    } else {
      var n := |hs| - 1;
      steps := HappeningsAreARun(b, hs[..n]);
      var step := StepFor(After(b, hs[..n]), hs[n]);
      if step.Some? {
        OneStep(After(b, hs[..n]), step.value);
        RunConcat(b, steps, [step.value]);
        steps := steps + [step.value];
      }
    }
  }

  lemma AfterOne(b: Bus, h: Happening)
    ensures After(b, [h]) == Met(b, h)
  {
    assert [h][..0] == [];
  }

  lemma AfterFirst(b: Bus, h: Happening, hs: seq<Happening>)
    ensures After(b, [h] + hs) == After(Met(b, h), hs)
  {
    AfterConcat(b, [h], hs);
    AfterOne(b, h);
  }

  /** A row that comes while the manager follows, above all it has seen, goes out next. */
  lemma RowGoesOut(b: Bus, id: nat)
    requires b.conn == Some(Connection(|b.table|, |b.table|, true, true))
    requires id !in b.table && (b.seen.last.Some? ==> b.seen.last.value < id)
    ensures var c := After(b, [RowVisible(id), Notified]);
            && c.table == b.table + [id]
            && c.seen == Seen(Some(id), b.seen.delivered + [id])
            && c.conn == Some(Connection(|c.table|, |c.table|, true, true))
  {
    AfterFirst(b, RowVisible(id), [Notified]);
    AfterOne(Met(b, RowVisible(id)), Notified);
  }

  /** While catching up, a page that is read takes the manager further, or lets it follow. */
  lemma PageTakesFurther(b: Bus)
    requires b.conn.Some? && !b.conn.value.live && b.seen.last.Some? && b.pageSize > 0
    ensures var c := After(b, [PageRead(true)]);
            if forall id :: id in b.table ==> id <= b.seen.last.value
            then c == b.(conn := Some(b.conn.value.(live := true)))
            else
              && c.conn == b.conn && c.seen.last.Some? && b.seen.last.value < c.seen.last.value
              && c.seen.last.value in b.table
    ensures After(b, [PageRead(false)]) == b.(conn := None)
  {
    AfterOne(b, PageRead(true));
    AfterOne(b, PageRead(false));
    var page := Page(b.table, b.seen.last.value, b.pageSize);
    PageAscends(b.table, b.seen.last.value, b.pageSize);
    if page != [] {
      assert page[|page| - 1] in page;
    }
  }

  /** What a lost link still has is read off. */
  lemma {:induction false} LeftoversAreRead(b: Bus, hs: seq<Happening>)
    requires b.conn.Some? && b.conn.value.live && !b.conn.value.alive
    requires b.conn.value.from + |hs| <= b.conn.value.to <= |b.table|
    requires forall i :: 0 <= i < |hs| ==> hs[i] == Notified
    ensures After(b, hs).table == b.table && After(b, hs).pageSize == b.pageSize
    ensures After(b, hs).conn == Some(b.conn.value.(from := b.conn.value.from + |hs|))
    decreases |hs|
  {
    if hs != [] {
      LeftoversAreRead(b, hs[..|hs| - 1]);
    }
  }

  /** Whenever a link is lost, the manager gives it up once it has read what is left, and takes another. */
  lemma LostLinkIsReplaced(b: Bus, kept: nat, hs: seq<Happening>)
    requires b.conn.Some? && b.conn.value.live && b.conn.value.alive
    requires b.conn.value.from <= kept <= b.conn.value.to <= |b.table|
    requires |hs| == kept - b.conn.value.from && forall i :: 0 <= i < |hs| ==> hs[i] == Notified
    ensures var read := After(b, [LinkLost(kept)] + hs);
            && After(read, [Notified]) == read.(conn := None)
            && After(read, [Notified, LinkUp])
               == read.(conn := Some(Connection(|b.table|, |b.table|, true, read.seen.last.None?)))
  {
    AfterFirst(b, LinkLost(kept), hs);
    LeftoversAreRead(Met(b, LinkLost(kept)), hs);
    var read := After(b, [LinkLost(kept)] + hs);
    AfterOne(read, Notified);
    AfterFirst(read, Notified, [LinkUp]);
    AfterOne(Met(read, Notified), LinkUp);
  }

  /** A connection's unread notifications are of rows in the table, up to its end while it lasts. */
  predicate Linked(b: Bus) {
    b.conn.Some? ==>
      && b.conn.value.from <= b.conn.value.to <= |b.table|
      && (b.conn.value.alive ==> b.conn.value.to == |b.table|)
      && (b.seen.last.None? ==> b.conn.value.live)
  }

  /**
   The subscription manager next to the event table and the connection it reads from.
   */
  class SubscriptionManager {
    const pageSize: nat
    var lastMessage: Option<nat>

    /** Ids sent to the listeners so far. */
    var delivered: seq<nat>

    /** The event table, and the notifications that wait on the connection. */
    var table: seq<nat>
    var listener: Option<Connection>

    function View(): Bus
      reads this
    {
      Bus(table, Seen(lastMessage, delivered), listener, pageSize)
    }

    constructor ()
      ensures View() == IDLE && Linked(View())
    {
      pageSize := 100;
      lastMessage, delivered, table, listener := None, [], [], None;
    }

    /** Other clients add rows, and links fail, whatever the manager is doing. */
    method Surroundings(h: Happening)
      requires Linked(View()) && (h.RowVisible? || h.LinkLost?)
      modifies this
      ensures Linked(View()) && View() == Met(old(View()), h)
      ensures lastMessage == old(lastMessage) && (listener.Some? <==> old(listener).Some?)
      ensures listener.Some? ==> listener.value.live == old(listener).value.live
    {
      match h {
        case RowVisible(id) =>
          if id !in table {
            table := table + [id];
            if listener.Some? && listener.value.alive {
              listener := Some(listener.value.(to := listener.value.to + 1));
            }
          }
        case LinkLost(kept) =>
          if listener.Some? && listener.value.alive && listener.value.from <= kept <= listener.value.to {
            listener := Some(listener.value.(to := kept, alive := false));
          }
      }
    }

    /** Sends a page on, one message after the other. */
    method SendPage(messages: seq<nat>)
      modifies this
      ensures View() == old(View()).(seen := DeliverAll(old(View()).seen, messages))
    {
      for k := 0 to |messages|
        invariant View() == old(View()).(seen := DeliverAll(old(View()).seen, messages[..k]))
      {
        assert messages[..k + 1] == messages[..k] + [messages[k]];
        delivered := delivered + [messages[k]];
        lastMessage := Some(messages[k]);
      }
      assert messages[..|messages|] == messages;
    }

    /** One read of the catch-up loop: it fails, finds nothing, or is sent on. */
    method ReadPage(ok: bool)
      requires pageSize > 0 && Linked(View()) && CatchingUp(View())
      modifies this
      ensures Linked(View()) && View() == Met(old(View()), PageRead(ok))
      ensures listener.None? <==> !ok
      ensures listener.Some? && listener.value.live ==>
                lastMessage.Some? && forall id :: id in table ==> id <= lastMessage.value
      ensures listener.Some? && !listener.value.live ==> CatchingUp(View())
    {
      if !ok {
        listener := None;
        return;
      }
      var messages := Page(table, lastMessage.value, pageSize);
      if messages == [] {
        assert LeastAbove(table, lastMessage.value).None?;
        listener := Some(listener.value.(live := true));
        return;
      }
      SendPage(messages);
    }

    /**
     Pages through the table from the last message on, from the `i`-th happening. A failed read
     ends the connection; having caught up means that a read found nothing beyond the last message.
     */
    method CatchUp(hs: seq<Happening>, i: nat) returns (j: nat, caughtUp: bool)
      requires pageSize > 0 && i <= |hs| && Linked(View()) && CatchingUp(View())
      modifies this
      ensures i <= j <= |hs| && Linked(View()) && View() == After(old(View()), hs[i..j])
      ensures i < |hs| ==> i < j
      ensures j < |hs| ==> !CatchingUp(View())
      ensures caughtUp <==> listener.Some? && listener.value.live
      ensures caughtUp ==> lastMessage.Some? && forall id :: id in table ==> id <= lastMessage.value
      ensures listener.None? ==> exists k :: i <= k < j && hs[k] == PageRead(false)
    {
      j, caughtUp := i, false;
      while j < |hs|
        invariant i <= j <= |hs| && Linked(View()) && CatchingUp(View()) && !caughtUp
        invariant View() == After(old(View()), hs[i..j])
      {
        AfterNext(old(View()), hs, i, j);
        match hs[j] {
          case PageRead(ok) => ReadPage(ok);
          case RowVisible(_) => Surroundings(hs[j]);
          case LinkLost(_) => Surroundings(hs[j]);
          case _ =>
        }
        j := j + 1;
        if listener.None? {
          assert hs[j - 1] == PageRead(false);
          return;
        }
        if listener.value.live {
          caughtUp := true;
          return;
        }
      }
    }

    /** Reads notifications until the lost connection has none left, and drops what is not new. */
    method Drain(hs: seq<Happening>, i: nat) returns (j: nat)
      requires i <= |hs| && Linked(View()) && Following(View())
      modifies this
      ensures i <= j <= |hs| && Linked(View()) && View() == After(old(View()), hs[i..j])
      ensures i < |hs| ==> i < j
      ensures j < |hs| ==> listener.None?
      ensures listener.Some? ==> Following(View())
    {
      j := i;
      while j < |hs|
        invariant i <= j <= |hs| && Linked(View()) && Following(View())
        invariant View() == After(old(View()), hs[i..j])
      {
        AfterNext(old(View()), hs, i, j);
        match hs[j] {
          case Notified => Await();
          case RowVisible(_) => Surroundings(hs[j]);
          case LinkLost(_) => Surroundings(hs[j]);
          case _ =>
        }
        j := j + 1;
        if listener.None? {
          return;
        }
      }
    }

    /** One turn of the live loop: the next notification, or the end of a lost connection. */
    method Await()
      requires Linked(View()) && Following(View())
      modifies this
      ensures Linked(View()) && View() == Met(old(View()), Notified)
      ensures listener.Some? ==> Following(View())
    {
      if listener.value.from == listener.value.to {
        if !listener.value.alive {
          listener := None;
        }
        return;
      }
      var id := table[listener.value.from];
      listener := Some(listener.value.(from := listener.value.from + 1));
      if lastMessage.Some? && id <= lastMessage.value {
        return;
      }
      lastMessage := Some(id);
      delivered := delivered + [id];
    }

    /** Without a connection: waits for one, and starts to listen before it catches up. */
    method Reconnect(hs: seq<Happening>, i: nat) returns (j: nat)
      requires i <= |hs| && Linked(View()) && listener.None?
      modifies this
      ensures i <= j <= |hs| && Linked(View()) && View() == After(old(View()), hs[i..j])
      ensures i < |hs| ==> i < j
      ensures j < |hs| ==> listener.Some?
    {
      j := i;
      while j < |hs|
        invariant i <= j <= |hs| && Linked(View()) && listener.None?
        invariant View() == After(old(View()), hs[i..j])
      {
        AfterNext(old(View()), hs, i, j);
        match hs[j] {
          case LinkUp => listener := Some(Connection(|table|, |table|, true, lastMessage.None?));
          case RowVisible(_) => Surroundings(hs[j]);
          case LinkLost(_) => Surroundings(hs[j]);
          case _ =>
        }
        j := j + 1;
        if listener.Some? {
          return;
        }
      }
    }

    /** The manager's loop, as far as these happenings take it. */
    method Run(hs: seq<Happening>)
      requires pageSize > 0 && Linked(View())
      modifies this
      ensures Linked(View()) && View() == After(old(View()), hs)
      ensures Sorted(old(View()).seen) ==> Sorted(View().seen)
    {
      ghost var start := View();
      var i := 0;
      while i < |hs|
        invariant i <= |hs| && Linked(View()) && View() == After(start, hs[..i])
        decreases |hs| - i
      {
        var j;
        if listener.None? {
          j := Reconnect(hs, i);
        } else if listener.value.live {
          j := Drain(hs, i);
        } else {
          var caughtUp;
          j, caughtUp := CatchUp(hs, i);
        }
        AfterConcat(start, hs[..i], hs[i..j]);
        assert hs[..i] + hs[i..j] == hs[..j];
        i := j;
      }
      assert hs[..i] == hs;
      if Sorted(start.seen) {
        ghost var steps := HappeningsAreARun(start, hs);
        DeliveredIdsIncrease(start, steps);
      }
    }
  }

  // ----- Delivered ids increase, whatever happens -----

  ghost predicate Sorted(v: Seen) {
    && Ascending(v.delivered)
    && (v.last.None? <==> v.delivered == [])
    && (v.last.Some? ==> v.last.value == v.delivered[|v.delivered| - 1])
  }

  lemma DeliverAllKeepsSorted(v: Seen, ids: seq<nat>)
    requires Sorted(v) && Ascending(ids) && (forall id :: id in ids && v.last.Some? ==> v.last.value < id)
    ensures Sorted(DeliverAll(v, ids))
  {
    if ids != [] {
      var d := v.delivered + ids;
      forall i, j | 0 <= i < j < |d| ensures d[i] < d[j] {
        if i < |v.delivered| <= j {
          assert d[j] in ids && d[i] <= v.delivered[|v.delivered| - 1];
        }
      }
    }
  }

  lemma StepKeepsSorted(b: Bus, step: Step)
    requires Sorted(b.seen) && Enabled(b, step)
    ensures Sorted(Apply(b, step).seen)
  {
    if step.Fetch? {
      PageAscends(b.table, b.seen.last.value, b.pageSize);
      DeliverAllKeepsSorted(b.seen, Page(b.table, b.seen.last.value, b.pageSize));
    }
  }

  /**
   For every pattern of disconnects, failed page fetches and commit orders, delivered ids strictly
   increase: nothing is delivered twice or out of order.
   */
  lemma {:induction false} DeliveredIdsIncrease(b: Bus, steps: seq<Step>)
    requires Sorted(b.seen) && Valid(b, steps)
    ensures Sorted(Final(b, steps).seen)
    decreases |steps|
  {
    if steps != [] {
      StepKeepsSorted(b, steps[0]);
      DeliveredIdsIncrease(Apply(b, steps[0]), steps[1..]);
    }
  }

  // ----- With commits visible in id order, nothing is missed either -----

  /** Rows become visible in id order. */
  predicate InIdOrder(b: Bus, steps: seq<Step>)
    requires Valid(b, steps)
    decreases |steps|
  {
    steps == [] ||
    ((steps[0].Commit? ==> forall id :: id in b.table ==> id < steps[0].id)
     && InIdOrder(Apply(b, steps[0]), steps[1..]))
  }

  /** The delivered ids are the rows from `a` up to `b`, none left out. */
  ghost predicate SliceOf(delivered: seq<nat>, table: seq<nat>, a: nat, b: nat) {
    a <= b <= |table| && delivered == table[a..b]
  }

  /** What a live connection has yet to deliver starts no later than where delivery stopped. */
  ghost predicate NoGap(b: Bus, upTo: nat) {
    b.conn.Some? ==>
      var c := b.conn.value;
      && c.from <= c.to <= |b.table|
      && (c.alive ==> c.to == |b.table|)
      && (c.live && b.seen.last.Some? ==> c.from <= upTo)
      && (b.seen.last.None? ==> c.live)
  }

  ghost predicate Complete(b: Bus, a: nat, upTo: nat) {
    && b.pageSize > 0
    && Ascending(b.table)
    && SliceOf(b.seen.delivered, b.table, a, upTo)
    && (b.seen.last.None? <==> a == upTo)
    && (b.seen.last.Some? ==> b.seen.last.value == b.table[upTo - 1])
    && NoGap(b, upTo)
  }

  lemma LeastAboveInOrder(table: seq<nat>, k: nat)
    requires Ascending(table) && 0 < k <= |table|
    ensures LeastAbove(table, table[k - 1]) == if k < |table| then Some(table[k]) else None
  {
    if k < |table| {
      assert table[k] in table;
      var r := LeastAbove(table, table[k - 1]);
      var i :| 0 <= i < |table| && table[i] == r.value;
      assert i == k;
    } else {
      forall id | id in table ensures id <= table[k - 1] {
        var i :| 0 <= i < |table| && table[i] == id;
      }
    }
  }

  lemma Slice(table: seq<nat>, k: nat, m: nat)
    requires k < m <= |table|
    ensures table[k..m] == [table[k]] + table[k + 1..m]
  {
  }

  lemma NoPage(table: seq<nat>, k: nat, n: nat)
    requires Ascending(table) && 0 < k <= |table| && (n == 0 || k == |table|)
    ensures Page(table, table[k - 1], n) == []
  {
    LeastAboveInOrder(table, k);
  }

  lemma PageBegins(table: seq<nat>, k: nat, n: nat)
    requires Ascending(table) && 0 < k < |table| && n > 0
    ensures Page(table, table[k - 1], n) == [table[k]] + Page(table, table[k], n - 1)
  {
    LeastAboveInOrder(table, k);
  }

  lemma {:induction false} PageInOrder(table: seq<nat>, k: nat, n: nat, m: nat)
    requires Ascending(table) && 0 < k <= |table| && m == Min(k + n, |table|)
    ensures Page(table, table[k - 1], n) == table[k..m]
    decreases n
  {
    if n == 0 || k == |table| {
      NoPage(table, k, n);
      assert table[k..m] == [];
    } else {
      PageBegins(table, k, n);
      PageInOrder(table, k + 1, n - 1, m);
      Slice(table, k, m);
    }
  }

  lemma DeliverSlice(v: Seen, table: seq<nat>, a: nat, k: nat, m: nat)
    requires a <= k < m <= |table| && v.delivered == table[a..k]
    ensures DeliverAll(v, table[k..m]) == Seen(Some(table[m - 1]), table[a..m])
  {
    assert table[a..k] + table[k..m] == table[a..m];
  }

  lemma FetchKeepsComplete(b: Bus, a: nat, upTo: nat) returns (upTo': nat)
    requires Complete(b, a, upTo) && Enabled(b, Fetch)
    ensures Complete(Apply(b, Fetch), a, upTo')
  {
    upTo' := Min(upTo + b.pageSize, |b.table|);
    PageInOrder(b.table, upTo, b.pageSize, upTo');
    if upTo < upTo' {
      DeliverSlice(b.seen, b.table, a, upTo, upTo');
    }
  }

  lemma ReceiveKeepsComplete(b: Bus, a: nat, upTo: nat) returns (a': nat, upTo': nat)
    requires Complete(b, a, upTo) && Enabled(b, Receive)
    ensures Complete(Apply(b, Receive), a', upTo')
    ensures b.seen.last.Some? ==> a' == a
  {
    var at := b.conn.value.from;
    if b.seen.last.None? {
      a', upTo' := at, at + 1;
      assert b.seen.delivered + [b.table[at]] == b.table[at..at + 1];
    } else if at == upTo {
      a', upTo' := a, upTo + 1;
      assert b.table[a..upTo] + [b.table[upTo]] == b.table[a..upTo + 1];
    } else {
      a', upTo' := a, upTo;
      assert b.table[at] <= b.table[upTo - 1];
    }
  }

  lemma StepKeepsComplete(b: Bus, step: Step, a: nat, upTo: nat) returns (a': nat, upTo': nat)
    requires Complete(b, a, upTo) && Enabled(b, step)
    requires step.Commit? ==> forall id :: id in b.table ==> id < step.id
    ensures Complete(Apply(b, step), a', upTo')
    ensures b.seen.last.Some? ==> a' == a
  {
    a', upTo' := a, upTo;
    match step
    case Commit(id) =>
      assert (b.table + [id])[a..upTo] == b.table[a..upTo];
      assert forall i :: 0 <= i < |b.table| ==> b.table[i] in b.table;
    case Fetch => upTo' := FetchKeepsComplete(b, a, upTo);
    case Receive => a', upTo' := ReceiveKeepsComplete(b, a, upTo);
    case _ =>
  }

  /**
   If rows become visible in id order, then at every moment of every run the delivered ids are a
   slice of the table without a gap; and once a live connection has nothing left to receive, that
   slice reaches to the end: every row from the first delivered one on, exactly once.
   */
  lemma {:induction false} NothingIsMissed(b: Bus, steps: seq<Step>, a: nat, upTo: nat)
    returns (a': nat, upTo': nat)
    requires Complete(b, a, upTo) && Valid(b, steps) && InIdOrder(b, steps)
    ensures Complete(Final(b, steps), a', upTo')
    ensures SliceOf(Final(b, steps).seen.delivered, Final(b, steps).table, a', upTo')
    ensures b.seen.last.Some? ==> a' == a
    ensures var f := Final(b, steps);
            f.seen.last.Some? && f.conn.Some? && f.conn.value.live && f.conn.value.alive
            && f.conn.value.from == f.conn.value.to
            ==> f.seen.delivered == f.table[a'..]
    decreases |steps|
  {
    if steps == [] {
      a', upTo' := a, upTo;
    } else {
      var a1, u1 := StepKeepsComplete(b, steps[0], a, upTo);
      a', upTo' := NothingIsMissed(Apply(b, steps[0]), steps[1..], a1, u1);
    }
  }

  lemma IdleIsComplete()
    ensures Sorted(IDLE.seen) && Complete(IDLE, 0, 0)
  {
  }

  /** In particular for everything a new manager does. */
  lemma NewManagerMissesNothing(steps: seq<Step>) returns (a: nat, upTo: nat)
    requires Valid(IDLE, steps) && InIdOrder(IDLE, steps)
    ensures var f := Final(IDLE, steps);
            && Ascending(f.seen.delivered) && SliceOf(f.seen.delivered, f.table, a, upTo)
            && (f.seen.last.Some? && f.conn.Some? && f.conn.value.live && f.conn.value.alive
                && f.conn.value.from == f.conn.value.to
                ==> f.seen.delivered == f.table[a..])
  {
    IdleIsComplete();
    DeliveredIdsIncrease(IDLE, steps);
    a, upTo := NothingIsMissed(IDLE, steps, 0, 0);
  }

  // ----- Exactly when a row is missed -----

  /** Everything delivered was read from the table, in ascending order. */
  ghost predicate Drawn(b: Bus) {
    Sorted(b.seen) && forall id :: id in b.seen.delivered ==> id in b.table
  }

  lemma {:induction false} PageCovers(table: seq<nat>, since: nat, n: nat, id: nat)
    requires id in table && since < id && Page(table, since, n) != []
    requires var page := Page(table, since, n); id <= page[|page| - 1]
    ensures id in Page(table, since, n)
    decreases n
  {
    var first := LeastAbove(table, since).value;
    var rest := Page(table, first, n - 1);
    if id != first {
      assert first < id;
      PageAscends(table, first, n - 1);
      assert rest != [];
      PageCovers(table, first, n - 1, id);
    }
  }

  lemma StepKeepsDrawn(b: Bus, step: Step)
    requires Drawn(b) && Enabled(b, step)
    ensures Drawn(Apply(b, step))
  {
    StepKeepsSorted(b, step);
    if step.Fetch? {
      PageAscends(b.table, b.seen.last.value, b.pageSize);
    }
  }

  lemma {:induction false} RunKeepsDrawn(b: Bus, steps: seq<Step>)
    requires Drawn(b) && Valid(b, steps)
    ensures Drawn(Final(b, steps))
    decreases |steps|
  {
    if steps != [] {
      StepKeepsDrawn(b, steps[0]);
      RunKeepsDrawn(Apply(b, steps[0]), steps[1..]);
    }
  }

  /** A visible row that delivery has gone past without it. */
  predicate Overtaken(b: Bus, id: nat) {
    id in b.table && id !in b.seen.delivered && b.seen.last.Some? && id <= b.seen.last.value
  }

  lemma AtMostLast(v: Seen, id: nat)
    requires Sorted(v) && id in v.delivered
    ensures v.last.Some? && id <= v.last.value
  {
    var i :| 0 <= i < |v.delivered| && v.delivered[i] == id;
  }

  lemma StaysOvertaken(b: Bus, step: Step, id: nat)
    requires Drawn(b) && Enabled(b, step) && Overtaken(b, id)
    ensures Overtaken(Apply(b, step), id)
  {
    if step.Fetch? {
      var page := Page(b.table, b.seen.last.value, b.pageSize);
      PageAscends(b.table, b.seen.last.value, b.pageSize);
      assert page != [] ==> page[|page| - 1] in page;
    }
  }

  /** A row once overtaken is never delivered, however the run goes on. */
  lemma {:induction false} OvertakenForGood(b: Bus, steps: seq<Step>, id: nat)
    requires Drawn(b) && Valid(b, steps) && Overtaken(b, id)
    ensures Overtaken(Final(b, steps), id)
    decreases |steps|
  {
    if steps != [] {
      StaysOvertaken(b, steps[0], id);
      StepKeepsDrawn(b, steps[0]);
      OvertakenForGood(Apply(b, steps[0]), steps[1..], id);
    }
  }

  /**
   The step goes past a row: the row becomes visible at or below the last id, or a notification
   beyond it is taken up while the row is visible and not yet delivered.
   */
  predicate Overtakes(b: Bus, step: Step, id: nat)
    requires Enabled(b, step)
  {
    match step
    case Commit(row) => id == row && b.seen.last.Some? && id <= b.seen.last.value
    case Receive =>
      id in b.table && b.seen.last.Some? && b.seen.last.value < id < b.table[b.conn.value.from]
    case _ => false
  }

  /** A step goes past a row exactly if it leaves it overtaken that was not. */
  lemma StepOvertakesIff(b: Bus, step: Step, id: nat)
    requires Drawn(b) && b.seen.last.Some? && Enabled(b, step)
    ensures Overtaken(Apply(b, step), id) <==> Overtaken(b, id) || Overtakes(b, step, id)
  {
    if id in b.seen.delivered {
      AtMostLast(b.seen, id);
    }
    if Overtaken(b, id) {
      StaysOvertaken(b, step, id);
    }
    if step.Fetch? {
      var page := Page(b.table, b.seen.last.value, b.pageSize);
      PageAscends(b.table, b.seen.last.value, b.pageSize);
      if page != [] && id in b.table && b.seen.last.value < id <= page[|page| - 1] {
        PageCovers(b.table, b.seen.last.value, b.pageSize, id);
      }
    }
  }

  /** Some step of the run goes past the row. */
  ghost predicate OvertakenDuring(b: Bus, steps: seq<Step>, id: nat)
    requires Valid(b, steps)
    decreases |steps|
  {
    steps != [] && (Overtakes(b, steps[0], id) || OvertakenDuring(Apply(b, steps[0]), steps[1..], id))
  }

  /**
   For every run from a state with a last message, in whatever order rows become visible: a row is
   missed exactly if it was, or if some step of the run goes past it.
   */
  lemma {:induction false} MissedIff(b: Bus, steps: seq<Step>, id: nat)
    requires Drawn(b) && b.seen.last.Some? && Valid(b, steps)
    ensures Overtaken(Final(b, steps), id) <==> Overtaken(b, id) || OvertakenDuring(b, steps, id)
    decreases |steps|
  {
    if steps != [] {
      StepOvertakesIff(b, steps[0], id);
      StepKeepsDrawn(b, steps[0]);
      MissedIff(Apply(b, steps[0]), steps[1..], id);
    }
  }

  /** Rows that delivery owes: new ones, and those beyond the id it starts from. */
  predicate Owed(start: Bus, id: nat) {
    id !in start.table || (start.seen.last.Some? && start.seen.last.value < id)
  }

  ghost predicate AllDelivered(start: Bus, b: Bus) {
    b.seen.last.Some? &&
    forall id :: id in b.table && Owed(start, id) && id <= b.seen.last.value ==> id in b.seen.delivered
  }

  /** No step of the run goes past any row. */
  ghost predicate NoneOvertaken(b: Bus, steps: seq<Step>)
    requires Valid(b, steps)
    decreases |steps|
  {
    steps == [] ||
    ((forall id :: !Overtakes(b, steps[0], id)) && NoneOvertaken(Apply(b, steps[0]), steps[1..]))
  }

  lemma {:induction false} NoneMeansNot(b: Bus, steps: seq<Step>, id: nat)
    requires Valid(b, steps) && NoneOvertaken(b, steps)
    ensures !OvertakenDuring(b, steps, id)
    decreases |steps|
  {
    if steps != [] {
      NoneMeansNot(Apply(b, steps[0]), steps[1..], id);
    }
  }

  lemma {:induction false} NotNoneMeansSome(b: Bus, steps: seq<Step>) returns (id: nat)
    requires Valid(b, steps) && !NoneOvertaken(b, steps)
    ensures OvertakenDuring(b, steps, id)
    decreases |steps|
  {
    if x :| Overtakes(b, steps[0], x) {
      id := x;
    } else {
      id := NotNoneMeansSome(Apply(b, steps[0]), steps[1..]);
    }
  }

  /** What a run goes past is owed. */
  lemma {:induction false} OvertakenIsOwed(start: Bus, b: Bus, steps: seq<Step>, id: nat)
    requires Drawn(b) && Valid(b, steps) && start.seen.last.Some? && b.seen.last.Some?
    requires start.seen.last.value <= b.seen.last.value && forall x :: x in start.table ==> x in b.table
    requires OvertakenDuring(b, steps, id)
    ensures Owed(start, id)
    decreases |steps|
  {
    if !Overtakes(b, steps[0], id) {
      var next := Apply(b, steps[0]);
      StepKeepsDrawn(b, steps[0]);
      StepRaisesLast(b, steps[0]);
      OvertakenIsOwed(start, next, steps[1..], id);
    }
  }

  lemma StepRaisesLast(b: Bus, step: Step)
    requires Drawn(b) && b.seen.last.Some? && Enabled(b, step)
    ensures var next := Apply(b, step);
            && next.seen.last.Some? && b.seen.last.value <= next.seen.last.value
            && forall x :: x in b.table ==> x in next.table
  {
    if step.Fetch? {
      var page := Page(b.table, b.seen.last.value, b.pageSize);
      PageAscends(b.table, b.seen.last.value, b.pageSize);
      assert page != [] ==> page[|page| - 1] in page;
    }
  }

  lemma {:induction false} RunRaisesLast(b: Bus, steps: seq<Step>)
    requires Drawn(b) && b.seen.last.Some? && Valid(b, steps)
    ensures Final(b, steps).seen.last.Some?
    decreases |steps|
  {
    if steps != [] {
      StepRaisesLast(b, steps[0]);
      StepKeepsDrawn(b, steps[0]);
      RunRaisesLast(Apply(b, steps[0]), steps[1..]);
    }
  }

  /**
   For every run from a state with a last message, in whatever order rows become visible: every
   owed row up to the last id is delivered exactly if no row becomes visible at or below the last
   id and no notification is taken up past a visible row.
   */
  lemma MissesNothingIff(b: Bus, steps: seq<Step>)
    requires Drawn(b) && b.seen.last.Some? && Valid(b, steps)
    ensures AllDelivered(b, Final(b, steps)) <==> NoneOvertaken(b, steps)
  {
    var f := Final(b, steps);
    RunRaisesLast(b, steps);
    if !NoneOvertaken(b, steps) {
      var id := NotNoneMeansSome(b, steps);
      MissedIff(b, steps, id);
      OvertakenIsOwed(b, b, steps, id);
    } else {
      forall id | id in f.table && Owed(b, id) && id <= f.seen.last.value ensures id in f.seen.delivered {
        NoneMeansNot(b, steps, id);
        MissedIff(b, steps, id);
      }
    }
  }

  /** Rows visible in id order are never gone past. */
  lemma {:induction false} InOrderOvertakesNone(b: Bus, steps: seq<Step>, a: nat, upTo: nat)
    requires Complete(b, a, upTo) && Valid(b, steps) && InIdOrder(b, steps)
    ensures NoneOvertaken(b, steps)
    decreases |steps|
  {
    if steps != [] {
      forall id ensures !Overtakes(b, steps[0], id) {
        if b.seen.last.Some? {
          assert b.table[upTo - 1] in b.table;
        }
        if id in b.table {
          var i :| 0 <= i < |b.table| && b.table[i] == id;
        }
      }
      var a', upTo' := StepKeepsComplete(b, steps[0], a, upTo);
      InOrderOvertakesNone(Apply(b, steps[0]), steps[1..], a', upTo');
    }
  }

  /** In particular for everything a new manager does, from its first delivery on. */
  lemma NewManagerMissesNothingIff(steps: seq<Step>, more: seq<Step>)
    requires Valid(IDLE, steps) && Final(IDLE, steps).seen.last.Some? && Valid(Final(IDLE, steps), more)
    ensures AllDelivered(Final(IDLE, steps), Final(Final(IDLE, steps), more))
            <==> NoneOvertaken(Final(IDLE, steps), more)
  {
    IdleIsComplete();
    RunKeepsDrawn(IDLE, steps);
    MissesNothingIff(Final(IDLE, steps), more);
  }

  /** Two rows that become visible out of order while the manager follows: the second is missed. */
  lemma LateRowIsMissed()
    ensures var steps := [Step.Connect, Commit(2), Receive, Commit(1), Receive];
            && Valid(IDLE, steps)
            && Final(IDLE, steps).table == [2, 1] && Final(IDLE, steps).seen.delivered == [2]
            && Overtaken(Final(IDLE, steps), 1)
  {
    var b1 := Apply(IDLE, Step.Connect);
    var b2 := Apply(b1, Commit(2));
    var b3 := Apply(b2, Receive);
    var b4 := Apply(b3, Commit(1));
    OneStep(b4, Receive);
    OneStep(b3, Commit(1));
    RunConcat(b3, [Commit(1)], [Receive]);
    OneStep(b2, Receive);
    RunConcat(b2, [Receive], [Commit(1)] + [Receive]);
    OneStep(b1, Commit(2));
    RunConcat(b1, [Commit(2)], [Receive] + ([Commit(1)] + [Receive]));
    OneStep(IDLE, Step.Connect);
    RunConcat(IDLE, [Step.Connect], [Commit(2)] + ([Receive] + ([Commit(1)] + [Receive])));
    assert [Step.Connect] + ([Commit(2)] + ([Receive] + ([Commit(1)] + [Receive])))
        == [Step.Connect, Commit(2), Receive, Commit(1), Receive];
  }

  // ----- Exactly when a new manager is safe -----

  /**
   The first row to be delivered is already known: something was delivered, or a lost connection
   still has rows to hand over.
   */
  predicate Anchored(b: Bus) {
    b.seen.last.Some?
    || (b.conn.Some? && !b.conn.value.alive && b.conn.value.from < b.conn.value.to)
  }

  /** A row that became visible after `b` has been passed by. */
  ghost predicate PassedBy(b: Bus, f: Bus) {
    exists i :: |b.table| <= i < |f.table| && Overtaken(f, f.table[i])
  }

  /** The first row to be delivered is one of the first `n` of the table. */
  predicate AnchoredWithin(b: Bus, a: nat, n: nat) {
    Anchored(b) && if b.seen.last.Some? then a < n else b.conn.value.from < n
  }

  lemma StepKeepsAnchor(b: Bus, step: Step, a: nat, upTo: nat, n: nat, a': nat, upTo': nat)
    requires Complete(b, a, upTo) && Enabled(b, step) && AnchoredWithin(b, a, n)
    requires Complete(Apply(b, step), a', upTo') && (b.seen.last.Some? ==> a' == a)
    ensures AnchoredWithin(Apply(b, step), a', n)
  {
    var next := Apply(b, step);
    if b.seen.last.None? && step.Receive? {
      assert next.seen.delivered == [b.table[b.conn.value.from]];
      assert next.table[a'..upTo'][0] == next.table[a'];
    }
  }

  lemma {:induction false} AnchoredStays(b: Bus, steps: seq<Step>, a: nat, upTo: nat, n: nat)
    returns (a': nat, upTo': nat)
    requires Complete(b, a, upTo) && Valid(b, steps) && InIdOrder(b, steps) && AnchoredWithin(b, a, n)
    ensures Complete(Final(b, steps), a', upTo') && AnchoredWithin(Final(b, steps), a', n)
    ensures b.seen.last.Some? ==> a' == a
    decreases |steps|
  {
    if steps == [] {
      a', upTo' := a, upTo;
    } else {
      var a1, u1 := StepKeepsComplete(b, steps[0], a, upTo);
      StepKeepsAnchor(b, steps[0], a, upTo, n, a1, u1);
      a', upTo' := AnchoredStays(Apply(b, steps[0]), steps[1..], a1, u1, n);
    }
  }

  /** In a complete state the rows gone past are those before the first delivered one. */
  lemma OvertakenInOrder(b: Bus, a: nat, upTo: nat, i: nat)
    requires Complete(b, a, upTo) && i < |b.table|
    ensures Overtaken(b, b.table[i]) <==> b.seen.last.Some? && i < a
  {
    var id := b.table[i];
    if b.seen.last.Some? {
      if a <= i < upTo {
        assert b.table[a..upTo][i - a] == id;
      }
      if id in b.seen.delivered {
        var k :| 0 <= k < |b.seen.delivered| && b.seen.delivered[k] == id;
        assert b.table[a + k] == id;
      }
    }
  }

  lemma AnchoredIsSafe(b: Bus, steps: seq<Step>, a: nat, upTo: nat)
    requires Complete(b, a, upTo) && Anchored(b) && Valid(b, steps) && InIdOrder(b, steps)
    ensures !PassedBy(b, Final(b, steps))
  {
    var f := Final(b, steps);
    var a', upTo' := AnchoredStays(b, steps, a, upTo, |b.table|);
    forall i | |b.table| <= i < |f.table| ensures !Overtaken(f, f.table[i]) {
      OvertakenInOrder(f, a', upTo', i);
    }
  }

  /** An id beyond all of the table. */
  function Beyond(table: seq<nat>): (id: nat)
    ensures forall x :: x in table ==> x < id
  {
    if table == [] then 0
    else
      assert forall x :: x in table <==> x == table[0] || x in table[1..];
      Max(Beyond(table[1..]), table[0] + 1)
  }

  /** The steps that end a connection that has handed over nothing, at once. */
  function Disconnecting(b: Bus): seq<Step> {
    if b.conn.None? then []
    else if b.conn.value.alive then [Lose(b.conn.value.from)] + [GiveUp]
    else [GiveUp]
  }

  lemma Disconnects(b: Bus, a: nat, upTo: nat)
    requires Complete(b, a, upTo) && !Anchored(b)
    ensures Valid(b, Disconnecting(b)) && InIdOrder(b, Disconnecting(b))
    ensures Final(b, Disconnecting(b)) == b.(conn := None)
  {
    if b.conn.Some? {
      var lost := if b.conn.value.alive then Apply(b, Lose(b.conn.value.from)) else b;
      OneStep(lost, GiveUp);
      InOrderUnlessCommits(lost, [GiveUp]);
      if b.conn.value.alive {
        OneStep(b, Lose(b.conn.value.from));
        RunConcat(b, [Lose(b.conn.value.from)], [GiveUp]);
        InOrderUnlessCommits(b, Disconnecting(b));
      }
    }
  }

  lemma {:induction false} InOrderUnlessCommits(b: Bus, steps: seq<Step>)
    requires Valid(b, steps) && forall i :: 0 <= i < |steps| ==> !steps[i].Commit?
    ensures InIdOrder(b, steps)
    decreases |steps|
  {
    if steps != [] {
      InOrderUnlessCommits(Apply(b, steps[0]), steps[1..]);
    }
  }

  lemma {:induction false} InOrderConcat(b: Bus, xs: seq<Step>, ys: seq<Step>)
    requires Valid(b, xs) && Valid(Final(b, xs), ys) && InIdOrder(b, xs) && InIdOrder(Final(b, xs), ys)
    ensures Valid(b, xs + ys) && InIdOrder(b, xs + ys)
    decreases |xs|
  {
    RunConcat(b, xs, ys);
    if xs == [] {
      assert xs + ys == ys;
    } else {
      assert (xs + ys)[1..] == xs[1..] + ys;
      InOrderConcat(Apply(b, xs[0]), xs[1..], ys);
    }
  }

  /** A row, then a connection, then another row, which is the first to be delivered. */
  function Passing(x: nat, y: nat): seq<Step> {
    [Commit(x)] + ([Step.Connect] + ([Commit(y)] + [Receive]))
  }

  lemma OneInOrder(b: Bus, step: Step)
    requires Enabled(b, step) && (step.Commit? ==> forall id :: id in b.table ==> id < step.id)
    ensures Valid(b, [step]) && InIdOrder(b, [step]) && Final(b, [step]) == Apply(b, step)
  {
    OneStep(b, step);
    assert InIdOrder(Apply(b, step), [step][1..]);
  }

  lemma PassingRuns(b: Bus, x: nat, y: nat)
    requires b.conn.None? && b.seen == Seen(None, []) && x < y && forall id :: id in b.table ==> id < x
    ensures Valid(b, Passing(x, y)) && InIdOrder(b, Passing(x, y))
    ensures Final(b, Passing(x, y)).table == b.table + [x, y]
    ensures Final(b, Passing(x, y)).seen == Seen(Some(y), [y])
  {
    var b1 := Apply(b, Commit(x));
    var b2 := Apply(b1, Step.Connect);
    var b3 := Apply(b2, Commit(y));
    OneInOrder(b, Commit(x));
    OneInOrder(b1, Step.Connect);
    OneInOrder(b2, Commit(y));
    OneInOrder(b3, Receive);
    RunConcat(b2, [Commit(y)], [Receive]);
    InOrderConcat(b2, [Commit(y)], [Receive]);
    RunConcat(b1, [Step.Connect], [Commit(y)] + [Receive]);
    InOrderConcat(b1, [Step.Connect], [Commit(y)] + [Receive]);
    RunConcat(b, [Commit(x)], [Step.Connect] + ([Commit(y)] + [Receive]));
    InOrderConcat(b, [Commit(x)], [Step.Connect] + ([Commit(y)] + [Receive]));
    assert b3.table == b.table + [x, y] && b3.table[|b.table| + 1] == y;
  }

  /** From a state that is not anchored: a run in which the next row is passed by, the one after not. */
  lemma UnanchoredPassesBy(b: Bus, a: nat, upTo: nat, x: nat, y: nat)
    requires Complete(b, a, upTo) && !Anchored(b) && x < y && forall id :: id in b.table ==> id < x
    ensures var steps := Disconnecting(b) + Passing(x, y);
            && Valid(b, steps) && InIdOrder(b, steps)
            && Final(b, steps).table == b.table + [x, y]
            && Final(b, steps).seen == Seen(Some(y), [y])
  {
    Disconnects(b, a, upTo);
    assert b.seen.delivered == [] && b.seen == Seen(None, []);
    PassingRuns(b.(conn := None), x, y);
    RunConcat(b, Disconnecting(b), Passing(x, y));
    InOrderConcat(b, Disconnecting(b), Passing(x, y));
  }

  /**
   From every complete state: no run with rows visible in id order lets a later row pass by,
   exactly if the state is anchored.
   */
  lemma NoRowPassesByIff(b: Bus, a: nat, upTo: nat)
    requires Complete(b, a, upTo)
    ensures (forall steps :: Valid(b, steps) && InIdOrder(b, steps) ==> !PassedBy(b, Final(b, steps)))
            <==> Anchored(b)
  {
    if Anchored(b) {
      forall steps | Valid(b, steps) && InIdOrder(b, steps) ensures !PassedBy(b, Final(b, steps)) {
        AnchoredIsSafe(b, steps, a, upTo);
      }
    } else {
      var x := Beyond(b.table);
      var steps := Disconnecting(b) + Passing(x, x + 1);
      UnanchoredPassesBy(b, a, upTo, x, x + 1);
      var f := Final(b, steps);
      assert f.table[|b.table|] == x && Overtaken(f, f.table[|b.table|]);
      assert PassedBy(b, f);
    }
  }
}
