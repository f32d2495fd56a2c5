/**
 The proxy's connection monitor (plane/src/proxy/connection_monitor.rs): it counts connections,
 visits every tracked backend each heartbeat interval and reports the ones in use, so that the
 controller's sweep (plane/src/database/backend.rs, termination_candidates) leaves them alone.
 */
module ConnectionMonitor {
  import opened Basics
  import Tables
  import BackendStates

  const HEARTBEAT_INTERVAL: Time := 7 * SECOND

  const U32_MAX: nat := 0xFFFF_FFFF

  type u32 = n: nat | n <= U32_MAX

  datatype Entry = Entry(active: u32, recent: bool)

  datatype Visit = Visit(due: Time, backend: BackendId)

  datatype Monitor = Monitor(queue: seq<Visit>, backends: map<BackendId, Entry>)

  function More(n: u32): u32 {
    if n == U32_MAX then 0 else n + 1
  }

  /** In a release build the subtraction wraps around. */
  function Fewer(n: u32): u32 {
    if n == 0 then U32_MAX else n - 1
  }

  /** Starts tracking a backend and queues its first visit. */
  function Track(m: Monitor, b: BackendId, e: Entry, now: Time): Monitor {
    Monitor(m.queue + [Visit(now + HEARTBEAT_INTERVAL, b)], m.backends[b := e])
  }

  function Touch(m: Monitor, b: BackendId, now: Time): Monitor {
    if b in m.backends then m.(backends := m.backends[b := m.backends[b].(recent := true)])
    else Track(m, b, Entry(0, true), now)
  }

  function Inc(m: Monitor, b: BackendId, now: Time): Monitor {
    if b in m.backends
    then m.(backends := m.backends[b := Entry(More(m.backends[b].active), true)])
    else Track(m, b, Entry(1, true), now)
  }

  function Dec(m: Monitor, b: BackendId): Monitor {
    if b in m.backends
    then m.(backends := m.backends[b := m.backends[b].(active := Fewer(m.backends[b].active))])
    else m
  }

  function Remove(m: Monitor, b: BackendId): Monitor {
    m.(backends := m.backends - {b})
  }

  predicate InUse(m: Monitor, b: BackendId) {
    b in m.backends && (m.backends[b].active > 0 || m.backends[b].recent)
  }

  /** A visit queues the next visit of a backend in use and forgets any other. */
  function Visited(m: Monitor, b: BackendId, now: Time): Monitor {
    if InUse(m, b) then Track(m, b, m.backends[b].(recent := false), now) else Remove(m, b)
  }

  // ----- The monitor object -----

  class ConnectionMonitor {
    var visitQueue: seq<Visit>
    var backends: map<BackendId, Entry>

    /** Calls of the listener: keepalives handed to the connection. */
    var reported: seq<BackendId>

    function View(): Monitor
      reads this
    {
      Monitor(visitQueue, backends)
    }

    constructor ()
      ensures View() == Monitor([], map[]) && reported == []
    {
      visitQueue, backends, reported := [], map[], [];
    }

    method RemoveBackend(b: BackendId)
      modifies this
      ensures View() == Remove(old(View()), b) && reported == old(reported)
    {
      backends := backends - {b};
    }

    method TouchBackend(b: BackendId, now: Time)
      modifies this
      ensures View() == Touch(old(View()), b, now)
      ensures reported == old(reported) + (if b in old(backends) then [] else [b])
    {
      if b in backends {
        backends := backends[b := backends[b].(recent := true)];
      } else {
        reported := reported + [b];
        visitQueue := visitQueue + [Visit(now + HEARTBEAT_INTERVAL, b)];
        backends := backends[b := Entry(0, true)];
      }
    }

    method IncConnection(b: BackendId, now: Time)
      modifies this
      ensures View() == Inc(old(View()), b, now)
      ensures reported == old(reported) + (if b in old(backends) then [] else [b])
    {
      if b in backends {
        backends := backends[b := Entry(More(backends[b].active), true)];
      } else {
        reported := reported + [b];
        visitQueue := visitQueue + [Visit(now + HEARTBEAT_INTERVAL, b)];
        backends := backends[b := Entry(1, true)];
      }
    }

    method DecConnection(b: BackendId)
      modifies this
      ensures View() == Dec(old(View()), b) && reported == old(reported)
    {
      if b in backends {
        backends := backends[b := backends[b].(active := Fewer(backends[b].active))];
      }
    }

    /** The first half of the visitor's loop: takes the next visit, if there is one. */
    method PopVisit() returns (v: Option<Visit>)
      modifies this
      ensures backends == old(backends) && reported == old(reported)
      ensures v.None? <==> old(visitQueue) == []
      ensures v.Some? ==> old(visitQueue) == [v.value] + visitQueue
      ensures v.None? ==> visitQueue == []
    {
      if visitQueue == [] {
        v := None;
      } else {
        v := Some(visitQueue[0]);
        visitQueue := visitQueue[1..];
      }
    }

    /** The second half, once the visit is due. */
    method CarryOut(b: BackendId, now: Time)
      modifies this
      ensures View() == Visited(old(View()), b, now)
      ensures reported == old(reported) + (if InUse(old(View()), b) then [b] else [])
    {
      if b !in backends {
        assert backends - {b} == backends;
        return;
      }
      if backends[b].active > 0 || backends[b].recent {
        backends := backends[b := backends[b].(recent := false)];
        reported := reported + [b];
        visitQueue := visitQueue + [Visit(now + HEARTBEAT_INTERVAL, b)];
      } else {
        backends := backends - {b};
      }
    }
  }

  // ----- The monitor in time -----

  /** The visitor task between its steps: at the loop head, asleep on an empty queue, or waiting. */
  datatype Visitor = AtHead | Asleep(until: Time) | Holding(visit: Visit)

  /**
   Keepalives for a backend since it has been tracked: send times of those on their way, oldest
   first, and of the last one that arrived.
   */
  datatype Reports = Reports(pending: seq<Time>, arrived: Option<Time>, latest: Time)

  /**
   `open` counts the connections there are, `before` those that were there when the backend's
   present entry was made; `gone` has the backends reported as terminated.
   */
  datatype Proxy = Proxy(
    now: Time,
    m: Monitor,
    visitor: Visitor,
    open: map<BackendId, nat>,
    before: map<BackendId, nat>,
    gone: set<BackendId>,
    reports: map<BackendId, Reports>,
    lastKeepalive: map<BackendId, Time>)

  datatype Step =
    | Tick(dt: Time)
    | TouchStep(b: BackendId)
    | Open(b: BackendId)
    | Close(b: BackendId)
    | Gone(b: BackendId)
    | Pop
    | WakeUp
    | Perform
    | Arrive(b: BackendId)

  function Opened(p: Proxy, b: BackendId): nat {
    if b in p.open then p.open[b] else 0
  }

  /**
   Timers fire at most `late` after they are due and keepalives arrive within `delay`; what the
   visitor does at the head of its loop takes no time. Keepalives for a backend stay in order.
   */
  predicate Enabled(p: Proxy, step: Step, late: Time, delay: Time) {
    match step
    case Tick(dt) =>
      && dt >= 0
      && !p.visitor.AtHead?
      && (p.visitor.Asleep? ==> p.now + dt <= p.visitor.until + late)
      && (p.visitor.Holding? ==> p.now + dt <= p.visitor.visit.due + late)
      && (forall b :: b in p.reports && p.reports[b].pending != [] ==>
            p.now + dt <= p.reports[b].pending[0] + delay)
    case TouchStep(_) => true
    case Open(b) => Opened(p, b) < U32_MAX
    case Close(b) => Opened(p, b) > 0
    case Gone(_) => true
    case Pop => p.visitor.AtHead?
    case WakeUp => p.visitor.Asleep? && p.visitor.until <= p.now
    case Perform => p.visitor.Holding? && p.visitor.visit.due <= p.now
    case Arrive(b) => b in p.reports && p.reports[b].pending != []
  }

  /** Sends a keepalive; tracking anew starts a new series. */
  function Sent(p: Proxy, b: BackendId, anew: bool): map<BackendId, Reports> {
    if anew || b !in p.reports then p.reports[b := Reports([p.now], None, p.now)]
    else p.reports[b := Reports(p.reports[b].pending + [p.now], p.reports[b].arrived, p.now)]
  }

  function Before(p: Proxy, b: BackendId): map<BackendId, nat> {
    if b in p.m.backends then p.before else p.before[b := Opened(p, b)]
  }

  function Apply(p: Proxy, step: Step): Proxy {
    match step
    case Tick(dt) => p.(now := p.now + dt)
    case TouchStep(b) =>
      p.(m := Touch(p.m, b, p.now),
         before := Before(p, b),
         reports := if b in p.m.backends then p.reports else Sent(p, b, true))
    case Open(b) =>
      p.(m := Inc(p.m, b, p.now),
         open := p.open[b := Opened(p, b) + 1],
         before := Before(p, b),
         reports := if b in p.m.backends then p.reports else Sent(p, b, true))
    case Close(b) =>
      p.(m := Dec(p.m, b), open := p.open[b := if Opened(p, b) > 0 then Opened(p, b) - 1 else 0])
    case Gone(b) => p.(m := Remove(p.m, b), gone := p.gone + {b})
    case Pop =>
      if p.m.queue == [] then p.(visitor := Asleep(p.now + HEARTBEAT_INTERVAL))
      else p.(visitor := Holding(p.m.queue[0]), m := p.m.(queue := p.m.queue[1..]))
    case WakeUp => p.(visitor := AtHead)
    case Perform =>
      if !p.visitor.Holding? then p
      else
        var b := p.visitor.visit.backend;
        p.(m := Visited(p.m, b, p.now), visitor := AtHead,
           reports := if InUse(p.m, b) then Sent(p, b, false) else p.reports)
    case Arrive(b) =>
      if b in p.reports && p.reports[b].pending != [] then
        var r := p.reports[b];
        p.(reports := p.reports[b := Reports(r.pending[1..], Some(r.pending[0]), r.latest)],
           lastKeepalive := p.lastKeepalive[b := p.now])
      else p
  }

  predicate Valid(p: Proxy, steps: seq<Step>, late: Time, delay: Time)
    decreases |steps|
  {
    steps == [] || (Enabled(p, steps[0], late, delay) && Valid(Apply(p, steps[0]), steps[1..], late, delay))
  }

  function Final(p: Proxy, steps: seq<Step>): Proxy
    decreases |steps|
  {
    if steps == [] then p else Final(Apply(p, steps[0]), steps[1..])
  }

  function Fresh(now: Time, lastKeepalive: map<BackendId, Time>): Proxy {
    Proxy(now, Monitor([], map[]), AtHead, map[], map[], {}, map[], lastKeepalive)
  }

  // ----- Invariants -----

  /** Visits are queued in the order in which they are due. */
  ghost predicate QueueSorted(q: seq<Visit>, now: Time) {
    && (forall i, j :: 0 <= i < j < |q| ==> q[i].due <= q[j].due)
    && (forall i :: 0 <= i < |q| ==> q[i].due <= now + HEARTBEAT_INTERVAL)
  }

  /** What the visitor sleeps for is never after the first visit in the queue. */
  ghost predicate VisitorFirst(v: Visitor, q: seq<Visit>, now: Time) {
    match v
    case AtHead => true
    case Asleep(until) => until <= now + HEARTBEAT_INTERVAL && forall i :: 0 <= i < |q| ==> until <= q[i].due
    case Holding(x) => x.due <= now + HEARTBEAT_INTERVAL && forall i :: 0 <= i < |q| ==> x.due <= q[i].due
  }

  /** No visit is later than the timers are. */
  ghost predicate Punctual(p: Proxy, late: Time) {
    && (forall i :: 0 <= i < |p.m.queue| ==> p.now <= p.m.queue[i].due + late)
    && (p.visitor.Holding? ==> p.now <= p.visitor.visit.due + late)
  }

  ghost predicate Planned(visitor: Visitor, q: seq<Visit>, b: BackendId, limit: Time) {
    || (visitor.Holding? && visitor.visit.backend == b && visitor.visit.due <= limit)
    || (exists i :: 0 <= i < |q| && q[i].backend == b && q[i].due <= limit)
  }

  /** Every tracked backend has a visit planned within an interval of its latest keepalive. */
  ghost predicate AllPlanned(p: Proxy) {
    forall b :: b in p.m.backends ==>
      b in p.reports && Planned(p.visitor, p.m.queue, b, p.reports[b].latest + HEARTBEAT_INTERVAL)
  }

  const TWO_TO_THE_32: nat := U32_MAX + 1

  /** A difference of two counts, as an unsigned number of 32 bits. */
  function Wrapped(k: int): (n: u32)
    requires 0 <= k + U32_MAX && k <= U32_MAX
    ensures n == k % TWO_TO_THE_32
  {
    if k < 0 then k + TWO_TO_THE_32 else k
  }

  /** A counter is what has been opened less what has been closed since its entry was made. */
  ghost predicate CountKnown(p: Proxy, b: BackendId) {
    && Opened(p, b) <= U32_MAX
    && (b in p.m.backends ==>
          && b in p.before && p.before[b] <= U32_MAX
          && p.m.backends[b].active == Wrapped(Opened(p, b) - p.before[b]))
  }

  /** Outside terminated backends entries are made before the first connection, and kept. */
  ghost predicate EntryKept(p: Proxy, b: BackendId) {
    b !in p.gone ==>
      && (b in p.m.backends && b in p.before ==> p.before[b] == 0)
      && (Opened(p, b) > 0 ==> b in p.m.backends)
  }

  ghost predicate CountsRight(p: Proxy) {
    forall b :: CountKnown(p, b) && EntryKept(p, b)
  }

  /** A series of send times with no gap longer than `gap`, starting at `first`. */
  predicate Chained(first: Time, times: seq<Time>, latest: Time, gap: Time)
    decreases |times|
  {
    if times == [] then first == latest
    else first <= times[0] <= first + gap && Chained(times[0], times[1..], latest, gap)
  }

  ghost predicate ReportSound(r: Reports, now: Time, last: Option<Time>, late: Time, delay: Time) {
    && r.latest <= now
    && (r.pending != [] ==> now <= r.pending[0] + delay)
    && (r.arrived.Some? ==>
          && last.Some? && r.arrived.value <= last.value
          && Chained(r.arrived.value, r.pending, r.latest, HEARTBEAT_INTERVAL + late))
    && (r.arrived.None? ==>
          r.pending != [] && Chained(r.pending[0], r.pending[1..], r.latest, HEARTBEAT_INTERVAL + late))
  }

  function Recorded(p: Proxy, b: BackendId): Option<Time> {
    if b in p.lastKeepalive then Some(p.lastKeepalive[b]) else None
  }

  ghost predicate ReportsSound(p: Proxy, late: Time, delay: Time) {
    forall b :: b in p.reports ==> ReportSound(p.reports[b], p.now, Recorded(p, b), late, delay)
  }

  ghost predicate QueueSound(p: Proxy, late: Time) {
    QueueSorted(p.m.queue, p.now) && VisitorFirst(p.visitor, p.m.queue, p.now) && Punctual(p, late)
  }

  ghost predicate Inv(p: Proxy, late: Time, delay: Time) {
    QueueSound(p, late) && AllPlanned(p) && CountsRight(p) && ReportsSound(p, late, delay)
  }

  /** A visit queued now is due after all others. */
  lemma PushKeepsQueue(p: Proxy, b: BackendId, e: Entry, late: Time)
    requires late >= 0 && QueueSound(p, late)
    ensures QueueSound(p.(m := Track(p.m, b, e, p.now)), late)
    ensures QueueSound(p.(m := Track(p.m, b, e, p.now), visitor := AtHead), late)
  {
  }

  lemma TickKeepsQueue(p: Proxy, dt: Time, late: Time, delay: Time)
    requires late >= 0 && QueueSound(p, late) && Enabled(p, Tick(dt), late, delay)
    ensures QueueSound(Apply(p, Tick(dt)), late)
  {
  }

  lemma PopKeepsQueue(p: Proxy, late: Time)
    requires late >= 0 && QueueSound(p, late) && p.visitor.AtHead?
    ensures QueueSound(Apply(p, Pop), late)
  {
  }

  lemma PerformKeepsQueue(p: Proxy, late: Time)
    requires late >= 0 && QueueSound(p, late) && p.visitor.Holding?
    ensures QueueSound(Apply(p, Perform), late)
  {
    var b := p.visitor.visit.backend;
    if InUse(p.m, b) {
      PushKeepsQueue(p, b, p.m.backends[b].(recent := false), late);
    }
  }

  lemma StepKeepsQueue(p: Proxy, step: Step, late: Time, delay: Time)
    requires late >= 0 && delay >= 0 && QueueSound(p, late) && Enabled(p, step, late, delay)
    ensures QueueSound(Apply(p, step), late)
  {
    match step
    case Tick(dt) => TickKeepsQueue(p, dt, late, delay);
    case TouchStep(b) => if b !in p.m.backends { PushKeepsQueue(p, b, Entry(0, true), late); }
    case Open(b) => if b !in p.m.backends { PushKeepsQueue(p, b, Entry(1, true), late); }
    case Pop => PopKeepsQueue(p, late);
    case Perform => PerformKeepsQueue(p, late);
    case _ =>
  }

  lemma OpenKeepsCount(p: Proxy, b: BackendId)
    requires CountKnown(p, b) && EntryKept(p, b) && Opened(p, b) < U32_MAX
    ensures CountKnown(Apply(p, Open(b)), b) && EntryKept(Apply(p, Open(b)), b)
  {
  }

  lemma CloseKeepsCount(p: Proxy, b: BackendId)
    requires CountKnown(p, b) && EntryKept(p, b) && Opened(p, b) > 0
    ensures CountKnown(Apply(p, Close(b)), b) && EntryKept(Apply(p, Close(b)), b)
  {
  }

  /** A visit forgets an entry only when its counter is zero. */
  lemma PerformKeepsCount(p: Proxy, b: BackendId)
    requires CountKnown(p, b) && EntryKept(p, b) && p.visitor.Holding?
    ensures CountKnown(Apply(p, Perform), b) && EntryKept(Apply(p, Perform), b)
  {
  }

  lemma StepKeepsCount(p: Proxy, step: Step, late: Time, delay: Time, b: BackendId)
    requires CountKnown(p, b) && EntryKept(p, b) && Enabled(p, step, late, delay)
    ensures CountKnown(Apply(p, step), b) && EntryKept(Apply(p, step), b)
  {
    match step
    case Open(x) => if x == b { OpenKeepsCount(p, b); }
    case Close(x) => if x == b { CloseKeepsCount(p, b); }
    case Perform => PerformKeepsCount(p, b);
    case _ =>
  }

  lemma StepKeepsCounts(p: Proxy, step: Step, late: Time, delay: Time)
    requires CountsRight(p) && Enabled(p, step, late, delay)
    ensures CountsRight(Apply(p, step))
  {
    forall b ensures CountKnown(Apply(p, step), b) && EntryKept(Apply(p, step), b) {
      assert CountKnown(p, b) && EntryKept(p, b);
      StepKeepsCount(p, step, late, delay, b);
    }
  }

  lemma PushKeepsPlanned(visitor: Visitor, q: seq<Visit>, v: Visit, b: BackendId, limit: Time)
    requires Planned(visitor, q, b, limit)
    ensures Planned(visitor, q + [v], b, limit)
  {
    if exists i :: 0 <= i < |q| && q[i].backend == b && q[i].due <= limit {
      var i :| 0 <= i < |q| && q[i].backend == b && q[i].due <= limit;
      assert (q + [v])[i] == q[i];
    }
  }

  lemma PushPlans(visitor: Visitor, q: seq<Visit>, v: Visit)
    ensures Planned(visitor, q + [v], v.backend, v.due)
  {
    assert (q + [v])[|q|] == v;
  }

  lemma TrackKeepsPlanned(p: Proxy, b: BackendId, e: Entry)
    requires AllPlanned(p)
    ensures AllPlanned(p.(m := Track(p.m, b, e, p.now), reports := Sent(p, b, true)))
  {
    var v := Visit(p.now + HEARTBEAT_INTERVAL, b);
    PushPlans(p.visitor, p.m.queue, v);
    forall other | other in p.m.backends && other != b
      ensures Planned(p.visitor, p.m.queue + [v], other, p.reports[other].latest + HEARTBEAT_INTERVAL)
    {
      PushKeepsPlanned(p.visitor, p.m.queue, v, other, p.reports[other].latest + HEARTBEAT_INTERVAL);
    }
  }

  lemma PopKeepsPlanned(p: Proxy)
    requires AllPlanned(p) && p.visitor.AtHead?
    ensures AllPlanned(Apply(p, Pop))
  {
    if p.m.queue != [] {
      forall b | b in p.m.backends
        ensures Planned(Holding(p.m.queue[0]), p.m.queue[1..], b, p.reports[b].latest + HEARTBEAT_INTERVAL)
      {
        var limit := p.reports[b].latest + HEARTBEAT_INTERVAL;
        var i :| 0 <= i < |p.m.queue| && p.m.queue[i].backend == b && p.m.queue[i].due <= limit;
        assert i > 0 ==> p.m.queue[1..][i - 1] == p.m.queue[i];
      }
    }
  }

  lemma PerformKeepsPlanned(p: Proxy)
    requires AllPlanned(p) && p.visitor.Holding?
    ensures AllPlanned(Apply(p, Perform))
  {
    var b := p.visitor.visit.backend;
    var v := Visit(p.now + HEARTBEAT_INTERVAL, b);
    forall other | other in p.m.backends && other != b
      ensures Planned(AtHead, p.m.queue, other, p.reports[other].latest + HEARTBEAT_INTERVAL)
      ensures Planned(AtHead, p.m.queue + [v], other, p.reports[other].latest + HEARTBEAT_INTERVAL)
    {
      PushKeepsPlanned(AtHead, p.m.queue, v, other, p.reports[other].latest + HEARTBEAT_INTERVAL);
    }
    PushPlans(AtHead, p.m.queue, v);
  }

  lemma StepKeepsPlanned(p: Proxy, step: Step, late: Time, delay: Time)
    requires AllPlanned(p) && Enabled(p, step, late, delay)
    ensures AllPlanned(Apply(p, step))
  {
    match step
    case TouchStep(b) => if b !in p.m.backends { TrackKeepsPlanned(p, b, Entry(0, true)); }
    case Open(b) => if b !in p.m.backends { TrackKeepsPlanned(p, b, Entry(1, true)); }
    case Pop => PopKeepsPlanned(p);
    case Perform => PerformKeepsPlanned(p);
    case _ =>
  }

  lemma {:induction false} ChainedAppend(first: Time, times: seq<Time>, latest: Time, gap: Time, t: Time)
    requires Chained(first, times, latest, gap) && latest <= t <= latest + gap
    ensures Chained(first, times + [t], t, gap)
    decreases |times|
  {
    if times == [] {
      assert Chained(t, [], t, gap);
      assert ([] + [t])[1..] == [];
    } else {
      ChainedAppend(times[0], times[1..], latest, gap, t);
      assert (times + [t])[1..] == times[1..] + [t];
    }
  }

  /** A tracked backend's latest keepalive is at most one visit, and its lateness, old. */
  lemma LatestIsRecent(p: Proxy, b: BackendId, late: Time)
    requires QueueSound(p, late) && AllPlanned(p) && b in p.m.backends
    ensures b in p.reports && p.now <= p.reports[b].latest + HEARTBEAT_INTERVAL + late
  {
    var limit := p.reports[b].latest + HEARTBEAT_INTERVAL;
    if !(p.visitor.Holding? && p.visitor.visit.backend == b && p.visitor.visit.due <= limit) {
      var i :| 0 <= i < |p.m.queue| && p.m.queue[i].backend == b && p.m.queue[i].due <= limit;
      assert p.now <= p.m.queue[i].due + late;
    }
  }

  lemma SendKeepsReport(r: Reports, now: Time, last: Option<Time>, late: Time, delay: Time)
    requires late >= 0 && delay >= 0 && ReportSound(r, now, last, late, delay)
    requires now <= r.latest + HEARTBEAT_INTERVAL + late
    ensures ReportSound(Reports(r.pending + [now], r.arrived, now), now, last, late, delay)
  {
    var gap := HEARTBEAT_INTERVAL + late;
    if r.arrived.Some? {
      ChainedAppend(r.arrived.value, r.pending, r.latest, gap, now);
    } else {
      ChainedAppend(r.pending[0], r.pending[1..], r.latest, gap, now);
      assert (r.pending + [now])[1..] == r.pending[1..] + [now];
    }
  }

  lemma PerformKeepsReports(p: Proxy, late: Time, delay: Time)
    requires late >= 0 && delay >= 0 && QueueSound(p, late) && AllPlanned(p)
    requires ReportsSound(p, late, delay) && p.visitor.Holding?
    ensures ReportsSound(Apply(p, Perform), late, delay)
  {
    var b := p.visitor.visit.backend;
    if InUse(p.m, b) {
      LatestIsRecent(p, b, late);
      SendKeepsReport(p.reports[b], p.now, Recorded(p, b), late, delay);
    }
  }

  lemma ArriveKeepsReports(p: Proxy, b: BackendId, late: Time, delay: Time)
    requires late >= 0 && delay >= 0 && ReportsSound(p, late, delay)
    requires Enabled(p, Arrive(b), late, delay)
    ensures ReportsSound(Apply(p, Arrive(b)), late, delay)
  {
    var r := p.reports[b];
    assert ReportSound(r, p.now, Recorded(p, b), late, delay);
    assert Chained(r.pending[0], r.pending[1..], r.latest, HEARTBEAT_INTERVAL + late);
    ChainEndsLast(r.pending[0], r.pending[1..], r.latest, HEARTBEAT_INTERVAL + late);
  }

  lemma {:induction false} ChainEndsLast(first: Time, times: seq<Time>, latest: Time, gap: Time)
    requires Chained(first, times, latest, gap)
    ensures first <= latest && forall i :: 0 <= i < |times| ==> first <= times[i] <= latest
    decreases |times|
  {
    if times != [] {
      ChainEndsLast(times[0], times[1..], latest, gap);
      forall i | 0 <= i < |times| ensures first <= times[i] <= latest {
        assert i > 0 ==> times[i] == times[1..][i - 1];
      }
    }
  }

  lemma StepKeepsReports(p: Proxy, step: Step, late: Time, delay: Time)
    requires late >= 0 && delay >= 0 && Inv(p, late, delay) && Enabled(p, step, late, delay)
    ensures ReportsSound(Apply(p, step), late, delay)
  {
    match step
    case Perform => PerformKeepsReports(p, late, delay);
    case Arrive(b) => ArriveKeepsReports(p, b, late, delay);
    case _ =>
  }

  lemma StepKeepsInv(p: Proxy, step: Step, late: Time, delay: Time)
    requires late >= 0 && delay >= 0 && Inv(p, late, delay) && Enabled(p, step, late, delay)
    ensures Inv(Apply(p, step), late, delay)
  {
    StepKeepsQueue(p, step, late, delay);
    StepKeepsCounts(p, step, late, delay);
    StepKeepsPlanned(p, step, late, delay);
    StepKeepsReports(p, step, late, delay);
  }

  lemma {:induction false} RunKeepsInv(p: Proxy, steps: seq<Step>, late: Time, delay: Time)
    requires late >= 0 && delay >= 0 && Inv(p, late, delay) && Valid(p, steps, late, delay)
    ensures Inv(Final(p, steps), late, delay)
    decreases |steps|
  {
    if steps != [] {
      StepKeepsInv(p, steps[0], late, delay);
      RunKeepsInv(Apply(p, steps[0]), steps[1..], late, delay);
    }
  }

  // ----- What the counter says -----

  /**
   In every run, for removed backends too: a counter is the number of connections opened less the
   number closed since its entry was made, modulo 2^32. So it is the number of open connections
   exactly when none was open at that time, it is zero exactly when as many are open as were then,
   and it can only be off for a backend that has been removed.
   */
  lemma CountIsRightIff(now: Time, last: map<BackendId, Time>, steps: seq<Step>,
                        late: Time, delay: Time, b: BackendId)
    requires late >= 0 && delay >= 0 && Valid(Fresh(now, last), steps, late, delay)
    requires b in Final(Fresh(now, last), steps).m.backends
    ensures var p := Final(Fresh(now, last), steps);
            && b in p.before
            && p.m.backends[b].active == (Opened(p, b) - p.before[b]) % TWO_TO_THE_32
            && (p.m.backends[b].active == Opened(p, b) <==> p.before[b] == 0)
            && (p.m.backends[b].active == 0 <==> p.before[b] == Opened(p, b))
            && (p.before[b] > 0 ==> b in p.gone)
  {
    RunKeepsInv(Fresh(now, last), steps, late, delay);
    var p := Final(Fresh(now, last), steps);
    assert CountKnown(p, b) && EntryKept(p, b);
  }

  /** Closing a connection raises the counter exactly when as many are open as were at its start. */
  lemma WrapIff(p: Proxy, b: BackendId)
    requires CountsRight(p) && b in p.m.backends && Opened(p, b) > 0
    ensures b in p.before
    ensures Apply(p, Close(b)).m.backends[b].active > p.m.backends[b].active
            <==> p.before[b] == Opened(p, b)
  {
    assert CountKnown(p, b);
  }

  /** From every sound state: a removal with one connection open, a touch, and its close wraps. */
  lemma RemovalCanWrapACount(p: Proxy, b: BackendId)
    requires CountsRight(p) && Opened(p, b) == 1
    ensures var late := Apply(Apply(Apply(p, Gone(b)), TouchStep(b)), Close(b));
            b in late.m.backends && late.m.backends[b].active == 4_294_967_295 && Opened(late, b) == 0
  {
  }

  /**
   From every sound state: a removal with one connection open, another one opened, and either
   closed leaves a counter of zero with a connection open, which two visits then forget.
   */
  lemma RemovalCanHideAConnection(p: Proxy, b: BackendId)
    requires CountsRight(p) && Opened(p, b) == 1
    ensures var later := Apply(Apply(Apply(p, Gone(b)), Open(b)), Close(b));
            && b in later.m.backends && later.m.backends[b].active == 0 && Opened(later, b) == 1
            && forall t, u :: b !in Visited(Visited(later.m, b, t), b, u).backends
  {
  }

  // ----- How long a backend is tracked -----

  /** Clients come and go, and backends terminate, at any time; one that has come may go again. */
  lemma ClientsAreFree(p: Proxy, b: BackendId, late: Time, delay: Time)
    ensures Enabled(p, TouchStep(b), late, delay) && Enabled(p, Gone(b), late, delay)
    ensures Enabled(p, Open(b), late, delay) <==> Opened(p, b) < 4_294_967_295
    ensures Enabled(p, Open(b), late, delay) ==>
              var more := Apply(p, Open(b));
              && Enabled(more, Close(b), late, delay)
              && Opened(more, b) == Opened(p, b) + 1 && Opened(Apply(more, Close(b)), b) == Opened(p, b)
  {
  }

  /** As long as a connection is open, no visit forgets the backend, and each one reports it. */
  lemma OpenIsVisited(m: Monitor, b: BackendId, now: Time, t: Time)
    requires b in m.backends ==> m.backends[b].active < U32_MAX
    ensures var counted := Inc(m, b, now);
            && InUse(counted, b) && InUse(Visited(counted, b, t), b)
            && Visit(t + 7_000_000, b) in Visited(counted, b, t).queue
            && Visited(counted, b, t).backends[b].active == counted.backends[b].active
  {
    var counted := Inc(m, b, now);
    var q := Visited(counted, b, t).queue;
    assert q[|q| - 1] == Visit(t + 7_000_000, b);
  }

  /**
   A touch, or a connection that has closed again, is reported at the next visit, and forgotten at
   the one after it.
   */
  lemma TouchLastsOneVisit(m: Monitor, b: BackendId, now: Time, t: Time, u: Time)
    requires b in m.backends ==> m.backends[b].active == 0
    ensures var touched, closed := Touch(m, b, now), Dec(Inc(m, b, now), b);
            && InUse(touched, b) && InUse(closed, b)
            && b in Visited(touched, b, t).backends && !InUse(Visited(touched, b, t), b)
            && b in Visited(closed, b, t).backends && !InUse(Visited(closed, b, t), b)
            && b !in Visited(Visited(touched, b, t), b, u).backends
            && b !in Visited(Visited(closed, b, t), b, u).backends
  {
  }

  /** What is done to one backend leaves the entries of the others alone. */
  lemma OthersAreLeftAlone(m: Monitor, b: BackendId, x: BackendId, now: Time)
    requires x != b
    ensures forall n :: n in {Touch(m, b, now), Inc(m, b, now), Dec(m, b), Remove(m, b), Visited(m, b, now)} ==>
              (x in n.backends <==> x in m.backends)
              && (x in m.backends ==> n.backends[x] == m.backends[x])
  {
  }

  // ----- Open connections and the sweep -----

  /** How far behind a recorded keepalive may be. */
  function Behind(late: Time, delay: Time): Time {
    HEARTBEAT_INTERVAL + late + delay
  }

  /**
   In every run with timers at most `late` and keepalives at most `delay` behind, a backend with
   an open connection is tracked and counted, and either its recorded keepalive is no older than
   an interval plus both, or the first keepalive since it is tracked left at most `delay` ago and
   is still on its way.
   */
  lemma OpenConnectionsAreKeptAlive(now: Time, last: map<BackendId, Time>, steps: seq<Step>,
                                    late: Time, delay: Time, b: BackendId)
    requires late >= 0 && delay >= 0 && Valid(Fresh(now, last), steps, late, delay)
    requires var p := Final(Fresh(now, last), steps); b !in p.gone && Opened(p, b) > 0
    ensures var p := Final(Fresh(now, last), steps);
            && b in p.m.backends && p.m.backends[b].active == Opened(p, b)
            && b in p.reports
            && (p.reports[b].arrived.Some? ==>
                  b in p.lastKeepalive && p.now - p.lastKeepalive[b] <= Behind(late, delay))
            && (p.reports[b].arrived.None? ==>
                  p.reports[b].pending != [] && p.now - p.reports[b].pending[0] <= delay)
  {
    RunKeepsInv(Fresh(now, last), steps, late, delay);
    KeptAlive(Final(Fresh(now, last), steps), late, delay, b);
  }

  lemma KeptAlive(p: Proxy, late: Time, delay: Time, b: BackendId)
    requires late >= 0 && delay >= 0 && Inv(p, late, delay) && b !in p.gone && Opened(p, b) > 0
    ensures b in p.m.backends && p.m.backends[b].active == Opened(p, b) && b in p.reports
    ensures p.reports[b].arrived.Some? ==>
              b in p.lastKeepalive && p.now - p.lastKeepalive[b] <= Behind(late, delay)
    ensures p.reports[b].arrived.None? ==>
              p.reports[b].pending != [] && p.now - p.reports[b].pending[0] <= delay
  {
    assert CountKnown(p, b) && EntryKept(p, b);
    LatestIsRecent(p, b, late);
    assert ReportSound(p.reports[b], p.now, Recorded(p, b), late, delay);
  }

  predicate Ended(row: Tables.BackendRow, now: Time) {
    row.expiration.Some? && row.expiration.value < now
  }

  predicate Idle(row: Tables.BackendRow, now: Time) {
    row.allowedIdle.Some? && row.allowedIdle.value * SECOND < now - row.lastKeepalive
  }

  predicate Running(row: Tables.BackendRow) {
    row.status != BackendStates.Scheduled && row.status != BackendStates.Terminated
  }

  /**
   So if its idle limit is at least that long, the sweep takes it exactly when its lifetime is
   over, or when it is idle by its row and its first keepalive is still on its way; and then it had
   come within `delay` of its limit before it was tracked. Other proxies may keep it alive too.
   */
  lemma OpenConnectionsAreNotSwept(now: Time, last: map<BackendId, Time>, steps: seq<Step>,
                                   late: Time, delay: Time, b: BackendId, db: Tables.Db)
    requires late >= 0 && delay >= 0 && Valid(Fresh(now, last), steps, late, delay)
    requires var p := Final(Fresh(now, last), steps);
             && b !in p.gone && Opened(p, b) > 0
             && db.now == p.now && b in db.backends
             && (b in p.lastKeepalive ==> db.backends[b].lastKeepalive >= p.lastKeepalive[b])
    requires db.backends[b].allowedIdle.Some? ==>
               db.backends[b].allowedIdle.value * SECOND >= Behind(late, delay)
    ensures var p := Final(Fresh(now, last), steps);
            var row := db.backends[b];
            && b in p.reports
            && (Tables.Sweepable(db, b)
                <==> Running(row)
                     && (Ended(row, db.now) || (Idle(row, db.now) && p.reports[b].arrived.None?)))
            && (Idle(row, db.now) ==>
                  && p.reports[b].arrived.None? && p.reports[b].pending != []
                  && p.reports[b].pending[0] - row.lastKeepalive
                     > row.allowedIdle.value * SECOND - delay)
  {
    OpenConnectionsAreKeptAlive(now, last, steps, late, delay, b);
  }

  /** A connection to a backend that has been idle for too long does not save it at once. */
  lemma FreshConnectionCanBeSwept(b: BackendId, db: Tables.Db, late: Time, delay: Time)
    requires b in db.backends && Running(db.backends[b]) && db.now == 100 * SECOND
    requires db.backends[b].allowedIdle == Some(60) && db.backends[b].lastKeepalive == 0
    ensures var p := Fresh(100 * SECOND, map[b := 0]);
            && Valid(p, [Open(b)], late, delay)
            && Opened(Final(p, [Open(b)]), b) == 1 && Final(p, [Open(b)]).now == db.now
            && Tables.Sweepable(db, b)
  {
    var p := Fresh(100 * SECOND, map[b := 0]);
    assert [Open(b)][1..] == [];
    assert Final(Apply(p, Open(b)), []) == Apply(p, Open(b));
  }

  // ----- Exactly which openings come too late -----

  predicate Stays(steps: seq<Step>, b: BackendId) {
    forall i :: 0 <= i < |steps| ==> steps[i] != Close(b) && steps[i] != Gone(b)
  }

  /** As long as no keepalive has arrived, the one of the opening is the first on its way. */
  ghost predicate Opening(p: Proxy, b: BackendId, at: Time, last: Time) {
    && b !in p.gone && Opened(p, b) > 0 && b in p.reports
    && (p.reports[b].arrived.None? ==>
          && p.reports[b].pending != [] && p.reports[b].pending[0] == at
          && Recorded(p, b) == Some(last))
  }

  lemma StepKeepsOpening(p: Proxy, step: Step, late: Time, delay: Time, b: BackendId, at: Time, last: Time)
    requires CountsRight(p) && Enabled(p, step, late, delay) && Opening(p, b, at, last)
    requires step != Close(b) && step != Gone(b)
    ensures Opening(Apply(p, step), b, at, last)
  {
    assert EntryKept(p, b);
  }

  lemma {:induction false} RunKeepsOpening(p: Proxy, steps: seq<Step>, late: Time, delay: Time,
                                           b: BackendId, at: Time, last: Time)
    requires late >= 0 && delay >= 0 && Inv(p, late, delay) && Valid(p, steps, late, delay)
    requires Opening(p, b, at, last) && Stays(steps, b)
    ensures Opening(Final(p, steps), b, at, last)
    decreases |steps|
  {
    if steps != [] {
      StepKeepsOpening(p, steps[0], late, delay, b, at, last);
      StepKeepsInv(p, steps[0], late, delay);
      RunKeepsOpening(Apply(p, steps[0]), steps[1..], late, delay, b, at, last);
    }
  }

  lemma Unfold(p: Proxy, step: Step, steps: seq<Step>, late: Time, delay: Time)
    ensures Valid(p, [step] + steps, late, delay)
            <==> Enabled(p, step, late, delay) && Valid(Apply(p, step), steps, late, delay)
    ensures Final(p, [step] + steps) == Final(Apply(p, step), steps)
  {
    assert ([step] + steps)[1..] == steps;
  }

  lemma {:induction false} RunConcat(p: Proxy, xs: seq<Step>, ys: seq<Step>, late: Time, delay: Time)
    requires Valid(p, xs, late, delay) && Valid(Final(p, xs), ys, late, delay)
    ensures Valid(p, xs + ys, late, delay) && Final(p, xs + ys) == Final(Final(p, xs), ys)
    decreases |xs|
  {
    if xs == [] {
      assert xs + ys == ys;
    } else {
      RunConcat(Apply(p, xs[0]), xs[1..], ys, late, delay);
      assert (xs + ys)[1..] == xs[1..] + ys;
    }
  }

  // ----- Letting time pass -----

  /** A backend in use whose keepalives are on their way since `at`. */
  ghost predicate Underway(p: Proxy, b: BackendId, at: Time) {
    && b !in p.gone && Opened(p, b) > 0
    && b in p.reports && p.reports[b].pending != [] && p.reports[b].pending[0] == at
  }

  /** Nothing else is on its way. */
  ghost predicate OthersQuiet(p: Proxy, b: BackendId) {
    forall x :: x in p.reports && x != b ==> p.reports[x].pending == []
  }

  /** The same for `b`, and no later. */
  ghost predicate SameFor(p: Proxy, q: Proxy, b: BackendId) {
    && q.now == p.now && q.m == p.m && q.visitor == p.visitor && q.open == p.open && q.gone == p.gone
    && q.reports.Keys == p.reports.Keys && (b in p.reports ==> q.reports[b] == p.reports[b])
    && Recorded(q, b) == Recorded(p, b)
  }

  /** All keepalives of another backend may arrive at once. */
  lemma {:induction false} FlushOne(p: Proxy, b: BackendId, x: BackendId, late: Time, delay: Time)
    returns (steps: seq<Step>)
    requires x != b && x in p.reports
    ensures Valid(p, steps, late, delay) && Stays(steps, b) && SameFor(p, Final(p, steps), b)
    ensures var q := Final(p, steps);
            x in q.reports && q.reports[x].pending == []
            && forall y :: y in p.reports && y != x ==> q.reports[y] == p.reports[y]
    decreases |p.reports[x].pending|
  {
    if p.reports[x].pending == [] {
      steps := [];
    } else {
      var next := Apply(p, Arrive(x));
      var more := FlushOne(next, b, x, late, delay);
      steps := [Arrive(x)] + more;
      Unfold(p, Arrive(x), more, late, delay);
    }
  }

  function Noisy(p: Proxy, b: BackendId): set<BackendId> {
    set x | x in p.reports && x != b && p.reports[x].pending != []
  }

  lemma {:induction false} FlushAll(p: Proxy, b: BackendId, late: Time, delay: Time)
    returns (steps: seq<Step>)
    ensures Valid(p, steps, late, delay) && Stays(steps, b) && SameFor(p, Final(p, steps), b)
    ensures OthersQuiet(Final(p, steps), b)
    decreases |Noisy(p, b)|
  {
    if Noisy(p, b) == {} {
      steps := [];
      assert forall x :: x in p.reports && x != b && p.reports[x].pending != [] ==> x in Noisy(p, b);
    } else {
      var x :| x in Noisy(p, b);
      var first := FlushOne(p, b, x, late, delay);
      var q := Final(p, first);
      assert Noisy(q, b) == Noisy(p, b) - {x};
      var more := FlushAll(q, b, late, delay);
      steps := first + more;
      RunConcat(p, first, more, late, delay);
    }
  }

  /** How often something due at `due` can come up again before `end`. */
  function Rounds(due: Time, end: Time): nat {
    if end <= due then 0 else (end - due) / HEARTBEAT_INTERVAL + 1
  }

  function QueueWork(q: seq<Visit>, end: Time): nat
    decreases |q|
  {
    if q == [] then 0 else 2 * Rounds(q[0].due, end) + QueueWork(q[1..], end)
  }

  /** A bound on the visitor's turns before `end`. */
  function Work(p: Proxy, end: Time): nat {
    QueueWork(p.m.queue, end) +
    match p.visitor
    case Holding(v) => 2 * Rounds(v.due, end)
    case Asleep(until) => 2 * Rounds(until, end)
    case AtHead => if p.m.queue != [] || end <= p.now then 1 else 2 * Rounds(p.now, end) - 1
  }

  lemma {:induction false} QueueWorkAppend(q: seq<Visit>, v: Visit, end: Time)
    ensures QueueWork(q + [v], end) == QueueWork(q, end) + 2 * Rounds(v.due, end)
    decreases |q|
  {
    if q == [] {
      assert (q + [v])[1..] == [];
      assert QueueWork([], end) == 0;
    } else {
      assert (q + [v])[1..] == q[1..] + [v];
      QueueWorkAppend(q[1..], v, end);
    }
  }

  lemma RoundsDrop(due: Time, again: Time, end: Time)
    requires due < end && due + HEARTBEAT_INTERVAL <= again
    ensures Rounds(again, end) < Rounds(due, end)
  {
    if again < end {
      assert (end - again) / HEARTBEAT_INTERVAL <= (end - due - HEARTBEAT_INTERVAL) / HEARTBEAT_INTERVAL;
    }
  }

  lemma LaterNeedsFewer(due: Time, again: Time, end: Time)
    requires due <= again
    ensures Rounds(again, end) <= Rounds(due, end)
  {
  }

  /** When the visitor's next own turn is due. */
  function Turn(p: Proxy): Time {
    match p.visitor
    case Holding(v) => Max(p.now, v.due)
    case Asleep(until) => Max(p.now, until)
    case AtHead => p.now
  }

  /** Time may pass up to the visitor's turn. */
  lemma TickTo(p: Proxy, b: BackendId, at: Time, t: Time, late: Time, delay: Time)
    requires late >= 0 && delay >= 0 && Inv(p, late, delay) && Underway(p, b, at) && OthersQuiet(p, b)
    requires p.now < t <= Turn(p) && t <= at + delay
    ensures Enabled(p, Tick(t - p.now), late, delay)
    ensures Apply(p, Tick(t - p.now)) == p.(now := t)
  {
  }

  /** The visitor's own turn, once it is due. */
  function TurnStep(p: Proxy): Step {
    match p.visitor
    case AtHead => Pop
    case Asleep(_) => WakeUp
    case Holding(_) => Perform
  }

  lemma TurnIsWork(p: Proxy, end: Time)
    requires Turn(p) == p.now < end
    requires p.visitor.Asleep? ==> p.visitor.until <= p.now
    ensures Work(Apply(p, TurnStep(p)), end) < Work(p, end)
  {
    match p.visitor
    case AtHead => if p.m.queue == [] { RoundsDrop(p.now, p.now + HEARTBEAT_INTERVAL, end); }
    case Asleep(until) => LaterNeedsFewer(until, p.now, end);
    case Holding(v) =>
      var again := Visit(p.now + HEARTBEAT_INTERVAL, v.backend);
      QueueWorkAppend(p.m.queue, again, end);
      RoundsDrop(v.due, again.due, end);
      LaterNeedsFewer(v.due, p.now, end);
  }

  lemma TurnKeepsUnderway(p: Proxy, b: BackendId, at: Time, late: Time, delay: Time)
    requires Inv(p, late, delay) && Underway(p, b, at) && OthersQuiet(p, b)
    ensures var q := Apply(p, TurnStep(p));
            && Underway(q, b, at) && q.now == p.now && Recorded(q, b) == Recorded(p, b)
            && q.reports[b].arrived == p.reports[b].arrived
  {
    assert EntryKept(p, b);
  }

  /**
   From every sound state: until the first keepalive of `b` on its way must arrive, time can pass
   with `b` hearing nothing, whatever else the proxy tracks.
   */
  lemma {:induction false} CanWait(p: Proxy, b: BackendId, at: Time, end: Time, late: Time, delay: Time)
    returns (steps: seq<Step>)
    requires late >= 0 && delay >= 0 && Inv(p, late, delay) && Underway(p, b, at) && OthersQuiet(p, b)
    requires p.now <= end <= at + delay
    ensures Valid(p, steps, late, delay) && Stays(steps, b)
    ensures Final(p, steps).now == end && Recorded(Final(p, steps), b) == Recorded(p, b)
    decreases Work(p, end)
  {
    if p.now == end {
      steps := [];
    } else if !p.visitor.AtHead? && end <= Turn(p) {
      TickTo(p, b, at, end, late, delay);
      steps := [Tick(end - p.now)] + [];
      Unfold(p, Tick(end - p.now), [], late, delay);
    } else {
      steps := TakeTurn(p, b, at, end, late, delay);
      var q := Final(p, steps);
      RunKeepsInv(p, steps, late, delay);
      var more := CanWait(q, b, at, end, late, delay);
      RunConcat(p, steps, more, late, delay);
      steps := steps + more;
    }
  }

  /** Up to the visitor's turn, the turn, and what it made others send. */
  lemma TakeTurn(p: Proxy, b: BackendId, at: Time, end: Time, late: Time, delay: Time)
    returns (steps: seq<Step>)
    requires late >= 0 && delay >= 0 && Inv(p, late, delay) && Underway(p, b, at) && OthersQuiet(p, b)
    requires p.now < end <= at + delay && Turn(p) < end
    ensures Valid(p, steps, late, delay) && Stays(steps, b)
    ensures var q := Final(p, steps);
            && Underway(q, b, at) && OthersQuiet(q, b) && p.now <= q.now < end
            && Recorded(q, b) == Recorded(p, b) && Work(q, end) < Work(p, end)
  {
    var due := p.(now := Turn(p));
    steps := ReachTurn(p, b, at, late, delay);
    RunKeepsInv(p, steps, late, delay);
    TurnIsWork(due, end);
    var more := TurnAndFlush(due, b, at, end, late, delay);
    RunConcat(p, steps, more, late, delay);
    steps := steps + more;
  }

  lemma ReachTurn(p: Proxy, b: BackendId, at: Time, late: Time, delay: Time) returns (steps: seq<Step>)
    requires late >= 0 && delay >= 0 && Inv(p, late, delay) && Underway(p, b, at) && OthersQuiet(p, b)
    requires Turn(p) <= at + delay
    ensures Valid(p, steps, late, delay) && Stays(steps, b) && Final(p, steps) == p.(now := Turn(p))
  {
    var t := Turn(p);
    steps := [];
    if p.now < t {
      TickTo(p, b, at, t, late, delay);
      steps := [Tick(t - p.now)] + [];
      Unfold(p, Tick(t - p.now), [], late, delay);
    }
  }

  lemma TurnAndFlush(p: Proxy, b: BackendId, at: Time, end: Time, late: Time, delay: Time)
    returns (steps: seq<Step>)
    requires Inv(p, late, delay) && Underway(p, b, at) && OthersQuiet(p, b) && Turn(p) == p.now
    requires Work(Apply(p, TurnStep(p)), end) < Work(p, end)
    ensures Valid(p, steps, late, delay) && Stays(steps, b)
    ensures var q := Final(p, steps);
            && Underway(q, b, at) && OthersQuiet(q, b) && q.now == p.now
            && Recorded(q, b) == Recorded(p, b) && Work(q, end) < Work(p, end)
  {
    TurnKeepsUnderway(p, b, at, late, delay);
    var taken := Apply(p, TurnStep(p));
    var flush := FlushAll(taken, b, late, delay);
    steps := [TurnStep(p)] + flush;
    Unfold(p, TurnStep(p), flush, late, delay);
  }

  // ----- The two ways to be found idle -----

  /** The run opens a connection, keeps it, and ends with the backend idle for longer than `limit`. */
  ghost predicate IdleAfterOpening(p: Proxy, limit: Time, late: Time, delay: Time, b: BackendId,
                                   steps: seq<Step>)
  {
    && Stays(steps, b) && Valid(p, [Open(b)] + steps, late, delay)
    && var q := Final(p, [Open(b)] + steps);
       b in q.lastKeepalive && limit < q.now - q.lastKeepalive[b]
  }

  lemma FreshIsSound(now: Time, last: map<BackendId, Time>, late: Time, delay: Time)
    requires late >= 0 && delay >= 0
    ensures Inv(Fresh(now, last), late, delay)
  {
  }

  /** A backend the proxy does not track, never removed, with a keepalive on record. */
  ghost predicate Untracked(p: Proxy, b: BackendId, last: Time) {
    b !in p.m.backends && b !in p.gone && Recorded(p, b) == Some(last)
  }

  lemma OpeningBegins(p: Proxy, b: BackendId, last: Time, late: Time, delay: Time)
    requires late >= 0 && delay >= 0 && Inv(p, late, delay) && Untracked(p, b, last)
    ensures Enabled(p, Open(b), late, delay)
    ensures var q := Apply(p, Open(b));
            && Inv(q, late, delay) && Underway(q, b, p.now) && Opening(q, b, p.now, last)
            && q.now == p.now && Recorded(q, b) == Some(last)
  {
    assert EntryKept(p, b);
    StepKeepsInv(p, Open(b), late, delay);
  }

  lemma IdleMeansTooLate(p: Proxy, last: Time, limit: Time, late: Time, delay: Time, b: BackendId,
                         steps: seq<Step>)
    requires late >= 0 && delay >= 0 && limit >= Behind(late, delay)
    requires Inv(p, late, delay) && Untracked(p, b, last)
    requires IdleAfterOpening(p, limit, late, delay, b, steps)
    ensures limit < p.now + delay - last
  {
    var begun := Apply(p, Open(b));
    OpeningBegins(p, b, last, late, delay);
    Unfold(p, Open(b), steps, late, delay);
    RunKeepsOpening(begun, steps, late, delay, b, p.now, last);
    RunKeepsInv(begun, steps, late, delay);
    KeptAlive(Final(begun, steps), late, delay, b);
  }

  lemma TooLateCanBeIdle(p: Proxy, last: Time, limit: Time, late: Time, delay: Time, b: BackendId)
    returns (steps: seq<Step>)
    requires late >= 0 && delay >= 0 && Inv(p, late, delay) && Untracked(p, b, last)
    requires limit < p.now + delay - last
    ensures IdleAfterOpening(p, limit, late, delay, b, steps)
  {
    var begun := Apply(p, Open(b));
    OpeningBegins(p, b, last, late, delay);
    var flush := FlushAll(begun, b, late, delay);
    RunKeepsInv(begun, flush, late, delay);
    var quiet := Final(begun, flush);
    var wait := CanWait(quiet, b, p.now, p.now + delay, late, delay);
    steps := flush + wait;
    RunConcat(begun, flush, wait, late, delay);
    Unfold(p, Open(b), steps, late, delay);
  }

  /**
   From every sound state of a proxy that does not track the backend: a connection that is opened
   and stays open can find it idle beyond its limit, all keepalives being in time, exactly when it
   had been idle for more than its limit less `delay`.
   */
  lemma OpeningTooLateIff(p: Proxy, last: Time, limit: Time, late: Time, delay: Time, b: BackendId)
    requires late >= 0 && delay >= 0 && limit >= Behind(late, delay)
    requires Inv(p, late, delay) && Untracked(p, b, last)
    ensures (exists steps :: IdleAfterOpening(p, limit, late, delay, b, steps))
            <==> limit < p.now + delay - last
  {
    if steps :| IdleAfterOpening(p, limit, late, delay, b, steps) {
      IdleMeansTooLate(p, last, limit, late, delay, b, steps);
    }
    if limit < p.now + delay - last {
      var steps := TooLateCanBeIdle(p, last, limit, late, delay, b);
    }
  }

  /** Its first keepalive arrives at once, and the next leaves as late as it may. */
  function Slow(b: BackendId, late: Time): seq<Step> {
    [Pop] + ([Arrive(b)] + ([Tick(HEARTBEAT_INTERVAL + late)] + ([Perform] + [])))
  }

  /** One backend, in use and heard of just now, its next visit in the visitor's hand. */
  ghost predicate JustHeard(p: Proxy, b: BackendId) {
    && p.visitor == Holding(Visit(p.now + HEARTBEAT_INTERVAL, b)) && InUse(p.m, b)
    && b !in p.gone && Opened(p, b) > 0 && Recorded(p, b) == Some(p.now)
    && p.reports.Keys == {b} && p.reports[b].pending == []
  }

  lemma HeardAtOnce(now: Time, last: Time, late: Time, delay: Time, b: BackendId)
    ensures var p := Apply(Fresh(now, map[b := last]), Open(b));
            && Enabled(p, Pop, late, delay)
            && Enabled(Apply(p, Pop), Arrive(b), late, delay)
            && JustHeard(Apply(Apply(p, Pop), Arrive(b)), b)
            && Apply(Apply(p, Pop), Arrive(b)).now == now
  {
    assert [now][1..] == [];
  }

  lemma NextLeavesLate(p: Proxy, late: Time, delay: Time, b: BackendId)
    requires late >= 0 && JustHeard(p, b)
    ensures var t := Tick(HEARTBEAT_INTERVAL + late);
            && Enabled(p, t, late, delay) && Enabled(Apply(p, t), Perform, late, delay)
            && var q := Apply(Apply(p, t), Perform);
               && q.now == p.now + HEARTBEAT_INTERVAL + late && Recorded(q, b) == Some(p.now)
               && Underway(q, b, q.now) && OthersQuiet(q, b)
  {
  }

  lemma SlowRuns(p: Proxy, late: Time, delay: Time, b: BackendId)
    requires late >= 0 && delay >= 0
    requires Enabled(p, Pop, late, delay) && Enabled(Apply(p, Pop), Arrive(b), late, delay)
    requires JustHeard(Apply(Apply(p, Pop), Arrive(b)), b)
    ensures Valid(p, Slow(b, late), late, delay) && Stays(Slow(b, late), b)
    ensures var q := Final(p, Slow(b, late));
            && q.now == p.now + HEARTBEAT_INTERVAL + late && Recorded(q, b) == Some(p.now)
            && Underway(q, b, q.now) && OthersQuiet(q, b)
  {
    NextLeavesLate(Apply(Apply(p, Pop), Arrive(b)), late, delay, b);
    FourSteps(p, Pop, Arrive(b), Tick(HEARTBEAT_INTERVAL + late), Perform, late, delay);
  }

  lemma FourSteps(p: Proxy, a: Step, b: Step, c: Step, d: Step, late: Time, delay: Time)
    requires Enabled(p, a, late, delay) && Enabled(Apply(p, a), b, late, delay)
    requires Enabled(Apply(Apply(p, a), b), c, late, delay)
    requires Enabled(Apply(Apply(Apply(p, a), b), c), d, late, delay)
    ensures var steps := [a] + ([b] + ([c] + ([d] + [])));
            && Valid(p, steps, late, delay)
            && Final(p, steps) == Apply(Apply(Apply(Apply(p, a), b), c), d)
  {
    var p1 := Apply(p, a);
    var p2 := Apply(p1, b);
    var p3 := Apply(p2, c);
    Unfold(p3, d, [], late, delay);
    Unfold(p2, c, [d] + [], late, delay);
    Unfold(p1, b, [c] + ([d] + []), late, delay);
    Unfold(p, a, [b] + ([c] + ([d] + [])), late, delay);
  }

  /** The bound is tight: a backend in use can be idle for an interval plus both delays. */
  lemma BehindIsTight(now: Time, last: Time, late: Time, delay: Time, b: BackendId)
    returns (steps: seq<Step>)
    requires late >= 0 && delay >= 0
    ensures Stays(steps, b) && Valid(Fresh(now, map[b := last]), [Open(b)] + steps, late, delay)
    ensures var q := Final(Fresh(now, map[b := last]), [Open(b)] + steps);
            Recorded(q, b) == Some(now) && q.now - now == Behind(late, delay)
  {
    var p := Fresh(now, map[b := last]);
    var begun := Apply(p, Open(b));
    FreshIsSound(now, map[b := last], late, delay);
    StepKeepsInv(p, Open(b), late, delay);
    HeardAtOnce(now, last, late, delay, b);
    SlowRuns(begun, late, delay, b);
    var slow := Slow(b, late);
    RunKeepsInv(begun, slow, late, delay);
    var q := Final(begun, slow);
    var wait := CanWait(q, b, q.now, q.now + delay, late, delay);
    RunConcat(begun, slow, wait, late, delay);
    steps := slow + wait;
    Unfold(p, Open(b), steps, late, delay);
  }

  /**
   So from a new proxy, for every idle limit: a connection that is opened and stays open can find
   its backend idle beyond the limit exactly when the limit is below an interval plus both delays,
   or the backend had been idle for more than the limit less `delay`.
   */
  lemma IdleLimitIff(now: Time, last: Time, limit: Time, late: Time, delay: Time, b: BackendId)
    requires late >= 0 && delay >= 0
    ensures (exists steps :: IdleAfterOpening(Fresh(now, map[b := last]), limit, late, delay, b, steps))
            <==> limit < Behind(late, delay) || limit < now + delay - last
  {
    var p := Fresh(now, map[b := last]);
    FreshIsSound(now, map[b := last], late, delay);
    if limit < Behind(late, delay) {
      var steps := BehindIsTight(now, last, late, delay, b);
      assert IdleAfterOpening(p, limit, late, delay, b, steps);
    } else {
      OpeningTooLateIff(p, last, limit, late, delay, b);
    }
  }
}
