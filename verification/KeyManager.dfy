/**
 The drone's side of the lease: the loop that renews a key and terminates its backend when
 renewal fails, and the table of such loops (plane/src/drone/key_manager.rs).
 */
module KeyManager {
  import opened Basics
  import opened BackendStates
  import opened Tables
  import Lease

  datatype Decision = Wait | Renew | SoftStop | HardStop

  function Decide(d: Deadlines, now: Time): Decision {
    if now >= d.hardAt then HardStop
    else if now >= d.softAt then SoftStop
    else if now >= d.renewAt then Renew
    else Wait
  }

  /**
   One pass of the loop as its surroundings see it: the clock it reads first, the clock it puts
   in a renewal request, and whether the executor accepts a terminate action.
   */
  datatype Wake = Wake(now: Time, sendTime: Time, accepted: bool)

  datatype Effect =
    | Nothing
    | Requested(localTime: Time)
    | Stopped(kind: TerminationKind, at: Time, accepted: bool)

  function EffectOf(d: Deadlines, connected: bool, w: Wake): Effect {
    match Decide(d, w.now)
    case HardStop => Stopped(Hard, w.now, w.accepted)
    case SoftStop => Stopped(Soft, w.now, w.accepted)
    case Renew => if connected then Requested(w.sendTime) else Nothing
    case Wait => Nothing
  }

  /** The earliest next pass: the loop sleeps until then. */
  function SleepsUntil(d: Deadlines, w: Wake): Time {
    match Decide(d, w.now)
    case HardStop => w.now + SECOND
    case SoftStop => if w.accepted then d.hardAt else w.now + SECOND
    case Renew => d.softAt
    case Wait => d.renewAt
  }

  /**
   The loop, run until it ends by itself or its task is aborted after the given passes. Every
   pass has the effect its clock reading calls for, and only an accepted hard stop ends it.
   */
  method RenewKeyLoop(d: Deadlines, connected: bool, wakes: seq<Wake>)
    returns (log: seq<Effect>, ended: bool)
    ensures |log| <= |wakes|
    ensures forall k :: 0 <= k < |log| ==> log[k] == EffectOf(d, connected, wakes[k])
    ensures forall k :: 0 <= k < |log| - 1 ==> !(d.hardAt <= wakes[k].now && wakes[k].accepted)
    ensures ended <==> log != [] && d.hardAt <= wakes[|log| - 1].now && wakes[|log| - 1].accepted
    ensures !ended ==> |log| == |wakes|
  {
    log, ended := [], false;
    var i := 0;
    while i < |wakes|
      invariant 0 <= i <= |wakes| && i == |log|
      invariant forall k :: 0 <= k < i ==> log[k] == EffectOf(d, connected, wakes[k])
      invariant forall k :: 0 <= k < i ==> !(d.hardAt <= wakes[k].now && wakes[k].accepted)
      invariant !ended
    {
      var w := wakes[i];
      i := i + 1;
      if w.now >= d.hardAt {
        log := log + [Stopped(Hard, w.now, w.accepted)];
        if !w.accepted {
          continue;
        }
        ended := true;
        return;
      }
      if w.now >= d.softAt {
        log := log + [Stopped(Soft, w.now, w.accepted)];
        continue;
      }
      if w.now >= d.renewAt {
        log := log + [if connected then Requested(w.sendTime) else Nothing];
        continue;
      }
      log := log + [Nothing];
    }
  }

  // ----- What the passes of one loop add up to -----

  predicate OrderedDeadlines(d: Deadlines) {
    d.renewAt <= d.softAt <= d.hardAt
  }

  /** A log of the loop, as its contract describes it. */
  ghost predicate LoopLog(d: Deadlines, connected: bool, wakes: seq<Wake>, log: seq<Effect>) {
    && |log| <= |wakes|
    && (forall k :: 0 <= k < |log| ==> log[k] == EffectOf(d, connected, wakes[k]))
    && (forall k :: 0 <= k < |log| - 1 ==> !(d.hardAt <= wakes[k].now && wakes[k].accepted))
  }

  /** Each pass happens no earlier than the previous one slept for. */
  ghost predicate Slept(d: Deadlines, wakes: seq<Wake>) {
    forall k :: 0 <= k < |wakes| - 1 ==> SleepsUntil(d, wakes[k]) <= wakes[k + 1].now
  }

  /** No stop before the soft deadline, no hard stop before the hard one, none missed after it. */
  lemma StopsOnTime(d: Deadlines, connected: bool, wakes: seq<Wake>, log: seq<Effect>, k: nat)
    requires OrderedDeadlines(d) && LoopLog(d, connected, wakes, log) && k < |log|
    ensures log[k].Stopped? <==> d.softAt <= wakes[k].now
    ensures log[k].Stopped? ==> log[k].at == wakes[k].now
    ensures log[k].Stopped? && log[k].kind == Hard <==> d.hardAt <= wakes[k].now
  {
    assert log[k] == EffectOf(d, connected, wakes[k]);
  }

  /** Between the renew and the soft deadline a connected loop asks, and otherwise it does nothing. */
  lemma AsksOnTime(d: Deadlines, connected: bool, wakes: seq<Wake>, log: seq<Effect>, k: nat)
    requires OrderedDeadlines(d) && LoopLog(d, connected, wakes, log) && k < |log|
    ensures log[k].Requested? <==> connected && d.renewAt <= wakes[k].now < d.softAt
    ensures log[k].Requested? ==> log[k].localTime == wakes[k].sendTime
    ensures log[k] == Nothing
            <==> wakes[k].now < d.renewAt || (!connected && wakes[k].now < d.softAt)
    ensures log[k].Stopped? ==> log[k].accepted == wakes[k].accepted
    ensures (exists t :: log[k] == Stopped(Hard, t, true)) ==> k == |log| - 1
  {
    assert log[k] == EffectOf(d, connected, wakes[k]);
  }

  predicate IsDeadline(d: Deadlines, t: Time) {
    t == d.renewAt || t == d.softAt || t == d.hardAt
  }

  /**
   A pass sleeps until the next deadline after it, whichever that is; only a refused stop, or one
   past all deadlines, is tried again after a second.
   */
  lemma SleepsToTheNextDeadline(d: Deadlines, w: Wake)
    requires OrderedDeadlines(d)
    ensures w.now < d.softAt || (w.now < d.hardAt && w.accepted) ==>
              && IsDeadline(d, SleepsUntil(d, w)) && w.now < SleepsUntil(d, w)
              && forall t :: IsDeadline(d, t) && w.now < t ==> SleepsUntil(d, w) <= t
    ensures d.hardAt <= w.now || (d.softAt <= w.now && !w.accepted) ==>
              SleepsUntil(d, w) == w.now + 1_000_000
  {
  }

  lemma {:induction false} PassesMoveForward(d: Deadlines, wakes: seq<Wake>, i: nat, j: nat)
    requires OrderedDeadlines(d) && Slept(d, wakes) && i <= j < |wakes|
    ensures wakes[i].now <= wakes[j].now
    ensures i < j ==> SleepsUntil(d, wakes[i]) <= wakes[j].now
    decreases j - i
  {
    if i < j {
      PassesMoveForward(d, wakes, i, j - 1);
      assert SleepsUntil(d, wakes[j - 1]) <= wakes[j].now;
    }
  }

  /** One loop asks for a renewal at most once and gets at most one soft stop accepted. */
  lemma AtMostOnce(d: Deadlines, connected: bool, wakes: seq<Wake>, log: seq<Effect>, i: nat, j: nat)
    requires OrderedDeadlines(d) && LoopLog(d, connected, wakes, log) && Slept(d, wakes)
    requires i < j < |log|
    ensures log[i].Requested? ==> !log[j].Requested?
    ensures log[i].Stopped? ==> log[j].Stopped?
    ensures log[i].Stopped? && log[i].kind == Soft && log[i].accepted ==>
              log[j].Stopped? && log[j].kind == Hard
  {
    PassesMoveForward(d, wakes, i, j);
  }

  /** A soft stop is possible exactly when the soft deadline lies before the hard one. */
  lemma SoftStopIff(d: Deadlines)
    requires OrderedDeadlines(d)
    ensures (exists now :: Decide(d, now) == SoftStop) <==> d.softAt < d.hardAt
  {
    if d.softAt < d.hardAt {
      assert Decide(d, d.softAt) == SoftStop;
    }
  }

  /** So the first lease of a backend never leads to one, and every renewed lease can. */
  lemma FirstLeaseHasNoSoftStop(localTime: Time)
    ensures forall now :: Decide(InitialDeadlines(localTime), now) != SoftStop
    ensures exists now :: Decide(RenewedDeadlines(localTime), now) == SoftStop
  {
    SoftStopIff(InitialDeadlines(localTime));
    SoftStopIff(RenewedDeadlines(localTime));
  }

  /**
   After a key has been taken over from a backend whose lease expired, any pass of the renew
   loop that still holds deadlines for that backend is a hard stop.
   */
  lemma TakeoverMeansHardStop(off: Lease.Offsets, steps: seq<Lease.Step>, i: nat, j: nat)
    requires Lease.Valid(Lease.START, off, steps)
    requires i < j < |Lease.Final(Lease.START, off, steps).order|
    requires var s := Lease.Final(Lease.START, off, steps);
             && s.order[i] in s.grants && s.order[j] in s.grants
             && s.grants[s.order[i]].key == s.grants[s.order[j]].key
             && s.order[i] in s.released && s.released[s.order[i]].ByExpiry?
             && s.order[i] in s.held
    ensures var s := Lease.Final(Lease.START, off, steps);
            var id := s.order[i];
            Decide(s.held[id], Lease.Clock(s, off, s.grants[id].drone)) == HardStop
  {
    Lease.HandoverIsSafe(off, steps, i, j);
  }

  // ----- Answers in time keep the backend alive -----

  /**
   One backend's lease on a drone over time. `wakeAt` is when its loop is next due, `asked`
   holds the local times of the renewal requests that are not answered yet.
   */
  datatype Keeping = Keeping(
    now: Time,
    d: Deadlines,
    connected: bool,
    wakeAt: Time,
    asked: set<Time>,
    stopped: bool)

  datatype Event = Pass(dt: Time) | RunLoop | Answer(localTime: Time) | Restart(connected: bool)

  /** Loops run at most `late` after they are due, answers are applied within `delay`. */
  predicate Allowed(k: Keeping, e: Event, late: Time, delay: Time) {
    match e
    case Pass(dt) =>
      dt >= 0 && k.now + dt <= k.wakeAt + late
      && forall t :: t in k.asked ==> k.now + dt <= t + delay
    case RunLoop => k.wakeAt <= k.now
    case Answer(t) => t in k.asked
    case Restart(_) => true
  }

  /** The pass of the loop that is due now; the executor accepts what it asks for. */
  function PassNow(k: Keeping): Wake {
    Wake(k.now, k.now, true)
  }

  /** A restarted loop (new connection, new deadlines) is due at once. */
  function Happen(k: Keeping, e: Event): Keeping {
    match e
    case Pass(dt) => k.(now := k.now + dt)
    case RunLoop =>
      var next := k.(wakeAt := SleepsUntil(k.d, PassNow(k)));
      (match EffectOf(k.d, k.connected, PassNow(k))
       case Nothing => next
       case Requested(t) => next.(asked := k.asked + {t})
       case Stopped(_, _, _) => next.(stopped := true))
    case Answer(t) =>
      k.(d := RenewedDeadlines(t), asked := k.asked - {t}, wakeAt := k.now)
    case Restart(connected) => k.(connected := connected, wakeAt := Min(k.wakeAt, k.now))
  }

  predicate Happens(k: Keeping, es: seq<Event>, late: Time, delay: Time)
    decreases |es|
  {
    es == [] || (Allowed(k, es[0], late, delay) && Happens(Happen(k, es[0]), es[1..], late, delay))
  }

  function After(k: Keeping, es: seq<Event>): Keeping
    decreases |es|
  {
    if es == [] then k else After(Happen(k, es[0]), es[1..])
  }

  /** Either the loop is due early enough to ask, or an early enough request is on its way. */
  ghost predicate Safe(k: Keeping, late: Time, delay: Time) {
    && !k.stopped && k.connected
    && OrderedDeadlines(k.d)
    && k.d.renewAt + late + delay < k.d.softAt
    && k.now <= k.wakeAt + late
    && (forall t :: t in k.asked ==> t <= k.now <= t + delay)
    && (k.wakeAt + late + delay < k.d.softAt || exists t :: t in k.asked && t + delay < k.d.softAt)
  }

  /** A due loop asks exactly if it is connected and between its renew and soft deadlines. */
  lemma RunLoopAsksIff(k: Keeping)
    requires OrderedDeadlines(k.d)
    ensures Happen(k, RunLoop).asked
            == if k.connected && k.d.renewAt <= k.now < k.d.softAt then k.asked + {k.now} else k.asked
    ensures Happen(k, RunLoop).stopped <==> k.stopped || k.d.softAt <= k.now
  {
  }

  /** A loop may be restarted at any time, and then runs at once, with the connection it was given. */
  lemma RestartRunsAtOnce(k: Keeping, connected: bool, late: Time, delay: Time)
    requires OrderedDeadlines(k.d)
    ensures var restarted := Happen(k, Restart(connected));
            && Allowed(k, Restart(connected), late, delay) && Allowed(restarted, RunLoop, late, delay)
            && (k.now in Happen(restarted, RunLoop).asked
                <==> k.now in k.asked || (connected && k.d.renewAt <= k.now < k.d.softAt))
  {
  }

  /** An answer gives deadlines 30, 40 and 50 seconds after its question, once, and restarts the loop. */
  lemma AnswerRenews(k: Keeping, t: Time, late: Time, delay: Time)
    requires t in k.asked
    ensures var renewed := Happen(k, Answer(t));
            && renewed.d == Deadlines(t + 30_000_000, t + 40_000_000, t + 50_000_000)
            && Allowed(k, Answer(t), late, delay) && !Allowed(renewed, Answer(t), late, delay)
            && Allowed(renewed, RunLoop, late, delay)
  {
  }

  /** A connection that is lost comes back as a new one; until then the loop does not ask. */
  predicate StaysConnected(es: seq<Event>) {
    forall i :: 0 <= i < |es| && es[i].Restart? ==> es[i].connected
  }

  lemma EventKeepsSafe(k: Keeping, e: Event, late: Time, delay: Time)
    requires late >= 0 && delay >= 0 && late + delay < 10 * SECOND
    requires Safe(k, late, delay) && Allowed(k, e, late, delay) && (e.Restart? ==> e.connected)
    ensures Safe(Happen(k, e), late, delay)
  {
    assert k.now < k.d.softAt;
    match e
    case Pass(dt) =>
    case RunLoop =>
      var next := Happen(k, e);
      if Decide(k.d, k.now) == Renew {
        assert k.now in next.asked;
        if !(k.wakeAt + late + delay < k.d.softAt) {
          var t :| t in k.asked && t + delay < k.d.softAt;
          assert t in next.asked;
        }
      }
    case Answer(t) =>
    case Restart(_) =>
  }

  /**
   If loops run at most `late` after they are due and every renewal is answered within `delay`,
   the two together under the ten seconds between the renew and soft deadlines, then a backend
   whose first deadlines leave that much time never loses its key: no stop, at any time.
   */
  lemma {:induction false} TimelyAnswersKeepTheKey(k: Keeping, es: seq<Event>, late: Time, delay: Time)
    requires late >= 0 && delay >= 0 && late + delay < 10 * SECOND
    requires Safe(k, late, delay) && Happens(k, es, late, delay) && StaysConnected(es)
    ensures Safe(After(k, es), late, delay)
    ensures !After(k, es).stopped && After(k, es).now < After(k, es).d.softAt
    decreases |es|
  {
    if es != [] {
      EventKeepsSafe(k, es[0], late, delay);
      TimelyAnswersKeepTheKey(Happen(k, es[0]), es[1..], late, delay);
    }
  }

  /** A key registered in time after its spawn starts out that way. */
  lemma RegisteredInTime(localTime: Time, now: Time, late: Time, delay: Time)
    requires late >= 0 && delay >= 0 && late + delay < 10 * SECOND
    requires now + late + delay < InitialDeadlines(localTime).softAt
    ensures Safe(Keeping(now, InitialDeadlines(localTime), true, now, {}, false), late, delay)
  {
  }

  lemma Split(k: Keeping, e: Event, es: seq<Event>, late: Time, delay: Time)
    ensures Happens(k, [e] + es, late, delay) <==>
              Allowed(k, e, late, delay) && Happens(Happen(k, e), es, late, delay)
    ensures After(k, [e] + es) == After(Happen(k, e), es)
  {
    assert ([e] + es)[1..] == es;
  }

  /** Just renewed at `now`. */
  function Fresh(now: Time): Keeping {
    Keeping(now, RenewedDeadlines(now), true, now, {}, false)
  }

  /** Lets the loop run late, then the answer, until the soft deadline is reached. */
  function Dawdle(late: Time): seq<Event> {
    if late >= 10 * SECOND then [RunLoop] + ([Pass(40 * SECOND)] + ([RunLoop] + []))
    else
      [RunLoop] + ([Pass(30 * SECOND + late)] +
        ([RunLoop] + ([Pass(10 * SECOND - late)] + ([RunLoop] + []))))
  }

  /** Ten seconds is exact: with that much lateness and delay a fresh lease can be lost. */
  lemma DawdlingLosesTheKey(now: Time, late: Time, delay: Time)
    requires late >= 0 && delay >= 0 && late + delay >= 10 * SECOND
    ensures Happens(Fresh(now), Dawdle(late), late, delay)
    ensures After(Fresh(now), Dawdle(late)).stopped
  {
    var k0, es := Fresh(now), Dawdle(late);
    Split(k0, es[0], es[1..], late, delay);
    var k1 := Happen(k0, es[0]);
    Split(k1, es[1], es[2..], late, delay);
    var k2 := Happen(k1, es[1]);
    Split(k2, es[2], es[3..], late, delay);
    if late < 10 * SECOND {
      var k3 := Happen(k2, es[2]);
      Split(k3, es[3], es[4..], late, delay);
      Split(Happen(k3, es[3]), es[4], [], late, delay);
    }
  }

  /** A loop without a connection never asks, so its backend is stopped at the soft deadline. */
  lemma {:induction false} UnconnectedNeverAsks(k: Keeping, es: seq<Event>)
    requires OrderedDeadlines(k.d) && !k.connected && k.asked == {}
    requires forall i :: 0 <= i < |es| ==> !es[i].Restart? && !es[i].Answer?
    ensures After(k, es).asked == {} && After(k, es).d == k.d && !After(k, es).connected
    ensures k.d.softAt <= After(k, es).now ==> After(k, es + [RunLoop]).stopped
    decreases |es|
  {
    if es == [] {
      assert ([] + [RunLoop])[1..] == [];
      assert After(Happen(k, RunLoop), []) == Happen(k, RunLoop);
      RunLoopAsksIff(k);
    } else {
      RunLoopAsksIff(k);
      UnconnectedNeverAsks(Happen(k, es[0]), es[1..]);
      assert (es + [RunLoop])[1..] == es[1..] + [RunLoop];
    }
  }

  // ----- The table of loops -----

  datatype AcquiredKey = AcquiredKey(key: Key, deadlines: Deadlines, token: int)

  /** A running renew loop: the copy of the key it works from and the connection it sends on. */
  datatype Loop = Loop(key: AcquiredKey, sender: Option<nat>)

  /** What the manager keeps for a backend: the latest key, and its one loop. */
  datatype Handle = Handle(key: AcquiredKey, loop: Loop)

  class Manager {
    var handles: map<BackendId, Handle>
    var sender: Option<nat>

    /** Every loop works from the current key of its backend and the current connection. */
    ghost predicate Current()
      reads this
    {
      forall b :: b in handles ==> handles[b].loop == Loop(handles[b].key, sender)
    }

    constructor ()
      ensures handles == map[] && sender == None && Current()
    {
      handles := map[];
      sender := None;
    }

    method SetSender(connection: nat)
      modifies this
      ensures sender == Some(connection) && Current()
      ensures handles.Keys == old(handles.Keys)
      ensures forall b :: b in handles ==> handles[b].key == old(handles)[b].key
    {
      sender := Some(connection);
      var todo := handles.Keys;
      while todo != {}
        invariant sender == Some(connection)
        invariant handles.Keys == old(handles.Keys) && todo <= handles.Keys
        invariant forall b :: b in handles ==> handles[b].key == old(handles)[b].key
        invariant forall b :: b in handles && b !in todo ==>
                    handles[b].loop == Loop(handles[b].key, sender)
        decreases |todo|
      {
        var b :| b in todo;
        handles := handles[b := handles[b].(loop := Loop(handles[b].key, sender))];
        todo := todo - {b};
      }
    }

    method RegisterKey(backend: BackendId, key: AcquiredKey) returns (registered: bool)
      requires Current()
      modifies this
      ensures Current() && sender == old(sender)
      ensures registered <==> backend !in old(handles)
      ensures registered ==> handles == old(handles)[backend := Handle(key, Loop(key, sender))]
      ensures !registered ==> handles == old(handles)
    {
      if backend in handles {
        return false;
      }
      handles := handles[backend := Handle(key, Loop(key, sender))];
      return true;
    }

    method UpdateDeadlines(backend: BackendId, deadlines: Deadlines)
      requires Current()
      modifies this
      ensures Current() && sender == old(sender)
      ensures handles.Keys == old(handles.Keys)
      ensures forall b :: b in handles && b != backend ==> handles[b] == old(handles)[b]
      ensures backend in handles ==>
                handles[backend].key == old(handles)[backend].key.(deadlines := deadlines)
    {
      if backend in handles {
        var key := handles[backend].key.(deadlines := deadlines);
        handles := handles[backend := Handle(key, Loop(key, sender))];
      }
    }

    method UnregisterKey(backend: BackendId)
      requires Current()
      modifies this
      ensures Current() && sender == old(sender) && handles == old(handles) - {backend}
    {
      handles := handles - {backend};
    }
  }
}
