/**
 The state machine that drives one backend on its drone (plane/src/drone/backend_manager.rs),
 and what a drone restart records for the backends it finds (plane/src/drone/executor.rs).
 A call reads the state under one lock and sets the next one under another, so calls overlap.
 */
module Lifecycle {
  import opened Basics
  import opened BackendStates
  import Store = StateStore

  datatype StepResult = DoNothing | SetTo(next: State) | StartTask

  function StepState(s: State): StepResult {
    match s
    case InScheduled => SetTo(InLoading)
    case InReady(_) => DoNothing
    case InTerminated(_, _, _, _) => DoNothing
    case _ => StartTask
  }

  /** How the runtime call made for a state turns out; `Pending` never comes back. */
  datatype Result = Done(address: Address) | Broken | TimedOut | Pending

  /** The state a finished task sets, if its call ever finishes. */
  function Completion(s: State, r: Result): Option<State> {
    match s
    case InLoading =>
      (match r case Done(_) => Some(InStarting) case Broken => Some(s.ToTerminated(None)) case _ => None)
    case InStarting =>
      (match r case Done(a) => Some(InWaiting(a)) case Broken => Some(s.ToTerminated(None)) case _ => None)
    case InWaiting(address) =>
      (match r
       case Done(_) => Some(InReady(address))
       case TimedOut => Some(s.ToHardTerminating(StartupTimeout))
       case Broken => Some(s.ToHardTerminating(InternalError))
       case Pending => None)
    case InTerminating(_, _, _) => (match r case Done(_) => Some(s.ToTerminated(None)) case _ => None)
    case InHardTerminating(_, _) => (match r case Done(_) => Some(s.ToTerminated(None)) case _ => None)
    case _ => None
  }

  /** What a caller is about to set, and the state it was computed from. */
  datatype Intent = Intent(seen: State, target: State)

  /**
   `task` is the state whose runtime call is running, `intents` are the calls between their read
   and their set, and `trail` lists every state that was set.
   */
  datatype Machine = Machine(state: State, task: Option<State>, intents: map<nat, Intent>, trail: seq<State>)

  /**
   Sets a state: drops the running task, reports the state, and starts what it calls for. A report
   that fails (`ok`, and `again` for the state that follows at once) starts nothing.
   */
  function Enter(m: Machine, s: State, ok: bool, again: bool): Machine
    decreases s.InScheduled?
  {
    var next := m.(state := s, task := None, trail := m.trail + [s]);
    if !ok then next
    else match StepState(s)
      case DoNothing => next
      case StartTask => next.(task := Some(s))
      case SetTo(s') => Enter(next, s', again, again)
  }

  function Begin(ok: bool, again: bool): Machine {
    Enter(Machine(InScheduled, None, map[], []), InScheduled, ok, again)
  }

  datatype Call =
    | Terminate(kind: TerminationKind, reason: TerminationReason)
    | Exit(exitCode: Option<int>)

  function Target(s: State, call: Call): State {
    match call
    case Terminate(Soft, reason) => s.ToTerminating(reason)
    case Terminate(Hard, reason) => s.ToHardTerminating(reason)
    case Exit(code) => s.ToTerminated(code)
  }

  /** A finished task has its result in hand and can no longer be stopped from setting it. */
  datatype Event =
    | Finish(id: nat, result: Result)
    | Read(id: nat, call: Call)
    | Set(id: nat, ok: bool)

  predicate Enabled(m: Machine, e: Event) {
    match e
    case Finish(id, r) => id !in m.intents && m.task.Some? && Completion(m.task.value, r).Some?
    case Read(id, _) => id !in m.intents
    case Set(id, _) => id in m.intents
  }

  function Apply(m: Machine, e: Event): Machine
    requires Enabled(m, e)
  {
    match e
    case Finish(id, r) =>
      m.(task := None,
         intents := m.intents[id := Intent(m.task.value, Completion(m.task.value, r).value)])
    case Read(id, call) => m.(intents := m.intents[id := Intent(m.state, Target(m.state, call))])
    case Set(id, ok) => Enter(m.(intents := m.intents - {id}), m.intents[id].target, ok, ok)
  }

  predicate Valid(m: Machine, es: seq<Event>)
    decreases |es|
  {
    es == [] || (Enabled(m, es[0]) && Valid(Apply(m, es[0]), es[1..]))
  }

  function Final(m: Machine, es: seq<Event>): Machine
    requires Valid(m, es)
    decreases |es|
  {
    if es == [] then m else Final(Apply(m, es[0]), es[1..])
  }

  // ----- What a trail says -----

  /** Status of the last state before termination began. */
  function LastAlive(trail: seq<State>): Option<Status>
    decreases |trail|
  {
    if trail == [] then None
    else
      var s := trail[|trail| - 1].Status();
      if s.AsInt() < Terminating.AsInt() then Some(s) else LastAlive(trail[..|trail| - 1])
  }

  /** The reason given when soft, or hard, termination was first entered. */
  function FirstReason(trail: seq<State>, kind: TerminationKind): Option<TerminationReason>
    decreases |trail|
  {
    if trail == [] then None
    else
      var earlier := FirstReason(trail[..|trail| - 1], kind);
      if earlier.Some? then earlier
      else match trail[|trail| - 1]
        case InTerminating(_, _, r) => if kind == Soft then Some(r) else None
        case InHardTerminating(_, r) => if kind == Hard then Some(r) else None
        case _ => None
  }

  predicate NeverDecreases(trail: seq<State>) {
    forall i, j :: 0 <= i < j < |trail| ==> trail[i].StatusInt() <= trail[j].StatusInt()
  }

  /**
   The state is the outcome of its trail: `lastStatus` is the last status before termination
   began, and kind and reason tell whether hard, or only soft, termination was entered and why.
   */
  ghost predicate Sums(s: State, trail: seq<State>) {
    var soft, hard := FirstReason(trail, Soft), FirstReason(trail, Hard);
    match s
    case InTerminating(last, kind, r) =>
      kind == Soft && LastAlive(trail) == Some(last) && soft == Some(r) && hard == None
    case InHardTerminating(last, r) => LastAlive(trail) == Some(last) && hard == Some(r)
    case InTerminated(last, kind, why, _) =>
      && LastAlive(trail) == Some(last)
      && (hard.Some? ==> kind == Some(Hard) && why == hard)
      && (hard.None? && soft.Some? ==> kind == Some(Soft) && why == soft)
      && (hard.None? && soft.None? ==> kind == None && why == None)
    case _ => LastAlive(trail) == Some(s.Status()) && soft == None && hard == None
  }

  ghost predicate Sound(m: Machine) {
    NeverDecreases(m.trail) && Sums(m.state, m.trail)
  }

  /** What holds however calls overlap. */
  ghost predicate Inv(m: Machine) {
    && m.trail != [] && m.trail[|m.trail| - 1] == m.state
    && (m.task.Some? ==> m.task == Some(m.state))
    && forall id :: id in m.intents ==> Follows(m.intents[id].seen, m.intents[id].target)
  }

  /** `s'` is the same state again or the next one of the lifecycle after `s`. */
  ghost predicate Follows(s: State, s': State) {
    && !s'.InScheduled?
    && (|| s' == s
        || (s.StatusInt() < Terminating.AsInt() && s'.StatusInt() < Terminating.AsInt()
            && s.StatusInt() <= s'.StatusInt())
        || (exists r :: s' == s.ToTerminating(r))
        || (exists r :: s' == s.ToHardTerminating(r))
        || (exists code :: s' == s.ToTerminated(code)))
  }

  // ----- What a state says of its past -----

  /** Last status before termination began, and how and why it began. */
  datatype Account = Account(last: Status, kind: Option<TerminationKind>, why: Option<TerminationReason>)

  function AccountOf(s: State): Account {
    match s
    case InTerminating(last, kind, r) => Account(last, Some(kind), Some(r))
    case InHardTerminating(last, r) => Account(last, Some(Hard), Some(r))
    case InTerminated(last, kind, why, _) => Account(last, kind, why)
    case _ => Account(s.Status(), None, None)
  }

  predicate Alive(s: State) {
    s.StatusInt() < Terminating.AsInt()
  }

  /**
   Setting `t` over `now` keeps the account: a later running state, a termination that begins now
   or is the one in force, or an end that tells what is known now.
   */
  predicate Fits(now: State, t: State) {
    match t
    case InTerminating(last, kind, _) => t == now || (Alive(now) && last == now.Status() && kind == Soft)
    case InHardTerminating(last, _) =>
      t == now || ((Alive(now) || now.InTerminating?) && last == AccountOf(now).last)
    case InTerminated(_, _, _, _) => AccountOf(t) == AccountOf(now)
    case _ => Alive(now) && now.StatusInt() <= t.StatusInt()
  }

  /** What a stream entry tells of a termination is what the state accounts for. */
  lemma EntryIsAccount(s: State, time: Time)
    requires s.InTerminating? ==> s.termination == Soft
    ensures FromState(s, time).kind == AccountOf(s).kind && FromState(s, time).reason == AccountOf(s).why
  {
  }

  /**
   Termination begins with the status it found, its kind and its reason; hard termination replaces
   what soft termination noted except the last status; the end keeps the account and the exit code.
   */
  lemma TransitionsAccount(s: State, r: TerminationReason, code: Option<int>)
    requires s.InTerminating? ==> s.termination == Soft
    ensures Alive(s) ==> AccountOf(s) == Account(s.Status(), None, None)
    ensures AccountOf(s.ToTerminating(r))
            == if Alive(s) then Account(s.Status(), Some(Soft), Some(r)) else AccountOf(s)
    ensures AccountOf(s.ToHardTerminating(r))
            == if Alive(s) || s.InTerminating? then Account(AccountOf(s).last, Some(Hard), Some(r))
               else AccountOf(s)
    ensures AccountOf(s.ToTerminated(code)) == AccountOf(s)
    ensures s.ToTerminating(r).StatusInt() == Max(s.StatusInt(), 60)
    ensures s.ToHardTerminating(r).StatusInt() == Max(s.StatusInt(), 65)
    ensures s.ToTerminated(code).InTerminated?
    ensures s.ToTerminated(code).exitCode == if s.InTerminated? then s.exitCode else code
  {
  }

  lemma ExtendTrail(trail: seq<State>, s: State)
    ensures LastAlive(trail + [s]) == if Alive(s) then Some(s.Status()) else LastAlive(trail)
    ensures forall kind :: FirstReason(trail, kind).Some? ==>
              FirstReason(trail + [s], kind) == FirstReason(trail, kind)
    ensures FirstReason(trail, Soft).None? ==>
              FirstReason(trail + [s], Soft) == if s.InTerminating? then Some(s.reason) else None
    ensures FirstReason(trail, Hard).None? ==>
              FirstReason(trail + [s], Hard) == if s.InHardTerminating? then Some(s.reason) else None
  {
    assert (trail + [s])[..|trail|] == trail;
  }

  lemma NeverDecreasesAgain(trail: seq<State>, s: State)
    requires trail != [] && NeverDecreases(trail)
    ensures NeverDecreases(trail + [s]) <==> trail[|trail| - 1].StatusInt() <= s.StatusInt()
  {
    var more := trail + [s];
    assert more[|trail| - 1] == trail[|trail| - 1] && more[|trail|] == s;
  }

  lemma SumsIff(now: State, trail: seq<State>, t: State)
    requires Sums(now, trail)
    ensures Sums(t, trail + [t]) && now.StatusInt() <= t.StatusInt() <==> Fits(now, t)
  {
    ExtendTrail(trail, t);
  }

  /** A set keeps the trail sound exactly if what it sets fits the state it replaces. */
  lemma SetIsSoundIff(m: Machine, id: nat, ok: bool)
    requires Inv(m) && Sound(m) && id in m.intents
    ensures Sound(Apply(m, Set(id, ok))) <==> Fits(m.state, m.intents[id].target)
  {
    var t := m.intents[id].target;
    NeverDecreasesAgain(m.trail, t);
    SumsIff(m.state, m.trail, t);
  }

  lemma FollowsFits(s: State, t: State, trail: seq<State>)
    requires Follows(s, t) && Sums(s, trail)
    ensures Fits(s, t)
  {
  }

  // ----- Runs -----

  lemma CompletionFollows(s: State, r: Result)
    requires Completion(s, r).Some?
    ensures Follows(s, Completion(s, r).value)
  {
    var t := Completion(s, r).value;
    assert t == s.ToTerminated(None) || t == s.ToHardTerminating(StartupTimeout)
           || t == s.ToHardTerminating(InternalError) || Alive(t);
  }

  lemma TargetFollows(s: State, call: Call)
    requires !s.InScheduled? || !Target(s, call).InScheduled?
    ensures Follows(s, Target(s, call))
  {
  }

  lemma EnterKeepsInv(m: Machine, s: State, ok: bool, again: bool)
    requires forall id :: id in m.intents ==> Follows(m.intents[id].seen, m.intents[id].target)
    ensures Inv(Enter(m, s, ok, again)) && Enter(m, s, ok, again).intents == m.intents
    decreases s.InScheduled?
  {
    if ok && s.InScheduled? {
      EnterKeepsInv(m.(state := s, task := None, trail := m.trail + [s]), InLoading, again, again);
    }
  }

  lemma StepKeepsInv(m: Machine, e: Event)
    requires Inv(m) && Enabled(m, e)
    ensures Inv(Apply(m, e))
  {
    match e
    case Finish(_, r) => CompletionFollows(m.task.value, r);
    case Read(_, call) => TargetFollows(m.state, call);
    case Set(id, ok) => EnterKeepsInv(m.(intents := m.intents - {id}), m.intents[id].target, ok, ok);
  }

  /**
   Over every run, however calls overlap: the trail ends in the state, at most one task is running
   and it is the current state's own, and every call sets what follows the state it has read.
   */
  lemma {:induction false} RunKeepsInv(m: Machine, es: seq<Event>)
    requires Inv(m) && Valid(m, es)
    ensures Inv(Final(m, es))
    decreases |es|
  {
    if es != [] {
      StepKeepsInv(m, es[0]);
      RunKeepsInv(Apply(m, es[0]), es[1..]);
    }
  }

  lemma ScheduledIsSound()
    ensures NeverDecreases([InScheduled]) && Sums(InScheduled, [InScheduled])
  {
    assert [InScheduled][..0] == [];
  }

  lemma LoadingIsSound()
    ensures NeverDecreases([InScheduled, InLoading]) && Sums(InLoading, [InScheduled, InLoading])
  {
    ScheduledIsSound();
    NeverDecreasesAgain([InScheduled], InLoading);
    SumsIff(InScheduled, [InScheduled], InLoading);
    assert [InScheduled] + [InLoading] == [InScheduled, InLoading];
  }

  lemma BeginLoads(ok: bool, again: bool)
    ensures !ok ==> Begin(ok, again) == Machine(InScheduled, None, map[], [InScheduled])
    ensures ok ==> Begin(ok, again)
                   == Machine(InLoading, if again then Some(InLoading) else None, map[],
                              [InScheduled, InLoading])
  {
    var m := Machine(InScheduled, None, map[], []);
    var first := m.(trail := [InScheduled]);
    assert m.trail + [InScheduled] == [InScheduled];
    assert [InScheduled] + [InLoading] == [InScheduled, InLoading];
    assert ok ==> Begin(ok, again) == Enter(first, InLoading, again, again);
  }

  lemma BeginIsSound(ok: bool, again: bool)
    ensures Inv(Begin(ok, again)) && Sound(Begin(ok, again))
  {
    BeginLoads(ok, again);
    if ok {
      LoadingIsSound();
    } else {
      ScheduledIsSound();
    }
  }

  /** Every set of the run fits the state it replaces. */
  predicate AllFit(m: Machine, es: seq<Event>)
    requires Valid(m, es)
    decreases |es|
  {
    es == [] ||
    ((es[0].Set? ==> Fits(m.state, m.intents[es[0].id].target)) && AllFit(Apply(m, es[0]), es[1..]))
  }

  ghost predicate SoundThroughout(m: Machine, es: seq<Event>)
    requires Valid(m, es)
    decreases |es|
  {
    Sound(m) && (es == [] || SoundThroughout(Apply(m, es[0]), es[1..]))
  }

  /**
   Over every run of overlapping calls: at every point the status has never decreased and the state
   tells its trail, exactly if every set fits the state it replaces.
   */
  lemma {:induction false} SoundThroughoutIff(m: Machine, es: seq<Event>)
    requires Inv(m) && Sound(m) && Valid(m, es)
    ensures SoundThroughout(m, es) <==> AllFit(m, es)
    decreases |es|
  {
    if es != [] {
      var next := Apply(m, es[0]);
      StepKeepsInv(m, es[0]);
      if es[0].Set? {
        SetIsSoundIff(m, es[0].id, es[0].ok);
      }
      if Sound(next) {
        SoundThroughoutIff(next, es[1..]);
      }
    }
  }

  /** No call sets anything over a state other than the one it has read. */
  predicate NonePassed(m: Machine, es: seq<Event>)
    requires Valid(m, es)
    decreases |es|
  {
    es == [] ||
    ((es[0].Set? ==> m.intents[es[0].id].seen == m.state) && NonePassed(Apply(m, es[0]), es[1..]))
  }

  /** Every call sets directly after its read. */
  predicate EachAtOnce(es: seq<Event>)
    decreases |es|
  {
    es == [] ||
    (|es| >= 2 && !es[0].Set? && es[1].Set? && es[1].id == es[0].id && EachAtOnce(es[2..]))
  }

  /** Then no call sets over a state it has not read: single steps are among these runs. */
  lemma {:induction false} AtOnceMeansNonePassed(m: Machine, es: seq<Event>)
    requires Inv(m) && Valid(m, es) && EachAtOnce(es)
    ensures NonePassed(m, es)
    decreases |es|
  {
    if es != [] {
      var m1 := Apply(m, es[0]);
      var rest := es[1..];
      StepKeepsInv(m, es[0]);
      assert Valid(m1, rest) && rest[0] == es[1] && rest[1..] == es[2..];
      StepKeepsInv(m1, es[1]);
      AtOnceMeansNonePassed(Apply(m1, es[1]), es[2..]);
    }
  }

  lemma {:induction false} NonePassedFits(m: Machine, es: seq<Event>)
    requires Inv(m) && Sound(m) && Valid(m, es) && NonePassed(m, es)
    ensures AllFit(m, es) && Sound(Final(m, es))
    decreases |es|
  {
    if es != [] {
      StepKeepsInv(m, es[0]);
      if es[0].Set? {
        FollowsFits(m.state, m.intents[es[0].id].target, m.trail);
        SetIsSoundIff(m, es[0].id, es[0].ok);
      }
      NonePassedFits(Apply(m, es[0]), es[1..]);
    }
  }

  /**
   From its start to any later point, if no call sets over a state it has not read: the status
   never decreases, at most one task runs, for the current state, and the recorded end is what the
   trail says.
   */
  lemma TerminationIsExplained(ok: bool, again: bool, es: seq<Event>)
    requires Valid(Begin(ok, again), es) && NonePassed(Begin(ok, again), es)
    ensures var m := Final(Begin(ok, again), es);
            && NeverDecreases(m.trail) && Sums(m.state, m.trail)
            && (m.task.Some? ==> m.task == Some(m.state))
            && (m.state.InTerminated? ==>
                  (m.state.kind == Some(Hard) <==> FirstReason(m.trail, Hard).Some?)
                  && (m.state.kind == None <==>
                        FirstReason(m.trail, Hard).None? && FirstReason(m.trail, Soft).None?))
  {
    BeginIsSound(ok, again);
    RunKeepsInv(Begin(ok, again), es);
    NonePassedFits(Begin(ok, again), es);
  }

  // ----- What a run does when nothing interferes -----

  /** Where a finished step can have come from, and what it had been told. */
  lemma CompletionMeans(s: State, r: Result, a: Address)
    ensures Completion(s, r) == Some(InStarting) <==> s.InLoading? && r.Done?
    ensures Completion(s, r) == Some(InWaiting(a)) <==> s.InStarting? && r == Done(a)
    ensures Completion(s, r) == Some(InReady(a)) <==> s == InWaiting(a) && r.Done?
    ensures Completion(s, r) == Some(InHardTerminating(Waiting, StartupTimeout))
            <==> s.InWaiting? && r.TimedOut?
    ensures Completion(s, r) == Some(InHardTerminating(Waiting, InternalError))
            <==> s.InWaiting? && r.Broken?
    ensures Completion(s, r).Some? && Completion(s, r).value.InTerminated?
            <==> || ((s.InLoading? || s.InStarting?) && r.Broken?)
                 || ((s.InTerminating? || s.InHardTerminating?) && r.Done?)
    ensures Completion(s, r).Some? && Completion(s, r).value.InTerminated? ==>
              AccountOf(Completion(s, r).value) == AccountOf(s)
              && Completion(s, r).value.exitCode == None
  {
  }

  /** A step finishes and sets its result, reported. */
  function Turn(r: Result): seq<Event> {
    [Finish(0, r)] + ([Set(0, true)] + [])
  }

  lemma TurnRuns(m: Machine, r: Result)
    requires m.intents == map[] && m.task.Some? && Completion(m.task.value, r).Some?
    ensures Valid(m, Turn(r))
    ensures var t := Completion(m.task.value, r).value;
            !t.InScheduled? ==>
              Final(m, Turn(r)) == Machine(t, if StartsTask(t) then Some(t) else None, map[], m.trail + [t])
  {
    var m1 := Apply(m, Finish(0, r));
    assert m1.intents - {0} == map[];
    Unfold(m1, Set(0, true), []);
    Unfold(m, Finish(0, r), [Set(0, true)] + []);
  }

  /** The states in which the runtime has something to do. */
  predicate StartsTask(s: State) {
    s.InLoading? || s.InStarting? || s.InWaiting? || s.InTerminating? || s.InHardTerminating?
  }

  /**
   A backend whose steps succeed and whose states are reported gets ready, at the address that its
   start gave, through every status in turn.
   */
  lemma StartsUp(image: Address, a: Address, answer: Address)
    ensures var loaded := Begin(true, true);
            && Valid(loaded, Turn(Done(image)))
            && var started := Final(loaded, Turn(Done(image)));
            && Valid(started, Turn(Done(a)))
            && var waiting := Final(started, Turn(Done(a)));
            && Valid(waiting, Turn(Done(answer)))
            && Final(waiting, Turn(Done(answer)))
               == Machine(InReady(a), None, map[],
                          [InScheduled, InLoading, InStarting, InWaiting(a), InReady(a)])
  {
    BeginLoads(true, true);
    var loaded := Begin(true, true);
    TurnRuns(loaded, Done(image));
    var started := Final(loaded, Turn(Done(image)));
    TurnRuns(started, Done(a));
    var waiting := Final(started, Turn(Done(a)));
    TurnRuns(waiting, Done(answer));
    assert [InScheduled, InLoading] + [InStarting] + [InWaiting(a)] + [InReady(a)]
        == [InScheduled, InLoading, InStarting, InWaiting(a), InReady(a)];
  }

  /** The state that a terminate call asks for. */
  function Wish(s: State, kind: TerminationKind, r: TerminationReason): State {
    if kind == Soft then s.ToTerminating(r) else s.ToHardTerminating(r)
  }

  lemma CallRuns(m: Machine, kind: TerminationKind, r: TerminationReason)
    requires Alive(m.state) && m.intents == map[]
    ensures var call := [Read(0, Terminate(kind, r))] + ([Set(0, true)] + []);
            var t := Wish(m.state, kind, r);
            Valid(m, call) && Final(m, call) == Machine(t, Some(t), map[], m.trail + [t])
  {
    var m1 := Apply(m, Read(0, Terminate(kind, r)));
    assert m1.intents - {0} == map[];
    Unfold(m1, Set(0, true), []);
    Unfold(m, Read(0, Terminate(kind, r)), [Set(0, true)] + []);
  }

  lemma WishEnds(s: State, kind: TerminationKind, r: TerminationReason, done: Address)
    requires Alive(s)
    ensures var t := Wish(s, kind, r);
            && t.StatusInt() == (if kind == Soft then 60 else 65)
            && Completion(t, Done(done)) == Some(InTerminated(s.Status(), Some(kind), Some(r), None))
  {
  }

  /** A terminate call on a running backend starts the termination, whose end is then recorded. */
  lemma TerminatesThrough(m: Machine, kind: TerminationKind, r: TerminationReason, done: Address)
    requires Alive(m.state) && m.intents == map[]
    ensures var call := [Read(0, Terminate(kind, r))] + ([Set(0, true)] + []);
            && Valid(m, call)
            && var begun := Final(m, call);
            && begun.state.StatusInt() == (if kind == Soft then 60 else 65)
            && begun.task == Some(begun.state)
            && Valid(begun, Turn(Done(done)))
            && Final(begun, Turn(Done(done))).state
               == InTerminated(m.state.Status(), Some(kind), Some(r), None)
            && Final(begun, Turn(Done(done))).task == None
  {
    CallRuns(m, kind, r);
    WishEnds(m.state, kind, r, done);
    var t := Wish(m.state, kind, r);
    TurnRuns(Machine(t, Some(t), map[], m.trail + [t]), Done(done));
  }

  /** A state whose report fails is set all the same, and starts nothing. */
  lemma UnreportedStartsNothing(m: Machine, id: nat)
    requires id in m.intents
    ensures Apply(m, Set(id, false))
            == Machine(m.intents[id].target, None, m.intents - {id}, m.trail + [m.intents[id].target])
  {
  }

  // ----- When a passed state does harm -----

  /** An exit fits exactly if nothing of the account has changed since its read. */
  lemma StaleExitIff(seen: State, now: State, code: Option<int>)
    ensures Fits(now, seen.ToTerminated(code)) <==> AccountOf(seen) == AccountOf(now)
  {
  }

  /**
   A terminate call that read a running state fits exactly if the backend still has that status, or
   has been set by the same call's doing already; for a hard one soft termination may have begun.
   */
  lemma StaleTerminateIff(seen: State, now: State, r: TerminationReason)
    requires Alive(seen)
    ensures Fits(now, seen.ToTerminating(r))
            <==> now.Status() == seen.Status() || now == seen.ToTerminating(r)
    ensures Fits(now, seen.ToHardTerminating(r))
            <==> AccountOf(now).last == seen.Status()
                 && (Alive(now) || now.InTerminating? || now == seen.ToHardTerminating(r))
  {
  }

  /**
   A finished task fits exactly if the backend still runs and is not ahead of it; one that failed,
   or has ended its termination, exactly if what is known of the past is still the same; and one
   that gave up waiting if hard termination can begin, or has begun for the same reason.
   */
  lemma StaleFinishIff(seen: State, result: Result, now: State)
    requires Completion(seen, result).Some?
    ensures var t := Completion(seen, result).value;
            Fits(now, t) <==>
              if Alive(t) then Alive(now) && now.StatusInt() <= t.StatusInt()
              else if t.InTerminated? then AccountOf(seen) == AccountOf(now)
              else AccountOf(now).last == seen.Status() && (Alive(now) || now.InTerminating? || now == t)
  {
  }

  lemma Unfold(m: Machine, e: Event, es: seq<Event>)
    requires Enabled(m, e) && Valid(Apply(m, e), es)
    ensures Valid(m, [e] + es) && Final(m, [e] + es) == Final(Apply(m, e), es)
  {
    assert ([e] + es)[1..] == es;
  }

  /** A call, or a finished task, is followed by another call's read, which sets first. */
  function Overtaken(first: Event, second: Call): seq<Event> {
    [first] + ([Read(1, second)] + ([Set(1, true)] + ([Set(0, true)] + [])))
  }

  lemma OvertakenRuns(m: Machine, first: Event, second: Call)
    requires m.intents == map[] && Enabled(m, first) && !first.Set? && first.id == 0
    requires !Apply(m, first).intents[0].target.InScheduled? && !Target(m.state, second).InScheduled?
    ensures Valid(m, Overtaken(first, second))
    ensures var end, t := Final(m, Overtaken(first, second)), Apply(m, first).intents[0].target;
            end.state == t && end.trail == m.trail + [Target(m.state, second), t]
  {
    var m1 := Apply(m, first);
    var m2 := Apply(m1, Read(1, second));
    var m3 := Apply(m2, Set(1, true));
    var m4 := Apply(m3, Set(0, true));
    Unfold(m3, Set(0, true), []);
    Unfold(m2, Set(1, true), [Set(0, true)] + []);
    Unfold(m1, Read(1, second), [Set(1, true)] + ([Set(0, true)] + []));
    Unfold(m, first, [Read(1, second)] + ([Set(1, true)] + ([Set(0, true)] + [])));
    assert m4.trail == m.trail + [Target(m.state, second), m1.intents[0].target];
  }

  lemma EndsLower(trail: seq<State>, s: State, t: State)
    requires t.StatusInt() < s.StatusInt()
    ensures !NeverDecreases(trail + [s, t])
  {
    var more := trail + [s, t];
    assert more[|trail|] == s && more[|trail| + 1] == t;
  }

  /**
   From every state of a running backend: a terminate call that an exit overtakes takes the status
   back from terminated.
   */
  lemma OvertakenTerminateLowersStatus(m: Machine, kind: TerminationKind, r: TerminationReason,
                                       code: Option<int>)
    requires Alive(m.state) && m.intents == map[]
    ensures Valid(m, Overtaken(Read(0, Terminate(kind, r)), Exit(code)))
    ensures !NeverDecreases(Final(m, Overtaken(Read(0, Terminate(kind, r)), Exit(code))).trail)
  {
    OvertakenRuns(m, Read(0, Terminate(kind, r)), Exit(code));
    EndsLower(m.trail, Target(m.state, Exit(code)), Target(m.state, Terminate(kind, r)));
  }

  /**
   From every state with a task running: one that succeeds but that a terminate call overtakes
   takes the status back to a running one.
   */
  lemma OvertakenFinishLowersStatus(m: Machine, a: Address, kind: TerminationKind, r: TerminationReason)
    requires m.task == Some(m.state) && m.intents == map[]
    requires m.state.InLoading? || m.state.InStarting? || m.state.InWaiting?
    ensures Valid(m, Overtaken(Finish(0, Done(a)), Terminate(kind, r)))
    ensures var end := Final(m, Overtaken(Finish(0, Done(a)), Terminate(kind, r)));
            Alive(end.state) && !NeverDecreases(end.trail)
  {
    OvertakenRuns(m, Finish(0, Done(a)), Terminate(kind, r));
    EndsLower(m.trail, Target(m.state, Terminate(kind, r)), Completion(m.state, Done(a)).value);
  }

  lemma ForgottenTermination(s: State, trail: seq<State>, kind: TerminationKind, r: TerminationReason,
                             code: Option<int>)
    requires Alive(s) && Sums(s, trail)
    ensures var begun, ended := Target(s, Terminate(kind, r)), Target(s, Exit(code));
            var more := trail + [begun, ended];
            FirstReason(more, kind) == Some(r) && !Sums(ended, more)
  {
    var begun, ended := Target(s, Terminate(kind, r)), Target(s, Exit(code));
    ExtendTrail(trail, begun);
    ExtendTrail(trail + [begun], ended);
    assert trail + [begun, ended] == trail + [begun] + [ended];
  }

  /**
   And an exit that a terminate call overtakes records an end without a kind, although termination
   had begun; the status does not go back.
   */
  lemma OvertakenExitForgetsTermination(m: Machine, kind: TerminationKind, r: TerminationReason,
                                        code: Option<int>)
    requires Inv(m) && Sound(m) && Alive(m.state) && m.intents == map[]
    ensures Valid(m, Overtaken(Read(0, Exit(code)), Terminate(kind, r)))
    ensures var end := Final(m, Overtaken(Read(0, Exit(code)), Terminate(kind, r)));
            && end.state.InTerminated? && end.state.kind == None
            && FirstReason(end.trail, kind) == Some(r) && !Sums(end.state, end.trail)
  {
    OvertakenRuns(m, Read(0, Exit(code)), Terminate(kind, r));
    ForgottenTermination(m.state, m.trail, kind, r, code);
  }

  // ----- The manager -----

  class BackendManager {
    var state: State
    var handle: Option<State>

    /** Calls of other threads between their read and their set. */
    var intents: map<nat, Intent>
    ghost var trail: seq<State>

    ghost function View(): Machine
      reads this
    {
      Machine(state, handle, intents, trail)
    }

    constructor (ok: bool, again: bool)
      ensures View() == Begin(ok, again) && Inv(View()) && Sound(View())
    {
      state, handle, intents, trail := InScheduled, None, map[], [];
      new;
      SetState(InScheduled, ok, again);
      BeginIsSound(ok, again);
    }

    /** The old task is dropped before the state is reported; a failed report starts nothing. */
    method SetState(s: State, ok: bool, again: bool)
      modifies this
      ensures View() == Enter(old(View()), s, ok, again)
      decreases s.InScheduled?
    {
      state, trail := s, trail + [s];
      handle := None;
      if !ok {
        return;
      }
      match StepState(s) {
        case DoNothing =>
        case SetTo(next) => SetState(next, again, again);
        case StartTask => handle := Some(s);
      }
    }

    /** What other threads do meanwhile; whatever is not possible then does not happen. */
    method Others(es: seq<Event>, mine: nat) returns (ghost done: seq<Event>)
      modifies this
      ensures Valid(old(View()), done) && View() == Final(old(View()), done)
      ensures mine in old(intents) ==> mine in intents && intents[mine] == old(intents)[mine]
      ensures mine !in old(intents) ==> mine !in intents
    {
      done := [];
      for i := 0 to |es|
        invariant Valid(old(View()), done) && View() == Final(old(View()), done)
        invariant mine in old(intents) ==> mine in intents && intents[mine] == old(intents)[mine]
        invariant mine !in old(intents) ==> mine !in intents
      {
        if es[i].id != mine && Possible(es[i]) {
          RunAppend(old(View()), done, es[i]);
          Happen(es[i]);
          done := done + [es[i]];
        }
      }
    }

    predicate Possible(e: Event)
      reads this
      ensures Possible(e) <==> Enabled(View(), e)
    {
      match e
      case Finish(id, r) => id !in intents && handle.Some? && Completion(handle.value, r).Some?
      case Read(id, _) => id !in intents
      case Set(id, _) => id in intents
    }

    method Happen(e: Event)
      requires Enabled(View(), e)
      modifies this
      ensures View() == Apply(old(View()), e)
    {
      match e {
        case Finish(id, r) =>
          intents := intents[id := Intent(handle.value, Completion(handle.value, r).value)];
          handle := None;
        case Read(id, call) => intents := intents[id := Intent(state, Target(state, call))];
        case Set(id, ok) =>
          var target := intents[id].target;
          intents := intents - {id};
          SetState(target, ok, ok);
      }
    }

    /** A finished task, with whatever happens before it gets to set its result. */
    method TaskDone(r: Result, mine: nat, meanwhile: seq<Event>, ok: bool)
      returns (ghost between: seq<Event>)
      requires Inv(View()) && Enabled(View(), Finish(mine, r))
      modifies this
      ensures Valid(old(View()), [Finish(mine, r)] + between + [Set(mine, ok)])
      ensures View() == Final(old(View()), [Finish(mine, r)] + between + [Set(mine, ok)])
      ensures Inv(View())
    {
      between := SetLater(Finish(mine, r), mine, meanwhile, ok);
    }

    /** Reads the state, and sets what comes of it once others have had their turn. */
    method TerminateWith(kind: TerminationKind, reason: TerminationReason, mine: nat,
                         meanwhile: seq<Event>, ok: bool)
      returns (ghost between: seq<Event>)
      requires Inv(View()) && mine !in intents
      modifies this
      ensures Valid(old(View()), [Read(mine, Terminate(kind, reason))] + between + [Set(mine, ok)])
      ensures View()
              == Final(old(View()), [Read(mine, Terminate(kind, reason))] + between + [Set(mine, ok)])
      ensures Inv(View())
    {
      between := SetLater(Read(mine, Terminate(kind, reason)), mine, meanwhile, ok);
    }

    method MarkTerminated(exitCode: Option<int>, mine: nat, meanwhile: seq<Event>, ok: bool)
      returns (ghost between: seq<Event>)
      requires Inv(View()) && mine !in intents
      modifies this
      ensures Valid(old(View()), [Read(mine, Exit(exitCode))] + between + [Set(mine, ok)])
      ensures View() == Final(old(View()), [Read(mine, Exit(exitCode))] + between + [Set(mine, ok)])
      ensures Inv(View())
    {
      between := SetLater(Read(mine, Exit(exitCode)), mine, meanwhile, ok);
    }

    /** A call's read, other threads' turns, and its set. */
    method SetLater(first: Event, mine: nat, meanwhile: seq<Event>, ok: bool)
      returns (ghost between: seq<Event>)
      requires Inv(View()) && Enabled(View(), first) && !first.Set? && first.id == mine
      modifies this
      ensures Valid(old(View()), [first] + between + [Set(mine, ok)])
      ensures View() == Final(old(View()), [first] + between + [Set(mine, ok)])
      ensures Inv(View())
    {
      ghost var start := View();
      RunAppend(start, [], first);
      assert [] + [first] == [first];
      Happen(first);
      between := Others(meanwhile, mine);
      RunConcat(start, [first], between);
      RunAppend(start, [first] + between, Set(mine, ok));
      Happen(Set(mine, ok));
      RunKeepsInv(start, [first] + between + [Set(mine, ok)]);
    }
  }

  lemma {:induction false} RunConcat(m: Machine, xs: seq<Event>, ys: seq<Event>)
    requires Valid(m, xs) && Valid(Final(m, xs), ys)
    ensures Valid(m, xs + ys) && Final(m, xs + ys) == Final(Final(m, xs), ys)
    decreases |xs|
  {
    if xs == [] {
      assert xs + ys == ys;
    } else {
      RunConcat(Apply(m, xs[0]), xs[1..], ys);
      assert (xs + ys)[1..] == xs[1..] + ys;
    }
  }

  lemma RunAppend(m: Machine, es: seq<Event>, e: Event)
    requires Valid(m, es) && Enabled(Final(m, es), e)
    ensures Valid(m, es + [e]) && Final(m, es + [e]) == Apply(Final(m, es), e)
  {
    var f := Final(m, es);
    assert [e][1..] == [] && Valid(Apply(f, e), []);
    assert Valid(f, [e]) && Final(f, [e]) == Apply(f, e);
    RunConcat(m, es, [e]);
  }

  // ----- Restart -----

  /** What a restarting drone registers for a backend it finds in `s`, in this order. */
  function RestartRecords(s: State): (State, State) {
    (s.ToHardTerminating(KeyExpired), s.ToTerminated(None))
  }

  /**
   A restart records hard termination, but computes the final record from the state before it:
   that record agrees exactly when the backend was being hard-terminated already. (No transition
   produces a terminating state of another kind than soft.)
   */
  lemma RestartKindIff(s: State)
    requires !s.InTerminated? && (s.InTerminating? ==> s.termination == Soft)
    ensures RestartRecords(s).0.InHardTerminating? && RestartRecords(s).1.InTerminated?
    ensures RestartRecords(s).1 == RestartRecords(s).0.ToTerminated(None) <==> s.InHardTerminating?
    ensures RestartRecords(s).1.kind == Some(Hard) <==> s.InHardTerminating?
  {
  }

  lemma RestartForgetsHardStop(a: Address)
    ensures RestartRecords(InReady(a))
            == (InHardTerminating(Ready, KeyExpired), InTerminated(Ready, None, None, None))
  {
  }

  ghost predicate Kept(events: map<nat, Store.EventRow>, more: map<nat, Store.EventRow>) {
    forall id :: id in events ==> id in more && more[id] == events[id]
  }

  ghost predicate EventAt(events: map<nat, Store.EventRow>, id: nat, b: BackendId, s: State) {
    id in events && events[id].backend == b && events[id].state == s
  }

  /** Where the two records of a backend are; those of other backends may lie between them. */
  ghost predicate RestartedAt(events: map<nat, Store.EventRow>, first: nat, second: nat, b: BackendId,
                              s: State)
  {
    first < second && EventAt(events, first, b, RestartRecords(s).0)
    && EventAt(events, second, b, RestartRecords(s).1)
  }

  /** How far the restart has come: backends not begun, and those with one record only. */
  datatype Progress = Progress(
    active: map<BackendId, State>,
    waiting: set<BackendId>,
    halfway: set<BackendId>,
    first: map<BackendId, nat>,
    second: map<BackendId, nat>)

  ghost predicate StatesSoFar(p: Progress, was: map<BackendId, State>, states: map<BackendId, State>) {
    && (forall b :: b in states <==> b in was)
    && forall b :: b in states ==>
         states[b] == (if b !in p.active || b in p.waiting then was[b]
                       else if b in p.halfway then RestartRecords(p.active[b]).0
                       else RestartRecords(p.active[b]).1)
  }

  ghost predicate EventsSoFar(p: Progress, events: map<nat, Store.EventRow>) {
    && (forall b :: b in p.active && b !in p.waiting ==>
          b in p.first && EventAt(events, p.first[b], b, RestartRecords(p.active[b]).0))
    && (forall b :: b in p.active && b !in p.waiting && b !in p.halfway ==>
          b in p.second && RestartedAt(events, p.first[b], p.second[b], b, p.active[b]))
  }

  /** The next record of `b`, stored under `id`. */
  function Recorded(p: Progress, b: BackendId, id: nat): Progress {
    if b in p.waiting
    then p.(waiting := p.waiting - {b}, halfway := p.halfway + {b}, first := p.first[b := id])
    else p.(halfway := p.halfway - {b}, second := p.second[b := id])
  }

  function NextRecord(p: Progress, b: BackendId): State
    requires b in p.active
  {
    if b in p.waiting then RestartRecords(p.active[b]).0 else RestartRecords(p.active[b]).1
  }

  lemma RecordKeepsStates(p: Progress, was: map<BackendId, State>, states: map<BackendId, State>,
                          b: BackendId, id: nat)
    requires StatesSoFar(p, was, states) && b in p.active && b in was
    requires p.waiting !! p.halfway && (b in p.waiting || b in p.halfway)
    ensures StatesSoFar(Recorded(p, b, id), was, states[b := NextRecord(p, b)])
  {
  }

  lemma RecordKeepsEvents(p: Progress, events: map<nat, Store.EventRow>, b: BackendId, id: nat,
                          row: Store.EventRow)
    requires EventsSoFar(p, events) && b in p.active
    requires p.waiting !! p.halfway && (b in p.waiting || b in p.halfway)
    requires (forall k :: k in events ==> k < id) && row.backend == b && row.state == NextRecord(p, b)
    ensures EventsSoFar(Recorded(p, b, id), events[id := row])
  {
  }

  function Remaining(p: Progress): nat {
    2 * |p.waiting| + |p.halfway|
  }

  lemma RecordIsProgress(p: Progress, b: BackendId, id: nat)
    requires p.waiting !! p.halfway && (b in p.waiting || b in p.halfway)
    ensures Remaining(Recorded(p, b, id)) == Remaining(p) - 1
  {
    if b in p.waiting {
      assert |p.halfway + {b}| == |p.halfway| + 1;
    }
  }

  /** Every backend is still known, and terminated. */
  ghost predicate AllTerminated(was: map<BackendId, State>, states: map<BackendId, State>) {
    && (forall b :: b in states <==> b in was)
    && forall b :: b in states ==>
         states[b] == if was[b].InTerminated? then was[b] else RestartRecords(was[b]).1
  }

  /** Both records of every backend that was not are stored, in their order. */
  ghost predicate AllRecorded(was: map<BackendId, State>, events: map<nat, Store.EventRow>,
                              first: map<BackendId, nat>, second: map<BackendId, nat>)
  {
    forall b :: b in was && !was[b].InTerminated? ==>
      b in first && b in second && RestartedAt(events, first[b], second[b], b, was[b])
  }

  ghost predicate Underway(p: Progress, was: map<BackendId, State>, states: map<BackendId, State>,
                           events: map<nat, Store.EventRow>)
  {
    && (forall b :: b in p.active <==> b in was && !was[b].InTerminated?)
    && (forall b :: b in p.active ==> p.active[b] == was[b])
    && p.waiting !! p.halfway
    && (forall b :: b in p.waiting || b in p.halfway ==> b in p.active)
    && StatesSoFar(p, was, states) && EventsSoFar(p, events)
  }

  lemma AtFirst(active: map<BackendId, State>, was: map<BackendId, State>, events: map<nat, Store.EventRow>)
    requires forall b :: b in active <==> b in was && !was[b].InTerminated?
    requires forall b :: b in active ==> active[b] == was[b]
    ensures Underway(Progress(active, active.Keys, {}, map[], map[]), was, was, events)
  {
  }

  lemma NothingRemains(p: Progress, was: map<BackendId, State>, states: map<BackendId, State>,
                       events: map<nat, Store.EventRow>)
    requires p.waiting + p.halfway == {} && Underway(p, was, states, events)
    ensures AllTerminated(was, states) && AllRecorded(was, events, p.first, p.second)
  {
    assert p.waiting == {} && p.halfway == {};
  }

  /**
   After a restart no backend in the store is left running, and two events say so for each. All
   backends are terminated concurrently: in each pass any one that is not done gets its next record.
   */
  method TerminatePreexisting(store: Store.StateStore, clock: nat -> Time)
    returns (ghost first: map<BackendId, nat>, ghost second: map<BackendId, nat>)
    requires store.Valid()
    modifies store
    ensures store.Valid()
    ensures Kept(old(store.events), store.events)
    ensures AllTerminated(old(store.backends), store.backends)
    ensures AllRecorded(old(store.backends), store.events, first, second)
  {
    ghost var was, had := store.backends, store.events;
    var active := store.ActiveBackends();
    var p := Progress(active, active.Keys, {}, map[], map[]);
    AtFirst(active, was, had);
    var i := 0;
    while p.waiting + p.halfway != {}
      invariant store.Valid() && Kept(had, store.events)
      invariant Underway(p, was, store.backends, store.events)
      decreases Remaining(p)
    {
      var b :| b in p.waiting + p.halfway;
      p := RecordNext(store, p, b, clock(i), was, had);
      i := i + 1;
    }
    first, second := p.first, p.second;
    NothingRemains(p, was, store.backends, store.events);
  }

  /** One pass: the next record of `b`. */
  method RecordNext(store: Store.StateStore, p: Progress, b: BackendId, at: Time,
                    ghost was: map<BackendId, State>, ghost had: map<nat, Store.EventRow>)
    returns (q: Progress)
    requires store.Valid() && (b in p.waiting || b in p.halfway)
    requires Underway(p, was, store.backends, store.events) && Kept(had, store.events)
    modifies store
    ensures store.Valid() && q == Recorded(p, b, old(store.nextId)) && Remaining(q) < Remaining(p)
    ensures Underway(q, was, store.backends, store.events) && Kept(had, store.events)
  {
    var s := p.active[b];
    RecordIsProgress(p, b, store.nextId);
    RecordKeepsStates(p, was, store.backends, b, store.nextId);
    RecordKeepsEvents(p, store.events, b, store.nextId, Store.EventRow(b, NextRecord(p, b), at / 1000));
    q := Recorded(p, b, store.nextId);
    store.RegisterEvent(b, if b in p.waiting then s.ToHardTerminating(KeyExpired) else s.ToTerminated(None), at);
  }
}
