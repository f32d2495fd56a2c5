/**
 The proxy's route cache (plane/src/proxy/route_map.rs): an LRU map from tokens to routes, and
 lookups that wait on a channel for the response to their request.
 */
module RouteMap {
  import opened Basics

  type Token = string

  datatype RouteInfo = RouteInfo(backend: BackendId, address: Address)

  /** One cached answer; `None` says that the token leads nowhere. */
  datatype Cached = Cached(token: Token, route: Option<RouteInfo>)

  // ----- The LRU cache: most recently used first -----

  function Without(cache: seq<Cached>, t: Token): (r: seq<Cached>)
    ensures |r| <= |cache|
    ensures forall e :: e in r <==> e in cache && e.token != t
  {
    if cache == [] then []
    else (if cache[0].token == t then [] else [cache[0]]) + Without(cache[1..], t)
  }

  function Find(cache: seq<Cached>, t: Token): (r: Option<Option<RouteInfo>>)
    ensures r.Some? ==> Cached(t, r.value) in cache
    ensures r.None? <==> forall e :: e in cache ==> e.token != t
  {
    if cache == [] then None
    else if cache[0].token == t then Some(cache[0].route)
    else Find(cache[1..], t)
  }

  /** A hit becomes the most recently used entry. */
  function Promote(cache: seq<Cached>, t: Token): seq<Cached> {
    match Find(cache, t)
    case None => cache
    case Some(route) => [Cached(t, route)] + Without(cache, t)
  }

  /** A push puts its entry first and, if there is no room, drops the least recently used one. */
  function Push(cache: seq<Cached>, t: Token, route: Option<RouteInfo>, capacity: nat): seq<Cached> {
    var rest := Without(cache, t);
    [Cached(t, route)] + (if |rest| < capacity || rest == [] then rest else rest[..|rest| - 1])
  }

  function Cleared(route: Option<RouteInfo>, b: BackendId): Option<RouteInfo> {
    if route.Some? && route.value.backend == b then None else route
  }

  function Invalidate(cache: seq<Cached>, b: BackendId): (r: seq<Cached>)
    ensures |r| == |cache|
  {
    seq(|cache|, i requires 0 <= i < |cache| => cache[i].(route := Cleared(cache[i].route, b)))
  }

  // ----- Lookups -----

  /** A lookup between its steps: missed the cache, has a channel, or has sent its request too. */
  datatype Lookup = Missed | Listening(channel: nat) | Awaiting(channel: nat)

  datatype State = State(
    cache: seq<Cached>,
    capacity: nat,
    listeners: map<Token, nat>,
    nextChannel: nat,
    signalled: set<nat>,
    connected: bool)

  function GetRoute(s: State, t: Token): (State, Option<Option<RouteInfo>>) {
    (s.(cache := Promote(s.cache, t)), Find(s.cache, t))
  }

  /** Joins the channel of the token, or opens one. */
  function Listen(s: State, t: Token): (State, nat) {
    if t in s.listeners then (s, s.listeners[t])
    else (s.(listeners := s.listeners[t := s.nextChannel], nextChannel := s.nextChannel + 1),
          s.nextChannel)
  }

  /** A response is stored under one lock, and its waiters are signalled under another. */
  function Store(s: State, t: Token, route: Option<RouteInfo>): State {
    s.(cache := Push(s.cache, t, route, s.capacity))
  }

  function Signal(s: State, t: Token): State {
    if t in s.listeners
    then s.(signalled := s.signalled + {s.listeners[t]}, listeners := s.listeners - {t})
    else s
  }

  function RemoveBackend(s: State, b: BackendId): State {
    s.(cache := Invalidate(s.cache, b))
  }

  // ----- The object -----

  class RouteMap {
    const capacity: nat
    var routes: seq<Cached>
    var connected: bool
    var listeners: map<Token, nat>
    var nextChannel: nat
    var signalled: set<nat>

    /** Requests handed to the sender. */
    var requests: seq<Token>

    function View(): State
      reads this
    {
      State(routes, capacity, listeners, nextChannel, signalled, connected)
    }

    constructor ()
      ensures View() == State([], 1_000, map[], 0, {}, false) && requests == []
    {
      capacity := 1_000;
      routes, connected, listeners, nextChannel, signalled, requests := [], false, map[], 0, {}, [];
    }

    method SetSender()
      modifies this
      ensures View() == old(View()).(connected := true) && requests == old(requests)
    {
      connected := true;
    }

    /** A lookup up to its await: an answer from the cache, or a channel to wait on. */
    method BeginLookup(t: Token) returns (r: Option<Option<RouteInfo>>, channel: Option<nat>)
      modifies this
      ensures r == (if Find(old(routes), t).Some? then Find(old(routes), t)
                    else if old(connected) then None else Some(None))
      ensures Find(old(routes), t).Some? ==>
                channel == None && View() == GetRoute(old(View()), t).0 && requests == old(requests)
      ensures Find(old(routes), t).None? ==>
                && View() == Listen(old(View()), t).0
                && channel == (if old(connected) then Some(Listen(old(View()), t).1) else None)
                && requests == old(requests) + (if old(connected) then [t] else [])
    {
      var hit := Find(routes, t);
      routes := Promote(routes, t);
      if hit.Some? {
        return hit, None;
      }
      if t !in listeners {
        listeners := listeners[t := nextChannel];
        nextChannel := nextChannel + 1;
      }
      if !connected {
        return Some(None), None;
      }
      requests := requests + [t];
      return None, Some(listeners[t]);
    }

    /** A lookup after its channel was signalled. */
    method FinishLookup(t: Token) returns (r: Option<RouteInfo>)
      modifies this
      ensures View() == GetRoute(old(View()), t).0 && requests == old(requests)
      ensures r == (if Find(old(routes), t).Some? then Find(old(routes), t).value else None)
    {
      var hit := Find(routes, t);
      routes := Promote(routes, t);
      r := if hit.Some? then hit.value else None;
    }

    method Receive(t: Token, route: Option<RouteInfo>)
      modifies this
      ensures View() == Signal(Store(old(View()), t, route), t) && requests == old(requests)
    {
      routes := Push(routes, t, route, capacity);
      if t in listeners {
        signalled := signalled + {listeners[t]};
        listeners := listeners - {t};
      }
    }

    method RemoveRoutesTo(b: BackendId)
      modifies this
      ensures View() == RemoveBackend(old(View()), b) && requests == old(requests)
    {
      for i := 0 to |routes|
        invariant |routes| == |old(routes)| && requests == old(requests)
        invariant View() == old(View()).(cache := routes)
        invariant forall k :: 0 <= k < i ==>
                    routes[k] == old(routes)[k].(route := Cleared(old(routes)[k].route, b))
        invariant forall k :: i <= k < |routes| ==> routes[k] == old(routes)[k]
      {
        if routes[i].route.Some? && routes[i].route.value.backend == b {
          routes := routes[i := routes[i].(route := None)];
        }
      }
    }
  }

  // ----- Concurrent lookups, and the unbounded map -----

  /**
   The cache with the lookups in progress and the responses stored but not yet signalled, next to
   the map without a bound that the same responses and removals would have built.
   */
  datatype System = System(
    s: State,
    tokens: map<nat, Token>,
    lookups: map<nat, Lookup>,
    stored: multiset<Token>,
    all: map<Token, Option<RouteInfo>>,
    returned: map<nat, Option<RouteInfo>>)

  datatype Step =
    | Check(id: nat, token: Token)
    | Join(id: nat)
    | Ask(id: nat)
    | Respond(token: Token, route: Option<RouteInfo>)
    | Notify(token: Token)
    | BackendGone(backend: BackendId)
    | Resume(id: nat)
    | Connect

  function Return(y: System, id: nat, r: Option<RouteInfo>): System {
    y.(lookups := y.lookups - {id}, returned := y.returned[id := r])
  }

  predicate Enabled(y: System, step: Step) {
    match step
    case Check(id, _) => id !in y.tokens
    case Join(id) => id in y.lookups && id in y.tokens && y.lookups[id].Missed?
    case Ask(id) => id in y.lookups && y.lookups[id].Listening?
    case Respond(_, _) => true
    case Notify(t) => t in y.stored
    case BackendGone(_) => true
    case Resume(id) =>
      id in y.lookups && id in y.tokens && y.lookups[id].Awaiting?
      && y.lookups[id].channel in y.s.signalled
    case Connect => true
  }

  function Apply(y: System, step: Step): System
    requires Enabled(y, step)
  {
    match step
    case Check(id, t) =>
      var (s, hit) := GetRoute(y.s, t);
      var z := y.(s := s, tokens := y.tokens[id := t]);
      if hit.Some? then Return(z, id, hit.value) else z.(lookups := z.lookups[id := Missed])
    case Join(id) =>
      var (s, c) := Listen(y.s, y.tokens[id]);
      y.(s := s, lookups := y.lookups[id := Listening(c)])
    case Ask(id) =>
      if y.s.connected then y.(lookups := y.lookups[id := Awaiting(y.lookups[id].channel)])
      else Return(y, id, None)
    case Respond(t, route) =>
      y.(s := Store(y.s, t, route), stored := y.stored + multiset{t}, all := y.all[t := route])
    case Notify(t) => y.(s := Signal(y.s, t), stored := y.stored - multiset{t})
    case BackendGone(b) =>
      y.(s := RemoveBackend(y.s, b), all := map t | t in y.all :: Cleared(y.all[t], b))
    case Resume(id) =>
      var (s, hit) := GetRoute(y.s, y.tokens[id]);
      Return(y.(s := s), id, if hit.Some? then hit.value else None)
    case Connect => y.(s := y.s.(connected := true))
  }

  predicate Valid(y: System, steps: seq<Step>)
    decreases |steps|
  {
    steps == [] || (Enabled(y, steps[0]) && Valid(Apply(y, steps[0]), steps[1..]))
  }

  function Final(y: System, steps: seq<Step>): System
    requires Valid(y, steps)
    decreases |steps|
  {
    if steps == [] then y else Final(Apply(y, steps[0]), steps[1..])
  }

  const EMPTY: System := System(State([], 1_000, map[], 0, {}, false), map[], map[], multiset{}, map[], map[])

  /** Whatever was evicted, what is cached is what the unbounded map has. */
  ghost predicate Agrees(cache: seq<Cached>, all: map<Token, Option<RouteInfo>>) {
    forall e :: e in cache ==> e.token in all && all[e.token] == e.route
  }

  /** A channel in use is signalled already, or is the one that the next response will signal. */
  ghost predicate Reachable(s: State, t: Token, channel: nat) {
    channel in s.signalled || (t in s.listeners && s.listeners[t] == channel)
  }

  ghost predicate Waiters(y: System) {
    forall id :: id in y.lookups && !y.lookups[id].Missed? ==>
      id in y.tokens && Reachable(y.s, y.tokens[id], y.lookups[id].channel)
  }

  ghost predicate Inv(y: System) {
    CacheSound(y) && Waiters(y)
  }

  lemma PushAgrees(cache: seq<Cached>, all: map<Token, Option<RouteInfo>>, t: Token,
                   route: Option<RouteInfo>, capacity: nat)
    requires Agrees(cache, all) && |cache| <= capacity && capacity > 0
    ensures Agrees(Push(cache, t, route, capacity), all[t := route])
    ensures |Push(cache, t, route, capacity)| <= capacity
  {
    var rest := Without(cache, t);
    forall e | e in Push(cache, t, route, capacity)
      ensures e.token in all[t := route] && all[t := route][e.token] == e.route
    {
      assert e == Cached(t, route) || e in rest;
    }
  }

  lemma InvalidateAgrees(cache: seq<Cached>, all: map<Token, Option<RouteInfo>>, b: BackendId)
    requires Agrees(cache, all)
    ensures Agrees(Invalidate(cache, b), map t | t in all :: Cleared(all[t], b))
  {
    forall e | e in Invalidate(cache, b)
      ensures e.token in all && Cleared(all[e.token], b) == e.route
    {
      var i :| 0 <= i < |cache| && e == Invalidate(cache, b)[i];
      assert cache[i] in cache;
    }
  }

  lemma {:induction false} WithoutIsShorter(cache: seq<Cached>, t: Token)
    requires Find(cache, t).Some?
    ensures |Without(cache, t)| < |cache|
  {
    if cache[0].token != t {
      WithoutIsShorter(cache[1..], t);
    }
  }

  lemma PromoteKeeps(cache: seq<Cached>, t: Token)
    ensures |Promote(cache, t)| <= |cache|
    ensures forall e :: e in Promote(cache, t) ==> e in cache
  {
    if Find(cache, t).Some? {
      WithoutIsShorter(cache, t);
    }
  }

  lemma JoinKeepsWaiters(y: System, id: nat)
    requires Waiters(y) && Enabled(y, Join(id))
    ensures Waiters(Apply(y, Join(id)))
  {
  }

  lemma NotifyKeepsWaiters(y: System, t: Token)
    requires Waiters(y) && Enabled(y, Notify(t))
    ensures Waiters(Apply(y, Notify(t)))
  {
  }

  lemma StepKeepsWaiters(y: System, step: Step)
    requires Waiters(y) && Enabled(y, step)
    ensures Waiters(Apply(y, step))
  {
    match step
    case Join(id) => JoinKeepsWaiters(y, id);
    case Notify(t) => NotifyKeepsWaiters(y, t);
    case _ =>
  }

  ghost predicate CacheSound(y: System) {
    Agrees(y.s.cache, y.all) && |y.s.cache| <= y.s.capacity && y.s.capacity > 0
  }

  lemma StepKeepsInv(y: System, step: Step)
    requires Inv(y) && Enabled(y, step)
    ensures Inv(Apply(y, step))
  {
    StepKeepsWaiters(y, step);
    StepKeepsCache(y, step);
  }

  lemma StepKeepsCache(y: System, step: Step)
    requires CacheSound(y) && Enabled(y, step)
    ensures CacheSound(Apply(y, step))
  {
    match step
    case Check(_, t) => PromoteKeeps(y.s.cache, t);
    case Resume(id) => PromoteKeeps(y.s.cache, y.tokens[id]);
    case Respond(t, route) => PushAgrees(y.s.cache, y.all, t, route, y.s.capacity);
    case BackendGone(b) => InvalidateAgrees(y.s.cache, y.all, b);
    case _ =>
  }

  lemma {:induction false} RunKeepsInv(y: System, steps: seq<Step>)
    requires Inv(y) && Valid(y, steps)
    ensures Inv(Final(y, steps))
    decreases |steps|
  {
    if steps != [] {
      StepKeepsInv(y, steps[0]);
      RunKeepsInv(Apply(y, steps[0]), steps[1..]);
    }
  }

  /**
   In every run, once a lookup has a channel, the first response for its token that is signalled
   afterwards, so at the latest the one to its own request, leaves that channel signalled.
   */
  lemma ResponseWakesEveryWaiter(steps: seq<Step>, id: nat)
    requires Valid(EMPTY, steps)
    requires var y := Final(EMPTY, steps); id in y.lookups && !y.lookups[id].Missed?
    ensures var y := Final(EMPTY, steps);
            && id in y.tokens && y.lookups[id].channel in Signal(y.s, y.tokens[id]).signalled
            && (y.lookups[id].Awaiting? && y.tokens[id] in y.stored ==>
                  Enabled(Apply(y, Notify(y.tokens[id])), Resume(id)))
  {
    RunKeepsInv(EMPTY, steps);
  }

  /** A lookup is known by its id, and is over once it has returned. */
  ghost predicate Settled(y: System) {
    && (forall id :: id in y.lookups ==> id in y.tokens)
    && (forall id :: id in y.returned ==> id in y.tokens && id !in y.lookups)
  }

  lemma {:induction false} RunKeepsSettled(y: System, steps: seq<Step>)
    requires Settled(y) && Valid(y, steps)
    ensures Settled(Final(y, steps))
    ensures forall id :: id in y.returned ==>
              id in Final(y, steps).returned && Final(y, steps).returned[id] == y.returned[id]
    decreases |steps|
  {
    if steps != [] {
      RunKeepsSettled(Apply(y, steps[0]), steps[1..]);
    }
  }

  /** In every run a lookup returns at most once: what it has returned stays. */
  lemma ReturnsOnce(steps: seq<Step>, more: seq<Step>, id: nat)
    requires Valid(EMPTY, steps) && Valid(Final(EMPTY, steps), more) && id in Final(EMPTY, steps).returned
    ensures var y, z := Final(EMPTY, steps), Final(Final(EMPTY, steps), more);
            id !in z.lookups && id in z.returned && z.returned[id] == y.returned[id]
  {
    RunKeepsSettled(EMPTY, steps);
    RunKeepsSettled(Final(EMPTY, steps), more);
  }

  /** A channel that is listened on has not been signalled, and no two tokens share one. */
  ghost predicate Unsignalled(s: State) {
    && (forall c :: c in s.signalled ==> c < s.nextChannel)
    && (forall t :: t in s.listeners ==> s.listeners[t] < s.nextChannel && s.listeners[t] !in s.signalled)
    && (forall t, u :: t in s.listeners && u in s.listeners && s.listeners[t] == s.listeners[u] ==> t == u)
  }

  lemma StepKeepsUnsignalled(y: System, step: Step)
    requires Unsignalled(y.s) && Enabled(y, step)
    ensures Unsignalled(Apply(y, step).s)
  {
    match step
    case Join(id) => ListenKeepsUnsignalled(y.s, y.tokens[id]);
    case Notify(t) => SignalKeepsUnsignalled(y.s, t);
    case _ =>
  }

  lemma ListenKeepsUnsignalled(s: State, t: Token)
    requires Unsignalled(s)
    ensures Unsignalled(Listen(s, t).0)
  {
  }

  lemma SignalKeepsUnsignalled(s: State, t: Token)
    requires Unsignalled(s)
    ensures Unsignalled(Signal(s, t))
  {
  }

  lemma {:induction false} RunKeepsUnsignalled(y: System, steps: seq<Step>)
    requires Unsignalled(y.s) && Valid(y, steps)
    ensures Unsignalled(Final(y, steps).s)
    decreases |steps|
  {
    if steps != [] {
      StepKeepsUnsignalled(y, steps[0]);
      RunKeepsUnsignalled(Apply(y, steps[0]), steps[1..]);
    }
  }

  /** A channel stays unsignalled, and the one of its token, until that token is signalled. */
  lemma {:induction false} ChannelWaits(y: System, steps: seq<Step>, t: Token)
    requires Unsignalled(y.s) && Valid(y, steps) && t in y.s.listeners
    requires Notify(t) !in steps
    ensures var z := Final(y, steps);
            && t in z.s.listeners && z.s.listeners[t] == y.s.listeners[t]
            && z.s.listeners[t] !in z.s.signalled
    decreases |steps|
  {
    if steps != [] {
      assert steps[0] in steps;
      StepKeepsUnsignalled(y, steps[0]);
      ChannelWaits(Apply(y, steps[0]), steps[1..], t);
    }
  }

  /** As long as a lookup is in progress it keeps the channel it has joined. */
  lemma {:induction false} ChannelIsKept(y: System, steps: seq<Step>, id: nat, channel: nat)
    requires Valid(y, steps) && id in y.tokens
    requires id in y.lookups ==> !y.lookups[id].Missed? && y.lookups[id].channel == channel
    ensures var z := Final(y, steps);
            && id in z.tokens
            && (id in z.lookups ==> !z.lookups[id].Missed? && z.lookups[id].channel == channel)
    decreases |steps|
  {
    if steps != [] {
      ChannelIsKept(Apply(y, steps[0]), steps[1..], id, channel);
    }
  }

  /**
   In every run, a lookup that has joined a channel is not woken before a response for its own
   token is signalled after it joined.
   */
  lemma WokenOnlyByItsResponse(before: seq<Step>, id: nat, steps: seq<Step>)
    requires Valid(EMPTY, before) && Enabled(Final(EMPTY, before), Join(id))
    requires var y := Apply(Final(EMPTY, before), Join(id));
             Valid(y, steps) && Notify(y.tokens[id]) !in steps
    ensures var y := Apply(Final(EMPTY, before), Join(id));
            !Enabled(Final(y, steps), Resume(id))
  {
    var y := Final(EMPTY, before);
    RunKeepsUnsignalled(EMPTY, before);
    StepKeepsUnsignalled(y, Join(id));
    var joined := Apply(y, Join(id));
    ChannelWaits(joined, steps, y.tokens[id]);
    ChannelIsKept(joined, steps, id, joined.lookups[id].channel);
  }

  /** A lookup that waits returns the next response for its token, once that is signalled. */
  lemma WaiterIsAnswered(y: System, id: nat, route: Option<RouteInfo>)
    requires Inv(y) && id in y.lookups && y.lookups[id].Awaiting?
    ensures var t := y.tokens[id];
            var steps := [Respond(t, route), Notify(t), Resume(id)];
            && Valid(y, steps) && id in Final(y, steps).returned && Final(y, steps).returned[id] == route
            && Final(y, steps).stored == y.stored
  {
    var t := y.tokens[id];
    var stored := Apply(y, Respond(t, route));
    PushFinds(y.s.cache, t, route, y.s.capacity);
    var told := Apply(stored, Notify(t));
    assert told.s.cache == stored.s.cache;
    Unfold(told, Resume(id), []);
    Unfold(stored, Notify(t), [Resume(id)]);
    Unfold(y, Respond(t, route), [Notify(t), Resume(id)]);
  }

  /** A lookup that misses comes to wait, unless the proxy is unconnected: then it returns nothing. */
  lemma LookupWaits(y: System, id: nat, t: Token)
    requires id !in y.tokens && Find(y.s.cache, t) == None
    ensures var asks := [Check(id, t), Join(id), Ask(id)];
            Valid(y, asks)
            && if y.s.connected
               then id in Final(y, asks).lookups && Final(y, asks).lookups[id].Awaiting?
               else id !in Final(y, asks).lookups && id in Final(y, asks).returned
                    && Final(y, asks).returned[id] == None
  {
    var missed := Apply(y, Check(id, t));
    var joined := Apply(missed, Join(id));
    Unfold(joined, Ask(id), []);
    Unfold(missed, Join(id), [Ask(id)]);
    Unfold(y, Check(id, t), [Join(id), Ask(id)]);
  }

  /** A backend may go at any time, and from then on no token is answered with it. */
  lemma GoneIsForgotten(y: System, b: BackendId, t: Token)
    ensures Enabled(y, BackendGone(b))
    ensures Find(Apply(y, BackendGone(b)).s.cache, t)
            == match Find(y.s.cache, t)
               case Some(Some(route)) => Some(if route.backend == b then None else Some(route))
               case other => other
  {
    FindInvalidated(y.s.cache, b, t);
  }

  lemma {:induction false} FindInvalidated(cache: seq<Cached>, b: BackendId, t: Token)
    ensures Find(Invalidate(cache, b), t)
            == match Find(cache, t)
               case Some(route) => Some(Cleared(route, b))
               case None => None
  {
    if cache != [] {
      assert Invalidate(cache, b)[1..] == Invalidate(cache[1..], b);
      FindInvalidated(cache[1..], b, t);
    }
  }

  /** Whatever the proxy was, once connected its lookups wait for an answer. */
  lemma ConnectedLookupWaits(y: System, id: nat, t: Token)
    requires id !in y.tokens && Find(y.s.cache, t) == None
    ensures var steps := [Step.Connect] + [Check(id, t), Join(id), Ask(id)];
            Valid(y, steps) && id in Final(y, steps).lookups && Final(y, steps).lookups[id].Awaiting?
  {
    LookupWaits(Apply(y, Step.Connect), id, t);
    Unfold(y, Step.Connect, [Check(id, t), Join(id), Ask(id)]);
  }

  lemma Unfold(y: System, step: Step, rest: seq<Step>)
    requires Enabled(y, step) && Valid(Apply(y, step), rest)
    ensures Valid(y, [step] + rest) && Final(y, [step] + rest) == Final(Apply(y, step), rest)
  {
    assert ([step] + rest)[1..] == rest;
  }

  /** A channel that a lookup uses never disappears without having been signalled. */
  lemma ChannelsAreNotDropped(steps: seq<Step>, id: nat)
    requires Valid(EMPTY, steps)
    requires var y := Final(EMPTY, steps);
             id in y.lookups && !y.lookups[id].Missed? && y.lookups[id].channel !in y.s.signalled
    ensures var y := Final(EMPTY, steps);
            id in y.tokens && y.tokens[id] in y.s.listeners
            && y.s.listeners[y.tokens[id]] == y.lookups[id].channel
  {
    RunKeepsInv(EMPTY, steps);
  }

  /**
   What a step returns to a lookup is the unbounded map's route for its token, or nothing: a
   route is never stale, whatever the cache has evicted.
   */
  lemma RoutesAreCurrent(steps: seq<Step>, step: Step, id: nat)
    requires Valid(EMPTY, steps) && Enabled(Final(EMPTY, steps), step)
    requires id !in Final(EMPTY, steps).returned
    requires var z := Apply(Final(EMPTY, steps), step); id in z.returned && z.returned[id].Some?
    ensures var y := Final(EMPTY, steps);
            var z := Apply(y, step);
            id in z.tokens && z.tokens[id] in y.all && y.all[z.tokens[id]] == z.returned[id]
  {
    RunKeepsInv(EMPTY, steps);
  }

  /** After a wake-up, no route is returned exactly when there is none or it was evicted. */
  lemma NoRouteIff(y: System, id: nat)
    requires Inv(y) && Enabled(y, Resume(id))
    ensures var t := y.tokens[id];
            Apply(y, Resume(id)).returned[id] ==
              if exists e :: e in y.s.cache && e.token == t then (if t in y.all then y.all[t] else None)
              else None
  {
  }

  // ----- What stays cached -----

  /** Whatever was cached, a response is what its token is answered with next. */
  lemma PushFinds(cache: seq<Cached>, t: Token, route: Option<RouteInfo>, capacity: nat)
    ensures Find(Push(cache, t, route, capacity), t) == Some(route)
  {
  }

  lemma {:induction false} FindWithout(cache: seq<Cached>, t: Token, u: Token)
    requires u != t
    ensures Find(Without(cache, t), u) == Find(cache, u)
    decreases |cache|
  {
    if cache != [] {
      FindWithout(cache[1..], t, u);
      if cache[0].token != t {
        assert Without(cache, t)[1..] == Without(cache[1..], t);
      } else {
        assert Without(cache, t) == Without(cache[1..], t);
      }
    }
  }

  lemma {:induction false} FindDropLast(cache: seq<Cached>, u: Token)
    requires cache != [] && cache[|cache| - 1].token != u
    ensures Find(cache[..|cache| - 1], u) == Find(cache, u)
    decreases |cache|
  {
    var front := cache[..|cache| - 1];
    if |cache| == 1 {
      assert front == [] && Find(cache[1..], u) == None;
    } else {
      assert front[0] == cache[0] && front[1..] == cache[1..][..|cache| - 2];
      FindDropLast(cache[1..], u);
    }
  }

  /** Other tokens are answered as before, except the least recently used one of a full cache. */
  lemma PushLeavesOthers(cache: seq<Cached>, t: Token, route: Option<RouteInfo>, capacity: nat, u: Token)
    requires u != t
    ensures var rest := Without(cache, t);
            || Find(Push(cache, t, route, capacity), u) == Find(cache, u)
            || (rest != [] && capacity <= |rest| && rest[|rest| - 1].token == u)
  {
    var rest := Without(cache, t);
    FindWithout(cache, t, u);
    var kept := if |rest| < capacity || rest == [] then rest else rest[..|rest| - 1];
    assert Push(cache, t, route, capacity)[1..] == kept;
    if rest != [] && rest[|rest| - 1].token != u {
      FindDropLast(rest, u);
    }
  }

  /**
   The token is cached with this route, and every entry before it is of another token of `used`,
   each at most once.
   */
  predicate Near(cache: seq<Cached>, t: Token, route: Option<RouteInfo>, used: set<Token>)
    decreases |cache|
  {
    cache != [] &&
    if cache[0].token == t then cache[0].route == route
    else cache[0].token in used && Near(cache[1..], t, route, used - {cache[0].token})
  }

  lemma {:induction false} NearFinds(cache: seq<Cached>, t: Token, route: Option<RouteInfo>, used: set<Token>)
    requires Near(cache, t, route, used)
    ensures Find(cache, t) == Some(route)
    decreases |cache|
  {
    if cache[0].token != t {
      NearFinds(cache[1..], t, route, used - {cache[0].token});
    }
  }

  lemma {:induction false} NearMore(cache: seq<Cached>, t: Token, route: Option<RouteInfo>,
                                    used: set<Token>, more: set<Token>)
    requires Near(cache, t, route, used) && used <= more
    ensures Near(cache, t, route, more)
    decreases |cache|
  {
    if cache[0].token != t {
      NearMore(cache[1..], t, route, used - {cache[0].token}, more - {cache[0].token});
    }
  }

  lemma {:induction false} NearWithout(cache: seq<Cached>, t: Token, route: Option<RouteInfo>,
                                       used: set<Token>, u: Token)
    requires Near(cache, t, route, used) && u != t
    ensures Near(Without(cache, u), t, route, used - {u})
    decreases |cache|
  {
    var h := cache[0].token;
    if h != t {
      NearWithout(cache[1..], t, route, used - {h}, u);
      if h == u {
        assert used - {h} - {u} == used - {u};
        assert Without(cache, u) == Without(cache[1..], u);
      } else {
        assert used - {h} - {u} == used - {u} - {h};
        assert Without(cache, u)[1..] == Without(cache[1..], u);
      }
    }
  }

  /** The last entry of a cache that is longer than that is not the token's. */
  lemma {:induction false} NearDropLast(cache: seq<Cached>, t: Token, route: Option<RouteInfo>, used: set<Token>)
    requires Near(cache, t, route, used) && |used| + 2 <= |cache|
    ensures Near(cache[..|cache| - 1], t, route, used)
    decreases |cache|
  {
    var h := cache[0].token;
    if h != t {
      NearDropLast(cache[1..], t, route, used - {h});
      assert cache[..|cache| - 1][1..] == cache[1..][..|cache| - 2];
    }
  }

  lemma {:induction false} NearInvalidate(cache: seq<Cached>, t: Token, route: Option<RouteInfo>,
                                          used: set<Token>, b: BackendId)
    requires Near(cache, t, route, used) && !(route.Some? && route.value.backend == b)
    ensures Near(Invalidate(cache, b), t, route, used)
    decreases |cache|
  {
    if cache[0].token != t {
      NearInvalidate(cache[1..], t, route, used - {cache[0].token}, b);
      assert Invalidate(cache, b)[1..] == Invalidate(cache[1..], b);
    }
  }

  lemma NearPush(cache: seq<Cached>, t: Token, route: Option<RouteInfo>, used: set<Token>,
                 u: Token, other: Option<RouteInfo>, capacity: nat)
    requires Near(cache, t, route, used) && u in used && t !in used && |used| < capacity
    ensures Near(Push(cache, u, other, capacity), t, route, used)
  {
    var rest := Without(cache, u);
    NearWithout(cache, t, route, used, u);
    if capacity <= |rest| {
      NearDropLast(rest, t, route, used - {u});
    }
    var kept := if |rest| < capacity then rest else rest[..|rest| - 1];
    assert Push(cache, u, other, capacity)[1..] == kept;
  }

  lemma NearPromote(cache: seq<Cached>, t: Token, route: Option<RouteInfo>, used: set<Token>, u: Token)
    requires Near(cache, t, route, used) && (u in used || u == t) && t !in used
    ensures Near(Promote(cache, u), t, route, used)
  {
    if u == t {
      NearFinds(cache, t, route, used);
    } else if Find(cache, u).Some? {
      NearWithout(cache, t, route, used, u);
      assert Promote(cache, u)[1..] == Without(cache, u);
    }
  }

  /** The token a step looks up or caches, if any. */
  function Uses(y: System, step: Step): Option<Token>
    requires Enabled(y, step)
  {
    match step
    case Check(_, t) => Some(t)
    case Respond(t, _) => Some(t)
    case Resume(id) => Some(y.tokens[id])
    case _ => None
  }

  /** The run only uses these tokens and `t`, caches no other answer for `t`, and keeps its backend. */
  predicate Leaves(y: System, steps: seq<Step>, t: Token, route: Option<RouteInfo>, used: set<Token>)
    requires Valid(y, steps)
    decreases |steps|
  {
    steps != [] ==>
      && (Uses(y, steps[0]).Some? ==> Uses(y, steps[0]).value in used + {t})
      && !(steps[0].Respond? && steps[0].token == t)
      && !(steps[0].BackendGone? && route.Some? && steps[0].backend == route.value.backend)
      && Leaves(Apply(y, steps[0]), steps[1..], t, route, used)
  }

  lemma StepKeepsNear(y: System, step: Step, t: Token, route: Option<RouteInfo>, used: set<Token>)
    requires Enabled(y, step) && Near(y.s.cache, t, route, used) && t !in used && |used| < y.s.capacity
    requires Uses(y, step).Some? ==> Uses(y, step).value in used + {t}
    requires !(step.Respond? && step.token == t)
    requires !(step.BackendGone? && route.Some? && step.backend == route.value.backend)
    ensures Near(Apply(y, step).s.cache, t, route, used) && Apply(y, step).s.capacity == y.s.capacity
  {
    match step
    case Check(_, u) => NearPromote(y.s.cache, t, route, used, u);
    case Resume(id) => NearPromote(y.s.cache, t, route, used, y.tokens[id]);
    case Respond(u, other) => NearPush(y.s.cache, t, route, used, u, other, y.s.capacity);
    case BackendGone(b) => NearInvalidate(y.s.cache, t, route, used, b);
    case _ =>
  }

  lemma {:induction false} RunKeepsNear(y: System, steps: seq<Step>, t: Token, route: Option<RouteInfo>,
                                        used: set<Token>)
    requires Valid(y, steps) && Near(y.s.cache, t, route, used) && t !in used && |used| < y.s.capacity
    requires Leaves(y, steps, t, route, used)
    ensures Near(Final(y, steps).s.cache, t, route, used)
    decreases |steps|
  {
    if steps != [] {
      StepKeepsNear(y, steps[0], t, route, used);
      RunKeepsNear(Apply(y, steps[0]), steps[1..], t, route, used);
    }
  }

  /**
   From every state and over every run after an answer was stored: a lookup of its token that is
   resumed, or begun, returns that answer, if fewer other tokens than the cache holds were used in
   between, the token was not answered anew, and the route's backend was not removed.
   */
  lemma AnswerIsReturned(y: System, t: Token, route: Option<RouteInfo>, steps: seq<Step>,
                         used: set<Token>, step: Step, id: nat)
    requires t !in used && |used| < y.s.capacity && Valid(Apply(y, Respond(t, route)), steps)
    requires Leaves(Apply(y, Respond(t, route)), steps, t, route, used)
    requires var z := Final(Apply(y, Respond(t, route)), steps);
             && Enabled(z, step)
             && (step == Check(id, t) || (step == Resume(id) && z.tokens[id] == t))
    ensures var z := Final(Apply(y, Respond(t, route)), steps);
            id in Apply(z, step).returned && Apply(z, step).returned[id] == route
  {
    var stored := Apply(y, Respond(t, route));
    assert Near(stored.s.cache, t, route, {});
    NearMore(stored.s.cache, t, route, {}, used);
    RunKeepsNear(stored, steps, t, route, used);
    var z := Final(stored, steps);
    NearFinds(z.s.cache, t, route, used);
  }
}
