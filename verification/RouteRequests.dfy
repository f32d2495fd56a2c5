/**
 How the controller answers a proxy's request for a route (plane/src/controller/proxy.rs): query,
 and if the backend is still starting, subscribe, query again and wait for its updates.
 */
module RouteRequests {
  import opened Basics
  import opened BackendStates
  import opened Tables
  import opened StatusStream

  datatype RouteResult =
    | NotFound
    | Pending(id: BackendId)
    | Available(id: BackendId, address: Address)

  /** A reply carries a route, or says that there is none. */
  datatype Reply = Route(id: BackendId, address: Address) | NoRoute

  /** The backends a token leads to; a static token is a column of the backend itself. */
  predicate LeadsTo(db: Db, token: string, id: BackendId) {
    if IsStatic(token) then id in db.backends && db.backends[id].staticToken == Some(token)
    else token in db.tokens && db.tokens[token] == id && id in db.backends
  }

  function RouteOf(db: Db, id: BackendId): RouteResult
    requires id in db.backends
  {
    var row := db.backends[id];
    match row.status
    case Ready => if row.address.Some? then Available(id, row.address.value) else NotFound
    case Terminated => NotFound
    case Terminating => NotFound
    case HardTerminating => NotFound
    case _ => Pending(id)
  }

  /** `r` is what the query may return for the token: the row of one matching backend. */
  ghost predicate Answers(db: Db, token: string, r: RouteResult) {
    || (r == NotFound && forall id :: !LeadsTo(db, token, id))
    || (exists id :: LeadsTo(db, token, id) && r == RouteOf(db, id))
  }

  /** What a status update makes the waiting task send, if anything. */
  function Respond(id: BackendId, s: State): Option<Reply> {
    match s
    case InReady(a) => Some(Route(id, a))
    case InTerminated(_, _, _, _) => Some(NoRoute)
    case InTerminating(_, _, _) => Some(NoRoute)
    case InHardTerminating(_, _) => Some(NoRoute)
    case _ => None
  }

  function ReplyTo(r: RouteResult): Option<Reply> {
    match r
    case Available(id, a) => Some(Route(id, a))
    case NotFound => Some(NoRoute)
    case Pending(_) => None
  }

  /**
   The handler's control flow, for given query results and the updates its subscription yields
   before it closes or times out: the first of them that settles the request is the answer.
   */
  method HandleRequest(first: RouteResult, second: RouteResult, updates: seq<State>)
    returns (reply: Option<Reply>)
    ensures first.Available? ==> reply == Some(Route(first.id, first.address))
    ensures first.NotFound? ==> reply == Some(NoRoute)
    ensures first.Pending? && second.Available? ==> reply == Some(Route(second.id, second.address))
    ensures first.Pending? && second.NotFound? ==> reply == Some(NoRoute)
    ensures first.Pending? && second.Pending? && reply.None? ==>
              forall i :: 0 <= i < |updates| ==> updates[i].StatusInt() < Ready.AsInt()
    ensures first.Pending? && second.Pending? && reply.Some? ==>
              exists k :: 0 <= k < |updates|
                && (forall i :: 0 <= i < k ==> updates[i].StatusInt() < Ready.AsInt())
                && updates[k].StatusInt() >= Ready.AsInt()
                && reply.value == if updates[k].InReady? then Route(first.id, updates[k].address) else NoRoute
  {
    match first {
      case Available(id, a) => return Some(Route(id, a));
      case NotFound => return Some(NoRoute);
      case Pending(_) =>
    }
    match second {
      case Available(id, a) => return Some(Route(id, a));
      case NotFound => return Some(NoRoute);
      case Pending(_) =>
    }
    var i := 0;
    while i < |updates|
      invariant 0 <= i <= |updates|
      invariant forall k :: 0 <= k < i ==> updates[k].StatusInt() < Ready.AsInt()
    {
      reply := Respond(first.id, updates[i]);
      if reply.Some? {
        return;
      }
      i := i + 1;
    }
    reply := None;
  }

  // ----- Interleaved with the database -----

  datatype Phase =
    | Asked
    | FoundPending(id: BackendId)
    | Subscribed(id: BackendId, from: nat)
    | Awaiting(id: BackendId, next: nat)
    | Over

  /** One request: where its handler is, and the replies sent for it. */
  datatype Request = Request(db: Db, token: string, phase: Phase, sent: seq<Reply>)

  datatype Step =
    | Commit(x: Txn)
    | FirstQuery(result: RouteResult)
    | Subscribe(from: nat)
    | SecondQuery(result: RouteResult)
    | Notify
    | Abandon

  /** The backend in question is not among long-terminated ones that a clean-up takes. */
  predicate Spared(q: Request, x: Txn) {
    x.Cleanup? ==>
      match q.phase
      case FoundPending(id) => id !in x.chosen
      case Subscribed(id, _) => id !in x.chosen
      case Awaiting(id, _) => id !in x.chosen
      case _ => true
  }

  /** Tokens are random: one does not come to lead to another backend between two queries. */
  ghost predicate Enabled(q: Request, step: Step) {
    match step
    case Commit(x) => Tables.Enabled(q.db, x) && Spared(q, x)
    case FirstQuery(r) => q.phase.Asked? && Answers(q.db, q.token, r)
    case Subscribe(from) => q.phase.FoundPending? && from <= |HistoryOf(q.db, q.phase.id)|
    case SecondQuery(r) =>
      q.phase.Subscribed? && Answers(q.db, q.token, r) && (r.Pending? ==> r.id == q.phase.id)
    case Notify => q.phase.Awaiting? && q.phase.next < |HistoryOf(q.db, q.phase.id)|
    case Abandon => true
  }

  function Settle(q: Request, reply: Option<Reply>, otherwise: Phase): Request {
    if reply.Some? then q.(phase := Over, sent := q.sent + [reply.value])
    else q.(phase := otherwise)
  }

  /** A subscription yields every update committed after it began, and maybe some before, in order. */
  function Apply(q: Request, step: Step): Request {
    match step
    case Commit(x) => q.(db := Tables.Apply(q.db, x))
    case FirstQuery(r) => Settle(q, ReplyTo(r), if r.Pending? then FoundPending(r.id) else Over)
    case Subscribe(from) =>
      if q.phase.FoundPending? then q.(phase := Subscribed(q.phase.id, from)) else q
    case SecondQuery(r) =>
      if q.phase.Subscribed?
      then Settle(q, ReplyTo(r), Awaiting(q.phase.id, q.phase.from)) else q
    case Notify =>
      if q.phase.Awaiting? && q.phase.next < |HistoryOf(q.db, q.phase.id)|
      then Settle(q, Respond(q.phase.id, HistoryOf(q.db, q.phase.id)[q.phase.next].state),
                  Awaiting(q.phase.id, q.phase.next + 1))
      else q
    case Abandon => q.(phase := Over)
  }

  ghost predicate Valid(q: Request, steps: seq<Step>)
    decreases |steps|
  {
    steps == [] || (Enabled(q, steps[0]) && Valid(Apply(q, steps[0]), steps[1..]))
  }

  function Final(q: Request, steps: seq<Step>): Request
    decreases |steps|
  {
    if steps == [] then q else Final(Apply(q, steps[0]), steps[1..])
  }

  /** Everything seen of the backend's history is below Ready. */
  predicate NotYetReady(h: seq<HistoryRow>, upTo: nat) {
    upTo <= |h| && forall i :: 0 <= i < upTo ==> h[i].state.StatusInt() < Ready.AsInt()
  }

  ghost predicate Inv(q: Request) {
    && Consistent(q.db)
    && |q.sent| <= 1
    && (!q.phase.Over? ==> q.sent == [])
    && (q.phase.Subscribed? ==> q.phase.from <= |HistoryOf(q.db, q.phase.id)|)
    && (q.phase.Awaiting? ==> NotYetReady(HistoryOf(q.db, q.phase.id), q.phase.next))
  }

  /** A backend whose row says it is pending has not reached Ready in its history. */
  lemma PendingMeansNotReady(db: Db, id: BackendId)
    requires Consistent(db) && id in db.backends && RouteOf(db, id).Pending?
    ensures NotYetReady(HistoryOf(db, id), |HistoryOf(db, id)|)
  {
    var h := HistoryOf(db, id);
    assert RecordOf(db.backends[id], h) && Columns(db.backends[id]);
    assert forall i :: 0 <= i < |h| ==> h[i].state.StatusInt() <= h[|h| - 1].state.StatusInt();
  }

  lemma CommitKeepsInv(q: Request, x: Txn)
    requires Inv(q) && Enabled(q, Commit(x))
    ensures Inv(Apply(q, Commit(x)))
  {
    ApplyKeepsConsistent(q.db, x);
    if q.phase.Subscribed? || q.phase.Awaiting? {
      StepExtendsHistory(q.db, x, q.phase.id);
    }
  }

  lemma SecondQueryKeepsInv(q: Request, r: RouteResult)
    requires Inv(q) && Enabled(q, SecondQuery(r))
    ensures Inv(Apply(q, SecondQuery(r)))
  {
    if r.Pending? {
      PendingMeansNotReady(q.db, r.id);
    }
  }

  lemma NotifyKeepsInv(q: Request)
    requires Inv(q) && Enabled(q, Notify)
    ensures Inv(Apply(q, Notify))
  {
  }

  lemma StepKeepsInv(q: Request, step: Step)
    requires Inv(q) && Enabled(q, step)
    ensures Inv(Apply(q, step))
  {
    match step
    case Commit(x) => CommitKeepsInv(q, x);
    case SecondQuery(r) => SecondQueryKeepsInv(q, r);
    case Notify => NotifyKeepsInv(q);
    case _ =>
  }

  lemma {:induction false} RunKeepsInv(q: Request, steps: seq<Step>)
    requires Inv(q) && Valid(q, steps)
    ensures Inv(Final(q, steps))
    decreases |steps|
  {
    if steps != [] {
      StepKeepsInv(q, steps[0]);
      RunKeepsInv(Apply(q, steps[0]), steps[1..]);
    }
  }

  /** However commits interleave with the queries and the wait, there is at most one answer. */
  lemma AtMostOneAnswer(db: Db, token: string, steps: seq<Step>)
    requires Consistent(db) && Valid(Request(db, token, Asked, []), steps)
    ensures |Final(Request(db, token, Asked, []), steps).sent| <= 1
  {
    RunKeepsInv(Request(db, token, Asked, []), steps);
  }

  /** A handler that has seen every update and is still waiting waits for a backend below Ready. */
  lemma NoMissedReady(db: Db, token: string, steps: seq<Step>)
    requires Consistent(db) && Valid(Request(db, token, Asked, []), steps)
    requires var q := Final(Request(db, token, Asked, []), steps);
             q.phase.Awaiting? && q.phase.next == |HistoryOf(q.db, q.phase.id)|
    ensures var q := Final(Request(db, token, Asked, []), steps);
            q.phase.id in q.db.backends ==> q.db.backends[q.phase.id].state.StatusInt() < Ready.AsInt()
  {
    RunKeepsInv(Request(db, token, Asked, []), steps);
    var q := Final(Request(db, token, Asked, []), steps);
    if q.phase.id in q.db.backends {
      assert RecordOf(q.db.backends[q.phase.id], q.db.history[q.phase.id]);
    }
  }

  /** The first update at or above Ready always settles a waiting request. */
  lemma FirstReadyAnswers(q: Request, step: Step)
    requires Inv(q) && q.phase.Awaiting? && step.Notify? && Enabled(q, step)
    ensures var s := HistoryOf(q.db, q.phase.id)[q.phase.next].state;
            var after := Apply(q, step);
            && (s.StatusInt() >= Ready.AsInt() <==> after.phase.Over?)
            && (after.phase.Over? ==>
                  after.sent == [if s.InReady? then Route(q.phase.id, s.address) else NoRoute])
  {
  }

  /** A route is only ever sent for a backend whose history has it Ready at that address. */
  ghost predicate RoutesReachedReady(q: Request) {
    forall i :: 0 <= i < |q.sent| && q.sent[i].Route? ==>
      exists k :: 0 <= k < |HistoryOf(q.db, q.sent[i].id)|
        && HistoryOf(q.db, q.sent[i].id)[k].state == InReady(q.sent[i].address)
  }

  /** In every run, the step that sends a route finds the backend's history at Ready. */
  lemma RouteNeedsReady(db: Db, token: string, steps: seq<Step>, step: Step)
    requires Consistent(db) && Valid(Request(db, token, Asked, []), steps)
    requires Final(Request(db, token, Asked, []), steps).sent == []
    requires Enabled(Final(Request(db, token, Asked, []), steps), step)
    ensures RoutesReachedReady(Apply(Final(Request(db, token, Asked, []), steps), step))
  {
    RunKeepsInv(Request(db, token, Asked, []), steps);
    var q := Final(Request(db, token, Asked, []), steps);
    match step
    case FirstQuery(r) => if r.Available? { AvailableMeansReady(q.db, q.token, r); }
    case SecondQuery(r) => if r.Available? { AvailableMeansReady(q.db, q.token, r); }
    case _ =>
  }

  lemma AvailableMeansReady(db: Db, token: string, r: RouteResult)
    requires Consistent(db) && Answers(db, token, r) && r.Available?
    ensures exists k :: 0 <= k < |HistoryOf(db, r.id)| && HistoryOf(db, r.id)[k].state == InReady(r.address)
  {
    var h := HistoryOf(db, r.id);
    assert RecordOf(db.backends[r.id], h) && Columns(db.backends[r.id]);
    assert h[|h| - 1].state == InReady(r.address);
  }

  // ----- What a query answers -----

  /** The answer for a backend, by its stored state: wait below ready, a route at it, none beyond. */
  lemma RouteByState(db: Db, id: BackendId)
    requires Consistent(db) && id in db.backends
    ensures var s := db.backends[id].state;
            && (RouteOf(db, id) == Pending(id) <==> s.StatusInt() < Ready.AsInt())
            && (forall a :: RouteOf(db, id) == Available(id, a) <==> s == InReady(a))
            && (RouteOf(db, id) == NotFound <==> Ready.AsInt() < s.StatusInt())
  {
    assert Columns(db.backends[id]);
  }

  /** A token that leads to one backend is answered for it; one that leads nowhere is not found. */
  lemma QueryAnswersIff(db: Db, token: string, id: BackendId, r: RouteResult)
    requires Consistent(db) && LeadsTo(db, token, id) && forall x :: LeadsTo(db, token, x) ==> x == id
    ensures var s := db.backends[id].state;
            Answers(db, token, r)
            <==> || (s.StatusInt() < Ready.AsInt() && r == Pending(id))
                 || (s.InReady? && r == Available(id, s.address))
                 || (Ready.AsInt() < s.StatusInt() && r == NotFound)
  {
    RouteByState(db, id);
    assert Columns(db.backends[id]);
    if db.backends[id].state.InReady? {
      assert RouteOf(db, id) == Available(id, db.backends[id].state.address);
    }
  }

  /** A token that was made for a backend leads to it and to no other. */
  lemma StoredTokenLeads(db: Db, token: string, id: BackendId, x: BackendId)
    requires Consistent(db) && id in db.backends && token !in db.tokens
    requires !(|token| >= 2 && token[0] == 's' && token[1] == '.')
    ensures LeadsTo(Tables.Apply(db, CreateToken(token, id)), token, x) <==> x == id
  {
  }

  /** A static token leads to every backend that was created with it, and to no other. */
  lemma StaticTokenLeads(db: Db, n: NewBackend, token: string, x: BackendId)
    requires CanCreate(db, n)
    requires |token| >= 2 && token[0] == 's' && token[1] == '.'
    ensures LeadsTo(Tables.Apply(db, Create(n)), token, x)
            <==> if x == n.id then n.staticToken == Some(token) else LeadsTo(db, token, x)
  {
  }

  /** What a query finds settles the request at once, unless the backend is still to get ready. */
  lemma QuerySettles(q: Request, step: Step, r: RouteResult)
    requires Enabled(q, step) && (step == FirstQuery(r) || step == SecondQuery(r)) && q.sent == []
    ensures var after := Apply(q, step);
            && (r.Available? ==> after.phase.Over? && after.sent == [Route(r.id, r.address)])
            && (r.NotFound? ==> after.phase.Over? && after.sent == [NoRoute])
            && (r.Pending? ==>
                  after.sent == [] && after.phase == (if step.FirstQuery? then FoundPending(r.id)
                                                      else Awaiting(q.phase.id, q.phase.from)))
  {
  }

  /** A backend that is at Terminating or beyond. */
  predicate Ending(s: State) {
    s.InTerminating? || s.InHardTerminating? || s.InTerminated?
  }

  /**
   In every run a request is told that there is no route only if its token leads nowhere, or to a
   backend whose termination has begun.
   */
  lemma NoRouteNeedsReason(db: Db, token: string, steps: seq<Step>, step: Step)
    requires Consistent(db) && Valid(Request(db, token, Asked, []), steps)
    requires Enabled(Final(Request(db, token, Asked, []), steps), step)
    requires var q := Final(Request(db, token, Asked, []), steps);
             q.sent == [] && NoRoute in Apply(q, step).sent
    ensures var q := Final(Request(db, token, Asked, []), steps);
            || (forall id :: !LeadsTo(q.db, q.token, id))
            || (exists id :: LeadsTo(q.db, q.token, id) && Ending(q.db.backends[id].state))
            || (q.phase.Awaiting?
                && exists k :: 0 <= k < |HistoryOf(q.db, q.phase.id)|
                     && Ending(HistoryOf(q.db, q.phase.id)[k].state))
  {
    RunKeepsInv(Request(db, token, Asked, []), steps);
    var q := Final(Request(db, token, Asked, []), steps);
    match step
    case FirstQuery(r) => NotFoundNeedsReason(q.db, q.token, r);
    case SecondQuery(r) => NotFoundNeedsReason(q.db, q.token, r);
    case Notify => assert Ending(HistoryOf(q.db, q.phase.id)[q.phase.next].state);
  }

  lemma NotFoundNeedsReason(db: Db, token: string, r: RouteResult)
    requires Consistent(db) && Answers(db, token, r)
    ensures r == NotFound ==>
              || (forall id :: !LeadsTo(db, token, id))
              || (exists id :: LeadsTo(db, token, id) && Ending(db.backends[id].state))
  {
    if id :| LeadsTo(db, token, id) && r == RouteOf(db, id) {
      RouteByState(db, id);
    }
  }

  // ----- Requests that get through -----

  lemma Unfold(q: Request, step: Step, rest: seq<Step>)
    requires Enabled(q, step) && Valid(Apply(q, step), rest)
    ensures Valid(q, [step] + rest) && Final(q, [step] + rest) == Final(Apply(q, step), rest)
  {
    assert ([step] + rest)[1..] == rest;
  }

  /** A request may be given up at any time, and one that is over is never answered again. */
  lemma {:induction false} OverStaysOver(q: Request, steps: seq<Step>)
    requires q.phase.Over? && Valid(q, steps)
    ensures Final(q, steps).phase.Over? && Final(q, steps).sent == q.sent
    ensures Enabled(q, Abandon) && Apply(q, Abandon) == q
    decreases |steps|
  {
    if steps != [] {
      OverStaysOver(Apply(q, steps[0]), steps[1..]);
    }
  }

  lemma AbandonIsSilent(q: Request)
    ensures Enabled(q, Abandon) && Apply(q, Abandon).phase.Over? && Apply(q, Abandon).sent == q.sent
  {
  }

  /** A request for a backend that is still starting comes to wait for its next update. */
  lemma PendingIsAwaited(db: Db, token: string, id: BackendId)
    requires Consistent(db) && LeadsTo(db, token, id)
    requires db.backends[id].state.StatusInt() < Ready.AsInt()
    ensures var n := |HistoryOf(db, id)|;
            var steps := [FirstQuery(Pending(id)), Subscribe(n), SecondQuery(Pending(id))];
            && Valid(Request(db, token, Asked, []), steps)
            && Final(Request(db, token, Asked, []), steps) == Request(db, token, Awaiting(id, n), [])
  {
    RouteByState(db, id);
    var n := |HistoryOf(db, id)|;
    var q := Request(db, token, Asked, []);
    var found := Apply(q, FirstQuery(Pending(id)));
    var subscribed := Apply(found, Subscribe(n));
    Unfold(subscribed, SecondQuery(Pending(id)), []);
    Unfold(found, Subscribe(n), [SecondQuery(Pending(id))]);
    Unfold(q, FirstQuery(Pending(id)), [Subscribe(n), SecondQuery(Pending(id))]);
  }

  /** One that waits is told the address as soon as its backend reports that it is ready. */
  lemma ReadyReportIsRouted(db: Db, token: string, id: BackendId, a: Address)
    requires Consistent(db) && id in db.backends
    requires db.backends[id].state.StatusInt() < Ready.AsInt()
    ensures var q := Request(db, token, Awaiting(id, |HistoryOf(db, id)|), []);
            var steps := [Commit(UpdateState(id, InReady(a))), Notify];
            Valid(q, steps) && Final(q, steps).sent == [Route(id, a)]
  {
    var q := Request(db, token, Awaiting(id, |HistoryOf(db, id)|), []);
    var x := UpdateState(id, InReady(a));
    assert Columns(db.backends[id]);
    var told := Apply(q, Commit(x));
    assert HistoryOf(told.db, id)[|HistoryOf(db, id)|].state == InReady(a);
    Unfold(told, Notify, []);
    Unfold(q, Commit(x), [Notify]);
  }

  /** Updates that are there to be read take a waiting request to the first at or above ready. */
  lemma {:induction false} WaiterGetsThrough(q: Request, k: nat) returns (steps: seq<Step>)
    requires q.phase.Awaiting? && q.phase.next <= k < |HistoryOf(q.db, q.phase.id)|
    requires forall i :: q.phase.next <= i < k ==>
               HistoryOf(q.db, q.phase.id)[i].state.StatusInt() < Ready.AsInt()
    requires HistoryOf(q.db, q.phase.id)[k].state.StatusInt() >= Ready.AsInt()
    ensures Valid(q, steps) && |steps| == k + 1 - q.phase.next
    ensures forall i :: 0 <= i < |steps| ==> steps[i] == Notify
    ensures var s := HistoryOf(q.db, q.phase.id)[k].state;
            Final(q, steps)
            == q.(phase := Over,
                  sent := q.sent + [if s.InReady? then Route(q.phase.id, s.address) else NoRoute])
    decreases k - q.phase.next
  {
    var next := Apply(q, Notify);
    if q.phase.next == k {
      steps := [];
    } else {
      steps := WaiterGetsThrough(next, k);
    }
    Unfold(q, Notify, steps);
    steps := [Notify] + steps;
  }
}
