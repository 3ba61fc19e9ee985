/** Requests in flight on a Go client, over every interleaving of callers, their
    timers, the read loop, a lost connection and close().

    Each step is what one goroutine does between two points where another can
    run: one critical section of c.mu, one channel operation, or one timer call.
    A request is named by its correlation id, which is fresh for each request. */
module PendingRequests {
  import opened Options

  type Id = nat

  datatype Failure = NotUsable | NotSent | ContextEnded | RequestTimedOut | ConnectionClosed

  datatype Result = Reply(id: Id, body: nat) | Failed(why: Failure)

  /** Where a sendRequest call is. */
  datatype Caller =
    | Idle
    | Created                        // channel made and timer armed
    | Refused                        // the client was closed or not connected
    | Registered                     // listed, frame not yet written
    | Waiting                        // in the select
    | Withdrawing(why: Failure)      // timer stopped, about to unlist
    | Returned(result: Result)

  /** A request timer: AfterFunc runs its callback on its own goroutine. */
  datatype Timer =
    | Unarmed
    | Armed
    | Cancelled                      // stopped before it fired
    | Fired                          // callback started, c.mu not yet taken
    | Sending                        // unlisted the request, about to send
    | Spent                          // callback over

  /** One request. `ch` is the result channel's one-value buffer and `sent`
      counts the values ever put into it. */
  datatype Request = Request(caller: Caller, timer: Timer, ch: Option<Result>, sent: nat)

  datatype Client = Client(disposed: bool, connected: bool, pending: set<Id>, requests: map<Id, Request>)

  function Stop(t: Timer): Timer {
    if t == Armed then Cancelled else t
  }

  /** The non-blocking send: a full buffer drops the value. */
  function Offer(r: Request, v: Result): Request {
    if r.ch.None? then r.(ch := Some(v), sent := r.sent + 1) else r
  }

  function Settle(r: Request, v: Result): Request {
    Offer(r.(timer := Stop(r.timer)), v)
  }

  function FailAll(c: Client, why: Failure): Client {
    c.(pending := {},
       requests := map id | id in c.requests ::
         if id in c.pending then Settle(c.requests[id], Failed(why)) else c.requests[id])
  }

  // ---------------------------------------------------------------------
  // The critical sections, as the client object runs them
  // ---------------------------------------------------------------------

  function Register(c: Client, id: Id): Client
    requires id in c.requests
  {
    if c.disposed || !c.connected then c.(requests := c.requests[id := c.requests[id].(caller := Refused)])
    else c.(pending := c.pending + {id}, requests := c.requests[id := c.requests[id].(caller := Registered)])
  }

  function RunTimer(c: Client, id: Id): Client
    requires id in c.requests
  {
    var r := c.requests[id];
    if id in c.pending then c.(pending := c.pending - {id}, requests := c.requests[id := r.(timer := Sending)])
    else c.(requests := c.requests[id := r.(timer := Spent)])
  }

  function Unlist(c: Client, id: Id): Client
    requires id in c.requests && c.requests[id].caller.Withdrawing?
  {
    var r := c.requests[id];
    c.(pending := c.pending - {id}, requests := c.requests[id := r.(caller := Returned(Failed(r.caller.why)))])
  }

  function Respond(c: Client, id: Id, body: nat): Client
    requires c.pending <= c.requests.Keys
  {
    if id !in c.pending then c
    else c.(pending := c.pending - {id}, requests := c.requests[id := Settle(c.requests[id], Reply(id, body))])
  }

  function LoseConnection(c: Client): Client { FailAll(c, ConnectionClosed) }

  function CloseClient(c: Client): Client {
    if c.disposed then c else FailAll(c, ConnectionClosed).(connected := false, disposed := true)
  }

  /** The fields of baseClient that c.mu guards, and its critical sections. */
  class RequestTable {
    var disposed: bool
    var connected: bool
    var pendingRequests: set<Id>
    var requests: map<Id, Request>

    ghost function State(): Client
      reads this
    {
      Client(disposed, connected, pendingRequests, requests)
    }

    ghost predicate Valid()
      reads this
    {
      pendingRequests <= requests.Keys
    }

    method RegisterRequest(id: Id) returns (ok: bool)
      requires Valid() && id in requests
      modifies this
      ensures Valid() && State() == Register(old(State()), id) && ok == (old(connected) && !old(disposed))
    {
      if disposed || !connected {
        requests := requests[id := requests[id].(caller := Refused)];
        return false;
      }
      pendingRequests := pendingRequests + {id};
      requests := requests[id := requests[id].(caller := Registered)];
      ok := true;
    }

    method TimerCallback(id: Id) returns (send: bool)
      requires Valid() && id in requests
      modifies this
      ensures Valid() && State() == RunTimer(old(State()), id) && send == (id in old(pendingRequests))
    {
      send := id in pendingRequests;
      if send {
        pendingRequests := pendingRequests - {id};
        requests := requests[id := requests[id].(timer := Sending)];
      } else {
        requests := requests[id := requests[id].(timer := Spent)];
      }
    }

    method Withdraw(id: Id)
      requires Valid() && id in requests && requests[id].caller.Withdrawing?
      modifies this
      ensures Valid() && State() == Unlist(old(State()), id)
    {
      pendingRequests := pendingRequests - {id};
      requests := requests[id := requests[id].(caller := Returned(Failed(requests[id].caller.why)))];
    }

    method HandleResponse(id: Id, body: nat)
      requires Valid()
      modifies this
      ensures Valid() && State() == Respond(old(State()), id, body)
    {
      if id !in pendingRequests {
        return;
      }
      pendingRequests := pendingRequests - {id};
      requests := requests[id := Settle(requests[id], Reply(id, body))];
    }

    /** Settles the requests one by one, in whatever order the map gives them. */
    method FailPending(why: Failure)
      requires Valid()
      modifies this`pendingRequests, this`requests
      ensures Valid() && State() == FailAll(old(State()), why)
    {
      while pendingRequests != {}
        invariant Valid() && pendingRequests <= old(pendingRequests) && requests.Keys == old(requests.Keys)
        invariant forall id :: id in requests ==>
          requests[id] == if id in old(pendingRequests) - pendingRequests
                          then Settle(old(requests)[id], Failed(why)) else old(requests)[id]
        decreases pendingRequests
      {
        var id :| id in pendingRequests;
        requests := requests[id := Settle(requests[id], Failed(why))];
        pendingRequests := pendingRequests - {id};
      }
      assert requests == FailAll(old(State()), why).requests;
    }

    method EngineClosedConnection()
      requires Valid()
      modifies this
      ensures Valid() && State() == LoseConnection(old(State()))
    {
      FailPending(ConnectionClosed);
    }

    method Close()
      requires Valid()
      modifies this
      ensures Valid() && State() == CloseClient(old(State()))
    {
      if disposed {
        return;
      }
      connected := false;
      FailPending(ConnectionClosed);
      disposed := true;
    }
  }

  // ---------------------------------------------------------------------
  // Interleavings
  // ---------------------------------------------------------------------

  datatype Action =
    | Begin(id: Id)
    | TryRegister(id: Id)
    | GiveUp(id: Id)
    | Write(id: Id, ok: bool)
    | Cancel(id: Id)
    | Withdraw(id: Id)
    | Collect(id: Id)
    | Expire(id: Id)
    | TimerLocks(id: Id)
    | TimerSends(id: Id)
    | ResponseArrives(id: Id, body: nat)
    | ConnectionLost
    | CloseCalled

  ghost predicate Enabled(c: Client, a: Action) {
    match a
    case Begin(id) => id in c.requests && c.requests[id].caller.Idle?
    case TryRegister(id) => id in c.requests && c.requests[id].caller.Created?
    case GiveUp(id) => id in c.requests && c.requests[id].caller.Refused?
    case Write(id, _) => id in c.requests && c.requests[id].caller.Registered?
    case Cancel(id) => id in c.requests && c.requests[id].caller.Waiting?
    case Withdraw(id) => id in c.requests && c.requests[id].caller.Withdrawing?
    case Collect(id) => id in c.requests && c.requests[id].caller.Waiting? && c.requests[id].ch.Some?
    case Expire(id) => id in c.requests && c.requests[id].timer == Armed
    case TimerLocks(id) => id in c.requests && c.requests[id].timer == Fired
    case TimerSends(id) => id in c.requests && c.requests[id].timer == Sending && c.requests[id].ch.None?
    case _ => c.pending <= c.requests.Keys
  }

  ghost function Step(c: Client, a: Action): Client
    requires Enabled(c, a)
  {
    match a
    case Begin(id) => With(c, id, Request(Created, Armed, None, 0))
    case TryRegister(id) => Register(c, id)
    case GiveUp(id) =>
      With(c, id, c.requests[id].(timer := Stop(c.requests[id].timer), caller := Returned(Failed(NotUsable))))
    case Write(id, ok) =>
      var r := c.requests[id];
      With(c, id, if ok then r.(caller := Waiting) else r.(timer := Stop(r.timer), caller := Withdrawing(NotSent)))
    case Cancel(id) =>
      With(c, id, c.requests[id].(timer := Stop(c.requests[id].timer), caller := Withdrawing(ContextEnded)))
    case Withdraw(id) => Unlist(c, id)
    case Collect(id) =>
      var r := c.requests[id];
      With(c, id, r.(ch := None, timer := Stop(r.timer), caller := Returned(r.ch.value)))
    case Expire(id) => With(c, id, c.requests[id].(timer := Fired))
    case TimerLocks(id) => RunTimer(c, id)
    case TimerSends(id) =>
      With(c, id, Offer(c.requests[id], Failed(RequestTimedOut)).(timer := Spent))
    case ResponseArrives(id, body) => Respond(c, id, body)
    case ConnectionLost => LoseConnection(c)
    case CloseCalled => CloseClient(c)
  }

  function With(c: Client, id: Id, r: Request): Client {
    c.(requests := c.requests[id := r])
  }

  ghost predicate Run(c: Client, run: seq<Action>)
    decreases |run|
  {
    run == [] || (Enabled(c, run[0]) && Run(Step(c, run[0]), run[1..]))
  }

  ghost function After(c: Client, run: seq<Action>): Client
    requires Run(c, run)
    decreases |run|
  {
    if run == [] then c else After(Step(c, run[0]), run[1..])
  }

  ghost predicate Init(c: Client) {
    && c.pending == {} && (c.disposed ==> !c.connected)
    && forall id :: id in c.requests ==> c.requests[id] == Request(Idle, Unarmed, None, 0)
  }

  // ---------------------------------------------------------------------
  // No lost and no double settlement
  // ---------------------------------------------------------------------

  predicate InFlight(k: Caller) { k.Registered? || k.Waiting? || k.Withdrawing? }

  /** The ways a request's one settlement can be held: its entry in the map, its
      timer about to send, or a value that was put into its channel. */
  function Held(r: Request, listed: bool): nat {
    (if listed then 1 else 0) + (if r.timer == Sending then 1 else 0) + r.sent
  }

  ghost predicate RequestOk(id: Id, r: Request, listed: bool) {
    && Held(r, listed) <= 1
    && (InFlight(r.caller) ==> Held(r, listed) == 1 && (r.sent == 1 <==> r.ch.Some?))
    && (r.caller.Idle? || r.caller.Created? || r.caller.Refused? ==> Held(r, listed) == 0)
    && (listed ==> InFlight(r.caller))
    && (r.caller.Created? ==> r.timer in {Armed, Fired, Spent})
    && (r.ch.Some? ==> r.sent == 1)
    && (r.ch.Some? && r.ch.value.Reply? ==> r.ch.value.id == id)
    && (r.caller.Returned? && r.caller.result.Reply? ==> r.caller.result.id == id)
    && (listed && (r.caller.Registered? || r.caller.Waiting?) ==> r.timer in {Armed, Fired, Spent})
    && (r.sent == 1 || r.caller.Withdrawing? || r.caller.Returned? ==> r.timer != Armed)
  }

  ghost predicate Inv(c: Client) {
    && c.pending <= c.requests.Keys
    && (c.disposed ==> c.pending == {} && !c.connected)
    && forall id :: id in c.requests ==> RequestOk(id, c.requests[id], id in c.pending)
  }

  lemma FailAllKeepsInv(c: Client, why: Failure)
    requires Inv(c)
    ensures Inv(FailAll(c, why)) && FailAll(c, why).requests.Keys == c.requests.Keys
    ensures FailAll(c, why).pending == {} && FailAll(c, why).disposed == c.disposed
  {
    var e := FailAll(c, why);
    forall id | id in e.requests
      ensures RequestOk(id, e.requests[id], id in e.pending)
    {
      assert RequestOk(id, c.requests[id], id in c.pending);
    }
  }

  /** A step that touches one request needs looking at only there. */
  lemma OneRequestChanged(c: Client, e: Client, id: Id)
    requires Inv(c) && id in c.requests && e.requests.Keys == c.requests.Keys
    requires e.disposed == c.disposed && e.connected == c.connected
    requires forall j :: j in c.requests && j != id ==>
      e.requests[j] == c.requests[j] && (j in e.pending <==> j in c.pending)
    requires e.pending <= e.requests.Keys && (e.disposed ==> id !in e.pending)
    requires RequestOk(id, e.requests[id], id in e.pending)
    ensures Inv(e)
  {
    assert e.disposed ==> forall j :: j in e.pending ==> j in c.pending;
  }

  lemma CallerKeepsInv(c: Client, a: Action, id: Id)
    requires Inv(c) && Enabled(c, a)
    requires a.Begin? || a.TryRegister? || a.GiveUp? || a.Write? || a.Cancel? || a.Withdraw? || a.Collect?
    requires a.id == id
    ensures Inv(Step(c, a))
  {
    assert RequestOk(id, c.requests[id], id in c.pending);
    OneRequestChanged(c, Step(c, a), id);
  }

  lemma TimerKeepsInv(c: Client, a: Action, id: Id)
    requires Inv(c) && Enabled(c, a) && a in {Expire(id), TimerLocks(id), TimerSends(id)}
    ensures Inv(Step(c, a))
  {
    assert RequestOk(id, c.requests[id], id in c.pending);
    OneRequestChanged(c, Step(c, a), id);
  }

  lemma ResponseKeepsInv(c: Client, id: Id, body: nat)
    requires Inv(c)
    ensures Inv(Respond(c, id, body))
  {
    if id in c.pending {
      assert RequestOk(id, c.requests[id], true);
      OneRequestChanged(c, Respond(c, id, body), id);
    }
  }

  lemma StepKeepsInv(c: Client, a: Action)
    requires Inv(c) && Enabled(c, a)
    ensures Inv(Step(c, a)) && Step(c, a).requests.Keys == c.requests.Keys
    ensures c.disposed ==> Step(c, a).disposed
  {
    match a {
      case ResponseArrives(id, body) => ResponseKeepsInv(c, id, body);
      case ConnectionLost => FailAllKeepsInv(c, ConnectionClosed);
      case CloseCalled => FailAllKeepsInv(c, ConnectionClosed);
      case Expire(id) => TimerKeepsInv(c, a, id);
      case TimerLocks(id) => TimerKeepsInv(c, a, id);
      case TimerSends(id) => TimerKeepsInv(c, a, id);
      case _ => CallerKeepsInv(c, a, a.id);
    }
  }

  lemma {:induction false} RunKeepsInv(c: Client, run: seq<Action>)
    requires Inv(c) && Run(c, run)
    ensures Inv(After(c, run)) && After(c, run).requests.Keys == c.requests.Keys
    ensures c.disposed ==> After(c, run).disposed
    decreases |run|
  {
    if run != [] {
      hide Inv, Step;
      StepKeepsInv(c, run[0]);
      RunKeepsInv(Step(c, run[0]), run[1..]);
    }
  }

  /** In every interleaving: a call in its select has exactly one of its map
      entry, a buffered result, or a timer about to send; no channel ever gets a
      second value, so the timer's blocking send finds it empty; a reply, in the
      channel or returned, is the reply to that very request; and a call that has
      returned, or has its value waiting, has no timer that could still fire. */
  lemma EachRequestSettlesOnce(c: Client, run: seq<Action>, id: Id)
    requires Init(c) && Run(c, run) && id in c.requests
    ensures var e := After(c, run);
      e.pending <= e.requests.Keys && id in e.requests &&
      var r := e.requests[id];
      && r.sent <= 1
      && (r.caller.Waiting? ==>
           (if id in e.pending then 1 else 0) + (if r.timer == Sending then 1 else 0)
           + (if r.ch.Some? then 1 else 0) == 1)
      && (r.timer == Sending ==> Enabled(e, TimerSends(id)))
      && (r.ch.Some? && r.ch.value.Reply? ==> r.ch.value.id == id)
      && (r.caller.Returned? && r.caller.result.Reply? ==> r.caller.result.id == id)
      && (r.caller.Returned? || r.ch.Some? ==> r.timer != Armed && !Enabled(e, Expire(id)))
  {
    RunKeepsInv(c, run);
    assert RequestOk(id, After(c, run).requests[id], id in After(c, run).pending);
  }

  /** A response for a listed request is never dropped by the non-blocking send,
      and neither is the error of a lost connection or a close. */
  lemma SettlementsAreNotDropped(c: Client, run: seq<Action>, id: Id, body: nat)
    requires Init(c) && Run(c, run) && id in After(c, run).pending
    ensures id in After(c, run).requests && After(c, run).pending <= After(c, run).requests.Keys
    ensures Respond(After(c, run), id, body).requests[id].ch == Some(Reply(id, body))
    ensures LoseConnection(After(c, run)).requests[id].ch == Some(Failed(ConnectionClosed))
  {
    RunKeepsInv(c, run);
    assert RequestOk(id, After(c, run).requests[id], true);
  }

  lemma UnlistedWaitingCanReturn(c: Client, id: Id)
    requires Inv(c) && id in c.requests && id !in c.pending && c.requests[id].caller.Waiting?
    ensures Enabled(c, Collect(id)) || Enabled(c, TimerSends(id))
  {
    assert RequestOk(id, c.requests[id], false);
  }

  /** Once the client is closed, nothing is ever listed again, and every call
      still in its select can return on its own: its result is there, or its
      timer is about to put it there. */
  lemma ClosedClientSettlesEverything(c: Client, run: seq<Action>, later: seq<Action>, id: Id)
    requires Init(c) && Run(c, run) && Run(CloseClient(After(c, run)), later) && id in c.requests
    ensures var e := After(CloseClient(After(c, run)), later);
      && e.disposed && e.pending == {} && id in e.requests
      && (e.requests[id].caller.Waiting? ==> Enabled(e, Collect(id)) || Enabled(e, TimerSends(id)))
  {
    RunKeepsInv(c, run);
    StepKeepsInv(After(c, run), CloseCalled);
    assert CloseClient(After(c, run)).disposed;
    RunKeepsInv(CloseClient(After(c, run)), later);
    var e := After(CloseClient(After(c, run)), later);
    if e.requests[id].caller.Waiting? {
      UnlistedWaitingCanReturn(e, id);
    }
  }

  /** The moment a lost connection is handled, every call in its select can
      return on its own too. */
  lemma LostConnectionSettlesEverything(c: Client, run: seq<Action>, id: Id)
    requires Init(c) && Run(c, run) && id in c.requests
    ensures var e := LoseConnection(After(c, run));
      && e.pending == {} && id in e.requests
      && (e.requests[id].caller.Waiting? ==> Enabled(e, Collect(id)) || Enabled(e, TimerSends(id)))
  {
    RunKeepsInv(c, run);
    FailAllKeepsInv(After(c, run), ConnectionClosed);
    var e := LoseConnection(After(c, run));
    if e.requests[id].caller.Waiting? {
      UnlistedWaitingCanReturn(e, id);
    }
  }

  // ---------------------------------------------------------------------
  // Timeouts
  // ---------------------------------------------------------------------

  /** The timer's callback has taken c.mu. */
  predicate Ran(t: Timer) { t == Sending || t == Spent }

  /** A request nobody has begun has no timer. */
  ghost predicate NotBegunUnarmed(c: Client, id: Id) {
    id in c.requests && (c.requests[id].caller.Idle? ==> c.requests[id].timer == Unarmed)
  }

  lemma StepRunsTimer(c: Client, a: Action, id: Id)
    requires Inv(c) && Enabled(c, a) && NotBegunUnarmed(c, id)
    ensures NotBegunUnarmed(Step(c, a), id)
    ensures Ran(Step(c, a).requests[id].timer) <==> Ran(c.requests[id].timer) || a == TimerLocks(id)
  {
    assert RequestOk(id, c.requests[id], id in c.pending);
  }

  /** A timer's callback has run exactly when the run has its step. */
  lemma {:induction false} TimerRanInTheRun(c: Client, run: seq<Action>, id: Id)
    requires Inv(c) && Run(c, run) && NotBegunUnarmed(c, id)
    ensures id in After(c, run).requests
    ensures Ran(After(c, run).requests[id].timer) <==> Ran(c.requests[id].timer) || TimerLocks(id) in run
    decreases |run|
  {
    if run != [] {
      StepRunsTimer(c, run[0], id);
      StepKeepsInv(c, run[0]);
      hide Inv, Step;
      TimerRanInTheRun(Step(c, run[0]), run[1..], id);
      assert TimerLocks(id) in run <==> run[0] == TimerLocks(id) || TimerLocks(id) in run[1..];
    }
  }

  /** The call ends, over this run, with its own timer's error. */
  ghost predicate TimesOut(c: Client, id: Id, run: seq<Action>) {
    && Run(c, run) && id in After(c, run).requests
    && After(c, run).requests[id].caller == Returned(Failed(RequestTimedOut))
  }

  /** Steps of the request's own timer and its receive, and of nothing else. */
  ghost predicate OnItsOwn(id: Id, run: seq<Action>) {
    forall k :: 0 <= k < |run| ==> run[k] in {Expire(id), TimerLocks(id), TimerSends(id), Collect(id)}
  }

  lemma FiredTimerEndsTheCall(c: Client, id: Id) returns (run: seq<Action>)
    requires Inv(c) && id in c.pending && c.requests[id].caller.Waiting? && c.requests[id].timer == Fired
    ensures TimesOut(c, id, run) && OnItsOwn(id, run)
  {
    assert RequestOk(id, c.requests[id], true);
    var c1 := Step(c, TimerLocks(id));
    var c2 := Step(c1, TimerSends(id));
    var c3 := Step(c2, Collect(id));
    var last := [Collect(id)];
    assert last[1..] == [] && Run(c3, []) && Run(c2, last) && After(c2, last) == c3;
    var more := [TimerSends(id)] + last;
    assert more[1..] == last && Run(c1, more) && After(c1, more) == c3;
    run := [TimerLocks(id)] + more;
    assert run[1..] == more;
  }

  lemma ArmedTimerEndsTheCall(c: Client, id: Id) returns (run: seq<Action>)
    requires Inv(c) && id in c.pending && c.requests[id].caller.Waiting? && c.requests[id].timer == Armed
    ensures TimesOut(c, id, run) && OnItsOwn(id, run)
  {
    StepKeepsInv(c, Expire(id));
    var rest := FiredTimerEndsTheCall(Step(c, Expire(id)), id);
    run := [Expire(id)] + rest;
    assert run[1..] == rest;
    forall k | 0 <= k < |run|
      ensures run[k] in {Expire(id), TimerLocks(id), TimerSends(id), Collect(id)}
    {
      assert k > 0 ==> run[k] == rest[k - 1];
    }
  }

  /** The timer is spent and its error is neither in the channel nor returned. */
  ghost predicate PastTimeout(r: Request) {
    && r.timer == Spent && !r.caller.Idle?
    && r.ch != Some(Failed(RequestTimedOut)) && r.caller != Returned(Failed(RequestTimedOut))
    && (r.caller.Withdrawing? ==> r.caller.why != RequestTimedOut)
  }

  lemma StepStaysPastTimeout(c: Client, a: Action, id: Id)
    requires Enabled(c, a) && id in c.requests && PastTimeout(c.requests[id])
    ensures id in Step(c, a).requests && PastTimeout(Step(c, a).requests[id])
  {
  }

  lemma {:induction false} RunStaysPastTimeout(c: Client, run: seq<Action>, id: Id)
    requires Run(c, run) && id in c.requests && PastTimeout(c.requests[id])
    ensures id in After(c, run).requests && PastTimeout(After(c, run).requests[id])
    decreases |run|
  {
    if run != [] {
      StepStaysPastTimeout(c, run[0], id);
      hide Step, PastTimeout;
      RunStaysPastTimeout(Step(c, run[0]), run[1..], id);
    }
  }

  /** A listed request in its select is timed out by its own timer exactly when that
      timer's callback has not run yet: then its own steps lead to the timeout, with
      nobody else's help; and otherwise no run whatever ends it so. */
  lemma ListedRequestTimesOut(c: Client, run: seq<Action>, id: Id)
    requires Init(c) && Run(c, run) && id in c.requests && id in After(c, run).pending
    requires id in After(c, run).requests && After(c, run).requests[id].caller.Waiting?
    ensures TimerLocks(id) !in run ==> exists later :: TimesOut(After(c, run), id, later) && OnItsOwn(id, later)
    ensures TimerLocks(id) in run ==> forall later :: !TimesOut(After(c, run), id, later)
  {
    RunKeepsInv(c, run);
    TimerRanInTheRun(c, run, id);
    var e := After(c, run);
    assert RequestOk(id, e.requests[id], true);
    hide Inv, Run, After, RequestOk;
    if e.requests[id].timer == Armed {
      var later := ArmedTimerEndsTheCall(e, id);
    } else if e.requests[id].timer == Fired {
      var later := FiredTimerEndsTheCall(e, id);
    } else {
      forall later | Run(e, later)
        ensures !TimesOut(e, id, later)
      {
        RunStaysPastTimeout(e, later, id);
      }
    }
  }

  /** The second case is reachable: a timer that fires before its request is listed
      finds nothing, and the request then waits with no timeout at all. */
  lemma EarlyTimerLeavesNoTimeout(c: Client, id: Id) returns (run: seq<Action>)
    requires Init(c) && id in c.requests && c.connected
    ensures Run(c, run)
    ensures var e := After(c, run);
      id in e.requests && id in e.pending && e.requests[id] == Request(Waiting, Spent, None, 0)
  {
    var c1 := Step(c, Begin(id));
    var c2 := Step(c1, Expire(id));
    var c3 := Step(c2, TimerLocks(id));
    var c4 := Step(c3, TryRegister(id));
    var c5 := Step(c4, Write(id, true));
    var last: seq<Action> := [Write(id, true)];
    assert last[1..] == [] && Run(c5, []);
    assert Run(c4, last) && After(c4, last) == c5;
    run := [TryRegister(id)] + last;
    assert run[1..] == last && Run(c3, run) && After(c3, run) == c5;
    var run3 := [TimerLocks(id)] + run;
    assert run3[1..] == run && Run(c2, run3) && After(c2, run3) == c5;
    var run2 := [Expire(id)] + run3;
    assert run2[1..] == run3 && Run(c1, run2) && After(c1, run2) == c5;
    run := [Begin(id)] + run2;
    assert run[1..] == run2;
  }
}
