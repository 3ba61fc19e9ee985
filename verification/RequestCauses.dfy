/** Why a call returned what it returned: every result of sendRequest traced to the one
    event of the run that gave rise to it. */
module RequestCauses {
  import opened Options
  import opened PendingRequests

  /** The event `a`, in state c, gives request `id` the result v, told on the event and
      on what the client holds at that moment. */
  ghost predicate Gives(c: Client, a: Action, id: Id, v: Result) {
    match v
    case Reply(i, body) => i == id && a == ResponseArrives(id, body) && id in c.pending
    case Failed(ConnectionClosed) => (a == ConnectionLost || a == CloseCalled) && id in c.pending
    case Failed(RequestTimedOut) => a == TimerSends(id)
    case Failed(ContextEnded) => a == Cancel(id)
    case Failed(NotSent) => a == Write(id, false)
    case Failed(NotUsable) => a == TryRegister(id) && (c.disposed || !c.connected)
  }

  /** Results that reach the call through its channel. */
  predicate ThroughChannel(v: Result) {
    v.Reply? || v.why == ConnectionClosed || v.why == RequestTimedOut
  }

  /** Step k of the run gives the request the result v. */
  ghost predicate GivenAt(c: Client, run: seq<Action>, k: nat, id: Id, v: Result) {
    k < |run| && Run(c, run[..k]) && Gives(After(c, run[..k]), run[k], id, v)
  }

  ghost predicate GivenBefore(c: Client, run: seq<Action>, n: nat, id: Id, v: Result) {
    exists k: nat :: k < n && GivenAt(c, run, k, id, v)
  }

  // ---------------------------------------------------------------------
  // Prefixes of a run
  // ---------------------------------------------------------------------

  lemma {:induction false} PrefixRuns(c: Client, run: seq<Action>, n: nat)
    requires Run(c, run) && n <= |run|
    ensures Run(c, run[..n])
    ensures n < |run| ==>
      && Enabled(After(c, run[..n]), run[n])
      && Run(c, run[..n + 1]) && After(c, run[..n + 1]) == Step(After(c, run[..n]), run[n])
    decreases |run|
  {
    hide Enabled, Step;
    if n > 0 {
      PrefixRuns(Step(c, run[0]), run[1..], n - 1);
      assert run[..n][1..] == run[1..][..n - 1];
      assert n < |run| ==> run[..n + 1][1..] == run[1..][..n];
    } else if run != [] {
      assert run[..1][1..] == [] && run[..0] == [];
    }
  }

  lemma PrefixKeepsInv(c: Client, run: seq<Action>, n: nat, id: Id)
    requires Init(c) && Run(c, run) && n <= |run| && id in c.requests
    ensures Run(c, run[..n]) && Inv(After(c, run[..n])) && id in After(c, run[..n]).requests
  {
    PrefixRuns(c, run, n);
    hide Enabled, Step;
    RunKeepsInv(c, run[..n]);
  }

  // ---------------------------------------------------------------------
  // Every result has its cause
  // ---------------------------------------------------------------------

  /** The result a request has in hand: in its channel, decided, or returned. */
  ghost predicate Has(r: Request, v: Result) {
    || r.ch == Some(v)
    || r.caller == Returned(v)
    || (v.Failed? && r.caller == Withdrawing(v.why))
    || (v == Failed(NotUsable) && r.caller == Refused)
  }

  /** One step hands a request nothing that it did not have or the step gave. */
  lemma StepGives(c: Client, a: Action, id: Id, v: Result)
    requires Inv(c) && Enabled(c, a) && id in c.requests && id in Step(c, a).requests
    requires Has(Step(c, a).requests[id], v)
    ensures Has(c.requests[id], v) || Gives(c, a, id, v)
  {
    assert RequestOk(id, c.requests[id], id in c.pending);
    hide Inv, RequestOk;
  }

  lemma {:induction false} WhatItHasWasGiven(c: Client, run: seq<Action>, n: nat, id: Id, v: Result)
    requires Init(c) && Run(c, run) && n <= |run| && id in c.requests
    requires Run(c, run[..n]) && id in After(c, run[..n]).requests && Has(After(c, run[..n]).requests[id], v)
    ensures GivenBefore(c, run, n, id, v)
    decreases n
  {
    if n > 0 {
      PrefixKeepsInv(c, run, n - 1, id);
      PrefixRuns(c, run, n - 1);
      var e := After(c, run[..n - 1]);
      assert run[..n - 1 + 1] == run[..n];
      StepGives(e, run[n - 1], id, v);
      hide Inv, Enabled, Step, Has, Gives;
      if Gives(e, run[n - 1], id, v) {
        assert GivenAt(c, run, n - 1, id, v);
      } else {
        WhatItHasWasGiven(c, run, n - 1, id, v);
      }
    }
  }

  // ---------------------------------------------------------------------
  // And every cause its result
  // ---------------------------------------------------------------------

  /** The request was given v through its channel, and nothing else can reach it. */
  ghost predicate Settled(r: Request, listed: bool, v: Result) {
    && r.sent == 1 && !listed && r.timer != Sending && !r.caller.Idle?
    && (r.ch == Some(v) || (r.ch.None? && r.caller == Returned(v)))
  }

  /** The call has been told v otherwise, and returns it if it returns. */
  ghost predicate Decided(r: Request, v: Result) {
    || r.caller == Returned(v)
    || (v.Failed? && r.caller == Withdrawing(v.why))
    || (v == Failed(NotUsable) && r.caller == Refused)
  }

  ghost predicate Follows(c: Client, id: Id, v: Result)
    requires id in c.requests
  {
    if ThroughChannel(v) then Settled(c.requests[id], id in c.pending, v) else Decided(c.requests[id], v)
  }

  lemma GivenFollows(c: Client, a: Action, id: Id, v: Result)
    requires Inv(c) && Enabled(c, a) && id in c.requests && Gives(c, a, id, v)
    ensures id in Step(c, a).requests && Follows(Step(c, a), id, v)
  {
    assert RequestOk(id, c.requests[id], id in c.pending);
  }

  lemma SettledStays(c: Client, a: Action, id: Id, v: Result)
    requires Inv(c) && Enabled(c, a) && id in c.requests && Settled(c.requests[id], id in c.pending, v)
    ensures id in Step(c, a).requests && Settled(Step(c, a).requests[id], id in Step(c, a).pending, v)
  {
    assert RequestOk(id, c.requests[id], id in c.pending);
  }

  lemma DecidedStays(c: Client, a: Action, id: Id, v: Result)
    requires Inv(c) && Enabled(c, a) && id in c.requests && Decided(c.requests[id], v)
    ensures id in Step(c, a).requests && Decided(Step(c, a).requests[id], v)
  {
    assert RequestOk(id, c.requests[id], id in c.pending);
  }

  lemma {:induction false} GivenStays(c: Client, run: seq<Action>, k: nat, n: nat, id: Id, v: Result)
    requires Init(c) && Run(c, run) && k < n <= |run| && id in c.requests && GivenAt(c, run, k, id, v)
    ensures Run(c, run[..n]) && id in After(c, run[..n]).requests && Follows(After(c, run[..n]), id, v)
    decreases n
  {
    PrefixKeepsInv(c, run, n - 1, id);
    PrefixRuns(c, run, n - 1);
    var e := After(c, run[..n - 1]);
    assert run[..n - 1 + 1] == run[..n];
    hide Inv, Enabled, Step, Gives, Settled, Decided;
    if n == k + 1 {
      GivenFollows(e, run[k], id, v);
    } else {
      GivenStays(c, run, k, n - 1, id, v);
      if ThroughChannel(v) {
        SettledStays(e, run[n - 1], id, v);
      } else {
        DecidedStays(e, run[n - 1], id, v);
      }
    }
  }

  // ---------------------------------------------------------------------
  // What a call returns
  // ---------------------------------------------------------------------

  ghost predicate ReturnedBy(c: Client, run: seq<Action>, id: Id, v: Result) {
    Run(c, run) && id in After(c, run).requests && After(c, run).requests[id].caller == Returned(v)
  }

  /** Whatever a call returned has its cause in the run. A reply is the very body of a
      response that arrived while the request was listed; a closed connection is a loss
      or a close while it was listed; a timeout is its own timer's send; an ended
      context, a failed write and an unusable client are its own steps. */
  lemma ReturnedResultsHaveTheirCause(c: Client, run: seq<Action>, id: Id, v: Result)
    requires Init(c) && id in c.requests && ReturnedBy(c, run, id, v)
    ensures GivenBefore(c, run, |run|, id, v)
  {
    assert run[..|run|] == run;
    WhatItHasWasGiven(c, run, |run|, id, v);
  }

  /** At most one event of a run gives a request a result through its channel. */
  lemma OneEventSettles(c: Client, run: seq<Action>, id: Id, i: nat, j: nat, v: Result, w: Result)
    requires Init(c) && Run(c, run) && id in c.requests
    requires GivenAt(c, run, i, id, v) && GivenAt(c, run, j, id, w) && ThroughChannel(v) && ThroughChannel(w)
    ensures i == j && v == w
  {
    if i < j {
      NothingSettlesAgain(c, run, id, i, j, v, w);
    } else if j < i {
      NothingSettlesAgain(c, run, id, j, i, w, v);
    }
  }

  lemma NothingSettlesAgain(c: Client, run: seq<Action>, id: Id, i: nat, j: nat, v: Result, w: Result)
    requires Init(c) && Run(c, run) && id in c.requests && i < j < |run|
    requires GivenAt(c, run, i, id, v) && ThroughChannel(v) && ThroughChannel(w)
    ensures !GivenAt(c, run, j, id, w)
  {
    GivenStays(c, run, i, j, id, v);
    PrefixRuns(c, run, j);
  }

  /** A call that takes a value off its channel after some event settled its request
      returns that event's result, a reply with its very body; and a call that returns
      after its context ended, its write failed or its registration was refused
      returns that. */
  lemma CausesAreReturned(c: Client, run: seq<Action>, id: Id, k: nat, v: Result)
    requires Init(c) && Run(c, run) && id in c.requests && GivenAt(c, run, k, id, v)
    ensures id in After(c, run).requests
    ensures ThroughChannel(v) && Collect(id) in run[k..] ==> ReturnedBy(c, run, id, v)
    ensures !ThroughChannel(v) && After(c, run).requests[id].caller.Returned? ==> ReturnedBy(c, run, id, v)
  {
    assert run[..|run|] == run;
    GivenStays(c, run, k, |run|, id, v);
    if ThroughChannel(v) && Collect(id) in run[k..] {
      var j :| k <= j < |run| && run[j] == Collect(id);
      assert j > k;
      GivenStays(c, run, k, j, id, v);
      PrefixRuns(c, run, j);
      CollectedStays(c, run, j + 1, |run|, id, v);
    }
  }

  lemma {:induction false} CollectedStays(c: Client, run: seq<Action>, k: nat, n: nat, id: Id, v: Result)
    requires Init(c) && Run(c, run) && k <= n <= |run| && id in c.requests
    requires ReturnedBy(c, run[..k], id, v)
    ensures ReturnedBy(c, run[..n], id, v)
    decreases n
  {
    if k < n {
      CollectedStays(c, run, k, n - 1, id, v);
      PrefixKeepsInv(c, run, n - 1, id);
      PrefixRuns(c, run, n - 1);
      assert run[..n - 1 + 1] == run[..n];
      var e := After(c, run[..n - 1]);
      assert Decided(e.requests[id], v);
      ReturnedStays(e, run[n - 1], id);
    }
  }

  lemma ReturnedStays(c: Client, a: Action, id: Id)
    requires Inv(c) && Enabled(c, a) && id in c.requests && c.requests[id].caller.Returned?
    ensures id in Step(c, a).requests && Step(c, a).requests[id].caller == c.requests[id].caller
  {
    assert RequestOk(id, c.requests[id], id in c.pending);
  }
}
