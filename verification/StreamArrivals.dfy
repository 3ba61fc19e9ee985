/** Which pushes reach a stream: over every interleaving of a Go client's threads,
    exactly the messages dispatched while the stream was registered are offered to it,
    and exactly those offered while it was open and had room arrive. */
module StreamArrivals {
  import opened Options
  import opened Streams
  import opened StreamLocks

  /** The message, if any, that the step takes off a frame while `s` is registered. */
  function Dispatches(c: Client, a: Action, s: Sid): seq<nat> {
    if a.Proceed? && a.t in c.pcs && c.pcs[a.t].PassHold? && a.choice.Push? && c.registered == Some(s)
    then [a.choice.m] else []
  }

  /** The message, if any, that the step pushes at `s`. */
  function PushesAt(c: Client, a: Action, s: Sid): seq<nat> {
    if a.Proceed? && a.t in c.pcs && c.pcs[a.t].PushHold? && c.pcs[a.t].s == s then [c.pcs[a.t].m] else []
  }

  /** The same, when the stream is open and its 256 places are not all taken. */
  function Lands(c: Client, a: Action, s: Sid): seq<nat> {
    if s in c.streams && !c.streams[s].stream.closed && |c.streams[s].stream.buffer| < 256
    then PushesAt(c, a, s) else []
  }

  ghost function DispatchedOver(c: Client, run: seq<Action>, s: Sid): seq<nat>
    requires Run(c, run)
    decreases |run|
  {
    if run == [] then [] else Dispatches(c, run[0], s) + DispatchedOver(Step(c, run[0]), run[1..], s)
  }

  ghost function LandedOver(c: Client, run: seq<Action>, s: Sid): seq<nat>
    requires Run(c, run)
    decreases |run|
  {
    if run == [] then [] else Lands(c, run[0], s) + LandedOver(Step(c, run[0]), run[1..], s)
  }

  /** The message the read loop has taken off a frame and not yet pushed. */
  function InFlight(c: Client, s: Sid): seq<nat> {
    if c.cmu.None? then []
    else
      var pc := PcOf(c, c.cmu.value);
      if (pc.PushWant? || pc.PushHold?) && pc.s == s then [pc.m] else []
  }

  function Offered(c: Client, s: Sid): seq<nat> { if s in c.streams then c.streams[s].offered else [] }

  /** What the stream's receiver has had, and what waits for it. */
  function Arrived(c: Client, s: Sid): seq<nat> {
    if s in c.streams then c.streams[s].received + c.streams[s].stream.buffer else []
  }

  ghost predicate SameTrafficAt(c: Client, e: Client, s: Sid) {
    Offered(e, s) == Offered(c, s) && Arrived(e, s) == Arrived(c, s)
  }

  lemma QuietHasNoTraffic(c: Client, e: Client, s: Sid)
    requires Quiet(c, e) && (s in e.streams ==> s in c.streams)
    ensures SameTrafficAt(c, e, s)
  {
  }

  lemma CreatingHasNoTraffic(c: Client, t: Tid, choice: Choice, s: Sid)
    requires c.nextSid !in c.streams
    ensures SameTrafficAt(c, Checked(c, t, choice), s)
  {
  }

  lemma ProceedQuietly(c: Client, t: Tid, choice: Choice, s: Sid)
    requires CanProceed(c, t, choice) && c.nextSid !in c.streams && !c.pcs[t].PushHold?
    ensures SameTrafficAt(c, Advanced(c, t, choice), s)
  {
    var e, pc := Advanced(c, t, choice), c.pcs[t];
    if WantsC(pc) || WantsS(pc).Some? {
      LocksAreQuiet(c, t);
    } else if pc.CheckHold? {
      CreatingHasNoTraffic(c, t, choice, s);
      return;
    } else if pc.SwapHold? || pc.PassHold? || pc.LostHold? || pc.EndHold? {
      DetachesAreQuiet(c, t, choice);
    } else {
      OthersAreQuiet(c, t, choice);
    }
    assert s in e.streams ==> s in c.streams;
    QuietHasNoTraffic(c, e, s);
  }

  lemma PushArrives(c: Client, t: Tid, s: Sid)
    requires CanProceed(c, t, Go) && c.pcs[t].PushHold? && (s in c.streams ==> c.streams[s].stream.capacity == 256)
    ensures var e, a := Advanced(c, t, Go), Proceed(t, Go);
      Offered(e, s) == Offered(c, s) + PushesAt(c, a, s) && Arrived(e, s) == Arrived(c, s) + Lands(c, a, s)
  {
    if c.pcs[t].s == s {
      var x := c.streams[s];
      assert x.received + (x.stream.buffer + [c.pcs[t].m]) == (x.received + x.stream.buffer) + [c.pcs[t].m];
    }
  }

  lemma TakingHasNoTraffic(c: Client, r: Sid, s: Sid)
    requires Enabled(c, Take(r))
    ensures SameTrafficAt(c, Step(c, Take(r)), s)
  {
    var x, y := c.streams[r], Step(c, Take(r)).streams[r];
    assert y.received + y.stream.buffer == x.received + x.stream.buffer;
  }

  lemma StepArrives(c: Client, a: Action, s: Sid)
    requires Inv(c) && AllOrdered(c) && Enabled(c, a)
    ensures var e := Step(c, a);
      Offered(e, s) == Offered(c, s) + PushesAt(c, a, s) && Arrived(e, s) == Arrived(c, s) + Lands(c, a, s)
  {
    assert s in c.streams ==> Ordered(c.streams[s]);
    if a.Proceed? {
      ThreadKnows(c, a.t);
      if c.pcs[a.t].PushHold? {
        PushArrives(c, a.t, s);
      } else {
        ProceedQuietly(c, a.t, a.choice, s);
      }
    } else if a.Take? {
      TakingHasNoTraffic(c, a.s, s);
    }
    hide Inv, AllOrdered, Advanced;
  }

  /** A message taken off a frame is in flight until it is pushed. */
  lemma StepFlies(c: Client, a: Action, s: Sid)
    requires Inv(c) && Enabled(c, a)
    ensures PushesAt(c, a, s) + InFlight(Step(c, a), s) == InFlight(c, s) + Dispatches(c, a, s)
  {
    if a.Proceed? {
      assert ThreadOk(c, a.t, c.pcs[a.t]);
      ProceedFlies(c, a.t, a.choice, s);
    } else if !a.Take? {
      assert a.t in c.pcs ==> ThreadOk(c, a.t, c.pcs[a.t]);
    }
  }

  lemma ProceedFlies(c: Client, t: Tid, choice: Choice, s: Sid)
    requires CanProceed(c, t, choice) && (HoldsC(c.pcs[t]) <==> c.cmu == Some(t))
    ensures PushesAt(c, Proceed(t, choice), s) + InFlight(Advanced(c, t, choice), s)
         == InFlight(c, s) + Dispatches(c, Proceed(t, choice), s)
  {
  }

  lemma {:induction false} RunArrives(c: Client, run: seq<Action>, s: Sid)
    requires Inv(c) && AllOrdered(c) && Run(c, run)
    ensures var e := After(c, run);
      && Offered(e, s) + InFlight(e, s) == Offered(c, s) + InFlight(c, s) + DispatchedOver(c, run, s)
      && Arrived(e, s) == Arrived(c, s) + LandedOver(c, run, s)
    decreases |run|
  {
    hide Inv, AllOrdered, Step, Enabled, Offered, InFlight, Arrived, Dispatches, Lands, PushesAt;
    if run != [] {
      var a, n := run[0], Step(c, run[0]);
      StepKeepsInv(c, a);
      StepKeepsOrder(c, a);
      StepArrives(c, a, s);
      StepFlies(c, a, s);
      RunArrives(n, run[1..], s);
      var dispatched, landed := DispatchedOver(n, run[1..], s), LandedOver(n, run[1..], s);
      assert Offered(c, s) + PushesAt(c, a, s) + InFlight(n, s) + dispatched
          == Offered(c, s) + (PushesAt(c, a, s) + InFlight(n, s)) + dispatched;
      assert Offered(c, s) + (InFlight(c, s) + Dispatches(c, a, s)) + dispatched
          == Offered(c, s) + InFlight(c, s) + (Dispatches(c, a, s) + dispatched);
      assert Arrived(c, s) + Lands(c, a, s) + landed == Arrived(c, s) + (Lands(c, a, s) + landed);
    }
  }

  /** In every interleaving: the messages pushed at a stream, and the one on its way to
      it, are exactly those dispatched while it was registered, in order; and what its
      receiver has had, with what waits for it, are exactly those pushed while it was
      open with room, in order. */
  lemma DispatchedMessagesArrive(run: seq<Action>, s: Sid)
    requires Run(START, run) && s in After(START, run).streams
    ensures var e := After(START, run);
      && e.streams[s].offered + InFlight(e, s) == DispatchedOver(START, run, s)
      && e.streams[s].received + e.streams[s].stream.buffer == LandedOver(START, run, s)
  {
    RunArrives(START, run, s);
    var none: seq<nat> := [];
    assert none + none + DispatchedOver(START, run, s) == DispatchedOver(START, run, s);
    assert none + LandedOver(START, run, s) == LandedOver(START, run, s);
  }
}
