/** Why a stream closes: over every interleaving of a Go client's threads, a stream is
    closed, or about to be, exactly when something of the run called for it. */
module StreamCauses {
  import opened Options
  import opened Streams
  import opened StreamLocks

  /** The step calls for the stream to be closed: its user closes it; the engine refuses
      its subscription, or the client is found closed before the request is sent; or it
      is the registered one when a newer subscribe takes its place, the engine says it
      shuts down, the connection is lost, or the client is closed for the first time. */
  predicate CallsForClose(c: Client, a: Action, s: Sid) {
    match a
    case UserClose(_, r) => r == s
    case Proceed(t, choice) =>
      t in c.pcs &&
      var pc := c.pcs[t];
      || (pc == Asking(s) && choice == Granted(false))
      || (pc == AskHold(s) && c.disposed)
      || (c.registered == Some(s)
          && (pc.SwapHold? || (pc.PassHold? && choice == Shutdown) || pc.LostHold? || (pc.EndHold? && !c.disposed)))
    case _ => false
  }

  /** The thread has the stream to close. */
  predicate Dooms(pc: Pc, s: Sid) {
    Detached(pc) == Some(s) || ((pc.CloseWant? || pc.CloseHold?) && pc.s == s)
  }

  /** The stream is closed, or some thread has it to close. */
  ghost predicate Doomed(c: Client, s: Sid) {
    || (s in c.streams && c.streams[s].stream.closed)
    || exists t :: t in c.pcs && Dooms(c.pcs[t], s)
  }

  predicate ClosedIn(c: Client, s: Sid) { s in c.streams && c.streams[s].stream.closed }

  /** What one step of a thread does to a stream's fate, by where the thread stands. */
  lemma LockDooms(c: Client, t: Tid, s: Sid)
    requires CanProceed(c, t, Go) && (WantsC(c.pcs[t]) || WantsS(c.pcs[t]).Some?)
    ensures var e, pc := Advanced(c, t, Go), c.pcs[t];
      && e.pcs == c.pcs[t := e.pcs[t]] && !CallsForClose(c, Proceed(t, Go), s)
      && (ClosedIn(e, s) <==> ClosedIn(c, s)) && (Dooms(e.pcs[t], s) <==> Dooms(pc, s))
  {
  }

  lemma CheckDooms(c: Client, t: Tid, choice: Choice, s: Sid)
    requires CanProceed(c, t, choice) && c.pcs[t].CheckHold? && c.nextSid !in c.streams
    ensures var e := Advanced(c, t, choice);
      && e.pcs == c.pcs[t := e.pcs[t]] && (ClosedIn(e, s) <==> ClosedIn(c, s))
      && !Dooms(e.pcs[t], s) && !CallsForClose(c, Proceed(t, choice), s)
  {
  }

  lemma DetachClosesNothing(c: Client, t: Tid, s: Sid)
    requires Has(c, c.registered)
    ensures ClosedIn(Detach(c, t), s) <==> ClosedIn(c, s)
  {
  }

  lemma SwapDooms(c: Client, t: Tid, s: Sid)
    requires CanProceed(c, t, Go) && c.pcs[t].SwapHold?
    ensures var e := Advanced(c, t, Go);
      && e.pcs == c.pcs[t := e.pcs[t]] && (ClosedIn(e, s) <==> ClosedIn(c, s))
      && (Dooms(e.pcs[t], s) <==> CallsForClose(c, Proceed(t, Go), s))
  {
    DetachClosesNothing(c, t, s);
  }

  lemma AskDooms(c: Client, t: Tid, choice: Choice, s: Sid)
    requires CanProceed(c, t, choice) && (c.pcs[t].AskHold? || c.pcs[t].Asking?)
    ensures var e := Advanced(c, t, choice);
      && e.pcs == c.pcs[t := e.pcs[t]] && e.streams == c.streams
      && (Dooms(e.pcs[t], s) <==> CallsForClose(c, Proceed(t, choice), s))
  {
  }

  lemma SubscriberDooms(c: Client, t: Tid, choice: Choice, s: Sid)
    requires CanProceed(c, t, choice) && c.nextSid !in c.streams
    requires c.pcs[t].CheckHold? || c.pcs[t].SwapHold? || c.pcs[t].AskHold? || c.pcs[t].Asking?
    ensures var e, pc := Advanced(c, t, choice), c.pcs[t];
      && e.pcs == c.pcs[t := e.pcs[t]] && (ClosedIn(e, s) <==> ClosedIn(c, s))
      && !Dooms(pc, s) && (Dooms(e.pcs[t], s) <==> CallsForClose(c, Proceed(t, choice), s))
  {
    if c.pcs[t].CheckHold? {
      CheckDooms(c, t, choice, s);
    } else if c.pcs[t].SwapHold? {
      SwapDooms(c, t, s);
    } else {
      AskDooms(c, t, choice, s);
    }
    hide Advanced, CallsForClose;
  }

  lemma MarkDooms(c: Client, t: Tid, r: Sid, next: Next, s: Sid)
    requires t in c.pcs && c.pcs[t] == CloseHold(r, next) && r in c.streams
    ensures var e := Marked(c, t, r, next);
      && e.pcs == c.pcs[t := e.pcs[t]] && !Dooms(e.pcs[t], s)
      && (ClosedIn(e, s) <==> ClosedIn(c, s) || Dooms(c.pcs[t], s))
  {
  }

  lemma EndOfCloseDooms(c: Client, t: Tid, r: Sid, next: Next, s: Sid)
    requires t in c.pcs && r in c.streams && (c.pcs[t] == MarkedHold(r, next) || c.pcs[t] == NotifyHold(r, next))
    ensures var e := if c.pcs[t].MarkedHold? then ChannelClosed(c, t, r, next) else Notified(c, t, r, next);
      && e.pcs == c.pcs[t := e.pcs[t]] && (ClosedIn(e, s) <==> ClosedIn(c, s))
      && !Dooms(e.pcs[t], s) && !Dooms(c.pcs[t], s)
  {
  }

  lemma CloserDooms(c: Client, t: Tid, s: Sid)
    requires CanProceed(c, t, Go)
    requires c.pcs[t].CloseHold? || c.pcs[t].MarkedHold? || c.pcs[t].NotifyHold?
    ensures var e, pc := Advanced(c, t, Go), c.pcs[t];
      && e.pcs == c.pcs[t := e.pcs[t]] && !CallsForClose(c, Proceed(t, Go), s)
      && (ClosedIn(e, s) || Dooms(e.pcs[t], s) <==> ClosedIn(c, s) || Dooms(pc, s))
      && (ClosedIn(c, s) ==> ClosedIn(e, s))
  {
    hide Marked, ChannelClosed, Notified, Dooms, ClosedIn;
    if c.pcs[t].CloseHold? {
      MarkDooms(c, t, c.pcs[t].s, c.pcs[t].next, s);
    } else {
      EndOfCloseDooms(c, t, c.pcs[t].s, c.pcs[t].next, s);
    }
  }

  lemma PassDooms(c: Client, t: Tid, choice: Choice, s: Sid)
    requires CanProceed(c, t, choice) && c.pcs[t].PassHold?
    requires Detached(c.pcs[t]).Some? ==> c.registered == None
    ensures var e := Advanced(c, t, choice);
      && e.pcs == c.pcs[t := e.pcs[t]] && (ClosedIn(e, s) <==> ClosedIn(c, s))
      && (Dooms(e.pcs[t], s) <==> Dooms(c.pcs[t], s) || CallsForClose(c, Proceed(t, choice), s))
  {
    DetachClosesNothing(c, t, s);
  }

  lemma DetacherDooms(c: Client, t: Tid, s: Sid)
    requires CanProceed(c, t, Go) && (c.pcs[t].LostHold? || c.pcs[t].EndHold?)
    ensures var e := Advanced(c, t, Go);
      && e.pcs == c.pcs[t := e.pcs[t]] && (ClosedIn(e, s) <==> ClosedIn(c, s))
      && !Dooms(c.pcs[t], s) && (Dooms(e.pcs[t], s) <==> CallsForClose(c, Proceed(t, Go), s))
  {
    DetachClosesNothing(c, t, s);
  }

  lemma ReaderDooms(c: Client, t: Tid, choice: Choice, s: Sid)
    requires CanProceed(c, t, choice) && (Detached(c.pcs[t]).Some? ==> c.registered == None)
    requires var pc := c.pcs[t]; pc.Reading? || pc.PassHold? || pc.PushHold? || pc.LostHold? || pc.EndHold?
    ensures var e, pc := Advanced(c, t, choice), c.pcs[t];
      && e.pcs == c.pcs[t := e.pcs[t]] && (ClosedIn(e, s) <==> ClosedIn(c, s))
      && (Dooms(e.pcs[t], s) <==> Dooms(pc, s) || CallsForClose(c, Proceed(t, choice), s))
  {
    if c.pcs[t].PassHold? {
      PassDooms(c, t, choice, s);
      hide Advanced, CallsForClose;
    } else if c.pcs[t].LostHold? || c.pcs[t].EndHold? {
      DetacherDooms(c, t, s);
      hide Advanced, CallsForClose;
    }
  }

  lemma ProceedDooms(c: Client, t: Tid, choice: Choice, s: Sid)
    requires Inv(c) && CanProceed(c, t, choice)
    ensures var e, pc := Advanced(c, t, choice), c.pcs[t];
      && t in e.pcs && e.pcs == c.pcs[t := e.pcs[t]] && (ClosedIn(c, s) ==> ClosedIn(e, s))
      && (ClosedIn(e, s) || Dooms(e.pcs[t], s)
          <==> ClosedIn(c, s) || Dooms(pc, s) || CallsForClose(c, Proceed(t, choice), s))
  {
    var pc := c.pcs[t];
    ThreadKnows(c, t);
    if WantsC(pc) || WantsS(pc).Some? {
      LockDooms(c, t, s);
    } else if pc.CheckHold? || pc.SwapHold? || pc.AskHold? || pc.Asking? {
      SubscriberDooms(c, t, choice, s);
    } else if pc.CloseHold? || pc.MarkedHold? || pc.NotifyHold? {
      CloserDooms(c, t, s);
    } else {
      ReaderDooms(c, t, choice, s);
    }
    hide Inv, Advanced, Dooms, CallsForClose, ClosedIn;
  }

  lemma StepDooms(c: Client, a: Action, s: Sid)
    requires Inv(c) && Enabled(c, a)
    ensures Doomed(Step(c, a), s) <==> Doomed(c, s) || CallsForClose(c, a, s)
  {
    if a.Take? {
      assert ClosedIn(Step(c, a), s) <==> ClosedIn(c, s);
      return;
    }
    var e, t := Step(c, a), a.t;
    if a.Proceed? {
      ProceedDooms(c, t, a.choice, s);
      hide Advanced, CallsForClose;
    }
    hide Inv;
    assert t in e.pcs && e.pcs == c.pcs[t := e.pcs[t]];
    if u :| u in c.pcs && Dooms(c.pcs[u], s) {
      assert Dooms(e.pcs[u], s) || u == t;
    }
    if u :| u in e.pcs && Dooms(e.pcs[u], s) {
      assert u in c.pcs || u == t;
    }
  }

  /** Step k of the run calls for the stream to be closed. */
  ghost predicate CalledForAt(c: Client, run: seq<Action>, k: nat, s: Sid) {
    k < |run| && Run(c, run[..k]) && CallsForClose(After(c, run[..k]), run[k], s)
  }

  lemma CalledForLater(c: Client, run: seq<Action>, k: nat, s: Sid)
    requires run != [] && Run(c, run)
    ensures CalledForAt(c, run, k + 1, s) <==> CalledForAt(Step(c, run[0]), run[1..], k, s)
  {
    hide Step, Enabled, CallsForClose;
    if k < |run| - 1 {
      assert run[..k + 1][1..] == run[1..][..k];
    }
  }

  lemma {:induction false} RunDooms(c: Client, run: seq<Action>, s: Sid)
    requires Inv(c) && Run(c, run)
    ensures Doomed(After(c, run), s) <==> Doomed(c, s) || exists k: nat :: CalledForAt(c, run, k, s)
    decreases |run|
  {
    hide Inv, Step, Enabled, Doomed, CallsForClose;
    if run != [] {
      var n, rest := Step(c, run[0]), run[1..];
      StepKeepsInv(c, run[0]);
      StepDooms(c, run[0], s);
      RunDooms(n, rest, s);
      assert run[..0] == [];
      assert CallsForClose(c, run[0], s) <==> CalledForAt(c, run, 0, s);
      if k: nat :| CalledForAt(c, run, k, s) {
        if k > 0 {
          CalledForLater(c, run, k - 1, s);
        }
      }
      if k: nat :| CalledForAt(n, rest, k, s) {
        CalledForLater(c, run, k, s);
      }
    }
  }

  /** In every interleaving a stream is closed, or some thread is on its way to close it,
      if and only if some step of the run called for that. */
  lemma StreamsCloseForCause(run: seq<Action>, s: Sid)
    requires Run(START, run)
    ensures Doomed(After(START, run), s) <==> exists k: nat :: CalledForAt(START, run, k, s)
  {
    RunDooms(START, run, s);
  }

  /** When every thread is done, or the read loop waits for data, a stream is closed if
      something of the run called for that; and otherwise it is the registered one. */
  lemma QuietStreamsCloseForCause(run: seq<Action>, s: Sid)
    requires Run(START, run) && s in After(START, run).streams
    requires forall t :: t in After(START, run).pcs ==> Idle(After(START, run).pcs[t])
    ensures if exists k: nat :: CalledForAt(START, run, k, s) then After(START, run).streams[s].stream.closed
            else After(START, run).registered == Some(s)
  {
    StreamsCloseForCause(run, s);
    NoStreamIsStranded(run, s);
    hide CalledForAt, After, Run;
  }

  /** A stream that loses its place, to a newer one or to none, loses it in the very step
      that calls for its close: from then on nothing is dispatched to it. */
  lemma DetachingForgets(c: Client, t: Tid, choice: Choice, s: Sid)
    requires CanProceed(c, t, choice) && c.registered == Some(s) && CallsForClose(c, Proceed(t, choice), s)
    requires var pc := c.pcs[t]; pc.SwapHold? || pc.PassHold? || pc.LostHold? || pc.EndHold?
    ensures Step(c, Proceed(t, choice)).registered
         == if c.pcs[t].SwapHold? then Some(c.pcs[t].s) else None
  {
  }

  /** A client that is closed makes no more streams. */
  lemma {:induction false} ClosedClientMakesNoStream(c: Client, run: seq<Action>)
    requires c.disposed && Run(c, run)
    ensures After(c, run).disposed && After(c, run).streams.Keys == c.streams.Keys
    decreases |run|
  {
    if run != [] {
      ClosedClientStep(c, run[0]);
      hide Step, Enabled;
      ClosedClientMakesNoStream(Step(c, run[0]), run[1..]);
    }
  }

  lemma ClosedClientStep(c: Client, a: Action)
    requires c.disposed && Enabled(c, a)
    ensures Step(c, a).disposed && Step(c, a).streams.Keys == c.streams.Keys
  {
  }

  lemma CheckMakes(c: Client, t: Tid, choice: Choice)
    requires CanProceed(c, t, choice) && c.pcs[t].CheckHold?
    ensures var e, makes := Advanced(c, t, choice), choice == Go && !c.disposed;
      && e.streams.Keys == (if makes then c.streams.Keys + {c.nextSid} else c.streams.Keys)
      && e.registered == c.registered && (makes ==> e.streams[c.nextSid].stream == Stream(256, [], false))
  {
  }

  lemma OthersMakeNothing(c: Client, t: Tid, choice: Choice)
    requires CanProceed(c, t, choice) && !c.pcs[t].CheckHold?
    ensures Advanced(c, t, choice).streams.Keys == c.streams.Keys
  {
  }

  /** A stream is made by a subscribe that finds the client open and its topics usable,
      and by nothing else; it starts open and empty, with 256 places, and unregistered. */
  lemma StreamsAreMadeExactly(c: Client, a: Action)
    requires Inv(c) && Enabled(c, a)
    ensures var makes := a.Proceed? && c.pcs[a.t].CheckHold? && a.choice == Go && !c.disposed;
      && Step(c, a).streams.Keys == (if makes then c.streams.Keys + {c.nextSid} else c.streams.Keys)
      && c.nextSid !in c.streams
      && (makes ==> Step(c, a).streams[c.nextSid].stream == Stream(256, [], false))
      && (makes ==> Step(c, a).registered == c.registered)
  {
    forall s | s in c.streams
      ensures s < c.nextSid
    {
      assert StreamOk(c, s, c.streams[s]);
    }
    hide Inv;
    if a.Proceed? {
      if c.pcs[a.t].CheckHold? {
        CheckMakes(c, a.t, a.choice);
      } else {
        OthersMakeNothing(c, a.t, a.choice);
      }
      hide Advanced;
    }
  }
}
