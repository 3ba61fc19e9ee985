/** The order of a whole shutdown, told from its log and from the actors themselves. */
module ShutdownOrder {
  import opened Options
  import opened Topology
  import opened Shutdown

  // ---------------------------------------------------------------------
  // One phase, exactly
  // ---------------------------------------------------------------------

  /** A wait from `from`, given `budget`, that ends at `end`: at the first moment no
      target's child runs, or at the deadline. */
  ghost predicate WaitsOut(targets: seq<Target>, from: nat, budget: nat, end: nat) {
    && from <= end <= from + budget
    && (forall u :: from <= u < end ==> AnyRunning(targets, u))
    && (AnyRunning(targets, end) ==> end == from + budget)
  }

  /** A phase is three waits, one after the other: the drain, which only those that can
      subscribe are given, the grace and the reap timeout. */
  lemma PhaseIsThreeWaits(targets: seq<Target>, timings: Timings, voluntary: bool, begin: nat)
    ensures var t := PhaseTimes(targets, timings, voluntary, begin);
      && t.begin == begin
      && WaitsOut(targets, begin, if voluntary then timings.drain else 0, t.signal)
      && WaitsOut(targets, t.signal, timings.grace, t.escalate)
      && WaitsOut(targets, t.escalate, 500, t.end)
  {
    var t := PhaseTimes(targets, timings, voluntary, begin);
    WaitEndsAtTheLastExit(targets, begin, begin + timings.drain);
    WaitEndsAtTheLastExit(targets, t.signal, t.signal + timings.grace);
    WaitEndsAtTheLastExit(targets, t.escalate, t.escalate + REAP_TIMEOUT);
    NoneStillRunning(targets, t.signal);
    NoneStillRunning(targets, t.escalate);
    hide Waited, StillRunning, AnyRunning;
  }

  ghost predicate IsTarget(targets: seq<Target>, name: string) {
    exists i :: 0 <= i < |targets| && targets[i].name == name
  }

  /** Event by event, what a phase's log holds: its broadcast when it begins; a stop for
      every target, if any child runs when the drain is over; SIGKILL for exactly the
      children that run when the grace is over; and a stop of every actor at its end. */
  lemma PhaseLogHolds(kind: Kind, targets: seq<Target>, t: Times, e: Event)
    ensures e in PhaseLog(kind, targets, t) <==>
      match e
      case Notice(_, _) => false
      case Broadcast(k, at) => k == kind && at == t.begin
      case Stop(name, at) => IsTarget(targets, name) && at == t.signal && AnyRunning(targets, t.signal)
      case Kill(name, pid, at) =>
        at == t.escalate && exists i :: 0 <= i < |targets| && RunsAs(targets[i], t.escalate, name, pid)
      case StopActor(name, at) => IsTarget(targets, name) && at == t.end
  {
    NoneStillRunning(targets, t.signal);
    var alive := StillRunning(targets, t.escalate);
    if e.Kill? {
      StillRunningLists(targets, t.escalate, e.name, e.pid);
    }
    StopsHold(targets, t.signal, e);
    KillsHold(alive, t.escalate, e);
    ActorStopsHold(targets, t.end, e);
    hide StillRunning, AnyRunning, RunsAs, IsTarget, Stops, Kills, ActorStops;
  }

  lemma StopsHold(targets: seq<Target>, at: nat, e: Event)
    ensures e in Stops(targets, at) <==> e.Stop? && IsTarget(targets, e.name) && e.at == at
  {
    if e.Stop? && IsTarget(targets, e.name) && e.at == at {
      var i :| 0 <= i < |targets| && targets[i].name == e.name;
      assert Stops(targets, at)[i] == e;
    }
  }

  lemma ActorStopsHold(targets: seq<Target>, at: nat, e: Event)
    ensures e in ActorStops(targets, at) <==> e.StopActor? && IsTarget(targets, e.name) && e.at == at
  {
    if e.StopActor? && IsTarget(targets, e.name) && e.at == at {
      var i :| 0 <= i < |targets| && targets[i].name == e.name;
      assert ActorStops(targets, at)[i] == e;
    }
  }

  lemma KillsHold(alive: seq<(string, nat)>, at: nat, e: Event)
    ensures e in Kills(alive, at) <==> e.Kill? && (e.name, e.pid) in alive && e.at == at
  {
    if e.Kill? && (e.name, e.pid) in alive && e.at == at {
      var i :| 0 <= i < |alive| && alive[i] == (e.name, e.pid);
      assert Kills(alive, at)[i] == e;
    }
  }

  // ---------------------------------------------------------------------
  // The tiers, one after the other
  // ---------------------------------------------------------------------

  ghost predicate UniquelyNamedActors(actors: seq<Managed>) {
    forall i, j :: 0 <= i < j < |actors| ==> actors[i].target.name != actors[j].target.name
  }

  /** When the phase of a kind begins. */
  function PhaseStart(actors: seq<Managed>, timings: Timings, begin: nat, kind: Kind): nat {
    var m := ShutdownTimes(actors, timings, begin);
    match kind
    case Source => begin
    case Handler => m.handlers
    case Sink => m.sinks
  }

  /** When it is over: the next one begins then. */
  function PhaseEnd(actors: seq<Managed>, timings: Timings, begin: nat, kind: Kind): nat {
    var m := ShutdownTimes(actors, timings, begin);
    match kind
    case Source => m.handlers
    case Handler => m.sinks
    case Sink => m.end
  }

  /** Each kind's phase is three waits on the children of that kind, and the next kind's
      begins when it is over: the drain, which sources are not given, then the grace, and
      half a second after the last SIGKILL. What its log holds at which of these times
      PhaseLogHolds says. */
  lemma TiersAreThreeWaits(actors: seq<Managed>, timings: Timings, begin: nat, kind: Kind)
    returns (signal: nat, escalate: nat)
    ensures var targets := OfKind(actors, kind);
      var from, to := PhaseStart(actors, timings, begin, kind), PhaseEnd(actors, timings, begin, kind);
      && WaitsOut(targets, from, if kind == Source then 0 else timings.drain, signal)
      && WaitsOut(targets, signal, timings.grace, escalate)
      && WaitsOut(targets, escalate, 500, to)
      && TierLog(actors, kind, timings, from) == PhaseLog(kind, targets, Times(from, signal, escalate, to))
  {
    var from := PhaseStart(actors, timings, begin, kind);
    var t := PhaseOf(actors, kind, timings, from);
    PhaseIsThreeWaits(OfKind(actors, kind), timings, kind != Source, from);
    hide PhaseTimes, PhaseLog, WaitsOut, OfKind;
    signal, escalate := t.signal, t.escalate;
  }

  /** The event does something to the actor or its child. */
  predicate ActsOn(e: Event, name: string) { (e.Stop? || e.Kill? || e.StopActor?) && e.name == name }

  lemma TierActsOnItsOwn(actors: seq<Managed>, kind: Kind, timings: Timings, begin: nat, e: Event)
    requires e in TierLog(actors, kind, timings, begin)
    ensures e.at >= begin
    ensures !e.Notice? && !e.Broadcast? ==>
      exists i :: 0 <= i < |actors| && actors[i].kind == kind && actors[i].target.name == e.name
  {
    var targets, t := OfKind(actors, kind), PhaseOf(actors, kind, timings, begin);
    PhaseTimesAscend(targets, timings, kind != Source, begin);
    PhaseLogHolds(kind, targets, t, e);
    hide PhaseTimes, PhaseLog, OfKind;
    if !e.Notice? && !e.Broadcast? {
      assert IsTarget(targets, e.name);
      var k :| 0 <= k < |targets| && targets[k].name == e.name;
      assert targets[k] in targets;
      TiersHoldTheirKind(actors, kind);
    }
  }

  /** Nothing is done to an actor or its child before the phase of its kind begins: of
      uniquely named actors, no handler is stopped, killed or ended while the sources'
      phase lasts, and no sink before the handlers' is over. */
  lemma NobodyIsTouchedEarly(actors: seq<Managed>, timings: Timings, begin: nat, i: nat, e: Event)
    requires UniquelyNamedActors(actors) && i < |actors|
    requires e in ShutdownLog(actors, timings, begin) && ActsOn(e, actors[i].target.name)
    ensures e.at >= PhaseStart(actors, timings, begin, actors[i].kind)
  {
    var m := ShutdownTimes(actors, timings, begin);
    ShutdownIsInOrder(actors, timings, begin);
    hide TierLog, PhaseOf;
    var kind, at := TierOf(actors, timings, begin, e);
    TierActsOnItsOwn(actors, kind, timings, at, e);
    var k :| 0 <= k < |actors| && actors[k].kind == kind && actors[k].target.name == e.name;
    assert k == i;
  }

  lemma ShutdownIsInOrder(actors: seq<Managed>, timings: Timings, begin: nat)
    ensures var m := ShutdownTimes(actors, timings, begin);
      begin <= m.handlers <= m.sinks <= m.end
  {
    hide PhaseOf;
    var m := ShutdownTimes(actors, timings, begin);
    TierGoesDown(actors, Source, timings, begin);
    TierGoesDown(actors, Handler, timings, m.handlers);
    TierGoesDown(actors, Sink, timings, m.sinks);
  }

  /** Which tier's log an event of the shutdown is from. */
  lemma TierOf(actors: seq<Managed>, timings: Timings, begin: nat, e: Event) returns (kind: Kind, at: nat)
    requires e in ShutdownLog(actors, timings, begin) && !e.Notice?
    ensures at == PhaseStart(actors, timings, begin, kind) && e in TierLog(actors, kind, timings, at)
  {
    hide TierLog, PhaseOf;
    var m := ShutdownTimes(actors, timings, begin);
    if e in TierLog(actors, Source, timings, begin) {
      return Source, begin;
    }
    if e in TierLog(actors, Handler, timings, m.handlers) {
      return Handler, m.handlers;
    }
    return Sink, m.sinks;
  }

  /** The actor's child, if it has one, is gone by now, or was sent SIGKILL by now. */
  ghost predicate GoneOrKilled(t: Target, log: seq<Event>, now: nat) {
    t.child.Some? ==>
      || (t.child.value.gone.Some? && t.child.value.gone.value <= now)
      || exists at: nat :: at <= now && Kill(t.name, t.child.value.pid, at) in log
  }

  lemma TierIsGoneOrKilled(actors: seq<Managed>, timings: Timings, begin: nat, i: nat, kind: Kind)
    requires i < |actors| && actors[i].kind == kind
    ensures var at := PhaseStart(actors, timings, begin, kind);
      GoneOrKilled(actors[i].target, ShutdownLog(actors, timings, begin), PhaseOf(actors, kind, timings, at).end)
  {
    var at, t := PhaseStart(actors, timings, begin, kind), actors[i].target;
    var targets := OfKind(actors, kind);
    OfKindHolds(actors, kind, t);
    hide OfKind;
    assert t in targets;
    var j :| 0 <= j < |targets| && targets[j] == t;
    TargetIsGoneOrKilled(kind, targets, timings, kind != Source, at, j);
    hide PhaseTimes, PhaseLog;
    TierLogIsInTheLog(actors, timings, begin, kind);
  }

  /** At a phase's end a target is gone, or was sent SIGKILL in the phase. */
  lemma TargetIsGoneOrKilled(kind: Kind, targets: seq<Target>, timings: Timings, voluntary: bool, begin: nat, j: nat)
    requires j < |targets|
    ensures var t := PhaseTimes(targets, timings, voluntary, begin);
      GoneOrKilled(targets[j], PhaseLog(kind, targets, t), t.end)
  {
    PhaseTimesAscend(targets, timings, voluntary, begin);
    EveryChildIsGoneOrKilled(kind, targets, timings, voluntary, begin, j);
    hide PhaseTimes, PhaseLog;
  }

  lemma TierLogIsInTheLog(actors: seq<Managed>, timings: Timings, begin: nat, kind: Kind)
    ensures var at := PhaseStart(actors, timings, begin, kind);
      forall e :: e in TierLog(actors, kind, timings, at) ==> e in ShutdownLog(actors, timings, begin)
  {
    hide TierLog, PhaseOf;
  }

  lemma GoneStaysGone(t: Target, log: seq<Event>, now: nat, later: nat)
    requires GoneOrKilled(t, log, now) && now <= later
    ensures GoneOrKilled(t, log, later)
  {
  }

  /** When the phase of a kind begins, the child of every actor of an earlier kind is
      gone or was sent SIGKILL: of every source before the handlers, and of every source
      and handler before the sinks. */
  lemma EarlierTiersAreDown(actors: seq<Managed>, timings: Timings, begin: nat, i: nat)
    requires i < |actors|
    ensures var m, t := ShutdownTimes(actors, timings, begin), actors[i].target;
      var log := ShutdownLog(actors, timings, begin);
      && (actors[i].kind == Source ==> GoneOrKilled(t, log, m.handlers))
      && (actors[i].kind != Sink ==> GoneOrKilled(t, log, m.sinks))
      && GoneOrKilled(t, log, m.end)
  {
    var m, log, t := ShutdownTimes(actors, timings, begin), ShutdownLog(actors, timings, begin), actors[i].target;
    ShutdownIsInOrder(actors, timings, begin);
    TierIsGoneOrKilled(actors, timings, begin, i, actors[i].kind);
    hide PhaseOf, GoneOrKilled, TierLog, ShutdownLog;
    if actors[i].kind == Source {
      GoneStaysGone(t, log, m.handlers, m.sinks);
    }
    if actors[i].kind != Sink {
      GoneStaysGone(t, log, m.sinks, m.end);
    }
  }

  /** Every actor is told of the shutdown when it begins and is itself stopped when the
      phase of its kind ends, and each kind is announced when its phase begins. */
  lemma EveryActorIsToldAndStopped(actors: seq<Managed>, timings: Timings, begin: nat, i: nat)
    requires i < |actors|
    ensures var log, name, kind := ShutdownLog(actors, timings, begin), actors[i].target.name, actors[i].kind;
      var at := PhaseStart(actors, timings, begin, kind);
      && Notice(name, begin) in log && Broadcast(kind, at) in log
      && StopActor(name, PhaseOf(actors, kind, timings, at).end) in log
  {
    var name, kind := actors[i].target.name, actors[i].kind;
    var at := PhaseStart(actors, timings, begin, kind);
    assert Notices(actors, begin)[i] == Notice(name, begin);
    var targets, t := OfKind(actors, kind), PhaseOf(actors, kind, timings, at);
    OfKindHolds(actors, kind, actors[i].target);
    assert actors[i].target in targets;
    assert IsTarget(targets, name);
    PhaseLogHolds(kind, targets, t, Broadcast(kind, at));
    PhaseLogHolds(kind, targets, t, StopActor(name, t.end));
    PhaseIsThreeWaits(targets, timings, kind != Source, at);
    hide PhaseTimes, PhaseLog, OfKind, WaitsOut, IsTarget;
    TierLogIsInTheLog(actors, timings, begin, kind);
  }
}
