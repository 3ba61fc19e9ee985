/** Taking the topology down: sources, then handlers, then sinks, each tier waited
    on, asked, and in the end killed.

    The children's exits are given in hindsight, as the time each pid watch is
    cleared, so what is proved holds whatever the children do. Every actor is taken
    to have handled the shutdown notice, with no spawn in flight: the engine sends
    the notices and does not wait for that. From then on a cleared watch stays clear,
    and PrimitiveActor.WatchStaysClearExactly says that it does exactly then. */
module Shutdown {
  import opened Options
  import opened Topology

  const REAP_TIMEOUT: nat := 500

  /** A primitive's child: its pid, and when its watch is cleared, if ever. */
  datatype Child = Child(pid: nat, gone: Option<nat>)

  datatype Target = Target(name: string, child: Option<Child>)

  datatype Timings = Timings(drain: nat, grace: nat)

  predicate Running(t: Target, now: nat) {
    t.child.Some? && (t.child.value.gone.None? || now < t.child.value.gone.value)
  }

  /** The target's child, with this name and pid, is running. */
  predicate RunsAs(t: Target, now: nat, name: string, pid: nat) {
    Running(t, now) && t.name == name && t.child.value.pid == pid
  }

  /** The running targets, with the pid to signal. */
  function StillRunning(targets: seq<Target>, now: nat): (r: seq<(string, nat)>)
    ensures |r| <= |targets|
  {
    if targets == [] then []
    else
      (if Running(targets[0], now) then [(targets[0].name, targets[0].child.value.pid)] else [])
      + StillRunning(targets[1..], now)
  }

  lemma {:induction false} StillRunningLists(targets: seq<Target>, now: nat, name: string, pid: nat)
    ensures (name, pid) in StillRunning(targets, now)
       <==> exists i :: 0 <= i < |targets| && RunsAs(targets[i], now, name, pid)
  {
    if targets != [] {
      StillRunningLists(targets[1..], now, name, pid);
      if i :| 0 <= i < |targets| && RunsAs(targets[i], now, name, pid) {
        assert i > 0 ==> targets[1..][i - 1] == targets[i];
      }
      var rest := targets[1..];
      if i :| 0 <= i < |rest| && RunsAs(rest[i], now, name, pid) {
        assert targets[i + 1] == rest[i];
      }
    }
  }

  ghost predicate AnyRunning(targets: seq<Target>, now: nat) {
    exists i :: 0 <= i < |targets| && Running(targets[i], now)
  }

  lemma {:induction false} NoneStillRunning(targets: seq<Target>, now: nat)
    ensures StillRunning(targets, now) == [] <==> !AnyRunning(targets, now)
  {
    if targets != [] {
      NoneStillRunning(targets[1..], now);
      assert forall i :: 0 < i < |targets| ==> targets[i] == targets[1..][i - 1];
    }
  }

  // ---------------------------------------------------------------------
  // One wait
  // ---------------------------------------------------------------------

  /** When the wait for one child that starts at `now` is over. */
  function OneWait(t: Target, now: nat, deadline: nat): nat {
    if !Running(t, now) then now
    else if t.child.value.gone.Some? && t.child.value.gone.value <= deadline then t.child.value.gone.value
    else if now < deadline then deadline
    else now
  }

  /** The targets are waited for one after the other, against one deadline. */
  function Waited(targets: seq<Target>, now: nat, deadline: nat): nat
    decreases |targets|
  {
    if targets == [] then now else Waited(targets[1..], OneWait(targets[0], now, deadline), deadline)
  }

  lemma {:induction false} WaitedOneMore(targets: seq<Target>, t: Target, now: nat, deadline: nat)
    ensures Waited(targets + [t], now, deadline) == OneWait(t, Waited(targets, now, deadline), deadline)
    decreases |targets|
  {
    if targets == [] {
      assert (targets + [t])[1..] == [];
    } else {
      assert (targets + [t])[1..] == targets[1..] + [t];
      WaitedOneMore(targets[1..], t, OneWait(targets[0], now, deadline), deadline);
    }
  }

  method WaitForChildrenExit(watched: seq<Target>, now: nat, budget: nat) returns (alive: seq<(string, nat)>, end: nat)
    ensures end == Waited(watched, now, now + budget) && alive == StillRunning(watched, end)
  {
    var deadline := now + budget;
    end := now;
    for i := 0 to |watched|
      invariant end == Waited(watched[..i], now, deadline)
    {
      assert watched[..i + 1] == watched[..i] + [watched[i]];
      WaitedOneMore(watched[..i], watched[i], now, deadline);
      var timedOut := false;
      ghost var begun := end;
      while Running(watched[i], end) && !timedOut
        invariant timedOut || !Running(watched[i], end) ==> end == OneWait(watched[i], begun, deadline)
        invariant !timedOut && Running(watched[i], end) ==> end == begun
        decreases !timedOut, Running(watched[i], end)
      {
        var gone := watched[i].child.value.gone;
        if gone.Some? && gone.value <= deadline {
          end := gone.value;               // changed: look again
        } else {
          end := if end < deadline then deadline else end;
          timedOut := true;
        }
      }
    }
    assert watched[..|watched|] == watched;
    alive := StillRunning(watched, end);
  }

  /** A wait ends at the first moment every child is gone, if that is not past the
      deadline, and at the deadline otherwise: the budget is shared, however many
      children there are. */
  lemma {:induction false} WaitEndsAtTheLastExit(targets: seq<Target>, now: nat, deadline: nat)
    requires now <= deadline
    ensures var end := Waited(targets, now, deadline);
      && now <= end <= deadline
      && (forall u :: now <= u < end ==> AnyRunning(targets, u))
      && (AnyRunning(targets, end) ==> end == deadline)
    decreases |targets|
  {
    if targets != [] {
      var next := OneWait(targets[0], now, deadline);
      var end := Waited(targets, now, deadline);
      WaitEndsAtTheLastExit(targets[1..], next, deadline);
      forall u | now <= u < end
        ensures AnyRunning(targets, u)
      {
        FirstOrRest(targets, u);
        assert u < next ==> Running(targets[0], u);
      }
      FirstOrRest(targets, end);
    }
  }

  lemma FirstOrRest(targets: seq<Target>, u: nat)
    requires targets != []
    ensures AnyRunning(targets, u) <==> Running(targets[0], u) || AnyRunning(targets[1..], u)
  {
    assert forall i :: 0 < i < |targets| ==> targets[i] == targets[1..][i - 1];
  }

  // ---------------------------------------------------------------------
  // One phase
  // ---------------------------------------------------------------------

  /** What the engine does, and when. */
  datatype Event =
    | Notice(name: string, at: nat)               // EngineShuttingDown
    | Broadcast(kind: Kind, at: nat)              // system.shutdown
    | Stop(name: string, at: nat)                 // StopPrimitive, which sends SIGTERM
    | Kill(name: string, pid: nat, at: nat)       // SIGKILL to the process group
    | StopActor(name: string, at: nat)

  /** When a phase begins, asks its targets to stop, kills what is left, and ends. */
  datatype Times = Times(begin: nat, signal: nat, escalate: nat, end: nat)

  function PhaseTimes(targets: seq<Target>, timings: Timings, voluntary: bool, begin: nat): Times {
    var signal := if voluntary && timings.drain != 0 then Waited(targets, begin, begin + timings.drain) else begin;
    var escalate := if StillRunning(targets, signal) == [] then signal
      else Waited(targets, signal, signal + timings.grace);
    var end := if StillRunning(targets, escalate) == [] then escalate
      else Waited(targets, escalate, escalate + REAP_TIMEOUT);
    Times(begin, signal, escalate, end)
  }

  function Stops(targets: seq<Target>, at: nat): seq<Event> {
    seq(|targets|, i requires 0 <= i < |targets| => Stop(targets[i].name, at))
  }

  function Kills(alive: seq<(string, nat)>, at: nat): seq<Event> {
    seq(|alive|, i requires 0 <= i < |alive| => Kill(alive[i].0, alive[i].1, at))
  }

  function ActorStops(targets: seq<Target>, at: nat): seq<Event> {
    seq(|targets|, i requires 0 <= i < |targets| => StopActor(targets[i].name, at))
  }

  /** All targets are asked if any runs; those that run on are killed. */
  function PhaseLog(kind: Kind, targets: seq<Target>, t: Times): seq<Event> {
    [Broadcast(kind, t.begin)]
    + (if StillRunning(targets, t.signal) == [] then [] else Stops(targets, t.signal))
    + Kills(StillRunning(targets, t.escalate), t.escalate)
    + ActorStops(targets, t.end)
  }

  method SendStops(targets: seq<Target>, at: nat, before: seq<Event>) returns (log: seq<Event>)
    ensures log == before + Stops(targets, at)
  {
    log := before;
    for i := 0 to |targets|
      invariant log == before + Stops(targets[..i], at)
    {
      assert Stops(targets[..i + 1], at) == Stops(targets[..i], at) + [Stop(targets[i].name, at)];
      log := log + [Stop(targets[i].name, at)];
    }
    assert targets[..|targets|] == targets;
  }

  method SendKills(alive: seq<(string, nat)>, at: nat, before: seq<Event>) returns (log: seq<Event>)
    ensures log == before + Kills(alive, at)
  {
    log := before;
    for i := 0 to |alive|
      invariant log == before + Kills(alive[..i], at)
    {
      assert Kills(alive[..i + 1], at) == Kills(alive[..i], at) + [Kill(alive[i].0, alive[i].1, at)];
      log := log + [Kill(alive[i].0, alive[i].1, at)];
    }
    assert alive[..|alive|] == alive;
  }

  method StopActors(targets: seq<Target>, at: nat, before: seq<Event>) returns (log: seq<Event>)
    ensures log == before + ActorStops(targets, at)
  {
    log := before;
    for i := 0 to |targets|
      invariant log == before + ActorStops(targets[..i], at)
    {
      assert ActorStops(targets[..i + 1], at) == ActorStops(targets[..i], at) + [StopActor(targets[i].name, at)];
      log := log + [StopActor(targets[i].name, at)];
    }
    assert targets[..|targets|] == targets;
  }

  method ShutdownPhase(kind: Kind, targets: seq<Target>, timings: Timings, voluntary: bool, begin: nat)
    returns (log: seq<Event>, end: nat)
    ensures var t := PhaseTimes(targets, timings, voluntary, begin);
      log == PhaseLog(kind, targets, t) && end == t.end
  {
    hide StillRunning, Waited, Stops, Kills, ActorStops;
    log, end := [Broadcast(kind, begin)], begin;
    if targets == [] {
      EmptyPhase(kind, timings, voluntary, begin);
      return;
    }
    var alive;
    if voluntary && timings.drain != 0 {
      alive, end := WaitForChildrenExit(targets, end, timings.drain);
    } else {
      alive := StillRunning(targets, end);
    }
    ghost var signal, asks := end, alive != [];
    if alive != [] {
      log := SendStops(targets, end, log);
      alive, end := WaitForChildrenExit(targets, end, timings.grace);
    }
    ghost var escalate, asked := end, log;
    assert asked == [Broadcast(kind, begin)] + if asks then Stops(targets, signal) else [];
    if alive != [] {
      log := SendKills(alive, end, log);
      var unreaped;
      unreaped, end := WaitForChildrenExit(targets, end, REAP_TIMEOUT);
    } else {
      NoKills(end);
    }
    assert log == asked + Kills(StillRunning(targets, escalate), escalate);
    assert PhaseTimes(targets, timings, voluntary, begin) == Times(begin, signal, escalate, end);
    log := StopActors(targets, end, log);
  }

  lemma EmptyPhase(kind: Kind, timings: Timings, voluntary: bool, begin: nat)
    ensures var t := PhaseTimes([], timings, voluntary, begin);
      t == Times(begin, begin, begin, begin) && PhaseLog(kind, [], t) == [Broadcast(kind, begin)]
  {
  }

  lemma NoKills(at: nat)
    ensures Kills([], at) == []
  {
  }

  // ---------------------------------------------------------------------
  // What a phase guarantees
  // ---------------------------------------------------------------------

  lemma PhaseTimesAscend(targets: seq<Target>, timings: Timings, voluntary: bool, begin: nat)
    ensures var t := PhaseTimes(targets, timings, voluntary, begin);
      && begin == t.begin <= t.signal <= t.escalate <= t.end
      && t.signal <= begin + (if voluntary then timings.drain else 0)
      && t.escalate <= t.signal + timings.grace
      && t.end <= t.escalate + REAP_TIMEOUT
      && (AnyRunning(targets, t.escalate) ==> AnyRunning(targets, t.signal) && t.escalate == t.signal + timings.grace)
      && (AnyRunning(targets, t.end) ==> t.end == t.escalate + REAP_TIMEOUT)
  {
    var t := PhaseTimes(targets, timings, voluntary, begin);
    WaitEndsAtTheLastExit(targets, begin, begin + timings.drain);
    WaitEndsAtTheLastExit(targets, t.signal, t.signal + timings.grace);
    WaitEndsAtTheLastExit(targets, t.escalate, t.escalate + REAP_TIMEOUT);
    NoneStillRunning(targets, t.signal);
    NoneStillRunning(targets, t.escalate);
    hide Waited, StillRunning, AnyRunning;
  }

  /** However many children there are, and whatever they do, a phase takes no longer
      than the drain (not given to sources), the grace and the reap timeout. */
  lemma PhaseIsBounded(targets: seq<Target>, timings: Timings, voluntary: bool, begin: nat)
    ensures begin <= PhaseTimes(targets, timings, voluntary, begin).end
              <= begin + (if voluntary then timings.drain else 0) + timings.grace + REAP_TIMEOUT
  {
    PhaseTimesAscend(targets, timings, voluntary, begin);
    hide PhaseTimes;
  }

  /** No phase leaves a child behind: when it ends, every target is gone or its child
      was sent SIGKILL. */
  lemma EveryChildIsGoneOrKilled(kind: Kind, targets: seq<Target>, timings: Timings, voluntary: bool, begin: nat,
                                 i: nat)
    requires i < |targets|
    ensures var t := PhaseTimes(targets, timings, voluntary, begin);
      Running(targets[i], t.end) ==>
        Kill(targets[i].name, targets[i].child.value.pid, t.escalate) in PhaseLog(kind, targets, t)
  {
    PhaseTimesAscend(targets, timings, voluntary, begin);
    var t := PhaseTimes(targets, timings, voluntary, begin);
    hide PhaseTimes;
    if Running(targets[i], t.end) {
      assert Running(targets[i], t.escalate);
      var c := (targets[i].name, targets[i].child.value.pid);
      StillRunningLists(targets, t.escalate, c.0, c.1);
      var alive := StillRunning(targets, t.escalate);
      hide StillRunning, Running;
      var j :| 0 <= j < |alive| && alive[j] == c;
      assert Kills(alive, t.escalate)[j] == Kill(c.0, c.1, t.escalate);
    }
  }

  /** A kill in a phase's log was sent at the escalation, to a child running then. */
  lemma KillsAreForTheRunning(kind: Kind, targets: seq<Target>, t: Times, name: string, pid: nat, at: nat)
    returns (i: nat)
    requires Kill(name, pid, at) in PhaseLog(kind, targets, t)
    ensures at == t.escalate && i < |targets| && RunsAs(targets[i], at, name, pid)
  {
    var alive := StillRunning(targets, t.escalate);
    assert Kill(name, pid, at) in Kills(alive, t.escalate);
    assert (name, pid) in alive;
    StillRunningLists(targets, at, name, pid);
    hide StillRunning;
    i :| 0 <= i < |targets| && RunsAs(targets[i], at, name, pid);
  }

  lemma AllAreAskedIfAnyRuns(kind: Kind, targets: seq<Target>, t: Times)
    requires AnyRunning(targets, t.signal)
    ensures forall i :: 0 <= i < |targets| ==> Stop(targets[i].name, t.signal) in PhaseLog(kind, targets, t)
  {
    NoneStillRunning(targets, t.signal);
    hide StillRunning;
    forall i | 0 <= i < |targets|
      ensures Stop(targets[i].name, t.signal) in PhaseLog(kind, targets, t)
    {
      assert Stops(targets, t.signal)[i] == Stop(targets[i].name, t.signal);
    }
  }

  /** SIGKILL is only for a child that runs on after the grace: it goes to a target
      whose child, with that pid, is running then, and every target was asked to stop
      exactly the grace before. */
  lemma KillsFollowTheGrace(kind: Kind, targets: seq<Target>, timings: Timings, voluntary: bool, begin: nat,
                            name: string, pid: nat, at: nat) returns (i: nat)
    requires Kill(name, pid, at) in PhaseLog(kind, targets, PhaseTimes(targets, timings, voluntary, begin))
    ensures i < |targets| && RunsAs(targets[i], at, name, pid)
    ensures at >= begin + timings.grace
    ensures var log := PhaseLog(kind, targets, PhaseTimes(targets, timings, voluntary, begin));
      forall k :: 0 <= k < |targets| ==> Stop(targets[k].name, at - timings.grace) in log
  {
    hide PhaseTimes, PhaseLog;
    PhaseTimesAscend(targets, timings, voluntary, begin);
    var t := PhaseTimes(targets, timings, voluntary, begin);
    i := KillsAreForTheRunning(kind, targets, t, name, pid, at);
    assert AnyRunning(targets, at);
    AllAreAskedIfAnyRuns(kind, targets, t);
  }

  /** A phase whose children all leave within the drain signals nobody, and ends as
      soon as the last is gone. */
  lemma DrainedPhaseSignalsNobody(kind: Kind, targets: seq<Target>, timings: Timings, begin: nat)
    requires !AnyRunning(targets, begin + timings.drain)
    ensures var t := PhaseTimes(targets, timings, true, begin);
      && PhaseLog(kind, targets, t) == [Broadcast(kind, begin)] + ActorStops(targets, t.end)
      && !AnyRunning(targets, t.end) && (forall u :: begin <= u < t.end ==> AnyRunning(targets, u))
  {
    var t := PhaseTimes(targets, timings, true, begin);
    WaitEndsAtTheLastExit(targets, begin, begin + timings.drain);
    NoneStillRunning(targets, t.signal);
  }

  // ---------------------------------------------------------------------
  // The whole shutdown
  // ---------------------------------------------------------------------

  datatype Managed = Managed(kind: Kind, target: Target)

  function OfKind(actors: seq<Managed>, kind: Kind): seq<Target> {
    if actors == [] then []
    else (if actors[0].kind == kind then [actors[0].target] else []) + OfKind(actors[1..], kind)
  }

  function Notices(actors: seq<Managed>, at: nat): seq<Event> {
    seq(|actors|, i requires 0 <= i < |actors| => Notice(actors[i].target.name, at))
  }

  /** Sources cannot subscribe, so they get no drain. */
  function PhaseOf(actors: seq<Managed>, kind: Kind, timings: Timings, begin: nat): Times {
    PhaseTimes(OfKind(actors, kind), timings, kind != Source, begin)
  }

  function TierLog(actors: seq<Managed>, kind: Kind, timings: Timings, begin: nat): seq<Event> {
    PhaseLog(kind, OfKind(actors, kind), PhaseOf(actors, kind, timings, begin))
  }

  /** When the handlers' and the sinks' phases begin, and the shutdown ends. */
  datatype Milestones = Milestones(handlers: nat, sinks: nat, end: nat)

  function ShutdownTimes(actors: seq<Managed>, timings: Timings, begin: nat): Milestones {
    var handlers := PhaseOf(actors, Source, timings, begin).end;
    var sinks := PhaseOf(actors, Handler, timings, handlers).end;
    Milestones(handlers, sinks, PhaseOf(actors, Sink, timings, sinks).end)
  }

  function ShutdownLog(actors: seq<Managed>, timings: Timings, begin: nat): seq<Event> {
    var m := ShutdownTimes(actors, timings, begin);
    Notices(actors, begin) + TierLog(actors, Source, timings, begin)
    + TierLog(actors, Handler, timings, m.handlers) + TierLog(actors, Sink, timings, m.sinks)
  }

  lemma OfKindFirst(targets: seq<Target>, actors: seq<Managed>, kind: Kind, i: nat)
    requires i < |actors|
    ensures var more := if actors[i].kind == kind then targets + [actors[i].target] else targets;
      more + OfKind(actors[i + 1..], kind) == targets + OfKind(actors[i..], kind)
  {
    assert actors[i..][1..] == actors[i + 1..];
  }

  method TargetsOfKind(actors: seq<Managed>, kind: Kind) returns (targets: seq<Target>)
    ensures targets == OfKind(actors, kind)
  {
    targets := [];
    assert actors[0..] == actors;
    for i := 0 to |actors|
      invariant targets + OfKind(actors[i..], kind) == OfKind(actors, kind)
    {
      OfKindFirst(targets, actors, kind, i);
      if actors[i].kind == kind {
        targets := targets + [actors[i].target];
      }
    }
  }

  method GracefulShutdown(actors: seq<Managed>, timings: Timings, begin: nat) returns (log: seq<Event>, end: nat)
    ensures log == ShutdownLog(actors, timings, begin) && end == ShutdownTimes(actors, timings, begin).end
  {
    hide OfKind, PhaseTimes, PhaseLog;
    log, end := [], begin;
    for i := 0 to |actors|
      invariant log == Notices(actors[..i], begin)
    {
      assert Notices(actors[..i + 1], begin) == Notices(actors[..i], begin) + [Notice(actors[i].target.name, begin)];
      log := log + [Notice(actors[i].target.name, begin)];
    }
    assert actors[..|actors|] == actors;
    var phase;
    var sources := TargetsOfKind(actors, Source);
    phase, end := ShutdownPhase(Source, sources, timings, false, end);
    log := log + phase;
    var handlers := TargetsOfKind(actors, Handler);
    phase, end := ShutdownPhase(Handler, handlers, timings, true, end);
    log := log + phase;
    var sinks := TargetsOfKind(actors, Sink);
    phase, end := ShutdownPhase(Sink, sinks, timings, true, end);
    log := log + phase;
  }

  /** A log whose times never step back and lie between lo and hi. */
  ghost predicate Timed(log: seq<Event>, lo: nat, hi: nat) {
    && (forall i :: 0 <= i < |log| ==> lo <= log[i].at <= hi)
    && (forall i, j :: 0 <= i < j < |log| ==> log[i].at <= log[j].at)
  }

  lemma TimedSum(a: seq<Event>, b: seq<Event>, lo: nat, mid: nat, hi: nat)
    requires lo <= mid <= hi && Timed(a, lo, mid) && Timed(b, mid, hi)
    ensures Timed(a + b, lo, hi)
  {
  }

  lemma PhaseLogIsTimed(kind: Kind, targets: seq<Target>, t: Times)
    requires t.begin <= t.signal <= t.escalate <= t.end
    ensures Timed(PhaseLog(kind, targets, t), t.begin, t.end)
  {
    var asks := if StillRunning(targets, t.signal) == [] then [] else Stops(targets, t.signal);
    var kills, actors := Kills(StillRunning(targets, t.escalate), t.escalate), ActorStops(targets, t.end);
    hide StillRunning;
    assert Timed([Broadcast(kind, t.begin)], t.begin, t.begin);
    assert Timed(asks, t.signal, t.signal) && Timed(kills, t.escalate, t.escalate) && Timed(actors, t.end, t.end);
    TimedPart([Broadcast(kind, t.begin)], t.begin, t.begin, t.begin, t.signal);
    TimedPart(asks, t.signal, t.signal, t.signal, t.escalate);
    TimedPart(kills, t.escalate, t.escalate, t.escalate, t.end);
    TimedSum([Broadcast(kind, t.begin)], asks, t.begin, t.signal, t.escalate);
    TimedSum([Broadcast(kind, t.begin)] + asks, kills, t.begin, t.escalate, t.end);
    TimedSum([Broadcast(kind, t.begin)] + asks + kills, actors, t.begin, t.end, t.end);
    hide Timed;
  }

  lemma TimedPart(log: seq<Event>, lo: nat, hi: nat, below: nat, above: nat)
    requires Timed(log, lo, hi) && below <= lo && hi <= above
    ensures Timed(log, below, above)
  {
  }

  /** Tiers go down one after the other: when the handlers' phase begins, every
      source is gone or was sent SIGKILL, and so is every handler when the sinks'
      begins; and nothing in the log happens out of order. */
  lemma TiersGoDownInOrder(actors: seq<Managed>, timings: Timings, begin: nat)
    ensures var m := ShutdownTimes(actors, timings, begin);
      && Timed(ShutdownLog(actors, timings, begin), begin, m.end)
      && TierIsDown(TierLog(actors, Source, timings, begin), OfKind(actors, Source), m.handlers)
      && TierIsDown(TierLog(actors, Handler, timings, m.handlers), OfKind(actors, Handler), m.sinks)
      && TierIsDown(TierLog(actors, Sink, timings, m.sinks), OfKind(actors, Sink), m.end)
  {
    hide PhaseTimes, PhaseLog, OfKind, Timed, TierIsDown;
    var m := ShutdownTimes(actors, timings, begin);
    TierGoesDown(actors, Source, timings, begin);
    TierGoesDown(actors, Handler, timings, m.handlers);
    TierGoesDown(actors, Sink, timings, m.sinks);
    var notices, sources := Notices(actors, begin), TierLog(actors, Source, timings, begin);
    var handlers, sinks := TierLog(actors, Handler, timings, m.handlers), TierLog(actors, Sink, timings, m.sinks);
    NoticesAreTimed(actors, begin);
    TimedSum(notices, sources, begin, begin, m.handlers);
    TimedSum(notices + sources, handlers, begin, m.handlers, m.sinks);
    TimedSum(notices + sources + handlers, sinks, begin, m.sinks, m.end);
  }

  lemma NoticesAreTimed(actors: seq<Managed>, at: nat)
    ensures Timed(Notices(actors, at), at, at)
  {
  }

  /** Every target is gone at `now`, or the log sends its child SIGKILL. */
  ghost predicate TierIsDown(log: seq<Event>, targets: seq<Target>, now: nat) {
    forall i :: 0 <= i < |targets| && Running(targets[i], now) ==>
      exists at :: Kill(targets[i].name, targets[i].child.value.pid, at) in log
  }

  lemma TierGoesDown(actors: seq<Managed>, kind: Kind, timings: Timings, begin: nat)
    ensures var end := PhaseOf(actors, kind, timings, begin).end;
      && begin <= end <= begin + (if kind != Source then timings.drain else 0) + timings.grace + REAP_TIMEOUT
      && Timed(TierLog(actors, kind, timings, begin), begin, end)
      && TierIsDown(TierLog(actors, kind, timings, begin), OfKind(actors, kind), end)
  {
    hide PhaseTimes, PhaseLog, OfKind, Timed;
    var targets, t := OfKind(actors, kind), PhaseOf(actors, kind, timings, begin);
    PhaseTimesAscend(targets, timings, kind != Source, begin);
    PhaseLogIsTimed(kind, targets, t);
    forall i | 0 <= i < |targets| && Running(targets[i], t.end)
      ensures exists at ::
        Kill(targets[i].name, targets[i].child.value.pid, at) in TierLog(actors, kind, timings, begin)
    {
      EveryChildIsGoneOrKilled(kind, targets, timings, kind != Source, begin, i);
    }
  }

  /** The whole shutdown takes at most two drains, three graces and three reap
      timeouts, however many primitives there are. */
  lemma ShutdownIsBounded(actors: seq<Managed>, timings: Timings, begin: nat)
    ensures begin <= ShutdownTimes(actors, timings, begin).end
              <= begin + 2 * timings.drain + 3 * (timings.grace + REAP_TIMEOUT)
  {
    hide PhaseOf;
    var m := ShutdownTimes(actors, timings, begin);
    TierGoesDown(actors, Source, timings, begin);
    TierGoesDown(actors, Handler, timings, m.handlers);
    TierGoesDown(actors, Sink, timings, m.sinks);
  }

  /** Which of the first i actors have this kind. */
  ghost function Before(actors: seq<Managed>, kind: Kind, i: nat): set<nat>
    requires i <= |actors|
  {
    set j: nat | j < i && actors[j].kind == kind
  }

  lemma {:induction false} OfKindOfSum(a: seq<Managed>, b: seq<Managed>, kind: Kind)
    ensures OfKind(a + b, kind) == OfKind(a, kind) + OfKind(b, kind)
  {
    if a == [] {
      assert a + b == b;
    } else {
      assert (a + b)[1..] == a[1..] + b;
      OfKindOfSum(a[1..], b, kind);
    }
  }

  lemma BeforeOneMore(actors: seq<Managed>, kind: Kind, i: nat)
    requires i < |actors|
    ensures |Before(actors, kind, i + 1)| == |Before(actors, kind, i)| + if actors[i].kind == kind then 1 else 0
  {
    assert Before(actors, kind, i + 1)
        == if actors[i].kind == kind then Before(actors, kind, i) + {i} else Before(actors, kind, i);
  }

  lemma OfKindOfOne(a: Managed, kind: Kind)
    ensures OfKind([a], kind) == if a.kind == kind then [a.target] else []
  {
    assert [a][1..] == [];
  }

  lemma {:induction false} TierSize(actors: seq<Managed>, kind: Kind, i: nat)
    requires i <= |actors|
    ensures |OfKind(actors[..i], kind)| == |Before(actors, kind, i)|
  {
    if i == 0 {
      assert actors[..0] == [] && Before(actors, kind, 0) == {};
    } else {
      TierSize(actors, kind, i - 1);
      BeforeOneMore(actors, kind, i - 1);
      var a := actors[i - 1];
      assert actors[..i] == actors[..i - 1] + [a];
      hide Before;
      OfKindOfSum(actors[..i - 1], [a], kind);
      OfKindOfOne(a, kind);
    }
  }

  lemma TierPlace(actors: seq<Managed>, kind: Kind, i: nat)
    requires i < |actors| && actors[i].kind == kind
    ensures var place := |Before(actors, kind, i)|;
      place < |OfKind(actors, kind)| && OfKind(actors, kind)[place] == actors[i].target
  {
    TierSize(actors, kind, i);
    assert actors == (actors[..i] + [actors[i]]) + actors[i + 1..];
    hide Before;
    OfKindOfSum(actors[..i] + [actors[i]], actors[i + 1..], kind);
    OfKindOfSum(actors[..i], [actors[i]], kind);
    OfKindOfOne(actors[i], kind);
    hide OfKind;
  }

  /** A tier is the targets of exactly the actors of its kind, in order and one for each:
      an actor of the kind is in it at the place that the number of such actors before it
      gives, and no actor of another kind is. */
  lemma TiersHoldTheirKind(actors: seq<Managed>, kind: Kind)
    ensures |OfKind(actors, kind)| == |set j: nat | j < |actors| && actors[j].kind == kind|
    ensures forall i :: 0 <= i < |actors| && actors[i].kind == kind ==>
      var place := |set j: nat | j < i && actors[j].kind == kind|;
      place < |OfKind(actors, kind)| && OfKind(actors, kind)[place] == actors[i].target
    ensures forall t :: t in OfKind(actors, kind) <==>
      exists i :: 0 <= i < |actors| && actors[i] == Managed(kind, t)
  {
    TierSize(actors, kind, |actors|);
    assert actors[..|actors|] == actors;
    hide OfKind;
    forall i | 0 <= i < |actors| && actors[i].kind == kind
      ensures |Before(actors, kind, i)| < |OfKind(actors, kind)|
      ensures OfKind(actors, kind)[|Before(actors, kind, i)|] == actors[i].target
    {
      TierPlace(actors, kind, i);
    }
    forall t
      ensures t in OfKind(actors, kind) <==> exists i :: 0 <= i < |actors| && actors[i] == Managed(kind, t)
    {
      OfKindHolds(actors, kind, t);
    }
  }

  lemma {:induction false} OfKindHolds(actors: seq<Managed>, kind: Kind, t: Target)
    ensures t in OfKind(actors, kind) <==> exists i :: 0 <= i < |actors| && actors[i] == Managed(kind, t)
  {
    if actors != [] {
      var rest := actors[1..];
      OfKindHolds(rest, kind, t);
      if i :| 0 <= i < |rest| && rest[i] == Managed(kind, t) {
        assert actors[i + 1] == Managed(kind, t);
      }
      if i :| 0 <= i < |actors| && actors[i] == Managed(kind, t) {
        assert i > 0 ==> rest[i - 1] == actors[i];
      }
    }
  }
}
