/** Whose connections a revocation closes: the task that watches one primitive's pid,
    against the actor that sets and clears it and the connections being admitted. */
module Revocation {
  import opened Options
  import opened Registry

  /** `watch` holds the child now running, the children being numbered in the order
      they were spawned; `unread` says it changed since the task last read it, `last`
      what the task read then, and `due` that it saw a child gone and is about to
      revoke. `held` are the ids of the primitive's connections, and `owner` is
      history: the child each connection was opened by. */
  datatype World = World(children: nat, watch: Option<nat>, unread: bool, last: Option<nat>, due: bool,
                         held: seq<nat>, owner: map<nat, nat>)

  datatype Step =
    | SetWatch
    | ClearWatch
    | Admit(id: nat, child: nat)
    | Read
    | Revoke

  function Start(): World { World(0, None, false, None, false, [], map[]) }

  predicate Enabled(s: World, step: Step) {
    match step
    case SetWatch => s.watch.None?
    case ClearWatch => s.watch.Some?
    case Admit(id, child) => 0 < child <= s.children && id !in s.owner
    case Read => s.unread && !s.due
    case Revoke => s.due
  }

  function Next(s: World, step: Step): World
    requires Enabled(s, step)
  {
    match step
    case SetWatch => s.(children := s.children + 1, watch := Some(s.children + 1), unread := true)
    case ClearWatch => s.(watch := None, unread := true)
    case Admit(id, child) =>
      s.(held := Remember(s.held, id, MAX_CONNECTIONS_PER_PRIMITIVE).0, owner := s.owner[id := child])
    case Read => s.(due := s.last.Some? && s.watch.None?, last := s.watch, unread := false)
    case Revoke => s.(held := [], due := false)
  }

  ghost predicate Possible(s: World, run: seq<Step>)
    decreases |run|
  {
    run == [] || (Enabled(s, run[0]) && Possible(Next(s, run[0]), run[1..]))
  }

  ghost function After(s: World, run: seq<Step>): World
    requires Possible(s, run)
    decreases |run|
  {
    if run == [] then s else After(Next(s, run[0]), run[1..])
  }

  ghost predicate Inv(s: World) {
    && |s.held| <= MAX_CONNECTIONS_PER_PRIMITIVE
    && (forall id :: id in s.owner ==> 0 < s.owner[id] <= s.children)
    && (forall id :: id in s.held ==> id in s.owner)
    && (s.watch.Some? ==> s.watch == Some(s.children))
  }

  lemma StepKeepsInv(s: World, step: Step)
    requires Inv(s) && Enabled(s, step)
    ensures Inv(Next(s, step))
  {
  }

  lemma {:induction false} RunKeepsInv(s: World, run: seq<Step>)
    requires Inv(s) && Possible(s, run)
    ensures Inv(After(s, run))
    decreases |run|
  {
    if run != [] {
      StepKeepsInv(s, run[0]);
      hide Inv, Next, Enabled;
      RunKeepsInv(Next(s, run[0]), run[1..]);
    }
  }

  // ---------------------------------------------------------------------
  // Between seeing a child gone and revoking
  // ---------------------------------------------------------------------

  /** The connections admitted during a run, in order. */
  function Admitted(run: seq<Step>): seq<nat> {
    if run == [] then []
    else (if run[0].Admit? then [run[0].id] else []) + Admitted(run[1..])
  }

  /** The watching task does nothing: it is one task, and is in its call to revoke. */
  predicate TaskWaits(run: seq<Step>) { forall k :: 0 <= k < |run| ==> !run[k].Read? && !run[k].Revoke? }

  /** No connection about to be closed belongs to a child that runs. */
  ghost predicate TakesOnlyTheGone(s: World)
    requires Inv(s)
  {
    forall id :: id in s.held ==> s.watch != Some(s.owner[id])
  }

  lemma StepGrowsHeld(s: World, step: Step)
    requires Inv(s) && Enabled(s, step) && !step.Read? && !step.Revoke?
    ensures Next(s, step).held
         == Last(s.held + (if step.Admit? then [step.id] else []), MAX_CONNECTIONS_PER_PRIMITIVE)
  {
    assert Last(s.held, MAX_CONNECTIONS_PER_PRIMITIVE) == s.held && s.held + [] == s.held;
    if step.Admit? {
      RememberKeepsTheLast(s.held, step.id, MAX_CONNECTIONS_PER_PRIMITIVE);
    }
  }

  lemma {:induction false} HeldGrows(s: World, run: seq<Step>)
    requires Inv(s) && Possible(s, run) && TaskWaits(run)
    ensures After(s, run).held == Last(s.held + Admitted(run), MAX_CONNECTIONS_PER_PRIMITIVE)
    decreases |run|
  {
    if run == [] {
      assert s.held + [] == s.held;
    } else {
      var next := Next(s, run[0]);
      StepGrowsHeld(s, run[0]);
      StepKeepsInv(s, run[0]);
      assert TaskWaits(run[1..]);
      hide Inv, Next, Enabled, Last, TaskWaits;
      HeldGrows(next, run[1..]);
      assert After(s, run) == After(next, run[1..]);
      AdmittedFirst(s.held, next.held, run);
    }
  }

  lemma AdmittedFirst(held: seq<nat>, next: seq<nat>, run: seq<Step>)
    requires run != []
    requires next == Last(held + (if run[0].Admit? then [run[0].id] else []), MAX_CONNECTIONS_PER_PRIMITIVE)
    ensures Last(next + Admitted(run[1..]), MAX_CONNECTIONS_PER_PRIMITIVE)
         == Last(held + Admitted(run), MAX_CONNECTIONS_PER_PRIMITIVE)
  {
    var head, more := if run[0].Admit? then [run[0].id] else [], Admitted(run[1..]);
    assert Admitted(run) == head + more;
    hide Last, Admitted;
    LastOfThree(held, head, more, MAX_CONNECTIONS_PER_PRIMITIVE);
  }

  lemma LastOfThree(a: seq<nat>, b: seq<nat>, c: seq<nat>, n: nat)
    ensures Last(Last(a + b, n) + c, n) == Last(a + (b + c), n)
  {
    LastOfLast(a + b, c, n);
    hide Last;
    assert a + (b + c) == (a + b) + c;
  }

  lemma {:induction false} OwnersStay(s: World, run: seq<Step>)
    requires Possible(s, run)
    ensures s.owner.Keys <= After(s, run).owner.Keys
    ensures forall id :: id in s.owner ==> After(s, run).owner[id] == s.owner[id]
    ensures forall id :: id in Admitted(run) ==> id in After(s, run).owner
    decreases |run|
  {
    if run != [] {
      OwnersStay(Next(s, run[0]), run[1..]);
    }
  }

  lemma LastOfLast(a: seq<nat>, b: seq<nat>, n: nat)
    ensures Last(Last(a, n) + b, n) == Last(a + b, n)
  {
  }

  /** From the moment the task sees the child gone, whatever else happens before it
      revokes: it closes no running child's connection exactly when none of the last
      64 connections admitted meanwhile is the running child's. */
  lemma RevocationSparesTheReplacementExactly(before: seq<Step>, run: seq<Step>)
    requires Possible(Start(), before) && Enabled(After(Start(), before), Read)
    requires Next(After(Start(), before), Read).due
    requires Possible(Next(After(Start(), before), Read), run) && TaskWaits(run)
    ensures var s := After(Next(After(Start(), before), Read), run);
      && Inv(s) && Enabled(s, Revoke)
      && (forall id :: id in Admitted(run) ==> id in s.owner)
      && (TakesOnlyTheGone(s) <==>
            forall id :: id in Last(Admitted(run), MAX_CONNECTIONS_PER_PRIMITIVE) ==> s.watch != Some(s.owner[id]))
  {
    RunKeepsInv(Start(), before);
    var seen := Next(After(Start(), before), Read);
    StepKeepsInv(After(Start(), before), Read);
    HeldGrows(seen, run);
    OwnersStay(seen, run);
    RunKeepsInv(seen, run);
    StaysDue(seen, run);
    LaterChildrenAreNew(seen, run);
    var s := After(seen, run);
    LastSplits(seen.held, Admitted(run), MAX_CONNECTIONS_PER_PRIMITIVE);
  }

  lemma {:induction false} StaysDue(s: World, run: seq<Step>)
    requires Possible(s, run) && TaskWaits(run) && s.due
    ensures After(s, run).due
    decreases |run|
  {
    if run != [] {
      StaysDue(Next(s, run[0]), run[1..]);
    }
  }

  /** A child that runs after the watch was clear was spawned since. */
  lemma {:induction false} LaterChildrenAreNew(s: World, run: seq<Step>)
    requires Possible(s, run) && (s.watch.None? || s.watch == Some(s.children))
    ensures After(s, run).watch.Some? && s.watch.None? ==> After(s, run).watch.value > s.children
    ensures s.watch.Some? && After(s, run).watch.Some? ==> After(s, run).watch.value >= s.children
    decreases |run|
  {
    if run != [] {
      LaterChildrenAreNew(Next(s, run[0]), run[1..]);
    }
  }

  /** What is last of two lists is all that is last of the second, and something of the
      first. */
  lemma LastSplits(a: seq<nat>, b: seq<nat>, n: nat)
    ensures forall id :: id in Last(b, n) ==> id in Last(a + b, n)
    ensures forall id :: id in Last(a + b, n) ==> id in a || id in Last(b, n)
  {
    var all, tail := Last(a + b, n), Last(b, n);
    forall id | id in tail
      ensures id in all
    {
      var k :| 0 <= k < |tail| && tail[k] == id;
      assert all[|all| - |tail| + k] == id;
    }
    forall id | id in all
      ensures id in a || id in tail
    {
      var k :| 0 <= k < |all| && all[k] == id;
      if k >= |all| - |tail| {
        assert tail[k - (|all| - |tail|)] == id;
      }
    }
  }

  /** The promise in its plain form: a revocation that is over before the next child is
      spawned closes none of its connections. */
  lemma RevocationBeforeTheReplacement(before: seq<Step>, run: seq<Step>)
    requires Possible(Start(), before) && Enabled(After(Start(), before), Read)
    requires Next(After(Start(), before), Read).due
    requires Possible(Next(After(Start(), before), Read), run) && TaskWaits(run)
    requires forall k :: 0 <= k < |run| ==> !run[k].SetWatch?
    ensures var s := After(Next(After(Start(), before), Read), run);
      Inv(s) && TakesOnlyTheGone(s)
  {
    RevocationSparesTheReplacementExactly(before, run);
    StaysClear(Next(After(Start(), before), Read), run);
  }

  lemma {:induction false} StaysClear(s: World, run: seq<Step>)
    requires Possible(s, run) && s.watch.None? && forall k :: 0 <= k < |run| ==> !run[k].SetWatch?
    ensures After(s, run).watch.None?
    decreases |run|
  {
    if run != [] {
      StaysClear(Next(s, run[0]), run[1..]);
    }
  }

  // ---------------------------------------------------------------------
  // Which exits are noticed
  // ---------------------------------------------------------------------

  function Spawns(run: seq<Step>): nat {
    if run == [] then 0 else (if run[0].SetWatch? then 1 else 0) + Spawns(run[1..])
  }

  function Exits(run: seq<Step>): nat {
    if run == [] then 0 else (if run[0].ClearWatch? then 1 else 0) + Exits(run[1..])
  }

  lemma {:induction false} WatchCounts(s: World, run: seq<Step>)
    requires Possible(s, run)
    ensures (if After(s, run).watch.Some? then 1 else 0) + Exits(run) == (if s.watch.Some? then 1 else 0) + Spawns(run)
    ensures TaskWaits(run) ==> After(s, run).last == s.last && After(s, run).due == s.due
    decreases |run|
  {
    if run != [] {
      WatchCounts(Next(s, run[0]), run[1..]);
      assert TaskWaits(run) ==> TaskWaits(run[1..]);
    }
  }

  /** A child goes, and the task next reads after some run: it sees the child gone
      exactly when it had seen a child before and every child spawned meanwhile has gone
      too. Otherwise the watch shows the newest child, or none that it knew of, and that
      exit is never acted on. Either way what it has just read is what it goes by next. */
  lemma ExitIsNoticedExactly(s: World, run: seq<Step>)
    requires s.watch.None? && Possible(s, run) && TaskWaits(run)
    requires Enabled(After(s, run), Read)
    ensures var next := Next(After(s, run), Read);
      && (next.due <==> s.last.Some? && Spawns(run) == Exits(run))
      && next.last == (if Spawns(run) == Exits(run) then None else After(s, run).watch)
  {
    WatchCounts(s, run);
  }

  // ---------------------------------------------------------------------
  // What can go wrong
  // ---------------------------------------------------------------------

  lemma {:induction false} OneMore(s: World, run: seq<Step>, step: Step)
    requires Possible(s, run) && Enabled(After(s, run), step)
    ensures Possible(s, run + [step]) && After(s, run + [step]) == Next(After(s, run), step)
    decreases |run|
  {
    hide Enabled, Next;
    if run == [] {
      var last := run + [step];
      assert last[1..] == [] && Possible(Next(s, step), []);
    } else {
      assert (run + [step])[1..] == run[1..] + [step];
      OneMore(Next(s, run[0]), run[1..], step);
    }
  }

  /** A first child has run, been read, and gone. */
  lemma ChildGone() returns (run: seq<Step>)
    ensures Possible(Start(), run) && After(Start(), run) == World(1, None, true, Some(1), false, [7], map[7 := 1])
  {
    OneMore(Start(), [], SetWatch);
    run := [] + [SetWatch];
    OneMore(Start(), run, Read);
    run := run + [Read];
    OneMore(Start(), run, Admit(7, 1));
    run := run + [Admit(7, 1)];
    assert [] + [7] == [7];
    OneMore(Start(), run, ClearWatch);
    run := run + [ClearWatch];
  }

  /** A task slow to revoke closes the replacement's connection. */
  lemma SlowRevocationTakesTheReplacement() returns (run: seq<Step>)
    ensures Possible(Start(), run) && Inv(After(Start(), run))
    ensures Enabled(After(Start(), run), Revoke) && !TakesOnlyTheGone(After(Start(), run))
  {
    run := ChildGone();
    OneMore(Start(), run, Read);
    run := run + [Read];
    OneMore(Start(), run, SetWatch);
    run := run + [SetWatch];
    OneMore(Start(), run, Admit(8, 2));
    run := run + [Admit(8, 2)];
    RunKeepsInv(Start(), run);
    assert After(Start(), run).held == [7, 8];
    assert 8 in After(Start(), run).held;
  }

  /** A task slow to read misses the exit: the watch is set again, nothing is due, and
      the gone child's connection stays held. */
  lemma SlowReadMissesTheExit() returns (run: seq<Step>)
    ensures Possible(Start(), run)
    ensures var s := After(Start(), run);
      !s.due && !s.unread && s.watch == Some(2) && s.held == [7] && 7 in s.owner && s.owner[7] == 1
  {
    run := ChildGone();
    OneMore(Start(), run, SetWatch);
    run := run + [SetWatch];
    OneMore(Start(), run, Read);
    run := run + [Read];
  }
}
