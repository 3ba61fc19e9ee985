/** On which clocks the restart budget can be overrun: the exit times alone decide. */
module RestartClock {
  import opened Options
  import opened Supervision

  function Gap(a: nat, b: nat): nat { if a < b then b - a else a - b }

  /** After time i the clock ran ahead to time j, and then stood nearer to time i
      again than it had run ahead. */
  ghost predicate SteppedBack(ts: seq<u64>, i: nat, j: nat, k: nat) {
    i < j < k < |ts| && ts[i] < ts[j] && Gap(ts[i], ts[k]) < ts[j] - ts[i]
  }

  /** A time at the epoch, which the strict cutoff never keeps, and a later exit. */
  ghost predicate AtEpoch(ts: seq<u64>, i: nat, k: nat) {
    i < k < |ts| && ts[i] == 0 && ts[k] < U64_MAX
  }

  ghost predicate CanOverrun(ts: seq<u64>) {
    (exists i: nat, j: nat, k: nat :: SteppedBack(ts, i, j, k)) || (exists i: nat, k: nat :: AtEpoch(ts, i, k))
  }

  ghost predicate ExitsAt(xs: seq<Exit>, ts: seq<u64>) {
    |xs| == |ts| && forall n :: 0 <= n < |xs| ==> xs[n].now == ts[n]
  }

  function TimesOf(xs: seq<Exit>): seq<u64> { seq(|xs|, n requires 0 <= n < |xs| => xs[n].now) }

  lemma ClockedCannotOverrun(xs: seq<Exit>, ts: seq<u64>)
    requires ExitsAt(xs, ts) && Clocked(xs, 0)
    ensures !CanOverrun(ts)
  {
    forall i: nat, j: nat, k: nat
      ensures !SteppedBack(ts, i, j, k)
    {
      if i < j < k < |ts| {
        assert xs[i].now <= xs[j].now <= xs[k].now;
      }
    }
  }

  // ---------------------------------------------------------------------
  // No overrun
  // ---------------------------------------------------------------------

  /** A grant: the exit it was made at, its time, and the exit whose pruning dropped it
      from the stored list, if one has. */
  datatype Mark = Mark(at: nat, time: u64, dropped: Option<nat>)

  /** The times still stored. */
  function Stocked(marks: seq<Mark>): seq<u64> {
    if marks == [] then []
    else
      var m := marks[|marks| - 1];
      Stocked(marks[..|marks| - 1]) + (if m.dropped.None? then [m.time] else [])
  }

  function Drop(m: Mark, cutoff: u64, j: nat): Mark {
    if m.dropped.None? && m.time <= cutoff then m.(dropped := Some(j)) else m
  }

  function DropAll(marks: seq<Mark>, cutoff: u64, j: nat): seq<Mark> {
    seq(|marks|, i requires 0 <= i < |marks| => Drop(marks[i], cutoff, j))
  }

  lemma {:induction false} LaterOfSum(a: seq<u64>, b: seq<u64>, cutoff: u64)
    ensures Later(a + b, cutoff) == Later(a, cutoff) + Later(b, cutoff)
  {
    if a == [] {
      assert a + b == b;
    } else {
      assert (a + b)[1..] == a[1..] + b;
      LaterOfSum(a[1..], b, cutoff);
      var head := if a[0] > cutoff then [a[0]] else [];
      assert head + (Later(a[1..], cutoff) + Later(b, cutoff)) == (head + Later(a[1..], cutoff)) + Later(b, cutoff);
    }
  }

  /** Dropping marks is pruning the stored list. */
  lemma {:induction false} DroppingIsPruning(marks: seq<Mark>, cutoff: u64, j: nat)
    ensures Stocked(DropAll(marks, cutoff, j)) == Later(Stocked(marks), cutoff)
  {
    if marks != [] {
      var most, m := marks[..|marks| - 1], marks[|marks| - 1];
      DroppingIsPruning(most, cutoff, j);
      assert DropAll(marks, cutoff, j)[..|most|] == DropAll(most, cutoff, j);
      LaterOfSum(Stocked(most), if m.dropped.None? then [m.time] else [], cutoff);
      assert Later([m.time], cutoff) == if m.time > cutoff then [m.time] else [] by {
        assert [m.time][1..] == [];
      }
    }
  }

  /** The marks tell the history of a budget: m exits have been handled. */
  ghost predicate Tells(marks: seq<Mark>, b: Budget, ts: seq<u64>, m: nat, window: nat) {
    && |marks| == |b.granted| && b.attempts == Stocked(marks) && m <= |ts|
    && forall i :: 0 <= i < |marks| ==> MarkOk(marks[i], b.granted[i].0, ts, m, window)
  }

  ghost predicate MarkOk(mark: Mark, time: u64, ts: seq<u64>, m: nat, window: nat)
    requires m <= |ts|
  {
    && mark.time == time && mark.at < m && ts[mark.at] == time
    && (mark.dropped.Some? ==> mark.at < mark.dropped.value < m && time <= Cutoff(ts[mark.dropped.value], window))
  }

  function Cutoff(now: nat, window: nat): nat { if now < window then 0 else now - window }

  ghost predicate InWindow(time: nat, t: int, window: nat) { t - window < time <= t }

  lemma {:induction false} WindowHoldsStockedOnly(granted: seq<(u64, u32)>, marks: seq<Mark>, t: int, window: nat)
    requires |marks| == |granted| && forall i :: 0 <= i < |marks| ==> marks[i].time == granted[i].0
    requires forall i :: 0 <= i < |marks| && InWindow(marks[i].time, t, window) ==> marks[i].dropped.None?
    ensures GrantsIn(granted, t, window) <= |Stocked(marks)|
  {
    if marks != [] {
      var n := |marks| - 1;
      WindowHoldsStockedOnly(granted[..n], marks[..n], t, window);
      assert InWindow(marks[n].time, t, window) <==> t - window < granted[n].0 <= t;
    }
  }

  /** A grant that shares a window with this exit has been dropped only if the times
      allow an overrun. */
  lemma DroppedNeighbourMeansOverrun(mark: Mark, time: u64, ts: seq<u64>, m: nat, t: int, window: u64)
    requires m < |ts| && MarkOk(mark, time, ts, m, window)
    requires InWindow(time, t, window) && InWindow(ts[m], t, window)
    ensures Drop(mark, Cutoff(ts[m], window), m).dropped.Some? ==> CanOverrun(ts)
  {
    var now := Drop(mark, Cutoff(ts[m], window), m);
    if now.dropped.Some? {
      var j := now.dropped.value;
      assert Gap(time, ts[m]) < window;
      if ts[j] < window {
        assert AtEpoch(ts, mark.at, m);
      } else {
        assert SteppedBack(ts, mark.at, j, m);
      }
    }
  }

  lemma MarksAfterPruning(marks: seq<Mark>, b: Budget, ts: seq<u64>, m: nat, window: u64)
    requires Tells(marks, b, ts, m, window) && m < |ts|
    ensures Tells(DropAll(marks, Cutoff(ts[m], window), m), Budget(PruneAttempts(b.attempts, ts[m], window), b.granted),
                  ts, m + 1, window)
  {
    DroppingIsPruning(marks, Cutoff(ts[m], window), m);
    hide Stocked, Later;
    forall i | 0 <= i < |marks|
      ensures MarkOk(Drop(marks[i], Cutoff(ts[m], window), m), b.granted[i].0, ts, m + 1, window)
    {
      assert MarkOk(marks[i], b.granted[i].0, ts, m, window);
    }
  }

  lemma GrantKeepsWithin(limits: RestartLimits, b: Budget, marks: seq<Mark>, ts: seq<u64>, m: nat,
                         g: (u64, u32))
    requires Tells(marks, b, ts, m, limits.windowMs) && m < |ts| && !CanOverrun(ts) && g.0 == ts[m]
    requires WithinBudget(b.granted, limits) && |PruneAttempts(b.attempts, ts[m], limits.windowMs)| < limits.maxRetries
    ensures WithinBudget(b.granted + [g], limits)
  {
    var window := limits.windowMs;
    var after := DropAll(marks, Cutoff(ts[m], window), m);
    DroppingIsPruning(marks, Cutoff(ts[m], window), m);
    hide Stocked, Later, CanOverrun;
    forall t: int
      ensures GrantsIn(b.granted + [g], t, window) <= limits.maxRetries
    {
      GrantsInPush(b.granted, g, t, window);
      if InWindow(ts[m], t, window) {
        forall i | 0 <= i < |after| && InWindow(after[i].time, t, window)
          ensures after[i].dropped.None?
        {
          assert MarkOk(marks[i], b.granted[i].0, ts, m, window);
          DroppedNeighbourMeansOverrun(marks[i], b.granted[i].0, ts, m, t, window);
        }
        WindowHoldsStockedOnly(b.granted, after, t, window);
      }
    }
  }

  lemma ExitKeepsWithin(policy: RestartPolicy, limits: RestartLimits, b: Budget, marks: seq<Mark>,
                        xs: seq<Exit>, ts: seq<u64>, m: nat)
    returns (after: seq<Mark>)
    requires ExitsAt(xs, ts) && m < |xs| && !CanOverrun(ts)
    requires Tells(marks, b, ts, m, limits.windowMs) && WithinBudget(b.granted, limits)
    ensures Tells(after, OnExit(policy, limits, b, xs[m]), ts, m + 1, limits.windowMs)
    ensures WithinBudget(OnExit(policy, limits, b, xs[m]).granted, limits)
  {
    var kept := PruneAttempts(b.attempts, ts[m], limits.windowMs);
    after := DropAll(marks, Cutoff(ts[m], limits.windowMs), m);
    MarksAfterPruning(marks, b, ts, m, limits.windowMs);
    LaterIsIdempotent(b.attempts, SaturatingSub(ts[m], limits.windowMs));
    hide BackoffDelay, Later, CanOverrun, WithinBudget, GrantsIn;
    var e := OnExit(policy, limits, b, xs[m]);
    if e.granted != b.granted {
      var g := e.granted[|b.granted|];
      assert e == Budget(kept + [ts[m]], b.granted + [g]) && g.0 == ts[m];
      GrantKeepsWithin(limits, b, marks, ts, m, g);
      after := OneMoreMark(after, Budget(kept, b.granted), ts, m + 1, limits.windowMs, g);
    }
  }

  lemma OneMoreMark(marks: seq<Mark>, b: Budget, ts: seq<u64>, m: nat, window: nat, g: (u64, u32))
    returns (more: seq<Mark>)
    requires Tells(marks, b, ts, m, window) && m > 0 && g.0 == ts[m - 1]
    ensures Tells(more, Budget(b.attempts + [g.0], b.granted + [g]), ts, m, window)
  {
    var mark := Mark(m - 1, g.0, None);
    more := marks + [mark];
    assert more[..|marks|] == marks;
    forall i | 0 <= i < |more|
      ensures MarkOk(more[i], (b.granted + [g])[i].0, ts, m, window)
    {
      if i < |marks| {
        assert MarkOk(marks[i], b.granted[i].0, ts, m, window);
      }
    }
  }

  lemma {:induction false} ExitsKeepWithin(policy: RestartPolicy, limits: RestartLimits, b: Budget, marks: seq<Mark>,
                                          xs: seq<Exit>, ts: seq<u64>, m: nat)
    requires ExitsAt(xs, ts) && m <= |xs| && !CanOverrun(ts)
    requires Tells(marks, b, ts, m, limits.windowMs) && WithinBudget(b.granted, limits)
    ensures WithinBudget(OnExits(policy, limits, b, xs[m..]).granted, limits)
    decreases |xs| - m
  {
    hide OnExit, CanOverrun, Tells, WithinBudget;
    if m < |xs| {
      var after := ExitKeepsWithin(policy, limits, b, marks, xs, ts, m);
      assert xs[m..][1..] == xs[m + 1..];
      ExitsKeepWithin(policy, limits, OnExit(policy, limits, b, xs[m]), after, xs, ts, m + 1);
    }
  }

  // ---------------------------------------------------------------------
  // An overrun
  // ---------------------------------------------------------------------

  /** Exits i and k fail and every other is clean, under a budget of one restart. */
  function Crashes(ts: seq<u64>, i: nat, k: nat): seq<Exit> {
    seq(|ts|, n requires 0 <= n < |ts| => Exit(ts[n], if n == i || n == k then 1 else 0, false))
  }

  function OneIn(window: u64): RestartLimits { RestartLimits(0, 0, 1, window) }

  /** Exit j prunes the restart of exit i, and exit k is in its window still. */
  ghost predicate Forgets(ts: seq<u64>, i: nat, j: nat, k: nat, window: u64) {
    && i < j <= k < |ts| && ts[i] <= Cutoff(ts[j], window) && Gap(ts[i], ts[k]) < window
  }

  /** Where the budget stands after n of the crashes. */
  ghost predicate Stands(b: Budget, ts: seq<u64>, i: nat, j: nat, k: nat, n: nat)
    requires i < j <= k < |ts|
  {
    if n <= i then b == Budget([], [])
    else if n <= j then b.granted == [(ts[i], 1)] && (b.attempts == [] || b.attempts == [ts[i]])
    else if n <= k then b == Budget([], [(ts[i], 1)])
    else b.granted == [(ts[i], 1), (ts[k], 1)]
  }

  lemma OnePrunes(t: u64, cutoff: u64)
    ensures Later([], cutoff) == [] && Later([t], cutoff) == if t > cutoff then [t] else []
  {
    assert [t][1..] == [];
  }

  lemma CleanExit(limits: RestartLimits, b: Budget, now: u64)
    ensures OnExit(OnFailure, limits, b, Exit(now, 0, false))
         == Budget(PruneAttempts(b.attempts, now, limits.windowMs), b.granted)
  {
  }

  lemma FirstCrash(window: u64, b: Budget, now: u64)
    requires PruneAttempts(b.attempts, now, window) == []
    ensures OnExit(OnFailure, OneIn(window), b, Exit(now, 1, false)) == Budget([now], b.granted + [(now, 1)])
  {
    assert Later([], SaturatingSub(now, window)) == [];
    hide BackoffDelay;
  }

  lemma CrashStands(ts: seq<u64>, i: nat, j: nat, k: nat, window: u64, b: Budget, n: nat)
    requires Forgets(ts, i, j, k, window) && n < |ts| && Stands(b, ts, i, j, k, n)
    ensures Stands(OnExit(OnFailure, OneIn(window), b, Crashes(ts, i, k)[n]), ts, i, j, k, n + 1)
  {
    OnePrunes(ts[i], SaturatingSub(ts[n], window));
    if n == i || n == k {
      FirstCrash(window, b, ts[n]);
    } else {
      CleanExit(OneIn(window), b, ts[n]);
    }
    hide OnExit, Later;
  }

  lemma {:induction false} CrashesStand(ts: seq<u64>, i: nat, j: nat, k: nat, window: u64, b: Budget, n: nat)
    requires Forgets(ts, i, j, k, window) && n <= |ts| && Stands(b, ts, i, j, k, n)
    ensures OnExits(OnFailure, OneIn(window), b, Crashes(ts, i, k)[n..]).granted == [(ts[i], 1), (ts[k], 1)]
    decreases |ts| - n
  {
    hide OnExit;
    if n < |ts| {
      var xs := Crashes(ts, i, k);
      CrashStands(ts, i, j, k, window, b, n);
      assert xs[n..][1..] == xs[n + 1..];
      CrashesStand(ts, i, j, k, window, OnExit(OnFailure, OneIn(window), b, xs[n]), n + 1);
    }
  }

  lemma TwoInOneWindow(a: u64, c: u64, window: u64)
    requires Gap(a, c) < window
    ensures !WithinBudget([(a, 1), (c, 1)], OneIn(window))
  {
    var t := if a < c then c else a;
    GrantsInPush([], (a, 1), t, window);
    GrantsInPush([(a, 1)], (c, 1), t, window);
    assert [(a, 1)] + [(c, 1)] == [(a, 1), (c, 1)] && [] + [(a, 1)] == [(a, 1)];
    assert GrantsIn([(a, 1), (c, 1)], t, window) == 2;
  }

  lemma OverrunExists(ts: seq<u64>) returns (limits: RestartLimits, xs: seq<Exit>)
    requires CanOverrun(ts)
    ensures ExitsAt(xs, ts) && !WithinBudget(OnExits(OnFailure, limits, Budget([], []), xs).granted, limits)
  {
    var i: nat, j: nat, k: nat, window: u64;
    if a: nat, b: nat, c: nat :| SteppedBack(ts, a, b, c) {
      i, j, k := a, b, c;
      window := ts[j] - ts[i];
    } else {
      i, k :| AtEpoch(ts, i, k);
      j, window := k, ts[k] + 1;
    }
    limits, xs := OneIn(window), Crashes(ts, i, k);
    assert xs[0..] == xs;
    CrashesStand(ts, i, j, k, window, Budget([], []), 0);
    TwoInOneWindow(ts[i], ts[k], window);
  }

  // ---------------------------------------------------------------------
  // Exactly
  // ---------------------------------------------------------------------

  /** Whatever the policy, the limits, the exit codes and the moment of shutdown, no
      window holds more restarts than the budget. */
  ghost predicate BudgetHoldsOn(ts: seq<u64>) {
    forall policy, limits, xs :: ExitsAt(xs, ts) ==>
      WithinBudget(OnExits(policy, limits, Budget([], []), xs).granted, limits)
  }

  /** The budget holds for every policy, limits and exits at these times exactly when
      the clock never comes back nearer to an earlier exit than it had run ahead of
      it, and no exit at the epoch has another after it. */
  lemma BudgetHoldsExactly(ts: seq<u64>)
    ensures BudgetHoldsOn(ts) <==> !CanOverrun(ts)
  {
    if CanOverrun(ts) {
      var limits, xs := OverrunExists(ts);
      hide OnExits, WithinBudget, CanOverrun;
      assert !BudgetHoldsOn(ts);
    } else {
      forall policy, limits, xs | ExitsAt(xs, ts)
        ensures WithinBudget(OnExits(policy, limits, Budget([], []), xs).granted, limits)
      {
        assert xs[0..] == xs;
        ExitsKeepWithin(policy, limits, Budget([], []), [], xs, ts, 0);
      }
    }
  }
}
