/** What the actor is told of its child is true, and what it does then is what the news
    calls for: over every run of the actor, its tasks and the child. */
module ActorNews {
  import opened Options
  import opened PrimitiveActor
  import opened Supervision

  // ---------------------------------------------------------------------
  // The last word on the child, from the run itself
  // ---------------------------------------------------------------------

  /** The pid of the last child forked. */
  ghost function LastForked(run: seq<Step>): Option<nat> {
    if run == [] then None
    else if run[|run| - 1].Fork? then Some(run[|run| - 1].pid)
    else LastForked(run[..|run| - 1])
  }

  /** The last child to end, and its exit code. */
  ghost function LastEnded(run: seq<Step>): Option<(nat, int)> {
    if run == [] then None
    else if run[|run| - 1].ChildEnds? then Some((run[|run| - 1].pid, run[|run| - 1].code))
    else LastEnded(run[..|run| - 1])
  }

  /** The error of the last failed spawn. */
  ghost function LastFailure(run: seq<Step>): Option<string> {
    if run == [] then None
    else if run[|run| - 1].FailToFork? then Some(run[|run| - 1].error)
    else LastFailure(run[..|run| - 1])
  }

  datatype News = News(forked: Option<nat>, ended: Option<(nat, int)>, failed: Option<string>)

  ghost function NewsOf(run: seq<Step>): News { News(LastForked(run), LastEnded(run), LastFailure(run)) }

  function Heard(n: News, step: Step): News {
    match step
    case Fork(_, pid) => n.(forked := Some(pid))
    case ChildEnds(pid, code) => n.(ended := Some((pid, code)))
    case FailToFork(_, error) => n.(failed := Some(error))
    case _ => n
  }

  lemma NewsOneMore(run: seq<Step>, step: Step)
    ensures NewsOf(run + [step]) == Heard(NewsOf(run), step)
  {
    assert (run + [step])[..|run|] == run;
  }

  lemma {:induction false} RunOneMore(policy: RestartPolicy, limits: RestartLimits, s: World, run: seq<Step>, n: nat)
    requires Possible(policy, limits, s, run) && n < |run|
    ensures Possible(policy, limits, s, run[..n]) && Enabled(After(policy, limits, s, run[..n]), run[n])
    ensures Possible(policy, limits, s, run[..n + 1])
    ensures After(policy, limits, s, run[..n + 1])
         == Next(policy, limits, After(policy, limits, s, run[..n]), run[n])
    decreases n
  {
    hide Enabled, Next;
    if n > 0 {
      RunOneMore(policy, limits, Next(policy, limits, s, run[0]), run[1..], n - 1);
      assert run[..n][1..] == run[1..][..n - 1] && run[..n + 1][1..] == run[1..][..n];
    } else {
      assert run[..1][1..] == [] && run[..0] == [];
    }
  }

  // ---------------------------------------------------------------------
  // Everything said of the child is so
  // ---------------------------------------------------------------------

  ghost predicate MessageIsTrue(m: Message, n: News) {
    match m
    case ChildSpawned(pid) => n.forked == Some(pid)
    case ChildExited(pid, code) => n.forked == Some(pid) && n.ended == Some((pid, code))
    case ChildSpawnFailed(error) => n.failed == Some(error)
    case _ => true
  }

  ghost predicate TaskIsTrue(task: Task, n: News) {
    match task
    case NotForked(error) => n.failed == Some(error)
    case Unwatched(pid) => n.forked == Some(pid)
    case Unreported(pid) => n.forked == Some(pid)
    case Monitoring(pid) => n.forked == Some(pid)
    case Reaped(pid, code) => n.forked == Some(pid) && n.ended == Some((pid, code))
    case Cleared(pid, code) => n.forked == Some(pid) && n.ended == Some((pid, code))
    case _ => true
  }

  ghost predicate MailIsTrue(mailbox: seq<Message>, n: News) {
    forall k :: 0 <= k < |mailbox| ==> MessageIsTrue(mailbox[k], n)
  }

  ghost predicate TasksAreTrue(tasks: seq<Task>, n: News) {
    forall k :: 0 <= k < |tasks| ==> TaskIsTrue(tasks[k], n)
  }

  /** The child the actor holds, and the one its watch names, is the last one forked; an
      unreaped child that ended is the last to end. */
  ghost predicate ChildIsTrue(s: World, n: News) {
    && (s.model.childPid.Some? ==> s.model.childPid == n.forked)
    && (s.watch.Some? ==> s.watch == n.forked)
    && forall pid :: pid in s.os ==>
         n.forked == Some(pid) && (s.os[pid].Some? ==> n.ended == Some((pid, s.os[pid].value)))
  }

  ghost predicate NewsIsTrue(s: World, n: News) {
    MailIsTrue(s.mailbox, n) && TasksAreTrue(s.tasks, n) && ChildIsTrue(s, n)
  }

  /** Which child the actor holds after a message. */
  lemma HandledChild(policy: RestartPolicy, limits: RestartLimits, m: Model, message: Message, now: u64)
    requires ModelOk(m) && (message.ChildExited? ==> m.childPid == Some(message.pid))
    ensures var h := Handle(policy, limits, m, message, now);
      && h.model.childPid == (if message.ChildSpawned? then Some(message.pid)
                              else if IsNotice(message) || message.RestartChild? then m.childPid else None)
      && forall k :: 0 <= k < |Started(h.todo)| ==> Started(h.todo)[k].Announcing? || Started(h.todo)[k].Sleeping?
  {
    hide PruneAttempts, DecideRestart;
  }

  lemma TakeKeepsNews(policy: RestartPolicy, limits: RestartLimits, s: World, now: u64, n: News)
    requires ModelOk(s.model) && OneToken(s) && s.mailbox != [] && NewsIsTrue(s, n)
    ensures NewsIsTrue(Take(policy, limits, s, now), n)
  {
    if s.mailbox[0].ChildExited? {
      ExitNoticeIsCurrent(s);
    }
    HandledChild(policy, limits, s.model, s.mailbox[0], now);
    hide OneToken, ModelOk;
    var h := Handle(policy, limits, s.model, s.mailbox[0], now);
    var t := Take(policy, limits, s, now);
    assert t.mailbox == s.mailbox[1..] && t.tasks == s.tasks + Started(h.todo) && t.model == h.model;
    assert t.watch == s.watch && t.os == s.os;
    hide Handle, Started, Take;
    MailAfterTake(s.mailbox, n);
    TasksAfterTake(s.tasks, Started(h.todo), n);
    hide MailIsTrue, TasksAreTrue;
  }

  lemma MailAfterTake(mailbox: seq<Message>, n: News)
    requires mailbox != [] && MailIsTrue(mailbox, n)
    ensures MailIsTrue(mailbox[1..], n) && MessageIsTrue(mailbox[0], n)
  {
  }

  lemma TasksAfterTake(tasks: seq<Task>, started: seq<Task>, n: News)
    requires TasksAreTrue(tasks, n)
    requires forall k :: 0 <= k < |started| ==> started[k].Announcing? || started[k].Sleeping?
    ensures TasksAreTrue(tasks + started, n)
  {
  }

  lemma RunTaskKeepsNews(s: World, i: nat, n: News)
    requires Enabled(s, RunTask(i)) && NewsIsTrue(s, n)
    ensures NewsIsTrue(RunOne(s, i), n)
  {
    var t := RunOne(s, i);
    assert TaskIsTrue(s.tasks[i], n);
    assert MailIsTrue(t.mailbox, n);
    assert TasksAreTrue(t.tasks, n);
  }

  /** While a child may be forked, nothing is said of an earlier one. */
  lemma ForkerHearsNothing(s: World)
    requires OneToken(s) && |s.tasks| > 0 && s.tasks[0].Forking?
    ensures s.os == map[] && s.watch == None && s.model.childPid == None && |s.tasks| == 1
    ensures forall k :: 0 <= k < |s.mailbox| ==> IsNotice(s.mailbox[k]) || s.mailbox[k].ChildSpawning?
  {
    forall k | 0 <= k < |s.mailbox|
      ensures IsNotice(s.mailbox[k]) || s.mailbox[k].ChildSpawning?
    {
      TrailHolds(s.mailbox, s.mailbox[k]);
      hide Trail;
    }
  }

  /** While a child runs, nothing is said of its end. */
  lemma RunningChildHasNotExited(s: World, pid: nat)
    requires OneToken(s) && pid in s.os && s.os[pid].None?
    ensures s.os.Keys == {pid}
    ensures forall k :: 0 <= k < |s.tasks| ==> !s.tasks[k].Reaped? && !s.tasks[k].Cleared?
    ensures forall k :: 0 <= k < |s.mailbox| ==> !s.mailbox[k].ChildExited?
  {
    var trail := Trail(s.mailbox);
    assert pid in s.os.Keys;
    if s.tasks == [] {
      OnlyOne(s.os, pid);
      assert Hears(trail, s.model.childPid, pid);
    }
    assert forall k :: 0 <= k < |trail| ==> !trail[k].ChildExited?;
    forall k | 0 <= k < |s.mailbox|
      ensures !s.mailbox[k].ChildExited?
    {
      TrailHolds(s.mailbox, s.mailbox[k]);
      hide Trail;
    }
  }

  lemma OnlyOne<V>(m: map<nat, V>, k: nat)
    requires |m| == 1 && k in m
    ensures m.Keys == {k}
  {
    assert |m.Keys - {k}| == 0;
    assert m.Keys == m.Keys - {k} + {k};
  }

  lemma StepKeepsNews(policy: RestartPolicy, limits: RestartLimits, s: World, step: Step, n: News)
    requires Inv(policy, limits, s) && Enabled(s, step) && NewsIsTrue(s, n)
    ensures NewsIsTrue(Next(policy, limits, s, step), Heard(n, step))
  {
    hide BudgetKept, ModelOk, OneToken;
    match step {
      case TakeMessage(now) => TakeKeepsNews(policy, limits, s, now, n);
      case RunTask(i) => RunTaskKeepsNews(s, i, n);
      case Fork(i, pid) => ForkKeepsNews(policy, limits, s, i, pid, n);
      case FailToFork(i, error) => FailureKeepsNews(policy, limits, s, i, error, n);
      case ChildEnds(pid, code) => EndKeepsNews(policy, limits, s, pid, code, n);
      case LoseChild(i) =>
      case Notify(_) =>
    }
  }

  lemma ForkKeepsNews(policy: RestartPolicy, limits: RestartLimits, s: World, i: nat, pid: nat, n: News)
    requires OneToken(s) && Enabled(s, Fork(i, pid)) && NewsIsTrue(s, n)
    ensures NewsIsTrue(Next(policy, limits, s, Fork(i, pid)), Heard(n, Fork(i, pid)))
  {
    assert |s.tasks| == 1;
    ForkerHearsNothing(s);
    hide OneToken;
  }

  lemma FailureKeepsNews(policy: RestartPolicy, limits: RestartLimits, s: World, i: nat, error: string, n: News)
    requires OneToken(s) && Enabled(s, FailToFork(i, error)) && NewsIsTrue(s, n)
    ensures NewsIsTrue(Next(policy, limits, s, FailToFork(i, error)), Heard(n, FailToFork(i, error)))
  {
    assert |s.tasks| == 1;
    ForkerHearsNothing(s);
    hide OneToken;
  }

  lemma EndKeepsNews(policy: RestartPolicy, limits: RestartLimits, s: World, pid: nat, code: int, n: News)
    requires OneToken(s) && Enabled(s, ChildEnds(pid, code)) && NewsIsTrue(s, n)
    ensures NewsIsTrue(Next(policy, limits, s, ChildEnds(pid, code)), Heard(n, ChildEnds(pid, code)))
  {
    RunningChildHasNotExited(s, pid);
    assert s.os[pid := Some(code)].Keys == {pid};
    hide OneToken;
  }

  /** After the first n steps of the run, what is said of the child is true. */
  ghost predicate TrueAt(policy: RestartPolicy, limits: RestartLimits, run: seq<Step>, n: nat)
    requires n <= |run|
  {
    && Possible(policy, limits, Init(), run[..n])
    && Inv(policy, limits, After(policy, limits, Init(), run[..n]))
    && NewsIsTrue(After(policy, limits, Init(), run[..n]), NewsOf(run[..n]))
  }

  lemma TrueAtNext(policy: RestartPolicy, limits: RestartLimits, run: seq<Step>, n: nat)
    requires Possible(policy, limits, Init(), run) && n < |run| && TrueAt(policy, limits, run, n)
    ensures TrueAt(policy, limits, run, n + 1)
  {
    hide Inv, NewsIsTrue, NewsOf, Heard, Next, Enabled;
    RunOneMore(policy, limits, Init(), run, n);
    var s := After(policy, limits, Init(), run[..n]);
    StepKeepsInv(policy, limits, s, run[n]);
    StepKeepsNews(policy, limits, s, run[n], NewsOf(run[..n]));
    NewsOneMore(run[..n], run[n]);
    assert run[..n + 1] == run[..n] + [run[n]];
    hide Possible, After;
  }

  lemma NothingSaid(policy: RestartPolicy, limits: RestartLimits)
    ensures Inv(policy, limits, Init()) && NewsIsTrue(Init(), NewsOf([]))
  {
  }

  lemma {:induction false} RunKeepsNews(policy: RestartPolicy, limits: RestartLimits, run: seq<Step>, n: nat)
    requires Possible(policy, limits, Init(), run) && n <= |run|
    ensures TrueAt(policy, limits, run, n)
    decreases n
  {
    if n == 0 {
      assert run[..0] == [];
      NothingSaid(policy, limits);
      hide Inv, NewsIsTrue, NewsOf, Init;
    } else {
      RunKeepsNews(policy, limits, run, n - 1);
      TrueAtNext(policy, limits, run, n - 1);
      hide TrueAt;
    }
  }

  /** In every reachable state, what waits to be handled is true: a child said to be
      spawned is the last one forked; one said to have exited is the last one forked and
      the last to end, with the very code it ended with; and a failed spawn has the error
      of the last one that failed. The child the actor holds, and would signal, is the
      last one forked too. */
  lemma NewsIsTrueInEveryRun(policy: RestartPolicy, limits: RestartLimits, run: seq<Step>)
    requires Possible(policy, limits, Init(), run)
    ensures var s := After(policy, limits, Init(), run);
      && (forall pid: nat :: ChildSpawned(pid) in s.mailbox ==> LastForked(run) == Some(pid))
      && (forall pid: nat, code :: ChildExited(pid, code) in s.mailbox ==>
            LastForked(run) == Some(pid) && LastEnded(run) == Some((pid, code)))
      && (forall error :: ChildSpawnFailed(error) in s.mailbox ==> LastFailure(run) == Some(error))
      && (s.model.childPid.Some? ==> s.model.childPid == LastForked(run))
      && (s.watch.Some? ==> s.watch == LastForked(run))
  {
    RunKeepsNews(policy, limits, run, |run|);
    assert run[..|run|] == run;
    hide Inv, LastForked, LastEnded, LastFailure;
  }

  /** Every backoff, and the restart it ends with, is under the number of the last grant. */
  ghost predicate NumbersAreTrue(s: World) {
    && (forall k :: 0 <= k < |s.tasks| && s.tasks[k].Sleeping? ==> IsLastGrant(s.budget, s.tasks[k].attempt))
    && (forall k :: 0 <= k < |s.mailbox| && s.mailbox[k].RestartChild? ==> IsLastGrant(s.budget, s.mailbox[k].attempt))
  }

  predicate IsLastGrant(b: Budget, attempt: nat) {
    b.granted != [] && b.granted[|b.granted| - 1].1 == attempt
  }

  lemma TakeKeepsNumbers(policy: RestartPolicy, limits: RestartLimits, s: World, now: u64)
    requires Inv(policy, limits, s) && s.mailbox != [] && NumbersAreTrue(s)
    ensures NumbersAreTrue(Take(policy, limits, s, now))
  {
    if s.mailbox[0].ChildExited? {
      ExitNoticeIsCurrent(s);
      TakeExitKeepsBudget(policy, limits, s, now);
      hide Handle, OnExit, Inv, OneToken, BudgetKept;
      forall k | 0 <= k < |s.mailbox[1..]|
        ensures !s.mailbox[1..][k].RestartChild?
      {
        TrailHolds(s.mailbox[1..], s.mailbox[1..][k]);
      }
    } else {
      OnlyExitsBackOff(policy, limits, s.model, s.mailbox[0], now);
      hide Handle, Inv;
    }
  }

  lemma OnlyExitsBackOff(policy: RestartPolicy, limits: RestartLimits, m: Model, message: Message, now: u64)
    requires !message.ChildExited?
    ensures var todo := Handle(policy, limits, m, message, now).todo;
      forall k :: 0 <= k < |Started(todo)| ==> !Started(todo)[k].Sleeping?
  {
  }

  lemma RunTaskKeepsNumbers(s: World, i: nat)
    requires Enabled(s, RunTask(i)) && NumbersAreTrue(s)
    ensures NumbersAreTrue(RunOne(s, i))
  {
  }

  lemma StepKeepsNumbers(policy: RestartPolicy, limits: RestartLimits, s: World, step: Step)
    requires Inv(policy, limits, s) && Enabled(s, step) && NumbersAreTrue(s)
    ensures NumbersAreTrue(Next(policy, limits, s, step))
  {
    if step.TakeMessage? {
      TakeKeepsNumbers(policy, limits, s, step.now);
    } else if step.RunTask? {
      RunTaskKeepsNumbers(s, step.i);
    }
    hide Inv, Take, RunOne;
  }

  /** In every reachable state, a restart that waits to be handled, and a backoff that
      will send one, carries the number of the last restart granted. */
  lemma {:induction false} RestartsCarryTheirNumber(policy: RestartPolicy, limits: RestartLimits, s: World,
                                                   run: seq<Step>)
    requires Inv(policy, limits, s) && NumbersAreTrue(s) && Possible(policy, limits, s, run)
    ensures NumbersAreTrue(After(policy, limits, s, run))
    decreases |run|
  {
    if run != [] {
      hide Inv, NumbersAreTrue, Next, Enabled;
      StepKeepsInv(policy, limits, s, run[0]);
      StepKeepsNumbers(policy, limits, s, run[0]);
      RestartsCarryTheirNumber(policy, limits, Next(policy, limits, s, run[0]), run[1..]);
    }
  }

  // ---------------------------------------------------------------------
  // And is acted on
  // ---------------------------------------------------------------------

  /** In every reachable state, what the actor does with the message it handles next.
      A stop asked for while it holds a child terminates that very child, and reads as
      stopping; asked for without one it changes nothing but what comes next. News of a
      spawn is taken as it is. */
  lemma MessagesAreActedOn(policy: RestartPolicy, limits: RestartLimits, run: seq<Step>, now: u64)
    requires Possible(policy, limits, Init(), run) && After(policy, limits, Init(), run).mailbox != []
    ensures var s := After(policy, limits, Init(), run);
      var m, child, h := s.mailbox[0], s.model.childPid, Handle(policy, limits, s.model, s.mailbox[0], now);
      && (m.StopPrimitive? && child.Some? ==>
            && h.todo == Terminate(child.value)
            && h.model == Model(Status(Stopping, child, None), child, s.model.attempts, true))
      && (m.StopPrimitive? && child.None? ==> h == Handled(s.model.(shuttingDown := true), Done))
      && (m.EngineShuttingDown? ==> h == Handled(s.model.(shuttingDown := true), Done))
      && (m.ChildSpawning? ==> h == Handled(s.model.(status := Status(Starting, None, None), childPid := None), Done))
      && (m.ChildSpawned? ==>
            h == Handled(s.model.(status := Status(Running, Some(m.pid), None), childPid := Some(m.pid)), Done))
      && (m.ChildSpawnFailed? ==>
            h == Handled(s.model.(status := Status(Failed, None, Some(NotSpawned(m.error))), childPid := None), Done))
      && (m.RestartChild? ==>
            h == Handled(s.model, if s.model.shuttingDown then Done else SpawnChild(m.attempt)))
  {
    RunKeepsInv(policy, limits, Init(), run);
    StaleGuardsNeverFire(policy, limits, run);
    var s := After(policy, limits, Init(), run);
    hide Possible, After, HandleExit, OneToken, BudgetKept;
  }

  /** What a handled exit leaves, by its code: a backoff under way where a restart is
      granted, the spent budget where one was wanted and the window is full, and else a
      primitive that stopped, after code 0 or 143, or failed with its code. */
  ghost predicate ExitIsActedOn(policy: RestartPolicy, limits: RestartLimits, m: Model, code: int, now: u64,
                                h: Handled)
  {
    var used := |Recent(m.attempts, now, limits.windowMs)|;
    && h.model.childPid == None && h.model.shuttingDown == m.shuttingDown
    && if !m.shuttingDown && Wants(policy, code) then
         if used < limits.maxRetries then
           && h.todo == BackOff(Min(limits.backoffMs * Pow2(Min(used, 62)), limits.maxBackoffMs), used + 1)
           && h.model.status == Status(Starting, None, None)
           && |h.model.attempts| == used + 1 && h.model.attempts[used] == now
         else
           && h.todo == Done
           && h.model.status == Status(Failed, None, Some(OutOfRestarts(Min(used, U32_MAX), limits.windowMs)))
           && |h.model.attempts| == used
       else
         && h.todo == Done && |h.model.attempts| == used
         && h.model.status == (if code == 0 || code == 143 then Status(Stopped, None, None)
                               else Status(Failed, None, Some(BadExit(code))))
  }

  lemma HandledExit(policy: RestartPolicy, limits: RestartLimits, m: Model, pid: nat, code: int, now: u64)
    requires ModelOk(m) && m.childPid == Some(pid)
    ensures ExitIsActedOn(policy, limits, m, code, now, HandleExit(policy, limits, m, pid, code, now))
  {
    var kept := PruneAttempts(m.attempts, now, limits.windowMs);
    LaterIsIdempotent(m.attempts, SaturatingSub(now, limits.windowMs));
    assert PruneAttempts(kept, now, limits.windowMs) == kept;
    PruneCounts(m.attempts, now, limits.windowMs);
    PruneCounts(kept, now, limits.windowMs);
    DecisionIsExact(policy, code, kept, limits, now, m.shuttingDown);
    hide PruneAttempts, DecideRestart, Recent, Pow2;
  }

  /** In every reachable state, an exit the actor handles is that of the child it holds,
      with the code that child ended with, and is acted on as that code says. */
  lemma ExitsAreActedOn(policy: RestartPolicy, limits: RestartLimits, run: seq<Step>, now: u64)
    requires Possible(policy, limits, Init(), run) && After(policy, limits, Init(), run).mailbox != []
    requires After(policy, limits, Init(), run).mailbox[0].ChildExited?
    ensures var s := After(policy, limits, Init(), run);
      var m := s.mailbox[0];
      && s.model.childPid == Some(m.pid) && LastForked(run) == Some(m.pid) && LastEnded(run) == Some((m.pid, m.code))
      && ExitIsActedOn(policy, limits, s.model, m.code, now, Handle(policy, limits, s.model, m, now))
  {
    RunKeepsInv(policy, limits, Init(), run);
    StaleGuardsNeverFire(policy, limits, run);
    NewsIsTrueInEveryRun(policy, limits, run);
    var s := After(policy, limits, Init(), run);
    hide Possible, After, OneToken, BudgetKept, LastForked, LastEnded, ExitIsActedOn, HandleExit;
    assert s.mailbox[0] in s.mailbox;
    HandledExit(policy, limits, s.model, s.mailbox[0].pid, s.mailbox[0].code, now);
  }
}
