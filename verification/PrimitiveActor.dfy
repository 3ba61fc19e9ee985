/** Supervision of one primitive: its actor's handlers, the tasks those handlers
    start, the operating-system child, and every interleaving of them.

    A handler body and a task run on their own; a task step is what a task does
    between two points where something else can run. The actor takes its messages
    first in, first out. */
module PrimitiveActor {
  import opened Options
  import opened RestartClock
  import opened Supervision

  // ---------------------------------------------------------------------
  // The live status
  // ---------------------------------------------------------------------

  datatype PrimitiveState = Configured | Starting | Running | Stopping | Stopped | Failed

  /** Why a primitive failed: a spawn error, an exit code, or a spent budget. */
  datatype Reason = NotSpawned(error: string) | BadExit(code: int) | OutOfRestarts(attempts: nat, windowMs: nat)

  datatype Status = Status(state: PrimitiveState, pid: Option<nat>, error: Option<Reason>)

  datatype LifecycleEvent =
    | SpawnRequested
    | Spawned(pid: nat)
    | SpawnFailed(error: string)
    | RestartsExhausted(attempts: nat, windowMs: nat)
    | StopRequested
    | Exited(pid: nat, code: int)

  function NextStatus(current: Status, event: LifecycleEvent): Status {
    match event
    case SpawnRequested => Status(Starting, None, None)
    case Spawned(pid) => Status(Running, Some(pid), None)
    case SpawnFailed(error) => Status(Failed, None, Some(NotSpawned(error)))
    case RestartsExhausted(attempts, windowMs) => Status(Failed, None, Some(OutOfRestarts(attempts, windowMs)))
    case StopRequested => if current.pid.None? then current else Status(Stopping, current.pid, current.error)
    case Exited(pid, code) =>
      if current.pid != Some(pid) then current
      else if OutcomeFromExitCode(code) == Clean then Status(Stopped, None, None)
      else Status(Failed, None, Some(BadExit(code)))
  }

  /** A pid exactly while a child runs or is being stopped, an error exactly when
      the primitive failed. */
  predicate Consistent(s: Status) {
    (s.pid.Some? <==> s.state in {Running, Stopping}) && (s.error.Some? <==> s.state == Failed)
  }

  lemma NextStatusIsConsistent(s: Status, event: LifecycleEvent)
    requires Consistent(s)
    ensures Consistent(NextStatus(s, event))
  {
  }

  // ---------------------------------------------------------------------
  // The actor
  // ---------------------------------------------------------------------

  datatype Message =
    | ChildSpawning
    | ChildSpawned(pid: nat)
    | ChildSpawnFailed(error: string)
    | ChildExited(pid: nat, code: int)
    | RestartChild(attempt: nat)
    | EngineShuttingDown
    | StopPrimitive

  datatype Model = Model(status: Status, childPid: Option<nat>, attempts: seq<u64>, shuttingDown: bool)

  /** What a handler leaves running, or signals, when it returns. */
  datatype Todo = Done | SpawnChild(attempt: nat) | BackOff(delay: nat, attempt: nat) | Terminate(pid: nat)

  datatype Handled = Handled(model: Model, todo: Todo)

  function Applied(m: Model, event: LifecycleEvent): Model {
    var next := NextStatus(m.status, event);
    m.(status := next, childPid := next.pid)
  }

  function HandleExit(policy: RestartPolicy, limits: RestartLimits, m: Model, pid: nat, code: int, now: u64): Handled {
    if m.childPid != Some(pid) then Handled(m, Done)
    else
      var exited := Applied(m, Exited(pid, code));
      var kept := PruneAttempts(m.attempts, now, limits.windowMs);
      match DecideRestart(policy, OutcomeFromExitCode(code), kept, limits, now, m.shuttingDown)
      case Restart(delay, attempt) =>
        Handled(Applied(exited.(attempts := kept + [now]), SpawnRequested), BackOff(delay, attempt))
      case Exhausted(attempts, windowMs) =>
        Handled(Applied(exited.(attempts := kept), RestartsExhausted(attempts, windowMs)), Done)
      case _ => Handled(exited.(attempts := kept), Done)
  }

  function HandleRestart(m: Model, attempt: nat): Handled {
    if m.shuttingDown || m.childPid.Some? then Handled(m, Done) else Handled(m, SpawnChild(attempt))
  }

  function HandleStop(m: Model): Handled {
    Handled(Applied(m.(shuttingDown := true), StopRequested),
            if m.childPid.Some? then Terminate(m.childPid.value) else Done)
  }

  function Handle(policy: RestartPolicy, limits: RestartLimits, m: Model, message: Message, now: u64): Handled {
    match message
    case ChildSpawning => Handled(Applied(m, SpawnRequested), Done)
    case ChildSpawned(pid) => Handled(Applied(m, Spawned(pid)), Done)
    case ChildSpawnFailed(error) => Handled(Applied(m, SpawnFailed(error)), Done)
    case ChildExited(pid, code) => HandleExit(policy, limits, m, pid, code, now)
    case RestartChild(attempt) => HandleRestart(m, attempt)
    case EngineShuttingDown => Handled(m.(shuttingDown := true), Done)
    case StopPrimitive => HandleStop(m)
  }

  /** The actor's mutable state and its message handlers. `published` is the
      status last written to the topology's watch channel. */
  class Actor {
    var status: Status
    var childPid: Option<nat>
    var restartAttempts: seq<u64>
    var shuttingDown: bool
    var published: Status

    ghost function State(): Model
      reads this
    {
      Model(status, childPid, restartAttempts, shuttingDown)
    }

    constructor ()
      ensures State() == Model(Status(Configured, None, None), None, [], false) && published == status
    {
      status := Status(Configured, None, None);
      published := Status(Configured, None, None);
      childPid, restartAttempts, shuttingDown := None, [], false;
    }

    method Apply(event: LifecycleEvent)
      modifies this
      ensures State() == Applied(old(State()), event) && published == status
    {
      var next := NextStatus(status, event);
      status := next;
      childPid := next.pid;
      published := next;
    }

    method OnChildExited(policy: RestartPolicy, limits: RestartLimits, pid: nat, code: int, now: u64)
      returns (todo: Todo)
      requires published == status
      modifies this
      ensures Handled(State(), todo) == HandleExit(policy, limits, old(State()), pid, code, now)
      ensures published == status
    {
      if childPid != Some(pid) {
        return Done;
      }
      Apply(Exited(pid, code));
      restartAttempts := PruneAttempts(restartAttempts, now, limits.windowMs);
      var decision := DecideRestart(policy, OutcomeFromExitCode(code), restartAttempts, limits, now, shuttingDown);
      match decision {
        case NoRestart => return Done;
        case SuppressedByShutdown => return Done;
        case Restart(delay, attempt) =>
          restartAttempts := restartAttempts + [now];
          Apply(SpawnRequested);
          return BackOff(delay, attempt);
        case Exhausted(attempts, windowMs) =>
          Apply(RestartsExhausted(attempts, windowMs));
          return Done;
      }
    }

    method OnRestartChild(attempt: nat) returns (todo: Todo)
      ensures Handled(State(), todo) == HandleRestart(State(), attempt)
    {
      if shuttingDown || childPid.Some? {
        return Done;
      }
      return SpawnChild(attempt);
    }

    method OnStopPrimitive() returns (todo: Todo)
      modifies this
      ensures Handled(State(), todo) == HandleStop(old(State()))
      ensures published == status
    {
      shuttingDown := true;
      var child := childPid;
      Apply(StopRequested);
      todo := if child.Some? then Terminate(child.value) else Done;
    }

    /** Every message leaves the published status equal to the actor's own. */
    method Receive(policy: RestartPolicy, limits: RestartLimits, message: Message, now: u64) returns (todo: Todo)
      requires published == status
      modifies this
      ensures Handled(State(), todo) == Handle(policy, limits, old(State()), message, now)
      ensures published == status
    {
      todo := Done;
      match message {
        case ChildSpawning => Apply(SpawnRequested);
        case ChildSpawned(pid) => Apply(Spawned(pid));
        case ChildSpawnFailed(error) => Apply(SpawnFailed(error));
        case ChildExited(pid, code) => todo := OnChildExited(policy, limits, pid, code, now);
        case RestartChild(attempt) => todo := OnRestartChild(attempt);
        case EngineShuttingDown => shuttingDown := true;
        case StopPrimitive => todo := OnStopPrimitive();
      }
    }
  }

  // ---------------------------------------------------------------------
  // The tasks, the child and the mailbox
  // ---------------------------------------------------------------------

  /** Where a spawn_primitive_child task, the monitor it starts, or a backoff is. */
  datatype Task =
    | Announcing                      // ChildSpawning not yet sent
    | Forking                         // about to call spawn
    | NotForked(error: string)        // spawn failed, ChildSpawnFailed not yet sent
    | Unwatched(pid: nat)             // child runs, pid watch not yet set
    | Unreported(pid: nat)            // ChildSpawned not yet sent
    | Monitoring(pid: nat)            // waits for the child
    | Reaped(pid: nat, code: int)     // wait returned, pid watch not yet cleared
    | Cleared(pid: nat, code: int)    // ChildExited not yet sent
    | Sleeping(attempt: nat)          // backoff before RestartChild

  /** `os` maps this primitive's unreaped children to their exit code, if they
      have exited; `lost` says a wait failed and its child is no longer monitored.
      The last three fields are history: children ever forked, the restart budget
      and the exits it came from. */
  datatype World = World(
    model: Model, mailbox: seq<Message>, tasks: seq<Task>, watch: Option<nat>,
    os: map<nat, Option<int>>, lost: bool,
    forks: nat, budget: Budget, exits: seq<Exit>)

  datatype Step =
    | Notify(notice: Message)               // the process manager sends a shutdown notice
    | TakeMessage(now: u64)                 // the actor handles its oldest message
    | RunTask(i: nat)                       // a task's only possible next step
    | Fork(i: nat, pid: nat)
    | FailToFork(i: nat, error: string)
    | LoseChild(i: nat)                     // wait fails
    | ChildEnds(pid: nat, code: int)

  predicate IsNotice(m: Message) { m.EngineShuttingDown? || m.StopPrimitive? }

  function Init(): World {
    World(Model(Status(Configured, None, None), None, [], false), [], [Announcing], None, map[], false,
          0, Budget([], []), [])
  }

  predicate Enabled(s: World, step: Step) {
    match step
    case Notify(notice) => IsNotice(notice)
    case TakeMessage(_) => s.mailbox != []
    case RunTask(i) =>
      && i < |s.tasks|
      && !s.tasks[i].Forking?
      && (s.tasks[i].Monitoring? ==> s.tasks[i].pid in s.os && s.os[s.tasks[i].pid].Some?)
    case Fork(i, pid) => i < |s.tasks| && s.tasks[i].Forking? && pid !in s.os
    case FailToFork(i, _) => i < |s.tasks| && s.tasks[i].Forking?
    case LoseChild(i) => i < |s.tasks| && s.tasks[i].Monitoring?
    case ChildEnds(pid, _) => pid in s.os && s.os[pid].None?
  }

  function Without<T>(q: seq<T>, i: nat): seq<T>
    requires i < |q|
  {
    q[..i] + q[i + 1..]
  }

  function Sent(s: World, m: Message): World { s.(mailbox := s.mailbox + [m]) }

  function Finished(s: World, i: nat): World
    requires i < |s.tasks|
  {
    s.(tasks := Without(s.tasks, i))
  }

  function RunOne(s: World, i: nat): World
    requires Enabled(s, RunTask(i))
  {
    match s.tasks[i]
    case Announcing => Sent(s.(tasks := s.tasks[i := Forking]), ChildSpawning)
    case NotForked(error) => Sent(Finished(s, i), ChildSpawnFailed(error))
    case Unwatched(pid) => s.(tasks := s.tasks[i := Unreported(pid)], watch := Some(pid))
    case Unreported(pid) => Sent(s.(tasks := s.tasks[i := Monitoring(pid)]), ChildSpawned(pid))
    case Monitoring(pid) => s.(tasks := s.tasks[i := Reaped(pid, s.os[pid].value)], os := s.os - {pid})
    case Reaped(pid, code) => s.(tasks := s.tasks[i := Cleared(pid, code)], watch := None)
    case Cleared(pid, code) => Sent(Finished(s, i), ChildExited(pid, code))
    case Sleeping(attempt) => Sent(Finished(s, i), RestartChild(attempt))
  }

  function Started(todo: Todo): seq<Task> {
    match todo
    case SpawnChild(_) => [Announcing]
    case BackOff(_, attempt) => [Sleeping(attempt)]
    case _ => []
  }

  /** The actor's model, mailbox and tasks after it handles its oldest message,
      with the budget history of an exit it acted on. */
  function Take(policy: RestartPolicy, limits: RestartLimits, s: World, now: u64): World
    requires s.mailbox != []
  {
    var m := s.mailbox[0];
    var h := Handle(policy, limits, s.model, m, now);
    var next := s.(model := h.model, mailbox := s.mailbox[1..], tasks := s.tasks + Started(h.todo));
    if m.ChildExited? && s.model.childPid == Some(m.pid) then
      var x := Exit(now, m.code, s.model.shuttingDown);
      next.(budget := OnExit(policy, limits, s.budget, x), exits := s.exits + [x])
    else next
  }

  function Next(policy: RestartPolicy, limits: RestartLimits, s: World, step: Step): World
    requires Enabled(s, step)
  {
    match step
    case Notify(notice) => Sent(s, notice)
    case TakeMessage(now) => Take(policy, limits, s, now)
    case RunTask(i) => RunOne(s, i)
    case Fork(i, pid) => s.(tasks := s.tasks[i := Unwatched(pid)], os := s.os[pid := None], forks := s.forks + 1)
    case FailToFork(i, error) => s.(tasks := s.tasks[i := NotForked(error)], watch := None)
    case LoseChild(i) => Finished(s, i).(watch := None, lost := true)
    case ChildEnds(pid, code) => s.(os := s.os[pid := Some(code)])
  }

  /** The steps can be taken one after the other from s. */
  ghost predicate Possible(policy: RestartPolicy, limits: RestartLimits, s: World, run: seq<Step>)
    decreases |run|
  {
    run == [] || (Enabled(s, run[0]) && Possible(policy, limits, Next(policy, limits, s, run[0]), run[1..]))
  }

  ghost function After(policy: RestartPolicy, limits: RestartLimits, s: World, run: seq<Step>): World
    requires Possible(policy, limits, s, run)
    decreases |run|
  {
    if run == [] then s else After(policy, limits, Next(policy, limits, s, run[0]), run[1..])
  }

  // ---------------------------------------------------------------------
  // The invariant: one token
  // ---------------------------------------------------------------------

  /** The messages in the mailbox that are about the child, in order. */
  ghost function Trail(mailbox: seq<Message>): (r: seq<Message>)
    ensures |r| <= |mailbox|
  {
    if mailbox == [] then []
    else (if IsNotice(mailbox[0]) then [] else [mailbox[0]]) + Trail(mailbox[1..])
  }

  /** The actor has not heard of a child, and has heard of the attempt or will. */
  ghost predicate NotHeard(trail: seq<Message>, m: Model) {
    && m.childPid == None
    && ((|trail| == 0 && m.status.state == Starting) || (|trail| == 1 && trail[0] == ChildSpawning))
  }

  /** What the actor knows, plus what it is about to hear, is: pid is the child. */
  ghost predicate Hears(trail: seq<Message>, child: Option<nat>, pid: nat) {
    match |trail|
    case 0 => child == Some(pid)
    case 1 => child == None && trail[0] == ChildSpawned(pid)
    case 2 => child == None && trail[0] == ChildSpawning && trail[1] == ChildSpawned(pid)
    case _ => false
  }

  /** The same, and then that it exited. */
  ghost predicate HearsExit(trail: seq<Message>, child: Option<nat>) {
    match |trail|
    case 1 => trail[0].ChildExited? && child == Some(trail[0].pid)
    case 2 => child == None && trail[1].ChildExited? && trail[0] == ChildSpawned(trail[1].pid)
    case 3 =>
      && child == None && trail[0] == ChildSpawning
      && trail[2].ChildExited? && trail[1] == ChildSpawned(trail[2].pid)
    case _ => false
  }

  ghost predicate HearsRestart(trail: seq<Message>, m: Model) {
    |trail| == 1 && trail[0].RestartChild? && m.childPid == None && m.status.state == Starting
  }

  /** Nothing more will happen to the child: a failed spawn is still to be heard
      of, or the actor has settled. */
  ghost predicate Down(trail: seq<Message>, m: Model) {
    && m.childPid == None
    && match |trail|
       case 0 => m.status.state in {Stopped, Failed} || (m.shuttingDown && m.status.state == Starting)
       case 1 => trail[0].ChildSpawnFailed?
       case 2 => trail[0] == ChildSpawning && trail[1].ChildSpawnFailed?
       case _ => false
  }

  /** A task holds the token; `os` and `watch` are as it left them. */
  ghost predicate TaskHolds(task: Task, os: map<nat, Option<int>>, watch: Option<nat>) {
    match task
    case Unwatched(pid) => os.Keys == {pid} && watch == None
    case Unreported(pid) => os.Keys == {pid} && watch == Some(pid)
    case Monitoring(pid) => os.Keys == {pid} && watch == Some(pid)
    case Reaped(pid, _) => os == map[] && watch == Some(pid)
    case _ => os == map[] && watch == None
  }

  ghost predicate TaskHeard(task: Task, m: Model, trail: seq<Message>) {
    match task
    case Announcing => m.childPid == None && |trail| == 0
    case Sleeping(_) => m.childPid == None && |trail| == 0 && m.status.state == Starting
    case Monitoring(pid) => Hears(trail, m.childPid, pid)
    case Reaped(pid, _) => Hears(trail, m.childPid, pid)
    case Cleared(pid, _) => Hears(trail, m.childPid, pid)
    case _ => NotHeard(trail, m)
  }

  /** With no task, the mailbox holds it, or the child is down for good. */
  ghost predicate MailboxHolds(trail: seq<Message>, m: Model) {
    HearsExit(trail, m.childPid) || HearsRestart(trail, m) || Down(trail, m)
  }

  /** A wait failed: one child is left, unmonitored. */
  ghost predicate LostOne(trail: seq<Message>, m: Model, os: map<nat, Option<int>>) {
    |os| == 1 && forall pid :: pid in os ==> Hears(trail, m.childPid, pid)
  }

  ghost predicate Token(m: Model, trail: seq<Message>, tasks: seq<Task>, watch: Option<nat>,
                        os: map<nat, Option<int>>, lost: bool) {
    if |tasks| == 0 then
      && watch == None
      && (if lost then LostOne(trail, m, os) else os == map[] && MailboxHolds(trail, m))
    else |tasks| == 1 && !lost && TaskHolds(tasks[0], os, watch) && TaskHeard(tasks[0], m, trail)
  }

  ghost predicate OneToken(s: World) {
    Token(s.model, Trail(s.mailbox), s.tasks, s.watch, s.os, s.lost)
  }

  /** Whether a spawn is still to be forked for a grant already made. */
  ghost function Owed(s: World): nat {
    if |s.tasks| > 0 then (if s.tasks[0].Announcing? || s.tasks[0].Forking? || s.tasks[0].Sleeping? then 1 else 0)
    else if |Trail(s.mailbox)| > 0 && Trail(s.mailbox)[0].RestartChild? then 1
    else 0
  }

  ghost predicate ModelOk(m: Model) {
    Consistent(m.status) && m.childPid == m.status.pid && (m.status.state == Stopping ==> m.shuttingDown)
  }

  ghost predicate BudgetKept(policy: RestartPolicy, limits: RestartLimits, s: World) {
    && s.model.attempts == s.budget.attempts
    && s.budget == OnExits(policy, limits, Budget([], []), s.exits)
    && s.forks + Owed(s) <= 1 + |s.budget.granted|
  }

  ghost predicate Inv(policy: RestartPolicy, limits: RestartLimits, s: World) {
    ModelOk(s.model) && OneToken(s) && BudgetKept(policy, limits, s)
  }

  // ---------------------------------------------------------------------
  // Every step keeps it
  // ---------------------------------------------------------------------

  lemma {:induction false} TrailOfSent(mailbox: seq<Message>, m: Message)
    ensures Trail(mailbox + [m]) == Trail(mailbox) + (if IsNotice(m) then [] else [m])
  {
    if mailbox != [] {
      assert (mailbox + [m])[1..] == mailbox[1..] + [m];
      TrailOfSent(mailbox[1..], m);
      assert Trail(mailbox[1..]) + [] == Trail(mailbox[1..]);
    }
  }

  lemma RunOneKeepsToken(s: World, i: nat)
    requires Enabled(s, RunTask(i)) && OneToken(s)
    ensures OneToken(RunOne(s, i)) && Owed(RunOne(s, i)) <= Owed(s)
  {
    var task := s.tasks[0];
    assert i == 0;
    if task.Announcing? || task.Unreported? {
      TrailOfSent(s.mailbox, if task.Announcing? then ChildSpawning else ChildSpawned(task.pid));
    } else if task.NotForked? || task.Cleared? || task.Sleeping? {
      LastSendKeepsToken(s);
    }
  }

  /** The message a task ends with. */
  function LastWord(task: Task): Message
    requires task.NotForked? || task.Cleared? || task.Sleeping?
  {
    match task
    case NotForked(error) => ChildSpawnFailed(error)
    case Cleared(pid, code) => ChildExited(pid, code)
    case Sleeping(attempt) => RestartChild(attempt)
  }

  lemma LastWordIsHeard(task: Task, m: Model, trail: seq<Message>)
    requires (task.NotForked? || task.Cleared? || task.Sleeping?) && TaskHeard(task, m, trail)
    ensures MailboxHolds(trail + [LastWord(task)], m)
    ensures (trail + [LastWord(task)])[0].RestartChild? <==> task.Sleeping?
  {
    var more := trail + [LastWord(task)];
    if task.NotForked? {
      assert Down(more, m);
    } else if task.Cleared? {
      assert HearsExit(more, m.childPid);
    } else {
      assert HearsRestart(more, m);
    }
  }

  lemma EndsWithLastWord(s: World)
    requires |s.tasks| == 1 && (s.tasks[0].NotForked? || s.tasks[0].Cleared? || s.tasks[0].Sleeping?)
    ensures RunOne(s, 0) == s.(tasks := [], mailbox := s.mailbox + [LastWord(s.tasks[0])])
  {
    assert Without(s.tasks, 0) == [];
  }

  /** A task's last send hands the token to the mailbox. */
  lemma LastSendKeepsToken(s: World)
    requires |s.tasks| == 1 && (s.tasks[0].NotForked? || s.tasks[0].Cleared? || s.tasks[0].Sleeping?)
    requires OneToken(s)
    ensures OneToken(RunOne(s, 0)) && Owed(RunOne(s, 0)) <= Owed(s)
  {
    hide Trail, MailboxHolds, TaskHeard, RunOne, LastWord;
    var trail, m := Trail(s.mailbox), LastWord(s.tasks[0]);
    LastWordIsHeard(s.tasks[0], s.model, trail);
    EndsWithLastWord(s);
    assert !IsNotice(m) by {
      LastWordIsNoNotice(s.tasks[0]);
    }
    TrailOfSent(s.mailbox, m);
  }

  lemma LastWordIsNoNotice(task: Task)
    requires task.NotForked? || task.Cleared? || task.Sleeping?
    ensures !IsNotice(LastWord(task))
  {
  }

  lemma ChildStepKeepsToken(policy: RestartPolicy, limits: RestartLimits, s: World, step: Step)
    requires Enabled(s, step) && !step.TakeMessage? && !step.RunTask? && !step.Notify?
    requires OneToken(s)
    ensures var t := Next(policy, limits, s, step);
      OneToken(t) && t.forks + Owed(t) <= s.forks + Owed(s)
  {
    match step {
      case ChildEnds(pid, code) => assert s.os[pid := Some(code)].Keys == s.os.Keys;
      case LoseChild(i) => OnlyKey(s.os, s.tasks[i].pid);
      case Fork(i, pid) => assert s.os[pid := None].Keys == {pid};
      case _ =>
    }
  }

  lemma OnlyKey<V>(m: map<nat, V>, k: nat)
    requires m.Keys == {k}
    ensures |m| == 1
  {
    assert |m| == |m.Keys|;
  }

  lemma NotifyKeepsToken(s: World, notice: Message)
    requires IsNotice(notice) && OneToken(s)
    ensures OneToken(Sent(s, notice)) && Owed(Sent(s, notice)) == Owed(s)
  {
    TrailOfSent(s.mailbox, notice);
    assert Trail(s.mailbox) + [] == Trail(s.mailbox);
  }

  /** A notice starts nothing and keeps the child; without one the status stays too. */
  lemma NoticeIsHeeded(policy: RestartPolicy, limits: RestartLimits, m: Model, notice: Message, now: u64)
    requires IsNotice(notice) && ModelOk(m)
    ensures var h := Handle(policy, limits, m, notice, now);
      && ModelOk(h.model) && h.model.shuttingDown && Started(h.todo) == []
      && h.model.childPid == m.childPid && (m.childPid == None ==> h.model.status == m.status)
  {
  }

  lemma TakeNoticeKeepsToken(policy: RestartPolicy, limits: RestartLimits, s: World, now: u64)
    requires s.mailbox != [] && IsNotice(s.mailbox[0]) && ModelOk(s.model) && OneToken(s)
    ensures var t := Take(policy, limits, s, now);
      OneToken(t) && ModelOk(t.model) && Owed(t) == Owed(s) && t.model.shuttingDown
  {
    var t := Take(policy, limits, s, now);
    NoticeIsHeeded(policy, limits, s.model, s.mailbox[0], now);
    hide Handle, ModelOk, Token, OnExit;
    assert Trail(t.mailbox) == Trail(s.mailbox) && t.tasks == s.tasks;
    NoticeKeepsToken(s.model, t.model, Trail(s.mailbox), s.tasks, s.watch, s.os, s.lost);
  }

  lemma NoticeKeepsToken(m: Model, n: Model, trail: seq<Message>, tasks: seq<Task>,
                         watch: Option<nat>, os: map<nat, Option<int>>, lost: bool)
    requires Token(m, trail, tasks, watch, os, lost)
    requires n.childPid == m.childPid && n.shuttingDown
    requires m.childPid == None ==> n.status == m.status
    ensures Token(n, trail, tasks, watch, os, lost)
  {
  }

  lemma TakeSpawnNewsKeepsToken(policy: RestartPolicy, limits: RestartLimits, s: World, now: u64)
    requires s.mailbox != [] && ModelOk(s.model) && OneToken(s)
    requires s.mailbox[0].ChildSpawning? || s.mailbox[0].ChildSpawned? || s.mailbox[0].ChildSpawnFailed?
    ensures var t := Take(policy, limits, s, now);
      OneToken(t) && ModelOk(t.model) && Owed(t) == Owed(s)
  {
    var t := Take(policy, limits, s, now);
    SpawnNewsKeepsToken(s.model, t.model, s.mailbox[0], Trail(t.mailbox), s.tasks, s.watch, s.os, s.lost);
  }

  lemma SpawnNewsKeepsToken(m: Model, n: Model, news: Message, rest: seq<Message>, tasks: seq<Task>,
                            watch: Option<nat>, os: map<nat, Option<int>>, lost: bool)
    requires news.ChildSpawning? || news.ChildSpawned? || news.ChildSpawnFailed?
    requires Token(m, [news] + rest, tasks, watch, os, lost)
    requires n.childPid == (if news.ChildSpawned? then Some(news.pid) else None)
    requires news.ChildSpawning? ==> n.status.state == Starting
    requires news.ChildSpawnFailed? ==> n.status.state == Failed
    ensures Token(n, rest, tasks, watch, os, lost) && !([news] + rest)[0].RestartChild?
    ensures |tasks| == 0 && |rest| > 0 ==> !rest[0].RestartChild?
  {
    var trail := [news] + rest;
    assert forall k :: 0 <= k < |rest| ==> rest[k] == trail[k + 1];
    if |tasks| == 0 && !lost {
      if HearsExit(trail, m.childPid) {
        assert HearsExit(rest, n.childPid);
      } else {
        assert Down(rest, n);
      }
    }
  }

  /** The guard against a stale exit notice never fires: the child it names is the
      one the actor holds. */
  lemma ExitNoticeIsCurrent(s: World)
    requires OneToken(s) && s.mailbox != [] && s.mailbox[0].ChildExited?
    ensures s.model.childPid == Some(s.mailbox[0].pid)
    ensures s.tasks == [] && !s.lost && s.os == map[] && s.watch == None && Trail(s.mailbox[1..]) == []
  {
    assert Trail(s.mailbox)[0] == s.mailbox[0];
  }

  /** Neither does the guard against restarting a child that is already back. */
  lemma RestartFindsNoChild(s: World)
    requires OneToken(s) && s.mailbox != [] && s.mailbox[0].RestartChild?
    ensures s.model.childPid == None && s.model.status.state == Starting
    ensures s.tasks == [] && !s.lost && s.os == map[] && s.watch == None && Trail(s.mailbox[1..]) == []
  {
    assert Trail(s.mailbox)[0] == s.mailbox[0];
  }

  /** A handled exit leaves no child: the primitive is stopped or failed, or
      starting with a backoff under way. */
  lemma ExitLands(policy: RestartPolicy, limits: RestartLimits, m: Model, pid: nat, code: int, now: u64)
    requires ModelOk(m) && m.childPid == Some(pid)
    ensures var h := HandleExit(policy, limits, m, pid, code, now);
      && ModelOk(h.model) && h.model.childPid == None
      && (if h.todo.BackOff? then h.model.status.state == Starting
          else h.todo == Done && h.model.status.state in {Stopped, Failed})
  {
    hide DecideRestart, PruneAttempts, OutcomeFromExitCode;
  }

  lemma TakeExitKeepsToken(policy: RestartPolicy, limits: RestartLimits, s: World, now: u64)
    requires s.mailbox != [] && s.mailbox[0].ChildExited? && ModelOk(s.model) && OneToken(s)
    ensures var t := Take(policy, limits, s, now);
      OneToken(t) && ModelOk(t.model)
  {
    ExitNoticeIsCurrent(s);
    hide Token;
    ExitLands(policy, limits, s.model, s.mailbox[0].pid, s.mailbox[0].code, now);
    hide HandleExit, OnExit, ModelOk, Trail;
    var h := Handle(policy, limits, s.model, s.mailbox[0], now);
    ExitHandsOn(h.model, Started(h.todo), h.todo.BackOff?);
    assert [] + Started(h.todo) == Started(h.todo);
  }

  /** With no child left and nothing else to hear, a backoff holds the token, or the
      primitive is down. */
  lemma ExitHandsOn(m: Model, tasks: seq<Task>, again: bool)
    requires m.childPid == None
    requires if again then |tasks| == 1 && tasks[0].Sleeping? && m.status.state == Starting
             else tasks == [] && m.status.state in {Stopped, Failed}
    ensures Token(m, [], tasks, None, map[], false)
  {
    hide HearsExit, HearsRestart;
  }

  lemma TakeRestartKeepsToken(policy: RestartPolicy, limits: RestartLimits, s: World, now: u64)
    requires s.mailbox != [] && s.mailbox[0].RestartChild? && ModelOk(s.model) && OneToken(s)
    ensures var t := Take(policy, limits, s, now);
      OneToken(t) && ModelOk(t.model) && Owed(t) <= Owed(s)
  {
    RestartFindsNoChild(s);
  }

  lemma {:induction false} OnExitsOneMore(policy: RestartPolicy, limits: RestartLimits, b: Budget, xs: seq<Exit>,
                                         x: Exit)
    ensures OnExits(policy, limits, b, xs + [x]) == OnExit(policy, limits, OnExits(policy, limits, b, xs), x)
    decreases |xs|
  {
    hide OnExit;
    if xs == [] {
      assert (xs + [x])[1..] == [];
    } else {
      assert (xs + [x])[1..] == xs[1..] + [x];
      OnExitsOneMore(policy, limits, OnExit(policy, limits, b, xs[0]), xs[1..], x);
    }
  }

  /** A handled exit is one step of the restart budget, and starts a backoff
      exactly when the budget grants a restart. */
  lemma TakeExitKeepsBudget(policy: RestartPolicy, limits: RestartLimits, s: World, now: u64)
    requires s.mailbox != [] && s.mailbox[0].ChildExited? && Inv(policy, limits, s)
    ensures var t := Take(policy, limits, s, now);
      && BudgetKept(policy, limits, t)
      && (t.tasks == [] <==> t.budget.granted == s.budget.granted)
      && (t.tasks != [] ==> t.tasks == [Sleeping(t.budget.granted[|t.budget.granted| - 1].1)])
  {
    var t := Take(policy, limits, s, now);
    var m := s.mailbox[0];
    ExitNoticeIsCurrent(s);
    OnExitsOneMore(policy, limits, Budget([], []), s.exits, Exit(now, m.code, s.model.shuttingDown));
    hide BackoffDelay, PruneAttempts, OnExits;
    assert t.forks == s.forks && Owed(s) == 0;
    assert Owed(t) <= |t.budget.granted| - |s.budget.granted|;
  }

  lemma TakeKeepsInv(policy: RestartPolicy, limits: RestartLimits, s: World, now: u64)
    requires s.mailbox != [] && Inv(policy, limits, s)
    ensures Inv(policy, limits, Take(policy, limits, s, now))
  {
    hide OneToken, Owed, OnExits, OnExit;
    if s.mailbox[0].ChildExited? {
      TakeExitKeepsToken(policy, limits, s, now);
      TakeExitKeepsBudget(policy, limits, s, now);
    } else if s.mailbox[0].RestartChild? {
      TakeRestartKeepsToken(policy, limits, s, now);
    } else if IsNotice(s.mailbox[0]) {
      TakeNoticeKeepsToken(policy, limits, s, now);
    } else {
      TakeSpawnNewsKeepsToken(policy, limits, s, now);
    }
  }

  lemma StepKeepsInv(policy: RestartPolicy, limits: RestartLimits, s: World, step: Step)
    requires Inv(policy, limits, s) && Enabled(s, step)
    ensures Inv(policy, limits, Next(policy, limits, s, step))
  {
    hide OneToken, Owed, OnExits, OnExit;
    match step {
      case Notify(notice) => NotifyKeepsToken(s, notice);
      case TakeMessage(now) => TakeKeepsInv(policy, limits, s, now);
      case RunTask(i) => RunOneKeepsToken(s, i);
      case _ => ChildStepKeepsToken(policy, limits, s, step);
    }
  }

  lemma {:induction false} RunKeepsInv(policy: RestartPolicy, limits: RestartLimits, s: World, run: seq<Step>)
    requires Inv(policy, limits, s) && Possible(policy, limits, s, run)
    ensures Inv(policy, limits, After(policy, limits, s, run))
    decreases |run|
  {
    if run != [] {
      StepKeepsInv(policy, limits, s, run[0]);
      RunKeepsInv(policy, limits, Next(policy, limits, s, run[0]), run[1..]);
    }
  }

  // ---------------------------------------------------------------------
  // What follows, over whole runs
  // ---------------------------------------------------------------------

  /** In every reachable state there is at most one operating-system child and one
      task; the published pid is that of the unreaped child, or of one just reaped
      whose monitor has not run on; pid, error and state agree; and while a spawn is
      under way the primitive reads as starting, or is about to. */
  lemma AtMostOneChild(policy: RestartPolicy, limits: RestartLimits, run: seq<Step>)
    requires Possible(policy, limits, Init(), run)
    ensures var s := After(policy, limits, Init(), run);
      && |s.os| <= 1 && |s.tasks| <= 1
      && Consistent(s.model.status) && s.model.childPid == s.model.status.pid
      && (s.watch.Some? ==>
            s.watch.value in s.os || (|s.tasks| == 1 && s.tasks[0].Reaped? && s.tasks[0].pid == s.watch.value))
      && (|s.tasks| == 1 && (s.tasks[0].Forking? || s.tasks[0].Unwatched? || s.tasks[0].Unreported?) ==>
            ChildSpawning in s.mailbox || s.model.status.state == Starting)
  {
    RunKeepsInv(policy, limits, Init(), run);
    var s := After(policy, limits, Init(), run);
    hide BudgetKept, Possible, After;
    OneChildAtMost(s);
    SpawnReadsAsStarting(s);
    hide OneToken;
  }

  lemma OneChildAtMost(s: World)
    requires OneToken(s)
    ensures |s.os| <= 1 && |s.tasks| <= 1
    ensures s.watch.Some? ==>
      s.watch.value in s.os || (|s.tasks| == 1 && s.tasks[0].Reaped? && s.tasks[0].pid == s.watch.value)
  {
    hide TaskHeard, MailboxHolds;
    if |s.tasks| == 1 && s.os != map[] {
      assert s.os.Keys == {s.tasks[0].pid};
      OnlyKey(s.os, s.tasks[0].pid);
    }
  }

  lemma SpawnReadsAsStarting(s: World)
    requires OneToken(s)
    ensures |s.tasks| == 1 && (s.tasks[0].Forking? || s.tasks[0].Unwatched? || s.tasks[0].Unreported?) ==>
      ChildSpawning in s.mailbox || s.model.status.state == Starting
  {
    TrailHolds(s.mailbox, ChildSpawning);
    hide TaskHolds, MailboxHolds;
  }

  /** A pid watch is clear when it is set; and while it is set, the task that holds its
      sender is there to clear it, so whoever waits for the watch never finds the
      sender gone before that. */
  lemma SetWatchHasASender(policy: RestartPolicy, limits: RestartLimits, run: seq<Step>)
    requires Possible(policy, limits, Init(), run)
    ensures var s := After(policy, limits, Init(), run);
      && (s.watch.Some? ==>
            |s.tasks| == 1 && (s.tasks[0].Unreported? || s.tasks[0].Monitoring? || s.tasks[0].Reaped?)
            && s.tasks[0].pid == s.watch.value)
      && (|s.tasks| == 1 && s.tasks[0].Unwatched? ==> s.watch == None)
  {
    RunKeepsInv(policy, limits, Init(), run);
  }

  /** The two guards the handlers carry against stale messages never fire. */
  lemma StaleGuardsNeverFire(policy: RestartPolicy, limits: RestartLimits, run: seq<Step>)
    requires Possible(policy, limits, Init(), run)
    ensures var s := After(policy, limits, Init(), run);
      s.mailbox != [] ==>
        && (s.mailbox[0].ChildExited? ==> s.model.childPid == Some(s.mailbox[0].pid))
        && (s.mailbox[0].RestartChild? ==> s.model.childPid == None)
  {
    RunKeepsInv(policy, limits, Init(), run);
    var s := After(policy, limits, Init(), run);
    if s.mailbox != [] && s.mailbox[0].ChildExited? {
      ExitNoticeIsCurrent(s);
    } else if s.mailbox != [] && s.mailbox[0].RestartChild? {
      RestartFindsNoChild(s);
    }
  }

  /** The child has been reaped and the actor has not handled its exit. */
  ghost predicate ExitOutstanding(s: World, pid: nat) {
    || (|s.tasks| == 1 && (s.tasks[0].Reaped? || s.tasks[0].Cleared?) && s.tasks[0].pid == pid)
    || exists code :: ChildExited(pid, code) in s.mailbox
  }

  lemma {:induction false} TrailHolds(mailbox: seq<Message>, m: Message)
    ensures m in Trail(mailbox) <==> m in mailbox && !IsNotice(m)
  {
    if mailbox != [] {
      TrailHolds(mailbox[1..], m);
      assert m in mailbox <==> m == mailbox[0] || m in mailbox[1..];
    }
  }

  /** The pid the actor would signal is its own unreaped child's exactly while no
      exit of it is outstanding. Between the two it names a child that was reaped,
      and the kernel may have given it to anyone. */
  lemma SignalReachesTheUnreapedChild(policy: RestartPolicy, limits: RestartLimits, run: seq<Step>, pid: nat)
    requires Possible(policy, limits, Init(), run)
    ensures var s := After(policy, limits, Init(), run);
      s.model.childPid == Some(pid) ==> (pid in s.os <==> !ExitOutstanding(s, pid))
  {
    RunKeepsInv(policy, limits, Init(), run);
    var s := After(policy, limits, Init(), run);
    if s.model.childPid == Some(pid) {
      KnownChildLives(s, pid);
    }
  }

  lemma KnownChildLives(s: World, pid: nat)
    requires OneToken(s) && s.model.childPid == Some(pid)
    ensures pid in s.os <==> !ExitOutstanding(s, pid)
  {
    var trail := Trail(s.mailbox);
    forall code
      ensures ChildExited(pid, code) in s.mailbox <==> ChildExited(pid, code) in trail
    {
      TrailHolds(s.mailbox, ChildExited(pid, code));
    }
    if |s.tasks| == 0 {
      if s.lost {
        LostChildIsHeld(s, pid);
      } else {
        assert trail == [ChildExited(pid, trail[0].code)];
      }
    } else {
      assert pid in s.os.Keys <==> pid in s.os;
    }
  }

  lemma LostChildIsHeld(s: World, pid: nat)
    requires s.model.childPid == Some(pid) && LostOne(Trail(s.mailbox), s.model, s.os)
    ensures s.os.Keys == {pid}
  {
    assert |s.os.Keys| == 1;
    var k :| k in s.os.Keys;
    assert Hears(Trail(s.mailbox), s.model.childPid, k) && k == pid;
    forall j | j in s.os.Keys
      ensures j == pid
    {
      assert Hears(Trail(s.mailbox), s.model.childPid, j);
    }
  }

  /** Every child after the first was forked for a restart the policy granted; and
      unless the times of the exits allow an overrun, no window holds more grants than
      the budget. */
  lemma SpawnsAreBudgeted(policy: RestartPolicy, limits: RestartLimits, run: seq<Step>)
    requires Possible(policy, limits, Init(), run)
    ensures var s := After(policy, limits, Init(), run);
      && s.forks <= 1 + |s.budget.granted|
      && (!CanOverrun(TimesOf(s.exits)) ==>
            forall t: int :: GrantsIn(s.budget.granted, t, limits.windowMs) <= limits.maxRetries)
  {
    RunKeepsInv(policy, limits, Init(), run);
    var s := After(policy, limits, Init(), run);
    BudgetHoldsExactly(TimesOf(s.exits));
    hide CanOverrun;
    assert ExitsAt(s.exits, TimesOf(s.exits));
  }

  /** With no task running and no message waiting, and no failed wait, there is no
      child, and the primitive reads as stopped or failed; or as starting, when a
      shutdown notice overtook its backoff. */
  lemma QuietMeansDown(policy: RestartPolicy, limits: RestartLimits, s: World)
    requires Inv(policy, limits, s) && s.tasks == [] && s.mailbox == [] && !s.lost
    ensures s.os == map[] && s.watch == None && s.model.childPid == None
    ensures s.model.status.state in {Stopped, Failed} || (s.model.shuttingDown && s.model.status.state == Starting)
  {
  }

  // ---------------------------------------------------------------------
  // Shutdown
  // ---------------------------------------------------------------------

  /** The spawn tasks still before their fork. */
  ghost function ToFork(tasks: seq<Task>): nat {
    if |tasks| == 1 && (tasks[0].Announcing? || tasks[0].Forking?) then 1 else 0
  }

  lemma ShutdownStartsNothing(policy: RestartPolicy, limits: RestartLimits, m: Model, message: Message, now: u64)
    requires m.shuttingDown
    ensures var h := Handle(policy, limits, m, message, now);
      h.model.shuttingDown && Started(h.todo) == []
  {
    hide PruneAttempts;
  }

  ghost predicate CalmsDown(s: World, t: World) {
    && t.model.shuttingDown && |t.tasks| <= 1
    && t.forks + ToFork(t.tasks) <= s.forks + ToFork(s.tasks)
  }

  lemma TakeAfterShutdown(policy: RestartPolicy, limits: RestartLimits, s: World, now: u64)
    requires |s.tasks| <= 1 && s.model.shuttingDown && s.mailbox != []
    ensures var t := Take(policy, limits, s, now);
      CalmsDown(s, t) && Left(t) < Left(s)
  {
    ShutdownStartsNothing(policy, limits, s.model, s.mailbox[0], now);
    assert s.tasks + [] == s.tasks;
    hide Handle;
  }

  lemma TaskAfterShutdown(s: World, i: nat)
    requires |s.tasks| <= 1 && s.model.shuttingDown && Enabled(s, RunTask(i))
    ensures CalmsDown(s, RunOne(s, i)) && Left(RunOne(s, i)) < Left(s)
  {
    if s.tasks[i].Monitoring? {
      StillRunningAfterReap(s.os, s.tasks[i].pid);
    }
    hide StillRunning;
  }

  lemma StepAfterShutdown(policy: RestartPolicy, limits: RestartLimits, s: World, step: Step)
    requires |s.tasks| <= 1 && s.model.shuttingDown && Enabled(s, step)
    ensures var t := Next(policy, limits, s, step);
      CalmsDown(s, t) && (!step.Notify? ==> Left(t) < Left(s))
  {
    match step {
      case TakeMessage(now) => TakeAfterShutdown(policy, limits, s, now);
      case RunTask(i) => TaskAfterShutdown(s, i);
      case Fork(_, pid) => StillRunningAfterFork(s.os, pid);
      case ChildEnds(pid, code) => StillRunningAfterEnd(s.os, pid, code);
      case _ =>
    }
    hide Take, StillRunning;
  }

  /** Once the actor knows of the shutdown, however the run goes on, the only child
      that can still be forked is the one whose spawn task had already started. */
  lemma {:induction false} NoSpawnAfterShutdown(policy: RestartPolicy, limits: RestartLimits, s: World, run: seq<Step>)
    requires Inv(policy, limits, s) && s.model.shuttingDown && Possible(policy, limits, s, run)
    ensures var t := After(policy, limits, s, run);
      t.forks + ToFork(t.tasks) <= s.forks + ToFork(s.tasks) <= s.forks + 1
    decreases |run|
  {
    if run != [] {
      StepAfterShutdown(policy, limits, s, run[0]);
      StepKeepsInv(policy, limits, s, run[0]);
      NoSpawnAfterShutdown(policy, limits, Next(policy, limits, s, run[0]), run[1..]);
    }
  }

  /** No spawn task is between its start and setting the pid watch. */
  ghost predicate NoSpawnInFlight(tasks: seq<Task>) {
    |tasks| == 0 || (|tasks| == 1 && !tasks[0].Announcing? && !tasks[0].Forking? && !tasks[0].Unwatched?)
  }

  lemma StepKeepsWatchClear(policy: RestartPolicy, limits: RestartLimits, s: World, step: Step)
    requires Inv(policy, limits, s) && Enabled(s, step)
    requires s.model.shuttingDown && s.watch == None && NoSpawnInFlight(s.tasks)
    ensures var t := Next(policy, limits, s, step);
      t.model.shuttingDown && t.watch == None && NoSpawnInFlight(t.tasks)
  {
    if step.TakeMessage? {
      ShutdownStartsNothing(policy, limits, s.model, s.mailbox[0], step.now);
      assert s.tasks + [] == s.tasks;
      hide Handle, BudgetKept, OnExit;
    }
  }

  /** Once the actor knows of the shutdown and no spawn is in flight, a clear pid
      watch stays clear, however the run goes on: whoever waits for the child to be
      gone is not fooled by a respawn. */
  lemma {:induction false} ClearedWatchStaysClear(policy: RestartPolicy, limits: RestartLimits, s: World,
                                                 run: seq<Step>)
    requires Inv(policy, limits, s) && Possible(policy, limits, s, run)
    requires s.model.shuttingDown && s.watch == None && NoSpawnInFlight(s.tasks)
    ensures After(policy, limits, s, run).watch == None
    decreases |run|
  {
    if run != [] {
      StepKeepsWatchClear(policy, limits, s, run[0]);
      StepKeepsInv(policy, limits, s, run[0]);
      ClearedWatchStaysClear(policy, limits, Next(policy, limits, s, run[0]), run[1..]);
    }
  }

  /** What takes a spawn in flight to a set watch. */
  function SpawnSteps(task: Task): seq<Step> {
    match task
    case Announcing => [RunTask(0), Fork(0, 0), RunTask(0)]
    case Forking => [Fork(0, 0), RunTask(0)]
    case Unwatched(_) => [RunTask(0)]
    case _ => []
  }

  lemma FinishesTheSpawn(policy: RestartPolicy, limits: RestartLimits, s: World)
    requires |s.tasks| == 1 && (s.tasks[0].Unwatched? || (s.tasks[0].Forking? && s.os == map[]))
    ensures var run := SpawnSteps(s.tasks[0]);
      Possible(policy, limits, s, run) && After(policy, limits, s, run).watch.Some?
  {
    hide Take;
    var one: seq<Step> := [RunTask(0)];
    assert one[1..] == [];
    if s.tasks[0].Forking? {
      var two := [Fork(0, 0), RunTask(0)];
      assert two[1..] == one;
      var next := Next(policy, limits, s, two[0]);
      assert next.tasks == [Unwatched(0)];
      assert Possible(policy, limits, next, one) && After(policy, limits, next, one).watch == Some(0);
    }
  }

  lemma SpawnInFlightSetsTheWatch(policy: RestartPolicy, limits: RestartLimits, s: World) returns (run: seq<Step>)
    requires Inv(policy, limits, s) && !NoSpawnInFlight(s.tasks)
    ensures Possible(policy, limits, s, run) && After(policy, limits, s, run).watch.Some?
  {
    hide Take, Token, BudgetKept;
    assert |s.tasks| == 1 && (s.tasks[0].Unwatched? || s.os == map[]) by {
      SpawnsHaveNoChild(s);
    }
    run := SpawnSteps(s.tasks[0]);
    if s.tasks[0].Announcing? {
      var next := Next(policy, limits, s, run[0]);
      assert next.tasks == [Forking] && run[1..] == SpawnSteps(Forking);
      FinishesTheSpawn(policy, limits, next);
    } else {
      FinishesTheSpawn(policy, limits, s);
    }
  }

  lemma SpawnsHaveNoChild(s: World)
    requires OneToken(s) && !NoSpawnInFlight(s.tasks)
    ensures |s.tasks| == 1 && (s.tasks[0].Unwatched? || s.os == map[])
  {
  }

  /** Once the actor knows of the shutdown, a clear pid watch can still be set again
      exactly while a spawn is in flight: then, and only then, can a wait for the child
      to be gone be over with a child still to come. */
  lemma WatchStaysClearExactly(policy: RestartPolicy, limits: RestartLimits, s: World)
    requires Inv(policy, limits, s) && s.model.shuttingDown && s.watch == None
    ensures (forall run :: Possible(policy, limits, s, run) ==> After(policy, limits, s, run).watch == None)
       <==> NoSpawnInFlight(s.tasks)
  {
    if NoSpawnInFlight(s.tasks) {
      forall run | Possible(policy, limits, s, run)
        ensures After(policy, limits, s, run).watch == None
      {
        ClearedWatchStaysClear(policy, limits, s, run);
      }
    } else {
      var run := SpawnInFlightSetsTheWatch(policy, limits, s);
      hide Possible, After, Inv;
      assert After(policy, limits, s, run).watch != None;
    }
  }

  /** How many steps a task can still take, with the messages it will send. */
  ghost function TaskLeft(task: Task): nat {
    match task
    case Announcing => 13
    case Forking => 11
    case NotForked(_) => 2
    case Unwatched(_) => 9
    case Unreported(_) => 8
    case Monitoring(_) => 6
    case Reaped(_, _) => 5
    case Cleared(_, _) => 4
    case Sleeping(_) => 2
  }

  ghost function StillRunning(os: map<nat, Option<int>>): set<nat> {
    set pid | pid in os && os[pid].None?
  }

  ghost function Left(s: World): nat {
    (if |s.tasks| > 0 then TaskLeft(s.tasks[0]) else 0) + |s.mailbox| + |StillRunning(s.os)|
  }

  lemma StillRunningAfterEnd(os: map<nat, Option<int>>, pid: nat, code: int)
    requires pid in os && os[pid].None?
    ensures |StillRunning(os[pid := Some(code)])| == |StillRunning(os)| - 1
  {
    assert StillRunning(os[pid := Some(code)]) == StillRunning(os) - {pid};
  }

  lemma StillRunningAfterFork(os: map<nat, Option<int>>, pid: nat)
    requires pid !in os
    ensures |StillRunning(os[pid := None])| == |StillRunning(os)| + 1
  {
    assert StillRunning(os[pid := None]) == StillRunning(os) + {pid};
  }

  lemma StillRunningAfterReap(os: map<nat, Option<int>>, pid: nat)
    requires pid in os && os[pid].Some?
    ensures |StillRunning(os - {pid})| == |StillRunning(os)|
  {
    assert StillRunning(os - {pid}) == StillRunning(os);
  }

  /** After the actor knows of the shutdown, and once the last notice has been
      sent, every run is finite: it takes at most Left(s) steps. */
  lemma {:induction false} ShutdownComesToRest(policy: RestartPolicy, limits: RestartLimits, s: World, run: seq<Step>)
    requires Inv(policy, limits, s) && s.model.shuttingDown && Possible(policy, limits, s, run)
    requires forall k :: 0 <= k < |run| ==> !run[k].Notify?
    ensures |run| + Left(After(policy, limits, s, run)) <= Left(s)
    decreases |run|
  {
    if run != [] {
      StepAfterShutdown(policy, limits, s, run[0]);
      StepKeepsInv(policy, limits, s, run[0]);
      ShutdownComesToRest(policy, limits, Next(policy, limits, s, run[0]), run[1..]);
    }
  }

  /** And where no such run can go on, the primitive is down: a task or a message
      always has a next step, a running child's end included. */
  lemma UnfinishedCanStep(policy: RestartPolicy, limits: RestartLimits, s: World) returns (step: Step)
    requires Inv(policy, limits, s) && (s.tasks != [] || s.mailbox != [])
    ensures !step.Notify? && Enabled(s, step)
  {
    if s.mailbox != [] {
      return TakeMessage(0);
    }
    match s.tasks[0] {
      case Forking => return Fork(0, 0);
      case Monitoring(pid) =>
        assert pid in s.os.Keys;
        return if s.os[pid].None? then ChildEnds(pid, 0) else RunTask(0);
      case _ => return RunTask(0);
    }
  }
}
