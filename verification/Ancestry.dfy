/** Naming a connecting process by walking its ancestry, against a kernel that
    forks, reparents orphans and recycles process ids. */
module Ancestry {
  import opened Options

  const MAX_ANCESTRY_DEPTH: nat := 16

  // ---------------------------------------------------------------------
  // The walk
  // ---------------------------------------------------------------------

  datatype Resolution = Primitive(name: string) | UnrecordedChild | Foreign

  /** The parent lookup, as the process table gives it: nothing for a pid that
      names no process. */
  type Parents = map<nat, nat>

  /** What a walk with `steps` looks left finds from pid. */
  function Climb(pid: nat, engine: nat, children: map<nat, string>, parents: Parents, steps: nat): Resolution
    decreases steps
  {
    if steps == 0 then Foreign
    else if pid in children then Primitive(children[pid])
    else if pid == engine then UnrecordedChild
    else if pid <= 1 || pid !in parents then Foreign
    else Climb(parents[pid], engine, children, parents, steps - 1)
  }

  method ResolveAncestry(peer: Option<nat>, engine: nat, children: map<nat, string>, parents: Parents)
    returns (r: Resolution)
    ensures r == if peer.None? then Foreign else Climb(peer.value, engine, children, parents, MAX_ANCESTRY_DEPTH)
  {
    if peer.None? {
      return Foreign;
    }
    var pid := peer.value;
    for i := 0 to MAX_ANCESTRY_DEPTH
      invariant Climb(pid, engine, children, parents, MAX_ANCESTRY_DEPTH - i)
             == Climb(peer.value, engine, children, parents, MAX_ANCESTRY_DEPTH)
    {
      if pid in children {
        return Primitive(children[pid]);
      }
      if pid == engine {
        return UnrecordedChild;
      }
      if pid <= 1 || pid !in parents {
        return Foreign;
      }
      pid := parents[pid];
    }
    return Foreign;
  }

  /** What the engine can see at one look: its child table and the process table. */
  datatype Look = Look(children: map<nat, string>, parents: Parents)

  function Seen(peer: Option<nat>, engine: nat, look: Look): Resolution {
    if peer.None? then Foreign else Climb(peer.value, engine, look.children, look.parents, MAX_ANCESTRY_DEPTH)
  }

  /** The retry loop, one look per attempt. The answer is the first look's that is
      not an unrecorded child, or the last one's. */
  method Walk(peer: Option<nat>, engine: nat, looks: seq<Look>) returns (r: Resolution)
    ensures looks == [] ==> r == Foreign
    ensures looks != [] ==>
      exists i :: 0 <= i < |looks| && r == Seen(peer, engine, looks[i])
        && (r == UnrecordedChild ==> i == |looks| - 1)
        && forall j :: 0 <= j < i ==> Seen(peer, engine, looks[j]) == UnrecordedChild
  {
    for attempt := 1 to |looks| + 1
      invariant attempt > 1 ==> attempt <= |looks|
      invariant forall j :: 0 <= j < attempt - 1 ==> Seen(peer, engine, looks[j]) == UnrecordedChild
    {
      var look := looks[attempt - 1];
      var resolution := ResolveAncestry(peer, engine, look.children, look.parents);
      if resolution != UnrecordedChild || attempt == |looks| {
        return resolution;
      }
    }
    return Foreign;
  }

  /** The k-th ancestor of pid, as the table now reads. */
  function Hop(parents: Parents, pid: nat, k: nat): Option<nat>
    decreases k
  {
    if k == 0 then Some(pid)
    else if pid in parents then Hop(parents, parents[pid], k - 1)
    else None
  }

  /** The walk may go past pid: it is not recorded, not the engine, not init. */
  predicate PassedOver(pid: nat, engine: nat, children: map<nat, string>) {
    pid !in children && pid != engine && pid > 1
  }

  /** The k-th ancestor is recorded and everything below it is passed over. */
  ghost predicate FirstRecorded(pid: nat, k: nat, engine: nat, children: map<nat, string>, parents: Parents) {
    && Hop(parents, pid, k).Some? && Hop(parents, pid, k).value in children
    && forall j :: 0 <= j < k ==> Hop(parents, pid, j).Some? && PassedOver(Hop(parents, pid, j).value, engine, children)
  }

  /** The k-th ancestor is the nearest recorded one, and recorded under this name. */
  ghost predicate Names(pid: nat, k: nat, engine: nat, children: map<nat, string>, parents: Parents, name: string) {
    FirstRecorded(pid, k, engine, children, parents) && children[Hop(parents, pid, k).value] == name
  }

  lemma FirstRecordedUp(pid: nat, k: nat, engine: nat, children: map<nat, string>, parents: Parents)
    requires pid in parents && PassedOver(pid, engine, children)
    ensures FirstRecorded(parents[pid], k, engine, children, parents)
       <==> FirstRecorded(pid, k + 1, engine, children, parents)
  {
    forall j | 0 <= j
      ensures Hop(parents, pid, j + 1) == Hop(parents, parents[pid], j)
    {
    }
    if FirstRecorded(parents[pid], k, engine, children, parents) {
      forall j | 0 <= j < k + 1
        ensures Hop(parents, pid, j).Some? && PassedOver(Hop(parents, pid, j).value, engine, children)
      {
        if j > 0 {
          assert Hop(parents, pid, j) == Hop(parents, parents[pid], j - 1);
        }
      }
    } else if FirstRecorded(pid, k + 1, engine, children, parents) {
      forall j | 0 <= j < k
        ensures Hop(parents, parents[pid], j).Some? && PassedOver(Hop(parents, parents[pid], j).value, engine, children)
      {
        assert Hop(parents, pid, j + 1) == Hop(parents, parents[pid], j);
      }
    }
  }

  /** Exactly when a walk names a primitive, and whose: the nearest recorded
      ancestor is fewer than `steps` parents up, with neither the engine, nor
      init, nor a gap below it. */
  lemma {:induction false} ClimbNamesTheNearest(pid: nat, engine: nat, children: map<nat, string>, parents: Parents,
                                               steps: nat, name: string)
    ensures Climb(pid, engine, children, parents, steps) == Primitive(name)
       <==> exists k :: 0 <= k < steps && Names(pid, k, engine, children, parents, name)
    decreases steps
  {
    if steps == 0 {
    } else if pid in children {
      assert Names(pid, 0, engine, children, parents, children[pid]);
      forall k | 0 <= k && FirstRecorded(pid, k, engine, children, parents)
        ensures k == 0
      {
        assert Hop(parents, pid, 0) == Some(pid);
      }
    } else if !PassedOver(pid, engine, children) || pid !in parents {
      forall k | 0 <= k
        ensures !FirstRecorded(pid, k, engine, children, parents)
      {
        assert Hop(parents, pid, 0) == Some(pid);
      }
    } else {
      ClimbNamesTheNearest(parents[pid], engine, children, parents, steps - 1, name);
      forall k | 0 <= k
        ensures FirstRecorded(parents[pid], k, engine, children, parents)
           <==> FirstRecorded(pid, k + 1, engine, children, parents)
      {
        FirstRecordedUp(pid, k, engine, children, parents);
      }
      NamedOneUp(pid, engine, children, parents, steps, name);
    }
  }

  lemma NamedOneUp(pid: nat, engine: nat, children: map<nat, string>, parents: Parents, steps: nat, name: string)
    requires steps > 0 && pid !in children && pid in parents
    requires forall k :: 0 <= k ==> (FirstRecorded(parents[pid], k, engine, children, parents)
                                    <==> FirstRecorded(pid, k + 1, engine, children, parents))
    ensures (exists k :: 0 <= k < steps - 1 && Names(parents[pid], k, engine, children, parents, name))
       <==> (exists k :: 0 <= k < steps && Names(pid, k, engine, children, parents, name))
  {
    if k :| 0 <= k < steps && Names(pid, k, engine, children, parents, name) {
      assert k > 0;
      assert Hop(parents, pid, k) == Hop(parents, parents[pid], k - 1);
      assert Names(parents[pid], k - 1, engine, children, parents, name);
    }
    var up := parents[pid];
    if k :| 0 <= k < steps - 1 && Names(up, k, engine, children, parents, name) {
      assert Hop(parents, pid, k + 1) == Hop(parents, parents[pid], k);
      assert Names(pid, k + 1, engine, children, parents, name);
    }
  }

  // ---------------------------------------------------------------------
  // The kernel and the engine's pid watches
  // ---------------------------------------------------------------------

  /** A process holding a pid. `incarnation` numbers processes in the order they
      were forked, so a recycled pid comes with a new one. */
  datatype Proc = Proc(incarnation: nat, ppid: nat, zombie: bool)

  /** `watches` holds the pid each primitive's watch is set to. A primitive is
      `unclear` from the moment its child is reaped until its watch is cleared: no
      await stands between the two, but other threads do run there. The rest is
      history: the incarnation that forked each one, and the primitive that each
      child of the engine was spawned for. */
  datatype Kernel = Kernel(
    procs: map<nat, Proc>, forkedBy: seq<nat>, engine: Option<nat>,
    spawned: map<nat, string>, watches: map<string, nat>, unclear: set<string>)

  datatype Step =
    | Fork(parent: nat, pid: nat)
    | StartEngine(pid: nat)
    | SpawnChild(pid: nat, name: string)     // the engine forks a primitive's child
    | Exit(pid: nat, reaper: nat)            // its children go to the reaper
    | Reap(pid: nat)                         // some other parent collects it
    | RecordChild(pid: nat)                  // the watch is set
    | ReapChild(name: string)                // wait returns
    | ClearChild(name: string)               // and the watch is cleared
    | ForgetChild(name: string)              // wait fails and the watch is cleared

  function Boot(): Kernel {
    Kernel(map[1 := Proc(0, 0, false)], [0], None, map[], map[], {})
  }

  /** Incarnation i is j or was forked by a descendant of j. */
  ghost predicate Descends(forkedBy: seq<nat>, i: nat, j: nat)
    decreases i
  {
    i == j || (i < |forkedBy| && forkedBy[i] < i && Descends(forkedBy, forkedBy[i], j))
  }

  predicate Alive(k: Kernel, pid: nat) { pid in k.procs && !k.procs[pid].zombie }

  predicate Unused(k: Kernel, pid: nat) { pid > 1 && pid !in k.procs }

  /** That a watch is clear when it is set is what the actor guarantees
      (PrimitiveActor.SetWatchHasASender). */
  ghost predicate Enabled(k: Kernel, step: Step) {
    match step
    case Fork(parent, pid) => Alive(k, parent) && Unused(k, pid)
    case StartEngine(pid) => k.engine.None? && Alive(k, pid) && pid > 1
    case SpawnChild(pid, _) => k.engine.Some? && Alive(k, k.engine.value) && Unused(k, pid)
    case Exit(pid, reaper) =>
      && Alive(k, pid) && pid > 1 && k.engine != Some(pid)
      && Alive(k, reaper) && reaper != pid
      && Descends(k.forkedBy, k.procs[pid].incarnation, k.procs[reaper].incarnation)
    case Reap(pid) => pid in k.procs && k.procs[pid].zombie && k.procs[pid].incarnation !in k.spawned
    case RecordChild(pid) =>
      && pid in k.procs && k.procs[pid].incarnation in k.spawned
      && k.spawned[k.procs[pid].incarnation] !in k.watches
    case ReapChild(name) =>
      && name in k.watches && name !in k.unclear
      && k.watches[name] in k.procs && k.procs[k.watches[name]].zombie
    case ClearChild(name) => name in k.unclear
    case ForgetChild(name) => name in k.watches && name !in k.unclear
  }

  ghost function Forked(k: Kernel, parent: nat, pid: nat): Kernel
    requires parent in k.procs
  {
    k.(procs := k.procs[pid := Proc(|k.forkedBy|, parent, false)],
       forkedBy := k.forkedBy + [k.procs[parent].incarnation])
  }

  function Orphaned(procs: map<nat, Proc>, pid: nat, reaper: nat): map<nat, Proc> {
    map q | q in procs ::
      if q == pid then procs[q].(zombie := true)
      else if procs[q].ppid == pid then procs[q].(ppid := reaper)
      else procs[q]
  }

  ghost function Next(k: Kernel, step: Step): Kernel
    requires Enabled(k, step)
  {
    match step
    case Fork(parent, pid) => Forked(k, parent, pid)
    case StartEngine(pid) => k.(engine := Some(pid))
    case SpawnChild(pid, name) => Forked(k, k.engine.value, pid).(spawned := k.spawned[|k.forkedBy| := name])
    case Exit(pid, reaper) => k.(procs := Orphaned(k.procs, pid, reaper))
    case Reap(pid) => k.(procs := k.procs - {pid})
    case RecordChild(pid) => k.(watches := k.watches[k.spawned[k.procs[pid].incarnation] := pid])
    case ReapChild(name) => k.(procs := k.procs - {k.watches[name]}, unclear := k.unclear + {name})
    case ClearChild(name) => k.(watches := k.watches - {name}, unclear := k.unclear - {name})
    case ForgetChild(name) => k.(watches := k.watches - {name})
  }

  ghost predicate Possible(k: Kernel, run: seq<Step>)
    decreases |run|
  {
    run == [] || (Enabled(k, run[0]) && Possible(Next(k, run[0]), run[1..]))
  }

  ghost function After(k: Kernel, run: seq<Step>): Kernel
    requires Possible(k, run)
    decreases |run|
  {
    if run == [] then k else After(Next(k, run[0]), run[1..])
  }

  /** The parent lookup over the kernel: a zombie still has its entry. */
  function ParentsOf(k: Kernel): Parents {
    map pid | pid in k.procs :: k.procs[pid].ppid
  }

  /** The child table the engine collects from the watches, by pid. Should two
      watches hold one pid, the iteration order decides whose name it gets. */
  ghost predicate Snapshot(k: Kernel, children: map<nat, string>) {
    && (forall pid :: pid in children ==> children[pid] in k.watches && k.watches[children[pid]] == pid)
    && (forall name :: name in k.watches ==> k.watches[name] in children)
  }

  function Resolve(k: Kernel, children: map<nat, string>, peer: nat): Resolution
    requires k.engine.Some?
  {
    Climb(peer, k.engine.value, children, ParentsOf(k), MAX_ANCESTRY_DEPTH)
  }

  // ---------------------------------------------------------------------
  // What holds in every reachable kernel
  // ---------------------------------------------------------------------

  /** The process's parent pid is held by a live process that truly is above it. */
  ghost predicate Attached(procs: map<nat, Proc>, forkedBy: seq<nat>, p: Proc) {
    && p.incarnation < |forkedBy|
    && p.ppid in procs && !procs[p.ppid].zombie
    && procs[p.ppid].incarnation < p.incarnation
    && Descends(forkedBy, p.incarnation, procs[p.ppid].incarnation)
  }

  ghost predicate Tree(procs: map<nat, Proc>, forkedBy: seq<nat>) {
    && |forkedBy| > 0
    && 1 in procs && procs[1] == Proc(0, 0, false) && 0 !in procs
    && (forall pid {:trigger Attached(procs, forkedBy, procs[pid])} ::
          pid in procs && pid != 1 ==> Attached(procs, forkedBy, procs[pid]))
  }

  /** One process per incarnation. */
  ghost predicate Distinct(procs: map<nat, Proc>) {
    forall p, q :: p in procs && q in procs && procs[p].incarnation == procs[q].incarnation ==> p == q
  }

  ghost predicate EngineUp(k: Kernel) {
    && (k.engine.Some? ==> Alive(k, k.engine.value) && k.engine.value > 1)
    && (k.engine.None? ==> k.spawned == map[] && k.watches == map[])
    && k.unclear <= k.watches.Keys
  }

  ghost predicate SpawnedByEngine(k: Kernel) {
    forall i :: i in k.spawned ==>
      && i < |k.forkedBy| && k.engine.Some? && k.engine.value in k.procs
      && k.forkedBy[i] == k.procs[k.engine.value].incarnation
  }

  /** A process spawned for a primitive is, while it holds a pid, a child of the
      engine. */
  ghost predicate SpawnedAreChildren(k: Kernel) {
    forall pid :: pid in k.procs && k.procs[pid].incarnation in k.spawned ==>
      k.engine == Some(k.procs[pid].ppid) && pid != 1
  }

  /** A cleared or unreaped primitive's watch is true: its pid is held by the very
      process spawned for it. */
  ghost predicate WatchesAreTrue(k: Kernel) {
    forall name :: name in k.watches && name !in k.unclear ==>
      var pid := k.watches[name];
      pid in k.procs && k.procs[pid].incarnation in k.spawned && k.spawned[k.procs[pid].incarnation] == name
  }

  /** Whoever holds the pid of an unclear watch was forked after the engine. */
  ghost predicate RecycledAreYounger(k: Kernel) {
    && (forall name :: name in k.watches ==> k.watches[name] > 1)
    && (forall name :: name in k.unclear && name in k.watches && k.watches[name] in k.procs ==>
          k.engine.Some? && k.engine.value in k.procs
          && k.procs[k.watches[name]].incarnation > k.procs[k.engine.value].incarnation)
  }

  ghost predicate TableOk(k: Kernel) {
    && EngineUp(k) && SpawnedByEngine(k) && SpawnedAreChildren(k)
    && WatchesAreTrue(k) && RecycledAreYounger(k)
  }

  ghost predicate Inv(k: Kernel) { Tree(k.procs, k.forkedBy) && Distinct(k.procs) && TableOk(k) }

  lemma {:induction false} DescendsTransitive(f: seq<nat>, i: nat, j: nat, l: nat)
    requires Descends(f, i, j) && Descends(f, j, l)
    ensures Descends(f, i, l)
    decreases i
  {
    if i != j {
      DescendsTransitive(f, f[i], j, l);
    }
  }

  lemma {:induction false} DescendsIsOlder(f: seq<nat>, i: nat, j: nat)
    requires Descends(f, i, j)
    ensures j <= i
    decreases i
  {
    if i != j {
      DescendsIsOlder(f, f[i], j);
    }
  }

  lemma {:induction false} DescendsStays(f: seq<nat>, x: nat, i: nat, j: nat)
    requires i < |f| && Descends(f, i, j)
    ensures Descends(f + [x], i, j)
    decreases i
  {
    if i != j {
      DescendsStays(f, x, f[i], j);
    }
  }

  lemma IncarnationsArePast(procs: map<nat, Proc>, forkedBy: seq<nat>)
    requires Tree(procs, forkedBy)
    ensures forall pid :: pid in procs ==> procs[pid].incarnation < |forkedBy|
  {
    forall pid | pid in procs
      ensures procs[pid].incarnation < |forkedBy|
    {
      assert pid != 1 ==> Attached(procs, forkedBy, procs[pid]);
    }
  }

  lemma ForkAttaches(k: Kernel, parent: nat, pid: nat)
    requires Alive(k, parent) && Unused(k, pid) && k.procs[parent].incarnation < |k.forkedBy|
    ensures var t := Forked(k, parent, pid);
      Attached(t.procs, t.forkedBy, t.procs[pid])
  {
    var t, up := Forked(k, parent, pid), k.procs[parent].incarnation;
    assert t.forkedBy[|k.forkedBy|] == up && Descends(t.forkedBy, up, up);
  }

  lemma ForkKeepsTree(k: Kernel, parent: nat, pid: nat)
    requires Tree(k.procs, k.forkedBy) && Distinct(k.procs) && Alive(k, parent) && Unused(k, pid)
    ensures var t := Forked(k, parent, pid);
      Tree(t.procs, t.forkedBy) && Distinct(t.procs)
  {
    var t := Forked(k, parent, pid);
    IncarnationsArePast(k.procs, k.forkedBy);
    ForkAttaches(k, parent, pid);
    forall q | q in k.procs && q != 1
      ensures Attached(t.procs, t.forkedBy, k.procs[q])
    {
      var p := k.procs[q];
      assert Attached(k.procs, k.forkedBy, p) && p.ppid != pid;
      DescendsStays(k.forkedBy, k.procs[parent].incarnation, p.incarnation, k.procs[p.ppid].incarnation);
    }
    hide Attached, Descends;
  }

  lemma AttachedAfterExit(k: Kernel, pid: nat, reaper: nat, p: Proc)
    requires Enabled(k, Exit(pid, reaper)) && Attached(k.procs, k.forkedBy, p)
    requires k.procs[reaper].incarnation < k.procs[pid].incarnation
    ensures Attached(Orphaned(k.procs, pid, reaper), k.forkedBy, if p.ppid == pid then p.(ppid := reaper) else p)
  {
    if p.ppid == pid {
      DescendsTransitive(k.forkedBy, p.incarnation, k.procs[pid].incarnation, k.procs[reaper].incarnation);
    }
    hide Descends;
  }

  lemma ExitKeepsDistinct(procs: map<nat, Proc>, pid: nat, reaper: nat)
    requires Distinct(procs)
    ensures Distinct(Orphaned(procs, pid, reaper))
  {
  }

  lemma ExitKeepsTree(k: Kernel, pid: nat, reaper: nat)
    requires Tree(k.procs, k.forkedBy) && Enabled(k, Exit(pid, reaper))
    requires k.procs[reaper].incarnation != k.procs[pid].incarnation
    ensures Tree(Orphaned(k.procs, pid, reaper), k.forkedBy)
  {
    var procs := Orphaned(k.procs, pid, reaper);
    DescendsIsOlder(k.forkedBy, k.procs[pid].incarnation, k.procs[reaper].incarnation);
    forall q | q in procs && q != 1
      ensures Attached(procs, k.forkedBy, procs[q])
    {
      assert Attached(k.procs, k.forkedBy, k.procs[q]);
      AttachedAfterExit(k, pid, reaper, k.procs[q]);
    }
    hide Descends, Attached;
  }

  lemma ReapKeepsTree(k: Kernel, pid: nat)
    requires Tree(k.procs, k.forkedBy) && Distinct(k.procs) && pid in k.procs && k.procs[pid].zombie
    ensures Tree(k.procs - {pid}, k.forkedBy) && Distinct(k.procs - {pid})
  {
    forall q | q in k.procs - {pid} && q != 1
      ensures Attached(k.procs - {pid}, k.forkedBy, k.procs[q])
    {
      assert Attached(k.procs, k.forkedBy, k.procs[q]);
    }
  }

  lemma StepKeepsTree(k: Kernel, step: Step)
    requires Inv(k) && Enabled(k, step)
    ensures Tree(Next(k, step).procs, Next(k, step).forkedBy) && Distinct(Next(k, step).procs)
  {
    match step
    case Fork(parent, pid) => ForkKeepsTree(k, parent, pid);
    case SpawnChild(pid, _) => ForkKeepsTree(k, k.engine.value, pid);
    case Exit(pid, reaper) =>
      ExitKeepsTree(k, pid, reaper);
      ExitKeepsDistinct(k.procs, pid, reaper);
    case Reap(pid) => ReapKeepsTree(k, pid);
    case ReapChild(name) => ReapKeepsTree(k, k.watches[name]);
    case _ =>
  }

  lemma ForkKeepsTable(k: Kernel, parent: nat, pid: nat)
    requires Inv(k) && Alive(k, parent) && Unused(k, pid)
    ensures TableOk(Forked(k, parent, pid))
  {
    IncarnationsArePast(k.procs, k.forkedBy);
    hide Tree, Distinct;
  }

  lemma SpawnKeepsTable(k: Kernel, pid: nat, name: string)
    requires Inv(k) && Enabled(k, SpawnChild(pid, name))
    ensures TableOk(Next(k, SpawnChild(pid, name)))
  {
    IncarnationsArePast(k.procs, k.forkedBy);
    ForkKeepsTable(k, k.engine.value, pid);
    hide Tree, Distinct;
  }

  lemma ExitKeepsTable(k: Kernel, pid: nat, reaper: nat)
    requires Inv(k) && Enabled(k, Exit(pid, reaper))
    ensures TableOk(Next(k, Exit(pid, reaper)))
  {
    hide Tree, Distinct, Descends;
  }

  lemma ReapKeepsTable(k: Kernel, step: Step)
    requires Inv(k) && Enabled(k, step) && (step.Reap? || step.ReapChild?)
    ensures TableOk(Next(k, step))
  {
    hide Tree, Descends;
    if step.ReapChild? {
      forall other | other in k.watches && other !in k.unclear && other != step.name
        ensures k.watches[other] != k.watches[step.name]
      {
      }
    }
  }

  lemma WatchStepKeepsTable(k: Kernel, step: Step)
    requires Inv(k) && Enabled(k, step)
    requires step.StartEngine? || step.RecordChild? || step.ClearChild? || step.ForgetChild?
    ensures TableOk(Next(k, step))
  {
    hide Distinct, Descends, Attached;
  }

  lemma StepKeepsInv(k: Kernel, step: Step)
    requires Inv(k) && Enabled(k, step)
    ensures Inv(Next(k, step))
  {
    hide Tree, Distinct, TableOk;
    StepKeepsTree(k, step);
    match step
    case Fork(parent, pid) => ForkKeepsTable(k, parent, pid);
    case SpawnChild(pid, name) => SpawnKeepsTable(k, pid, name);
    case Exit(pid, reaper) => ExitKeepsTable(k, pid, reaper);
    case Reap(_) => ReapKeepsTable(k, step);
    case ReapChild(_) => ReapKeepsTable(k, step);
    case _ => WatchStepKeepsTable(k, step);
  }

  lemma {:induction false} RunKeepsInv(k: Kernel, run: seq<Step>)
    requires Inv(k) && Possible(k, run)
    ensures Inv(After(k, run))
    decreases |run|
  {
    if run != [] {
      StepKeepsInv(k, run[0]);
      RunKeepsInv(Next(k, run[0]), run[1..]);
    }
  }

  lemma BootIsOk()
    ensures Inv(Boot())
  {
  }

  // ---------------------------------------------------------------------
  // Soundness and completeness
  // ---------------------------------------------------------------------

  lemma NothingAboveInit(k: Kernel, hops: nat)
    requires Tree(k.procs, k.forkedBy) && hops > 0 && Hop(ParentsOf(k), 1, hops).Some?
    ensures Hop(ParentsOf(k), 1, hops).value !in k.procs
  {
    assert ParentsOf(k)[1] == 0 && 0 !in ParentsOf(k);
    assert Hop(ParentsOf(k), 1, hops) == Hop(ParentsOf(k), 0, hops - 1);
  }

  /** One hop, taken from anything but init, goes to a live process truly above. */
  lemma HopIsAttached(k: Kernel, pid: nat, hops: nat)
    requires Tree(k.procs, k.forkedBy) && pid in k.procs && hops > 0
    requires Hop(ParentsOf(k), pid, hops).Some? && Hop(ParentsOf(k), pid, hops).value in k.procs
    ensures pid > 1 && Attached(k.procs, k.forkedBy, k.procs[pid])
    ensures Hop(ParentsOf(k), pid, hops) == Hop(ParentsOf(k), k.procs[pid].ppid, hops - 1)
  {
    if pid == 1 {
      NothingAboveInit(k, hops);
    }
    hide Attached;
  }

  /** Hopping up the process table from a process only ever reaches true ancestors. */
  lemma {:induction false} HopsAreAncestors(k: Kernel, pid: nat, hops: nat)
    requires Tree(k.procs, k.forkedBy) && pid in k.procs
    requires Hop(ParentsOf(k), pid, hops).Some? && Hop(ParentsOf(k), pid, hops).value in k.procs
    ensures Descends(k.forkedBy, k.procs[pid].incarnation, k.procs[Hop(ParentsOf(k), pid, hops).value].incarnation)
    decreases hops
  {
    if hops > 0 {
      HopIsAttached(k, pid, hops);
      hide Hop, Tree;
      var up, top := k.procs[pid].ppid, Hop(ParentsOf(k), pid, hops).value;
      HopsAreAncestors(k, up, hops - 1);
      DescendsTransitive(k.forkedBy, k.procs[pid].incarnation, k.procs[up].incarnation, k.procs[top].incarnation);
    }
  }

  /** The process holding pid descends from one the engine spawned for the primitive. */
  ghost predicate DescendsFor(k: Kernel, pid: nat, name: string) {
    && pid in k.procs
    && exists i :: i in k.spawned && k.spawned[i] == name && Descends(k.forkedBy, k.procs[pid].incarnation, i)
  }

  /** What an answer goes through: parents of the peer, up to the primitive's watch. */
  lemma AnswerGoesThroughTheWatch(k: Kernel, children: map<nat, string>, peer: nat, name: string)
    requires Inv(k) && k.engine.Some? && Snapshot(k, children) && peer in k.procs
    requires Resolve(k, children, peer) == Primitive(name)
    ensures name in k.watches && k.watches[name] in k.procs
    ensures Descends(k.forkedBy, k.procs[peer].incarnation, k.procs[k.watches[name]].incarnation)
  {
    var parents := ParentsOf(k);
    ClimbNamesTheNearest(peer, k.engine.value, children, parents, MAX_ANCESTRY_DEPTH, name);
    var hops :| 0 <= hops < MAX_ANCESTRY_DEPTH && Names(peer, hops, k.engine.value, children, parents, name);
    var pid := Hop(parents, peer, hops).value;
    assert pid == k.watches[name] && pid > 1;
    HopsStayHeld(k, peer, hops);
    HopsAreAncestors(k, peer, hops);
  }

  /** Hopping up from a process stays among the processes, or steps off init. */
  lemma {:induction false} HopsStayHeld(k: Kernel, pid: nat, hops: nat)
    requires Tree(k.procs, k.forkedBy) && (pid in k.procs || pid == 0) && Hop(ParentsOf(k), pid, hops).Some?
    ensures Hop(ParentsOf(k), pid, hops).value in k.procs || Hop(ParentsOf(k), pid, hops).value == 0
    decreases hops
  {
    if hops > 0 {
      assert pid in k.procs && (pid != 1 ==> Attached(k.procs, k.forkedBy, k.procs[pid]));
      HopsStayHeld(k, k.procs[pid].ppid, hops - 1);
    }
  }

  /** A named peer is a primitive: in every reachable kernel, pids recycled or not,
      where the walk answers a primitive that is not between the reaping of its child
      and the clearing of its watch, the process now holding the peer's pid truly
      descends from the unreaped process the engine spawned for that primitive. */
  lemma NamedPeersAreTrue(run: seq<Step>, children: map<nat, string>, peer: nat, name: string) returns (child: nat)
    requires Possible(Boot(), run) && After(Boot(), run).engine.Some? && peer in After(Boot(), run).procs
    requires Snapshot(After(Boot(), run), children) && Resolve(After(Boot(), run), children, peer) == Primitive(name)
    requires name !in After(Boot(), run).unclear
    ensures var k := After(Boot(), run);
      && child in k.procs && k.procs[child].incarnation in k.spawned
      && k.spawned[k.procs[child].incarnation] == name
      && Descends(k.forkedBy, k.procs[peer].incarnation, k.procs[child].incarnation)
  {
    BootIsOk();
    RunKeepsInv(Boot(), run);
    var k := After(Boot(), run);
    AnswerGoesThroughTheWatch(k, children, peer, name);
    child := k.watches[name];
  }

  lemma {:induction false} AncestorsAreInLine(f: seq<nat>, i: nat, j: nat, l: nat)
    requires Descends(f, i, j) && Descends(f, i, l)
    ensures Descends(f, j, l) || Descends(f, l, j)
    decreases i
  {
    if i != j && i != l {
      AncestorsAreInLine(f, f[i], j, l);
    }
  }

  /** A descendant of the holder of an unclear watch's pid descends from a process
      spawned for the primitive only if the holder does: no spawned process can stand
      between the two, since its parent is the engine. */
  lemma StrangersHaveNoPrimitivesBelow(k: Kernel, peer: nat, name: string)
    requires Inv(k) && name in k.unclear && k.watches[name] in k.procs && DescendsFor(k, peer, name)
    requires Descends(k.forkedBy, k.procs[peer].incarnation, k.procs[k.watches[name]].incarnation)
    ensures DescendsFor(k, k.watches[name], name)
  {
    var up := k.procs[k.watches[name]].incarnation;
    var i :| i in k.spawned && k.spawned[i] == name && Descends(k.forkedBy, k.procs[peer].incarnation, i);
    AncestorsAreInLine(k.forkedBy, k.procs[peer].incarnation, i, up);
    if !Descends(k.forkedBy, up, i) {
      assert i != up && Descends(k.forkedBy, k.forkedBy[i], up);
      DescendsIsOlder(k.forkedBy, k.forkedBy[i], up);
    }
  }

  lemma DescendantsFollow(k: Kernel, peer: nat, above: nat, name: string)
    requires peer in k.procs && DescendsFor(k, above, name)
    requires Descends(k.forkedBy, k.procs[peer].incarnation, k.procs[above].incarnation)
    ensures DescendsFor(k, peer, name)
  {
    var i :| i in k.spawned && k.spawned[i] == name && Descends(k.forkedBy, k.procs[above].incarnation, i);
    DescendsTransitive(k.forkedBy, k.procs[peer].incarnation, k.procs[above].incarnation, i);
  }

  /** In every reachable kernel, an answer about a process is true exactly when the
      watch it goes through is not reaped and uncleared, or its pid is not held by a
      stranger to the primitive. */
  lemma AnswerIsTrueExactly(run: seq<Step>, children: map<nat, string>, peer: nat, name: string)
    requires Possible(Boot(), run) && After(Boot(), run).engine.Some? && peer in After(Boot(), run).procs
    requires Snapshot(After(Boot(), run), children) && Resolve(After(Boot(), run), children, peer) == Primitive(name)
    ensures var k := After(Boot(), run);
      && name in k.watches
      && (DescendsFor(k, peer, name) <==> name !in k.unclear || DescendsFor(k, k.watches[name], name))
  {
    BootIsOk();
    RunKeepsInv(Boot(), run);
    var k := After(Boot(), run);
    AnswerGoesThroughTheWatch(k, children, peer, name);
    if name !in k.unclear {
      assert Descends(k.forkedBy, k.procs[peer].incarnation, k.procs[k.watches[name]].incarnation);
    } else if DescendsFor(k, peer, name) {
      StrangersHaveNoPrimitivesBelow(k, peer, name);
    } else if DescendsFor(k, k.watches[name], name) {
      DescendantsFollow(k, peer, k.watches[name], name);
    }
  }

  /** Every answer about a process, from whatever table the watches give, is true. */
  ghost predicate AnswersAreTrue(k: Kernel)
    requires k.engine.Some?
  {
    forall children, peer, name ::
      Snapshot(k, children) && peer in k.procs && Resolve(k, children, peer) == Primitive(name) ==>
        DescendsFor(k, peer, name)
  }

  /** No unclear watch's pid is held by a stranger to its primitive. */
  ghost predicate NoStrangerHoldsAWatch(k: Kernel) {
    forall name :: name in k.unclear && name in k.watches && k.watches[name] in k.procs ==>
      DescendsFor(k, k.watches[name], name)
  }

  lemma SnapshotNaming(k: Kernel, name: string) returns (children: map<nat, string>)
    requires name in k.watches
    ensures Snapshot(k, children) && children[k.watches[name]] == name
  {
    children := map pid | pid in k.watches.Values :: var n :| n in k.watches && k.watches[n] == pid; n;
    children := children[k.watches[name] := name];
    forall n | n in k.watches
      ensures k.watches[n] in children
    {
      assert k.watches[n] in k.watches.Values;
    }
  }

  /** A reachable kernel answers truly exactly when no watch that is reaped and not
      cleared names a pid that has gone to a stranger. */
  lemma AnswersAreTrueExactly(run: seq<Step>)
    requires Possible(Boot(), run) && After(Boot(), run).engine.Some?
    ensures AnswersAreTrue(After(Boot(), run)) <==> NoStrangerHoldsAWatch(After(Boot(), run))
  {
    var k := After(Boot(), run);
    if NoStrangerHoldsAWatch(k) {
      forall children, peer, name |
        Snapshot(k, children) && peer in k.procs && Resolve(k, children, peer) == Primitive(name)
        ensures DescendsFor(k, peer, name)
      {
        AnswerIsTrueExactly(run, children, peer, name);
        BootIsOk();
        RunKeepsInv(Boot(), run);
        AnswerGoesThroughTheWatch(k, children, peer, name);
      }
    }
    if AnswersAreTrue(k) {
      forall name | name in k.unclear && name in k.watches && k.watches[name] in k.procs
        ensures DescendsFor(k, k.watches[name], name)
      {
        var children := SnapshotNaming(k, name);
        assert Resolve(k, children, k.watches[name]) == Primitive(name);
      }
    }
  }

  // ---------------------------------------------------------------------
  // The window between reaping and clearing
  // ---------------------------------------------------------------------

  lemma {:induction false} OneMoreStep(k: Kernel, run: seq<Step>, step: Step)
    requires Possible(k, run) && Enabled(After(k, run), step)
    ensures Possible(k, run + [step]) && After(k, run + [step]) == Next(After(k, run), step)
    decreases |run|
  {
    hide Enabled, Next;
    if run == [] {
      var last := run + [step];
      assert last[1..] == [] && Possible(Next(k, step), []);
    } else {
      assert (run + [step])[1..] == run[1..] + [step];
      OneMoreStep(Next(k, run[0]), run[1..], step);
    }
  }

  /** The kernel once the engine, pid 2, has spawned and recorded pid 3. */
  function Recorded(name: string): Kernel {
    Kernel(map[1 := Proc(0, 0, false), 2 := Proc(1, 1, false), 3 := Proc(2, 2, false)], [0, 0, 1],
           Some(2), map[2 := name], map[name := 3], {})
  }

  lemma RecordedIsReached(name: string) returns (run: seq<Step>)
    ensures Possible(Boot(), run) && After(Boot(), run) == Recorded(name)
  {
    OneMoreStep(Boot(), [], Fork(1, 2));
    run := [] + [Fork(1, 2)];
    OneMoreStep(Boot(), run, StartEngine(2));
    run := run + [StartEngine(2)];
    OneMoreStep(Boot(), run, SpawnChild(3, name));
    run := run + [SpawnChild(3, name)];
    assert After(Boot(), run).forkedBy == [0, 0, 1] && After(Boot(), run).spawned == map[2 := name];
    OneMoreStep(Boot(), run, RecordChild(3));
    run := run + [RecordChild(3)];
  }

  /** The window is real: a child is spawned, recorded and exits, is reaped, and
      before its watch is cleared init forks a process under its pid. The walk then
      names that process after the primitive, to which it is a stranger. */
  lemma RecycledPidIsNamed(name: string) returns (run: seq<Step>, children: map<nat, string>)
    ensures Possible(Boot(), run)
    ensures var k := After(Boot(), run);
      && k.engine == Some(2) && Snapshot(k, children) && 3 in k.procs && k.procs[3].ppid == 1
      && Resolve(k, children, 3) == Primitive(name) && !DescendsFor(k, 3, name)
  {
    children := map[3 := name];
    run := RecordedIsReached(name);
    assert Descends([0, 0, 1], 2, 0);
    OneMoreStep(Boot(), run, Exit(3, 1));
    run := run + [Exit(3, 1)];
    OneMoreStep(Boot(), run, ReapChild(name));
    run := run + [ReapChild(name)];
    OneMoreStep(Boot(), run, Fork(1, 3));
    run := run + [Fork(1, 3)];
    var k := After(Boot(), run);
    assert k.forkedBy == [0, 0, 1, 0] && k.spawned == map[2 := name] && k.procs[3].incarnation == 3;
    assert !Descends(k.forkedBy, 3, 2);
  }

  // ---------------------------------------------------------------------
  // Unrecorded children
  // ---------------------------------------------------------------------

  /** The k-th ancestor is the engine, it and everything below it is unrecorded, and
      nothing below it is init. */
  ghost predicate ReachesEngine(pid: nat, k: nat, engine: nat, children: map<nat, string>, parents: Parents) {
    && Hop(parents, pid, k) == Some(engine) && engine !in children
    && forall j :: 0 <= j < k ==>
         Hop(parents, pid, j).Some? && Hop(parents, pid, j).value !in children && Hop(parents, pid, j).value > 1
  }

  lemma ReachesEngineUp(pid: nat, k: nat, engine: nat, children: map<nat, string>, parents: Parents)
    requires pid in parents && pid !in children && pid > 1
    ensures ReachesEngine(parents[pid], k, engine, children, parents)
       <==> ReachesEngine(pid, k + 1, engine, children, parents)
  {
    forall j | 0 <= j
      ensures Hop(parents, pid, j + 1) == Hop(parents, parents[pid], j)
    {
    }
    if ReachesEngine(parents[pid], k, engine, children, parents) {
      forall j | 0 <= j < k + 1
        ensures Hop(parents, pid, j).Some? && Hop(parents, pid, j).value !in children
             && Hop(parents, pid, j).value > 1
      {
        if j > 0 {
          assert Hop(parents, pid, j) == Hop(parents, parents[pid], j - 1);
        }
      }
    } else if ReachesEngine(pid, k + 1, engine, children, parents) {
      forall j | 0 <= j < k
        ensures Hop(parents, parents[pid], j).Some? && Hop(parents, parents[pid], j).value !in children
             && Hop(parents, parents[pid], j).value > 1
      {
        assert Hop(parents, pid, j + 1) == Hop(parents, parents[pid], j);
      }
    }
  }

  /** Exactly when a walk answers an unrecorded child: it reaches the engine, itself
      unrecorded, fewer than `steps` parents up, with nothing recorded, nor init, nor a
      gap below it. */
  lemma {:induction false} ClimbReachesTheEngine(pid: nat, engine: nat, children: map<nat, string>, parents: Parents,
                                                steps: nat)
    ensures Climb(pid, engine, children, parents, steps) == UnrecordedChild
       <==> exists k :: 0 <= k < steps && ReachesEngine(pid, k, engine, children, parents)
    decreases steps
  {
    assert Hop(parents, pid, 0) == Some(pid);
    if steps == 0 {
    } else if pid in children {
      assert forall k :: k >= 0 ==> !ReachesEngine(pid, k, engine, children, parents);
    } else if pid == engine {
      assert ReachesEngine(pid, 0, engine, children, parents);
    } else if pid <= 1 || pid !in parents {
      assert forall k :: k >= 0 ==> !ReachesEngine(pid, k, engine, children, parents);
    } else {
      ClimbReachesTheEngine(parents[pid], engine, children, parents, steps - 1);
      var up := parents[pid];
      if k :| 0 <= k < steps - 1 && ReachesEngine(up, k, engine, children, parents) {
        ReachesEngineUp(pid, k, engine, children, parents);
      }
      if k :| 0 <= k < steps && ReachesEngine(pid, k, engine, children, parents) {
        assert k > 0;
        ReachesEngineUp(pid, k - 1, engine, children, parents);
      }
    }
  }

  /** The engine is `hops` parents up from the peer, and no pid on the way, the
      engine's included, is recorded. */
  ghost predicate UnrecordedChain(k: Kernel, children: map<nat, string>, peer: nat, hops: nat) {
    && Hop(ParentsOf(k), peer, hops).Some? && Hop(ParentsOf(k), peer, hops) == k.engine
    && forall j :: 0 <= j <= hops && Hop(ParentsOf(k), peer, j).Some? ==>
         Hop(ParentsOf(k), peer, j).value !in children
  }

  /** A pid below another held one is not init, and neither is any between. */
  lemma {:induction false} ChainIsAboveInit(k: Kernel, pid: nat, hops: nat, j: nat)
    requires Tree(k.procs, k.forkedBy) && j < hops && Hop(ParentsOf(k), pid, hops).Some?
    requires Hop(ParentsOf(k), pid, hops).value in k.procs
    ensures Hop(ParentsOf(k), pid, j).Some? && Hop(ParentsOf(k), pid, j).value > 1
    decreases hops
  {
    assert pid in ParentsOf(k);
    HopIsAttached(k, pid, hops);
    if j > 0 {
      ChainIsAboveInit(k, k.procs[pid].ppid, hops - 1, j - 1);
    }
  }

  /** In every reachable kernel, exactly when a peer is answered as an unrecorded child,
      and so is worth another look: its parents lead, fewer than sixteen up, to the
      engine, and none of them is recorded. */
  lemma UnrecordedExactly(run: seq<Step>, children: map<nat, string>, peer: nat)
    requires Possible(Boot(), run) && After(Boot(), run).engine.Some?
    ensures Resolve(After(Boot(), run), children, peer) == UnrecordedChild
       <==> exists hops :: 0 <= hops < 16 && UnrecordedChain(After(Boot(), run), children, peer, hops)
  {
    BootIsOk();
    RunKeepsInv(Boot(), run);
    var k := After(Boot(), run);
    var parents, engine := ParentsOf(k), k.engine.value;
    ClimbReachesTheEngine(peer, engine, children, parents, 16);
    hide Climb, Hop;
    if hops :| 0 <= hops < 16 && ReachesEngine(peer, hops, engine, children, parents) {
      assert UnrecordedChain(k, children, peer, hops);
    }
    if hops :| 0 <= hops < 16 && UnrecordedChain(k, children, peer, hops) {
      forall j | 0 <= j < hops
        ensures Hop(parents, peer, j).Some? && Hop(parents, peer, j).value > 1
      {
        ChainIsAboveInit(k, peer, hops, j);
      }
      assert ReachesEngine(peer, hops, engine, children, parents);
    }
  }

  lemma EngineIsNotRecorded(k: Kernel, children: map<nat, string>)
    requires Inv(k) && k.engine.Some? && Snapshot(k, children)
    ensures k.engine.value !in children
  {
    forall name | name in k.watches
      ensures k.watches[name] != k.engine.value
    {
      if name !in k.unclear {
        assert Attached(k.procs, k.forkedBy, k.procs[k.watches[name]]);
      }
    }
  }

  /** A process the engine spawned for a primitive, and has not recorded yet, is never
      taken for a stranger: the walk asks for another look. */
  lemma FreshChildIsUnrecorded(run: seq<Step>, children: map<nat, string>, peer: nat)
    requires Possible(Boot(), run) && After(Boot(), run).engine.Some? && Snapshot(After(Boot(), run), children)
    requires var k := After(Boot(), run);
      peer in k.procs && k.procs[peer].incarnation in k.spawned && peer !in children
    ensures Resolve(After(Boot(), run), children, peer) == UnrecordedChild
  {
    BootIsOk();
    RunKeepsInv(Boot(), run);
    var k := After(Boot(), run);
    EngineIsNotRecorded(k, children);
    var parents := ParentsOf(k);
    assert Hop(parents, peer, 0) == Some(peer) && Hop(parents, k.engine.value, 0) == k.engine;
    assert Hop(parents, peer, 1) == Hop(parents, k.engine.value, 0);
    assert UnrecordedChain(k, children, peer, 1);
    UnrecordedExactly(run, children, peer);
  }

  /** Only a peer inside the engine's own process tree is worth another look. */
  lemma UnrecordedPeersAreInside(run: seq<Step>, children: map<nat, string>, peer: nat)
    requires Possible(Boot(), run) && After(Boot(), run).engine.Some?
    requires Resolve(After(Boot(), run), children, peer) == UnrecordedChild
    ensures var k := After(Boot(), run);
      && peer in k.procs && k.engine.value in k.procs
      && Descends(k.forkedBy, k.procs[peer].incarnation, k.procs[k.engine.value].incarnation)
  {
    BootIsOk();
    RunKeepsInv(Boot(), run);
    var k := After(Boot(), run);
    UnrecordedExactly(run, children, peer);
    hide Resolve;
    var hops :| 0 <= hops < 16 && UnrecordedChain(k, children, peer, hops);
    assert hops > 0 ==> peer in ParentsOf(k);
    HopsAreAncestors(k, peer, hops);
  }

  // ---------------------------------------------------------------------
  // Completeness
  // ---------------------------------------------------------------------

  /** The pid is that of a watch that is reaped and not cleared. */
  ghost predicate IsUnclear(k: Kernel, pid: nat) {
    exists name :: name in k.unclear && name in k.watches && k.watches[name] == pid
  }

  /** No parent below the given hop has the pid of an unclear watch. */
  ghost predicate ClearBelow(k: Kernel, pid: nat, hops: nat) {
    forall j :: 0 <= j < hops && Hop(ParentsOf(k), pid, j).Some? ==> !IsUnclear(k, Hop(ParentsOf(k), pid, j).value)
  }

  /** What is younger than a true recorded child is neither engine nor init, and not
      truly recorded itself. */
  lemma YoungerIsPassedOver(k: Kernel, children: map<nat, string>, pid: nat, name: string)
    requires Inv(k) && k.engine.Some? && Snapshot(k, children) && pid in k.procs && pid > 1
    requires name in k.watches && name !in k.unclear
    requires k.procs[pid].ppid in k.procs
    requires k.procs[pid].incarnation > k.procs[k.watches[name]].incarnation
    requires k.procs[k.procs[pid].ppid].incarnation >= k.procs[k.watches[name]].incarnation
    ensures pid in children <==> IsUnclear(k, pid)
    ensures pid !in children ==> PassedOver(pid, k.engine.value, children)
  {
    var child := k.watches[name];
    assert Attached(k.procs, k.forkedBy, k.procs[child]);
    assert k.engine == Some(k.procs[child].ppid);
    hide Attached;
  }

  lemma ClearBelowUp(k: Kernel, pid: nat, hops: nat)
    requires pid in k.procs && hops > 0 && !IsUnclear(k, pid)
    ensures ClearBelow(k, pid, hops) <==> ClearBelow(k, k.procs[pid].ppid, hops - 1)
  {
    var parents, up := ParentsOf(k), k.procs[pid].ppid;
    forall j | 0 < j
      ensures Hop(parents, pid, j) == Hop(parents, up, j - 1)
    {
    }
    hide IsUnclear;
    if ClearBelow(k, pid, hops) {
      forall j | 0 <= j < hops - 1 && Hop(parents, up, j).Some?
        ensures !IsUnclear(k, Hop(parents, up, j).value)
      {
        assert Hop(parents, pid, j + 1) == Hop(parents, up, j);
      }
    }
  }

  lemma {:induction false} ChainIsNamed(k: Kernel, children: map<nat, string>, pid: nat, hops: nat, steps: nat)
    requires Inv(k) && k.engine.Some? && Snapshot(k, children) && hops < steps
    requires Hop(ParentsOf(k), pid, hops).Some? && Hop(ParentsOf(k), pid, hops).value in children
    requires children[Hop(ParentsOf(k), pid, hops).value] !in k.unclear
    ensures Climb(pid, k.engine.value, children, ParentsOf(k), steps)
            == Primitive(children[Hop(ParentsOf(k), pid, hops).value])
       <==> ClearBelow(k, pid, hops)
    decreases hops
  {
    if hops > 0 {
      var name := children[Hop(ParentsOf(k), pid, hops).value];
      assert pid in ParentsOf(k);
      HopIsAttached(k, pid, hops);
      ChainIsYounger(k, pid, hops, name);
      YoungerIsPassedOver(k, children, pid, name);
      if pid in children {
        assert Hop(ParentsOf(k), pid, 0) == Some(pid) && children[pid] != name;
      } else {
        ClearBelowUp(k, pid, hops);
        hide Inv, Hop, ClearBelow, IsUnclear;
        ChainIsNamed(k, children, k.procs[pid].ppid, hops - 1, steps - 1);
      }
    }
  }

  lemma ChainIsYounger(k: Kernel, pid: nat, hops: nat, name: string)
    requires Inv(k) && hops > 0 && pid in k.procs && name in k.watches && name !in k.unclear
    requires Hop(ParentsOf(k), pid, hops) == Some(k.watches[name])
    ensures pid > 1 && k.procs[pid].ppid in k.procs && k.watches[name] in k.procs
    ensures k.procs[pid].incarnation > k.procs[k.procs[pid].ppid].incarnation >= k.procs[k.watches[name]].incarnation
  {
    HopIsAttached(k, pid, hops);
    hide Hop;
    var up := k.procs[pid].ppid;
    HopsAreAncestors(k, up, hops - 1);
    DescendsIsOlder(k.forkedBy, k.procs[up].incarnation, k.procs[k.watches[name]].incarnation);
  }

  /** An unbroken chain is named: where hopping fewer than sixteen parents up reaches
      a recorded child whose watch is not waiting to be cleared, the walk answers that
      child's primitive, exactly when no unclear watch's pid lies below it. */
  lemma UnbrokenChainsAreNamed(run: seq<Step>, children: map<nat, string>, peer: nat, hops: nat)
    requires Possible(Boot(), run) && After(Boot(), run).engine.Some? && Snapshot(After(Boot(), run), children)
    requires var k := After(Boot(), run);
      && hops < MAX_ANCESTRY_DEPTH && Hop(ParentsOf(k), peer, hops).Some?
      && Hop(ParentsOf(k), peer, hops).value in children
      && children[Hop(ParentsOf(k), peer, hops).value] !in k.unclear
    ensures var k := After(Boot(), run);
      var name := children[Hop(ParentsOf(k), peer, hops).value];
      Resolve(k, children, peer) == Primitive(name) <==> ClearBelow(k, peer, hops)
  {
    BootIsOk();
    RunKeepsInv(Boot(), run);
    ChainIsNamed(After(Boot(), run), children, peer, hops, MAX_ANCESTRY_DEPTH);
  }
}
