/** The topology answer: the same list for the same primitives, however the process
    manager happened to collect them. */
module Topology {
  import opened Options
  import opened PrimitiveActor
  import opened Sorting

  datatype Kind = Source | Handler | Sink

  datatype Info = Info(name: string, kind: Kind, state: PrimitiveState, publishes: seq<string>,
                       subscribes: seq<string>, pid: Option<nat>, error: Option<string>)

  datatype Row = Row(name: string, kind: string, state: string, publishes: seq<string>,
                     subscribes: seq<string>, pid: Option<nat>, error: Option<string>)

  function EnginePrimitive(enginePid: nat): Row {
    Row("emergent-engine", "source", "running",
        ["system.started.*", "system.stopped.*", "system.error.*", "system.shutdown"], [], Some(enginePid), None)
  }

  function KindRank(kind: Kind): nat {
    match kind
    case Source => 0
    case Handler => 1
    case Sink => 2
  }

  function KindText(kind: Kind): string {
    match kind
    case Source => "source"
    case Handler => "handler"
    case Sink => "sink"
  }

  function StateText(state: PrimitiveState): string {
    match state
    case Configured => "configured"
    case Starting => "starting"
    case Running => "running"
    case Stopping => "stopping"
    case Stopped => "stopped"
    case Failed => "failed"
  }

  /** The comparison: by kind in data-flow order, then by name. */
  predicate InfoLeq(a: Info, b: Info) {
    KindRank(a.kind) < KindRank(b.kind) || (a.kind == b.kind && StringLeq(a.name, b.name))
  }

  function ToRow(p: Info): Row {
    Row(p.name, KindText(p.kind), StateText(p.state), p.publishes, p.subscribes, p.pid, p.error)
  }

  function Rows(ps: seq<Info>): seq<Row> { seq(|ps|, i requires 0 <= i < |ps| => ToRow(ps[i])) }

  function Payload(enginePid: nat, primitives: seq<Info>): seq<Row> {
    [EnginePrimitive(enginePid)] + Rows(Sort(primitives, InfoLeq))
  }

  method BuildTopologyPayload(enginePid: nat, primitives: seq<Info>) returns (out: seq<Row>)
    ensures out == Payload(enginePid, primitives)
  {
    var sorted := Sort(primitives, InfoLeq);
    out := [EnginePrimitive(enginePid)];
    for i := 0 to |sorted|
      invariant out == [EnginePrimitive(enginePid)] + Rows(sorted[..i])
    {
      assert Rows(sorted[..i + 1]) == Rows(sorted[..i]) + [ToRow(sorted[i])];
      out := out + [ToRow(sorted[i])];
    }
    assert sorted[..|sorted|] == sorted;
  }

  ghost predicate UniquelyNamed(primitives: seq<Info>) {
    forall i, j :: 0 <= i < j < |primitives| ==> primitives[i].name != primitives[j].name
  }

  lemma InfosAreOrdered()
    ensures Preorder(InfoLeq)
  {
    StringsAreOrdered();
    hide StringLeq;
  }

  lemma UniqueNamesLeaveNoTies(primitives: seq<Info>)
    requires UniquelyNamed(primitives)
    ensures NoTies(primitives, InfoLeq)
  {
    StringsAreOrdered();
    hide StringLeq;
    forall a, b | a in primitives && b in primitives && InfoLeq(a, b) && InfoLeq(b, a)
      ensures a == b
    {
      var i :| 0 <= i < |primitives| && primitives[i] == a;
      var j :| 0 <= j < |primitives| && primitives[j] == b;
      assert a.name == b.name;
    }
  }

  /** Two collections of the same uniquely named primitives, in whatever order, give
      the same answer. */
  lemma PayloadIsCanonical(enginePid: nat, a: seq<Info>, b: seq<Info>)
    requires UniquelyNamed(a) && multiset(a) == multiset(b)
    ensures Payload(enginePid, a) == Payload(enginePid, b)
  {
    InfosAreOrdered();
    SortSorts(a, InfoLeq);
    SortSorts(b, InfoLeq);
    UniqueNamesLeaveNoTies(a);
    SameElements(a, Sort(a, InfoLeq));
    AscendingIsUnique(Sort(a, InfoLeq), Sort(b, InfoLeq), InfoLeq);
  }

  lemma SameElements<T>(a: seq<T>, b: seq<T>)
    requires multiset(a) == multiset(b)
    ensures forall x :: x in b <==> x in a
  {
    assert forall x :: x in a <==> x in multiset(a);
    assert forall x :: x in b <==> x in multiset(b);
  }

  lemma SortKeepsEveryPrimitive(primitives: seq<Info>)
    ensures var sorted := Sort(primitives, InfoLeq);
      multiset(sorted) == multiset(primitives) && |sorted| == |primitives| && Ascending(sorted, InfoLeq)
  {
    InfosAreOrdered();
    SortSorts(primitives, InfoLeq);
    hide Sort, InfoLeq, Preorder, Ascending;
    var sorted := Sort(primitives, InfoLeq);
    assert |sorted| == |multiset(sorted)| == |multiset(primitives)| == |primitives|;
  }

  /** The row shows the primitive: its own fields, and the words for its kind and state. */
  predicate Shows(row: Row, p: Info) {
    && row.name == p.name && row.publishes == p.publishes && row.subscribes == p.subscribes
    && row.pid == p.pid && row.error == p.error
    && row.kind == (match p.kind case Source => "source" case Handler => "handler" case Sink => "sink")
    && row.state == (match p.state
                     case Configured => "configured" case Starting => "starting" case Running => "running"
                     case Stopping => "stopping" case Stopped => "stopped" case Failed => "failed")
  }

  /** Sources before handlers before sinks, and by name within a kind. */
  ghost predicate ComesBefore(a: Info, b: Info) {
    || (a.kind == b.kind && StringLeq(a.name, b.name))
    || (a.kind == Source && b.kind != Source)
    || (a.kind == Handler && b.kind == Sink)
  }

  /** The engine comes first, then one row per primitive and nothing else: sources,
      handlers and sinks, each by name. */
  lemma PayloadListsEveryPrimitive(enginePid: nat, primitives: seq<Info>) returns (sorted: seq<Info>)
    ensures multiset(sorted) == multiset(primitives)
    ensures forall i, j :: 0 <= i < j < |sorted| ==> ComesBefore(sorted[i], sorted[j])
    ensures var out := Payload(enginePid, primitives);
      && |out| == |primitives| + 1 == |sorted| + 1
      && out[0] == Row("emergent-engine", "source", "running",
                       ["system.started.*", "system.stopped.*", "system.error.*", "system.shutdown"], [],
                       Some(enginePid), None)
      && forall i :: 0 <= i < |sorted| ==> Shows(out[i + 1], sorted[i])
  {
    SortKeepsEveryPrimitive(primitives);
    sorted := Sort(primitives, InfoLeq);
    hide Sort;
    forall i, j | 0 <= i < j < |sorted|
      ensures ComesBefore(sorted[i], sorted[j])
    {
      assert InfoLeq(sorted[i], sorted[j]);
    }
  }
}
