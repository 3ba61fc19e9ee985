/** The connections held for each primitive, so that they can be closed when its
    child exits. */
module Registry {
  import opened Options

  const MAX_CONNECTIONS_PER_PRIMITIVE: nat := 64

  // ---------------------------------------------------------------------
  // One primitive's ids
  // ---------------------------------------------------------------------

  /** The ids after one more connection, and the id evicted to make room. */
  function Remember(ids: seq<nat>, id: nat, cap: nat): (seq<nat>, Option<nat>) {
    if id in ids then (ids, None)
    else if cap > 0 && |ids| >= cap then (ids[1..] + [id], Some(ids[0]))
    else (ids + [id], None)
  }

  ghost predicate Distinct(ids: seq<nat>) {
    forall i, j :: 0 <= i < j < |ids| ==> ids[i] != ids[j]
  }

  function Last(ids: seq<nat>, n: nat): (r: seq<nat>)
    ensures |r| == if |ids| <= n then |ids| else n
  {
    if |ids| <= n then ids else ids[|ids| - n..]
  }

  /** Remembering a fresh id keeps the last `cap` ids, and evicts the oldest. */
  lemma RememberKeepsTheLast(ids: seq<nat>, id: nat, cap: nat)
    requires cap > 0 && id !in Last(ids, cap)
    ensures var (kept, evicted) := Remember(Last(ids, cap), id, cap);
      && kept == Last(ids + [id], cap)
      && (if |ids| < cap then evicted == None else evicted == Some(ids[|ids| - cap]))
  {
  }

  lemma RememberKeepsDistinct(ids: seq<nat>, id: nat, cap: nat)
    requires Distinct(ids) && cap > 0 && |ids| <= cap
    ensures Distinct(Remember(ids, id, cap).0) && |Remember(ids, id, cap).0| <= cap
  {
  }

  // ---------------------------------------------------------------------
  // All primitives, over whole runs
  // ---------------------------------------------------------------------

  type Table = map<string, seq<nat>>

  /** What the registry is told: a connection was admitted, as a primitive or as
      nobody the engine knows; a primitive's child is gone. */
  datatype Event = Admitted(name: Option<string>, id: nat) | ChildGone(gone: string)

  function Held(t: Table, name: string): seq<nat> { if name in t then t[name] else [] }

  function OnEvent(t: Table, e: Event): Table {
    match e
    case Admitted(None, _) => t
    case Admitted(Some(name), id) => t[name := Remember(Held(t, name), id, MAX_CONNECTIONS_PER_PRIMITIVE).0]
    case ChildGone(name) => t - {name}
  }

  function After(events: seq<Event>): Table {
    if events == [] then map[] else OnEvent(After(events[..|events| - 1]), events[|events| - 1])
  }

  /** The ids admitted as a primitive since its child last went. */
  function Since(events: seq<Event>, name: string): seq<nat> {
    if events == [] then []
    else
      var before := Since(events[..|events| - 1], name);
      match events[|events| - 1]
      case Admitted(n, id) => if n == Some(name) then before + [id] else before
      case ChildGone(n) => if n == name then [] else before
  }

  /** Each connection is admitted once. */
  ghost predicate FreshIds(events: seq<Event>) {
    forall i, j :: 0 <= i < j < |events| && events[i].Admitted? && events[j].Admitted? ==> events[i].id != events[j].id
  }

  lemma {:induction false} SinceWereAdmitted(events: seq<Event>, name: string, id: nat)
    requires forall i :: 0 <= i < |events| && events[i].Admitted? ==> events[i].id != id
    ensures id !in Since(events, name)
  {
    if events != [] {
      SinceWereAdmitted(events[..|events| - 1], name, id);
    }
  }

  lemma {:induction false} HeldAreTheLastSince(events: seq<Event>, name: string)
    requires FreshIds(events)
    ensures Held(After(events), name) == Last(Since(events, name), MAX_CONNECTIONS_PER_PRIMITIVE)
    ensures Distinct(Since(events, name))
  {
    if events != [] {
      var most, e := events[..|events| - 1], events[|events| - 1];
      HeldAreTheLastSince(most, name);
      if e.Admitted? && e.name == Some(name) {
        var ids := Since(most, name);
        SinceWereAdmitted(most, name, e.id);
        RememberKeepsTheLast(ids, e.id, MAX_CONNECTIONS_PER_PRIMITIVE);
      }
    }
  }

  /** Over every run, a primitive holds exactly the last 64 ids admitted as it since
      its child last went, in order and without repeats. */
  lemma HeldAreTheLastAdmitted(events: seq<Event>, name: string)
    requires FreshIds(events)
    ensures var ids := Since(events, name);
      Distinct(ids) && Held(After(events), name) == if |ids| <= 64 then ids else ids[|ids| - 64..]
  {
    HeldAreTheLastSince(events, name);
    hide Since, After, Held, Distinct;
  }

  /** Even where an id is admitted again, no primitive holds one twice or more than
      64 of them. */
  ghost predicate Bounded(t: Table) {
    forall name :: name in t ==> Distinct(t[name]) && |t[name]| <= 64
  }

  lemma {:induction false} HeldStayBounded(events: seq<Event>)
    ensures Bounded(After(events))
  {
    if events != [] {
      var t, e := After(events[..|events| - 1]), events[|events| - 1];
      HeldStayBounded(events[..|events| - 1]);
      EventKeepsBounded(t, e);
    }
  }

  lemma EventKeepsBounded(t: Table, e: Event)
    requires Bounded(t)
    ensures Bounded(OnEvent(t, e))
  {
    if e.Admitted? && e.name.Some? {
      RememberKeepsDistinct(Held(t, e.name.value), e.id, MAX_CONNECTIONS_PER_PRIMITIVE);
    }
  }

  /** An event about one primitive leaves what every other one holds. */
  lemma EventsKeepToTheirPrimitive(t: Table, e: Event, other: string)
    requires if e.Admitted? then e.name != Some(other) else e.gone != other
    ensures Held(OnEvent(t, e), other) == Held(t, other)
  {
  }

  /** No connection is held for two primitives. */
  ghost predicate Disjoint(t: Table) {
    forall a, b, id :: id in Held(t, a) && id in Held(t, b) ==> a == b
  }

  lemma {:induction false} SinceNamesItsPrimitive(events: seq<Event>, name: string, id: nat) returns (i: nat)
    requires id in Since(events, name)
    ensures i < |events| && events[i] == Admitted(Some(name), id)
  {
    var n := |events| - 1;
    if events[n] == Admitted(Some(name), id) {
      return n;
    }
    i := SinceNamesItsPrimitive(events[..n], name, id);
    assert events[..n][i] == events[i];
  }

  lemma OnePrimitiveSince(events: seq<Event>, a: string, b: string, id: nat)
    requires FreshIds(events) && id in Since(events, a) && id in Since(events, b)
    ensures a == b
  {
    var i := SinceNamesItsPrimitive(events, a, id);
    var j := SinceNamesItsPrimitive(events, b, id);
    assert i == j;
  }

  /** As connection ids are fresh, no primitive ever holds another's connection. */
  lemma HeldAreDisjoint(events: seq<Event>)
    requires FreshIds(events)
    ensures Disjoint(After(events))
  {
    forall a, b, id | id in Held(After(events), a) && id in Held(After(events), b)
      ensures a == b
    {
      HeldAreTheLastSince(events, a);
      HeldAreTheLastSince(events, b);
      OnePrimitiveSince(events, a, b, id);
    }
  }

  /** What is held after a revocation was not taken by it. */
  lemma RevocationTakesOnlyItsOwn(t: Table, name: string)
    requires Disjoint(t)
    ensures forall other, id :: id in Held(OnEvent(t, ChildGone(name)), other) ==> id !in Held(t, name)
  {
    forall other, id | id in Held(OnEvent(t, ChildGone(name)), other)
      ensures id !in Held(t, name)
    {
      assert other != name && id in Held(t, other);
    }
  }

  // ---------------------------------------------------------------------
  // The registry and the listener it revokes through
  // ---------------------------------------------------------------------

  /** The IPC listener: its open connections, and every id it was asked to close. */
  class Listener {
    var open: set<nat>
    var asked: seq<nat>

    constructor (connections: set<nat>)
      ensures open == connections && asked == []
    {
      open, asked := connections, [];
    }

    /** Close a connection, reporting whether it was still open. */
    method Revoke(id: nat) returns (was: bool)
      modifies this
      ensures was == (id in old(open)) && open == old(open) - {id} && asked == old(asked) + [id]
    {
      was := id in open;
      open := open - {id};
      asked := asked + [id];
    }
  }

  function SetOf(ids: seq<nat>): set<nat> { set id | id in ids }

  /** How many of the ids are open. */
  function OpenAmong(open: set<nat>, ids: seq<nat>): nat { |open * SetOf(ids)| }

  lemma NoneAsked(open: set<nat>)
    ensures OpenAmong(open, []) == 0 && open - SetOf([]) == open
  {
    assert SetOf([]) == {} && open * SetOf([]) == {};
  }

  /** Asking for one more distinct id closes one more connection if it was open. */
  lemma OneMoreAsked(open: set<nat>, ids: seq<nat>, i: nat)
    requires Distinct(ids) && i < |ids|
    ensures ids[..i + 1] == ids[..i] + [ids[i]]
    ensures open - SetOf(ids[..i + 1]) == (open - SetOf(ids[..i])) - {ids[i]}
    ensures OpenAmong(open, ids[..i + 1])
         == OpenAmong(open, ids[..i]) + if ids[i] in open - SetOf(ids[..i]) then 1 else 0
  {
    var before, after := SetOf(ids[..i]), SetOf(ids[..i + 1]);
    assert ids[i] !in before;
    assert after == before + {ids[i]} by {
      assert ids[..i + 1] == ids[..i] + [ids[i]];
    }
    hide SetOf, Distinct;
    assert open * after == if ids[i] in open then open * before + {ids[i]} else open * before;
  }

  /** The revocation loop: each id is asked for once, in order, and the answer is
      how many were open. */
  method RevokeEach(listener: Listener, ids: seq<nat>) returns (closed: nat)
    requires Distinct(ids)
    modifies listener
    ensures listener.asked == old(listener.asked) + ids
    ensures listener.open == old(listener.open) - SetOf(ids)
    ensures closed == OpenAmong(old(listener.open), ids)
  {
    hide SetOf, Distinct, OpenAmong;
    closed := 0;
    ghost var open := listener.open;
    NoneAsked(open);
    assert ids[..0] == [] && ids[..|ids|] == ids;
    for i := 0 to |ids|
      invariant listener.asked == old(listener.asked) + ids[..i]
      invariant listener.open == open - SetOf(ids[..i])
      invariant closed == OpenAmong(open, ids[..i])
    {
      OneMoreAsked(open, ids, i);
      var was := listener.Revoke(ids[i]);
      if was {
        closed := closed + 1;
      }
    }
  }

  class ConnectionRegistry {
    var connections: Table
    var revoker: Listener?

    ghost predicate Valid()
      reads this
    {
      Bounded(connections)
    }

    constructor ()
      ensures Valid() && connections == After([]) && revoker == null
    {
      connections, revoker := map[], null;
    }

    /** Only the first listener installed is kept. */
    method InstallRevoker(listener: Listener)
      requires Valid()
      modifies this`revoker
      ensures Valid() && revoker == if old(revoker) == null then listener else old(revoker)
    {
      if revoker == null {
        revoker := listener;
      }
    }

    method Record(identity: Option<string>, id: nat)
      requires Valid()
      modifies this`connections
      ensures Valid() && connections == OnEvent(old(connections), Admitted(identity, id))
    {
      EventKeepsBounded(connections, Admitted(identity, id));
      if identity.None? {
        return;
      }
      var name := identity.value;
      var ids := if name in connections then connections[name] else [];
      var (kept, _) := Remember(ids, id, MAX_CONNECTIONS_PER_PRIMITIVE);
      connections := connections[name := kept];
    }

    method ConnectionsFor(name: string) returns (ids: seq<nat>)
      requires Valid()
      ensures ids == Held(connections, name)
      ensures Distinct(ids) && |ids| <= 64
    {
      ids := if name in connections then connections[name] else [];
    }

    /** The ids are forgotten whether or not there is a listener to close them; a
        listener is asked for each of them once, in order, and the answer is how
        many were still open. Where no connection is held for two primitives, which
        HeldAreDisjoint proves of every run, what the others hold is neither asked
        for nor closed. */
    method RevokeAll(name: string) returns (closed: nat)
      requires Valid()
      modifies this`connections, revoker
      ensures Valid() && revoker == old(revoker)
      ensures connections == OnEvent(old(connections), ChildGone(name))
      ensures revoker == null ==> closed == 0
      ensures revoker != null ==>
        && revoker.asked == old(revoker.asked) + old(Held(connections, name))
        && revoker.open == old(revoker.open) - SetOf(old(Held(connections, name)))
        && closed == OpenAmong(old(revoker.open), old(Held(connections, name)))
      ensures revoker != null && Disjoint(old(connections)) ==>
        forall other, id :: id in Held(connections, other) ==>
          id !in old(Held(connections, name)) && (id in revoker.open <==> id in old(revoker.open))
    {
      var ids := if name in connections then connections[name] else [];
      ghost var before := connections;
      connections := connections - {name};
      if Disjoint(before) {
        RevocationTakesOnlyItsOwn(before, name);
      }
      if ids == [] {
        assert revoker != null ==> revoker.open - SetOf(ids) == revoker.open && OpenAmong(revoker.open, ids) == 0 by {
          if revoker != null {
            NoneAsked(revoker.open);
          }
        }
        return 0;
      }
      if revoker == null {
        return 0;
      }
      hide SetOf, Distinct, OpenAmong;
      closed := RevokeEach(revoker, ids);
    }
  }
}
